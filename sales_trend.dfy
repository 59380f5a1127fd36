/** `analyze_sales_trend` (OLAP/sales_trend.py): total sales per calendar
    month, in chronological order, each month shown as its first day. */
module SalesTrend {
  import opened Dates
  import opened Sales
  import opened GroupBy

  /** A row of `sales_trend` after line 37: the month is still a period. */
  datatype MonthTotal = MonthTotal(month: MonthKey, salesAmount: int)

  /** A row of `sales_trend` after line 38: the month is a date. */
  datatype MonthSales = MonthSales(month: Date, salesAmount: int)

  function RowMonth(row: MonthSales): MonthKey { MonthOf(row.month) }

  function RowSales(row: MonthSales): int { row.salesAmount }

  /** Line 33 adds `month` (the record's `OrderMonth`) and line 37 is
      `df.groupby('month')['sales_amount'].sum().reset_index()`. */
  function SalesByMonth(rs: seq<Record>): (rows: seq<MonthTotal>)
    ensures |rows| <= |rs|
    ensures rs == [] ==> rows == []
  {
    var t := GroupBySum(rs, OrderMonth, [SalesAmount], MonthLess);
    seq(|t|, i requires 0 <= i < |t| => MonthTotal(t[i].key, t[i].sums[0]))
  }

  /** Line 38, `sales_trend['month'].dt.to_timestamp()`: every period is
      replaced by the first day of its month. */
  function MonthsToTimestamps(rows: seq<MonthTotal>): (out: seq<MonthSales>)
    ensures |out| == |rows|
    ensures forall i :: 0 <= i < |rows| ==>
      out[i].month.day == 1 && MonthOf(out[i].month) == rows[i].month && out[i].salesAmount == rows[i].salesAmount
  {
    seq(|rows|, i requires 0 <= i < |rows| => MonthSales(FirstDay(rows[i].month), rows[i].salesAmount))
  }

  /** `analyze_sales_trend`, lines 33-38. */
  function AnalyzeSalesTrend(rs: seq<Record>): (trend: seq<MonthSales>)
    ensures |trend| <= |rs|
    ensures forall i :: 0 <= i < |trend| ==> trend[i].month.day == 1
  {
    MonthsToTimestamps(SalesByMonth(rs))
  }

  /** Only months with at least one record appear, each once (no gap is
      zero-filled); rows are strictly ascending by month and by date; each
      row's date is a valid first day of its month. */
  lemma SalesTrendMonths(rs: seq<Record>)
    ensures var trend := AnalyzeSalesTrend(rs);
      && (set row | row in trend :: MonthOf(row.month)) == KeysOf(rs, OrderMonth)
      && (forall i, j :: 0 <= i < j < |trend| ==>
            MonthLess(MonthOf(trend[i].month), MonthOf(trend[j].month)) && DateLess(trend[i].month, trend[j].month))
      && (forall i :: 0 <= i < |trend| ==> IsValidDate(trend[i].month) && trend[i].month.day == 1)
      && |trend| == |KeysOf(rs, OrderMonth)| <= |rs|
  {
    var t := GroupBySum(rs, OrderMonth, [SalesAmount], MonthLess);
    var trend := AnalyzeSalesTrend(rs);
    assert forall i :: 0 <= i < |t| ==> MonthOf(trend[i].month) == t[i].key;
    assert Sorted(t, MonthLess) && Keys(t) == KeysOf(rs, OrderMonth) && |t| == |KeysOf(rs, OrderMonth)| <= |rs| by {
      MonthLessIsStrictTotalOrder();
      GroupBySumCorrect(rs, OrderMonth, [SalesAmount], MonthLess);
    }
    forall i | 0 <= i < |t| ensures IsValidDate(trend[i].month) {
      assert t[i].key in Keys(t);
    }
    RowKeys(t, trend, RowMonth);
  }

  /** Each month's sales are the total sales of exactly the records dated in
      that month. */
  lemma SalesTrendSums(rs: seq<Record>)
    ensures var trend := AnalyzeSalesTrend(rs);
      forall i :: 0 <= i < |trend| ==>
        trend[i].salesAmount == SumOf(Filter(rs, OrderMonth, MonthOf(trend[i].month)), SalesAmount)
  {
    var t := GroupBySum(rs, OrderMonth, [SalesAmount], MonthLess);
    var trend := AnalyzeSalesTrend(rs);
    assert forall i :: 0 <= i < |t| ==> MonthOf(trend[i].month) == t[i].key;
    assert forall i :: 0 <= i < |t| ==> t[i].sums == ColumnSums(Filter(rs, OrderMonth, t[i].key), [SalesAmount]) by {
      MonthLessIsStrictTotalOrder();
      GroupBySumCorrect(rs, OrderMonth, [SalesAmount], MonthLess);
    }
  }

  /** The monthly sales add up to the total sales. */
  lemma SalesTrendTotal(rs: seq<Record>)
    ensures SumBy(AnalyzeSalesTrend(rs), RowSales) == SumOf(rs, SalesAmount)
  {
    var t := GroupBySum(rs, OrderMonth, [SalesAmount], MonthLess);
    assert ColumnTotal(t, 0) == SumOf(rs, SalesAmount) by {
      MonthLessIsStrictTotalOrder();
      GroupBySumCorrect(rs, OrderMonth, [SalesAmount], MonthLess);
    }
    SumByColumn(t, 0, AnalyzeSalesTrend(rs), RowSales);
  }

  /** `analyze_sales_trend` on its DataFrame, lines 33-38: the month column
      is added in place, the records are grouped by it, and the grouped
      months are turned into their first days. Line 38 overwrites a column of
      periods with a column of timestamps; the model builds the converted
      table instead, since the column changes type. */
  method RunAnalyzeSalesTrend(table: SalesTable) returns (trend: seq<MonthSales>)
    modifies table`month
    ensures |table.month| == |table.records|
    ensures forall i :: 0 <= i < |table.records| ==> table.month[i] == OrderMonth(table.records[i])
    ensures trend == AnalyzeSalesTrend(table.records)
  {
    table.AddMonthColumn();
    var byMonth := SalesByMonth(table.records);
    trend := MonthsToTimestamps(byMonth);
  }

  function Sale(date: CalendarDate, amount: int): Record {
    Record("ORD00000", date, "Books", "North", amount, 0, "Cash", amount)
  }

  /** Sales in January and March 2024 but none in February give exactly two
      rows; February does not appear with a zero. */
  lemma NoZeroFilledGap()
    ensures AnalyzeSalesTrend([Sale(Date(2024, 1, 5), 100), Sale(Date(2024, 3, 9), 250), Sale(Date(2024, 1, 31), 40)])
      == [MonthSales(Date(2024, 1, 1), 140), MonthSales(Date(2024, 3, 1), 250)]
  {
    var r1, r2, r3 := Sale(Date(2024, 1, 5), 100), Sale(Date(2024, 3, 9), 250), Sale(Date(2024, 1, 31), 40);
    var jan, mar := MonthKey(2024, 1), MonthKey(2024, 3);
    var rs := [r1, r2, r3];
    assert rs[..2] == [r1, r2] && [r1, r2][..1] == [r1] && [r1][..0] == [];
    assert Project(r1, [SalesAmount]) == [100];
    assert Project(r2, [SalesAmount]) == [250];
    assert Project(r3, [SalesAmount]) == [40];
    assert Plus([100], [40]) == [140];
    assert GroupBySum([r1], OrderMonth, [SalesAmount], MonthLess) == [Group(jan, [100])];
    assert [Group(jan, [100])][1..] == [];
    assert AddTo([Group(jan, [100])], mar, [250], MonthLess) == [Group(jan, [100]), Group(mar, [250])];
    assert GroupBySum([r1, r2], OrderMonth, [SalesAmount], MonthLess) == [Group(jan, [100]), Group(mar, [250])];
    assert [Group(jan, [100]), Group(mar, [250])][1..] == [Group(mar, [250])];
    assert AddTo([Group(jan, [100]), Group(mar, [250])], jan, [40], MonthLess) == [Group(jan, [140]), Group(mar, [250])];
    assert GroupBySum(rs, OrderMonth, [SalesAmount], MonthLess) == [Group(jan, [140]), Group(mar, [250])];
  }
}
