/** `analyze_profit` (OLAP/profit_analysis.py): total profit per
    (product category, region, month). */
module ProfitAnalysis {
  import opened Dates
  import opened Sales
  import opened GroupBy

  /** One row of `profit_analysis`. */
  datatype ProfitCell = ProfitCell(productCategory: string, region: string, month: MonthKey, profit: int)

  function CellKey(row: ProfitCell): Cell {
    Cell(row.productCategory, row.region, row.month)
  }

  function RowProfit(row: ProfitCell): int { row.profit }

  /** Line 33 adds `month` (the record's `OrderMonth`) and line 37 is
      `df.groupby(['product_category', 'region', 'month'])['profit'].sum()
      .reset_index()`. */
  function AnalyzeProfit(rs: seq<Record>): (rows: seq<ProfitCell>)
    ensures |rows| <= |rs|
    ensures rs == [] ==> rows == []
  {
    var t := GroupBySum(rs, CellOf, [Profit], CellLess);
    seq(|t|, i requires 0 <= i < |t| => ProfitCell(t[i].key.productCategory, t[i].key.region, t[i].key.month, t[i].sums[0]))
  }

  /** Every (category, region, month) triple with a record gets exactly one
      row and no other triple gets one; rows come sorted by category, then
      region, then month; the row count is the number of distinct triples,
      which never exceeds the number of records. */
  lemma AnalyzeProfitKeys(rs: seq<Record>)
    ensures var rows := AnalyzeProfit(rs);
      && (set row | row in rows :: CellKey(row)) == KeysOf(rs, CellOf)
      && (forall i, j :: 0 <= i < j < |rows| ==> CellLess(CellKey(rows[i]), CellKey(rows[j])))
      && (forall i, j :: 0 <= i < j < |rows| ==> CellKey(rows[i]) != CellKey(rows[j]))
      && |rows| == |KeysOf(rs, CellOf)| <= |rs|
  {
    var t := GroupBySum(rs, CellOf, [Profit], CellLess);
    var rows := AnalyzeProfit(rs);
    assert forall i :: 0 <= i < |t| ==> CellKey(rows[i]) == t[i].key;
    assert Sorted(t, CellLess) && Keys(t) == KeysOf(rs, CellOf) && |t| == |KeysOf(rs, CellOf)| <= |rs| by {
      CellLessIsStrictTotalOrder();
      GroupBySumCorrect(rs, CellOf, [Profit], CellLess);
    }
    RowKeys(t, rows, CellKey);
    forall i, j | 0 <= i < j < |rows| ensures CellKey(rows[i]) != CellKey(rows[j]) {
      CellLessIrreflexive(CellKey(rows[i]));
    }
  }

  /** Each row's profit is the total profit of exactly the records that
      match it in category, region and month. */
  lemma AnalyzeProfitSums(rs: seq<Record>)
    ensures var rows := AnalyzeProfit(rs);
      forall i :: 0 <= i < |rows| ==> rows[i].profit == SumOf(Filter(rs, CellOf, CellKey(rows[i])), Profit)
  {
    var t := GroupBySum(rs, CellOf, [Profit], CellLess);
    var rows := AnalyzeProfit(rs);
    assert forall i :: 0 <= i < |t| ==> CellKey(rows[i]) == t[i].key;
    assert forall i :: 0 <= i < |t| ==> t[i].sums == ColumnSums(Filter(rs, CellOf, t[i].key), [Profit]) by {
      CellLessIsStrictTotalOrder();
      GroupBySumCorrect(rs, CellOf, [Profit], CellLess);
    }
  }

  /** The cells add up to the total profit: no record is skipped or counted
      twice. */
  lemma AnalyzeProfitTotal(rs: seq<Record>)
    ensures SumBy(AnalyzeProfit(rs), RowProfit) == SumOf(rs, Profit)
  {
    var t := GroupBySum(rs, CellOf, [Profit], CellLess);
    assert ColumnTotal(t, 0) == SumOf(rs, Profit) by {
      CellLessIsStrictTotalOrder();
      GroupBySumCorrect(rs, CellOf, [Profit], CellLess);
    }
    SumByColumn(t, 0, AnalyzeProfit(rs), RowProfit);
  }

  /** `analyze_profit` on its DataFrame, lines 33-37: the month column is
      added in place, then the records are grouped by category, region and
      that month. */
  method RunAnalyzeProfit(table: SalesTable) returns (rows: seq<ProfitCell>)
    modifies table`month
    ensures |table.month| == |table.records|
    ensures forall i :: 0 <= i < |table.records| ==> table.month[i] == CellOf(table.records[i]).month
    ensures rows == AnalyzeProfit(table.records)
  {
    table.AddMonthColumn();
    rows := AnalyzeProfit(table.records);
  }
}
