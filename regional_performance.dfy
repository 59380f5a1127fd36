/** `analyze_regional_performance` (OLAP/regional_performance.py): total
    sales and total profit per region, summed together in one grouping. */
module RegionalPerformance {
  import opened Ordering
  import opened Sales
  import opened GroupBy

  /** One row of `region_performance`. */
  datatype RegionTotals = RegionTotals(region: string, salesAmount: int, profit: int)

  function RowRegion(row: RegionTotals): string { row.region }

  function RowSales(row: RegionTotals): int { row.salesAmount }

  function RowProfit(row: RegionTotals): int { row.profit }

  /** `df.groupby('region')[['sales_amount', 'profit']].sum().reset_index()`:
      both columns are summed by one grouping, so both sums of a row come
      from the same records. */
  function AnalyzeRegionalPerformance(rs: seq<Record>): (rows: seq<RegionTotals>)
    ensures |rows| <= |rs|
    ensures rs == [] ==> rows == []
  {
    var t := GroupBySum(rs, RegionOf, [SalesAmount, Profit], StrLess);
    seq(|t|, i requires 0 <= i < |t| => RegionTotals(t[i].key, t[i].sums[0], t[i].sums[1]))
  }

  /** Exactly the regions that occur get a row, one each, in ascending region
      order; empty input gives no rows and there are never more rows than
      records. */
  lemma RegionalKeys(rs: seq<Record>)
    ensures var rows := AnalyzeRegionalPerformance(rs);
      && (set row | row in rows :: row.region) == KeysOf(rs, RegionOf)
      && (forall i, j :: 0 <= i < j < |rows| ==> StrLess(rows[i].region, rows[j].region))
      && (forall i, j :: 0 <= i < j < |rows| ==> rows[i].region != rows[j].region)
      && |rows| == |KeysOf(rs, RegionOf)| <= |rs|
      && (rs == [] ==> rows == [])
  {
    var t := GroupBySum(rs, RegionOf, [SalesAmount, Profit], StrLess);
    var rows := AnalyzeRegionalPerformance(rs);
    assert Sorted(t, StrLess) && Keys(t) == KeysOf(rs, RegionOf) && |t| == |KeysOf(rs, RegionOf)| <= |rs| by {
      StrLessIsStrictTotalOrder();
      GroupBySumCorrect(rs, RegionOf, [SalesAmount, Profit], StrLess);
    }
    RowKeys(t, rows, RowRegion);
    forall i, j | 0 <= i < j < |rows| ensures rows[i].region != rows[j].region {
      StrLessIrreflexive(rows[i].region);
    }
  }

  /** A row's sales and profit are the sums over one and the same set of
      records: exactly those of its region. */
  lemma RegionalSums(rs: seq<Record>)
    ensures var rows := AnalyzeRegionalPerformance(rs);
      forall i :: 0 <= i < |rows| ==>
        var mine := Filter(rs, RegionOf, rows[i].region);
        rows[i].salesAmount == SumOf(mine, SalesAmount) && rows[i].profit == SumOf(mine, Profit)
  {
    var t := GroupBySum(rs, RegionOf, [SalesAmount, Profit], StrLess);
    assert forall i :: 0 <= i < |t| ==> t[i].sums == ColumnSums(Filter(rs, RegionOf, t[i].key), [SalesAmount, Profit]) by {
      StrLessIsStrictTotalOrder();
      GroupBySumCorrect(rs, RegionOf, [SalesAmount, Profit], StrLess);
    }
  }

  /** Over all rows, sales add up to total sales and profit to total profit. */
  lemma RegionalTotals(rs: seq<Record>)
    ensures SumBy(AnalyzeRegionalPerformance(rs), RowSales) == SumOf(rs, SalesAmount)
    ensures SumBy(AnalyzeRegionalPerformance(rs), RowProfit) == SumOf(rs, Profit)
  {
    var t := GroupBySum(rs, RegionOf, [SalesAmount, Profit], StrLess);
    assert ColumnTotal(t, 0) == SumOf(rs, SalesAmount) && ColumnTotal(t, 1) == SumOf(rs, Profit) by {
      StrLessIsStrictTotalOrder();
      GroupBySumCorrect(rs, RegionOf, [SalesAmount, Profit], StrLess);
    }
    SumByColumn(t, 0, AnalyzeRegionalPerformance(rs), RowSales);
    SumByColumn(t, 1, AnalyzeRegionalPerformance(rs), RowProfit);
  }
}
