/** `rank_product_profitability` (OLAP/product_profitability.py): total
    profit per product category, ranked from most to least profitable. */
module ProductProfitability {
  import opened Ordering
  import opened Dates
  import opened Sales
  import opened GroupBy

  /** One row of `product_profit`. */
  datatype CategoryProfit = CategoryProfit(productCategory: string, profit: int)

  function RowCategory(row: CategoryProfit): string { row.productCategory }

  function RowProfit(row: CategoryProfit): int { row.profit }

  /** No category has two rows. */
  predicate DistinctCategories(rows: seq<CategoryProfit>) {
    forall i, j :: 0 <= i < j < |rows| ==> rows[i].productCategory != rows[j].productCategory
  }

  /** Every adjacent pair is in non-increasing profit order. */
  predicate NonIncreasing(rows: seq<CategoryProfit>) {
    forall i :: 0 <= i < |rows| - 1 ==> rows[i].profit >= rows[i + 1].profit
  }

  /** `df.groupby('product_category')['profit'].sum().reset_index()`. */
  function ProfitByCategory(rs: seq<Record>): (rows: seq<CategoryProfit>)
    ensures |rows| <= |rs|
    ensures rs == [] ==> rows == []
  {
    var t := GroupBySum(rs, CategoryOf, [Profit], StrLess);
    seq(|t|, i requires 0 <= i < |t| => CategoryProfit(t[i].key, t[i].sums[0]))
  }

  /** Exactly the categories that occur get a row, one each, in ascending
      category order; there are no more rows than records. */
  lemma ProfitByCategoryKeys(rs: seq<Record>)
    ensures var rows := ProfitByCategory(rs);
      && (set row | row in rows :: row.productCategory) == KeysOf(rs, CategoryOf)
      && (forall i, j :: 0 <= i < j < |rows| ==> StrLess(rows[i].productCategory, rows[j].productCategory))
      && DistinctCategories(rows)
      && |rows| == |KeysOf(rs, CategoryOf)| <= |rs|
  {
    var t := GroupBySum(rs, CategoryOf, [Profit], StrLess);
    var rows := ProfitByCategory(rs);
    assert Sorted(t, StrLess) && Keys(t) == KeysOf(rs, CategoryOf) && |t| == |KeysOf(rs, CategoryOf)| <= |rs| by {
      StrLessIsStrictTotalOrder();
      GroupBySumCorrect(rs, CategoryOf, [Profit], StrLess);
    }
    RowKeys(t, rows, RowCategory);
    forall i, j | 0 <= i < j < |rows| ensures rows[i].productCategory != rows[j].productCategory {
      StrLessIrreflexive(rows[i].productCategory);
    }
  }

  /** Each row's profit is the total profit of exactly the records of its
      category. */
  lemma ProfitByCategorySums(rs: seq<Record>)
    ensures var rows := ProfitByCategory(rs);
      forall i :: 0 <= i < |rows| ==>
        rows[i].profit == SumOf(Filter(rs, CategoryOf, rows[i].productCategory), Profit)
  {
    var t := GroupBySum(rs, CategoryOf, [Profit], StrLess);
    assert forall i :: 0 <= i < |t| ==> t[i].sums == ColumnSums(Filter(rs, CategoryOf, t[i].key), [Profit]) by {
      StrLessIsStrictTotalOrder();
      GroupBySumCorrect(rs, CategoryOf, [Profit], StrLess);
    }
  }

  /** The per-category profits add up to the total profit of all records. */
  lemma ProfitByCategoryTotal(rs: seq<Record>)
    ensures SumBy(ProfitByCategory(rs), RowProfit) == SumOf(rs, Profit)
  {
    var t := GroupBySum(rs, CategoryOf, [Profit], StrLess);
    assert ColumnTotal(t, 0) == SumOf(rs, Profit) by {
      StrLessIsStrictTotalOrder();
      GroupBySumCorrect(rs, CategoryOf, [Profit], StrLess);
    }
    SumByColumn(t, 0, ProfitByCategory(rs), RowProfit);
  }

  /** Puts `x` before the first row it is at least as profitable as. */
  function InsertByProfit(x: CategoryProfit, s: seq<CategoryProfit>): (r: seq<CategoryProfit>)
    ensures multiset(r) == multiset(s) + multiset{x}
  {
    if s == [] || x.profit >= s[0].profit then [x] + s
    else
      assert s == [s[0]] + s[1..];
      [s[0]] + InsertByProfit(x, s[1..])
  }

  lemma {:induction false} InsertKeepsOrder(x: CategoryProfit, s: seq<CategoryProfit>)
    requires NonIncreasing(s)
    ensures NonIncreasing(InsertByProfit(x, s))
    ensures InsertByProfit(x, s)[0] == x || (s != [] && InsertByProfit(x, s)[0] == s[0])
  {
    if s != [] && x.profit < s[0].profit {
      var rest := InsertByProfit(x, s[1..]);
      InsertKeepsOrder(x, s[1..]);
      var r := [s[0]] + rest;
      assert r[1..] == rest;
      forall i | 0 <= i < |r| - 1 ensures r[i].profit >= r[i + 1].profit {
        if i > 0 {
          assert r[i] == rest[i - 1] && r[i + 1] == rest[i];
        }
      }
    }
  }

  lemma {:induction false} InsertKeepsTotal(x: CategoryProfit, s: seq<CategoryProfit>)
    ensures SumBy(InsertByProfit(x, s), RowProfit) == x.profit + SumBy(s, RowProfit)
  {
    if s != [] && x.profit < s[0].profit {
      InsertKeepsTotal(x, s[1..]);
      assert ([s[0]] + InsertByProfit(x, s[1..]))[1..] == InsertByProfit(x, s[1..]);
    } else {
      assert ([x] + s)[1..] == s;
    }
  }

  lemma {:induction false} InsertKeepsDistinct(x: CategoryProfit, s: seq<CategoryProfit>)
    requires DistinctCategories(s)
    requires forall y :: y in s ==> y.productCategory != x.productCategory
    ensures DistinctCategories(InsertByProfit(x, s))
  {
    if s != [] && x.profit < s[0].profit {
      var rest := InsertByProfit(x, s[1..]);
      InsertKeepsDistinct(x, s[1..]);
      var r := [s[0]] + rest;
      forall i, j | 0 <= i < j < |r| ensures r[i].productCategory != r[j].productCategory {
        if i == 0 {
          assert r[j] in multiset(rest);
        } else {
          assert r[i] == rest[i - 1] && r[j] == rest[j - 1];
        }
      }
    }
  }

  /** `sort_values(by='profit', ascending=False)`, as an insertion sort: a
      permutation of the rows in non-increasing profit order, with the same
      total. */
  function SortByProfitDescending(s: seq<CategoryProfit>): (r: seq<CategoryProfit>)
    ensures multiset(r) == multiset(s)
    ensures NonIncreasing(r)
    ensures SumBy(r, RowProfit) == SumBy(s, RowProfit)
  {
    if s == [] then []
    else
      assert s == [s[0]] + s[1..];
      var rest := SortByProfitDescending(s[1..]);
      InsertKeepsOrder(s[0], rest);
      InsertKeepsTotal(s[0], rest);
      InsertByProfit(s[0], rest)
  }

  /** Sorting never puts two rows of one category in the table. */
  lemma {:induction false} SortKeepsDistinct(s: seq<CategoryProfit>)
    requires DistinctCategories(s)
    ensures DistinctCategories(SortByProfitDescending(s))
  {
    if s != [] {
      var rest := SortByProfitDescending(s[1..]);
      SortKeepsDistinct(s[1..]);
      forall y | y in rest ensures y.productCategory != s[0].productCategory {
        assert y in multiset(s[1..]);
        var q :| 0 <= q < |s[1..]| && s[1..][q] == y;
        assert s[q + 1] == y;
      }
      InsertKeepsDistinct(s[0], rest);
    }
  }

  /** `rank_product_profitability`, lines 33-34: the per-category totals
      reordered from most to least profitable. Ties keep no particular order,
      since pandas' default sort is not stable. */
  function RankProductProfitability(rs: seq<Record>): (ranked: seq<CategoryProfit>)
    ensures multiset(ranked) == multiset(ProfitByCategory(rs))
    ensures forall i :: 0 <= i < |ranked| - 1 ==> ranked[i].profit >= ranked[i + 1].profit
  {
    SortByProfitDescending(ProfitByCategory(rs))
  }

  lemma SameRows(a: seq<CategoryProfit>, b: seq<CategoryProfit>)
    requires multiset(a) == multiset(b)
    ensures forall row :: row in a <==> row in b
  {
    forall row ensures row in a <==> row in b {
      assert row in a <==> row in multiset(a);
      assert row in b <==> row in multiset(b);
    }
  }

  /** The ranking has one row for each category that occurs and no other;
      empty input gives an empty ranking. */
  lemma RankedCategories(rs: seq<Record>)
    ensures var ranked := RankProductProfitability(rs);
      && DistinctCategories(ranked)
      && (set row | row in ranked :: row.productCategory) == KeysOf(rs, CategoryOf)
      && |ranked| == |KeysOf(rs, CategoryOf)|
      && (rs == [] ==> ranked == [])
  {
    var grouped := ProfitByCategory(rs);
    var ranked := RankProductProfitability(rs);
    ProfitByCategoryKeys(rs);
    SortKeepsDistinct(grouped);
    SameRows(ranked, grouped);
    assert |ranked| == |multiset(ranked)| == |grouped|;
  }

  /** Ranking keeps every category's total: each row's profit is the total
      profit of its category's records, and the rows add up to the total
      profit of all records. */
  lemma RankedProfits(rs: seq<Record>)
    ensures var ranked := RankProductProfitability(rs);
      && (forall row :: row in ranked ==> row.profit == SumOf(Filter(rs, CategoryOf, row.productCategory), Profit))
      && SumBy(ranked, RowProfit) == SumOf(rs, Profit)
  {
    var grouped := ProfitByCategory(rs);
    var ranked := RankProductProfitability(rs);
    ProfitByCategorySums(rs);
    ProfitByCategoryTotal(rs);
    SameRows(ranked, grouped);
    forall row | row in ranked
      ensures row.profit == SumOf(Filter(rs, CategoryOf, row.productCategory), Profit)
    {
      var i :| 0 <= i < |grouped| && grouped[i] == row;
    }
  }

  function Sale(category: string, profit: int): Record {
    Record("ORD00000", Date(2024, 1, 1), category, "North", profit, 0, "Cash", profit)
  }

  /** Grouping profits 10 and 5 in category A and 30 in B gives A (15) and
      B (30), in category order. */
  lemma GroupingExample()
    ensures ProfitByCategory([Sale("A", 10), Sale("B", 30), Sale("A", 5)])
      == [CategoryProfit("A", 15), CategoryProfit("B", 30)]
  {
    var r1, r2, r3 := Sale("A", 10), Sale("B", 30), Sale("A", 5);
    var rs := [r1, r2, r3];
    assert rs[..2] == [r1, r2] && [r1, r2][..1] == [r1] && [r1][..0] == [];
    assert Project(r1, [Profit]) == [10];
    assert Project(r2, [Profit]) == [30];
    assert Project(r3, [Profit]) == [5];
    assert Plus([10], [5]) == [15];
    assert StrLess("A", "B") && !StrLess("B", "A") by {
      assert "A"[1..] == "B"[1..] == "";
    }
    assert GroupBySum([r1], CategoryOf, [Profit], StrLess) == [Group("A", [10])];
    assert [Group("A", [10])][1..] == [];
    assert AddTo([Group("A", [10])], "B", [30], StrLess) == [Group("A", [10]), Group("B", [30])];
    assert GroupBySum([r1, r2], CategoryOf, [Profit], StrLess) == [Group("A", [10]), Group("B", [30])];
    assert [Group("A", [10]), Group("B", [30])][1..] == [Group("B", [30])];
    assert AddTo([Group("A", [10]), Group("B", [30])], "A", [5], StrLess) == [Group("A", [15]), Group("B", [30])];
  }

  /** Profits 10 and 5 in category A and 30 in B rank as B (30), then A (15). */
  lemma RankingExample()
    ensures RankProductProfitability([Sale("A", 10), Sale("B", 30), Sale("A", 5)])
      == [CategoryProfit("B", 30), CategoryProfit("A", 15)]
  {
    var grouped := [CategoryProfit("A", 15), CategoryProfit("B", 30)];
    GroupingExample();
    assert grouped[1..] == [CategoryProfit("B", 30)];
    assert SortByProfitDescending(grouped[1..]) == [CategoryProfit("B", 30)];
  }
}
