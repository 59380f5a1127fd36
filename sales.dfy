/** The transaction record every script reads from `sales_data.csv`, the
    numeric columns they sum, and the brute-force filter-and-sum that every
    grouped total is checked against. Money is held in integer cents. */
module Sales {
  import opened Ordering
  import opened Dates

  /** One row of the sales table; `salesAmount`, `cost` and `profit` are in
      cents. */
  datatype Record = Record(
    orderId: string,
    orderDate: CalendarDate,
    productCategory: string,
    region: string,
    salesAmount: int,
    cost: int,
    paymentMethod: string,
    profit: int)

  /** The numeric columns a script can select for summing. */
  datatype Column = SalesAmount | Cost | Profit

  function ColumnValue(r: Record, c: Column): int {
    match c
    case SalesAmount => r.salesAmount
    case Cost => r.cost
    case Profit => r.profit
  }

  /** The total of one column over all records. */
  function SumOf(rs: seq<Record>, c: Column): int
    decreases |rs|
  {
    if rs == [] then 0 else SumOf(rs[..|rs| - 1], c) + ColumnValue(rs[|rs| - 1], c)
  }

  /** The records whose key is `k`, in input order. */
  function Filter<K(==)>(rs: seq<Record>, keyOf: Record -> K, k: K): (f: seq<Record>)
    ensures |f| <= |rs|
    ensures forall r :: r in f <==> r in rs && keyOf(r) == k
    decreases |rs|
  {
    if rs == [] then []
    else
      var init := Filter(rs[..|rs| - 1], keyOf, k);
      assert rs == rs[..|rs| - 1] + [rs[|rs| - 1]];
      if keyOf(rs[|rs| - 1]) == k then init + [rs[|rs| - 1]] else init
  }

  /** The distinct keys that occur in the records. */
  function KeysOf<K>(rs: seq<Record>, keyOf: Record -> K): set<K> {
    set r | r in rs :: keyOf(r)
  }

  lemma KeysOfSnoc<K>(rs: seq<Record>, keyOf: Record -> K)
    requires rs != []
    ensures KeysOf(rs, keyOf) == KeysOf(rs[..|rs| - 1], keyOf) + {keyOf(rs[|rs| - 1])}
  {
    assert rs == rs[..|rs| - 1] + [rs[|rs| - 1]];
  }

  // The grouping keys the scripts use.

  function CategoryOf(r: Record): string { r.productCategory }

  function RegionOf(r: Record): string { r.region }

  /** The `month` column added by `df['month'] = ...to_period('M')`. */
  function OrderMonth(r: Record): (m: MonthKey)
    ensures IsValidMonth(m) && m.year == r.orderDate.year && m.month == r.orderDate.month
  {
    MonthOf(r.orderDate)
  }

  /** The DataFrame an analysis script reads, with the `month` column that
      `analyze_profit` and `analyze_sales_trend` add to it. `month` is empty
      until that column is added. */
  class SalesTable {
    var records: seq<Record>
    var month: seq<MonthKey>

    /** `pd.read_csv(input_file)`: the records, without a month column. */
    constructor (records: seq<Record>)
      ensures this.records == records && month == []
    {
      this.records := records;
      month := [];
    }

    /** `df['month'] = pd.to_datetime(df['order_date']).dt.to_period('M')`:
        every record gets the valid month its order date falls in; the
        records themselves do not change. */
    method AddMonthColumn()
      modifies this`month
      ensures |month| == |records|
      ensures forall i :: 0 <= i < |records| ==> month[i] == OrderMonth(records[i]) && IsValidMonth(month[i])
    {
      var rs := records;
      month := seq(|rs|, i requires 0 <= i < |rs| => OrderMonth(rs[i]));
    }
  }

  /** The (product_category, region, month) key of the profit breakdown. */
  datatype Cell = Cell(productCategory: string, region: string, month: MonthKey)

  function CellOf(r: Record): (c: Cell)
    ensures c.productCategory == r.productCategory && c.region == r.region
    ensures IsValidMonth(c.month) && c.month == OrderMonth(r)
  {
    Cell(r.productCategory, r.region, OrderMonth(r))
  }

  /** The order of a MultiIndex sorted level by level. */
  predicate CellLess(a: Cell, b: Cell) {
    || StrLess(a.productCategory, b.productCategory)
    || (a.productCategory == b.productCategory && StrLess(a.region, b.region))
    || (a.productCategory == b.productCategory && a.region == b.region && MonthLess(a.month, b.month))
  }

  lemma CellLessIsStrictTotalOrder()
    ensures StrictTotalOrder(CellLess)
  {
    StrLessIsStrictTotalOrder();
    MonthLessIsStrictTotalOrder();
  }

  lemma CellLessIrreflexive(c: Cell)
    ensures !CellLess(c, c)
  {
    StrLessIrreflexive(c.productCategory);
    StrLessIrreflexive(c.region);
  }

  /** A record matches a cell exactly when it matches all three components. */
  lemma CellMatch(r: Record, c: Cell)
    ensures CellOf(r) == c <==>
      r.productCategory == c.productCategory && r.region == c.region && MonthOf(r.orderDate) == c.month
  {
  }
}
