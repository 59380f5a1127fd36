/** The deterministic part of `generate_sales_data` (scripts/data_prep.py):
    order IDs, amounts held to whole cents and the profit column. The random
    draws and the current time are taken as inputs. */
module DataPrep {
  import opened Dates
  import opened Sales

  datatype Option<T> = None | Some(value: T)

  const ProductCategories: seq<string> := ["Electronics", "Clothing", "Home Goods", "Books"]
  const Regions: seq<string> := ["North", "South", "East", "West"]
  const PaymentMethods: seq<string> := ["Credit Card", "PayPal", "Bank Transfer", "Cash"]

  // ---------------------------------------------------------------------
  // Order IDs: f'ORD{i:05d}'

  predicate IsDigit(c: char) {
    '0' <= c <= '9'
  }

  predicate AllDigits(s: string) {
    forall i :: 0 <= i < |s| ==> IsDigit(s[i])
  }

  function DigitChar(d: nat): (c: char)
    requires d < 10
    ensures IsDigit(c)
  {
    ('0' as int + d) as char
  }

  function DigitValue(c: char): (d: nat)
    requires IsDigit(c)
    ensures d < 10 && DigitChar(d) == c
  {
    c as int - '0' as int
  }

  function Pow10(k: nat): (p: nat)
    ensures p >= 1
  {
    if k == 0 then 1 else 10 * Pow10(k - 1)
  }

  /** The decimal digits of `n`, without leading zeros. */
  function Digits(n: nat): (s: string)
    ensures |s| >= 1 && AllDigits(s)
    decreases n
  {
    if n < 10 then [DigitChar(n)] else Digits(n / 10) + [DigitChar(n % 10)]
  }

  /** The value of a string of decimal digits. */
  function ParseDigits(s: string): nat
    requires AllDigits(s)
    decreases |s|
  {
    if s == [] then 0 else ParseDigits(s[..|s| - 1]) * 10 + DigitValue(s[|s| - 1])
  }

  function ZeroChars(k: nat): (s: string)
    ensures |s| == k && AllDigits(s)
  {
    seq(k, _ => '0')
  }

  /** Format spec `05d`: at least five digits, zero-padded on the left;
      wider numbers are not cut. */
  function ZeroPad5(n: nat): (s: string)
    ensures AllDigits(s) && ParseDigits(s) == n
    ensures |s| == if |Digits(n)| < 5 then 5 else |Digits(n)|
  {
    var d := Digits(n);
    DigitsRoundTrip(n);
    if |d| < 5 then
      LeadingZeros(5 - |d|, d);
      ZeroChars(5 - |d|) + d
    else d
  }

  /** The order ID of record `i`, line 40. */
  function OrderId(i: nat): (id: string)
    ensures |id| >= 8 && id[..3] == "ORD" && AllDigits(id[3..])
  {
    "ORD" + ZeroPad5(i)
  }

  /** Reads an order ID back: "ORD" followed by one or more digits. */
  function ParseOrderId(id: string): (r: Option<nat>)
    ensures r.Some? ==> |id| > 3 && id[..3] == "ORD"
  {
    if |id| > 3 && id[..3] == "ORD" && AllDigits(id[3..]) then Some(ParseDigits(id[3..])) else None
  }

  lemma {:induction false} DigitsRoundTrip(n: nat)
    ensures ParseDigits(Digits(n)) == n
    decreases n
  {
    if n >= 10 {
      var d := Digits(n / 10);
      DigitsRoundTrip(n / 10);
      assert (d + [DigitChar(n % 10)])[..|d|] == d;
    }
  }

  /** Leading zeros do not change a number's value. */
  lemma {:induction false} LeadingZeros(k: nat, s: string)
    requires AllDigits(s)
    ensures ParseDigits(ZeroChars(k) + s) == ParseDigits(s)
    decreases |s|
  {
    if s == [] {
      assert ZeroChars(k) + s == ZeroChars(k);
      ZerosValue(k);
    } else {
      var init := s[..|s| - 1];
      LeadingZeros(k, init);
      assert (ZeroChars(k) + s)[..|ZeroChars(k) + s| - 1] == ZeroChars(k) + init;
    }
  }

  lemma {:induction false} ZerosValue(k: nat)
    ensures ParseDigits(ZeroChars(k)) == 0
  {
    if k > 0 {
      assert ZeroChars(k)[..k - 1] == ZeroChars(k - 1);
      ZerosValue(k - 1);
    }
  }

  /** `n` has at most `k` digits exactly when it is below 10^k. */
  lemma {:induction false} DigitsLength(n: nat, k: nat)
    requires k >= 1
    ensures |Digits(n)| <= k <==> n < Pow10(k)
    decreases n
  {
    if n >= 10 {
      if k == 1 {
        assert |Digits(n)| == |Digits(n / 10)| + 1;
      } else {
        DigitsLength(n / 10, k - 1);
      }
    } else if k > 1 {
      assert Pow10(k) == 10 * Pow10(k - 1);
    }
  }

  /** Reading an order ID gives back its index. */
  lemma ParseOrderIdRoundTrip(i: nat)
    ensures ParseOrderId(OrderId(i)) == Some(i)
  {
    var id := OrderId(i);
    assert id[3..] == ZeroPad5(i);
  }

  /** Distinct indices give distinct order IDs. */
  lemma OrderIdInjective(i: nat, j: nat)
    requires OrderId(i) == OrderId(j)
    ensures i == j
  {
    ParseOrderIdRoundTrip(i);
    ParseOrderIdRoundTrip(j);
  }

  /** Order IDs are eight characters long exactly for indices below 100000. */
  lemma OrderIdLength(i: nat)
    ensures |OrderId(i)| == 8 <==> i < 100000
  {
    DigitsLength(i, 5);
    assert Pow10(5) == 100000;
  }

  /** Line 40, `[f'ORD{i:05d}' for i in range(num_records)]`. */
  function OrderIds(n: nat): (ids: seq<string>)
    ensures |ids| == n
    ensures forall i, j :: 0 <= i < j < n ==> ids[i] != ids[j]
    ensures forall i :: 0 <= i < n ==> ParseOrderId(ids[i]) == Some(i)
  {
    var ids := seq(n, i requires 0 <= i < n => OrderId(i));
    assert forall i :: 0 <= i < n ==> ParseOrderId(ids[i]) == Some(i) by {
      forall i | 0 <= i < n ensures ParseOrderId(ids[i]) == Some(i) {
        ParseOrderIdRoundTrip(i);
      }
    }
    ids
  }

  // ---------------------------------------------------------------------
  // Amounts: `.round(2)` and the profit column

  /** The nearest whole number of cents; a value exactly half-way rounds
      up. */
  function RoundCents(x: real): (c: int)
    ensures c as real - 0.5 <= x * 100.0 < c as real + 0.5
  {
    (x * 100.0 + 0.5).Floor
  }

  /** `round(2)`: the amount held to two fractional digits. */
  function Round2(x: real): (r: real)
    ensures x - 0.005 < r <= x + 0.005
  {
    RoundCents(x) as real / 100.0
  }

  /** A whole number of cents. */
  predicate IsWholeCents(x: real) {
    (x * 100.0).Floor as real == x * 100.0
  }

  /** The amount in cents that the CSV row carries. */
  function ToCents(x: real): int {
    (x * 100.0).Floor
  }

  /** `round(2)` leaves a whole number of cents, and reading it in cents
      gives the rounded cents back. */
  lemma Round2IsWholeCents(x: real)
    ensures IsWholeCents(Round2(x)) && ToCents(Round2(x)) == RoundCents(x)
  {
    assert Round2(x) * 100.0 == RoundCents(x) as real;
  }

  /** Rounding is monotone. */
  lemma RoundCentsMonotone(x: real, y: real)
    requires x <= y
    ensures RoundCents(x) <= RoundCents(y)
  {
  }

  /** The difference of two rounded amounts is already rounded, so the
      `round(2)` of line 60 changes nothing: profit is exact in cents. */
  lemma ProfitIsExact(s: real, c: real)
    ensures Round2(Round2(s) - Round2(c)) == Round2(s) - Round2(c)
    ensures ToCents(Round2(Round2(s) - Round2(c))) == RoundCents(s) - RoundCents(c)
  {
    var a, b := RoundCents(s), RoundCents(c);
    assert (Round2(s) - Round2(c)) * 100.0 == (a - b) as real;
    assert RoundCents(Round2(s) - Round2(c)) == a - b;
  }

  /** A row whose amounts were rounded (lines 56-57) and whose profit was
      computed from them (line 60) carries, in cents, the rounded draws and
      their exact difference. */
  lemma CentsOfRoundedRow(s: real, c: real, sales: real, cost: real, profit: real)
    requires sales == Round2(s) && cost == Round2(c) && profit == Round2(sales - cost)
    ensures ToCents(sales) == RoundCents(s) && ToCents(cost) == RoundCents(c)
    ensures ToCents(profit) == ToCents(sales) - ToCents(cost)
  {
    Round2IsWholeCents(s);
    Round2IsWholeCents(c);
    ProfitIsExact(s, c);
  }

  /** Sales drawn from [10, 500] and costs from [5, 200] give a profit
      between -190.00 and 495.00. */
  lemma ProfitRange(s: real, c: real)
    requires 10.0 <= s <= 500.0 && 5.0 <= c <= 200.0
    ensures 1000 <= RoundCents(s) <= 50000 && 500 <= RoundCents(c) <= 20000
    ensures -19000 <= RoundCents(s) - RoundCents(c) <= 49500
  {
  }

  // ---------------------------------------------------------------------
  // The generated DataFrame

  /** A wall-clock instant, as `pd.date_range` produces them. */
  datatype Timestamp = Timestamp(date: CalendarDate, nanosOfDay: nat)

  /** A cell of the `order_date` column: a timestamp until line 53 keeps only
      its date. */
  datatype Moment = Stamp(stamp: Timestamp) | DateOnly(day: CalendarDate)

  function DateOf(m: Moment): CalendarDate {
    match m
    case Stamp(t) => t.date
    case DateOnly(d) => d
  }

  /** The DataFrame built at line 50, one field per column. `profit` is
      empty until line 60 adds it. */
  class SalesFrame {
    var orderId: seq<string>
    var orderDate: seq<Moment>
    var productCategory: seq<string>
    var region: seq<string>
    var salesAmount: seq<real>
    var cost: seq<real>
    var paymentMethod: seq<string>
    var profit: seq<real>

    function Length(): nat
      reads this
    {
      |orderId|
    }

    /** Every column has one cell per row. */
    ghost predicate Valid()
      reads this
    {
      && |orderDate| == Length() && |productCategory| == Length() && |region| == Length()
      && |salesAmount| == Length() && |cost| == Length() && |paymentMethod| == Length()
      && (|profit| == 0 || |profit| == Length())
    }

    /** `pd.DataFrame(data)`, from columns of equal length. */
    constructor (orderId: seq<string>, orderDate: seq<Moment>, productCategory: seq<string>,
                 region: seq<string>, salesAmount: seq<real>, cost: seq<real>, paymentMethod: seq<string>)
      requires |orderDate| == |orderId| && |productCategory| == |orderId| && |region| == |orderId|
      requires |salesAmount| == |orderId| && |cost| == |orderId| && |paymentMethod| == |orderId|
      ensures Valid()
      ensures this.orderId == orderId && this.orderDate == orderDate && this.productCategory == productCategory
      ensures this.region == region && this.salesAmount == salesAmount && this.cost == cost
      ensures this.paymentMethod == paymentMethod && this.profit == []
    {
      this.orderId := orderId;
      this.orderDate := orderDate;
      this.productCategory := productCategory;
      this.region := region;
      this.salesAmount := salesAmount;
      this.cost := cost;
      this.paymentMethod := paymentMethod;
      this.profit := [];
    }

    /** Line 53, `df['order_date'] = df['order_date'].dt.date`: every order
      date keeps its calendar date and loses its time of day. */
    method TruncateDates()
      requires Valid()
      modifies this`orderDate
      ensures Valid()
      ensures |orderDate| == Length()
      ensures forall i :: 0 <= i < Length() ==> orderDate[i] == DateOnly(DateOf(old(orderDate)[i]))
    {
      var dates := orderDate;
      orderDate := seq(|dates|, i requires 0 <= i < |dates| => DateOnly(DateOf(dates[i])));
    }

    /** Lines 56-57: sales and cost are each rounded to two decimals. */
    method RoundAmounts()
      requires Valid()
      modifies this`salesAmount, this`cost
      ensures Valid()
      ensures forall i :: 0 <= i < Length() ==>
        salesAmount[i] == Round2(old(salesAmount)[i]) && cost[i] == Round2(old(cost)[i])
    {
      var sales, costs := salesAmount, cost;
      salesAmount := seq(|sales|, i requires 0 <= i < |sales| => Round2(sales[i]));
      cost := seq(|costs|, i requires 0 <= i < |costs| => Round2(costs[i]));
    }

    /** Line 60, `df['profit'] = (df['sales_amount'] - df['cost']).round(2)`. */
    method AddProfit()
      requires Valid()
      modifies this`profit
      ensures Valid() && |profit| == Length()
      ensures forall i :: 0 <= i < Length() ==> profit[i] == Round2(salesAmount[i] - cost[i])
    {
      var sales, costs := salesAmount, cost;
      profit := seq(|sales|, i requires 0 <= i < |sales| => Round2(sales[i] - costs[i]));
    }

    /** The rows `to_csv` writes, as the OLAP scripts read them back: dates
      without time and amounts in cents. */
    function Rows(): (rows: seq<Record>)
      reads this
      requires Valid() && |profit| == Length()
      ensures |rows| == Length()
    {
      seq(Length(), i requires 0 <= i < Length() && Valid() && |profit| == Length() reads this =>
        Record(orderId[i], DateOf(orderDate[i]), productCategory[i], region[i],
               ToCents(salesAmount[i]), ToCents(cost[i]), paymentMethod[i], ToCents(profit[i])))
    }
  }

  /** Lines 38-60 of `generate_sales_data`: the DataFrame built from the
      draws, its dates truncated, its amounts rounded and its profit added.
      Row `i` is built from the `i`-th draw of each random column; the
      categorical draws are indices into the fixed lists of lines 29-31. */
  method BuildSalesFrame(
    n: nat, dateDraws: seq<Timestamp>, categoryDraws: seq<nat>, regionDraws: seq<nat>,
    salesDraws: seq<real>, costDraws: seq<real>, paymentDraws: seq<nat>)
    returns (frame: SalesFrame)
    requires |dateDraws| == n && |categoryDraws| == n && |regionDraws| == n
    requires |salesDraws| == n && |costDraws| == n && |paymentDraws| == n
    requires forall i :: 0 <= i < n ==>
      categoryDraws[i] < |ProductCategories| && regionDraws[i] < |Regions| && paymentDraws[i] < |PaymentMethods|
    ensures fresh(frame) && frame.Valid() && frame.Length() == n && |frame.profit| == n
    ensures frame.orderId == OrderIds(n)
    ensures forall i :: 0 <= i < n ==>
      && frame.orderDate[i] == DateOnly(dateDraws[i].date)
      && frame.productCategory[i] == ProductCategories[categoryDraws[i]]
      && frame.region[i] == Regions[regionDraws[i]]
      && frame.paymentMethod[i] == PaymentMethods[paymentDraws[i]]
    ensures forall i :: 0 <= i < n ==>
      frame.salesAmount[i] == Round2(salesDraws[i]) && frame.cost[i] == Round2(costDraws[i])
    ensures forall i :: 0 <= i < n ==> frame.profit[i] == Round2(frame.salesAmount[i] - frame.cost[i])
  {
    frame := new SalesFrame(
      OrderIds(n),
      seq(n, i requires 0 <= i < n => Stamp(dateDraws[i])),
      seq(n, i requires 0 <= i < n => ProductCategories[categoryDraws[i]]),
      seq(n, i requires 0 <= i < n => Regions[regionDraws[i]]),
      salesDraws,
      costDraws,
      seq(n, i requires 0 <= i < n => PaymentMethods[paymentDraws[i]]));
    frame.TruncateDates();
    frame.RoundAmounts();
    frame.AddProfit();
  }

  /** `generate_sales_data` followed by writing the CSV: the records the OLAP
      scripts read. Order IDs are `OrderId` of their row index, so they are
      distinct, read back as the index and are eight characters long below
      100000. Amounts are the draws rounded to the nearest cent, profit is
      exactly sales minus cost, and draws in the source's ranges keep profit
      within [-190.00, 495.00]. */
  method GenerateSalesData(
    numRecords: nat, dateDraws: seq<Timestamp>, categoryDraws: seq<nat>, regionDraws: seq<nat>,
    salesDraws: seq<real>, costDraws: seq<real>, paymentDraws: seq<nat>)
    returns (records: seq<Record>)
    requires |dateDraws| == numRecords && |categoryDraws| == numRecords && |regionDraws| == numRecords
    requires |salesDraws| == numRecords && |costDraws| == numRecords && |paymentDraws| == numRecords
    requires forall i :: 0 <= i < numRecords ==>
      categoryDraws[i] < |ProductCategories| && regionDraws[i] < |Regions| && paymentDraws[i] < |PaymentMethods|
    ensures |records| == numRecords
    ensures forall i :: 0 <= i < numRecords ==> records[i].orderId == OrderId(i)
    ensures forall i :: 0 <= i < numRecords ==> ParseOrderId(records[i].orderId) == Some(i)
    ensures forall i, j :: 0 <= i < j < numRecords ==> records[i].orderId != records[j].orderId
    ensures forall i :: 0 <= i < numRecords ==>
      && records[i].orderDate == dateDraws[i].date
      && records[i].productCategory == ProductCategories[categoryDraws[i]]
      && records[i].region == Regions[regionDraws[i]]
      && records[i].paymentMethod == PaymentMethods[paymentDraws[i]]
    ensures forall i :: 0 <= i < numRecords ==>
      records[i].salesAmount == RoundCents(salesDraws[i]) && records[i].cost == RoundCents(costDraws[i])
    ensures forall i :: 0 <= i < numRecords ==> records[i].profit == records[i].salesAmount - records[i].cost
    ensures (forall i :: 0 <= i < numRecords ==> 10.0 <= salesDraws[i] <= 500.0 && 5.0 <= costDraws[i] <= 200.0) ==>
      forall i :: 0 <= i < numRecords ==> -19000 <= records[i].profit <= 49500
  {
    var n := numRecords;
    var frame := BuildSalesFrame(n, dateDraws, categoryDraws, regionDraws, salesDraws, costDraws, paymentDraws);
    records := frame.Rows();
    forall i | 0 <= i < n
      ensures records[i].salesAmount == RoundCents(salesDraws[i]) && records[i].cost == RoundCents(costDraws[i])
      ensures records[i].profit == records[i].salesAmount - records[i].cost
    {
      CentsOfRoundedRow(salesDraws[i], costDraws[i], frame.salesAmount[i], frame.cost[i], frame.profit[i]);
    }
    forall i | 0 <= i < n && 10.0 <= salesDraws[i] <= 500.0 && 5.0 <= costDraws[i] <= 200.0
      ensures -19000 <= records[i].profit <= 49500
    {
      ProfitRange(salesDraws[i], costDraws[i]);
    }
  }
}
