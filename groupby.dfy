/** Sparse group-by-sum, the `df.groupby(key)[cols].sum().reset_index()`
    chain every OLAP script applies.

    The grouped table is kept as an association list from key to the
    column-wise sums (the key -> accumulator mapping), sorted by key as
    pandas' `groupby` sorts its keys. It is built by folding the records in
    input order into the table; a key gets a row when its first record
    arrives, so keys without records never get one. */
module GroupBy {
  import opened Ordering
  import opened Sales

  /** One row of a grouped table: a key and the sum of each selected column. */
  datatype Group<K> = Group(key: K, sums: seq<int>)

  function Zeros(w: nat): (z: seq<int>)
    ensures |z| == w && forall j :: 0 <= j < w ==> z[j] == 0
  {
    seq(w, _ => 0)
  }

  /** Column-wise addition of two rows of sums. */
  function Plus(a: seq<int>, b: seq<int>): (c: seq<int>)
    requires |a| == |b|
    ensures |c| == |a| && forall j :: 0 <= j < |c| ==> c[j] == a[j] + b[j]
  {
    seq(|a|, j requires 0 <= j < |a| => a[j] + b[j])
  }

  /** The selected columns of one record, `df[cols]` for a single row. */
  function Project(r: Record, cols: seq<Column>): (v: seq<int>)
    ensures |v| == |cols| && forall j :: 0 <= j < |cols| ==> v[j] == ColumnValue(r, cols[j])
  {
    seq(|cols|, j requires 0 <= j < |cols| => ColumnValue(r, cols[j]))
  }

  /** Column-wise totals of some records: entry `j` is the total of column
      `cols[j]`. */
  function ColumnSums(rs: seq<Record>, cols: seq<Column>): (s: seq<int>)
    ensures |s| == |cols|
    ensures forall j :: 0 <= j < |cols| ==> s[j] == SumOf(rs, cols[j])
    decreases |rs|
  {
    if rs == [] then Zeros(|cols|)
    else Plus(ColumnSums(rs[..|rs| - 1], cols), Project(rs[|rs| - 1], cols))
  }

  predicate HasWidth<K>(t: seq<Group<K>>, w: nat) {
    forall i :: 0 <= i < |t| ==> |t[i].sums| == w
  }

  /** Strictly ascending keys; in particular no key has two rows. */
  ghost predicate Sorted<K>(t: seq<Group<K>>, less: (K, K) -> bool) {
    forall i, j :: 0 <= i < j < |t| ==> less(t[i].key, t[j].key)
  }

  /** The keys that have a row. */
  function Keys<K>(t: seq<Group<K>>): set<K> {
    set g | g in t :: g.key
  }

  /** The sums a table holds for `k`: its row's, or zeros when it has none. */
  function Lookup<K(==)>(t: seq<Group<K>>, k: K, w: nat): (s: seq<int>)
    requires HasWidth(t, w)
    ensures |s| == w
  {
    if t == [] then Zeros(w) else if t[0].key == k then t[0].sums else Lookup(t[1..], k, w)
  }

  /** The total of column `j` over all rows of a table. */
  function ColumnTotal<K>(t: seq<Group<K>>, j: nat): int
    requires forall i :: 0 <= i < |t| ==> j < |t[i].sums|
  {
    if t == [] then 0 else t[0].sums[j] + ColumnTotal(t[1..], j)
  }

  /** The total of `f` over a sequence of output rows. */
  function SumBy<T>(xs: seq<T>, f: T -> int): int {
    if xs == [] then 0 else f(xs[0]) + SumBy(xs[1..], f)
  }

  /** Accumulates the values `v` of one record under key `k`: adds them to
      `k`'s row if there is one, otherwise opens a row for `k` where the
      order puts it. */
  function AddTo<K(==)>(t: seq<Group<K>>, k: K, v: seq<int>, less: (K, K) -> bool): (t': seq<Group<K>>)
    requires HasWidth(t, |v|)
    ensures HasWidth(t', |v|)
    ensures |t'| <= |t| + 1
  {
    if t == [] then [Group(k, v)]
    else if t[0].key == k then [Group(k, Plus(t[0].sums, v))] + t[1..]
    else if less(k, t[0].key) then [Group(k, v)] + t
    else [t[0]] + AddTo(t[1..], k, v, less)
  }

  /** `groupby(keyOf)[cols].sum().reset_index()`: the records folded, in
      input order, into the grouped table. */
  function GroupBySum<K(==)>(rs: seq<Record>, keyOf: Record -> K, cols: seq<Column>, less: (K, K) -> bool)
    : (t: seq<Group<K>>)
    ensures HasWidth(t, |cols|)
    ensures |t| <= |rs|
    decreases |rs|
  {
    if rs == [] then []
    else
      var r := rs[|rs| - 1];
      AddTo(GroupBySum(rs[..|rs| - 1], keyOf, cols, less), keyOf(r), Project(r, cols), less)
  }

  lemma KeysCons<K>(t: seq<Group<K>>)
    requires t != []
    ensures Keys(t) == {t[0].key} + Keys(t[1..])
  {
    assert t == [t[0]] + t[1..];
  }

  lemma {:induction false} SortedTail<K(!new)>(t: seq<Group<K>>, less: (K, K) -> bool)
    requires t != [] && Sorted(t, less)
    ensures Sorted(t[1..], less)
    ensures forall k :: k in Keys(t[1..]) ==> less(t[0].key, k)
  {
    forall k | k in Keys(t[1..]) ensures less(t[0].key, k) {
      var g :| g in t[1..] && g.key == k;
      var i :| 0 <= i < |t[1..]| && t[1..][i] == g;
      assert t[i + 1] == g;
    }
  }

  lemma {:induction false} LookupAbsent<K>(t: seq<Group<K>>, k: K, w: nat)
    requires HasWidth(t, w) && k !in Keys(t)
    ensures Lookup(t, k, w) == Zeros(w)
  {
    if t != [] {
      KeysCons(t);
      LookupAbsent(t[1..], k, w);
    }
  }

  /** In a sorted table, looking a row's key up finds that row. */
  lemma {:induction false} LookupAt<K(!new)>(t: seq<Group<K>>, i: nat, w: nat, less: (K, K) -> bool)
    requires StrictTotalOrder(less) && Sorted(t, less) && HasWidth(t, w) && i < |t|
    ensures Lookup(t, t[i].key, w) == t[i].sums
  {
    if i > 0 {
      assert less(t[0].key, t[i].key);
      SortedTail(t, less);
      LookupAt(t[1..], i - 1, w, less);
    }
  }

  /** A sorted table has exactly one row per key. */
  lemma {:induction false} SortedKeysCount<K(!new)>(t: seq<Group<K>>, less: (K, K) -> bool)
    requires StrictTotalOrder(less) && Sorted(t, less)
    ensures |Keys(t)| == |t|
  {
    if t != [] {
      KeysCons(t);
      SortedTail(t, less);
      SortedKeysCount(t[1..], less);
      assert t[0].key !in Keys(t[1..]);
    }
  }

  lemma PlusZeros(v: seq<int>)
    ensures Plus(Zeros(|v|), v) == v
  {
  }

  /** Accumulating one record gives `k` a row if it had none and leaves the
      other keys as they were. */
  lemma {:induction false} AddToKeys<K>(t: seq<Group<K>>, k: K, v: seq<int>, less: (K, K) -> bool)
    requires HasWidth(t, |v|)
    ensures Keys(AddTo(t, k, v, less)) == Keys(t) + {k}
  {
    var t' := AddTo(t, k, v, less);
    if t == [] {
      KeysCons(t');
    } else if t[0].key == k {
      assert t'[1..] == t[1..];
      KeysCons(t);
      KeysCons(t');
    } else if less(k, t[0].key) {
      assert t'[1..] == t;
      KeysCons(t');
    } else {
      AddToKeys(t[1..], k, v, less);
      assert t'[1..] == AddTo(t[1..], k, v, less);
      KeysCons(t);
      KeysCons(t');
    }
  }

  /** Accumulating one record into a sorted table keeps it sorted. */
  lemma {:induction false} AddToSorted<K(!new)>(t: seq<Group<K>>, k: K, v: seq<int>, less: (K, K) -> bool)
    requires StrictTotalOrder(less) && Sorted(t, less) && HasWidth(t, |v|)
    ensures Sorted(AddTo(t, k, v, less), less)
  {
    var t' := AddTo(t, k, v, less);
    if t == [] {
    } else if t[0].key == k {
      assert t'[1..] == t[1..];
    } else if less(k, t[0].key) {
      assert t'[1..] == t;
      forall i | 0 < i < |t'| ensures less(k, t'[i].key) {
        if i > 1 {
          assert less(t[0].key, t[i - 1].key);
        }
      }
    } else {
      assert less(t[0].key, k);
      var r := AddTo(t[1..], k, v, less);
      SortedTail(t, less);
      AddToSorted(t[1..], k, v, less);
      AddToKeys(t[1..], k, v, less);
      assert t'[1..] == r;
      forall i | 0 < i < |t'| ensures less(t[0].key, t'[i].key) {
        assert t'[i] in r;
        assert t'[i].key in Keys(r);
      }
    }
  }

  /** Accumulating one record into a sorted table changes only `k`'s sums,
      and those grow by `v`. */
  lemma {:induction false} AddToLookup<K(!new)>(t: seq<Group<K>>, k: K, v: seq<int>, less: (K, K) -> bool, k': K)
    requires StrictTotalOrder(less) && Sorted(t, less) && HasWidth(t, |v|)
    ensures Lookup(AddTo(t, k, v, less), k', |v|) ==
      (if k' == k then Plus(Lookup(t, k, |v|), v) else Lookup(t, k', |v|))
  {
    var t' := AddTo(t, k, v, less);
    if t == [] {
      PlusZeros(v);
    } else if t[0].key == k {
      assert t'[1..] == t[1..];
    } else if less(k, t[0].key) {
      assert t'[1..] == t;
      if k' == k {
        SortedTail(t, less);
        assert k !in Keys(t) by {
          KeysCons(t);
        }
        LookupAbsent(t, k, |v|);
        PlusZeros(v);
      }
    } else {
      SortedTail(t, less);
      AddToLookup(t[1..], k, v, less, k');
      assert t'[1..] == AddTo(t[1..], k, v, less);
    }
  }

  /** Accumulating one record adds its values to every column total. */
  lemma {:induction false} AddToTotal<K>(t: seq<Group<K>>, k: K, v: seq<int>, less: (K, K) -> bool, j: nat)
    requires HasWidth(t, |v|) && j < |v|
    ensures ColumnTotal(AddTo(t, k, v, less), j) == ColumnTotal(t, j) + v[j]
  {
    var t' := AddTo(t, k, v, less);
    if t == [] {
    } else if t[0].key == k {
      assert t'[1..] == t[1..];
    } else if less(k, t[0].key) {
      assert t'[1..] == t;
    } else {
      AddToTotal(t[1..], k, v, less, j);
      assert t'[1..] == AddTo(t[1..], k, v, less);
    }
  }

  /** The fold is correct against the brute-force definition: the table is
      sorted by key, has a row for exactly the keys that occur, every key's
      sums are those of the records filtered by that key, and every column
      total is the total over all records. */
  lemma {:induction false} GroupBySumSpec<K(!new)>(
    rs: seq<Record>, keyOf: Record -> K, cols: seq<Column>, less: (K, K) -> bool)
    requires StrictTotalOrder(less)
    ensures Sorted(GroupBySum(rs, keyOf, cols, less), less)
    ensures Keys(GroupBySum(rs, keyOf, cols, less)) == KeysOf(rs, keyOf)
    ensures forall k :: (Lookup(GroupBySum(rs, keyOf, cols, less), k, |cols|) ==
      ColumnSums(Filter(rs, keyOf, k), cols))
    ensures forall j :: 0 <= j < |cols| ==> ColumnTotal(GroupBySum(rs, keyOf, cols, less), j) == SumOf(rs, cols[j])
    decreases |rs|
  {
    if rs != [] {
      var init, r := rs[..|rs| - 1], rs[|rs| - 1];
      var t0 := GroupBySum(init, keyOf, cols, less);
      GroupBySumSpec(init, keyOf, cols, less);
      AddToKeys(t0, keyOf(r), Project(r, cols), less);
      AddToSorted(t0, keyOf(r), Project(r, cols), less);
      KeysOfSnoc(rs, keyOf);
      forall j | 0 <= j < |cols| ensures ColumnTotal(GroupBySum(rs, keyOf, cols, less), j) == SumOf(rs, cols[j]) {
        AddToTotal(t0, keyOf(r), Project(r, cols), less, j);
      }
      forall k ensures Lookup(GroupBySum(rs, keyOf, cols, less), k, |cols|) == ColumnSums(Filter(rs, keyOf, k), cols) {
        AddToLookup(t0, keyOf(r), Project(r, cols), less, k);
        var f := Filter(init, keyOf, k);
        if keyOf(r) == k {
          assert (f + [r])[..|f|] == f;
        }
      }
    }
  }

  /** The grouped table stated row by row, as the OLAP scripts use it. */
  lemma GroupBySumCorrect<K(!new)>(rs: seq<Record>, keyOf: Record -> K, cols: seq<Column>, less: (K, K) -> bool)
    requires StrictTotalOrder(less)
    ensures var t := GroupBySum(rs, keyOf, cols, less);
      && Sorted(t, less)
      && Keys(t) == KeysOf(rs, keyOf)
      && |t| == |KeysOf(rs, keyOf)| <= |rs|
      && (forall i :: 0 <= i < |t| ==> t[i].sums == ColumnSums(Filter(rs, keyOf, t[i].key), cols))
      && (forall j :: 0 <= j < |cols| ==> ColumnTotal(t, j) == SumOf(rs, cols[j]))
  {
    var t := GroupBySum(rs, keyOf, cols, less);
    GroupBySumSpec(rs, keyOf, cols, less);
    SortedKeysCount(t, less);
    forall i | 0 <= i < |t| ensures t[i].sums == ColumnSums(Filter(rs, keyOf, t[i].key), cols) {
      LookupAt(t, i, |cols|, less);
    }
  }

  /** Output rows that carry a grouped table's keys row for row carry exactly
      its keys. */
  lemma RowKeys<K, T>(t: seq<Group<K>>, rows: seq<T>, key: T -> K)
    requires |rows| == |t| && forall i :: 0 <= i < |t| ==> key(rows[i]) == t[i].key
    ensures (set row | row in rows :: key(row)) == Keys(t)
  {
    forall k | k in Keys(t) ensures exists row :: row in rows && key(row) == k {
      var g :| g in t && g.key == k;
      var i :| 0 <= i < |t| && t[i] == g;
      assert rows[i] in rows;
    }
  }

  /** Output rows that carry column `j` of a grouped table row for row have
      that column's total. */
  lemma {:induction false} SumByColumn<K, T>(t: seq<Group<K>>, j: nat, rows: seq<T>, f: T -> int)
    requires forall i :: 0 <= i < |t| ==> j < |t[i].sums|
    requires |rows| == |t| && forall i :: 0 <= i < |t| ==> f(rows[i]) == t[i].sums[j]
    ensures SumBy(rows, f) == ColumnTotal(t, j)
  {
    if t != [] {
      SumByColumn(t[1..], j, rows[1..], f);
    }
  }
}
