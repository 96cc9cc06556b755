/** Re-aggregation of a daily table: pandas' `groupby(...).agg(...)` where each
    row's group key is given alongside it, and the law that regrouping keeps the
    sums of additive columns. */
module Regroup {

  import opened Cells
  import opened Order
  import opened Tables

  /** One output row of a re-aggregation: its group key and its reduced cells. */
  datatype Bucket<K> = Bucket(key: K, vals: map<Column, Cell>)

  /** The cell a row holds in column `c`, missing when it lacks the column. */
  function CellIn(v: map<Column, Cell>, c: Column): Cell {
    if c in v then v[c] else Null
  }

  /** The value maps of the rows filed under `k`, in their original order. */
  function Members<K(==)>(keys: seq<K>, vals: seq<map<Column, Cell>>, k: K): (g: seq<map<Column, Cell>>)
    requires |keys| == |vals|
    ensures |g| <= |keys|
  {
    if keys == [] then []
    else
      var n := |keys| - 1;
      Members(keys[..n], vals[..n], k) + (if keys[n] == k then [vals[n]] else [])
  }

  /** `groupby(key, as_index=False).agg(...)` over `cols`, each column with its
      reducer, one bucket per distinct key in ascending `order`. */
  function Regroup<K(==,!new)>(keys: seq<K>, vals: seq<map<Column, Cell>>, order: K -> seq<Atom>, cols: seq<Column>): (out: seq<Bucket<K>>)
    requires |keys| == |vals| && InjectiveOn(keys, order)
    ensures forall i, j :: 0 <= i < j < |out| ==> KeyLess(order(out[i].key), order(out[j].key))
    ensures forall k :: k in keys <==> exists i :: 0 <= i < |out| && out[i].key == k
    ensures forall i, c :: 0 <= i < |out| ==> (c in out[i].vals <==> c in cols)
    ensures forall i, c :: 0 <= i < |out| && c in cols ==>
              out[i].vals[c] == Aggregate(c, ColumnOf(Members(keys, vals, out[i].key), c))
  {
    var ks := SortDistinct(keys, order);
    var out := seq(|ks|, i requires 0 <= i < |ks| =>
      Bucket(ks[i], map c | c in cols :: Aggregate(c, ColumnOf(Members(keys, vals, ks[i]), c))));
    assert forall i :: 0 <= i < |ks| ==> out[i].key == ks[i];
    out
  }

  /** Column `c` summed over the buckets whose key satisfies `p`. */
  function BucketSum<K>(out: seq<Bucket<K>>, c: Column, p: K -> bool): real {
    if out == [] then 0.0
    else
      var n := |out| - 1;
      BucketSum(out[..n], c, p) + (if p(out[n].key) then NumOr0(CellIn(out[n].vals, c)) else 0.0)
  }

  /** Column `c` summed over the rows whose key satisfies `p`. */
  function RowSum<K>(keys: seq<K>, vals: seq<map<Column, Cell>>, c: Column, p: K -> bool): real
    requires |keys| == |vals|
  {
    if keys == [] then 0.0
    else
      var n := |keys| - 1;
      RowSum(keys[..n], vals[..n], c, p) + (if p(keys[n]) then NumOr0(CellIn(vals[n], c)) else 0.0)
  }

  /** Column `c` summed over the members of each key of `ks` that satisfies `p`. */
  function KeyTotal<K(==)>(ks: seq<K>, keys: seq<K>, vals: seq<map<Column, Cell>>, c: Column, p: K -> bool): real
    requires |keys| == |vals|
  {
    if ks == [] then 0.0
    else
      var n := |ks| - 1;
      KeyTotal(ks[..n], keys, vals, c, p) + (if p(ks[n]) then Sum(ColumnOf(Members(keys, vals, ks[n]), c)) else 0.0)
  }

  /** Per key, summing an additive column over the regrouped rows gives its sum
      over the original rows: regrouping neither loses nor double-counts a row. */
  lemma RegroupKeepsSums<K(!new)>(keys: seq<K>, vals: seq<map<Column, Cell>>, order: K -> seq<Atom>, cols: seq<Column>, c: Column, p: K -> bool)
    requires |keys| == |vals| && InjectiveOn(keys, order)
    requires c in cols && IsCount(c)
    ensures BucketSum(Regroup(keys, vals, order, cols), c, p) == RowSum(keys, vals, c, p)
  {
    var out := Regroup(keys, vals, order, cols);
    var ks := seq(|out|, i requires 0 <= i < |out| => out[i].key);
    forall i | 0 <= i < |out|
      ensures ks[i] == out[i].key && CellIn(out[i].vals, c) == Num(Sum(ColumnOf(Members(keys, vals, ks[i]), c)))
    {
    }
    BucketsAsKeys(out, ks, keys, vals, c, p);
    forall a, b | 0 <= a < b < |ks| ensures ks[a] != ks[b] {
      KeyLessStrict(order(ks[a]), order(ks[b]), order(ks[b]));
    }
    forall k | k in keys ensures k in ks {
      var i :| 0 <= i < |out| && out[i].key == k;
      assert ks[i] == k;
    }
    KeysCoverRows(ks, keys, vals, c, p);
  }

  /** Summing the buckets is summing their keys' members. */
  lemma {:induction false} BucketsAsKeys<K>(out: seq<Bucket<K>>, ks: seq<K>, keys: seq<K>, vals: seq<map<Column, Cell>>, c: Column, p: K -> bool)
    requires |keys| == |vals| && |out| == |ks|
    requires forall i :: 0 <= i < |out| ==>
               ks[i] == out[i].key && CellIn(out[i].vals, c) == Num(Sum(ColumnOf(Members(keys, vals, ks[i]), c)))
    ensures BucketSum(out, c, p) == KeyTotal(ks, keys, vals, c, p)
  {
    if out != [] {
      var n := |out| - 1;
      BucketsAsKeys(out[..n], ks[..n], keys, vals, c, p);
    }
  }

  /** Over distinct keys that include every row's key, the members' sums add up
      to the rows' sum. */
  lemma {:induction false} KeysCoverRows<K>(ks: seq<K>, keys: seq<K>, vals: seq<map<Column, Cell>>, c: Column, p: K -> bool)
    requires |keys| == |vals|
    requires forall a, b :: 0 <= a < b < |ks| ==> ks[a] != ks[b]
    requires forall k :: k in keys ==> k in ks
    ensures KeyTotal(ks, keys, vals, c, p) == RowSum(keys, vals, c, p)
  {
    if keys == [] {
      NoMembers(ks, keys, vals, c, p);
    } else {
      var n := |keys| - 1;
      assert forall k :: k in keys[..n] ==> k in keys;
      KeysCoverRows(ks, keys[..n], vals[..n], c, p);
      KeyTotalSnoc(ks, keys, vals, c, p);
      assert keys[n] in keys;
      OneHit(ks, keys[n], NumOr0(CellIn(vals[n], c)), p);
      assert RowSum(keys, vals, c, p)
             == RowSum(keys[..n], vals[..n], c, p) + (if p(keys[n]) then NumOr0(CellIn(vals[n], c)) else 0.0);
    }
  }

  lemma {:induction false} NoMembers<K>(ks: seq<K>, keys: seq<K>, vals: seq<map<Column, Cell>>, c: Column, p: K -> bool)
    requires keys == [] && vals == []
    ensures KeyTotal(ks, keys, vals, c, p) == 0.0
  {
    if ks != [] {
      NoMembers(ks[..|ks| - 1], keys, vals, c, p);
      assert ColumnOf(Members(keys, vals, ks[|ks| - 1]), c) == [];
    }
  }

  /** What the last row adds to each key's members' sum. */
  function Hits<K(==)>(ks: seq<K>, x: K, v: real, p: K -> bool): real {
    if ks == [] then 0.0
    else
      var n := |ks| - 1;
      Hits(ks[..n], x, v, p) + (if p(ks[n]) && ks[n] == x then v else 0.0)
  }

  /** Adding a last row adds its cell to its own key's total only. */
  lemma {:induction false} KeyTotalSnoc<K>(ks: seq<K>, keys: seq<K>, vals: seq<map<Column, Cell>>, c: Column, p: K -> bool)
    requires |keys| == |vals| && keys != []
    ensures var n := |keys| - 1;
            KeyTotal(ks, keys, vals, c, p)
            == KeyTotal(ks, keys[..n], vals[..n], c, p) + Hits(ks, keys[n], NumOr0(CellIn(vals[n], c)), p)
  {
    if ks != [] {
      var m := |ks| - 1;
      var n := |keys| - 1;
      var x := keys[n];
      var v := NumOr0(CellIn(vals[n], c));
      KeyTotalSnoc(ks[..m], keys, vals, c, p);
      var before := Members(keys[..n], vals[..n], ks[m]);
      assert KeyTotal(ks, keys, vals, c, p)
             == KeyTotal(ks[..m], keys, vals, c, p) + (if p(ks[m]) then Sum(ColumnOf(Members(keys, vals, ks[m]), c)) else 0.0);
      assert KeyTotal(ks, keys[..n], vals[..n], c, p)
             == KeyTotal(ks[..m], keys[..n], vals[..n], c, p) + (if p(ks[m]) then Sum(ColumnOf(before, c)) else 0.0);
      assert Hits(ks, x, v, p) == Hits(ks[..m], x, v, p) + (if p(ks[m]) && ks[m] == x then v else 0.0);
      if x == ks[m] {
        assert Members(keys, vals, ks[m]) == before + [vals[n]];
        ColumnSnoc(before, vals[n], c);
        SumAppend(ColumnOf(before, c), [CellIn(vals[n], c)]);
        assert Sum([CellIn(vals[n], c)]) == v by {
          assert [CellIn(vals[n], c)][..0] == [];
        }
      } else {
        assert Members(keys, vals, ks[m]) == before + [];
        assert before + [] == before;
      }
    }
  }

  lemma ColumnSnoc(vs: seq<map<Column, Cell>>, v: map<Column, Cell>, c: Column)
    ensures ColumnOf(vs + [v], c) == ColumnOf(vs, c) + [CellIn(v, c)]
  {
  }

  /** A key that occurs once among `ks` is hit once. */
  lemma {:induction false} OneHit<K>(ks: seq<K>, x: K, v: real, p: K -> bool)
    requires forall a, b :: 0 <= a < b < |ks| ==> ks[a] != ks[b]
    requires x in ks
    ensures Hits(ks, x, v, p) == if p(x) then v else 0.0
  {
    var n := |ks| - 1;
    if ks[n] == x {
      NoHit(ks[..n], x, v, p);
    } else {
      assert x in ks[..n];
      OneHit(ks[..n], x, v, p);
    }
  }

  lemma {:induction false} NoHit<K>(ks: seq<K>, x: K, v: real, p: K -> bool)
    requires x !in ks
    ensures Hits(ks, x, v, p) == 0.0
  {
    if ks != [] {
      NoHit(ks[..|ks| - 1], x, v, p);
    }
  }

  /** `lambda x: "-" if pd.isna(x) else x`: a missing average shows as "-". */
  function Dash(v: Cell): (r: Cell)
    ensures !r.Null?
    ensures !v.Null? ==> r == v
    ensures v.Null? ==> r == Str("-")
  {
    if v.Null? then Str("-") else v
  }

  /** A bucket once the rate loop has been over the columns `done`. */
  function Dashed<K>(b: Bucket<K>, done: seq<Column>): Bucket<K> {
    Bucket(b.key, map c | c in b.vals :: if c in done then Dash(b.vals[c]) else b.vals[c])
  }

  /** `t[c] = t[c].apply(...)` for one column `c`. */
  function DashColumn<K>(bs: seq<Bucket<K>>, c: Column): (r: seq<Bucket<K>>)
    ensures |r| == |bs|
  {
    seq(|bs|, i requires 0 <= i < |bs| =>
      var b := bs[i];
      if c in b.vals then Bucket(b.key, b.vals[c := Dash(b.vals[c])]) else b)
  }

  /** Each table with its rate columns dashed. */
  function DashAll<K>(bs: seq<Bucket<K>>): (r: seq<Bucket<K>>)
    ensures |r| == |bs|
  {
    seq(|bs|, i requires 0 <= i < |bs| => Dashed(bs[i], RateColumns))
  }

  /** The loop `for c in prom_cols: t[c] = t[c].apply(...)` over the rate columns. */
  method DashRates<K>(bs: seq<Bucket<K>>) returns (out: seq<Bucket<K>>)
    ensures out == DashAll(bs)
  {
    out := bs;
    for j := 0 to |RateColumns|
      invariant |out| == |bs|
      invariant forall i :: 0 <= i < |bs| ==> out[i] == Dashed(bs[i], RateColumns[..j])
    {
      var c := RateColumns[j];
      assert RateColumns[..j + 1] == RateColumns[..j] + [c];
      forall i | 0 <= i < |bs| ensures DashColumn(out, c)[i] == Dashed(bs[i], RateColumns[..j + 1]) {
        DashStep(bs[i], RateColumns[..j], c);
      }
      out := DashColumn(out, c);
    }
    assert RateColumns[..|RateColumns|] == RateColumns;
  }

  /** Dashing one more column of a partly dashed bucket. */
  lemma DashStep<K>(b: Bucket<K>, done: seq<Column>, c: Column)
    ensures DashColumn([Dashed(b, done)], c)[0] == Dashed(b, done + [c])
  {
    var d := Dashed(b, done);
    var r := DashColumn([d], c)[0];
    var e := Dashed(b, done + [c]);
    assert r.vals.Keys == e.vals.Keys;
    forall x | x in r.vals ensures r.vals[x] == e.vals[x] {
    }
  }

  /** Dashing leaves the keys and the count columns as they were, and leaves no
      rate column missing. */
  lemma DashedCells<K>(b: Bucket<K>, c: Column)
    ensures Dashed(b, RateColumns).key == b.key
    ensures c in Dashed(b, RateColumns).vals <==> c in b.vals
    ensures c in b.vals && IsCount(c) ==> Dashed(b, RateColumns).vals[c] == b.vals[c]
    ensures c in b.vals && !IsCount(c) ==> Dashed(b, RateColumns).vals[c] == Dash(b.vals[c])
  {
    ColumnClasses(c);
  }

  /** Dashing does not change the sum of a count column. */
  lemma {:induction false} DashKeepsSums<K>(bs: seq<Bucket<K>>, c: Column, p: K -> bool)
    requires IsCount(c)
    ensures BucketSum(DashAll(bs), c, p) == BucketSum(bs, c, p)
  {
    if bs != [] {
      var n := |bs| - 1;
      assert DashAll(bs)[..n] == DashAll(bs[..n]);
      DashKeepsSums(bs[..n], c, p);
      DashedCells(bs[n], c);
    }
  }

  /** The value maps of a daily table's rows, in order. */
  function RowVals(rows: seq<Row>): (vs: seq<map<Column, Cell>>)
    ensures |vs| == |rows| && forall i :: 0 <= i < |rows| ==> vs[i] == rows[i].vals
  {
    seq(|rows|, i requires 0 <= i < |rows| => rows[i].vals)
  }

  /** Column `c` summed over the daily rows of agent `a`: the reference total
      any regrouping by agent must reproduce. */
  function AgentTotal(rows: seq<Row>, a: string, c: Column): real {
    if rows == [] then 0.0
    else
      var n := |rows| - 1;
      AgentTotal(rows[..n], a, c) + (if rows[n].agente == a then NumOr0(CellIn(rows[n].vals, c)) else 0.0)
  }

  /** Dashing keeps each bucket's key and columns and leaves no rate column missing. */
  lemma DashAllShape<K>(bs: seq<Bucket<K>>, order: K -> seq<Atom>, cols: seq<Column>)
    requires forall i, j :: 0 <= i < j < |bs| ==> KeyLess(order(bs[i].key), order(bs[j].key))
    requires forall i, c :: 0 <= i < |bs| ==> (c in bs[i].vals <==> c in cols)
    ensures forall i, j :: 0 <= i < j < |bs| ==> KeyLess(order(DashAll(bs)[i].key), order(DashAll(bs)[j].key))
    ensures forall i, c :: 0 <= i < |bs| ==> (c in DashAll(bs)[i].vals <==> c in cols)
    ensures forall i, c :: 0 <= i < |bs| && c in DashAll(bs)[i].vals && !IsCount(c) ==> !DashAll(bs)[i].vals[c].Null?
  {
    forall i, c | 0 <= i < |bs|
      ensures DashAll(bs)[i].key == bs[i].key
      ensures c in DashAll(bs)[i].vals <==> c in bs[i].vals
      ensures c in bs[i].vals && !IsCount(c) ==> !DashAll(bs)[i].vals[c].Null?
    {
      DashedCells(bs[i], c);
    }
  }
}
