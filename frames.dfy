/** The column-at-a-time operations the adapters apply to their private copy of a
    report: `series.apply(to_date)`, `pd.to_numeric`, `fillna(0)`, and assigning a
    whole column to the frame of derived rows. */
module Frames {

  import opened Wrappers
  import opened Calendar
  import opened Cells
  import opened DateParse
  import opened Tables

  /** `col.apply(f)` for an `f` that may raise: fails with the first row that does. */
  function ApplyEach<T>(cells: seq<Cell>, f: Cell -> Result<T, Error>): (r: Result<seq<T>, Error>)
    ensures r.Ok? ==> |r.value| == |cells|
    ensures r.Ok? ==> forall i :: 0 <= i < |cells| ==> f(cells[i]) == Ok(r.value[i])
    ensures r.Err? <==> exists i :: 0 <= i < |cells| && f(cells[i]).Err?
    ensures r.Err? ==> exists i :: 0 <= i < |cells| && f(cells[i]) == Err(r.error)
  {
    if cells == [] then Ok([])
    else
      var front := cells[..|cells| - 1];
      var last := cells[|cells| - 1];
      assert forall i :: 0 <= i < |front| ==> front[i] == cells[i];
      match ApplyEach(front, f)
      case Err(e) => Err(e)
      case Ok(init) =>
        match f(last)
        case Err(e) => Err(e)
        case Ok(d) => Ok(init + [d])
  }

  /** `col.apply(to_date)`. */
  function ToDates(cells: seq<Cell>, env: Env): (r: Result<seq<Option<Date>>, Error>)
    ensures r.Ok? ==> |r.value| == |cells|
    ensures r.Ok? ==> forall i :: 0 <= i < |cells| ==> ToDate(cells[i], env) == Ok(r.value[i])
    ensures r.Err? <==> exists i :: 0 <= i < |cells| && ToDate(cells[i], env).Err?
    ensures r.Err? ==> r.error == IndexError
  {
    ApplyEach(cells, x => ToDate(x, env))
  }

  /** `pd.to_numeric(col, errors="coerce")`. */
  function Numeric(cells: seq<Cell>): (r: seq<Cell>)
    ensures |r| == |cells| && forall i :: 0 <= i < |cells| ==> r[i] == ToNumeric(cells[i])
  {
    seq(|cells|, i requires 0 <= i < |cells| => ToNumeric(cells[i]))
  }

  /** `col.fillna(0)`. */
  function FillZeros(cells: seq<Cell>): (r: seq<Cell>)
    ensures |r| == |cells| && forall i :: 0 <= i < |cells| ==> r[i] == FillZero(cells[i])
  {
    seq(|cells|, i requires 0 <= i < |cells| => FillZero(cells[i]))
  }

  /** A column holding `v` in each of `n` rows (`df[c] = v`). */
  function Constant(n: nat, v: Cell): (r: seq<Cell>)
    ensures |r| == n && forall i :: 0 <= i < n ==> r[i] == v
  {
    seq(n, i => v)
  }

  /** A frame of `n` rows before any derived column is assigned. */
  function Blank(n: nat): (rows: seq<Derived>)
    ensures |rows| == n && forall i :: 0 <= i < n ==> rows[i] == Derived(Null, None, map[])
  {
    seq(n, i => Derived(Null, None, map[]))
  }

  /** `df["fecha"] = dates`. */
  function SetFecha(rows: seq<Derived>, dates: seq<Option<Date>>): (out: seq<Derived>)
    requires |dates| == |rows|
    ensures |out| == |rows| && forall i :: 0 <= i < |rows| ==> out[i] == rows[i].(fecha := dates[i])
  {
    seq(|rows|, i requires 0 <= i < |rows| => rows[i].(fecha := dates[i]))
  }

  /** `df["agente"] = agents`. */
  function SetAgente(rows: seq<Derived>, agents: seq<Cell>): (out: seq<Derived>)
    requires |agents| == |rows|
    ensures |out| == |rows| && forall i :: 0 <= i < |rows| ==> out[i] == rows[i].(agente := agents[i])
  {
    seq(|rows|, i requires 0 <= i < |rows| => rows[i].(agente := agents[i]))
  }

  /** `df[c] = cells`. */
  function SetColumn(rows: seq<Derived>, c: Column, cells: seq<Cell>): (out: seq<Derived>)
    requires |cells| == |rows|
    ensures |out| == |rows|
    ensures forall i :: 0 <= i < |rows| ==> out[i] == rows[i].(vals := rows[i].vals[c := cells[i]])
  {
    seq(|rows|, i requires 0 <= i < |rows| => rows[i].(vals := rows[i].vals[c := cells[i]]))
  }

  /** The cells of column `c` of the rows grouped under `k`. */
  function GroupColumn(rows: seq<Derived>, k: Key, c: Column): seq<Cell> {
    ColumnOf(ValsOf(Group(rows, k)), c)
  }

  /** A column of ones sums, per group, to the size of the group. */
  lemma GroupOnes(rows: seq<Derived>, k: Key, c: Column)
    requires forall r :: r in rows ==> c in r.vals && r.vals[c] == Num(1.0)
    ensures Sum(GroupColumn(rows, k, c)) == |Group(rows, k)| as real
  {
    var g := Group(rows, k);
    assert forall j :: 0 <= j < |g| ==> g[j] in rows;
    SumOnes(GroupColumn(rows, k, c));
  }

  /** A column bounded row by row by another is bounded group by group. */
  lemma GroupBounded(rows: seq<Derived>, k: Key, lo: Column, hi: Column)
    requires forall r :: r in rows ==> lo in r.vals && hi in r.vals && NumOr0(r.vals[lo]) <= NumOr0(r.vals[hi])
    ensures Sum(GroupColumn(rows, k, lo)) <= Sum(GroupColumn(rows, k, hi))
  {
    var g := Group(rows, k);
    assert forall j :: 0 <= j < |g| ==> g[j] in rows;
    SumMonotone(GroupColumn(rows, k, lo), GroupColumn(rows, k, hi));
  }

  /** When a row holding a number in column `c` always counts at least 1 in column
      `q`, and `q` is never negative, a group holds at most its `q` sum of numbers
      in `c`. */
  lemma GroupCountBounded(rows: seq<Derived>, k: Key, c: Column, q: Column)
    requires forall r :: r in rows ==> c in r.vals && q in r.vals && 0.0 <= NumOr0(r.vals[q])
                                       && (r.vals[c].Num? ==> 1.0 <= NumOr0(r.vals[q]))
    ensures CountNum(GroupColumn(rows, k, c)) as real <= Sum(GroupColumn(rows, k, q))
  {
    var g := Group(rows, k);
    assert forall j :: 0 <= j < |g| ==> g[j] in rows;
    CountBelowSum(GroupColumn(rows, k, c), GroupColumn(rows, k, q));
  }

  /** The sum of `xs[i]` over the rows grouped under `k`. */
  function KeyedSum(rows: seq<Derived>, xs: seq<real>, k: Key): real
    requires |xs| == |rows|
  {
    if rows == [] then 0.0
    else
      KeyedSum(rows[..|rows| - 1], xs[..|xs| - 1], k)
      + (if KeyOf(rows[|rows| - 1]) == Some(k) then xs[|xs| - 1] else 0.0)
  }

  /** Grouping a frame one row longer adds that row's cell to its own group only. */
  lemma GroupColumnSnoc(rows: seq<Derived>, k: Key, c: Column)
    requires rows != []
    ensures var last := rows[|rows| - 1];
            Sum(GroupColumn(rows, k, c))
            == Sum(GroupColumn(rows[..|rows| - 1], k, c))
               + (if KeyOf(last) == Some(k) then NumOr0(if c in last.vals then last.vals[c] else Null) else 0.0)
  {
    var front := rows[..|rows| - 1];
    var last := rows[|rows| - 1];
    if KeyOf(last) == Some(k) {
      assert Group(rows, k) == Group(front, k) + [last];
      assert GroupColumn(rows, k, c) == GroupColumn(front, k, c) + [if c in last.vals then last.vals[c] else Null];
      SumAppend(GroupColumn(front, k, c), [if c in last.vals then last.vals[c] else Null]);
      assert Sum([if c in last.vals then last.vals[c] else Null]) == NumOr0(if c in last.vals then last.vals[c] else Null) by {
        assert [if c in last.vals then last.vals[c] else Null][..0] == [];
      }
    } else {
      assert Group(rows, k) == Group(front, k);
    }
  }

  /** When, row by row, column `t` is `a` plus `b` plus `xs[i]`, the same holds for
      the sums of every group. */
  lemma {:induction false} GroupSumSplit(rows: seq<Derived>, xs: seq<real>, k: Key, t: Column, a: Column, b: Column)
    requires |xs| == |rows|
    requires forall i :: 0 <= i < |rows| ==>
               t in rows[i].vals && a in rows[i].vals && b in rows[i].vals
               && NumOr0(rows[i].vals[t]) == NumOr0(rows[i].vals[a]) + NumOr0(rows[i].vals[b]) + xs[i]
    ensures Sum(GroupColumn(rows, k, t))
            == Sum(GroupColumn(rows, k, a)) + Sum(GroupColumn(rows, k, b)) + KeyedSum(rows, xs, k)
  {
    if rows != [] {
      var front := rows[..|rows| - 1];
      GroupSumSplit(front, xs[..|xs| - 1], k, t, a, b);
      GroupColumnSnoc(rows, k, t);
      GroupColumnSnoc(rows, k, a);
      GroupColumnSnoc(rows, k, b);
    }
  }

  /** The grouped form of `GroupSumSplit`: in each output row, count column `t`
      is `a` plus `b` plus the group's sum of `xs`. */
  lemma GroupedSplit(rows: seq<Derived>, xs: seq<real>, cols: seq<Column>, o: Row, t: Column, a: Column, b: Column)
    requires |xs| == |rows|
    requires forall i :: 0 <= i < |rows| ==>
               t in rows[i].vals && a in rows[i].vals && b in rows[i].vals
               && NumOr0(rows[i].vals[t]) == NumOr0(rows[i].vals[a]) + NumOr0(rows[i].vals[b]) + xs[i]
    requires o in GroupBy(rows, cols).rows && t in cols && a in cols && b in cols
    requires IsCount(t) && IsCount(a) && IsCount(b)
    ensures o.vals[t].x == o.vals[a].x + o.vals[b].x + KeyedSum(rows, xs, RowKey(o))
  {
    GroupSumSplit(rows, xs, RowKey(o), t, a, b);
    GroupByCell(rows, cols, o, t);
    GroupByCell(rows, cols, o, a);
    GroupByCell(rows, cols, o, b);
  }

  /** A column never negative row by row has a non-negative sum in every group. */
  lemma NonNegativeSum(rows: seq<Derived>, k: Key, c: Column)
    requires forall r :: r in rows ==> c in r.vals && 0.0 <= NumOr0(r.vals[c])
    ensures 0.0 <= Sum(GroupColumn(rows, k, c))
  {
    var g := Group(rows, k);
    assert forall j :: 0 <= j < |g| ==> g[j] in rows;
    SumMonotone(Constant(|g|, Num(0.0)), GroupColumn(rows, k, c));
    SumZeros(Constant(|g|, Num(0.0)));
  }

  lemma {:induction false} SumZeros(a: seq<Cell>)
    requires forall i :: 0 <= i < |a| ==> a[i] == Num(0.0)
    ensures Sum(a) == 0.0
  {
    if a != [] {
      SumZeros(a[..|a| - 1]);
    }
  }

  /** Every output row groups at least one ticket. */
  lemma GroupNonEmpty(rows: seq<Derived>, cols: seq<Column>, o: Row)
    requires o in GroupBy(rows, cols).rows
    ensures |Group(rows, RowKey(o))| >= 1
  {
    var t := GroupBy(rows, cols);
    var i :| 0 <= i < |t.rows| && t.rows[i] == o;
    var r :| r in rows && KeyOf(r) == Some(RowKey(o));
    assert r in Group(rows, RowKey(o));
  }

  /** A column of ones counts, in each output row, the rows grouped there. */
  lemma GroupedOnes(rows: seq<Derived>, cols: seq<Column>, o: Row, c: Column)
    requires forall r :: r in rows ==> c in r.vals && r.vals[c] == Num(1.0)
    requires c in cols && IsCount(c)
    requires o in GroupBy(rows, cols).rows
    ensures var g := Group(rows, RowKey(o));
            |g| >= 1 && o.vals[c] == Num(|g| as real)
  {
    GroupByCell(rows, cols, o, c);
    GroupOnes(rows, RowKey(o), c);
    GroupNonEmpty(rows, cols, o);
  }

  /** When column `c` holds `xs[i]` in row `i`, each group sums to its share of `xs`. */
  lemma {:induction false} GroupSumIs(rows: seq<Derived>, xs: seq<real>, k: Key, c: Column)
    requires |xs| == |rows|
    requires forall i :: 0 <= i < |rows| ==> c in rows[i].vals && NumOr0(rows[i].vals[c]) == xs[i]
    ensures Sum(GroupColumn(rows, k, c)) == KeyedSum(rows, xs, k)
  {
    if rows != [] {
      GroupSumIs(rows[..|rows| - 1], xs[..|xs| - 1], k, c);
      GroupColumnSnoc(rows, k, c);
    }
  }

  /** In a grouped table, a count column holds the sum of its group, a rate column
      the mean. */
  lemma GroupByCell(rows: seq<Derived>, cols: seq<Column>, o: Row, c: Column)
    requires o in GroupBy(rows, cols).rows && c in cols
    ensures c in o.vals
    ensures IsCount(c) ==> o.vals[c] == Num(Sum(GroupColumn(rows, RowKey(o), c)))
    ensures !IsCount(c) ==> o.vals[c] == Mean(GroupColumn(rows, RowKey(o), c))
  {
    var t := GroupBy(rows, cols);
    var i :| 0 <= i < |t.rows| && t.rows[i] == o;
  }
}
