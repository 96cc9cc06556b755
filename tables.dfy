/** Tables as the pipeline handles them: raw reports with labelled columns, the
    metric columns of the output, and pandas' `groupby` with `sum` and `mean`. */
module Tables {

  import opened Wrappers
  import opened Text
  import opened Calendar
  import opened Cells
  import opened Order

  /** A report as read: column labels and rows of cells, by position. */
  datatype Table = Table(headers: seq<string>, rows: seq<seq<Cell>>)

  predicate WellFormed(t: Table) {
    forall r :: r in t.rows ==> |r| == |t.headers|
  }

  /** The clean-up of one column label, step for step as `normalize_headers` does it. */
  function CleanHeader(h: string): (r: string)
    ensures '"' !in r && '\U{FEFF}' !in r && '\t' !in r && '\n' !in r
    ensures forall c :: c in r ==> c in h || c == ' '
  {
    var a := Strip(h);
    var b := Replace(a, '"', "");
    var c := Replace(b, '\U{FEFF}', "");
    var d := Replace(c, '\t', " ");
    var e := Replace(d, '\n', "");
    assert forall x :: x in e ==> x in h || x == ' ' by {
      assert forall x :: x in c ==> x in h;
    }
    CollapsePairs(e)
  }

  /** `normalize_headers(df)`: only the labels change, every cell stays as it was. */
  function NormalizeHeaders(t: Table): (r: Table)
    ensures r.rows == t.rows
    ensures |r.headers| == |t.headers|
    ensures forall i :: 0 <= i < |t.headers| ==> r.headers[i] == CleanHeader(t.headers[i])
    ensures WellFormed(t) ==> WellFormed(r)
  {
    Table(seq(|t.headers|, i requires 0 <= i < |t.headers| => CleanHeader(t.headers[i])), t.rows)
  }

  /** A label with an isolated double space loses one of the two spaces; one without
      quotes, BOMs, tabs, newlines, double spaces or outer whitespace is kept. */
  lemma CleanHeaderPairs(a: string, b: string)
    requires a != [] && b != []
    requires !IsSpace(a[0]) && !IsSpace(b[|b| - 1]) && a[|a| - 1] != ' ' && b[0] != ' '
    requires Plain(a) && Plain(b)
    requires CollapsePairs(a) == a && CollapsePairs(b) == b
    ensures CleanHeader(a + "  " + b) == a + " " + b
  {
    var h := a + "  " + b;
    PlainJoin(a, b);
    assert h[0] == a[0] && h[|h| - 1] == b[|b| - 1];
    assert Strip(h) == h;
    NoOccurrenceReplace(h, '"', "");
    NoOccurrenceReplace(h, '\U{FEFF}', "");
    NoOccurrenceReplace(h, '\t', " ");
    NoOccurrenceReplace(h, '\n', "");
    DoubleSpaceBecomesOne(a, b);
  }

  /** No character that `CleanHeader` removes or rewrites. */
  predicate Plain(s: string) {
    '"' !in s && '\U{FEFF}' !in s && '\t' !in s && '\n' !in s
  }

  lemma PlainJoin(a: string, b: string)
    requires Plain(a) && Plain(b)
    ensures Plain(a + "  " + b)
  {
    var h := a + "  " + b;
    forall i | 0 <= i < |h|
      ensures h[i] != '"' && h[i] != '\U{FEFF}' && h[i] != '\t' && h[i] != '\n'
    {
      if i < |a| {
        assert h[i] == a[i];
      } else if i >= |a| + 2 {
        assert h[i] == b[i - |a| - 2];
      }
    }
  }

  /** The position of the first column labelled `name`. */
  function IndexOf(headers: seq<string>, name: string): (r: Option<nat>)
    ensures r.Some? <==> name in headers
    ensures r.Some? ==> r.value < |headers| && headers[r.value] == name
    ensures r.Some? ==> forall j :: 0 <= j < r.value ==> headers[j] != name
  {
    if headers == [] then None
    else if headers[0] == name then Some(0)
    else match IndexOf(headers[1..], name)
      case None => None
      case Some(i) => Some(i + 1)
  }

  /** `df[name]`: the column's cells, or a KeyError when no column has that label. */
  function Lookup(t: Table, name: string): (r: Result<seq<Cell>, Error>)
    requires WellFormed(t)
    ensures r.Err? <==> name !in t.headers
    ensures r.Err? ==> r.error == KeyError(name)
    ensures r.Ok? ==> |r.value| == |t.rows|
    ensures r.Ok? ==> forall k :: 0 <= k < |t.rows| ==> r.value[k] == At(t, name, k)
  {
    match IndexOf(t.headers, name)
    case None => Err(KeyError(name))
    case Some(i) => Ok(seq(|t.rows|, k requires 0 <= k < |t.rows| => t.rows[k][i]))
  }

  /** The cell of row `k` in the first column labelled `name`. */
  function At(t: Table, name: string, k: int): Cell
    requires WellFormed(t) && name in t.headers && 0 <= k < |t.rows|
  {
    t.rows[k][IndexOf(t.headers, name).value]
  }

  /** `df.get(name)`: the column's cells, or None when it is absent. */
  function Get(t: Table, name: string): (r: Option<seq<Cell>>)
    requires WellFormed(t)
    ensures r.Some? <==> name in t.headers
    ensures r.Some? ==> |r.value| == |t.rows|
  {
    match Lookup(t, name)
    case Err(_) => None
    case Ok(v) => Some(v)
  }

  /** `df[df[name] == v]`: the rows whose cell in column `name` is `v`, in order. */
  function Select(t: Table, name: string, v: Cell): (r: Table)
    requires WellFormed(t) && name in t.headers
    ensures r.headers == t.headers && WellFormed(r)
    ensures |r.rows| <= |t.rows|
    ensures forall row :: row in r.rows <==> row in t.rows && row[IndexOf(t.headers, name).value] == v
  {
    Table(t.headers, SelectRows(t.rows, IndexOf(t.headers, name).value, v))
  }

  function SelectRows(rows: seq<seq<Cell>>, i: nat, v: Cell): (r: seq<seq<Cell>>)
    requires forall row :: row in rows ==> i < |row|
    ensures |r| <= |rows|
    ensures forall row :: row in r <==> row in rows && row[i] == v
  {
    if rows == [] then []
    else
      var front := rows[..|rows| - 1];
      var last := rows[|rows| - 1];
      assert rows == front + [last];
      if last[i] == v then SelectRows(front, i, v) + [last] else SelectRows(front, i, v)
  }

  /** A row appended with another value in the selected column leaves the selection
      as it was. */
  lemma SelectSkips(t: Table, name: string, v: Cell, row: seq<Cell>)
    requires WellFormed(t) && name in t.headers && |row| == |t.headers|
    requires row[IndexOf(t.headers, name).value] != v
    ensures Select(Table(t.headers, t.rows + [row]), name, v) == Select(t, name, v)
  {
    assert (t.rows + [row])[..|t.rows|] == t.rows;
  }

  /** A row appended with the selected value in that column is appended to the
      selection. */
  lemma SelectKeeps(t: Table, name: string, v: Cell, row: seq<Cell>)
    requires WellFormed(t) && name in t.headers && |row| == |t.headers|
    requires row[IndexOf(t.headers, name).value] == v
    ensures Select(Table(t.headers, t.rows + [row]), name, v).rows == Select(t, name, v).rows + [row]
  {
    assert (t.rows + [row])[..|t.rows|] == t.rows;
  }

  /** The metric columns of the output tables. */
  datatype Column =
    | VentasTotales | VentasCompartidas | VentasExclusivas
    | QEncuestas | Csat | Nps | Firt | PctFirt | Furt | PctFurt
    | QReopen | QTickets | QTicketsResueltos
    | QInspecciones
    | QAuditorias | NotaAuditorias

  /** The label pandas gives each metric column. */
  function ColumnName(c: Column): string {
    match c
    case VentasTotales => "Ventas_Totales"
    case VentasCompartidas => "Ventas_Compartidas"
    case VentasExclusivas => "Ventas_Exclusivas"
    case QEncuestas => "Q_Encuestas"
    case Csat => "CSAT"
    case Nps => "NPS"
    case Firt => "FIRT"
    case PctFirt => "%FIRT"
    case Furt => "FURT"
    case PctFurt => "%FURT"
    case QReopen => "Q_Reopen"
    case QTickets => "Q_Tickets"
    case QTicketsResueltos => "Q_Tickets_Resueltos"
    case QInspecciones => "Q_Inspecciones"
    case QAuditorias => "Q_Auditorias"
    case NotaAuditorias => "Nota_Auditorias"
  }

  /** Counts and amounts: zero-filled after the merge and summed when re-aggregated. */
  const CountColumns: seq<Column> := [
    QEncuestas, QTickets, QTicketsResueltos, QReopen,
    QAuditorias, QInspecciones,
    VentasTotales, VentasCompartidas, VentasExclusivas
  ]

  /** Rates and scores: averaged, and shown as "-" when there is nothing to average. */
  const RateColumns: seq<Column> := [Nps, Csat, Firt, PctFirt, Furt, PctFurt, NotaAuditorias]

  /** Counts and amounts, as opposed to rates and scores. */
  predicate IsCount(c: Column) {
    !(c.Nps? || c.Csat? || c.Firt? || c.PctFirt? || c.Furt? || c.PctFurt? || c.NotaAuditorias?)
  }

  /** Every metric column is exactly one of a count or a rate. */
  lemma ColumnClasses(c: Column)
    ensures IsCount(c) <==> c in CountColumns
    ensures IsCount(c) <==> c !in RateColumns
  {
  }

  /** A row after the per-row derivations of an adapter, before grouping: the agent
      cell, the parsed date and the derived metric cells. */
  datatype Derived = Derived(agente: Cell, fecha: Option<Date>, vals: map<Column, Cell>)

  /** The (agente, fecha) pair a row is grouped under. */
  datatype Key = Key(agente: string, fecha: Date)

  /** A grouped row: one per (agente, fecha). */
  datatype Row = Row(agente: string, fecha: Date, vals: map<Column, Cell>)

  /** An adapter's output: its metric columns, in order, and its rows. */
  datatype Source = Source(columns: seq<Column>, rows: seq<Row>)

  predicate Distinct<T(==)>(xs: seq<T>) {
    forall i, j :: 0 <= i < j < |xs| ==> xs[i] != xs[j]
  }

  /** What a grouped table guarantees: distinct columns, rows in key order (so one
      row per key), and every row holding exactly the table's columns. */
  predicate WellFormedSource(s: Source) {
    && Distinct(s.columns)
    && SortedBy(s.rows, RowOrder)
    && forall i :: 0 <= i < |s.rows| ==> forall c :: c in s.rows[i].vals <==> c in s.columns
  }

  /** pandas' `DataFrame.empty`: no rows. */
  predicate IsEmpty(s: Source) {
    s.rows == []
  }

  /** The number column `c` of a grouped row holds, 0 when it holds none. */
  function ValueOf(o: Row, c: Column): real {
    if c in o.vals then NumOr0(o.vals[c]) else 0.0
  }

  function RowKey(r: Row): Key {
    Key(r.agente, r.fecha)
  }

  /** `groupby` drops rows whose agent or date is missing; a key is text and a date. */
  function KeyOf(r: Derived): Option<Key> {
    if r.agente.Str? && r.fecha.Some? then Some(Key(r.agente.s, r.fecha.value)) else None
  }

  /** Sort order of `groupby(["agente", "fecha"])`: agent, then date. */
  function AgentDateOrder(k: Key): seq<Atom> {
    [S(k.agente), N(k.fecha.year), N(k.fecha.month), N(k.fecha.day)]
  }

  /** Rows of a grouped table come out in this order of their keys. */
  function RowOrder(r: Row): seq<Atom> {
    AgentDateOrder(RowKey(r))
  }

  function KeysOf(rows: seq<Derived>): (ks: seq<Key>)
    ensures forall k :: k in ks <==> exists r :: r in rows && KeyOf(r) == Some(k)
  {
    if rows == [] then []
    else
      var rest := KeysOf(rows[..|rows| - 1]);
      assert rows == rows[..|rows| - 1] + [rows[|rows| - 1]];
      match KeyOf(rows[|rows| - 1])
      case None => rest
      case Some(k) => rest + [k]
  }

  /** The rows grouped under `k`, in their original order. */
  function Group(rows: seq<Derived>, k: Key): (g: seq<Derived>)
    ensures |g| <= |rows|
    ensures forall r :: r in g <==> r in rows && KeyOf(r) == Some(k)
  {
    if rows == [] then []
    else
      var rest := Group(rows[..|rows| - 1], k);
      assert rows == rows[..|rows| - 1] + [rows[|rows| - 1]];
      if KeyOf(rows[|rows| - 1]) == Some(k) then rest + [rows[|rows| - 1]] else rest
  }

  /** One column of a sequence of value maps; a missing entry reads as missing. */
  function ColumnOf(vs: seq<map<Column, Cell>>, c: Column): (cells: seq<Cell>)
    ensures |cells| == |vs|
    ensures forall i :: 0 <= i < |vs| ==> cells[i] == (if c in vs[i] then vs[i][c] else Null)
  {
    seq(|vs|, i requires 0 <= i < |vs| => if c in vs[i] then vs[i][c] else Null)
  }

  function ValsOf(rows: seq<Derived>): (vs: seq<map<Column, Cell>>)
    ensures |vs| == |rows| && forall i :: 0 <= i < |rows| ==> vs[i] == rows[i].vals
  {
    seq(|rows|, i requires 0 <= i < |rows| => rows[i].vals)
  }

  /** pandas' `sum`: the numbers, missing values skipped. */
  function Sum(cells: seq<Cell>): real {
    if cells == [] then 0.0 else Sum(cells[..|cells| - 1]) + NumOr0(cells[|cells| - 1])
  }

  /** How many cells hold a number. */
  function CountNum(cells: seq<Cell>): (n: nat)
    ensures n <= |cells|
  {
    if cells == [] then 0 else CountNum(cells[..|cells| - 1]) + (if cells[|cells| - 1].Num? then 1 else 0)
  }

  /** pandas' `mean`: the average of the numbers, missing values skipped; missing
      when there is no number. */
  function Mean(cells: seq<Cell>): (m: Cell)
    ensures m.Null? <==> CountNum(cells) == 0
  {
    var n := CountNum(cells);
    if n == 0 then Null else Num(Sum(cells) / n as real)
  }

  /** A column's reducer: `sum` for counts and amounts, `mean` for rates and scores. */
  function Aggregate(c: Column, cells: seq<Cell>): (v: Cell)
    ensures IsCount(c) ==> v.Num?
  {
    if IsCount(c) then Num(Sum(cells)) else Mean(cells)
  }

  /** Two keys with the same sort key are the same key. */
  lemma AgentDateInjective(ks: seq<Key>)
    ensures InjectiveOn(ks, AgentDateOrder)
  {
    forall x, y | x in ks && y in ks && AgentDateOrder(x) == AgentDateOrder(y) ensures x == y {
      assert AgentDateOrder(x)[0] == AgentDateOrder(y)[0];
      assert AgentDateOrder(x)[1] == AgentDateOrder(y)[1];
      assert AgentDateOrder(x)[2] == AgentDateOrder(y)[2];
      assert AgentDateOrder(x)[3] == AgentDateOrder(y)[3];
    }
  }

  /** The aggregated row of one group. */
  function AggRow(rows: seq<Derived>, cols: seq<Column>, k: Key): (o: Row)
    ensures RowKey(o) == k
    ensures forall c :: (c in o.vals <==> c in cols)
                        && (c in cols ==> o.vals[c] == Aggregate(c, ColumnOf(ValsOf(Group(rows, k)), c)))
  {
    Row(k.agente, k.fecha, map c | c in cols :: Aggregate(c, ColumnOf(ValsOf(Group(rows, k)), c)))
  }

  /** `df.groupby(["agente", "fecha"], as_index=False).agg(...)` over `cols`. */
  function GroupBy(rows: seq<Derived>, cols: seq<Column>): (t: Source)
    ensures t.columns == cols
    ensures SortedBy(t.rows, RowOrder)
    ensures Distinct(cols) ==> WellFormedSource(t)
    ensures forall k :: (exists i :: 0 <= i < |t.rows| && RowKey(t.rows[i]) == k)
                        <==> (exists r :: r in rows && KeyOf(r) == Some(k))
    ensures forall i :: 0 <= i < |t.rows| ==>
              forall c :: (c in t.rows[i].vals <==> c in cols)
                   && (c in cols ==> t.rows[i].vals[c] == Aggregate(c, ColumnOf(ValsOf(Group(rows, RowKey(t.rows[i]))), c)))
  {
    AgentDateInjective(KeysOf(rows));
    var ks := SortDistinct(KeysOf(rows), AgentDateOrder);
    var out := seq(|ks|, i requires 0 <= i < |ks| => AggRow(rows, cols, ks[i]));
    GroupedKeys(rows, ks, out);
    Source(cols, out)
  }

  /** The rows built one per sorted key carry those keys, in order. */
  lemma GroupedKeys(rows: seq<Derived>, ks: seq<Key>, out: seq<Row>)
    requires |out| == |ks| && forall i :: 0 <= i < |ks| ==> RowKey(out[i]) == ks[i]
    requires SortedBy(ks, AgentDateOrder)
    requires forall k :: k in ks <==> k in KeysOf(rows)
    ensures SortedBy(out, RowOrder)
    ensures forall k :: (exists i :: 0 <= i < |out| && RowKey(out[i]) == k)
                        <==> (exists r :: r in rows && KeyOf(r) == Some(k))
  {
    forall i, j | 0 <= i < j < |out| ensures KeyLess(RowOrder(out[i]), RowOrder(out[j])) {
      assert RowOrder(out[i]) == AgentDateOrder(ks[i]);
      assert RowOrder(out[j]) == AgentDateOrder(ks[j]);
    }
    forall k ensures (exists i :: 0 <= i < |out| && RowKey(out[i]) == k) <==> (exists r :: r in rows && KeyOf(r) == Some(k)) {
      if exists r :: r in rows && KeyOf(r) == Some(k) {
        assert k in ks;
        var i :| 0 <= i < |ks| && ks[i] == k;
        assert RowKey(out[i]) == k;
      }
      if exists i :: 0 <= i < |out| && RowKey(out[i]) == k {
        var i :| 0 <= i < |out| && RowKey(out[i]) == k;
        assert ks[i] in ks;
      }
    }
  }

  lemma SumAppend(a: seq<Cell>, b: seq<Cell>)
    ensures Sum(a + b) == Sum(a) + Sum(b)
    decreases |b|
  {
    if b != [] {
      assert (a + b)[..|a + b| - 1] == a + b[..|b| - 1];
      SumAppend(a, b[..|b| - 1]);
    } else {
      assert a + b == a;
    }
  }

  /** A sum is monotone in its terms. */
  lemma {:induction false} SumMonotone(a: seq<Cell>, b: seq<Cell>)
    requires |a| == |b|
    requires forall i :: 0 <= i < |a| ==> NumOr0(a[i]) <= NumOr0(b[i])
    ensures Sum(a) <= Sum(b)
  {
    if a != [] {
      SumMonotone(a[..|a| - 1], b[..|b| - 1]);
    }
  }

  /** Summing term by term: if every term of `a` is the sum of the matching terms of
      `b` and `c`, so are the totals. */
  lemma {:induction false} SumSplit(a: seq<Cell>, b: seq<Cell>, c: seq<Cell>)
    requires |a| == |b| == |c|
    requires forall i :: 0 <= i < |a| ==> NumOr0(a[i]) == NumOr0(b[i]) + NumOr0(c[i])
    ensures Sum(a) == Sum(b) + Sum(c)
  {
    if a != [] {
      SumSplit(a[..|a| - 1], b[..|b| - 1], c[..|c| - 1]);
    }
  }

  /** A sum of ones counts its terms. */
  lemma {:induction false} SumOnes(a: seq<Cell>)
    requires forall i :: 0 <= i < |a| ==> a[i] == Num(1.0)
    ensures Sum(a) == |a| as real
  {
    if a != [] {
      SumOnes(a[..|a| - 1]);
    }
  }

  /** When every numeric term of `a` is matched by a term of `q` of at least 1 and
      no term of `q` is negative, `a` holds at most `Sum(q)` numbers. */
  lemma {:induction false} CountBelowSum(a: seq<Cell>, q: seq<Cell>)
    requires |a| == |q|
    requires forall i :: 0 <= i < |a| ==> 0.0 <= NumOr0(q[i]) && (a[i].Num? ==> 1.0 <= NumOr0(q[i]))
    ensures CountNum(a) as real <= Sum(q)
  {
    if a != [] {
      CountBelowSum(a[..|a| - 1], q[..|q| - 1]);
    }
  }

  /** No number among the cells exactly when none is counted. */
  lemma {:induction false} CountNumZero(cells: seq<Cell>)
    ensures CountNum(cells) == 0 <==> forall i :: 0 <= i < |cells| ==> !cells[i].Num?
  {
    if cells != [] {
      var front := cells[..|cells| - 1];
      CountNumZero(front);
      assert forall i :: 0 <= i < |front| ==> front[i] == cells[i];
    }
  }

  /** An average of numbers lies between their bounds. */
  lemma MeanBounds(cells: seq<Cell>, lo: real, hi: real)
    requires forall i :: 0 <= i < |cells| && cells[i].Num? ==> lo <= cells[i].x <= hi
    ensures Mean(cells).Num? ==> lo <= Mean(cells).x <= hi
  {
    SumBounds(cells, lo, hi);
    var n := CountNum(cells);
    if n > 0 {
      TimesIsProduct(lo, n);
      TimesIsProduct(hi, n);
      QuotientBounds(Sum(cells), n as real, lo, hi);
    }
  }

  /** `a` added up `n` times. */
  function Times(a: real, n: nat): real {
    if n == 0 then 0.0 else Times(a, n - 1) + a
  }

  lemma {:induction false} TimesIsProduct(a: real, n: nat)
    ensures Times(a, n) == a * n as real
  {
    if n > 0 {
      TimesIsProduct(a, n - 1);
      assert a * n as real == a * (n - 1) as real + a;
    }
  }

  /** A sum of numbers within [lo, hi] lies between `lo` and `hi` times their count. */
  lemma {:induction false} SumBounds(cells: seq<Cell>, lo: real, hi: real)
    requires forall i :: 0 <= i < |cells| && cells[i].Num? ==> lo <= cells[i].x <= hi
    ensures Times(lo, CountNum(cells)) <= Sum(cells) <= Times(hi, CountNum(cells))
  {
    if cells != [] {
      var n := |cells| - 1;
      var front := cells[..n];
      assert forall i :: 0 <= i < |front| ==> front[i] == cells[i];
      SumBounds(front, lo, hi);
    }
  }

  lemma QuotientBounds(s: real, n: real, lo: real, hi: real)
    requires n > 0.0 && lo * n <= s <= hi * n
    ensures lo <= s / n <= hi
  {
    assert s / n * n == s;
  }
}
