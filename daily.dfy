/** `build_daily_matrix`: the outer merge of the four adapters' tables on
    (agente, fecha), sorted by date and agent, with the count columns
    zero-filled and the rate columns left missing where nothing was measured. */
module Daily {

  import opened Wrappers
  import Calendar
  import opened Cells
  import opened Order
  import opened Tables

  /** A table indexed by its (agente, fecha) key: each key's metric cells; a column
      absent from a key's map reads as missing. */
  type Keyed = map<Key, map<Column, Cell>>

  /** Sort order of `sort_values(["fecha", "agente"])`: date, then agent. */
  function DateAgentOrder(k: Key): seq<Atom> {
    [N(k.fecha.year), N(k.fecha.month), N(k.fecha.day), S(k.agente)]
  }

  function DailyOrder(r: Row): seq<Atom> {
    DateAgentOrder(RowKey(r))
  }

  /** Sorting by `DailyOrder` puts earlier dates first, and one date's rows by agent. */
  lemma DailyOrderMeaning(a: Row, b: Row)
    ensures KeyLess(DailyOrder(a), DailyOrder(b)) <==> Calendar.Before(a.fecha, b.fecha) || (a.fecha == b.fecha && StrLess(a.agente, b.agente))
  {
    var x, y := DailyOrder(a), DailyOrder(b);
    StrLessStrict(a.agente, b.agente, a.agente);
    assert x[1..][1..][1..] == [S(a.agente)] && y[1..][1..][1..] == [S(b.agente)];
    SingleKeyLess(S(a.agente), S(b.agente));
    assert KeyLess(x[1..][1..], y[1..][1..]) <==> a.fecha.day < b.fecha.day || (a.fecha.day == b.fecha.day && StrLess(a.agente, b.agente));
    assert KeyLess(x[1..], y[1..]) <==> a.fecha.month < b.fecha.month || (a.fecha.month == b.fecha.month && KeyLess(x[1..][1..], y[1..][1..]));
  }


  /** The adapters' metric columns never clash, so the merge adds no suffixes. */
  predicate Disjoint(sources: seq<Source>) {
    forall i, j, c :: 0 <= i < j < |sources| && c in sources[i].columns ==> c !in sources[j].columns
  }

  /** The row of `rows` filed under `k`, if there is one. */
  function FindRow(rows: seq<Row>, k: Key): (r: Option<Row>)
    ensures r.Some? ==> r.value in rows && RowKey(r.value) == k
    ensures r.None? ==> forall o :: o in rows ==> RowKey(o) != k
  {
    if rows == [] then None
    else if RowKey(rows[0]) == k then Some(rows[0])
    else FindRow(rows[1..], k)
  }

  /** Some table of `ss` has a row under `k`. */
  predicate HasKey(ss: seq<Source>, k: Key) {
    exists j :: 0 <= j < |ss| && k in RowKeys(ss[j].rows)
  }

  function RowKeys(rows: seq<Row>): set<Key> {
    set o | o in rows :: RowKey(o)
  }

  function KeySeq(rows: seq<Row>): (ks: seq<Key>)
    ensures forall k :: k in ks <==> k in RowKeys(rows)
  {
    var ks := seq(|rows|, i requires 0 <= i < |rows| => RowKey(rows[i]));
    assert forall i :: 0 <= i < |rows| ==> ks[i] == RowKey(rows[i]);
    ks
  }

  /** A grouped table indexed by its keys. */
  function Tabulate(s: Source): (m: Keyed)
    ensures m.Keys == RowKeys(s.rows)
  {
    map k | k in RowKeys(s.rows) :: FindRow(s.rows, k).value.vals
  }

  function Entry(m: Keyed, k: Key): map<Column, Cell> {
    if k in m then m[k] else map[]
  }

  /** `pd.merge(a, b, on=["agente", "fecha"], how="outer")`: the keys of either
      side, each with the cells both sides hold for it. */
  function Merge(a: Keyed, b: Keyed): (m: Keyed)
    ensures m.Keys == a.Keys + b.Keys
  {
    map k | k in a.Keys + b.Keys :: Entry(a, k) + Entry(b, k)
  }

  /** The merge of the non-empty tables of `ss`, in order. */
  function Joined(ss: seq<Source>): Keyed {
    if ss == [] then map[]
    else
      var s := ss[|ss| - 1];
      if IsEmpty(s) then Joined(ss[..|ss| - 1]) else Merge(Joined(ss[..|ss| - 1]), Tabulate(s))
  }

  /** The merged table's metric columns: those of the non-empty tables, in order. */
  function JoinedColumns(ss: seq<Source>): seq<Column> {
    if ss == [] then []
    else
      var s := ss[|ss| - 1];
      JoinedColumns(ss[..|ss| - 1]) + (if IsEmpty(s) then [] else s.columns)
  }

  /** Every key of every table of `ss`, repeats included. */
  function AllKeys(ss: seq<Source>): seq<Key> {
    if ss == [] then [] else AllKeys(ss[..|ss| - 1]) + KeySeq(ss[|ss| - 1].rows)
  }

  /** A key's cells across the merged columns, missing where its tables had no row. */
  function Padded(e: map<Column, Cell>, cols: seq<Column>): (r: map<Column, Cell>)
    ensures forall c :: c in r <==> c in cols
  {
    map c | c in cols :: if c in e then e[c] else Null
  }

  /** `merged[col] = merged[col].fillna(0)`: the other columns and the keys stay. */
  function FillColumn(rows: seq<Row>, c: Column): (r: seq<Row>)
    ensures |r| == |rows|
    ensures forall i :: 0 <= i < |rows| ==> RowKey(r[i]) == RowKey(rows[i])
    ensures forall i :: 0 <= i < |rows| ==> r[i].vals.Keys == rows[i].vals.Keys
    ensures forall i, d :: 0 <= i < |rows| && d in rows[i].vals ==>
              r[i].vals[d] == if d == c then FillZero(rows[i].vals[d]) else rows[i].vals[d]
  {
    seq(|rows|, i requires 0 <= i < |rows| =>
      var o := rows[i];
      if c in o.vals then Row(o.agente, o.fecha, o.vals[c := FillZero(o.vals[c])]) else o)
  }

  /** What the daily matrix holds under key `k` in a column `c` of table `s`: the
      table's cell, missing when it has no row for `k`; count columns read missing as 0. */
  function DailyCell(s: Source, k: Key, c: Column): (r: Cell)
    ensures IsCount(c) ==> !r.Null?
    ensures FindRow(s.rows, k).None? ==> r == if IsCount(c) then Num(0.0) else Null
    ensures !IsCount(c) && FindRow(s.rows, k).Some? && c in FindRow(s.rows, k).value.vals ==>
              r == FindRow(s.rows, k).value.vals[c]
  {
    var v := match FindRow(s.rows, k)
      case Some(o) => if c in o.vals then o.vals[c] else Null
      case None => Null;
    if IsCount(c) then FillZero(v) else v
  }

  /** Row `o` holds exactly the columns `cols`. */
  predicate HasColumns(o: Row, cols: seq<Column>) {
    forall c :: c in o.vals <==> c in cols
  }

  /** Every column of a non-empty table is among `cols`. */
  predicate Covers(cols: seq<Column>, sources: seq<Source>) {
    forall j, c :: 0 <= j < |sources| && !IsEmpty(sources[j]) && c in sources[j].columns ==> c in cols
  }

  /** Row `o` holds, in each column, the merged cell for its key after the fill
      loop has run over the columns `done`. */
  predicate CellsFilled(o: Row, cols: seq<Column>, m: Keyed, done: seq<Column>) {
    forall c :: c in cols ==> c in o.vals && o.vals[c] == Filled(Stored(m, RowKey(o), c), c, done)
  }

  /** The rows of the merged table, one per key of `keys`, part way through the fill. */
  predicate FilledRows(rows: seq<Row>, keys: seq<Key>, cols: seq<Column>, m: Keyed, done: seq<Column>) {
    && |rows| == |keys|
    && (forall i :: 0 <= i < |rows| ==> RowKey(rows[i]) == keys[i])
    && (forall i :: 0 <= i < |rows| ==> HasColumns(rows[i], cols))
    && (forall i :: 0 <= i < |rows| ==> CellsFilled(rows[i], cols, m, done))
  }

  /** `build_daily_matrix(dfs)`. The result has one row per key found in any
      table, in (fecha, agente) order, and for each non-empty table its columns,
      holding that table's cells (count columns zero-filled). */
  method BuildDailyMatrix(sources: seq<Source>) returns (d: Source)
    requires forall j :: 0 <= j < |sources| ==> WellFormedSource(sources[j])
    requires Disjoint(sources)
    ensures (forall j :: 0 <= j < |sources| ==> IsEmpty(sources[j])) ==> d == Source([], [])
    ensures d.columns == JoinedColumns(sources)
    ensures SortedBy(d.rows, DailyOrder)
    ensures forall k :: k in RowKeys(d.rows) <==> HasKey(sources, k)
    ensures (exists j :: 0 <= j < |sources| && !IsEmpty(sources[j])) ==> |d.rows| > 0
    ensures forall i :: 0 <= i < |d.rows| ==> HasColumns(d.rows[i], d.columns)
    ensures forall i, c :: 0 <= i < |d.rows| && c in d.rows[i].vals && IsCount(c) ==> !d.rows[i].vals[c].Null?
    ensures forall i, j, c :: 0 <= i < |d.rows| && 0 <= j < |sources| && !IsEmpty(sources[j]) && c in sources[j].columns ==>
              c in d.rows[i].vals && d.rows[i].vals[c] == DailyCell(sources[j], RowKey(d.rows[i]), c)
  {
    var merged, cols := MergeTables(sources);
    JoinedKeys(sources);
    if merged.None? {
      d := Source([], []);
      assert forall k :: k !in Joined(sources);
      assert RowKeys(d.rows) == {};
      return;
    }
    DateAgentInjective(AllKeys(sources));
    var keys := SortDistinct(AllKeys(sources), DateAgentOrder);
    var rows := seq(|keys|, i requires 0 <= i < |keys| =>
      Row(keys[i].agente, keys[i].fecha, Padded(Entry(merged.value, keys[i]), cols)));
    PaddedRows(keys, cols, merged.value, rows);
    rows := ZeroFillCounts(rows, keys, cols, merged.value);
    DailyKeys(sources, keys, rows);
    JoinedColumnsCover(sources);
    DailyCells(sources, cols, keys, rows);
    d := Source(cols, rows);
    if exists j :: 0 <= j < |sources| && !IsEmpty(sources[j]) {
      var j :| 0 <= j < |sources| && !IsEmpty(sources[j]);
      assert RowKey(sources[j].rows[0]) in RowKeys(sources[j].rows);
      assert HasKey(sources, RowKey(sources[j].rows[0]));
    }
  }

  /** The merge loop of `build_daily_matrix`: empty tables are skipped, the first
      non-empty one is taken as it is and each further one is merged in. */
  method MergeTables(sources: seq<Source>) returns (merged: Option<Keyed>, cols: seq<Column>)
    ensures merged.None? <==> forall j :: 0 <= j < |sources| ==> IsEmpty(sources[j])
    ensures merged.Some? ==> merged.value == Joined(sources)
    ensures merged.None? ==> Joined(sources) == map[] && cols == []
    ensures cols == JoinedColumns(sources)
  {
    merged := None;
    cols := [];
    for i := 0 to |sources|
      invariant merged.None? <==> forall j :: 0 <= j < i ==> IsEmpty(sources[j])
      invariant merged.Some? ==> merged.value == Joined(sources[..i])
      invariant merged.None? ==> Joined(sources[..i]) == map[] && cols == []
      invariant cols == JoinedColumns(sources[..i])
    {
      JoinedStep(sources, i);
      var df := sources[i];
      if !IsEmpty(df) {
        if merged.None? {
          MergeNothing(Tabulate(df));
          merged := Some(Tabulate(df));
        } else {
          merged := Some(Merge(merged.value, Tabulate(df)));
        }
        cols := cols + df.columns;
      }
    }
    assert sources[..|sources|] == sources;
  }

  /** One more table: the merge and its columns grow by that table, unless it is empty. */
  lemma JoinedStep(ss: seq<Source>, i: int)
    requires 0 <= i < |ss|
    ensures Joined(ss[..i + 1]) == if IsEmpty(ss[i]) then Joined(ss[..i]) else Merge(Joined(ss[..i]), Tabulate(ss[i]))
    ensures JoinedColumns(ss[..i + 1]) == JoinedColumns(ss[..i]) + (if IsEmpty(ss[i]) then [] else ss[i].columns)
  {
    assert ss[..i + 1][..i] == ss[..i];
  }

  /** The fill loop of `build_daily_matrix`: each count column present in the
      merged table has its missing cells replaced by 0. */
  method ZeroFillCounts(rows: seq<Row>, keys: seq<Key>, cols: seq<Column>, m: Keyed) returns (filled: seq<Row>)
    requires FilledRows(rows, keys, cols, m, [])
    ensures FilledRows(filled, keys, cols, m, CountColumns)
  {
    filled := rows;
    for j := 0 to |CountColumns|
      invariant FilledRows(filled, keys, cols, m, CountColumns[..j])
    {
      var col := CountColumns[j];
      assert CountColumns[..j + 1] == CountColumns[..j] + [col];
      FillStep(filled, keys, cols, m, CountColumns[..j], col);
      if col in cols {
        filled := FillColumn(filled, col);
      }
    }
    assert CountColumns[..|CountColumns|] == CountColumns;
  }

  /** Before the fill, each row holds its key's merged cells, missing where absent. */
  lemma PaddedRows(keys: seq<Key>, cols: seq<Column>, m: Keyed, rows: seq<Row>)
    requires rows == seq(|keys|, i requires 0 <= i < |keys| => Row(keys[i].agente, keys[i].fecha, Padded(Entry(m, keys[i]), cols)))
    ensures FilledRows(rows, keys, cols, m, [])
  {
    forall i | 0 <= i < |rows| ensures RowKey(rows[i]) == keys[i] && HasColumns(rows[i], cols) && CellsFilled(rows[i], cols, m, []) {
      assert rows[i].vals == Padded(Entry(m, keys[i]), cols);
    }
  }

  /** One pass of the fill loop: column `col`, when present, loses its missing cells. */
  lemma FillStep(rows: seq<Row>, keys: seq<Key>, cols: seq<Column>, m: Keyed, done: seq<Column>, col: Column)
    requires FilledRows(rows, keys, cols, m, done)
    ensures FilledRows(if col in cols then FillColumn(rows, col) else rows, keys, cols, m, done + [col])
  {
    var next := if col in cols then FillColumn(rows, col) else rows;
    forall i | 0 <= i < |next| ensures HasColumns(next[i], cols) && CellsFilled(next[i], cols, m, done + [col]) {
      assert HasColumns(rows[i], cols) && CellsFilled(rows[i], cols, m, done);
      forall c | c in cols ensures c in next[i].vals && next[i].vals[c] == Filled(Stored(m, RowKey(next[i]), c), c, done + [col]) {
        assert c in rows[i].vals;
        if c == col {
          FillTwice(Stored(m, RowKey(rows[i]), c), c, done);
        }
      }
    }
  }

  /** Filling a cell a second time changes nothing. */
  lemma FillTwice(v: Cell, c: Column, done: seq<Column>)
    ensures FillZero(Filled(v, c, done)) == Filled(v, c, done + [c])
  {
  }

  /** The sorted rows carry every key of every table, each once. */
  lemma DailyKeys(sources: seq<Source>, keys: seq<Key>, rows: seq<Row>)
    requires SortedBy(keys, DateAgentOrder) && forall k :: k in keys <==> k in AllKeys(sources)
    requires |rows| == |keys| && forall i :: 0 <= i < |rows| ==> RowKey(rows[i]) == keys[i]
    ensures SortedBy(rows, DailyOrder)
    ensures forall k :: k in RowKeys(rows) <==> HasKey(sources, k)
  {
    JoinedKeys(sources);
    SortedRows(keys, rows);
    forall k ensures k in RowKeys(rows) <==> k in keys {
      if k in keys {
        var i :| 0 <= i < |keys| && keys[i] == k;
        assert RowKey(rows[i]) == k;
      }
    }
  }

  /** After the fill, each cell of a table's column is that table's cell, zero-filled
      when the column is a count. */
  lemma DailyCells(sources: seq<Source>, cols: seq<Column>, keys: seq<Key>, rows: seq<Row>)
    requires forall j :: 0 <= j < |sources| ==> WellFormedSource(sources[j])
    requires Disjoint(sources)
    requires Covers(cols, sources)
    requires FilledRows(rows, keys, cols, Joined(sources), CountColumns)
    ensures forall i, c :: 0 <= i < |rows| && c in cols && IsCount(c) ==> !rows[i].vals[c].Null?
    ensures forall i, j, c :: 0 <= i < |rows| && 0 <= j < |sources| && !IsEmpty(sources[j]) && c in sources[j].columns ==>
              c in rows[i].vals && rows[i].vals[c] == DailyCell(sources[j], RowKey(rows[i]), c)
  {
    forall i, c | 0 <= i < |rows| && c in cols && IsCount(c) ensures !rows[i].vals[c].Null? {
      assert CellsFilled(rows[i], cols, Joined(sources), CountColumns);
      ColumnClasses(c);
    }
    forall i, j, c | 0 <= i < |rows| && 0 <= j < |sources| && !IsEmpty(sources[j]) && c in sources[j].columns
      ensures c in rows[i].vals && rows[i].vals[c] == DailyCell(sources[j], RowKey(rows[i]), c)
    {
      assert c in cols;
      assert CellsFilled(rows[i], cols, Joined(sources), CountColumns);
      CellAt(sources, j, RowKey(rows[i]), c);
    }
  }

  /** The filled merged cell in a column of table `j` is what `DailyCell` says. */
  lemma CellAt(sources: seq<Source>, j: int, k: Key, c: Column)
    requires forall j :: 0 <= j < |sources| ==> WellFormedSource(sources[j])
    requires Disjoint(sources)
    requires 0 <= j < |sources| && c in sources[j].columns
    ensures Filled(Stored(Joined(sources), k, c), c, CountColumns) == DailyCell(sources[j], k, c)
  {
    JoinedCell(sources, j, k, c);
    ColumnClasses(c);
  }

  /** A merged cell before the fill: missing where the key's tables had none. */
  function Stored(m: Keyed, k: Key, c: Column): Cell {
    if c in Entry(m, k) then Entry(m, k)[c] else Null
  }

  /** A cell after the fill loop has run over the columns `done`. */
  function Filled(v: Cell, c: Column, done: seq<Column>): Cell {
    if c in done then FillZero(v) else v
  }

  lemma MergeNothing(b: Keyed)
    ensures Merge(map[], b) == b
  {
    forall k | k in b ensures Merge(map[], b)[k] == b[k] {
      assert Entry(map[], k) + Entry(b, k) == b[k];
    }
  }

  /** The merged keys are exactly the keys of the tables. */
  lemma {:induction false} JoinedKeys(ss: seq<Source>)
    ensures forall k :: k in AllKeys(ss) <==> k in Joined(ss)
    ensures forall k :: k in Joined(ss) <==> HasKey(ss, k)
  {
    if ss != [] {
      var front := ss[..|ss| - 1];
      JoinedKeys(front);
      var s := ss[|ss| - 1];
      forall k ensures (exists j :: 0 <= j < |ss| && k in RowKeys(ss[j].rows))
                       <==> (exists j :: 0 <= j < |front| && k in RowKeys(front[j].rows)) || k in RowKeys(s.rows) {
        if exists j :: 0 <= j < |ss| && k in RowKeys(ss[j].rows) {
          var j :| 0 <= j < |ss| && k in RowKeys(ss[j].rows);
          if j < |front| {
            assert front[j] == ss[j];
          }
        }
        if exists j :: 0 <= j < |front| && k in RowKeys(front[j].rows) {
          var j :| 0 <= j < |front| && k in RowKeys(front[j].rows);
          assert front[j] == ss[j];
        }
      }
      if IsEmpty(s) {
        assert RowKeys(s.rows) == {};
      }
    }
  }

  /** The date-then-agent key tells keys apart. */
  lemma DateAgentInjective(ks: seq<Key>)
    ensures InjectiveOn(ks, DateAgentOrder)
  {
    forall x, y | x in ks && y in ks && DateAgentOrder(x) == DateAgentOrder(y) ensures x == y {
      assert DateAgentOrder(x)[0] == DateAgentOrder(y)[0];
      assert DateAgentOrder(x)[1] == DateAgentOrder(y)[1];
      assert DateAgentOrder(x)[2] == DateAgentOrder(y)[2];
      assert DateAgentOrder(x)[3] == DateAgentOrder(y)[3];
    }
  }

  lemma SortedRows(keys: seq<Key>, rows: seq<Row>)
    requires SortedBy(keys, DateAgentOrder)
    requires |rows| == |keys| && forall i :: 0 <= i < |rows| ==> RowKey(rows[i]) == keys[i]
    ensures SortedBy(rows, DailyOrder)
  {
    forall i, j | 0 <= i < j < |rows| ensures KeyLess(DailyOrder(rows[i]), DailyOrder(rows[j])) {
      assert DailyOrder(rows[i]) == DateAgentOrder(keys[i]);
      assert DailyOrder(rows[j]) == DateAgentOrder(keys[j]);
    }
  }

  /** A column of a non-empty table is a column of the merge. */
  lemma {:induction false} JoinedColumnsCover(ss: seq<Source>)
    ensures Covers(JoinedColumns(ss), ss)
  {
    if ss != [] {
      var front := ss[..|ss| - 1];
      JoinedColumnsCover(front);
      forall j, c | 0 <= j < |ss| && !IsEmpty(ss[j]) && c in ss[j].columns ensures c in JoinedColumns(ss) {
        if j < |front| {
          assert front[j] == ss[j];
        }
      }
    }
  }

  /** Every column of the merge comes from a non-empty table. */
  lemma {:induction false} JoinedColumnsFrom(ss: seq<Source>, c: Column)
    requires c in JoinedColumns(ss)
    ensures exists j :: 0 <= j < |ss| && !IsEmpty(ss[j]) && c in ss[j].columns
  {
    var front := ss[..|ss| - 1];
    var last := ss[|ss| - 1];
    if c in JoinedColumns(front) {
      JoinedColumnsFrom(front, c);
      var j :| 0 <= j < |front| && !IsEmpty(front[j]) && c in front[j].columns;
      assert ss[j] == front[j];
    } else {
      assert !IsEmpty(last) && c in last.columns;
    }
  }

  /** A column no non-empty table has is not merged. */
  lemma {:induction false} NotJoined(ss: seq<Source>, c: Column)
    requires forall j :: 0 <= j < |ss| && !IsEmpty(ss[j]) ==> c !in ss[j].columns
    ensures c !in JoinedColumns(ss)
  {
    if ss != [] {
      var front := ss[..|ss| - 1];
      forall j | 0 <= j < |front| && !IsEmpty(front[j]) ensures c !in front[j].columns {
        assert front[j] == ss[j];
      }
      NotJoined(front, c);
    }
  }

  /** A merged cell in a column of table `j` is that table's cell for the key, or
      missing when the table has no row for it: the other tables lack the column. */
  lemma {:induction false} JoinedCell(ss: seq<Source>, j: int, k: Key, c: Column)
    requires forall i :: 0 <= i < |ss| ==> WellFormedSource(ss[i])
    requires Disjoint(ss)
    requires 0 <= j < |ss| && c in ss[j].columns
    ensures Stored(Joined(ss), k, c) == match FindRow(ss[j].rows, k)
              case Some(o) => if c in o.vals then o.vals[c] else Null
              case None => Null
  {
    var front := ss[..|ss| - 1];
    var s := ss[|ss| - 1];
    assert forall i :: 0 <= i < |front| ==> front[i] == ss[i];
    if j < |front| {
      JoinedCell(front, j, k, c);
      assert c !in s.columns;
      if !IsEmpty(s) {
        TabulateLacks(s, k, c);
      }
    } else {
      assert s == ss[j];
      JoinedLacks(front, k, c);
      if !IsEmpty(s) {
        match FindRow(s.rows, k)
        case Some(o) =>
          assert k in RowKeys(s.rows);
          FindFirst(s.rows, k, o);
        case None =>
          assert k !in RowKeys(s.rows);
      } else {
        assert FindRow(s.rows, k).None?;
      }
    }
  }

  /** A table's entries hold only its own columns. */
  lemma TabulateLacks(s: Source, k: Key, c: Column)
    requires WellFormedSource(s) && c !in s.columns
    ensures c !in Entry(Tabulate(s), k)
  {
    if k in Tabulate(s) {
      var o := FindRow(s.rows, k).value;
      var i :| 0 <= i < |s.rows| && s.rows[i] == o;
    }
  }

  /** No merged entry holds a column that no table of `ss` has. */
  lemma {:induction false} JoinedLacks(ss: seq<Source>, k: Key, c: Column)
    requires forall i :: 0 <= i < |ss| ==> WellFormedSource(ss[i]) && c !in ss[i].columns
    ensures c !in Entry(Joined(ss), k)
  {
    if ss != [] {
      var front := ss[..|ss| - 1];
      assert forall i :: 0 <= i < |front| ==> front[i] == ss[i];
      JoinedLacks(front, k, c);
      if !IsEmpty(ss[|ss| - 1]) {
        TabulateLacks(ss[|ss| - 1], k, c);
      }
    }
  }

  /** In a table sorted by key, the first row under `k` is the only one. */
  lemma FindFirst(rows: seq<Row>, k: Key, o: Row)
    requires SortedBy(rows, RowOrder) && FindRow(rows, k) == Some(o)
    ensures forall p :: p in rows && RowKey(p) == k ==> p == o
  {
    forall p | p in rows && RowKey(p) == k ensures p == o {
      var a :| 0 <= a < |rows| && rows[a] == p;
      var b :| 0 <= b < |rows| && rows[b] == o;
      if a != b {
        SortedDistinctKeys(rows, a, b);
      }
    }
  }

  lemma SortedDistinctKeys(rows: seq<Row>, a: int, b: int)
    requires SortedBy(rows, RowOrder) && 0 <= a < |rows| && 0 <= b < |rows| && a != b
    ensures RowKey(rows[a]) != RowKey(rows[b])
  {
    if a < b {
      KeyLessStrict(RowOrder(rows[a]), RowOrder(rows[b]), RowOrder(rows[b]));
    } else {
      KeyLessStrict(RowOrder(rows[b]), RowOrder(rows[a]), RowOrder(rows[a]));
    }
  }
}
