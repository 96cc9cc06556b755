/** `procesar_reportes`: the e-mail mapping, the four source adapters, and the
    daily, weekly and summary tables built from their results. */
module Pipeline {

  import opened Wrappers
  import opened Cells
  import opened Order
  import opened Tables
  import opened Identity
  import opened Ventas
  import opened Performance
  import opened Inspecciones
  import opened Auditorias
  import opened Daily
  import opened Regroup
  import opened Weekly
  import opened Summary

  /** The three tables `procesar_reportes` returns. */
  datatype Reports = Reports(diario: Source, semanal: seq<Bucket<WeekKey>>, resumen: seq<Bucket<string>>)

  /** The weekly matrix and the summary are the daily table re-aggregated and dashed. */
  predicate DerivedFromDaily(t: Reports) {
    && t.semanal == (if IsEmpty(t.diario) then [] else DashAll(WeeklyGroups(t.diario.rows)))
    && t.resumen == (if IsEmpty(t.diario) then [] else DashAll(SummaryGroups(t.diario.rows)))
  }

  /** In every additive column the two share, an agent's weekly rows add up to
      the agent's summary row. */
  predicate Consistent(t: Reports) {
    forall i, c :: 0 <= i < |t.resumen| && c in SummaryColumns && c in t.resumen[i].vals && IsCount(c) ==>
      Num(BucketSum(t.semanal, c, AgentOf(t.resumen[i].key))) == t.resumen[i].vals[c]
  }

  /** The metric columns of each adapter's output, in the order they are merged. */
  const AdapterColumns: seq<seq<Column>> := [VentasColumns, PerformanceColumns, InspectionColumns, AuditColumns]

  /** Each table is either the empty frame or carries its adapter's columns. */
  predicate FromAdapters(sources: seq<Source>) {
    |sources| == 4 && forall j :: 0 <= j < 4 ==> sources[j] == Source([], []) || sources[j].columns == AdapterColumns[j]
  }

  /** What an adapter hands over: a well-formed table, either the empty frame or
      one with its own columns. */
  predicate Produced(s: Source, cols: seq<Column>) {
    WellFormedSource(s) && (s == Source([], []) || s.columns == cols)
  }

  /** What `process_ventas` yields for a report, as its contract states it. */
  function SalesTable(t: Option<Table>, env: Env): Result<Source, Error>
    requires t.Some? ==> WellFormed(t.value)
  {
    if t.None? then Ok(Source([], []))
    else
      var df := NormalizeHeaders(t.value);
      if SalesFailure(df, env).Some? then Err(SalesFailure(df, env).value)
      else Ok(GroupBy(SaleRows(df, env), VentasColumns))
  }

  /** What `process_performance` yields for a report and a mapping. */
  function PerformanceTable(t: Option<Table>, mapping: map<string, string>, env: Env): Result<Source, Error>
    requires t.Some? ==> WellFormed(t.value)
  {
    if t.None? || GroupColumnName !in NormalizeHeaders(t.value).headers then Ok(Source([], []))
    else
      var df := Selection(t.value);
      if PerformanceFailure(df, env).Some? then Err(PerformanceFailure(df, env).value)
      else Ok(GroupBy(TicketRows(df, mapping, env), PerformanceColumns))
  }

  /** What `process_inspecciones` yields for a report. */
  function InspectionTable(t: Option<Table>, env: Env): Result<Source, Error>
    requires t.Some? ==> WellFormed(t.value)
  {
    if t.None? then Ok(Source([], []))
    else
      var df := NormalizeHeaders(t.value);
      if InspectionFailure(df, env).Some? then Err(InspectionFailure(df, env).value)
      else Ok(GroupBy(InspectionRows(df, env), InspectionColumns))
  }

  /** What `process_auditorias` yields for a report. */
  function AuditTable(t: Option<Table>, env: Env): Result<Source, Error>
    requires t.Some? ==> WellFormed(t.value)
  {
    if t.None? then Ok(Source([], []))
    else
      var df := NormalizeHeaders(t.value);
      if AuditFailure(df, env).Some? then Err(AuditFailure(df, env).value)
      else Ok(GroupBy(AuditRows(df, env), AuditColumns))
  }

  /** The inspection and audit tables, or the first error of the two. */
  function FieldTables(inspecciones: Option<Table>, auditorias: Option<Table>, env: Env): Result<(Source, Source), Error>
    requires inspecciones.Some? ==> WellFormed(inspecciones.value)
    requires auditorias.Some? ==> WellFormed(auditorias.value)
  {
    var ins :- InspectionTable(inspecciones, env);
    var a :- AuditTable(auditorias, env);
    Ok((ins, a))
  }

  /** The performance, inspection and audit tables, or the first error of the three. */
  function LaterTables(performance: Option<Table>, inspecciones: Option<Table>, auditorias: Option<Table>,
                       mapping: map<string, string>, env: Env): Result<(Source, Source, Source), Error>
    requires performance.Some? ==> WellFormed(performance.value)
    requires inspecciones.Some? ==> WellFormed(inspecciones.value)
    requires auditorias.Some? ==> WellFormed(auditorias.value)
  {
    var p :- PerformanceTable(performance, mapping, env);
    var rest :- FieldTables(inspecciones, auditorias, env);
    Ok((p, rest.0, rest.1))
  }

  /** The four adapters' tables in merge order, or the first error they raise. */
  function AdapterTables(ventas: Option<Table>, performance: Option<Table>, inspecciones: Option<Table>,
                         auditorias: Option<Table>, mapping: map<string, string>, env: Env): Result<seq<Source>, Error>
    requires ventas.Some? ==> WellFormed(ventas.value)
    requires performance.Some? ==> WellFormed(performance.value)
    requires inspecciones.Some? ==> WellFormed(inspecciones.value)
    requires auditorias.Some? ==> WellFormed(auditorias.value)
  {
    var v :- SalesTable(ventas, env);
    var rest :- LaterTables(performance, inspecciones, auditorias, mapping, env);
    Ok([v, rest.0, rest.1, rest.2])
  }

  /** Some adapter produced rows and another produced none. */
  predicate Partial(sources: seq<Source>) {
    exists e, f :: 0 <= e < |sources| && 0 <= f < |sources| && IsEmpty(sources[e]) && !IsEmpty(sources[f])
  }

  /** `d` is the daily matrix of `sources`: the merged columns, one row per key of
      any table in (fecha, agente) order, and in each row every column of every
      non-empty table holding that table's cell, zero-filled for counts. */
  ghost predicate DailyOf(sources: seq<Source>, d: Source) {
    && d.columns == JoinedColumns(sources)
    && SortedBy(d.rows, DailyOrder)
    && (forall k :: k in RowKeys(d.rows) <==> HasKey(sources, k))
    && (forall i :: 0 <= i < |d.rows| ==> HasColumns(d.rows[i], d.columns))
    && forall i, j, c :: 0 <= i < |d.rows| && 0 <= j < |sources| && !IsEmpty(sources[j]) && c in sources[j].columns ==>
         c in d.rows[i].vals && d.rows[i].vals[c] == DailyCell(sources[j], RowKey(d.rows[i]), c)
  }

  /** What the second half of the run yields from the adapters' outcome: their
      error; KeyError when the input is partial; otherwise the daily matrix of
      their tables with the weekly and summary tables derived from it. */
  ghost predicate Outcome(tables: Result<seq<Source>, Error>, r: Result<Reports, Error>) {
    match tables
    case Err(e) => r == Err(e)
    case Ok(ss) =>
      if Partial(ss) then r.Err? && r.error.KeyError?
      else r.Ok? && DailyOf(ss, r.value.diario) && DerivedFromDaily(r.value) && Consistent(r.value)
  }

  /** The four adapter outputs, in merge order. */
  lemma {:induction false} FourAdapters(v: Source, p: Source, ins: Source, a: Source)
    requires Produced(v, VentasColumns) && Produced(p, PerformanceColumns)
    requires Produced(ins, InspectionColumns) && Produced(a, AuditColumns)
    ensures FromAdapters([v, p, ins, a])
    ensures forall j :: 0 <= j < 4 ==> WellFormedSource([v, p, ins, a][j])
  {
    var ss := [v, p, ins, a];
    assert ss[0] == v && ss[1] == p && ss[2] == ins && ss[3] == a;
  }

  /** No column belongs to two adapters. */
  lemma ColumnsApart(i: int, j: int, c: Column)
    requires 0 <= i < 4 && 0 <= j < 4 && i != j
    requires c in AdapterColumns[i]
    ensures c !in AdapterColumns[j]
  {
  }

  /** No two adapters produce the same column. */
  lemma {:induction false} AdaptersDisjoint(sources: seq<Source>)
    requires FromAdapters(sources)
    ensures Disjoint(sources)
  {
    forall i, j, c | 0 <= i < j < |sources| && c in sources[i].columns ensures c !in sources[j].columns {
      assert sources[i].columns == AdapterColumns[i];
      ColumnsApart(i, j, c);
    }
  }

  /** When some adapters produced rows and another did not, the merged daily
      columns lack one the weekly aggregation names, so `agg` raises KeyError. */
  lemma {:induction false} PartialInputFails(sources: seq<Source>, empty: int, full: int)
    requires FromAdapters(sources)
    requires 0 <= empty < 4 && IsEmpty(sources[empty])
    requires 0 <= full < 4 && !IsEmpty(sources[full])
    ensures MissingColumn(JoinedColumns(sources), WeeklyColumns).Some?
  {
    var c := AdapterColumns[empty][0];
    assert c in WeeklyColumns;
    forall j | 0 <= j < |sources| && !IsEmpty(sources[j]) ensures c !in sources[j].columns {
      assert sources[j].columns == AdapterColumns[j];
      ColumnsApart(empty, j, c);
    }
    NotJoined(sources, c);
  }

  /** When every adapter produced rows, the merged columns hold every column the
      weekly aggregation names. */
  lemma {:induction false} FullInputCovers(sources: seq<Source>)
    requires FromAdapters(sources)
    requires forall j :: 0 <= j < 4 ==> !IsEmpty(sources[j])
    ensures MissingColumn(JoinedColumns(sources), WeeklyColumns).None?
  {
    JoinedColumnsCover(sources);
    forall c | c in WeeklyColumns ensures c in JoinedColumns(sources) {
      var j := if c in VentasColumns then 0 else if c in PerformanceColumns then 1
               else if c in InspectionColumns then 2 else 3;
      assert c in AdapterColumns[j];
      assert sources[j].columns == AdapterColumns[j];
    }
  }

  /** `procesar_reportes(df_ventas, df_performance, df_inspecciones, df_auditorias)`:
      the first error raised on the way, in the order of the calls, or the three
      tables. A non-text collected e-mail fails first. Otherwise, for the mapping
      built from the collected addresses, the run yields what the adapters'
      tables determine: the first adapter error, KeyError when some adapters
      produced rows and another none, or the daily matrix of the four tables with
      the weekly and summary tables re-aggregated from it, which agree: an
      agent's weekly rows add up to the agent's summary row in every additive
      column they share. With no input at all every table is empty. */
  method ProcesarReportes(ventas: Option<Table>, performance: Option<Table>, inspecciones: Option<Table>,
                          auditorias: Option<Table>, env: Env) returns (r: Result<Reports, Error>)
    requires ventas.Some? ==> WellFormed(ventas.value)
    requires performance.Some? ==> WellFormed(performance.value)
    requires inspecciones.Some? ==> WellFormed(inspecciones.value)
    requires auditorias.Some? ==> WellFormed(auditorias.value)
    ensures (exists c :: c in CollectedEmails(ventas, inspecciones, auditorias) && !c.Str?) ==> r == Err(AttributeError)
    ensures (forall c :: c in CollectedEmails(ventas, inspecciones, auditorias) ==> c.Str?) ==>
              exists mapping :: IsEmailMapping(mapping, Addresses(CollectedEmails(ventas, inspecciones, auditorias)))
                                && Outcome(AdapterTables(ventas, performance, inspecciones, auditorias, mapping, env), r)
    ensures ventas.None? && performance.None? && inspecciones.None? && auditorias.None? ==>
              r == Ok(Reports(Source([], []), [], []))
    ensures r.Ok? && !IsEmpty(r.value.diario) ==> forall c :: c in WeeklyColumns ==> c in r.value.diario.columns
  {
    var mapping :- BuildEmailMapping(ventas, inspecciones, auditorias);
    r := RunWithMapping(ventas, performance, inspecciones, auditorias, mapping, env);
  }

  /** `procesar_reportes` once the mapping is built: the adapters, then the daily,
      weekly and summary tables. */
  method RunWithMapping(ventas: Option<Table>, performance: Option<Table>, inspecciones: Option<Table>,
                        auditorias: Option<Table>, mapping: map<string, string>, env: Env) returns (r: Result<Reports, Error>)
    requires ventas.Some? ==> WellFormed(ventas.value)
    requires performance.Some? ==> WellFormed(performance.value)
    requires inspecciones.Some? ==> WellFormed(inspecciones.value)
    requires auditorias.Some? ==> WellFormed(auditorias.value)
    ensures Outcome(AdapterTables(ventas, performance, inspecciones, auditorias, mapping, env), r)
    ensures ventas.None? && performance.None? && inspecciones.None? && auditorias.None? ==>
              r == Ok(Reports(Source([], []), [], []))
    ensures r.Ok? && !IsEmpty(r.value.diario) ==> forall c :: c in WeeklyColumns ==> c in r.value.diario.columns
  {
    var tables := RunAdapters(ventas, performance, inspecciones, auditorias, mapping, env);
    if ventas.None? && performance.None? && inspecciones.None? && auditorias.None? {
      NoReports(mapping, env);
    }
    if tables.Err? {
      r := Err(tables.error);
    } else {
      AdaptersProduce(ventas, performance, inspecciones, auditorias, mapping, env);
      r := BuildReports(tables.value);
    }
  }

  /** With no report at all, every adapter hands over the empty frame. */
  lemma NoReports(mapping: map<string, string>, env: Env)
    ensures AdapterTables(None, None, None, None, mapping, env) == Ok([Source([], []), Source([], []), Source([], []), Source([], [])])
  {
  }

  /** The four adapters of `procesar_reportes`, in turn; the first error stops the run. */
  method RunAdapters(ventas: Option<Table>, performance: Option<Table>, inspecciones: Option<Table>,
                     auditorias: Option<Table>, mapping: map<string, string>, env: Env) returns (r: Result<seq<Source>, Error>)
    requires ventas.Some? ==> WellFormed(ventas.value)
    requires performance.Some? ==> WellFormed(performance.value)
    requires inspecciones.Some? ==> WellFormed(inspecciones.value)
    requires auditorias.Some? ==> WellFormed(auditorias.value)
    ensures r == AdapterTables(ventas, performance, inspecciones, auditorias, mapping, env)
  {
    var v :- RunVentas(ventas, env);
    var rest :- RunLaterAdapters(performance, inspecciones, auditorias, mapping, env);
    r := Ok([v, rest.0, rest.1, rest.2]);
  }

  /** The sales adapter, read as `SalesTable`. */
  method RunVentas(ventas: Option<Table>, env: Env) returns (r: Result<Source, Error>)
    requires ventas.Some? ==> WellFormed(ventas.value)
    ensures r == SalesTable(ventas, env)
  {
    r := ProcessVentas(ventas, env);
  }

  /** The performance adapter, then the inspection and audit adapters. */
  method RunLaterAdapters(performance: Option<Table>, inspecciones: Option<Table>, auditorias: Option<Table>,
                          mapping: map<string, string>, env: Env) returns (r: Result<(Source, Source, Source), Error>)
    requires performance.Some? ==> WellFormed(performance.value)
    requires inspecciones.Some? ==> WellFormed(inspecciones.value)
    requires auditorias.Some? ==> WellFormed(auditorias.value)
    ensures r == LaterTables(performance, inspecciones, auditorias, mapping, env)
  {
    var p :- RunPerformance(performance, mapping, env);
    var rest :- RunFieldAdapters(inspecciones, auditorias, env);
    r := Ok((p, rest.0, rest.1));
  }

  /** The performance adapter, read as `PerformanceTable`. */
  method RunPerformance(performance: Option<Table>, mapping: map<string, string>, env: Env) returns (r: Result<Source, Error>)
    requires performance.Some? ==> WellFormed(performance.value)
    ensures r == PerformanceTable(performance, mapping, env)
  {
    r := ProcessPerformance(performance, mapping, env);
  }

  /** Each adapter hands over a well-formed table: the empty frame, or one with
      its own columns. */
  lemma {:induction false} AdaptersProduce(ventas: Option<Table>, performance: Option<Table>, inspecciones: Option<Table>,
                        auditorias: Option<Table>, mapping: map<string, string>, env: Env)
    requires ventas.Some? ==> WellFormed(ventas.value)
    requires performance.Some? ==> WellFormed(performance.value)
    requires inspecciones.Some? ==> WellFormed(inspecciones.value)
    requires auditorias.Some? ==> WellFormed(auditorias.value)
    ensures var tables := AdapterTables(ventas, performance, inspecciones, auditorias, mapping, env);
            tables.Ok? ==> FromAdapters(tables.value) && forall j :: 0 <= j < 4 ==> WellFormedSource(tables.value[j])
  {
    var tables := AdapterTables(ventas, performance, inspecciones, auditorias, mapping, env);
    if tables.Ok? {
      var v, p := SalesTable(ventas, env), PerformanceTable(performance, mapping, env);
      var ins, a := InspectionTable(inspecciones, env), AuditTable(auditorias, env);
      SalesProduced(ventas, env);
      PerformanceProduced(performance, mapping, env);
      InspectionProduced(inspecciones, env);
      AuditProduced(auditorias, env);
      assert tables.value == [v.value, p.value, ins.value, a.value];
      FourAdapters(v.value, p.value, ins.value, a.value);
    }
  }

  /** Each adapter's table, when it has one, is well-formed and empty or with
      exactly its own columns. */
  lemma {:induction false} SalesProduced(t: Option<Table>, env: Env)
    requires t.Some? ==> WellFormed(t.value)
    ensures SalesTable(t, env).Ok? ==> Produced(SalesTable(t, env).value, VentasColumns)
  {
    Ventas.ColumnsDistinct();
  }

  lemma {:induction false} PerformanceProduced(t: Option<Table>, mapping: map<string, string>, env: Env)
    requires t.Some? ==> WellFormed(t.value)
    ensures PerformanceTable(t, mapping, env).Ok? ==> Produced(PerformanceTable(t, mapping, env).value, PerformanceColumns)
  {
    Performance.ColumnsDistinct();
  }

  lemma {:induction false} InspectionProduced(t: Option<Table>, env: Env)
    requires t.Some? ==> WellFormed(t.value)
    ensures InspectionTable(t, env).Ok? ==> Produced(InspectionTable(t, env).value, InspectionColumns)
  {
  }

  lemma {:induction false} AuditProduced(t: Option<Table>, env: Env)
    requires t.Some? ==> WellFormed(t.value)
    ensures AuditTable(t, env).Ok? ==> Produced(AuditTable(t, env).value, AuditColumns)
  {
    Auditorias.ColumnsDistinct();
  }

  /** The last two adapters of `procesar_reportes`: inspections, then audits. */
  method RunFieldAdapters(inspecciones: Option<Table>, auditorias: Option<Table>, env: Env)
    returns (r: Result<(Source, Source), Error>)
    requires inspecciones.Some? ==> WellFormed(inspecciones.value)
    requires auditorias.Some? ==> WellFormed(auditorias.value)
    ensures r == FieldTables(inspecciones, auditorias, env)
    ensures r.Ok? ==> Produced(r.value.0, InspectionColumns) && Produced(r.value.1, AuditColumns)
  {
    var ins :- ProcessInspecciones(inspecciones, env);
    var a :- ProcessAuditorias(auditorias, env);
    r := Ok((ins, a));
  }

  /** The second half of `procesar_reportes`: the daily table from the adapters'
      tables, then the weekly matrix and the summary built from it. The weekly
      aggregation raises KeyError exactly when some adapters produced rows and
      another none. */
  method BuildReports(sources: seq<Source>) returns (r: Result<Reports, Error>)
    requires FromAdapters(sources) && forall j :: 0 <= j < 4 ==> WellFormedSource(sources[j])
    ensures (forall j :: 0 <= j < 4 ==> IsEmpty(sources[j])) ==> r == Ok(Reports(Source([], []), [], []))
    ensures r.Err? <==> Partial(sources)
    ensures r.Err? ==> r.error.KeyError?
    ensures r.Ok? ==> DailyOf(sources, r.value.diario)
    ensures r.Ok? && !IsEmpty(r.value.diario) ==> forall c :: c in WeeklyColumns ==> c in r.value.diario.columns
    ensures r.Ok? ==> DerivedFromDaily(r.value) && Consistent(r.value)
  {
    AdaptersDisjoint(sources);
    var diario := DailyMatrix(sources);
    WeeklyFailsOnPartial(sources, diario);
    r := DeriveReports(diario);
  }

  /** `build_daily_matrix`, with its contract read as `DailyOf`. */
  method DailyMatrix(sources: seq<Source>) returns (d: Source)
    requires forall j :: 0 <= j < |sources| ==> WellFormedSource(sources[j])
    requires Disjoint(sources)
    ensures DailyOf(sources, d)
    ensures (forall j :: 0 <= j < |sources| ==> IsEmpty(sources[j])) ==> d == Source([], [])
    ensures (exists j :: 0 <= j < |sources| && !IsEmpty(sources[j])) ==> |d.rows| > 0
  {
    d := BuildDailyMatrix(sources);
    DailyOfIntro(sources, d);
  }

  /** The daily matrix's contract, read as `DailyOf`. */
  lemma {:induction false} DailyOfIntro(sources: seq<Source>, d: Source)
    requires d.columns == JoinedColumns(sources)
    requires SortedBy(d.rows, DailyOrder)
    requires forall k :: k in RowKeys(d.rows) <==> HasKey(sources, k)
    requires forall i :: 0 <= i < |d.rows| ==> HasColumns(d.rows[i], d.columns)
    requires forall i, j, c :: 0 <= i < |d.rows| && 0 <= j < |sources| && !IsEmpty(sources[j]) && c in sources[j].columns ==>
               c in d.rows[i].vals && d.rows[i].vals[c] == DailyCell(sources[j], RowKey(d.rows[i]), c)
    ensures DailyOf(sources, d)
  {
  }

  /** The last two steps of `procesar_reportes`: the weekly matrix and the
      summary of the daily table, which raise KeyError when it has rows but lacks
      a weekly column, and otherwise agree with each other. */
  method DeriveReports(diario: Source) returns (r: Result<Reports, Error>)
    ensures r.Err? <==> !IsEmpty(diario) && MissingColumn(diario.columns, WeeklyColumns).Some?
    ensures r.Err? ==> r.error.KeyError?
    ensures IsEmpty(diario) ==> r == Ok(Reports(diario, [], []))
    ensures r.Ok? ==> r.value.diario == diario && DerivedFromDaily(r.value) && Consistent(r.value)
  {
    var semanal :- BuildWeeklyMatrix(diario);
    var summary := BuildSummary(diario);
    assert summary.Ok?;  // every summary column is a weekly column
    var resumen := summary.value;
    if !IsEmpty(diario) {
      forall i, c | 0 <= i < |resumen| && c in SummaryColumns && IsCount(c)
        ensures Num(BucketSum(semanal, c, AgentOf(resumen[i].key))) == resumen[i].vals[c]
      {
        WeeklyMatchesSummary(diario.rows, i, c);
      }
    }
    r := Ok(Reports(diario, semanal, resumen));
    assert DerivedFromDaily(r.value);
  }

  /** The daily table of the adapters' tables lacks a weekly column, while having
      rows, exactly when some adapters produced rows and another none. */
  lemma {:induction false} WeeklyFailsOnPartial(sources: seq<Source>, d: Source)
    requires FromAdapters(sources)
    requires d.columns == JoinedColumns(sources)
    requires (forall j :: 0 <= j < |sources| ==> IsEmpty(sources[j])) ==> d == Source([], [])
    requires (exists j :: 0 <= j < |sources| && !IsEmpty(sources[j])) ==> |d.rows| > 0
    ensures (!IsEmpty(d) && MissingColumn(d.columns, WeeklyColumns).Some?) <==> Partial(sources)
  {
    if Partial(sources) {
      forall e, f | 0 <= e < 4 && 0 <= f < 4 && IsEmpty(sources[e]) && !IsEmpty(sources[f])
        ensures MissingColumn(JoinedColumns(sources), WeeklyColumns).Some?
      {
        PartialInputFails(sources, e, f);
      }
    } else if forall j :: 0 <= j < 4 ==> !IsEmpty(sources[j]) {
      FullInputCovers(sources);
    }
  }
}
