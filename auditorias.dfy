/** `process_auditorias`: quality audits become per-agent, per-day audit counts and
    average audit scores. */
module Auditorias {

  import opened Wrappers
  import opened Calendar
  import opened Cells
  import opened DateParse
  import opened Tables
  import opened Frames

  const AuditColumns: seq<Column> := [QAuditorias, NotaAuditorias]

  /** The first error `process_auditorias` raises on a report with cleaned labels,
      if any, in the order the code reads the columns. */
  function AuditFailure(df: Table, env: Env): (e: Option<Error>)
    requires WellFormed(df)
    ensures e.Some? ==> e.value.KeyError? || e.value == IndexError
    ensures e.Some? && e.value.KeyError? ==> e.value.column !in df.headers
    ensures e == Some(IndexError) ==> "Date Time" in df.headers && ToDates(Lookup(df, "Date Time").value, env).Err?
    ensures e.None? ==> (forall c :: c in ["Date Time", "Audited Agent", "Total Audit Score"] ==> c in df.headers) && ToDates(Lookup(df, "Date Time").value, env).Ok?
  {
    if "Date Time" !in df.headers then Some(KeyError("Date Time"))
    else if ToDates(Lookup(df, "Date Time").value, env).Err? then Some(IndexError)
    else if "Audited Agent" !in df.headers then Some(KeyError("Audited Agent"))
    else if "Total Audit Score" !in df.headers then Some(KeyError("Total Audit Score"))
    else None
  }

  /** The audits with their derived columns, from the agent, date and score
      columns: one audit each, and the score read as a number or missing. */
  function Audits(agentes: seq<Cell>, fecha: seq<Option<Date>>, scores: seq<Cell>): (rows: seq<Derived>)
    requires |fecha| == |agentes| == |scores|
    ensures |rows| == |agentes|
    ensures forall r :: r in rows ==> QAuditorias in r.vals && r.vals[QAuditorias] == Num(1.0)
    ensures forall r :: r in rows ==> NotaAuditorias in r.vals && !r.vals[NotaAuditorias].Str?
  {
    seq(|agentes|, i requires 0 <= i < |agentes| =>
      Derived(agentes[i], fecha[i], map[QAuditorias := Num(1.0), NotaAuditorias := ToNumeric(scores[i])]))
  }

  /** The derived rows, audit by audit, of a report `process_auditorias` accepts. */
  function AuditRows(df: Table, env: Env): (rows: seq<Derived>)
    requires WellFormed(df) && AuditFailure(df, env).None?
    ensures |rows| == |df.rows|
    ensures forall r :: r in rows ==> QAuditorias in r.vals && r.vals[QAuditorias] == Num(1.0)
    ensures forall r :: r in rows ==> NotaAuditorias in r.vals && !r.vals[NotaAuditorias].Str?
  {
    Audits(Lookup(df, "Audited Agent").value, ToDates(Lookup(df, "Date Time").value, env).value,
           Lookup(df, "Total Audit Score").value)
  }

  /** The frame built column by column holds, row by row, the derived audits. */
  lemma AssembleAudits(fecha: seq<Option<Date>>, agentes: seq<Cell>, scores: seq<Cell>)
    requires |fecha| == |agentes| == |scores|
    ensures var n := |agentes|;
            SetColumn(SetColumn(SetAgente(SetFecha(Blank(n), fecha), agentes), QAuditorias, Constant(n, Num(1.0))),
                      NotaAuditorias, Numeric(scores))
            == Audits(agentes, fecha, scores)
  {
  }

  /** `process_auditorias(df)`. A missing report gives an empty table. Otherwise
      every audit is kept, the derived columns are assigned to a private copy, and
      the copy is grouped by (agente, fecha), summing the audits and averaging the
      scores. */
  method ProcessAuditorias(t: Option<Table>, env: Env) returns (r: Result<Source, Error>)
    requires t.Some? ==> WellFormed(t.value)
    ensures t.None? ==> r == Ok(Source([], []))
    ensures t.Some? ==> var df := NormalizeHeaders(t.value);
              && (AuditFailure(df, env).Some? ==> r == Err(AuditFailure(df, env).value))
              && (AuditFailure(df, env).None? ==> r == Ok(GroupBy(AuditRows(df, env), AuditColumns)))
    ensures r.Ok? ==> WellFormedSource(r.value)
    ensures r.Ok? ==> r.value.columns == [] || r.value.columns == AuditColumns
  {
    if t.None? {
      return Ok(Source([], []));
    }
    var df := NormalizeHeaders(t.value);
    var dateCol :- Lookup(df, "Date Time");
    var fecha :- ToDates(dateCol, env);
    var frame := SetFecha(Blank(|df.rows|), fecha);
    var agentes :- Lookup(df, "Audited Agent");
    frame := SetAgente(frame, agentes);
    frame := SetColumn(frame, QAuditorias, Constant(|df.rows|, Num(1.0)));
    var scores :- Lookup(df, "Total Audit Score");
    frame := SetColumn(frame, NotaAuditorias, Numeric(scores));
    AssembleAudits(fecha, agentes, scores);
    ColumnsDistinct();
    r := Ok(GroupBy(frame, AuditColumns));
  }

  /** Per (agente, fecha), `Q_Auditorias` is the number of audits grouped there, at
      least one. */
  lemma AuditCount(df: Table, env: Env, rows: seq<Derived>, o: Row)
    requires WellFormed(df) && AuditFailure(df, env).None?
    requires rows == AuditRows(df, env)
    requires o in GroupBy(rows, AuditColumns).rows
    ensures var g := Group(rows, RowKey(o));
            |g| >= 1 && o.vals[QAuditorias] == Num(|g| as real)
  {
    GroupedOnes(rows, AuditColumns, o, QAuditorias);
  }

  /** Per (agente, fecha), `Nota_Auditorias` is the mean of the scores that read as
      numbers, and it is missing exactly when no audit of the group has one. */
  lemma AuditScore(df: Table, env: Env, rows: seq<Derived>, o: Row)
    requires WellFormed(df) && AuditFailure(df, env).None?
    requires rows == AuditRows(df, env)
    requires o in GroupBy(rows, AuditColumns).rows
    ensures var scores := GroupColumn(rows, RowKey(o), NotaAuditorias);
            && o.vals[NotaAuditorias] == Mean(scores)
            && (o.vals[NotaAuditorias].Null? <==> forall i :: 0 <= i < |scores| ==> !scores[i].Num?)
  {
    GroupByCell(rows, AuditColumns, o, NotaAuditorias);
    CountNumZero(GroupColumn(rows, RowKey(o), NotaAuditorias));
  }

  /** The average score of a group lies within any bounds all scores respect. */
  lemma AuditScoreBounds(rows: seq<Derived>, o: Row, lo: real, hi: real)
    requires forall r :: r in rows ==> NotaAuditorias in r.vals
                                       && (r.vals[NotaAuditorias].Num? ==> lo <= r.vals[NotaAuditorias].x <= hi)
    requires o in GroupBy(rows, AuditColumns).rows
    ensures o.vals[NotaAuditorias].Num? ==> lo <= o.vals[NotaAuditorias].x <= hi
  {
    var scores := GroupColumn(rows, RowKey(o), NotaAuditorias);
    var g := Group(rows, RowKey(o));
    GroupByCell(rows, AuditColumns, o, NotaAuditorias);
    assert forall j :: 0 <= j < |g| ==> g[j] in rows;
    MeanBounds(scores, lo, hi);
  }

  lemma ColumnsDistinct()
    ensures Distinct(AuditColumns)
  {
  }
}
