/** `process_inspecciones`: inspection records become per-agent, per-day counts of
    inspections. */
module Inspecciones {

  import opened Wrappers
  import opened Text
  import opened Calendar
  import opened Cells
  import opened DateParse
  import opened Tables
  import opened Frames

  const InspectionColumns: seq<Column> := [QInspecciones]

  /** The first error `process_inspecciones` raises on a report with cleaned labels,
      if any, in the order the code reads the columns. */
  function InspectionFailure(df: Table, env: Env): (e: Option<Error>)
    requires WellFormed(df)
    ensures e.Some? ==> e.value.KeyError? || e.value == IndexError
    ensures e.Some? && e.value.KeyError? ==> e.value.column !in df.headers
    ensures e == Some(IndexError) ==> "Fecha" in df.headers && ToDates(Lookup(df, "Fecha").value, env).Err?
    ensures e.None? ==> (forall c :: c in ["Fecha", "Dirección de correo electrónico", "N° Inspecciones"] ==> c in df.headers) && ToDates(Lookup(df, "Fecha").value, env).Ok?
  {
    if "Fecha" !in df.headers then Some(KeyError("Fecha"))
    else if ToDates(Lookup(df, "Fecha").value, env).Err? then Some(IndexError)
    else if "Dirección de correo electrónico" !in df.headers then Some(KeyError("Dirección de correo electrónico"))
    else if "N° Inspecciones" !in df.headers then Some(KeyError("N° Inspecciones"))
    else None
  }

  /** The number of inspections a record reports: its count read as a number, and 0
      when it does not read as one. */
  function InspectionCount(c: Cell): (x: real)
    ensures c.Num? ==> x == c.x
    ensures c.Null? ==> x == 0.0
    ensures c.Str? && ParseDecimal(c.s).None? ==> x == 0.0
    ensures c.Str? && ParseDecimal(c.s).Some? ==> x == ParseDecimal(c.s).value
  {
    NumOr0(ToNumeric(c))
  }

  /** The inspection count of every record. */
  function InspectionCounts(df: Table): (xs: seq<real>)
    requires WellFormed(df) && "N° Inspecciones" in df.headers
    ensures |xs| == |df.rows|
    ensures forall i :: 0 <= i < |df.rows| ==> xs[i] == InspectionCount(At(df, "N° Inspecciones", i))
  {
    seq(|df.rows|, i requires 0 <= i < |df.rows| => InspectionCount(At(df, "N° Inspecciones", i)))
  }

  /** The records with their derived column, from the agent, date and count columns. */
  function Inspections(agentes: seq<Cell>, fecha: seq<Option<Date>>, counts: seq<Cell>): (rows: seq<Derived>)
    requires |fecha| == |agentes| == |counts|
    ensures |rows| == |agentes|
  {
    seq(|agentes|, i requires 0 <= i < |agentes| =>
      Derived(agentes[i], fecha[i], map[QInspecciones := FillZero(ToNumeric(counts[i]))]))
  }

  /** The derived rows, record by record, of a report `process_inspecciones` accepts. */
  function InspectionRows(df: Table, env: Env): (rows: seq<Derived>)
    requires WellFormed(df) && InspectionFailure(df, env).None?
    ensures |rows| == |df.rows|
    ensures forall i :: 0 <= i < |rows| ==>
              QInspecciones in rows[i].vals && NumOr0(rows[i].vals[QInspecciones]) == InspectionCounts(df)[i]
  {
    Inspections(Lookup(df, "Dirección de correo electrónico").value, ToDates(Lookup(df, "Fecha").value, env).value,
                Lookup(df, "N° Inspecciones").value)
  }

  /** The frame built column by column holds, row by row, the derived records. */
  lemma AssembleInspections(fecha: seq<Option<Date>>, agentes: seq<Cell>, counts: seq<Cell>)
    requires |fecha| == |agentes| == |counts|
    ensures SetColumn(SetAgente(SetFecha(Blank(|agentes|), fecha), agentes), QInspecciones, FillZeros(Numeric(counts)))
            == Inspections(agentes, fecha, counts)
  {
  }

  /** `process_inspecciones(df)`. A missing report gives an empty table. Otherwise
      the labels are cleaned, the derived columns are assigned to a private copy,
      and the copy is grouped by (agente, fecha) with `sum`. */
  method ProcessInspecciones(t: Option<Table>, env: Env) returns (r: Result<Source, Error>)
    requires t.Some? ==> WellFormed(t.value)
    ensures t.None? ==> r == Ok(Source([], []))
    ensures t.Some? ==> var df := NormalizeHeaders(t.value);
              && (InspectionFailure(df, env).Some? ==> r == Err(InspectionFailure(df, env).value))
              && (InspectionFailure(df, env).None? ==> r == Ok(GroupBy(InspectionRows(df, env), InspectionColumns)))
    ensures r.Ok? ==> WellFormedSource(r.value)
    ensures r.Ok? ==> r.value.columns == [] || r.value.columns == InspectionColumns
  {
    if t.None? {
      return Ok(Source([], []));
    }
    var df := NormalizeHeaders(t.value);
    var dateCol :- Lookup(df, "Fecha");
    var fecha :- ToDates(dateCol, env);
    var frame := SetFecha(Blank(|df.rows|), fecha);
    var agentes :- Lookup(df, "Dirección de correo electrónico");
    frame := SetAgente(frame, agentes);
    var counts :- Lookup(df, "N° Inspecciones");
    frame := SetColumn(frame, QInspecciones, FillZeros(Numeric(counts)));
    AssembleInspections(fecha, agentes, counts);
    ColumnsDistinct();
    r := Ok(GroupBy(frame, InspectionColumns));
  }

  /** Per (agente, fecha), `Q_Inspecciones` is the sum of the records' counts, a
      count that does not read as a number counting as 0. */
  lemma InspectionTotals(df: Table, env: Env, rows: seq<Derived>, o: Row)
    requires WellFormed(df) && InspectionFailure(df, env).None?
    requires rows == InspectionRows(df, env)
    requires o in GroupBy(rows, InspectionColumns).rows
    ensures o.vals[QInspecciones] == Num(KeyedSum(rows, InspectionCounts(df), RowKey(o)))
  {
    GroupSumIs(rows, InspectionCounts(df), RowKey(o), QInspecciones);
    GroupByCell(rows, InspectionColumns, o, QInspecciones);
  }

  lemma ColumnsDistinct()
    ensures Distinct(InspectionColumns)
  {
  }
}
