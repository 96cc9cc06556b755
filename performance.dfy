/** `process_performance`: support tickets of the "C_Ops Support" group become
    per-agent, per-day ticket counts and satisfaction and response-time averages. */
module Performance {

  import opened Wrappers
  import opened Text
  import opened Calendar
  import opened Cells
  import opened DateParse
  import opened Tables
  import opened Identity
  import opened Frames

  const GroupColumnName: string := "Group Support Service"
  const SupportGroup: string := "C_Ops Support"

  /** The columns of the output, in the order of the `agg` dictionary. */
  const PerformanceColumns: seq<Column> :=
    [QEncuestas, Csat, Nps, Firt, PctFirt, Furt, PctFurt, QReopen, QTickets, QTicketsResueltos]

  /** `x.get(name)` row by row: the column's cells, or missing when it is absent. */
  function OptionalColumn(df: Table, name: string): (r: seq<Cell>)
    requires WellFormed(df)
    ensures |r| == |df.rows|
    ensures forall k :: 0 <= k < |df.rows| ==> r[k] == (if name in df.headers then At(df, name, k) else Null)
  {
    match Get(df, name)
    case Some(col) => col
    case None => Constant(|df.rows|, Null)
  }

  /** A column of `convertibles`: `pd.to_numeric` when present, all missing otherwise. */
  function Convertible(df: Table, name: string): (r: seq<Cell>)
    requires WellFormed(df)
    ensures |r| == |df.rows|
    ensures forall k :: 0 <= k < |df.rows| ==> r[k] == (if name in df.headers then ToNumeric(At(df, name, k)) else Null)
    ensures r == Numeric(OptionalColumn(df, name))
  {
    if name in df.headers then Numeric(Lookup(df, name).value) else Constant(|df.rows|, Null)
  }

  /** The cell a resolved name leaves in the agent column. */
  function AgentCell(r: Option<string>): Cell {
    match r
    case Some(mail) => Str(mail)
    case None => Null
  }

  /** `df.loc[df["agente"].isna(), "agente"] = names.apply(normalize_agent_name_to_email)`:
      a missing address is replaced by the address the full name resolves to. */
  function ResolveAgents(emails: seq<Cell>, names: seq<Cell>, mapping: map<string, string>, env: Env): (r: seq<Cell>)
    requires |names| == |emails|
    ensures |r| == |emails|
    ensures forall k :: 0 <= k < |emails| ==>
              r[k] == (if emails[k].Null? then AgentCell(NormalizeAgentName(names[k], mapping, env)) else emails[k])
  {
    seq(|emails|, k requires 0 <= k < |emails| =>
      if emails[k].Null? then AgentCell(NormalizeAgentName(names[k], mapping, env)) else emails[k])
  }

  /** `Q_Encuestas`: 1 for a ticket with a CSAT or an NPS answer, as read. */
  function Surveyed(csat: seq<Cell>, nps: seq<Cell>): (r: seq<Cell>)
    requires |nps| == |csat|
    ensures |r| == |csat|
    ensures forall k :: 0 <= k < |csat| ==> r[k] == (if !csat[k].Null? || !nps[k].Null? then Num(1.0) else Num(0.0))
  {
    seq(|csat|, k requires 0 <= k < |csat| => if !csat[k].Null? || !nps[k].Null? then Num(1.0) else Num(0.0))
  }

  /** A status reads as solved when `str(x).strip().lower()` is "solved". */
  predicate IsSolved(status: Cell, env: Env) {
    Lower(Strip(CellText(status, env))) == "solved"
  }

  /** `Q_Tickets_Resueltos`: 1 for a solved ticket. */
  function SolvedFlags(status: seq<Cell>, env: Env): (r: seq<Cell>)
    ensures |r| == |status|
    ensures forall k :: 0 <= k < |status| ==> r[k] == (if IsSolved(status[k], env) then Num(1.0) else Num(0.0))
  {
    seq(|status|, k requires 0 <= k < |status| => if IsSolved(status[k], env) then Num(1.0) else Num(0.0))
  }

  /** The first error `process_performance` raises on the selected tickets, if any.
      The full-name column is read even when no address is missing. Without a
      "Reopen" column the code calls `.fillna` on a plain 0, which has no such
      method. */
  function PerformanceFailure(df: Table, env: Env): (e: Option<Error>)
    requires WellFormed(df)
    ensures e.Some? ==> e.value.KeyError? || e.value == IndexError || e.value == AttributeError
    ensures e.Some? && e.value.KeyError? ==> e.value.column !in df.headers
    ensures e == Some(IndexError) ==> "Fecha de Referencia" in df.headers && ToDates(Lookup(df, "Fecha de Referencia").value, env).Err?
    ensures e == Some(AttributeError) ==> "Reopen" !in df.headers
    ensures e.None? ==> (forall c :: c in ["Fecha de Referencia", "Assignee Email", "Assignee FullName", "Status", "Reopen"] ==> c in df.headers) && ToDates(Lookup(df, "Fecha de Referencia").value, env).Ok?
  {
    if "Fecha de Referencia" !in df.headers then Some(KeyError("Fecha de Referencia"))
    else if ToDates(Lookup(df, "Fecha de Referencia").value, env).Err? then Some(IndexError)
    else if "Assignee Email" !in df.headers then Some(KeyError("Assignee Email"))
    else if "Assignee FullName" !in df.headers then Some(KeyError("Assignee FullName"))
    else if "Status" !in df.headers then Some(KeyError("Status"))
    else if "Reopen" !in df.headers then Some(AttributeError)
    else None
  }

  /** One ticket with its derived columns: the survey flag from the raw CSAT and NPS
      cells, one ticket, the solved flag, the reopen count with gaps as 0, and the
      scores and times read as numbers. */
  function Ticket(agent: Cell, fecha: Option<Date>, csat: Cell, nps: Cell, solved: bool, reopen: Cell,
                  firt: Cell, furt: Cell, pctFirt: Cell, pctFurt: Cell): (r: Derived)
    ensures TicketShape(r)
  {
    Derived(agent, fecha, map[
      QEncuestas := (if !csat.Null? || !nps.Null? then Num(1.0) else Num(0.0)),
      QTickets := Num(1.0),
      QTicketsResueltos := (if solved then Num(1.0) else Num(0.0)),
      QReopen := FillZero(ToNumeric(reopen)),
      Csat := ToNumeric(csat),
      Nps := ToNumeric(nps),
      Firt := ToNumeric(firt),
      Furt := ToNumeric(furt),
      PctFirt := ToNumeric(pctFirt),
      PctFurt := ToNumeric(pctFurt)])
  }

  /** The tickets, column by column: the raw CSAT and NPS answers, the status, the
      reopen count and the four response-time columns as read. */
  function Tickets(agents: seq<Cell>, dates: seq<Option<Date>>, csat: seq<Cell>, nps: seq<Cell>, status: seq<Cell>,
                   reopen: seq<Cell>, firt: seq<Cell>, furt: seq<Cell>, pctFirt: seq<Cell>, pctFurt: seq<Cell>, env: Env): (rows: seq<Derived>)
    requires |dates| == |csat| == |nps| == |status| == |reopen| == |firt| == |furt| == |pctFirt| == |pctFurt| == |agents|
    ensures |rows| == |agents|
    ensures forall k :: 0 <= k < |agents| ==> rows[k].agente == agents[k] && rows[k].fecha == dates[k]
    ensures forall r :: r in rows ==> TicketShape(r)
  {
    seq(|agents|, k requires 0 <= k < |agents| =>
      Ticket(agents[k], dates[k], csat[k], nps[k], IsSolved(status[k], env), reopen[k], firt[k], furt[k], pctFirt[k], pctFurt[k]))
  }

  /** The derived rows, ticket by ticket, of a selection `process_performance` accepts. */
  function TicketRows(df: Table, mapping: map<string, string>, env: Env): (rows: seq<Derived>)
    requires WellFormed(df) && PerformanceFailure(df, env).None?
    ensures |rows| == |df.rows|
    ensures forall r :: r in rows ==> TicketShape(r)
  {
    Tickets(ResolveAgents(Lookup(df, "Assignee Email").value, Lookup(df, "Assignee FullName").value, mapping, env),
            ToDates(Lookup(df, "Fecha de Referencia").value, env).value,
            OptionalColumn(df, "CSAT"), OptionalColumn(df, "NPS Score"), Lookup(df, "Status").value, Lookup(df, "Reopen").value,
            OptionalColumn(df, "Firt (h)"), OptionalColumn(df, "Furt (h)"), OptionalColumn(df, "% Firt"), OptionalColumn(df, "% Furt"), env)
  }

  /** What every ticket row carries: one ticket, a 0/1 solved flag, and a 0/1
      survey flag that is 1 whenever a CSAT or NPS score is present. */
  predicate TicketShape(r: Derived) {
    && QTickets in r.vals && QTicketsResueltos in r.vals && QEncuestas in r.vals && Csat in r.vals && Nps in r.vals
    && r.vals[QTickets] == Num(1.0)
    && (r.vals[QTicketsResueltos] == Num(0.0) || r.vals[QTicketsResueltos] == Num(1.0))
    && (r.vals[QEncuestas] == Num(0.0) || r.vals[QEncuestas] == Num(1.0))
    && (r.vals[Csat].Num? || r.vals[Nps].Num? ==> r.vals[QEncuestas] == Num(1.0))
  }

  /** The tickets of the support group, with cleaned labels. */
  function Selection(t: Table): (r: Table)
    requires WellFormed(t) && GroupColumnName in NormalizeHeaders(t).headers
    ensures WellFormed(r) && r.headers == NormalizeHeaders(t).headers
    ensures forall row :: row in r.rows <==> row in t.rows && row[IndexOf(r.headers, GroupColumnName).value] == Str(SupportGroup)
  {
    Select(NormalizeHeaders(t), GroupColumnName, Str(SupportGroup))
  }

  /** `process_performance(df, mapping)`. A missing report, or one without the
      support-group column, gives an empty table. Otherwise the tickets of the
      support group are kept, the derived columns are assigned one after the other,
      and the tickets are grouped by (agente, fecha) with `sum` for counts and
      `mean` for the scores and times. */
  method ProcessPerformance(t: Option<Table>, mapping: map<string, string>, env: Env) returns (r: Result<Source, Error>)
    requires t.Some? ==> WellFormed(t.value)
    ensures t.None? || GroupColumnName !in NormalizeHeaders(t.value).headers ==> r == Ok(Source([], []))
    ensures t.Some? && GroupColumnName in NormalizeHeaders(t.value).headers ==>
              var df := Selection(t.value);
              && (PerformanceFailure(df, env).Some? ==> r == Err(PerformanceFailure(df, env).value))
              && (PerformanceFailure(df, env).None? ==> r == Ok(GroupBy(TicketRows(df, mapping, env), PerformanceColumns)))
    ensures r.Ok? ==> WellFormedSource(r.value)
    ensures r.Ok? ==> r.value.columns == [] || r.value.columns == PerformanceColumns
  {
    if t.None? {
      return Ok(Source([], []));
    }
    var all := NormalizeHeaders(t.value);
    if GroupColumnName !in all.headers {
      return Ok(Source([], []));
    }
    var df := Select(all, GroupColumnName, Str(SupportGroup));
    var n := |df.rows|;
    var dateCol :- Lookup(df, "Fecha de Referencia");
    var fecha :- ToDates(dateCol, env);
    var frame := SetFecha(Blank(n), fecha);
    var emails :- Lookup(df, "Assignee Email");
    frame := SetAgente(frame, emails);
    var names :- Lookup(df, "Assignee FullName");
    frame := SetAgente(frame, ResolveAgents(emails, names, mapping, env));
    var surveyed := Surveyed(OptionalColumn(df, "CSAT"), OptionalColumn(df, "NPS Score"));
    frame := SetColumn(frame, QEncuestas, surveyed);
    frame := SetColumn(frame, QTickets, Constant(n, Num(1.0)));
    var status :- Lookup(df, "Status");
    frame := SetColumn(frame, QTicketsResueltos, SolvedFlags(status, env));
    var reopenCol := Get(df, "Reopen");
    if reopenCol.None? {
      return Err(AttributeError);
    }
    frame := SetColumn(frame, QReopen, FillZeros(Numeric(reopenCol.value)));
    frame := SetColumn(frame, Csat, Convertible(df, "CSAT"));
    frame := SetColumn(frame, Nps, Convertible(df, "NPS Score"));
    frame := SetColumn(frame, Firt, Convertible(df, "Firt (h)"));
    frame := SetColumn(frame, Furt, Convertible(df, "Furt (h)"));
    frame := SetColumn(frame, PctFirt, Convertible(df, "% Firt"));
    frame := SetColumn(frame, PctFurt, Convertible(df, "% Furt"));
    AssembleTickets(fecha, emails, ResolveAgents(emails, names, mapping, env),
                    OptionalColumn(df, "CSAT"), OptionalColumn(df, "NPS Score"), status, reopenCol.value,
                    OptionalColumn(df, "Firt (h)"), OptionalColumn(df, "Furt (h)"),
                    OptionalColumn(df, "% Firt"), OptionalColumn(df, "% Furt"), env);
    ColumnsDistinct();
    r := Ok(GroupBy(frame, PerformanceColumns));
  }

  /** The frame built column by column holds, row by row, the derived tickets. */
  lemma AssembleTickets(fecha: seq<Option<Date>>, emails: seq<Cell>, agents: seq<Cell>, csat: seq<Cell>, nps: seq<Cell>,
                        status: seq<Cell>, reopen: seq<Cell>, firt: seq<Cell>, furt: seq<Cell>,
                        pctFirt: seq<Cell>, pctFurt: seq<Cell>, env: Env)
    requires |fecha| == |emails| == |csat| == |nps| == |status| == |reopen| == |firt| == |furt| == |pctFirt| == |pctFurt| == |agents|
    ensures var n := |agents|;
            SetColumn(SetColumn(SetColumn(SetColumn(SetColumn(SetColumn(SetColumn(SetColumn(SetColumn(SetColumn(
              SetAgente(SetAgente(SetFecha(Blank(n), fecha), emails), agents),
              QEncuestas, Surveyed(csat, nps)), QTickets, Constant(n, Num(1.0))),
              QTicketsResueltos, SolvedFlags(status, env)), QReopen, FillZeros(Numeric(reopen))),
              Csat, Numeric(csat)), Nps, Numeric(nps)), Firt, Numeric(firt)), Furt, Numeric(furt)),
              PctFirt, Numeric(pctFirt)), PctFurt, Numeric(pctFurt))
            == Tickets(agents, fecha, csat, nps, status, reopen, firt, furt, pctFirt, pctFurt, env)
  {
    var n := |agents|;
    var f1 := SetAgente(SetAgente(SetFecha(Blank(n), fecha), emails), agents);
    assert forall k :: 0 <= k < n ==> f1[k] == Derived(agents[k], fecha[k], map[]);
    var f2 := SetColumn(SetColumn(SetColumn(SetColumn(f1,
                QEncuestas, Surveyed(csat, nps)), QTickets, Constant(n, Num(1.0))),
                QTicketsResueltos, SolvedFlags(status, env)), QReopen, FillZeros(Numeric(reopen)));
    assert forall k :: 0 <= k < n ==> f2[k] == Derived(agents[k], fecha[k], map[
      QEncuestas := Surveyed(csat, nps)[k], QTickets := Num(1.0),
      QTicketsResueltos := SolvedFlags(status, env)[k], QReopen := FillZeros(Numeric(reopen))[k]]);
    var f3 := SetColumn(SetColumn(SetColumn(f2, Csat, Numeric(csat)), Nps, Numeric(nps)), Firt, Numeric(firt));
    assert forall k :: 0 <= k < n ==> f3[k] == Derived(agents[k], fecha[k], map[
      QEncuestas := Surveyed(csat, nps)[k], QTickets := Num(1.0),
      QTicketsResueltos := SolvedFlags(status, env)[k], QReopen := FillZeros(Numeric(reopen))[k],
      Csat := ToNumeric(csat[k]), Nps := ToNumeric(nps[k]), Firt := ToNumeric(firt[k])]);
  }

  lemma ColumnsDistinct()
    ensures Distinct(PerformanceColumns)
  {
  }

  /** A ticket of another group appended to the report changes nothing: the outcome
      depends on the support group's tickets only. */
  lemma OtherGroupIgnored(t: Table, row: seq<Cell>)
    requires WellFormed(t) && |row| == |t.headers|
    requires GroupColumnName in NormalizeHeaders(t).headers
    requires row[IndexOf(NormalizeHeaders(t).headers, GroupColumnName).value] != Str(SupportGroup)
    ensures var t' := Table(t.headers, t.rows + [row]);
            GroupColumnName in NormalizeHeaders(t').headers && Selection(t') == Selection(t)
  {
    var t' := Table(t.headers, t.rows + [row]);
    assert NormalizeHeaders(t') == Table(NormalizeHeaders(t).headers, t.rows + [row]);
    SelectSkips(NormalizeHeaders(t), GroupColumnName, Str(SupportGroup), row);
  }

  /** Every ticket that reaches the grouping belongs to the support group. */
  lemma OnlySupportGroup(t: Table, k: int)
    requires WellFormed(t) && GroupColumnName in NormalizeHeaders(t).headers
    requires 0 <= k < |Selection(t).rows|
    ensures At(Selection(t), GroupColumnName, k) == Str(SupportGroup)
  {
    assert Selection(t).rows[k] in Selection(t).rows;
  }

  /** A ticket is filed under its assignee's address; without one, under the
      collected address its full name resolves to, which has the name's key, or
      under no agent at all. */
  lemma TicketAgent(df: Table, mapping: map<string, string>, addrs: set<string>, env: Env, k: int)
    requires WellFormed(df) && PerformanceFailure(df, env).None? && 0 <= k < |df.rows|
    requires IsEmailMapping(mapping, addrs)
    ensures var a := TicketRows(df, mapping, env)[k].agente;
            var mail := At(df, "Assignee Email", k);
            var name := At(df, "Assignee FullName", k);
            && (!mail.Null? ==> a == mail)
            && (mail.Null? ==> a.Null? || (a.Str? && a.s in addrs && EmailKey(a.s) == NameKey(CellText(name, env))))
  {
    ResolvedIsCollected(At(df, "Assignee FullName", k), mapping, addrs, env);
  }

  /** In each output row, `Q_Tickets` is the number of tickets grouped there, at
      least one. */
  lemma TicketTotal(rows: seq<Derived>, cols: seq<Column>, o: Row)
    requires forall r :: r in rows ==> TicketShape(r)
    requires QTickets in cols
    requires o in GroupBy(rows, cols).rows
    ensures var g := Group(rows, RowKey(o));
            |g| >= 1 && o.vals[QTickets] == Num(|g| as real)
  {
    GroupedOnes(rows, cols, o, QTickets);
  }

  /** Neither the solved tickets nor the surveyed ones of an output row outnumber
      its tickets, and neither count is negative. */
  lemma TicketCounts(rows: seq<Derived>, cols: seq<Column>, o: Row)
    requires forall r :: r in rows ==> TicketShape(r)
    requires QTickets in cols && QTicketsResueltos in cols && QEncuestas in cols
    requires o in GroupBy(rows, cols).rows
    ensures 0.0 <= o.vals[QTicketsResueltos].x <= o.vals[QTickets].x
    ensures 0.0 <= o.vals[QEncuestas].x <= o.vals[QTickets].x
  {
    WithinTickets(rows, cols, o, QTicketsResueltos);
    WithinTickets(rows, cols, o, QEncuestas);
  }

  lemma WithinTickets(rows: seq<Derived>, cols: seq<Column>, o: Row, c: Column)
    requires forall r :: r in rows ==> QTickets in r.vals && r.vals[QTickets] == Num(1.0)
                                       && c in r.vals && (r.vals[c] == Num(0.0) || r.vals[c] == Num(1.0))
    requires QTickets in cols && c in cols && IsCount(c)
    requires o in GroupBy(rows, cols).rows
    ensures 0.0 <= o.vals[c].x <= o.vals[QTickets].x
  {
    var k := RowKey(o);
    GroupByCell(rows, cols, o, QTickets);
    GroupByCell(rows, cols, o, c);
    GroupBounded(rows, k, c, QTickets);
    NonNegativeSum(rows, k, c);
  }

  /** A CSAT or NPS score counts as a survey: a group holds no more scores of either
      kind than its `Q_Encuestas`, so a group without surveys has no CSAT or NPS
      average. */
  lemma ScoresAreSurveys(rows: seq<Derived>, cols: seq<Column>, o: Row)
    requires forall r :: r in rows ==> TicketShape(r)
    requires QEncuestas in cols && Csat in cols && Nps in cols
    requires o in GroupBy(rows, cols).rows
    ensures && CountNum(GroupColumn(rows, RowKey(o), Csat)) as real <= o.vals[QEncuestas].x
            && CountNum(GroupColumn(rows, RowKey(o), Nps)) as real <= o.vals[QEncuestas].x
            && (o.vals[QEncuestas].x == 0.0 ==> o.vals[Csat].Null? && o.vals[Nps].Null?)
  {
    var k := RowKey(o);
    ScoreBelowSurveys(rows, k, Csat);
    ScoreBelowSurveys(rows, k, Nps);
    GroupByCell(rows, cols, o, QEncuestas);
    assert o.vals[QEncuestas].x == Sum(GroupColumn(rows, k, QEncuestas));
    if o.vals[QEncuestas].x == 0.0 {
      GroupByCell(rows, cols, o, Csat);
      GroupByCell(rows, cols, o, Nps);
    }
  }

  /** Each score of a group is a survey of it. */
  lemma ScoreBelowSurveys(rows: seq<Derived>, k: Key, c: Column)
    requires forall r :: r in rows ==> TicketShape(r)
    requires c == Csat || c == Nps
    ensures CountNum(GroupColumn(rows, k, c)) as real <= Sum(GroupColumn(rows, k, QEncuestas))
  {
    forall r | r in rows
      ensures c in r.vals && QEncuestas in r.vals && 0.0 <= NumOr0(r.vals[QEncuestas])
              && (r.vals[c].Num? ==> 1.0 <= NumOr0(r.vals[QEncuestas]))
    {
      assert TicketShape(r);
    }
    GroupCountBounded(rows, k, c, QEncuestas);
  }
}
