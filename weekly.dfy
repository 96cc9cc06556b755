/** The weekly matrix: each daily row is filed under its agent and the label of
    the seven-day block it falls in (blocks counted from the Monday of the
    earliest date), then re-aggregated, and missing averages shown as "-". */
module Weekly {

  import opened Wrappers
  import opened Text
  import opened Calendar
  import opened Cells
  import opened Order
  import opened Tables
  import opened Regroup

  /** The columns the weekly aggregation reads, each with its reducer. */
  const WeeklyColumns: seq<Column> := [
    QEncuestas, Nps, Csat, Firt, PctFirt, Furt, PctFurt, QReopen, QTickets,
    QTicketsResueltos, QAuditorias, NotaAuditorias, VentasTotales, VentasCompartidas,
    VentasExclusivas, QInspecciones]

  /** Spanish month names, January first. */
  const Months: seq<string> := [
    "Enero", "Febrero", "Marzo", "Abril", "Mayo", "Junio",
    "Julio", "Agosto", "Septiembre", "Octubre", "Noviembre", "Diciembre"]

  /** `d - timedelta(days=d.weekday())`: the Monday on or before `d`. */
  function WeekStart(d: Date): (r: Date)
    ensures Weekday(r) == 0
    ensures DayNumber(r) <= DayNumber(d) < DayNumber(r) + 7
    ensures DayNumber(r) == DayNumber(d) - DayNumber(d) % 7
  {
    DayNumberOrder(d, d);
    WeekdayShift(d, -Weekday(d));
    Shift(d, -Weekday(d))
  }

  /** `(fecha - inicio_sem).days // 7`: the number of whole weeks since the anchor. */
  function WeekIndex(inicio: Date, fecha: Date): (w: int)
    ensures 7 * w <= DayNumber(fecha) - DayNumber(inicio) < 7 * w + 7
    ensures DayNumber(inicio) <= DayNumber(fecha) ==> w >= 0
  {
    (DayNumber(fecha) - DayNumber(inicio)) / 7
  }

  /** `inicio_sem + timedelta(days=sem*7)`: the first day of the block holding `fecha`. */
  function BlockStart(inicio: Date, fecha: Date): (r: Date)
    requires DayNumber(inicio) <= DayNumber(fecha)
    ensures DayNumber(r) <= DayNumber(fecha) < DayNumber(r) + 7
    ensures DayNumber(r) == DayNumber(inicio) + 7 * WeekIndex(inicio, fecha)
  {
    DayNumberOrder(inicio, inicio);
    Shift(inicio, 7 * WeekIndex(inicio, fecha))
  }

  /** `f"Semana {ini.day} al {fin.day} de {meses[fin.month]}"` with `fin` six days on. */
  function BlockLabel(ini: Date): (text: string)
    ensures IsWeekLabel(text)
  {
    DayNumberOrder(ini, ini);
    var fin := Shift(ini, 6);
    LabelShape(NatToString(ini.day), NatToString(fin.day), Months[fin.month - 1]);
    "Semana " + NatToString(ini.day) + " al " + NatToString(fin.day) + " de " + Months[fin.month - 1]
  }

  lemma LabelShape(first: string, last: string, month: string)
    requires month in Months
    ensures IsWeekLabel("Semana " + first + " al " + last + " de " + month)
  {
    var text := "Semana " + first + " al " + last + " de " + month;
    assert text[..7] == "Semana ";
    assert text[|text| - |month|..] == month;
  }

  /** The shape of a week label: "Semana ", then text ending in a Spanish month name. */
  predicate IsWeekLabel(text: string) {
    && |text| > 7 && text[..7] == "Semana "
    && exists m :: m in Months && |m| < |text| && text[|text| - |m|..] == m
  }

  /** `nombre_semana(fecha)` for the anchor `inicio_sem`. */
  function WeekLabel(inicio: Date, fecha: Date): (text: string)
    requires DayNumber(inicio) <= DayNumber(fecha)
    ensures IsWeekLabel(text)
    ensures exists ini :: DayNumber(ini) <= DayNumber(fecha) <= DayNumber(ini) + 6 && text == BlockLabel(ini)
  {
    BlockLabel(BlockStart(inicio, fecha))
  }

  /** Whole weeks: `(7 * q + x) // 7 == q + x // 7`. */
  lemma DivWeeks(q: int, x: int)
    ensures (7 * q + x) / 7 == q + x / 7
  {
  }

  /** Anchored on a Monday, the blocks are calendar weeks: a date's block starts
      on the Monday on or before it. */
  lemma BlocksAreWeeks(inicio: Date, fecha: Date)
    requires Weekday(inicio) == 0 && DayNumber(inicio) <= DayNumber(fecha)
    ensures BlockStart(inicio, fecha) == WeekStart(fecha)
    ensures WeekLabel(inicio, fecha) == BlockLabel(WeekStart(fecha))
  {
    assert DayNumber(BlockStart(inicio, fecha)) == DayNumber(WeekStart(fecha)) by {
      WholeWeeks(DayNumber(inicio), DayNumber(fecha));
    }
    DayNumberInjective(BlockStart(inicio, fecha), WeekStart(fecha));
  }

  /** From a multiple of seven `i`, stepping whole weeks towards `f` stops at the
      multiple of seven on or before `f`. */
  lemma WholeWeeks(i: int, f: int)
    requires i % 7 == 0 && i <= f
    ensures i + 7 * ((f - i) / 7) == f - f % 7
  {
    assert i == 7 * (i / 7);
    assert f == 7 * (f / 7) + f % 7;
    DivWeeks(f / 7 - i / 7, f % 7);
    assert f - i == 7 * (f / 7 - i / 7) + f % 7;
  }

  /** Every date of a block lies between the block's first day and its sixth day after. */
  lemma BlockSpan(inicio: Date, fecha: Date)
    requires DayNumber(inicio) <= DayNumber(fecha)
    ensures DayNumber(inicio) <= DayNumber(BlockStart(inicio, fecha))
    ensures DayNumber(BlockStart(inicio, fecha)) <= DayNumber(fecha) <= DayNumber(BlockStart(inicio, fecha)) + 6
  {
    var d := DayNumber(fecha) - DayNumber(inicio);
    assert d == 7 * (d / 7) + d % 7;
  }

  /** The blocks do not overlap: the only week index whose seven days hold
      `fecha` is the one `nombre_semana` computes. */
  lemma BlockUnique(inicio: Date, fecha: Date, k: int)
    requires DayNumber(inicio) + 7 * k <= DayNumber(fecha) < DayNumber(inicio) + 7 * k + 7
    ensures k == WeekIndex(inicio, fecha)
  {
    var d := DayNumber(fecha) - DayNumber(inicio);
    DivWeeks(k, d - 7 * k);
  }

  /** Two dates of the same calendar week get the same label. */
  lemma SameWeekSameLabel(inicio: Date, a: Date, b: Date)
    requires Weekday(inicio) == 0
    requires DayNumber(inicio) <= DayNumber(a) && DayNumber(inicio) <= DayNumber(b)
    requires WeekStart(a) == WeekStart(b)
    ensures WeekLabel(inicio, a) == WeekLabel(inicio, b)
  {
    BlocksAreWeeks(inicio, a);
    BlocksAreWeeks(inicio, b);
  }

  /** The label names neither year nor block number: 2024-01-01 and 2029-01-01,
      both Mondays five years apart, fall in different blocks and share the label
      "Semana 1 al 7 de Enero", so their rows are summed together. */
  lemma LabelsRepeatAcrossYears(inicio: Date)
    requires Weekday(inicio) == 0 && DayNumber(inicio) <= DayNumber(CalendarDate(2024, 1, 1))
    ensures WeekIndex(inicio, CalendarDate(2024, 1, 1)) != WeekIndex(inicio, CalendarDate(2029, 1, 1))
    ensures WeekLabel(inicio, CalendarDate(2024, 1, 1)) == "Semana 1 al 7 de Enero"
    ensures WeekLabel(inicio, CalendarDate(2029, 1, 1)) == "Semana 1 al 7 de Enero"
  {
    var a: Date := CalendarDate(2024, 1, 1);
    var b: Date := CalendarDate(2029, 1, 1);
    assert DayNumber(a) == 738885;
    assert DayNumber(b) == 740712;
    NewYearLabel(inicio, 2024);
    NewYearLabel(inicio, 2029);
    assert DayNumber(b) - DayNumber(inicio) == DayNumber(a) - DayNumber(inicio) + 7 * 261;
    DivWeeks(261, DayNumber(a) - DayNumber(inicio));
  }

  /** A year that starts on a Monday labels its first day "Semana 1 al 7 de Enero". */
  lemma NewYearLabel(inicio: Date, y: int)
    requires y >= 1
    requires Weekday(inicio) == 0 && Weekday(CalendarDate(y, 1, 1)) == 0
    requires DayNumber(inicio) <= DayNumber(CalendarDate(y, 1, 1))
    ensures WeekLabel(inicio, CalendarDate(y, 1, 1)) == "Semana 1 al 7 de Enero"
  {
    var m: Date := CalendarDate(y, 1, 1);
    BlocksAreWeeks(inicio, m);
    DayNumberInjective(WeekStart(m), m);
    NewYearWeek(y);
  }

  /** The week that starts on January 1st runs to January 7th. */
  lemma NewYearWeek(y: int)
    requires y >= 1
    ensures BlockLabel(CalendarDate(y, 1, 1)) == "Semana 1 al 7 de Enero"
  {
    var m: Date := CalendarDate(y, 1, 1);
    var s: Date := CalendarDate(y, 1, 7);
    assert Shift(m, 6) == s by {
      DayNumberOrder(m, m);
      DayNumberInjective(Shift(m, 6), s);
    }
    FirstWeekText(m, s);
  }

  /** The label text of a block from the 1st to the 7th of January. */
  lemma FirstWeekText(ini: Date, fin: Date)
    requires ini.day == 1 && fin.day == 7 && fin.month == 1
    ensures "Semana " + NatToString(ini.day) + " al " + NatToString(fin.day) + " de " + Months[fin.month - 1]
            == "Semana 1 al 7 de Enero"
  {
    assert NatToString(1) == "1" && NatToString(7) == "7";
  }

  /** A weekly group key: `["agente", "Semana"]`. */
  datatype WeekKey = WeekKey(agente: string, semana: string)

  /** groupby's ordering of weekly keys: by agent, then by the label as text. */
  function WeekOrder(k: WeekKey): seq<Atom> {
    [S(k.agente), S(k.semana)]
  }

  /** Distinct weekly keys sort apart. */
  lemma WeekOrderInjective(ks: seq<WeekKey>)
    ensures InjectiveOn(ks, WeekOrder)
  {
    forall x, y | x in ks && y in ks && WeekOrder(x) == WeekOrder(y) ensures x == y {
      assert WeekOrder(x)[0] == WeekOrder(y)[0] && WeekOrder(x)[1] == WeekOrder(y)[1];
    }
  }

  /** `df["fecha"].min()`. */
  function FirstDate(rows: seq<Row>): (d: Date)
    requires rows != []
    ensures exists i :: 0 <= i < |rows| && rows[i].fecha == d
    ensures forall i :: 0 <= i < |rows| ==> DayNumber(d) <= DayNumber(rows[i].fecha)
  {
    if |rows| == 1 then rows[0].fecha
    else
      var m := FirstDate(rows[1..]);
      assert forall i :: 1 <= i < |rows| ==> rows[i] == rows[1..][i - 1];
      if DayNumber(rows[0].fecha) <= DayNumber(m) then rows[0].fecha else m
  }

  /** `inicio_sem`: the Monday of the earliest week. */
  function Anchor(rows: seq<Row>): (inicio: Date)
    requires rows != []
    ensures Weekday(inicio) == 0
    ensures forall i :: 0 <= i < |rows| ==> DayNumber(inicio) <= DayNumber(rows[i].fecha)
  {
    WeekStart(FirstDate(rows))
  }

  /** Each row's group key: its agent and `nombre_semana` of its date. */
  function WeekKeys(rows: seq<Row>, inicio: Date): (ks: seq<WeekKey>)
    requires forall i :: 0 <= i < |rows| ==> DayNumber(inicio) <= DayNumber(rows[i].fecha)
    ensures |ks| == |rows|
    ensures forall i :: 0 <= i < |rows| ==> ks[i] == WeekKey(rows[i].agente, WeekLabel(inicio, rows[i].fecha))
  {
    seq(|rows|, i requires 0 <= i < |rows| => WeekKey(rows[i].agente, WeekLabel(inicio, rows[i].fecha)))
  }

  /** `df.groupby(["agente","Semana"], as_index=False).agg(...)`. */
  function WeeklyGroups(rows: seq<Row>): (g: seq<Bucket<WeekKey>>)
    requires rows != []
    ensures forall i, j :: 0 <= i < j < |g| ==> KeyLess(WeekOrder(g[i].key), WeekOrder(g[j].key))
    ensures forall i, c :: 0 <= i < |g| ==> (c in g[i].vals <==> c in WeeklyColumns)
  {
    var ks := WeekKeys(rows, Anchor(rows));
    WeekOrderInjective(ks);
    Regroup.Regroup(ks, RowVals(rows), WeekOrder, WeeklyColumns)
  }


  /** The first of the columns `want` that the table lacks, which `agg` reports. */
  function MissingColumn(have: seq<Column>, want: seq<Column>): (r: Option<Column>)
    ensures r.None? <==> forall c :: c in want ==> c in have
    ensures r.Some? ==> r.value in want && r.value !in have
  {
    if want == [] then None
    else if want[0] !in have then Some(want[0])
    else MissingColumn(have, want[1..])
  }

  /** `build_weekly_matrix(df_daily)`: empty for an empty daily table, a KeyError
      when the daily table lacks a column the aggregation names, and otherwise one
      row per (agent, week label), strictly ordered by agent and then label text,
      holding every aggregated column, with no rate left missing. */
  method BuildWeeklyMatrix(daily: Source) returns (r: Result<seq<Bucket<WeekKey>>, Error>)
    ensures IsEmpty(daily) ==> r == Ok([])
    ensures !IsEmpty(daily) && MissingColumn(daily.columns, WeeklyColumns).Some? ==>
              r == Err(KeyError(ColumnName(MissingColumn(daily.columns, WeeklyColumns).value)))
    ensures !IsEmpty(daily) && MissingColumn(daily.columns, WeeklyColumns).None? ==>
              r == Ok(DashAll(WeeklyGroups(daily.rows)))
    ensures r.Ok? ==> forall i, j :: 0 <= i < j < |r.value| ==> KeyLess(WeekOrder(r.value[i].key), WeekOrder(r.value[j].key))
    ensures r.Ok? ==> forall i, c :: 0 <= i < |r.value| ==> (c in r.value[i].vals <==> c in WeeklyColumns)
    ensures r.Ok? ==> forall i, c :: 0 <= i < |r.value| && c in r.value[i].vals && !IsCount(c) ==> !r.value[i].vals[c].Null?
  {
    if IsEmpty(daily) {
      return Ok([]);
    }
    var missing := MissingColumn(daily.columns, WeeklyColumns);
    if missing.Some? {
      return Err(KeyError(ColumnName(missing.value)));
    }
    var grouped := WeeklyGroups(daily.rows);
    var shown := DashRates(grouped);
    DashAllShape(grouped, WeekOrder, WeeklyColumns);
    r := Ok(shown);
  }

  /** Weekly totals per agent: for an additive column, an agent's weekly rows add
      up to the agent's daily rows. */
  lemma WeeklyKeepsSums(rows: seq<Row>, a: string, c: Column)
    requires rows != [] && c in WeeklyColumns && IsCount(c)
    ensures BucketSum(DashAll(WeeklyGroups(rows)), c, AgentOf(a)) == AgentTotal(rows, a, c)
  {
    var ks := WeekKeys(rows, Anchor(rows));
    WeekOrderInjective(ks);
    DashKeepsSums(WeeklyGroups(rows), c, AgentOf(a));
    RegroupKeepsSums(ks, RowVals(rows), WeekOrder, WeeklyColumns, c, AgentOf(a));
    WeekRowSum(rows, Anchor(rows), a, c);
  }

  /** Membership in an agent's weekly rows, as a predicate on weekly keys. */
  function AgentOf(a: string): WeekKey -> bool {
    (k: WeekKey) => k.agente == a
  }

  /** Filing rows under week labels does not change an agent's total. */
  lemma {:induction false} WeekRowSum(rows: seq<Row>, inicio: Date, a: string, c: Column)
    requires forall i :: 0 <= i < |rows| ==> DayNumber(inicio) <= DayNumber(rows[i].fecha)
    ensures RowSum(WeekKeys(rows, inicio), RowVals(rows), c, AgentOf(a)) == AgentTotal(rows, a, c)
  {
    if rows != [] {
      var n := |rows| - 1;
      assert WeekKeys(rows, inicio)[..n] == WeekKeys(rows[..n], inicio);
      assert RowVals(rows)[..n] == RowVals(rows[..n]);
      WeekRowSum(rows[..n], inicio, a, c);
    }
  }
}
