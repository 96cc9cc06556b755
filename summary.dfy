/** The overall summary: the daily table re-aggregated per agent, and missing
    averages shown as "-". Unlike the weekly matrix it has no ticket-count column. */
module Summary {

  import opened Wrappers
  import opened Cells
  import opened Order
  import opened Tables
  import opened Regroup
  import opened Weekly

  /** The columns the summary aggregation reads: the weekly ones but Q_Tickets. */
  const SummaryColumns: seq<Column> := [
    QEncuestas, Nps, Csat, Firt, PctFirt, Furt, PctFurt, QReopen,
    QTicketsResueltos, QAuditorias, NotaAuditorias, VentasTotales, VentasCompartidas,
    VentasExclusivas, QInspecciones]

  /** groupby's ordering of agents. */
  function AgentOrder(a: string): seq<Atom> {
    [S(a)]
  }

  lemma AgentOrderInjective(ks: seq<string>)
    ensures InjectiveOn(ks, AgentOrder)
  {
    forall x, y | x in ks && y in ks && AgentOrder(x) == AgentOrder(y) ensures x == y {
      assert AgentOrder(x)[0] == AgentOrder(y)[0];
    }
  }

  /** Each daily row's group key: its agent. */
  function Agents(rows: seq<Row>): (ks: seq<string>)
    ensures |ks| == |rows| && forall i :: 0 <= i < |rows| ==> ks[i] == rows[i].agente
  {
    seq(|rows|, i requires 0 <= i < |rows| => rows[i].agente)
  }

  /** `df_daily.groupby("agente", as_index=False).agg(...)`. */
  function SummaryGroups(rows: seq<Row>): (g: seq<Bucket<string>>)
    ensures forall i, j :: 0 <= i < j < |g| ==> StrLess(g[i].key, g[j].key)
    ensures forall a :: a in Agents(rows) <==> exists i :: 0 <= i < |g| && g[i].key == a
    ensures forall i, c :: 0 <= i < |g| ==> (c in g[i].vals <==> c in SummaryColumns)
  {
    AgentOrderInjective(Agents(rows));
    var g := Regroup.Regroup(Agents(rows), RowVals(rows), AgentOrder, SummaryColumns);
    AgentsSorted(g);
    g
  }

  /** Buckets sorted by `AgentOrder` are sorted by agent. */
  lemma AgentsSorted(g: seq<Bucket<string>>)
    requires forall i, j :: 0 <= i < j < |g| ==> KeyLess(AgentOrder(g[i].key), AgentOrder(g[j].key))
    ensures forall i, j :: 0 <= i < j < |g| ==> StrLess(g[i].key, g[j].key)
  {
    forall i, j | 0 <= i < j < |g| ensures StrLess(g[i].key, g[j].key) {
      SingleKeyLess(S(g[i].key), S(g[j].key));
    }
  }

  /** `build_summary(df_daily)`: empty for an empty daily table, a KeyError when
      the daily table lacks a column the aggregation names, and otherwise one row
      per agent in ascending order, holding every aggregated column, with no rate
      left missing. */
  method BuildSummary(daily: Source) returns (r: Result<seq<Bucket<string>>, Error>)
    ensures IsEmpty(daily) ==> r == Ok([])
    ensures !IsEmpty(daily) && MissingColumn(daily.columns, SummaryColumns).Some? ==>
              r == Err(KeyError(ColumnName(MissingColumn(daily.columns, SummaryColumns).value)))
    ensures !IsEmpty(daily) && MissingColumn(daily.columns, SummaryColumns).None? ==>
              r == Ok(DashAll(SummaryGroups(daily.rows)))
    ensures r.Ok? ==> forall i, j :: 0 <= i < j < |r.value| ==> StrLess(r.value[i].key, r.value[j].key)
    ensures r.Ok? ==> forall i, c :: 0 <= i < |r.value| ==> (c in r.value[i].vals <==> c in SummaryColumns)
    ensures r.Ok? ==> forall i, c :: 0 <= i < |r.value| && c in r.value[i].vals && !IsCount(c) ==> !r.value[i].vals[c].Null?
  {
    if IsEmpty(daily) {
      return Ok([]);
    }
    var missing := MissingColumn(daily.columns, SummaryColumns);
    if missing.Some? {
      return Err(KeyError(ColumnName(missing.value)));
    }
    var grouped := SummaryGroups(daily.rows);
    var shown := DashRates(grouped);
    DashAllShape(grouped, AgentOrder, SummaryColumns);
    forall i, j | 0 <= i < j < |shown| ensures StrLess(shown[i].key, shown[j].key) {
      assert KeyLess(AgentOrder(shown[i].key), AgentOrder(shown[j].key));
    }
    r := Ok(shown);
  }

  /** An agent's summary row holds, in each additive column, the agent's total
      over the daily table. */
  lemma SummaryTotals(rows: seq<Row>, i: int, c: Column)
    requires 0 <= i < |DashAll(SummaryGroups(rows))|
    requires c in SummaryColumns && IsCount(c)
    ensures DashAll(SummaryGroups(rows))[i].vals[c] == Num(AgentTotal(rows, DashAll(SummaryGroups(rows))[i].key, c))
  {
    var g := SummaryGroups(rows);
    DashedCells(g[i], c);
    MembersTotal(rows, g[i].key, c);
  }

  /** Every agent of the daily table has a summary row, and every summary row an agent. */
  lemma SummaryAgents(rows: seq<Row>, a: string)
    ensures (exists i :: 0 <= i < |rows| && rows[i].agente == a)
            <==> (exists j :: 0 <= j < |DashAll(SummaryGroups(rows))| && DashAll(SummaryGroups(rows))[j].key == a)
  {
    var g := SummaryGroups(rows);
    var ks := Agents(rows);
    forall j | 0 <= j < |g| ensures DashAll(g)[j].key == g[j].key {
      DashedCells(g[j], QTickets);
    }
    assert a in ks <==> exists j :: 0 <= j < |g| && g[j].key == a;
    if exists i :: 0 <= i < |rows| && rows[i].agente == a {
      var i :| 0 <= i < |rows| && rows[i].agente == a;
      assert ks[i] == a;
    }
    if a in ks {
      var i :| 0 <= i < |ks| && ks[i] == a;
      assert rows[i].agente == a;
    }
  }

  /** The rows filed under agent `a` add up to the agent's total. */
  lemma {:induction false} MembersTotal(rows: seq<Row>, a: string, c: Column)
    ensures Sum(ColumnOf(Members(Agents(rows), RowVals(rows), a), c)) == AgentTotal(rows, a, c)
  {
    if rows != [] {
      var n := |rows| - 1;
      var ks, vs := Agents(rows), RowVals(rows);
      assert ks[..n] == Agents(rows[..n]);
      assert vs[..n] == RowVals(rows[..n]);
      MembersTotal(rows[..n], a, c);
      var before := Members(ks[..n], vs[..n], a);
      var cell := CellIn(rows[n].vals, c);
      assert Members(ks, vs, a) == before + (if rows[n].agente == a then [rows[n].vals] else []);
      assert AgentTotal(rows, a, c) == AgentTotal(rows[..n], a, c) + (if rows[n].agente == a then NumOr0(cell) else 0.0);
      if rows[n].agente == a {
        ColumnSnoc(before, rows[n].vals, c);
        SumAppend(ColumnOf(before, c), [cell]);
        assert Sum([cell]) == Sum([cell][..0]) + NumOr0(cell);
      } else {
        assert before + [] == before;
      }
    }
  }

  /** The weekly and summary tables agree: for each additive column they share,
      an agent's weekly rows add up to the agent's summary row. */
  lemma WeeklyMatchesSummary(rows: seq<Row>, i: int, c: Column)
    requires rows != []
    requires 0 <= i < |DashAll(SummaryGroups(rows))|
    requires c in SummaryColumns && IsCount(c)
    ensures Num(BucketSum(DashAll(WeeklyGroups(rows)), c, AgentOf(DashAll(SummaryGroups(rows))[i].key)))
            == DashAll(SummaryGroups(rows))[i].vals[c]
  {
    SummaryTotals(rows, i, c);
    WeeklyKeepsSums(rows, DashAll(SummaryGroups(rows))[i].key, c);
  }
}
