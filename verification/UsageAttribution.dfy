/**
 * Provider-usage attribution: the difference of two daily ledger snapshots,
 * attributed to the one Run that was active between them.
 */
module UsageAttribution {
  import opened Basics
  import opened MapSums

  // ----- snapshots

  datatype ModelRow = ModelRow(provider: string, model: string, prompt: int, completion: int, total: Option<int>, calls: int)

  datatype AgentRow = AgentRow(agent: string, role: string, models: seq<ModelRow>)

  datatype Snapshot = Snapshot(date: string, agents: seq<AgentRow>)

  datatype Key = Key(agent: string, provider: string, model: string)

  datatype Counts = Counts(prompt: nat, completion: nat, total: nat, calls: nat)

  datatype Row = Row(role: string, counts: Counts)

  type Rows = map<Key, Row>

  datatype Status = ProviderReported | NoModelCall

  datatype Attribution = Attribution(
    runId: string, date: string, status: Status, totals: Counts, byModel: Rows, byAgent: map<string, Counts>,
    baseline: Digest<Snapshot>, current: Digest<Snapshot>)

  datatype Reason =
    | AgentMissing | ModelMissing | DuplicateRow | CounterNegative | TotalMismatch
    | RunIdMissing | NotExclusive | DayDiffers | LedgerRegressed

  type Reply<T> = Outcome<T, Reason>

  const ZERO := Counts(0, 0, 0, 0)

  function Plus(a: Counts, b: Counts): Counts {
    Counts(a.prompt + b.prompt, a.completion + b.completion, a.total + b.total, a.calls + b.calls)
  }

  predicate AtMost(a: Counts, b: Counts) {
    a.prompt <= b.prompt && a.completion <= b.completion && a.total <= b.total && a.calls <= b.calls
  }

  function Minus(a: Counts, b: Counts): Counts
    requires AtMost(b, a)
  {
    Counts(a.prompt - b.prompt, a.completion - b.completion, a.total - b.total, a.calls - b.calls)
  }

  // ----- flattening a snapshot

  function RowOf(agent: AgentRow, m: ModelRow, rows: Rows): Reply<(Key, Row)> {
    var key := Key(agent.agent, m.provider, m.model);
    if m.provider == "" || m.model == "" then Err(ModelMissing)
    else if key in rows then Err(DuplicateRow)
    else if m.prompt < 0 || m.completion < 0 then Err(CounterNegative)
    else
      var total := if m.total.Some? then m.total.value else m.prompt + m.completion;
      if total < 0 then Err(CounterNegative)
      else if total != m.prompt + m.completion then Err(TotalMismatch)
      else if m.calls < 0 then Err(CounterNegative)
      else
        var role := if agent.role == "" then "unknown" else agent.role;
        Ok((key, Row(role, Counts(m.prompt, m.completion, total, m.calls))))
  }

  function AddModels(agent: AgentRow, models: seq<ModelRow>, rows: Rows): Reply<Rows> {
    if models == [] then Ok(rows)
    else
      match RowOf(agent, models[0], rows)
      case Err(reason) => Err(reason)
      case Ok((key, row)) => AddModels(agent, models[1..], rows[key := row])
  }

  function AddAgents(agents: seq<AgentRow>, rows: Rows): Reply<Rows> {
    if agents == [] then Ok(rows)
    else if agents[0].agent == "" then Err(AgentMissing)
    else
      match AddModels(agents[0], agents[0].models, rows)
      case Err(reason) => Err(reason)
      case Ok(more) => AddAgents(agents[1..], more)
  }

  function FlatRows(s: Snapshot): Reply<Rows> {
    AddAgents(s.agents, map[])
  }

  method Flatten(s: Snapshot) returns (r: Reply<Rows>)
    ensures r == FlatRows(s)
  {
    var rows: Rows := map[];
    var i := 0;
    while i < |s.agents|
      invariant 0 <= i <= |s.agents|
      invariant AddAgents(s.agents[i..], rows) == FlatRows(s)
    {
      var agent := s.agents[i];
      assert s.agents[i..][0] == agent && s.agents[i..][1..] == s.agents[i + 1..];
      if agent.agent == "" {
        return Err(AgentMissing);
      }
      ghost var entered := rows;
      var j := 0;
      while j < |agent.models|
        invariant 0 <= j <= |agent.models|
        invariant AddModels(agent, agent.models[j..], rows) == AddModels(agent, agent.models, entered)
      {
        assert agent.models[j..][1..] == agent.models[j + 1..];
        var row := RowOf(agent, agent.models[j], rows);
        if row.Err? {
          return Err(row.error);
        }
        rows := rows[row.value.0 := row.value.1];
        j := j + 1;
      }
      i := i + 1;
    }
    return Ok(rows);
  }

  // ----- the difference

  function Before(rows: Rows, key: Key): Counts {
    if key in rows then rows[key].counts else ZERO
  }

  /** The row is still there and none of its counters fell. */
  predicate RowAdvanced(before: Rows, after: Rows, key: Key) {
    key in after && AtMost(Before(before, key), after[key].counts)
  }

  ghost predicate Advanced(before: Rows, after: Rows) {
    forall key :: key in before || key in after ==> RowAdvanced(before, after, key)
  }

  function DeltaOf(before: Rows, after: Rows, key: Key): Row
    requires RowAdvanced(before, after, key)
  {
    Row(after[key].role, Minus(after[key].counts, Before(before, key)))
  }

  /** Rows without a call or a token are dropped from the report. */
  predicate Reported(row: Row) {
    row.counts.calls != 0 || row.counts.total != 0
  }

  ghost function Deltas(before: Rows, after: Rows): Rows
    requires Advanced(before, after)
  {
    map key | key in after && Reported(DeltaOf(before, after, key)) :: DeltaOf(before, after, key)
  }

  datatype Counter = Prompt | Completion | Total | Call

  function Get(c: Counts, counter: Counter): nat {
    match counter
    case Prompt => c.prompt
    case Completion => c.completion
    case Total => c.total
    case Call => c.calls
  }

  function Column(rows: Rows, counter: Counter): map<Key, nat> {
    map k | k in rows :: Get(rows[k].counts, counter)
  }

  /** The four counters added up over all rows. */
  ghost function SumOf(rows: Rows): Counts {
    Counts(Sum(Column(rows, Prompt)), Sum(Column(rows, Completion)), Sum(Column(rows, Total)), Sum(Column(rows, Call)))
  }

  function OfAgent(rows: Rows, agent: string): Rows {
    map k | k in rows && k.agent == agent :: rows[k]
  }

  ghost function ByAgent(rows: Rows): map<string, Counts> {
    map agent | agent in set k | k in rows :: k.agent :: SumOf(OfAgent(rows, agent))
  }

  ghost function Attribute(baseline: Snapshot, current: Snapshot, runId: string, exclusive: bool): Reply<Attribution> {
    if runId == "" then Err(RunIdMissing)
    else if !exclusive then Err(NotExclusive)
    else if baseline.date == "" || baseline.date != current.date then Err(DayDiffers)
    else
      match (FlatRows(baseline), FlatRows(current))
      case (Err(reason), _) => Err(reason)
      case (Ok(_), Err(reason)) => Err(reason)
      case (Ok(before), Ok(after)) =>
        if !Advanced(before, after) then Err(LedgerRegressed)
        else
          var rows := Deltas(before, after);
          Ok(Attribution(runId, current.date, if SumOf(rows).calls != 0 then ProviderReported else NoModelCall,
                         SumOf(rows), rows, ByAgent(rows), Sha256(baseline), Sha256(current)))
  }

  // ----- sums over rows

  lemma ColumnWithRow(rows: Rows, key: Key, row: Row, counter: Counter)
    requires key !in rows
    ensures Sum(Column(rows[key := row], counter)) == Sum(Column(rows, counter)) + Get(row.counts, counter)
  {
    SumInsert(Column(rows, counter), key, Get(row.counts, counter));
    assert Column(rows[key := row], counter) == Column(rows, counter)[key := Get(row.counts, counter)];
  }

  lemma SumWithRow(rows: Rows, key: Key, row: Row)
    requires key !in rows
    ensures SumOf(rows[key := row]) == Plus(SumOf(rows), row.counts)
  {
    hide Column;
    ColumnWithRow(rows, key, row, Prompt);
    ColumnWithRow(rows, key, row, Completion);
    ColumnWithRow(rows, key, row, Total);
    ColumnWithRow(rows, key, row, Call);
  }

  lemma NoRowsNoSum()
    ensures SumOf(map[]) == ZERO
  {
    assert forall counter :: Column(map[], counter) == map[];
  }

  lemma AgentWithRow(rows: Rows, key: Key, row: Row, agent: string)
    requires key !in rows
    ensures SumOf(OfAgent(rows[key := row], agent)) ==
            if agent == key.agent then Plus(SumOf(OfAgent(rows, agent)), row.counts) else SumOf(OfAgent(rows, agent))
  {
    if agent == key.agent {
      assert OfAgent(rows[key := row], agent) == OfAgent(rows, agent)[key := row];
      SumWithRow(OfAgent(rows, agent), key, row);
    } else {
      assert OfAgent(rows[key := row], agent) == OfAgent(rows, agent);
    }
  }

  // ----- the difference as the source computes it

  lemma DeltasAre(before: Rows, after: Rows, deltas: Rows)
    requires forall k :: k in before || k in after ==> RowAdvanced(before, after, k)
    requires forall k :: k in deltas ==> k in after && deltas[k] == DeltaOf(before, after, k)
    requires forall k :: k in after ==> (k in deltas <==> Reported(DeltaOf(before, after, k)))
    ensures Advanced(before, after) && deltas == Deltas(before, after)
  {
    hide Reported, DeltaOf, AtMost, Before;
  }

  method DeltaRows(before: Rows, after: Rows) returns (r: Reply<Rows>)
    ensures r == if Advanced(before, after) then Ok(Deltas(before, after)) else Err(LedgerRegressed)
  {
    hide Reported, Before, DeltaOf, AtMost, Deltas, Minus;
    var deltas: Rows := map[];
    var keys := before.Keys + after.Keys;
    while keys != {}
      invariant keys <= before.Keys + after.Keys
      invariant forall k :: (k in before || k in after) && k !in keys ==> RowAdvanced(before, after, k)
      invariant forall k :: k in deltas ==> k in after && k !in keys && deltas[k] == DeltaOf(before, after, k)
      invariant forall k :: k in after && k !in keys ==> (k in deltas <==> Reported(DeltaOf(before, after, k)))
      decreases |keys|
    {
      var key :| key in keys;
      keys := keys - {key};
      if key !in after || !AtMost(Before(before, key), after[key].counts) {
        assert !RowAdvanced(before, after, key);
        return Err(LedgerRegressed);
      }
      var row := DeltaOf(before, after, key);
      if Reported(row) {
        deltas := deltas[key := row];
      }
    }
    DeltasAre(before, after, deltas);
    return Ok(deltas);
  }

  /** The sums per agent of the rows visited so far. */
  ghost predicate Grouped(grouped: map<string, Counts>, done: Rows) {
    && (forall k :: k in done ==> k.agent in grouped)
    && (forall agent :: agent in grouped ==>
          && (exists k :: k in done && k.agent == agent)
          && grouped[agent] == SumOf(OfAgent(done, agent)))
  }

  lemma GroupRow(grouped: map<string, Counts>, done: Rows, key: Key, row: Row)
    requires Grouped(grouped, done) && key !in done
    ensures
      var first := if key.agent in grouped then grouped[key.agent] else ZERO;
      Grouped(grouped[key.agent := Plus(first, row.counts)], done[key := row])
  {
    hide SumOf, OfAgent;
    var first := if key.agent in grouped then grouped[key.agent] else ZERO;
    var grouped', done' := grouped[key.agent := Plus(first, row.counts)], done[key := row];
    assert first == SumOf(OfAgent(done, key.agent)) by {
      if key.agent !in grouped {
        NoRowsOfAgent(done, key.agent);
      }
    }
    forall agent | agent in grouped'
      ensures (exists k :: k in done' && k.agent == agent) && grouped'[agent] == SumOf(OfAgent(done', agent))
    {
      AgentWithRow(done, key, row, agent);
      if agent == key.agent {
        assert key in done';
      } else {
        var k :| k in done && k.agent == agent;
        assert k in done';
      }
    }
  }

  lemma NoRowsOfAgent(rows: Rows, agent: string)
    requires forall k :: k in rows ==> k.agent != agent
    ensures SumOf(OfAgent(rows, agent)) == ZERO
  {
    assert OfAgent(rows, agent) == map[];
    NoRowsNoSum();
  }

  lemma GroupedIsByAgent(grouped: map<string, Counts>, rows: Rows)
    requires Grouped(grouped, rows)
    ensures grouped == ByAgent(rows)
  {
    hide SumOf, OfAgent;
    assert grouped.Keys == set k | k in rows :: k.agent;
  }

  method AddUp(rows: Rows) returns (totals: Counts, grouped: map<string, Counts>)
    ensures totals == SumOf(rows) && grouped == ByAgent(rows)
  {
    hide SumOf, OfAgent, Grouped, Plus;
    totals, grouped := ZERO, map[];
    var keys := rows.Keys;
    ghost var done: Rows := map[];
    NoRowsNoSum();
    assert Grouped(grouped, done) by { NothingGrouped(); }
    while keys != {}
      invariant keys <= rows.Keys
      invariant done.Keys == rows.Keys - keys && forall k :: k in done ==> done[k] == rows[k]
      invariant totals == SumOf(done) && Grouped(grouped, done)
      decreases |keys|
    {
      var key :| key in keys;
      keys := keys - {key};
      SumWithRow(done, key, rows[key]);
      GroupRow(grouped, done, key, rows[key]);
      totals := Plus(totals, rows[key].counts);
      var first := if key.agent in grouped then grouped[key.agent] else ZERO;
      grouped := grouped[key.agent := Plus(first, rows[key].counts)];
      done := done[key := rows[key]];
    }
    assert done == rows;
    GroupedIsByAgent(grouped, rows);
  }

  lemma NothingGrouped()
    ensures Grouped(map[], map[])
  {
  }

  method AttributeExclusiveRunDelta(baseline: Snapshot, current: Snapshot, runId: string, exclusive: bool)
    returns (r: Reply<Attribution>)
    ensures r == Attribute(baseline, current, runId, exclusive)
  {
    if runId == "" {
      return Err(RunIdMissing);
    }
    if !exclusive {
      return Err(NotExclusive);
    }
    if baseline.date == "" || baseline.date != current.date {
      return Err(DayDiffers);
    }
    var before := Flatten(baseline);
    if before.Err? {
      return Err(before.error);
    }
    var after := Flatten(current);
    if after.Err? {
      return Err(after.error);
    }
    var deltas := DeltaRows(before.value, after.value);
    if deltas.Err? {
      return Err(deltas.error);
    }
    var totals, grouped := AddUp(deltas.value);
    return Ok(Attribution(runId, current.date, if totals.calls != 0 then ProviderReported else NoModelCall,
                          totals, deltas.value, grouped, Sha256(baseline), Sha256(current)));
  }

  // ----- when a difference is attributed at all

  /** A difference is reported exactly for one exclusive Run, one day, two readable snapshots and no counter that fell. */
  lemma AttributesExactly(baseline: Snapshot, current: Snapshot, runId: string, exclusive: bool)
    ensures Attribute(baseline, current, runId, exclusive).Ok? <==>
              && runId != "" && exclusive
              && baseline.date == current.date != ""
              && FlatRows(baseline).Ok? && FlatRows(current).Ok?
              && forall key :: key in FlatRows(baseline).value ==>
                   && key in FlatRows(current).value
                   && AtMost(FlatRows(baseline).value[key].counts, FlatRows(current).value[key].counts)
  {
    if FlatRows(baseline).Ok? && FlatRows(current).Ok? {
      var before, after := FlatRows(baseline).value, FlatRows(current).value;
      AdvancedExactly(before, after);
    }
  }

  lemma AdvancedExactly(before: Rows, after: Rows)
    ensures Advanced(before, after) <==>
              forall key :: key in before ==> key in after && AtMost(before[key].counts, after[key].counts)
  {
    if Advanced(before, after) {
      assert forall key :: key in before ==> RowAdvanced(before, after, key);
    }
  }

  // ----- every row adds up

  ghost predicate AddsUp(rows: Rows) {
    forall key :: key in rows ==> rows[key].counts.total == rows[key].counts.prompt + rows[key].counts.completion
  }

  lemma {:induction false} ModelsAddUp(agent: AgentRow, models: seq<ModelRow>, rows: Rows)
    requires AddsUp(rows) && AddModels(agent, models, rows).Ok?
    ensures AddsUp(AddModels(agent, models, rows).value)
    decreases |models|
  {
    if models != [] {
      var (key, row) := RowOf(agent, models[0], rows).value;
      ModelsAddUp(agent, models[1..], rows[key := row]);
    }
  }

  lemma {:induction false} AgentsAddUp(agents: seq<AgentRow>, rows: Rows)
    requires AddsUp(rows) && AddAgents(agents, rows).Ok?
    ensures AddsUp(AddAgents(agents, rows).value)
    decreases |agents|
  {
    if agents != [] {
      ModelsAddUp(agents[0], agents[0].models, rows);
      AgentsAddUp(agents[1..], AddModels(agents[0], agents[0].models, rows).value);
    }
  }

  /** The source's last check can never fire: a difference of rows that add up adds up. */
  lemma DeltaAddsUp(before: Rows, after: Rows, key: Key)
    requires AddsUp(before) && AddsUp(after) && RowAdvanced(before, after, key)
    ensures
      var c := DeltaOf(before, after, key).counts;
      c.total == c.prompt + c.completion
  {
  }

  // ----- conservation

  function AgentColumn(rows: map<string, Counts>, counter: Counter): map<string, nat> {
    map agent | agent in rows :: Get(rows[agent], counter)
  }

  lemma ByAgentIsGrouped(rows: Rows)
    ensures Grouped(ByAgent(rows), rows)
  {
    hide SumOf, OfAgent;
  }

  lemma ByAgentWithRow(rows: Rows, key: Key, row: Row)
    requires key !in rows
    ensures
      var less := ByAgent(rows);
      ByAgent(rows[key := row]) == less[key.agent := Plus(if key.agent in less then less[key.agent] else ZERO, row.counts)]
  {
    hide ByAgent, Grouped, Plus;
    ByAgentIsGrouped(rows);
    GroupRow(ByAgent(rows), rows, key, row);
    var less := ByAgent(rows);
    GroupedIsByAgent(less[key.agent := Plus(if key.agent in less then less[key.agent] else ZERO, row.counts)], rows[key := row]);
  }

  lemma AgentColumnUpdate(rows: map<string, Counts>, agent: string, counts: Counts, counter: Counter)
    ensures
      var first := if agent in rows then rows[agent] else ZERO;
      Sum(AgentColumn(rows[agent := Plus(first, counts)], counter)) == Sum(AgentColumn(rows, counter)) + Get(counts, counter)
  {
    hide Sum;
    var first := if agent in rows then rows[agent] else ZERO;
    var column := AgentColumn(rows, counter);
    var value := Get(Plus(first, counts), counter);
    assert AgentColumn(rows[agent := Plus(first, counts)], counter) == column[agent := value];
    SumUpdate(column, agent, value);
    if agent in rows {
      SumWithout(column, agent);
    } else {
      assert column - {agent} == column;
    }
  }

  /** The sums per agent add up to the sums over all rows. */
  lemma {:induction false} ByAgentAddsUp(rows: Rows, counter: Counter)
    ensures Sum(AgentColumn(ByAgent(rows), counter)) == Sum(Column(rows, counter))
    decreases |rows|
  {
    if rows == map[] {
      assert AgentColumn(ByAgent(rows), counter) == map[] && Column(rows, counter) == map[];
    } else {
      hide ByAgent, Get, Sum, AgentColumn, Column, Plus;
      var key :| key in rows;
      var rest := rows - {key};
      assert rows == rest[key := rows[key]];
      ByAgentAddsUp(rest, counter);
      ByAgentWithRow(rest, key, rows[key]);
      AgentColumnUpdate(ByAgent(rest), key.agent, rows[key].counts, counter);
      ColumnWithRow(rest, key, rows[key], counter);
    }
  }

  /** What a counter was before, for every row of the current ledger. */
  function BeforeColumn(before: Rows, after: Rows, counter: Counter): map<Key, nat> {
    map k | k in after :: Get(Before(before, k), counter)
  }

  ghost function DeltaColumn(before: Rows, after: Rows, counter: Counter): map<Key, nat>
    requires Advanced(before, after)
  {
    map k | k in after :: Get(DeltaOf(before, after, k).counts, counter)
  }

  /** Nothing is lost or invented: what was counted before plus what is reported is what is counted now. */
  lemma DeltasConserve(before: Rows, after: Rows, counter: Counter)
    requires Advanced(before, after) && AddsUp(before) && AddsUp(after)
    ensures Sum(Column(before, counter)) + Sum(Column(Deltas(before, after), counter)) == Sum(Column(after, counter))
  {
    var was, delta := BeforeColumn(before, after, counter), DeltaColumn(before, after, counter);
    SumPlus(was, delta, Column(after, counter));
    assert forall k :: k in before ==> RowAdvanced(before, after, k);
    SumZeros(Column(before, counter), was);
    forall k | k in after && k !in Deltas(before, after)
      ensures delta[k] == 0
    {
      DeltaAddsUp(before, after, k);
    }
    SumZeros(Column(Deltas(before, after), counter), delta);
  }

  /**
   * Conservation: the reported totals are the sum over the model rows, the sum
   * over the agents, and the difference of the two ledgers, counter by counter.
   */
  lemma AttributionConserves(baseline: Snapshot, current: Snapshot, runId: string, exclusive: bool, counter: Counter)
    requires Attribute(baseline, current, runId, exclusive).Ok?
    ensures
      var a := Attribute(baseline, current, runId, exclusive).value;
      && Get(a.totals, counter) == Sum(Column(a.byModel, counter))
      && Get(a.totals, counter) == Sum(AgentColumn(a.byAgent, counter))
      && Sum(Column(FlatRows(baseline).value, counter)) + Get(a.totals, counter)
         == Sum(Column(FlatRows(current).value, counter))
  {
    hide FlatRows, Column, AgentColumn, ByAgent, Deltas;
    var a := Attribute(baseline, current, runId, exclusive).value;
    SnapshotAddsUp(baseline);
    SnapshotAddsUp(current);
    ByAgentAddsUp(a.byModel, counter);
    DeltasConserve(FlatRows(baseline).value, FlatRows(current).value, counter);
  }

  lemma SnapshotAddsUp(s: Snapshot)
    requires FlatRows(s).Ok?
    ensures AddsUp(FlatRows(s).value)
  {
    AgentsAddUp(s.agents, map[]);
  }

  // ----- telescoping

  lemma RowAdvances(first: Rows, middle: Rows, last: Rows, key: Key)
    requires Advanced(first, middle) && Advanced(middle, last) && (key in first || key in last)
    ensures RowAdvanced(first, last, key)
  {
    assert key in first ==> RowAdvanced(first, middle, key);
    assert key in middle ==> RowAdvanced(middle, last, key);
  }

  lemma DeltaIsDifference(before: Rows, after: Rows, key: Key)
    requires Advanced(before, after) && AddsUp(before) && AddsUp(after)
    ensures AtMost(Before(before, key), Before(after, key))
    ensures Before(Deltas(before, after), key) == Minus(Before(after, key), Before(before, key))
  {
    hide AddsUp;
    if key in before || key in after {
      assert RowAdvanced(before, after, key);
      DeltaAddsUp(before, after, key);
    }
  }

  lemma MinusTelescopes(a: Counts, b: Counts, c: Counts)
    requires AtMost(a, b) && AtMost(b, c)
    ensures AtMost(a, c) && Minus(c, a) == Plus(Minus(b, a), Minus(c, b))
  {
  }

  lemma RowTelescopes(first: Rows, middle: Rows, last: Rows, key: Key)
    requires Advanced(first, middle) && Advanced(middle, last) && Advanced(first, last)
    requires AddsUp(first) && AddsUp(middle) && AddsUp(last)
    ensures Before(Deltas(first, last), key) == Plus(Before(Deltas(first, middle), key), Before(Deltas(middle, last), key))
  {
    hide *;
    DeltaIsDifference(first, middle, key);
    DeltaIsDifference(middle, last, key);
    DeltaIsDifference(first, last, key);
    MinusTelescopes(Before(first, key), Before(middle, key), Before(last, key));
  }

  lemma AdvancesOnward(first: Rows, middle: Rows, last: Rows)
    requires Advanced(first, middle) && Advanced(middle, last)
    ensures Advanced(first, last)
  {
    hide AtMost, Before;
    forall key | key in first || key in last
      ensures RowAdvanced(first, last, key)
    {
      RowAdvances(first, middle, last, key);
    }
  }

  lemma RowsTelescope(first: Rows, middle: Rows, last: Rows)
    requires Advanced(first, middle) && Advanced(middle, last) && Advanced(first, last)
    requires AddsUp(first) && AddsUp(middle) && AddsUp(last)
    ensures forall key ::
      Before(Deltas(first, last), key) == Plus(Before(Deltas(first, middle), key), Before(Deltas(middle, last), key))
  {
    hide Deltas, Advanced, AddsUp, RowAdvanced, DeltaOf, Reported, Before, AtMost, Minus, Plus;
    forall key
      ensures Before(Deltas(first, last), key) == Plus(Before(Deltas(first, middle), key), Before(Deltas(middle, last), key))
    {
      RowTelescopes(first, middle, last, key);
    }
  }

  lemma GetPlus(a: Counts, b: Counts, counter: Counter)
    ensures Get(Plus(a, b), counter) == Get(a, counter) + Get(b, counter)
  {
  }

  /** Rows that add two others row by row, absent rows counting as zero, have the sum of their sums. */
  lemma ColumnsAdd(a: Rows, b: Rows, c: Rows, counter: Counter)
    requires forall key :: Before(c, key) == Plus(Before(a, key), Before(b, key))
    ensures Sum(Column(c, counter)) == Sum(Column(a, counter)) + Sum(Column(b, counter))
  {
    hide Sum, Column, Before, Plus, Get;
    var keys := a.Keys + b.Keys + c.Keys;
    var wideA, wideB, wideC := Wide(a, keys, counter), Wide(b, keys, counter), Wide(c, keys, counter);
    WideSum(a, keys, counter);
    WideSum(b, keys, counter);
    WideSum(c, keys, counter);
    forall key | key in keys
      ensures wideC[key] == wideA[key] + wideB[key]
    {
      GetPlus(Before(a, key), Before(b, key), counter);
    }
    SumPlus(wideA, wideB, wideC);
  }

  function Wide(rows: Rows, keys: set<Key>, counter: Counter): map<Key, nat> {
    map key | key in keys :: Get(Before(rows, key), counter)
  }

  lemma WideSum(rows: Rows, keys: set<Key>, counter: Counter)
    requires rows.Keys <= keys
    ensures Sum(Wide(rows, keys, counter)) == Sum(Column(rows, counter))
  {
    SumZeros(Column(rows, counter), Wide(rows, keys, counter));
  }

  lemma SumOfCounter(rows: Rows, counter: Counter)
    ensures Get(SumOf(rows), counter) == Sum(Column(rows, counter))
  {
    hide Sum, Column;
  }

  lemma CountsAdd(a: Counts, b: Counts, c: Counts)
    requires forall counter: Counter :: Get(c, counter) == Get(a, counter) + Get(b, counter)
    ensures c == Plus(a, b)
  {
    assert Get(c, Prompt) == c.prompt && Get(c, Completion) == c.completion && Get(c, Total) == c.total && Get(c, Call) == c.calls;
  }

  lemma SumsAdd(a: Rows, b: Rows, c: Rows)
    requires forall key :: Before(c, key) == Plus(Before(a, key), Before(b, key))
    ensures SumOf(c) == Plus(SumOf(a), SumOf(b))
  {
    hide *;
    forall counter: Counter
      ensures Get(SumOf(c), counter) == Get(SumOf(a), counter) + Get(SumOf(b), counter)
    {
      ColumnsAdd(a, b, c, counter);
      SumOfCounter(a, counter);
      SumOfCounter(b, counter);
      SumOfCounter(c, counter);
    }
    CountsAdd(SumOf(a), SumOf(b), SumOf(c));
  }

  lemma RowOfAgent(rows: Rows, agent: string, key: Key)
    ensures Before(OfAgent(rows, agent), key) == if key.agent == agent then Before(rows, key) else ZERO
  {
  }

  /** What an agent is reported with, an absent agent with nothing. */
  function AgentCounts(agents: map<string, Counts>, agent: string): Counts {
    if agent in agents then agents[agent] else ZERO
  }

  lemma AgentCountsAre(rows: Rows, agent: string)
    ensures AgentCounts(ByAgent(rows), agent) == SumOf(OfAgent(rows, agent))
  {
    hide SumOf, OfAgent;
    if agent !in ByAgent(rows) {
      NoRowsOfAgent(rows, agent);
    }
  }

  lemma RowOfAgentAdds(a: Rows, b: Rows, c: Rows, agent: string, key: Key)
    requires Before(c, key) == Plus(Before(a, key), Before(b, key))
    ensures Before(OfAgent(c, agent), key) == Plus(Before(OfAgent(a, agent), key), Before(OfAgent(b, agent), key))
  {
    hide *;
    RowOfAgent(a, agent, key);
    RowOfAgent(b, agent, key);
    RowOfAgent(c, agent, key);
    if key.agent != agent {
      PlusNothing(ZERO);
    }
  }

  lemma PlusNothing(counts: Counts)
    ensures Plus(counts, ZERO) == counts
  {
  }

  lemma AgentsAdd(a: Rows, b: Rows, c: Rows, agent: string)
    requires forall key :: Before(c, key) == Plus(Before(a, key), Before(b, key))
    ensures AgentCounts(ByAgent(c), agent) == Plus(AgentCounts(ByAgent(a), agent), AgentCounts(ByAgent(b), agent))
  {
    hide *;
    forall key
      ensures Before(OfAgent(c, agent), key) == Plus(Before(OfAgent(a, agent), key), Before(OfAgent(b, agent), key))
    {
      RowOfAgentAdds(a, b, c, agent, key);
    }
    SumsAdd(OfAgent(a, agent), OfAgent(b, agent), OfAgent(c, agent));
    AgentCountsAre(a, agent);
    AgentCountsAre(b, agent);
    AgentCountsAre(c, agent);
  }

  /**
   * Telescoping: if the day was attributed from the baseline to some point and
   * from there to now, it is attributed from the baseline to now, and row by row,
   * agent by agent and in total the differences add up.
   */
  lemma AttributionTelescopes(first: Snapshot, middle: Snapshot, last: Snapshot, one: string, other: string, whole: string)
    requires Attribute(first, middle, one, true).Ok? && Attribute(middle, last, other, true).Ok? && whole != ""
    ensures Attribute(first, last, whole, true).Ok?
    ensures
      var a, b := Attribute(first, middle, one, true).value, Attribute(middle, last, other, true).value;
      var c := Attribute(first, last, whole, true).value;
      && c.totals == Plus(a.totals, b.totals)
      && (forall key :: Before(c.byModel, key) == Plus(Before(a.byModel, key), Before(b.byModel, key)))
      && (forall agent :: AgentCounts(c.byAgent, agent) == Plus(AgentCounts(a.byAgent, agent), AgentCounts(b.byAgent, agent)))
  {
    hide FlatRows, SumOf, ByAgent, Deltas, Before, AgentCounts, Plus;
    SnapshotAddsUp(first);
    SnapshotAddsUp(middle);
    SnapshotAddsUp(last);
    var rows, more, most := FlatRows(first).value, FlatRows(middle).value, FlatRows(last).value;
    AdvancesOnward(rows, more, most);
    RowsTelescope(rows, more, most);
    SumsAdd(Deltas(rows, more), Deltas(more, most), Deltas(rows, most));
    forall agent
      ensures AgentCounts(ByAgent(Deltas(rows, most)), agent)
              == Plus(AgentCounts(ByAgent(Deltas(rows, more)), agent), AgentCounts(ByAgent(Deltas(more, most)), agent))
    {
      AgentsAdd(Deltas(rows, more), Deltas(more, most), Deltas(rows, most), agent);
    }
  }
}
