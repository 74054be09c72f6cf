/**
 * What a snapshot's rows and an attribution say in terms of the entries that the
 * provider ledger reports, agent by agent and model by model.
 */
module UsageRows {
  import opened Basics
  import opened MapSums
  import opened UsageAttribution

  // ----- the entries of a snapshot

  datatype Entry = Entry(agent: AgentRow, model: ModelRow)

  function ModelEntries(agent: AgentRow, models: seq<ModelRow>): (es: seq<Entry>)
    ensures |es| == |models|
  {
    seq(|models|, i requires 0 <= i < |models| => Entry(agent, models[i]))
  }

  function Entries(agents: seq<AgentRow>): seq<Entry> {
    if agents == [] then [] else ModelEntries(agents[0], agents[0].models) + Entries(agents[1..])
  }

  function KeyOf(e: Entry): Key {
    Key(e.agent.agent, e.model.provider, e.model.model)
  }

  /** The entry names its provider and model, has no negative counter, and a total, if it has one, that adds up. */
  predicate Sound(e: Entry) {
    && e.model.provider != "" && e.model.model != ""
    && e.model.prompt >= 0 && e.model.completion >= 0 && e.model.calls >= 0
    && e.model.total in {None, Some(e.model.prompt + e.model.completion)}
  }

  /** The row of an entry: each counter where it belongs, the total the sum, an unnamed role unknown. */
  predicate StandsIn(rows: Rows, e: Entry) {
    && KeyOf(e) in rows
    && var row := rows[KeyOf(e)];
    && row.counts.prompt == e.model.prompt && row.counts.completion == e.model.completion
    && row.counts.total == e.model.prompt + e.model.completion && row.counts.calls == e.model.calls
    && (e.agent.role != "" ==> row.role == e.agent.role) && (e.agent.role == "" ==> row.role == "unknown")
  }

  ghost predicate Addable(rows: Rows, es: seq<Entry>) {
    && (forall i :: 0 <= i < |es| ==> Sound(es[i]) && KeyOf(es[i]) !in rows)
    && (forall i, j :: 0 <= i < j < |es| ==> KeyOf(es[i]) != KeyOf(es[j]))
  }

  /** The rows with those of the entries beside them, and nothing else. */
  ghost predicate Added(rows: Rows, es: seq<Entry>, rows': Rows) {
    && (forall key :: key in rows' <==> key in rows || exists i :: 0 <= i < |es| && KeyOf(es[i]) == key)
    && (forall key :: key in rows ==> key in rows' && rows'[key] == rows[key])
    && (forall i :: 0 <= i < |es| ==> StandsIn(rows', es[i]))
  }

  lemma RowExactly(agent: AgentRow, model: ModelRow, rows: Rows)
    ensures
      var e, r := Entry(agent, model), RowOf(agent, model, rows);
      && (r.Ok? <==> Sound(e) && KeyOf(e) !in rows)
      && (r.Ok? ==> r.value.0 == KeyOf(e) && StandsIn(rows[r.value.0 := r.value.1], e))
  {
  }

  lemma AddedInFront(rows: Rows, e: Entry, row: Row, es: seq<Entry>, rows': Rows)
    requires KeyOf(e) !in rows && StandsIn(rows[KeyOf(e) := row], e)
    requires Addable(rows[KeyOf(e) := row], es) && Added(rows[KeyOf(e) := row], es, rows')
    ensures Added(rows, [e] + es, rows')
  {
    hide Sound;
    var all := [e] + es;
    assert forall i :: 0 < i < |all| ==> all[i] == es[i - 1];
    forall key
      ensures key in rows' <==> key in rows || exists i :: 0 <= i < |all| && KeyOf(all[i]) == key
    {
      if i :| 0 <= i < |es| && KeyOf(es[i]) == key {
        assert KeyOf(all[i + 1]) == key;
      }
      if key == KeyOf(e) {
        assert KeyOf(all[0]) == key;
      }
    }
    assert StandsIn(rows', e);
  }

  lemma AddableInFront(rows: Rows, e: Entry, row: Row, es: seq<Entry>)
    ensures Addable(rows, [e] + es) <==> Sound(e) && KeyOf(e) !in rows && Addable(rows[KeyOf(e) := row], es)
  {
    hide Sound;
    var all := [e] + es;
    assert forall i :: 0 < i < |all| ==> all[i] == es[i - 1];
    if Addable(rows, all) {
      forall i | 0 <= i < |es|
        ensures Sound(es[i]) && KeyOf(es[i]) !in rows[KeyOf(e) := row]
      {
        assert es[i] == all[i + 1] && e == all[0];
      }
      forall i, j | 0 <= i < j < |es|
        ensures KeyOf(es[i]) != KeyOf(es[j])
      {
        assert es[i] == all[i + 1] && es[j] == all[j + 1];
      }
    }
  }

  lemma {:induction false} ModelsExactly(agent: AgentRow, models: seq<ModelRow>, rows: Rows)
    ensures
      var es, r := ModelEntries(agent, models), AddModels(agent, models, rows);
      && (r.Ok? <==> Addable(rows, es))
      && (r.Ok? ==> Added(rows, es, r.value))
    decreases |models|
  {
    hide Sound, StandsIn, RowOf, Addable, Added;
    var es := ModelEntries(agent, models);
    if models == [] {
      NothingAdded(rows);
    } else {
      var e := Entry(agent, models[0]);
      RowExactly(agent, models[0], rows);
      assert es == [e] + ModelEntries(agent, models[1..]);
      var r := RowOf(agent, models[0], rows);
      AddableInFront(rows, e, if r.Ok? then r.value.1 else Row("", ZERO), ModelEntries(agent, models[1..]));
      if r.Ok? {
        ModelsExactly(agent, models[1..], rows[r.value.0 := r.value.1]);
        if AddModels(agent, models, rows).Ok? {
          AddedInFront(rows, e, r.value.1, ModelEntries(agent, models[1..]), AddModels(agent, models, rows).value);
        }
      }
    }
  }

  lemma NothingAdded(rows: Rows)
    ensures Addable(rows, []) && Added(rows, [], rows)
  {
  }

  lemma AddableBehind(rows: Rows, first: seq<Entry>, rows': Rows, second: seq<Entry>)
    requires Added(rows, first, rows') && Addable(rows, first)
    ensures Addable(rows, first + second) <==> Addable(rows', second)
  {
    hide Sound, StandsIn;
    var all, n := first + second, |first|;
    assert forall i :: 0 <= i < |all| ==> all[i] == if i < n then first[i] else second[i - n];
    if Addable(rows, all) {
      forall i | 0 <= i < |second|
        ensures Sound(second[i]) && KeyOf(second[i]) !in rows'
      {
        assert second[i] == all[n + i];
        assert forall j :: 0 <= j < n ==> KeyOf(all[j]) != KeyOf(all[n + i]);
        assert forall j :: 0 <= j < n ==> KeyOf(first[j]) == KeyOf(all[j]);
      }
      forall i, j | 0 <= i < j < |second|
        ensures KeyOf(second[i]) != KeyOf(second[j])
      {
        assert second[i] == all[n + i] && second[j] == all[n + j];
      }
    }
    if Addable(rows', second) {
      forall i, j | 0 <= i < j < |all|
        ensures KeyOf(all[i]) != KeyOf(all[j])
      {
        if i < n {
          assert KeyOf(first[i]) in rows';
        }
      }
    }
  }

  lemma AddedBehind(rows: Rows, first: seq<Entry>, rows': Rows, second: seq<Entry>, rows'': Rows)
    requires Added(rows, first, rows') && Added(rows', second, rows'')
    ensures Added(rows, first + second, rows'')
  {
    hide Sound;
    var all, n := first + second, |first|;
    assert forall i :: 0 <= i < |all| ==> all[i] == if i < n then first[i] else second[i - n];
    forall key
      ensures key in rows'' <==> key in rows || exists i :: 0 <= i < |all| && KeyOf(all[i]) == key
    {
      if i :| 0 <= i < |first| && KeyOf(first[i]) == key {
        assert KeyOf(all[i]) == key;
      }
      if i :| 0 <= i < |second| && KeyOf(second[i]) == key {
        assert KeyOf(all[n + i]) == key;
      }
    }
    forall i | 0 <= i < |first|
      ensures StandsIn(rows'', first[i])
    {
      assert StandsIn(rows', first[i]);
    }
  }

  lemma AddableFront(rows: Rows, first: seq<Entry>, second: seq<Entry>)
    requires Addable(rows, first + second)
    ensures Addable(rows, first)
  {
    hide Sound;
    assert forall i :: 0 <= i < |first| ==> (first + second)[i] == first[i];
  }

  lemma {:induction false} AgentsExactly(agents: seq<AgentRow>, rows: Rows)
    ensures
      var es, r := Entries(agents), AddAgents(agents, rows);
      && (r.Ok? <==> (forall i :: 0 <= i < |agents| ==> agents[i].agent != "") && Addable(rows, es))
      && (r.Ok? ==> Added(rows, es, r.value))
    decreases |agents|
  {
    hide Addable, Added, AddModels;
    if agents == [] {
      NothingAdded(rows);
    } else {
      var first, rest := ModelEntries(agents[0], agents[0].models), Entries(agents[1..]);
      assert forall i :: 0 < i < |agents| ==> agents[i] == agents[1..][i - 1];
      ModelsExactly(agents[0], agents[0].models, rows);
      var more := AddModels(agents[0], agents[0].models, rows);
      if more.Ok? {
        AgentsExactly(agents[1..], more.value);
        AddableBehind(rows, first, more.value, rest);
        if AddAgents(agents[1..], more.value).Ok? {
          AddedBehind(rows, first, more.value, rest, AddAgents(agents[1..], more.value).value);
        }
      } else if Addable(rows, first + rest) {
        AddableFront(rows, first, rest);
        assert false;
      }
    }
  }

  /**
   * A snapshot is readable exactly when every agent is named, every entry is
   * sound and no two entries have one key; its rows are then the entries' rows.
   */
  lemma FlatExactly(s: Snapshot)
    ensures
      var es := Entries(s.agents);
      && (FlatRows(s).Ok? <==>
            && (forall i :: 0 <= i < |s.agents| ==> s.agents[i].agent != "")
            && (forall i :: 0 <= i < |es| ==> Sound(es[i]))
            && (forall i, j :: 0 <= i < j < |es| ==> KeyOf(es[i]) != KeyOf(es[j])))
      && (FlatRows(s).Ok? ==>
            && (forall key :: key in FlatRows(s).value <==> exists i :: 0 <= i < |es| && KeyOf(es[i]) == key)
            && (forall i :: 0 <= i < |es| ==> StandsIn(FlatRows(s).value, es[i])))
  {
    hide Sound, StandsIn, Entries, AddAgents;
    AgentsExactly(s.agents, map[]);
  }

  /** The entries are the models of every agent. */
  lemma {:induction false} EntriesExactly(agents: seq<AgentRow>, e: Entry)
    ensures e in Entries(agents) <==> e.agent in agents && e.model in e.agent.models
  {
    if agents != [] {
      var first := ModelEntries(agents[0], agents[0].models);
      EntriesExactly(agents[1..], e);
      assert agents == [agents[0]] + agents[1..];
      if e.agent == agents[0] && e.model in e.agent.models {
        var i :| 0 <= i < |e.agent.models| && e.agent.models[i] == e.model;
        assert first[i] == e;
      }
    }
  }

  // ----- what an attribution says beside its rows

  /** The status says that no model was called exactly when the ledgers count the same calls; Run, day and digests are those asked for. */
  lemma StatusExactly(baseline: Snapshot, current: Snapshot, runId: string, exclusive: bool)
    requires Attribute(baseline, current, runId, exclusive).Ok?
    ensures
      var a := Attribute(baseline, current, runId, exclusive).value;
      && (a.status == NoModelCall <==>
            Sum(Column(FlatRows(baseline).value, Call)) == Sum(Column(FlatRows(current).value, Call)))
      && a.runId == runId && a.date == current.date == baseline.date
      && a.baseline == Sha256(baseline) && a.current == Sha256(current)
  {
    hide FlatRows, Column, ByAgent, Deltas;
    AttributionConserves(baseline, current, runId, exclusive, Call);
  }

  /** A row is reported exactly when a call or a token was counted in it, with its difference and its newest role. */
  lemma ReportedExactly(before: Rows, after: Rows, key: Key)
    requires Advanced(before, after)
    ensures
      var was, rows := Before(before, key), Deltas(before, after);
      && (key in rows <==> key in after && (after[key].counts.calls != was.calls || after[key].counts.total != was.total))
      && (key in rows ==>
            && rows[key].role == after[key].role
            && rows[key].counts.prompt == after[key].counts.prompt - was.prompt
            && rows[key].counts.completion == after[key].counts.completion - was.completion
            && rows[key].counts.total == after[key].counts.total - was.total
            && rows[key].counts.calls == after[key].counts.calls - was.calls)
  {
    if key in after {
      assert RowAdvanced(before, after, key);
    }
  }

  // ----- refusals

  /** What each refusal of an entry says of it, the rows read before it being these. */
  predicate Defect(e: Entry, rows: Rows, reason: Reason) {
    match reason
    case ModelMissing => e.model.provider == "" || e.model.model == ""
    case DuplicateRow => KeyOf(e) in rows
    case CounterNegative =>
      e.model.prompt < 0 || e.model.completion < 0 || e.model.calls < 0 || (e.model.total.Some? && e.model.total.value < 0)
    case TotalMismatch => e.model.total.Some? && e.model.total.value != e.model.prompt + e.model.completion
    case _ => false
  }

  lemma EntryRefusalsExactly(agent: AgentRow, model: ModelRow, rows: Rows, reason: Reason)
    ensures RowOf(agent, model, rows) == Err(reason) ==> Defect(Entry(agent, model), rows, reason)
    ensures Defect(Entry(agent, model), rows, reason) ==> RowOf(agent, model, rows).Err?
  {
  }

  /** Why two snapshots are not attributed: the first of these that holds. */
  lemma RefusalsExactly(baseline: Snapshot, current: Snapshot, runId: string, exclusive: bool)
    ensures
      var r := Attribute(baseline, current, runId, exclusive);
      && (r == Err(RunIdMissing) <==> runId == "")
      && (r == Err(NotExclusive) <==> runId != "" && !exclusive)
      && (r == Err(DayDiffers) <==> runId != "" && exclusive && (baseline.date == "" || baseline.date != current.date))
      && (r == Err(LedgerRegressed) <==>
            && runId != "" && exclusive && baseline.date == current.date != "" && FlatRows(baseline).Ok? && FlatRows(current).Ok?
            && !Advanced(FlatRows(baseline).value, FlatRows(current).value))
      && (runId != "" && exclusive && baseline.date == current.date != "" && FlatRows(baseline).Err? ==> r == Err(FlatRows(baseline).error))
  {
    hide Column, ByAgent, Deltas, Advanced, AddAgents;
    RowReasons(baseline.agents, map[]);
    RowReasons(current.agents, map[]);
  }

  lemma {:induction false} ModelReasons(agent: AgentRow, models: seq<ModelRow>, rows: Rows)
    ensures AddModels(agent, models, rows).Err? ==> AddModels(agent, models, rows).error in {ModelMissing, DuplicateRow, CounterNegative, TotalMismatch}
    decreases |models|
  {
    if models != [] && RowOf(agent, models[0], rows).Ok? {
      var (key, row) := RowOf(agent, models[0], rows).value;
      ModelReasons(agent, models[1..], rows[key := row]);
    }
  }

  lemma {:induction false} RowReasons(agents: seq<AgentRow>, rows: Rows)
    ensures AddAgents(agents, rows).Err? ==>
              AddAgents(agents, rows).error in {AgentMissing, ModelMissing, DuplicateRow, CounterNegative, TotalMismatch}
    decreases |agents|
  {
    if agents != [] && agents[0].agent != "" {
      ModelReasons(agents[0], agents[0].models, rows);
      if AddModels(agents[0], agents[0].models, rows).Ok? {
        RowReasons(agents[1..], AddModels(agents[0], agents[0].models, rows).value);
      }
    }
  }
}
