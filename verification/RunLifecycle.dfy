/** The Run lifecycle: phases, the transition table, and the history every Run carries. */
module RunLifecycle {
  import opened Basics
  import opened AsciiText

  datatype Phase =
    | Uploaded | Prechecked | Routed | ReadyForDispatch | Dispatched | WorkersRunning | DatapassDrafted
    | AwaitingHuman | FailedClosed | CodeOnlyPass | Approved | Blocked | Returned | Released

  const TERMINAL := {Approved, Blocked, Returned, Released}

  function Successors(p: Phase): set<Phase> {
    match p
    case Uploaded => {Prechecked}
    case Prechecked => {Routed, FailedClosed}
    case Routed => {ReadyForDispatch, CodeOnlyPass, Blocked, Returned, FailedClosed}
    case ReadyForDispatch => {Dispatched, FailedClosed}
    case Dispatched => {WorkersRunning, DatapassDrafted, AwaitingHuman, FailedClosed}
    case WorkersRunning => {DatapassDrafted, AwaitingHuman, FailedClosed}
    case DatapassDrafted => {AwaitingHuman, FailedClosed}
    case AwaitingHuman => {Approved, Blocked, Returned, FailedClosed}
    case FailedClosed => {ReadyForDispatch, WorkersRunning, DatapassDrafted, AwaitingHuman}
    case CodeOnlyPass => {ReadyForDispatch, Released}
    case Approved => {Released}
    case Blocked => {}
    case Returned => {}
    case Released => {}
  }

  /** The phase an upper-case raw state stands for; what the table does not know fails closed. */
  function PhaseOfRaw(state: string): Phase {
    if state == "ROUTING" then Routed
    else if state == "READY_FOR_AGENTTEAMS" then ReadyForDispatch
    else if state == "CODE_ONLY_PRECHECK" then CodeOnlyPass
    else if state == "REJECT_AT_INTAKE" then Blocked
    else if state == "NEEDS_EVIDENCE" then Returned
    else if state in {"AGENTTEAMS_SUBMITTED", "SUBMITTED"} then Dispatched
    else if state in {"ACTIVE", "RUNNING"} then WorkersRunning
    else if state == "AWAITING_HUMAN" then AwaitingHuman
    else if state == "COMPLETED" then DatapassDrafted
    else FailedClosed
  }

  /** A decided Human Gate comes before the raw state. */
  function PhaseForState(rawState: string, gate: string): Phase {
    if Upper(gate) == "APPROVED" then Approved
    else if Upper(gate) == "REJECTED" then Blocked
    else if Upper(gate) == "RETURNED" then Returned
    else PhaseOfRaw(Upper(rawState))
  }

  /** Who moved the Run; the free-text reason beside it is not modelled. */
  datatype Actor =
    | LiveIntake | Migration | Adapter | Operator | TokenGuard | Manager | Supervisor | Runtime | CaseLead
    | Aggregator | Recovery | MatrixHuman | Named(name: string)

  datatype Entry = Entry(sequence: nat, from: Option<Phase>, to: Phase, rawState: string, actor: Actor)

  datatype Lifecycle = Lifecycle(current: Phase, terminal: bool, history: seq<Entry>, lastRaw: Option<string>)

  datatype Refusal = InvalidTransition(from: Phase, to: Phase)

  /** The history a Run starts with, projected from its state. */
  function Bootstrap(rawState: string, gate: string, actor: Actor): Lifecycle {
    var target := PhaseForState(rawState, gate);
    var first := [
      Entry(1, None, Uploaded, rawState, actor),
      Entry(2, Some(Uploaded), Prechecked, rawState, actor),
      Entry(3, Some(Prechecked), Routed, rawState, actor)];
    Lifecycle(target, target in TERMINAL,
              if target == Routed then first
              else first + [Entry(4, Some(Routed), target, rawState, actor)],
              None)
  }

  function Move(l: Lifecycle, rawState: string, target: Phase, actor: Actor): Outcome<Lifecycle, Refusal> {
    if target == l.current then Ok(l.(lastRaw := Some(rawState)))
    else if target !in Successors(l.current) then Err(InvalidTransition(l.current, target))
    else
      Ok(Lifecycle(target, target in TERMINAL,
                   l.history + [Entry(|l.history| + 1, Some(l.current), target, rawState, actor)],
                   Some(rawState)))
  }

  /** The part of a Run record that this protocol reads and writes. */
  class TrackedRun {
    var state: string
    var gate: string
    var lifecycle: Option<Lifecycle>

    constructor (state: string, gate: string)
      ensures this.state == state && this.gate == gate && lifecycle == None
    {
      this.state, this.gate, lifecycle := state, gate, None;
    }

    method BootstrapLifecycle(actor: Actor)
      modifies this`lifecycle
      ensures lifecycle.Some?
      ensures lifecycle == if old(lifecycle).Some? then old(lifecycle) else Some(Bootstrap(state, gate, actor))
    {
      hide PhaseForState;
      if lifecycle.Some? {
        return;
      }
      var target := PhaseForState(state, gate);
      var phases := [Uploaded, Prechecked, Routed];
      if target != Routed {
        phases := phases + [target];
      }
      var history: seq<Entry> := [];
      var previous: Option<Phase> := None;
      var i := 0;
      ghost var all := Bootstrap(state, gate, actor).history;
      while i < |phases|
        invariant 0 <= i <= |phases| && history == all[..i]
        invariant previous == if i == 0 then None else Some(phases[i - 1])
      {
        history := history + [Entry(|history| + 1, previous, phases[i], state, actor)];
        previous := Some(phases[i]);
        i := i + 1;
      }
      assert all[..i] == all;
      lifecycle := Some(Lifecycle(phases[|phases| - 1], phases[|phases| - 1] in TERMINAL, history, None));
    }

    method RecordTransition(rawState: string, actor: Actor, wanted: Option<Phase>)
      returns (r: Outcome<Lifecycle, Refusal>)
      modifies this`lifecycle
      ensures
        var before := if old(lifecycle).Some? then old(lifecycle).value else Bootstrap(state, gate, LiveIntake);
        var target := if wanted.Some? then wanted.value else PhaseForState(rawState, gate);
        && r == Move(before, rawState, target, actor)
        && lifecycle == Some(if r.Ok? then r.value else before)
    {
      hide PhaseForState, Bootstrap, Successors;
      BootstrapLifecycle(LiveIntake);
      var l := lifecycle.value;
      var target := if wanted.Some? then wanted.value else PhaseForState(rawState, gate);
      if target == l.current {
        lifecycle := Some(l.(lastRaw := Some(rawState)));
        return Ok(lifecycle.value);
      }
      if target !in Successors(l.current) {
        return Err(InvalidTransition(l.current, target));
      }
      var item := Entry(|l.history| + 1, Some(l.current), target, rawState, actor);
      l := l.(history := l.history + [item]);
      l := l.(current := target, terminal := target in TERMINAL, lastRaw := Some(rawState));
      lifecycle := Some(l);
      return Ok(l);
    }
  }

  // ----- histories

  datatype Attempt = Attempt(rawState: string, target: Phase, actor: Actor)

  /** A refused transition leaves the lifecycle as it is. */
  function After(l: Lifecycle, s: Attempt): Lifecycle {
    var r := Move(l, s.rawState, s.target, s.actor);
    if r.Ok? then r.value else l
  }

  ghost predicate Walk(ls: seq<Lifecycle>, steps: seq<Attempt>) {
    && |ls| == |steps| + 1
    && forall i :: 0 <= i < |steps| ==> ls[i + 1] == After(ls[i], steps[i])
  }

  /** Entry i is numbered, starts where its predecessor ended and follows the table. */
  predicate Linked(history: seq<Entry>, i: nat)
    requires i < |history|
  {
    && history[i].sequence == i + 1
    && (i == 0 ==> history[i].from == None && history[i].to == Uploaded)
    && (i > 0 ==> history[i].from == Some(history[i - 1].to) && history[i].to in Successors(history[i - 1].to))
  }

  /** A contiguous path of allowed edges from Uploaded to the current phase. */
  ghost predicate Path(l: Lifecycle) {
    && l.history != []
    && (forall i: nat :: i < |l.history| ==> Linked(l.history, i))
    && l.history[|l.history| - 1].to == l.current
    && (l.terminal <==> l.current in TERMINAL)
  }

  /** A bootstrapped history is a path exactly when its target is Routed or a successor of Routed. */
  lemma BootstrapExactly(rawState: string, gate: string, actor: Actor)
    ensures Path(Bootstrap(rawState, gate, actor)) <==>
              PhaseForState(rawState, gate) == Routed || PhaseForState(rawState, gate) in Successors(Routed)
  {
    hide PhaseForState;
    var l := Bootstrap(rawState, gate, actor);
    assert Linked(l.history, 0) && Linked(l.history, 1) && Linked(l.history, 2);
    if |l.history| == 4 {
      assert Linked(l.history, 3) <==> PhaseForState(rawState, gate) in Successors(Routed);
    }
  }

  /** A Run that already waited for a Human when its history was projected has an edge outside the table. */
  lemma ProjectedWaitIsNoPath()
    ensures !Path(Bootstrap("AWAITING_HUMAN", "AWAITING_HUMAN", Migration))
  {
    hide Path;
    assert PhaseForState("AWAITING_HUMAN", "AWAITING_HUMAN") == AwaitingHuman by {
      assert Upper("AWAITING_HUMAN") == "AWAITING_HUMAN";
    }
    BootstrapExactly("AWAITING_HUMAN", "AWAITING_HUMAN", Migration);
  }

  lemma StepKeepsPath(l: Lifecycle, s: Attempt)
    requires Path(l)
    ensures Path(After(l, s))
    ensures l.history <= After(l, s).history
    ensures l.terminal ==> After(l, s).terminal
    ensures l.current in {Blocked, Returned, Released} ==> After(l, s).current == l.current
  {
    var l' := After(l, s);
    forall i: nat | i < |l'.history|
      ensures Linked(l'.history, i)
    {
      assert i < |l.history| ==> Linked(l.history, i);
    }
  }

  /**
   * Over every sequence of transitions of a Run bootstrapped onto a path: the
   * history stays a path and only grows, the terminal flag never clears, and
   * Blocked, Returned and Released are final.
   */
  lemma {:induction false} LifecycleRuns(ls: seq<Lifecycle>, steps: seq<Attempt>, i: nat, j: nat)
    requires Walk(ls, steps) && Path(ls[0]) && i <= j < |ls|
    ensures Path(ls[i]) && Path(ls[j])
    ensures ls[i].history <= ls[j].history
    ensures ls[i].terminal ==> ls[j].terminal
    ensures ls[i].current in {Blocked, Returned, Released} ==> ls[j].current == ls[i].current
    decreases j
  {
    hide After, Path;
    if i < j {
      LifecycleRuns(ls, steps, i, j - 1);
      StepKeepsPath(ls[j - 1], steps[j - 1]);
    } else if j > 0 {
      LifecycleRuns(ls, steps, j - 1, j - 1);
      StepKeepsPath(ls[j - 1], steps[j - 1]);
    }
  }

  /** Nothing is ever approved that did not wait for a Human right before. */
  lemma ApprovalFollowsHumanGate(ls: seq<Lifecycle>, steps: seq<Attempt>, i: nat, k: nat)
    requires Walk(ls, steps) && Path(ls[0]) && i < |ls|
    requires k < |ls[i].history| && ls[i].history[k].to == Approved
    ensures k > 0 && ls[i].history[k - 1].to == AwaitingHuman
  {
    LifecycleRuns(ls, steps, i, i);
    assert Linked(ls[i].history, k);
  }
}
