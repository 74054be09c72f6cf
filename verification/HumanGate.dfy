/**
 * The Human Gate of a live Run: what every call that rewrites a Run file does to
 * its state, gate, DataPass and lifecycle.  A call works on a copy and writes it
 * back at its end, so a call that raises leaves the file as it was read.
 */
module HumanGate {
  import opened Basics
  import opened AsciiText
  import opened RunLifecycle
  import StopLedger

  datatype Gate = NotOpened | Awaiting | GateApproved | GateRejected | GateReturned

  datatype Datapass = Datapass(formal: bool, digest: string)

  /** "formal" marks a Run of protocol V0.2. */
  datatype Run = Run(
    runId: string, formal: bool, state: string, gate: Gate, decision: Option<string>, datapass: Option<Datapass>,
    dispatched: bool, stop: Option<Digest<StopLedger.RecordBody>>, lifecycle: Option<Lifecycle>)

  datatype Reason =
    | TransitionRefused | RunMismatch | StopRecordMissing | StopRecordInvalid | StopRunMismatch | AlreadyDecided
    | EnvelopeInvalid | DatapassInvalid

  type Reply<T> = Outcome<T, Reason>

  function GateText(g: Gate): string {
    match g
    case NotOpened => "NOT_OPENED"
    case Awaiting => "AWAITING_HUMAN"
    case GateApproved => "APPROVED"
    case GateRejected => "REJECTED"
    case GateReturned => "RETURNED"
  }

  predicate Decided(g: Gate) {
    g in {GateApproved, GateRejected, GateReturned}
  }

  function PhaseOfGate(g: Gate): Phase
    requires Decided(g)
  {
    match g
    case GateApproved => Approved
    case GateRejected => Blocked
    case GateReturned => Returned
  }

  // ----- reading and moving

  /** Reading a Run gives one without a lifecycle its projected history. */
  function Loaded(run: Run): Run {
    if run.lifecycle.Some? then run
    else run.(lifecycle := Some(Bootstrap(run.state, GateText(run.gate), Migration)))
  }

  function PhaseOf(run: Run): Phase
    requires run.lifecycle.Some?
  {
    run.lifecycle.value.current
  }

  function Transition(run: Run, rawState: string, wanted: Option<Phase>, actor: Actor): (r: Reply<Run>)
    requires run.lifecycle.Some?
    ensures r.Ok? ==> r.value.lifecycle.Some?
  {
    var target := if wanted.Some? then wanted.value else PhaseForState(rawState, GateText(run.gate));
    match Move(run.lifecycle.value, rawState, target, actor)
    case Err(_) => Err(TransitionRefused)
    case Ok(l) => Ok(run.(lifecycle := Some(l)))
  }

  /** A transition the source makes only from some phases. */
  function TransitionFrom(run: Run, phases: set<Phase>, rawState: string, wanted: Option<Phase>, actor: Actor):
      (r: Reply<Run>)
    requires run.lifecycle.Some?
    ensures r.Ok? ==> r.value.lifecycle.Some?
  {
    if PhaseOf(run) in phases then Transition(run, rawState, wanted, actor) else Ok(run)
  }

  /** The gate is shut and the Run fails closed. */
  function FailClosed(run: Run, rawState: string, actor: Actor, datapass: Option<Datapass>): (r: Reply<Run>)
    requires run.lifecycle.Some?
    ensures r.Ok? ==> r.value.lifecycle.Some?
  {
    var shut := run.(state := "FAILED_CLOSED", gate := NotOpened, decision := None, datapass := datapass);
    if PhaseOf(shut) == FailedClosed then Ok(shut)
    else Transition(shut, rawState, Some(FailedClosed), actor)
  }

  // ----- dispatch

  function Attach(run: Run, runMatches: bool): Reply<Run>
    requires run.lifecycle.Some?
  {
    if !runMatches then Err(RunMismatch)
    else Transition(run.(state := "AGENTTEAMS_SUBMITTED", dispatched := true), "AGENTTEAMS_SUBMITTED", None, Adapter)
  }

  function DispatchFailure(run: Run): Reply<Run>
    requires run.lifecycle.Some?
  {
    Transition(run.(state := "AGENTTEAMS_DISPATCH_FAILED"), "AGENTTEAMS_DISPATCH_FAILED", None, Adapter)
  }

  function DispatchGuard(run: Run): Reply<Run>
    requires run.lifecycle.Some?
  {
    Transition(run.(state := "DISPATCH_GUARDED"), "DISPATCH_GUARDED", None, TokenGuard)
  }

  function DispatchRetry(run: Run, exhausted: bool): Run {
    run.(state := if exhausted then "WAIT" else "DISPATCH_GUARDED")
  }

  function RequestDispatch(run: Run): Reply<Run>
    requires run.lifecycle.Some?
  {
    if run.dispatched || run.state != "RUNTIME_UNAVAILABLE" then Ok(run)
    else
      match Transition(run, "READY_FOR_AGENTTEAMS", Some(ReadyForDispatch), Operator)
      case Err(reason) => Err(reason)
      case Ok(r) => Ok(r.(state := "DISPATCH_GUARDED"))
  }

  /** A ChangeBundle's route is fixed on the Run just created for it. */
  function Reroute(run: Run, blastRadius: bool, connected: bool): Reply<Run>
    requires run.lifecycle.Some?
  {
    var state := if blastRadius then (if connected then "READY_FOR_AGENTTEAMS" else "RUNTIME_UNAVAILABLE") else run.state;
    Transition(run.(state := state), state, None, Manager)
  }

  // ----- emergency stop

  function StateOf(t: StopLedger.Terminal): string {
    match t
    case StoppedByGate => "STOPPED_BY_GATE"
    case BudgetExceeded => "BUDGET_EXCEEDED"
    case OtherTerminal(text) => text
  }

  function Stop(run: Run, record: StopLedger.Record): Reply<Run>
    requires run.lifecycle.Some?
  {
    var state := StateOf(record.body.terminal);
    if StopLedger.RecordFault(record).Some? then Err(StopRecordInvalid)
    else if record.body.runId != run.runId then Err(StopRunMismatch)
    else if run.stop == Some(record.sha) && run.state == state && PhaseOf(run) == FailedClosed then Ok(run)
    else if Decided(run.gate) then Err(AlreadyDecided)
    else
      var stopped := run.(stop := Some(record.sha), state := state);
      if PhaseOf(stopped) == FailedClosed then Ok(stopped)
      else Transition(stopped, state, Some(FailedClosed), Named(record.body.actor))
  }

  // ----- synchronisation

  /**
   * What a poll of the runtime reports: its state, whether Worker artifacts,
   * the Leader's recommendation and the whole plan are there, the formal
   * DataPass built or found for them (none if building raised), the legacy
   * projection, and the Human's decision.
   */
  datatype Report = Report(
    runMatches: bool, state: string, stopRecord: Option<StopLedger.Record>, envelopeValid: bool, handleMatches: bool,
    artifacts: bool, recommended: bool, planComplete: bool, built: Option<Datapass>, legacy: Datapass,
    decision: Option<string>)

  const OPEN_STATES := {"SUBMITTED", "AGENTTEAMS_SUBMITTED", "ACTIVE", "RUNNING"}

  /** A guarded queue is admitted, and a queued Run is seen dispatched. */
  function Admit(run: Run, state: string): (r: Reply<Run>)
    requires run.lifecycle.Some?
    ensures r.Ok? ==> r.value.lifecycle.Some?
  {
    match TransitionFrom(run, if state in OPEN_STATES then {FailedClosed} else {}, "READY_FOR_AGENTTEAMS",
                         Some(ReadyForDispatch), Supervisor)
    case Err(reason) => Err(reason)
    case Ok(admitted) =>
      TransitionFrom(admitted, {ReadyForDispatch}, "AGENTTEAMS_SUBMITTED", None, Adapter)
  }

  function ObserveWorkers(run: Run, artifacts: bool): (r: Reply<Run>)
    requires run.lifecycle.Some?
    ensures r.Ok? ==> r.value.lifecycle.Some?
  {
    TransitionFrom(run, if artifacts then {Dispatched, FailedClosed} else {}, "ACTIVE", None, Runtime)
  }

  function Draft(run: Run): (r: Reply<Run>)
    requires run.lifecycle.Some?
    ensures r.Ok? ==> r.value.lifecycle.Some?
  {
    match TransitionFrom(run, {Dispatched}, "ACTIVE", None, Runtime)
    case Err(reason) => Err(reason)
    case Ok(active) =>
      TransitionFrom(active, {WorkersRunning, Dispatched, FailedClosed}, "COMPLETED", Some(DatapassDrafted), CaseLead)
  }

  /** The unknown decision counts as a rejection. */
  function GateFor(decision: string): (g: Gate)
    ensures Decided(g)
  {
    if decision == "APPROVE_PASS" then GateApproved
    else if decision == "REQUEST_EVIDENCE" then GateReturned
    else GateRejected
  }

  function OpenGate(run: Run): Reply<Run>
    requires run.lifecycle.Some?
  {
    TransitionFrom(run.(gate := Awaiting), if run.datapass.Some? then {DatapassDrafted} else {}, "AWAITING_HUMAN", None,
                   CaseLead)
  }

  function Decide(run: Run, decision: string): Reply<Run>
    requires run.lifecycle.Some?
  {
    var decided := run.(gate := GateFor(decision), decision := Some(decision));
    match TransitionFrom(decided, {DatapassDrafted}, "AWAITING_HUMAN", None, CaseLead)
    case Err(reason) => Err(reason)
    case Ok(waiting) =>
      Transition(waiting, "COMPLETED", Some(PhaseOfGate(GateFor(decision))), MatrixHuman)
  }

  /** The last part of a poll: a missing DataPass, an open gate or a decision. */
  function Conclude(run: Run, rep: Report): Reply<Run>
    requires run.lifecycle.Some?
  {
    if run.formal && rep.state == "AWAITING_HUMAN" && run.datapass.None? then
      FailClosed(run, "FORMAL_DATAPASS_MISSING", Aggregator, None)
    else if rep.state == "AWAITING_HUMAN" then OpenGate(run)
    else if rep.state == "COMPLETED" && rep.decision.Some? then Decide(run, rep.decision.value)
    else Ok(run)
  }

  function Project(run: Run, rep: Report): Reply<Run>
    requires run.lifecycle.Some?
  {
    match Admit(run.(state := rep.state, dispatched := true), rep.state)
    case Err(reason) => Err(reason)
    case Ok(admitted) =>
      match ObserveWorkers(admitted, rep.artifacts)
      case Err(reason) => Err(reason)
      case Ok(observed) =>
        if !rep.recommended || !rep.planComplete then Conclude(observed, rep)
        else if observed.formal && rep.built.None? then
          FailClosed(observed, "FORMAL_PROTOCOL_FAILED", Aggregator, None)
        else
          match Draft(observed.(datapass := if observed.formal then rep.built else Some(rep.legacy)))
          case Err(reason) => Err(reason)
          case Ok(drafted) => Conclude(drafted, rep)
  }

  function Sync(run: Run, rep: Report): Reply<Run>
    requires run.lifecycle.Some?
  {
    if !rep.runMatches then Err(RunMismatch)
    else if rep.state in {"STOPPED_BY_GATE", "BUDGET_EXCEEDED"} then
      if rep.stopRecord.None? then Err(StopRecordMissing) else Stop(run, rep.stopRecord.value)
    else if run.formal && !rep.envelopeValid then Err(EnvelopeInvalid)
    else if run.formal && !rep.handleMatches then
      FailClosed(run, "FORMAL_ENVELOPE_HANDLE_MISMATCH", Aggregator, None)
    else Project(run, rep)
  }

  // ----- recovery

  /** What is found on file when the runtime is offline. */
  datatype Evidence = Evidence(datapassValid: bool, planComplete: bool, leaderEvent: bool, built: Option<Datapass>, legacy: Datapass)

  function Recover(run: Run, ev: Evidence): Reply<Run>
    requires run.lifecycle.Some?
  {
    if run.datapass.Some? then
      if run.datapass.value.formal && !ev.datapassValid then Err(DatapassInvalid) else Ok(run)
    else if !ev.planComplete || !ev.leaderEvent then Ok(run)
    else if run.formal && ev.built.None? then FailClosed(run, "FORMAL_RECOVERY_FAILED", Recovery, None)
    else Reopen(run.(datapass := if run.formal then ev.built else Some(ev.legacy),
                     state := "AWAITING_HUMAN", gate := Awaiting))
  }

  /** Walks a recovered Run forward to its open gate. */
  function Reopen(run: Run): Reply<Run>
    requires run.lifecycle.Some?
  {
    match TransitionFrom(run, {ReadyForDispatch}, "AGENTTEAMS_SUBMITTED", None, Recovery)
    case Err(reason) => Err(reason)
    case Ok(seen) =>
      match TransitionFrom(seen, {Dispatched, FailedClosed}, "ACTIVE", None, Recovery)
      case Err(reason) => Err(reason)
      case Ok(active) =>
        match TransitionFrom(active, {WorkersRunning}, "COMPLETED", Some(DatapassDrafted), Recovery)
        case Err(reason) => Err(reason)
        case Ok(drafted) =>
          TransitionFrom(drafted, {DatapassDrafted}, "AWAITING_HUMAN", None, Recovery)
  }

  // ----- the calls in any order

  datatype Step =
    | AttachStep(runMatches: bool) | DispatchFailureStep | DispatchGuardStep | DispatchRetryStep(exhausted: bool) | DispatchRequestStep
    | RerouteStep(blastRadius: bool, connected: bool) | StopStep(record: StopLedger.Record)
    | SyncStep(report: Report) | RecoverStep(evidence: Evidence)

  function Outcomes(run: Run, step: Step): Reply<Run>
    requires run.lifecycle.Some?
  {
    match step
    case AttachStep(runMatches) => Attach(run, runMatches)
    case DispatchFailureStep => DispatchFailure(run)
    case DispatchGuardStep => DispatchGuard(run)
    case DispatchRetryStep(exhausted) => Ok(DispatchRetry(run, exhausted))
    case DispatchRequestStep => RequestDispatch(run)
    case RerouteStep(blastRadius, connected) => Reroute(run, blastRadius, connected)
    case StopStep(record) => Stop(run, record)
    case SyncStep(report) => Sync(run, report)
    case RecoverStep(evidence) => Recover(run, evidence)
  }

  /** A stop record is checked before the Run is read at all. */
  predicate Unread(file: Run, step: Step) {
    step.StopStep? && (StopLedger.RecordFault(step.record).Some? || step.record.body.runId != file.runId)
  }

  /** The Run file after a call: what it wrote, or what was read if it raised. */
  function Apply(file: Run, step: Step): Run {
    var r := Outcomes(Loaded(file), step);
    if Unread(file, step) then file else if r.Ok? then r.value else Loaded(file)
  }

  ghost predicate History(runs: seq<Run>, steps: seq<Step>) {
    && |runs| == |steps| + 1
    && forall i :: 0 <= i < |steps| ==> runs[i + 1] == Apply(runs[i], steps[i])
  }

  // ----- the gate invariants

  /** A formal Run waits for a Human only with a DataPass, and a decided gate has the phase of its decision. */
  predicate GateHolds(run: Run) {
    && (run.formal && run.gate == Awaiting ==> run.datapass.Some?)
    && (Decided(run.gate) && run.lifecycle.Some? ==> PhaseOf(run) == PhaseOfGate(run.gate))
  }

  lemma UpperStays(s: string)
    requires forall i :: 0 <= i < |s| ==> s[i] == '_' || 'A' <= s[i] <= 'Z'
    ensures Upper(s) == s
  {
  }

  lemma DecidedText(g: Gate, rawState: string)
    requires Decided(g)
    ensures PhaseForState(rawState, GateText(g)) == PhaseOfGate(g)
  {
    hide Upper, PhaseOfRaw;
    UpperStays(GateText(g));
  }

  lemma LoadedHolds(run: Run)
    requires GateHolds(run)
    ensures GateHolds(Loaded(run)) && Loaded(run).formal == run.formal && Loaded(run).gate == run.gate
  {
    hide PhaseForState;
    if Decided(run.gate) {
      DecidedText(run.gate, run.state);
    }
  }

  ghost predicate HasPath(run: Run) {
    run.lifecycle.Some? ==> Path(run.lifecycle.value)
  }

  /** r is a later version of the same Run: its history still is a path if it was one. */
  ghost predicate Succeeds(run: Run, r: Run) {
    && r.runId == run.runId && r.formal == run.formal
    && r.lifecycle.Some?
    && (HasPath(run) ==> HasPath(r))
  }

  /** No transition takes a decided Run out of its phase, as none asks for Released. */
  lemma TransitionHolds(run: Run, rawState: string, wanted: Option<Phase>, actor: Actor)
    requires run.lifecycle.Some? && GateHolds(run) && wanted != Some(Released)
    ensures
      var r := Transition(run, rawState, wanted, actor);
      r.Ok? ==> GateHolds(r.value) && Succeeds(run, r.value) && r.value == run.(lifecycle := r.value.lifecycle)
  {
    hide PhaseForState, Path;
    TransitionPath(run, rawState, wanted, actor);
    if Decided(run.gate) {
      DecidedText(run.gate, rawState);
    }
  }

  lemma TransitionPath(run: Run, rawState: string, wanted: Option<Phase>, actor: Actor)
    requires run.lifecycle.Some?
    ensures
      var r := Transition(run, rawState, wanted, actor);
      r.Ok? ==> Succeeds(run, r.value)
  {
    hide PhaseForState, Path;
    var target := if wanted.Some? then wanted.value else PhaseForState(rawState, GateText(run.gate));
    if HasPath(run) {
      StepKeepsPath(run.lifecycle.value, Attempt(rawState, target, actor));
    }
  }

  lemma TransitionFromHolds(run: Run, phases: set<Phase>, rawState: string, wanted: Option<Phase>, actor: Actor)
    requires run.lifecycle.Some? && GateHolds(run) && wanted != Some(Released)
    ensures
      var r := TransitionFrom(run, phases, rawState, wanted, actor);
      r.Ok? ==> GateHolds(r.value) && Succeeds(run, r.value) && r.value == run.(lifecycle := r.value.lifecycle)
  {
    hide GateHolds, Transition, Path;
    if PhaseOf(run) in phases {
      TransitionHolds(run, rawState, wanted, actor);
    }
  }

  /** What a call owes: a Run that is a later version of the one it read, with the gate invariants. */
  ghost predicate Keeps(run: Run, r: Reply<Run>) {
    r.Ok? ==> GateHolds(r.value) && Succeeds(run, r.value)
  }

  lemma FailClosedHolds(run: Run, rawState: string, actor: Actor, datapass: Option<Datapass>)
    requires run.lifecycle.Some?
    ensures Keeps(run, FailClosed(run, rawState, actor, datapass))
  {
    hide Transition, Path, PhaseForState;
    var shut := run.(state := "FAILED_CLOSED", gate := NotOpened, decision := None, datapass := datapass);
    TransitionHolds(shut, rawState, Some(FailedClosed), actor);
  }

  lemma AdmitHolds(run: Run, state: string)
    requires run.lifecycle.Some? && GateHolds(run)
    ensures Keeps(run, Admit(run, state))
    ensures Admit(run, state).Ok? ==> Admit(run, state).value == run.(lifecycle := Admit(run, state).value.lifecycle)
  {
    hide GateHolds, TransitionFrom, HasPath;
    var phases: set<Phase> := if state in OPEN_STATES then {FailedClosed} else {};
    TransitionFromHolds(run, phases, "READY_FOR_AGENTTEAMS", Some(ReadyForDispatch), Supervisor);
    var admitted := TransitionFrom(run, phases, "READY_FOR_AGENTTEAMS", Some(ReadyForDispatch), Supervisor);
    if admitted.Ok? {
      TransitionFromHolds(admitted.value, {ReadyForDispatch}, "AGENTTEAMS_SUBMITTED", None, Adapter);
    }
  }

  lemma DraftHolds(run: Run)
    requires run.lifecycle.Some? && GateHolds(run)
    ensures Keeps(run, Draft(run))
    ensures Draft(run).Ok? ==> Draft(run).value == run.(lifecycle := Draft(run).value.lifecycle)
  {
    hide GateHolds, TransitionFrom, HasPath;
    var active := TransitionFrom(run, {Dispatched}, "ACTIVE", None, Runtime);
    TransitionFromHolds(run, {Dispatched}, "ACTIVE", None, Runtime);
    if active.Ok? {
      TransitionFromHolds(active.value, {WorkersRunning, Dispatched, FailedClosed}, "COMPLETED", Some(DatapassDrafted), CaseLead);
    }
  }

  lemma OpenGateHolds(run: Run)
    requires run.lifecycle.Some? && (run.formal ==> run.datapass.Some?)
    ensures Keeps(run, OpenGate(run))
  {
    hide TransitionFrom, HasPath;
    SameLifecycle(run, run.(gate := Awaiting));
    TransitionFromHolds(run.(gate := Awaiting), if run.datapass.Some? then {DatapassDrafted} else {}, "AWAITING_HUMAN", None, CaseLead);
  }

  /**
   * Where a Human decision lands, exactly: in a Run that waits for it, or whose
   * phase already is or may become the decision's.  A Run whose DataPass was
   * drafted but whose open gate no poll has seen is not one of them, although
   * the source means to open the gate for it first: by then the gate is already
   * decided, the phase asked for is the decision's own, and the table forbids it.
   */
  lemma DecisionLandsExactly(run: Run, decision: string)
    requires run.lifecycle.Some?
    ensures Decide(run, decision).Ok? <==>
              && PhaseOf(run) != DatapassDrafted
              && (PhaseOf(run) == PhaseOfGate(GateFor(decision)) || PhaseOfGate(GateFor(decision)) in Successors(PhaseOf(run)))
    ensures Keeps(run, Decide(run, decision))
    ensures Decide(run, decision).Ok? ==> Decide(run, decision).value.gate == GateFor(decision)
  {
    hide PhaseForState, Path;
    var decided := run.(gate := GateFor(decision), decision := Some(decision));
    DecidedText(decided.gate, "AWAITING_HUMAN");
    TransitionPath(decided, "COMPLETED", Some(PhaseOfGate(GateFor(decision))), MatrixHuman);
  }

  lemma ConcludeHolds(run: Run, rep: Report)
    requires run.lifecycle.Some? && GateHolds(run)
    ensures Keeps(run, Conclude(run, rep))
  {
    hide OpenGate, Decide, FailClosed, HasPath;
    if run.formal && rep.state == "AWAITING_HUMAN" && run.datapass.None? {
      FailClosedHolds(run, "FORMAL_DATAPASS_MISSING", Aggregator, None);
    } else if rep.state == "AWAITING_HUMAN" {
      OpenGateHolds(run);
    } else if rep.state == "COMPLETED" && rep.decision.Some? {
      DecisionLandsExactly(run, rep.decision.value);
    }
  }

  lemma DraftedHolds(run: Run, rep: Report)
    requires run.lifecycle.Some? && GateHolds(run) && !(run.formal && rep.built.None?)
    ensures
      var with := run.(datapass := if run.formal then rep.built else Some(rep.legacy));
      Keeps(run, Draft(with)) && (Draft(with).Ok? ==> Keeps(run, Conclude(Draft(with).value, rep)))
  {
    hide Draft, Conclude, HasPath;
    var with := run.(datapass := if run.formal then rep.built else Some(rep.legacy));
    assert HasPath(run) <==> HasPath(with) by { SameLifecycle(run, with); }
    DraftHolds(with);
    if Draft(with).Ok? {
      ConcludeHolds(Draft(with).value, rep);
    }
  }

  lemma SameLifecycle(run: Run, r: Run)
    requires run.lifecycle == r.lifecycle
    ensures HasPath(run) <==> HasPath(r)
  {
  }

  lemma ProjectHolds(run: Run, rep: Report)
    requires run.lifecycle.Some? && GateHolds(run)
    ensures Keeps(run, Project(run, rep))
  {
    hide Admit, ObserveWorkers, Draft, Conclude, FailClosed, HasPath, GateHolds;
    var polled := run.(state := rep.state, dispatched := true);
    assert GateHolds(polled) && Succeeds(run, polled) by { RestatedHolds(run, rep.state, true); }
    AdmitHolds(polled, rep.state);
    var admitted := Admit(polled, rep.state);
    if admitted.Ok? {
      ObserveHolds(admitted.value, rep.artifacts);
      var observed := ObserveWorkers(admitted.value, rep.artifacts);
      if observed.Ok? {
        ConcludeHolds(observed.value, rep);
        if observed.value.formal && rep.built.None? {
          FailClosedHolds(observed.value, "FORMAL_PROTOCOL_FAILED", Aggregator, None);
        } else {
          DraftedHolds(observed.value, rep);
        }
      }
    }
  }

  lemma ObserveHolds(run: Run, artifacts: bool)
    requires run.lifecycle.Some? && GateHolds(run)
    ensures Keeps(run, ObserveWorkers(run, artifacts))
  {
    hide TransitionFrom, GateHolds, HasPath;
    TransitionFromHolds(run, if artifacts then {Dispatched, FailedClosed} else {}, "ACTIVE", None, Runtime);
  }

  lemma StopHolds(run: Run, record: StopLedger.Record)
    requires run.lifecycle.Some? && GateHolds(run)
    ensures Keeps(run, Stop(run, record))
    ensures Decided(run.gate) && Stop(run, record).Ok? ==> Stop(run, record).value == run
  {
    hide Transition, Path, StopLedger.RecordFault;
    var state := StateOf(record.body.terminal);
    var stopped := run.(stop := Some(record.sha), state := state);
    TransitionHolds(stopped, state, Some(FailedClosed), Named(record.body.actor));
  }

  lemma SyncHolds(run: Run, rep: Report)
    requires run.lifecycle.Some? && GateHolds(run)
    ensures Keeps(run, Sync(run, rep))
  {
    hide Project, Stop, FailClosed, HasPath, GateHolds;
    ProjectHolds(run, rep);
    FailClosedHolds(run, "FORMAL_ENVELOPE_HANDLE_MISMATCH", Aggregator, None);
    if rep.stopRecord.Some? {
      StopHolds(run, rep.stopRecord.value);
    }
  }

  lemma ReopenHolds(run: Run)
    requires run.lifecycle.Some? && GateHolds(run)
    ensures Keeps(run, Reopen(run))
  {
    hide TransitionFrom, GateHolds, HasPath;
    TransitionFromHolds(run, {ReadyForDispatch}, "AGENTTEAMS_SUBMITTED", None, Recovery);
    var seen := TransitionFrom(run, {ReadyForDispatch}, "AGENTTEAMS_SUBMITTED", None, Recovery);
    if seen.Ok? {
      TransitionFromHolds(seen.value, {Dispatched, FailedClosed}, "ACTIVE", None, Recovery);
      var active := TransitionFrom(seen.value, {Dispatched, FailedClosed}, "ACTIVE", None, Recovery);
      if active.Ok? {
        TransitionFromHolds(active.value, {WorkersRunning}, "COMPLETED", Some(DatapassDrafted), Recovery);
        var drafted := TransitionFrom(active.value, {WorkersRunning}, "COMPLETED", Some(DatapassDrafted), Recovery);
        if drafted.Ok? {
          TransitionFromHolds(drafted.value, {DatapassDrafted}, "AWAITING_HUMAN", None, Recovery);
        }
      }
    }
  }

  lemma RecoverHolds(run: Run, ev: Evidence)
    requires run.lifecycle.Some? && GateHolds(run)
    ensures Keeps(run, Recover(run, ev))
  {
    hide Reopen, FailClosed, Path;
    FailClosedHolds(run, "FORMAL_RECOVERY_FAILED", Recovery, None);
    if run.datapass.None? && !(run.formal && ev.built.None?) {
      var awaiting := run.(datapass := if run.formal then ev.built else Some(ev.legacy), state := "AWAITING_HUMAN", gate := Awaiting);
      ReopenHolds(awaiting);
    }
  }

  lemma RestatedHolds(run: Run, state: string, dispatched: bool)
    requires run.lifecycle.Some? && GateHolds(run)
    ensures GateHolds(run.(state := state, dispatched := dispatched))
    ensures Succeeds(run, run.(state := state, dispatched := dispatched))
  {
    hide Path;
  }

  /** A call that restates the Run and makes one transition. */
  lemma MoveHolds(run: Run, state: string, dispatched: bool, rawState: string, wanted: Option<Phase>, actor: Actor)
    requires run.lifecycle.Some? && GateHolds(run) && wanted != Some(Released)
    ensures
      var r := Transition(run.(state := state, dispatched := dispatched), rawState, wanted, actor);
      Keeps(run, r) && (r.Ok? ==> r.value.gate == run.gate)
  {
    hide GateHolds, HasPath, Transition;
    RestatedHolds(run, state, dispatched);
    TransitionHolds(run.(state := state, dispatched := dispatched), rawState, wanted, actor);
  }

  lemma DispatchHolds(run: Run, step: Step)
    requires run.lifecycle.Some? && GateHolds(run) && !step.StopStep? && !step.SyncStep? && !step.RecoverStep?
    ensures Keeps(run, Outcomes(run, step))
    ensures Outcomes(run, step).Ok? ==> Outcomes(run, step).value.gate == run.gate
  {
    hide Transition, GateHolds, HasPath;
    match step
    case AttachStep(_) =>
      MoveHolds(run, "AGENTTEAMS_SUBMITTED", true, "AGENTTEAMS_SUBMITTED", None, Adapter);
    case DispatchFailureStep =>
      MoveHolds(run, "AGENTTEAMS_DISPATCH_FAILED", run.dispatched, "AGENTTEAMS_DISPATCH_FAILED", None, Adapter);
    case DispatchGuardStep =>
      MoveHolds(run, "DISPATCH_GUARDED", run.dispatched, "DISPATCH_GUARDED", None, TokenGuard);
    case DispatchRetryStep(exhausted) =>
      RestatedHolds(run, if exhausted then "WAIT" else "DISPATCH_GUARDED", run.dispatched);
    case DispatchRequestStep =>
      RequestHolds(run);
    case RerouteStep(blastRadius, connected) =>
      var state := if blastRadius then (if connected then "READY_FOR_AGENTTEAMS" else "RUNTIME_UNAVAILABLE") else run.state;
      MoveHolds(run, state, run.dispatched, state, None, Manager);
  }

  lemma RequestHolds(run: Run)
    requires run.lifecycle.Some? && GateHolds(run)
    ensures Keeps(run, RequestDispatch(run))
    ensures RequestDispatch(run).Ok? ==> RequestDispatch(run).value.gate == run.gate
  {
    hide Transition, GateHolds, HasPath;
    TransitionHolds(run, "READY_FOR_AGENTTEAMS", Some(ReadyForDispatch), Operator);
    var r := Transition(run, "READY_FOR_AGENTTEAMS", Some(ReadyForDispatch), Operator);
    if r.Ok? {
      RestatedHolds(r.value, "DISPATCH_GUARDED", r.value.dispatched);
    }
  }

  lemma StepHolds(run: Run, step: Step)
    requires GateHolds(run)
    ensures GateHolds(Apply(run, step)) && Apply(run, step).formal == run.formal
    ensures run.lifecycle.Some? ==> Apply(run, step).lifecycle.Some?
    ensures HasPath(Loaded(run)) ==> HasPath(Loaded(Apply(run, step)))
  {
    hide GateHolds, Outcomes, Bootstrap, Path, Unread;
    LoadedHolds(run);
    OutcomesHold(Loaded(run), step);
  }

  lemma OutcomesHold(run: Run, step: Step)
    requires run.lifecycle.Some? && GateHolds(run)
    ensures Keeps(run, Outcomes(run, step))
  {
    hide GateHolds, Stop, Sync, Recover, Attach, DispatchFailure, DispatchGuard, RequestDispatch, Reroute, Succeeds;
    match step
    case StopStep(record) => StopHolds(run, record);
    case SyncStep(report) => SyncHolds(run, report);
    case RecoverStep(evidence) => RecoverHolds(run, evidence);
    case _ => DispatchHolds(run, step);
  }

  // ----- the results over every history of calls

  lemma {:induction false} HistoryHolds(runs: seq<Run>, steps: seq<Step>, i: nat)
    requires History(runs, steps) && GateHolds(runs[0]) && i < |runs|
    ensures GateHolds(runs[i]) && runs[i].formal == runs[0].formal
    ensures runs[0].lifecycle.Some? ==> runs[i].lifecycle.Some?
    ensures HasPath(Loaded(runs[0])) ==> HasPath(Loaded(runs[i]))
  {
    hide GateHolds, Apply, HasPath;
    if i > 0 {
      HistoryHolds(runs, steps, i - 1);
      StepHolds(runs[i - 1], steps[i - 1]);
    }
  }

  /** A Run as it is created: gate shut, no DataPass, lifecycle projected from the state its route gives it. */
  predicate Created(run: Run) {
    && run.gate == NotOpened && run.decision.None? && run.datapass.None?
    && run.lifecycle == Some(Bootstrap(run.state, GateText(NotOpened), LiveIntake))
    && PhaseForState(run.state, GateText(NotOpened)) in Successors(Routed)
  }

  /**
   * Over every sequence of calls on a formal Run: a persisted gate that waits for
   * a Human has a DataPass, and a persisted decision has its phase.
   */
  lemma GateInvariants(runs: seq<Run>, steps: seq<Step>, i: nat)
    requires History(runs, steps) && Created(runs[0]) && runs[0].formal && i < |runs|
    ensures runs[i].gate == Awaiting ==> runs[i].datapass.Some?
    ensures runs[i].lifecycle.Some?
    ensures Decided(runs[i].gate) ==> PhaseOf(runs[i]) == PhaseOfGate(runs[i].gate)
  {
    hide Apply;
    HistoryHolds(runs, steps, i);
  }

  /** The states creation gives a Run all start on a path. */
  lemma RoutesStartOnPath(state: string)
    requires state in {"READY_FOR_AGENTTEAMS", "RUNTIME_UNAVAILABLE", "CODE_ONLY_PRECHECK", "REJECT_AT_INTAKE",
                       "NEEDS_EVIDENCE", "HOLD_FOR_BUDGET"}
    ensures PhaseForState(state, "NOT_OPENED") in Successors(Routed)
  {
    hide Upper, PhaseOfRaw;
    UpperStays(state);
    UpperStays("NOT_OPENED");
    CreatedRaw(state);
  }

  lemma CreatedRaw(state: string)
    requires state in {"READY_FOR_AGENTTEAMS", "RUNTIME_UNAVAILABLE", "CODE_ONLY_PRECHECK", "REJECT_AT_INTAKE",
                       "NEEDS_EVIDENCE", "HOLD_FOR_BUDGET"}
    ensures PhaseOfRaw(state) in Successors(Routed)
  {
  }

  lemma CreatedHasPath(run: Run)
    requires Created(run)
    ensures HasPath(run) && Loaded(run) == run
  {
    hide Path, PhaseForState;
    BootstrapExactly(run.state, GateText(NotOpened), LiveIntake);
  }

  /** A persisted approval was reached from waiting for a Human, and from nowhere else. */
  lemma ApprovedWaitedForHuman(runs: seq<Run>, steps: seq<Step>, i: nat)
    requires History(runs, steps) && Created(runs[0]) && runs[0].formal && i < |runs| && runs[i].gate == GateApproved
    ensures runs[i].lifecycle.Some?
    ensures
      var history := runs[i].lifecycle.value.history;
      |history| >= 2 && history[|history| - 1].to == Approved && history[|history| - 2].to == AwaitingHuman
  {
    hide Apply, PhaseForState, Bootstrap;
    CreatedHasPath(runs[0]);
    GateInvariants(runs, steps, i);
    HistoryHolds(runs, steps, i);
    var l := runs[i].lifecycle.value;
    assert Path(l);
    assert Linked(l.history, |l.history| - 1);
  }
}
