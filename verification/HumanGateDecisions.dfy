/**
 * When a Human decision is persisted, when it is taken back, and where the
 * promises about the gate stop: exact conditions on the file a call reads, and
 * histories from a created Run that meet the failing ones.
 */
module HumanGateDecisions {
  import opened Basics
  import opened AsciiText
  import opened RunLifecycle
  import opened HumanGate
  import StopLedger

  // ----- raw states and the phases they stand for

  lemma PlainPhase(rawState: string, g: Gate)
    requires !Decided(g) && forall i :: 0 <= i < |rawState| ==> rawState[i] == '_' || 'A' <= rawState[i] <= 'Z'
    ensures PhaseForState(rawState, GateText(g)) == PhaseOfRaw(rawState)
  {
    hide Upper, PhaseOfRaw;
    UpperStays(rawState);
    UpperStays(GateText(g));
  }

  lemma RawPhases()
    ensures PhaseOfRaw("READY_FOR_AGENTTEAMS") == ReadyForDispatch
    ensures PhaseOfRaw("AGENTTEAMS_SUBMITTED") == Dispatched
    ensures PhaseOfRaw("ACTIVE") == WorkersRunning
    ensures PhaseOfRaw("AWAITING_HUMAN") == AwaitingHuman
  {
  }

  /** r is the Run with nothing but its lifecycle moved, to this phase. */
  predicate MovedTo(run: Run, r: Reply<Run>, phase: Phase) {
    r.Ok? && r.value.lifecycle.Some? && r.value == run.(lifecycle := r.value.lifecycle) && PhaseOf(r.value) == phase
  }

  /** An undecided Run takes any transition of the table to the phase of a raw state. */
  lemma PlainTransition(run: Run, rawState: string, actor: Actor)
    requires run.lifecycle.Some? && !Decided(run.gate)
    requires forall i :: 0 <= i < |rawState| ==> rawState[i] == '_' || 'A' <= rawState[i] <= 'Z'
    requires PhaseOfRaw(rawState) == PhaseOf(run) || PhaseOfRaw(rawState) in Successors(PhaseOf(run))
    ensures MovedTo(run, Transition(run, rawState, None, actor), PhaseOfRaw(rawState))
  {
    hide PhaseForState, PhaseOfRaw, Successors;
    PlainPhase(rawState, run.gate);
  }

  lemma WantedTransition(run: Run, rawState: string, target: Phase, actor: Actor)
    requires run.lifecycle.Some? && (target == PhaseOf(run) || target in Successors(PhaseOf(run)))
    ensures MovedTo(run, Transition(run, rawState, Some(target), actor), target)
  {
    hide PhaseForState, Successors;
  }

  // ----- what the parts of a poll do to the phase

  function Admitted(p: Phase): Phase {
    if p == ReadyForDispatch then Dispatched else p
  }

  function Observed(p: Phase, artifacts: bool): Phase {
    if artifacts && p in {Dispatched, FailedClosed} then WorkersRunning else p
  }

  function Drafted(p: Phase): Phase {
    if p in {Dispatched, WorkersRunning, FailedClosed} then DatapassDrafted else p
  }

  lemma UndecidedUnlessFinal(run: Run)
    requires run.lifecycle.Some? && GateHolds(run) && PhaseOf(run) !in {Approved, Blocked, Returned}
    ensures !Decided(run.gate)
  {
  }

  lemma AdmitMoves(run: Run, state: string)
    requires run.lifecycle.Some? && GateHolds(run) && (state in OPEN_STATES ==> PhaseOf(run) != FailedClosed)
    ensures MovedTo(run, Admit(run, state), Admitted(PhaseOf(run)))
    ensures Admitted(PhaseOf(run)) == PhaseOf(run) ==> Admit(run, state) == Ok(run)
  {
    hide Transition, GateHolds, OPEN_STATES, PhaseOfRaw;
    if PhaseOf(run) == ReadyForDispatch {
      UndecidedUnlessFinal(run);
      RawPhases();
      PlainTransition(run, "AGENTTEAMS_SUBMITTED", Adapter);
    }
  }

  lemma ObserveMoves(run: Run, artifacts: bool)
    requires run.lifecycle.Some? && GateHolds(run)
    ensures MovedTo(run, ObserveWorkers(run, artifacts), Observed(PhaseOf(run), artifacts))
    ensures Observed(PhaseOf(run), artifacts) == PhaseOf(run) ==> ObserveWorkers(run, artifacts) == Ok(run)
  {
    hide Transition, GateHolds, PhaseOfRaw;
    if artifacts && PhaseOf(run) in {Dispatched, FailedClosed} {
      UndecidedUnlessFinal(run);
      RawPhases();
      PlainTransition(run, "ACTIVE", Runtime);
    }
  }

  lemma DraftMoves(run: Run)
    requires run.lifecycle.Some? && GateHolds(run)
    ensures MovedTo(run, Draft(run), Drafted(PhaseOf(run)))
    ensures Drafted(PhaseOf(run)) == PhaseOf(run) ==> Draft(run) == Ok(run)
  {
    hide Transition, GateHolds, PhaseOfRaw;
    if PhaseOf(run) in {Dispatched, WorkersRunning, FailedClosed} {
      UndecidedUnlessFinal(run);
      RawPhases();
      var active := TransitionFrom(run, {Dispatched}, "ACTIVE", None, Runtime);
      if PhaseOf(run) == Dispatched {
        PlainTransition(run, "ACTIVE", Runtime);
      }
      WantedTransition(active.value, "COMPLETED", DatapassDrafted, CaseLead);
    }
  }

  lemma MovedHolds(run: Run, r: Run)
    requires run.lifecycle.Some? && r.lifecycle.Some? && GateHolds(run) && r == run.(lifecycle := r.lifecycle)
    requires PhaseOf(r) == PhaseOf(run) || PhaseOf(run) !in {Approved, Blocked, Returned}
    ensures GateHolds(r)
  {
  }

  // ----- a poll of an ordinary Run, up to its conclusion

  /** The DataPass the Run has when the poll concludes. */
  function PolledDatapass(run: Run, rep: Report): Option<Datapass> {
    if !rep.recommended || !rep.planComplete then run.datapass else if run.formal then rep.built else Some(rep.legacy)
  }

  function PolledPhase(p: Phase, rep: Report): Phase {
    var seen := Observed(Admitted(p), rep.artifacts);
    if rep.recommended && rep.planComplete then Drafted(seen) else seen
  }

  /** The poll belongs to this Run, reports no stop and carries the Run's own envelope. */
  predicate Bound(run: Run, rep: Report) {
    && rep.runMatches
    && rep.state !in {"STOPPED_BY_GATE", "BUDGET_EXCEEDED"}
    && (run.formal ==> rep.envelopeValid && rep.handleMatches)
  }

  /** The plan is complete and the formal DataPass could not be built. */
  predicate BuildRaises(run: Run, rep: Report) {
    run.formal && rep.recommended && rep.planComplete && rep.built.None?
  }

  /** Before it concludes, a poll moves the phase, takes the DataPass over and changes nothing else. */
  lemma PollConcludes(run: Run, rep: Report) returns (polled: Run)
    requires run.lifecycle.Some? && GateHolds(run) && Bound(run, rep)
    requires rep.state in OPEN_STATES ==> PhaseOf(run) != FailedClosed
    ensures BuildRaises(run, rep) ==>
              && polled.lifecycle.Some? && GateHolds(polled)
              && polled == run.(state := rep.state, dispatched := true, lifecycle := polled.lifecycle)
              && PhaseOf(polled) == Observed(Admitted(PhaseOf(run)), rep.artifacts)
              && Sync(run, rep) == FailClosed(polled, "FORMAL_PROTOCOL_FAILED", Aggregator, None)
    ensures !BuildRaises(run, rep) ==>
              && polled.lifecycle.Some? && GateHolds(polled)
              && polled == run.(state := rep.state, dispatched := true, datapass := PolledDatapass(run, rep),
                                lifecycle := polled.lifecycle)
              && PhaseOf(polled) == PolledPhase(PhaseOf(run), rep)
              && (PhaseOf(run) in {AwaitingHuman, Approved, Blocked, Returned} ==> polled.lifecycle == run.lifecycle)
              && Sync(run, rep) == Conclude(polled, rep)
  {
    hide Admit, ObserveWorkers, Draft, Conclude, FailClosed, GateHolds, Stop, OPEN_STATES;
    var entered := run.(state := rep.state, dispatched := true);
    RestatedHolds(run, rep.state, true);
    AdmitMoves(entered, rep.state);
    var admitted := Admit(entered, rep.state).value;
    MovedHolds(entered, admitted);
    ObserveMoves(admitted, rep.artifacts);
    var observed := ObserveWorkers(admitted, rep.artifacts).value;
    MovedHolds(admitted, observed);
    if !rep.recommended || !rep.planComplete || BuildRaises(run, rep) {
      polled := observed;
    } else {
      var with := observed.(datapass := PolledDatapass(run, rep));
      WithDatapassHolds(observed, with.datapass);
      DraftMoves(with);
      polled := Draft(with).value;
      MovedHolds(with, polled);
    }
  }

  lemma WithDatapassHolds(run: Run, datapass: Option<Datapass>)
    requires GateHolds(run) && datapass.Some?
    ensures GateHolds(run.(datapass := datapass))
  {
  }

  // ----- when a decision that a poll brings is persisted

  /** The phase of the Run file from which this decision can be persisted. */
  predicate MayDecide(p: Phase, g: Gate)
    requires Decided(g)
  {
    p == AwaitingHuman || p == PhaseOfGate(g) || (p == Routed && g != GateApproved)
  }

  /** The decision is in the file: gate and phase agree on it. */
  predicate Persisted(r: Reply<Run>, g: Gate) {
    Decided(g) && r.Ok? && r.value.gate == g && r.value.lifecycle.Some? && PhaseOf(r.value) == PhaseOfGate(g)
  }

  /**
   * A poll that brings a Human decision persists it exactly when it is bound to
   * the Run; the Run file waits for a Human, has the decision's phase already, or
   * is only routed and not approved; and the poll does not also bring a plan whose
   * DataPass cannot be built.  A bound poll at any other phase is refused and
   * leaves the file as it is, however often it comes: also the one that brings the
   * complete plan and the decision at once, because it drafts the DataPass itself
   * and then finds it drafted.
   */
  lemma PolledDecisionExactly(run: Run, rep: Report)
    requires run.lifecycle.Some? && GateHolds(run) && rep.state == "COMPLETED" && rep.decision.Some?
    ensures
      var g, r := GateFor(rep.decision.value), Sync(run, rep);
      && (Persisted(r, g) <==> Bound(run, rep) && MayDecide(PhaseOf(run), g) && !BuildRaises(run, rep))
      && (Bound(run, rep) && !MayDecide(PhaseOf(run), g) && !BuildRaises(run, rep) ==>
            r.Err? && Apply(run, SyncStep(rep)) == run)
  {
    hide GateHolds, FailClosed, Decide, Successors, PolledPhase, Project, Stop;
    var g := GateFor(rep.decision.value);
    if !Bound(run, rep) {
      FailClosedShuts(run, "FORMAL_ENVELOPE_HANDLE_MISMATCH", Aggregator, None);
    } else {
      var polled := PollConcludes(run, rep);
      if BuildRaises(run, rep) {
        FailClosedShuts(polled, "FORMAL_PROTOCOL_FAILED", Aggregator, None);
      } else {
        DecisionLandsExactly(polled, rep.decision.value);
        DecidingPhases(PhaseOf(run), rep, g);
        DecidedHasPhase(polled, rep.decision.value);
      }
    }
  }

  lemma DecidedHasPhase(run: Run, decision: string)
    requires run.lifecycle.Some?
    ensures
      var r := Decide(run, decision);
      r.Ok? ==> r.value.lifecycle.Some? && r.value.gate == GateFor(decision) && PhaseOf(r.value) == PhaseOfGate(GateFor(decision))
  {
    hide Decide, Path;
    DecisionLandsExactly(run, decision);
  }

  lemma FailClosedShuts(run: Run, rawState: string, actor: Actor, datapass: Option<Datapass>)
    requires run.lifecycle.Some?
    ensures FailClosed(run, rawState, actor, datapass).Ok? ==> FailClosed(run, rawState, actor, datapass).value.gate == NotOpened
  {
    hide PhaseForState;
  }

  lemma DecidingPhases(p: Phase, rep: Report, g: Gate)
    requires Decided(g)
    ensures
      var seen := PolledPhase(p, rep);
      seen != DatapassDrafted && (seen == PhaseOfGate(g) || PhaseOfGate(g) in Successors(seen)) <==> MayDecide(p, g)
  {
  }

  // ----- when a persisted decision is taken back

  /** A poll that says again that the Run waits for a Human, or a recovery of a decided Run without DataPass. */
  predicate TakesBack(run: Run, step: Step) {
    match step
    case SyncStep(rep) =>
      && Bound(run, rep) && rep.state == "AWAITING_HUMAN"
      && (run.formal ==> PolledDatapass(run, rep).Some?)
    case RecoverStep(ev) =>
      run.datapass.None? && ev.planComplete && ev.leaderEvent && !(run.formal && ev.built.None?)
    case _ => false
  }

  /** Failing closed is refused for a decided Run: no decided phase leads to FailedClosed. */
  lemma DecidedCannotFailClosed(run: Run, rawState: string, actor: Actor, datapass: Option<Datapass>)
    requires run.lifecycle.Some? && GateHolds(run) && Decided(run.gate)
    ensures FailClosed(run, rawState, actor, datapass).Err?
  {
  }

  lemma DecidedPollExactly(run: Run, rep: Report)
    requires run.lifecycle.Some? && GateHolds(run) && Decided(run.gate)
    ensures
      var r := Sync(run, rep);
      if TakesBack(run, SyncStep(rep)) then r.Ok? && r.value.gate == Awaiting && r.value.lifecycle == run.lifecycle
      else r.Ok? ==> r.value.gate == run.gate
  {
    hide Project, FailClosed, Decide, Stop, OPEN_STATES, Conclude;
    DecidedCannotFailClosed(run, "FORMAL_ENVELOPE_HANDLE_MISMATCH", Aggregator, None);
    if rep.stopRecord.Some? {
      StopHolds(run, rep.stopRecord.value);
    }
    if Bound(run, rep) {
      var polled := PollConcludes(run, rep);
      if BuildRaises(run, rep) {
        DecidedCannotFailClosed(polled, "FORMAL_PROTOCOL_FAILED", Aggregator, None);
      } else {
        DecidedConclusion(polled, rep);
      }
    }
  }

  lemma DecidedConclusion(run: Run, rep: Report)
    requires run.lifecycle.Some? && GateHolds(run) && Decided(run.gate)
    ensures
      var r := Conclude(run, rep);
      if rep.state == "AWAITING_HUMAN" && (run.formal ==> run.datapass.Some?) then r == Ok(run.(gate := Awaiting))
      else r.Ok? ==> r.value.gate == run.gate
  {
    hide Decide, FailClosed, Transition;
    DecidedCannotFailClosed(run, "FORMAL_DATAPASS_MISSING", Aggregator, None);
    if rep.state == "COMPLETED" && rep.decision.Some? {
      DecisionLandsExactly(run, rep.decision.value);
    }
  }

  lemma DecidedRecoveryExactly(run: Run, ev: Evidence)
    requires run.lifecycle.Some? && GateHolds(run) && Decided(run.gate)
    ensures
      var r := Recover(run, ev);
      if TakesBack(run, RecoverStep(ev)) then r.Ok? && r.value.gate == Awaiting && r.value.lifecycle == run.lifecycle
      else r.Ok? ==> r.value.gate == run.gate
  {
    hide FailClosed, Transition;
    DecidedCannotFailClosed(run, "FORMAL_RECOVERY_FAILED", Recovery, None);
  }

  /**
   * A persisted decision is taken back exactly by those two calls.  The gate then
   * waits for a Human again, while the lifecycle still says that the Run was
   * decided.
   */
  lemma DecisionTakenBackExactly(run: Run, step: Step)
    requires run.lifecycle.Some? && GateHolds(run) && Decided(run.gate)
    ensures Apply(run, step).gate != run.gate <==> TakesBack(run, step)
    ensures TakesBack(run, step) ==> Apply(run, step).gate == Awaiting && Apply(run, step).lifecycle == run.lifecycle
  {
    hide GateHolds, Stop, Sync, Recover, Attach, DispatchFailure, DispatchGuard, RequestDispatch, Reroute, Succeeds;
    hide StopLedger.RecordFault;
    match step
    case StopStep(record) => StopHolds(run, record);
    case SyncStep(report) => DecidedPollExactly(run, report);
    case RecoverStep(evidence) => DecidedRecoveryExactly(run, evidence);
    case _ => DispatchHolds(run, step);
  }

  /** Every other call leaves the decision alone, also on a Run from before the lifecycle was kept. */
  lemma DecidedGateSticks(run: Run, step: Step)
    requires GateHolds(run) && Decided(run.gate) && !TakesBack(Loaded(run), step)
    ensures Apply(run, step).gate == run.gate
  {
    hide GateHolds, TakesBack, Outcomes, Bootstrap;
    LoadedHolds(run);
    DecisionTakenBackExactly(Loaded(run), step);
  }

  // ----- when a gate waits for a Human without a DataPass

  predicate WaitsBare(run: Run) {
    run.gate == Awaiting && run.datapass.None?
  }

  /** A poll of a legacy Run that reports the open gate and leaves the Run without a DataPass. */
  predicate OpensBare(run: Run, step: Step) {
    && step.SyncStep? && Bound(run, step.report) && step.report.state == "AWAITING_HUMAN"
    && !run.formal && PolledDatapass(run, step.report).None?
  }

  /** r differs from the Run in its lifecycle at most. */
  predicate OnlyMoved(run: Run, r: Reply<Run>) {
    r.Ok? ==> r.value == run.(lifecycle := r.value.lifecycle)
  }

  lemma OnlyMoves(run: Run, phases: set<Phase>, rawState: string, wanted: Option<Phase>, actor: Actor)
    requires run.lifecycle.Some?
    ensures OnlyMoved(run, Transition(run, rawState, wanted, actor))
    ensures OnlyMoved(run, TransitionFrom(run, phases, rawState, wanted, actor))
  {
    hide PhaseForState, Move;
  }

  lemma OpenGateWaits(run: Run)
    requires run.lifecycle.Some?
    ensures OnlyMoved(run.(gate := Awaiting), OpenGate(run))
    ensures run.datapass.None? ==> OpenGate(run) == Ok(run.(gate := Awaiting))
  {
    hide Transition;
    OnlyMoves(run.(gate := Awaiting), {DatapassDrafted}, "AWAITING_HUMAN", None, CaseLead);
  }

  lemma ConclusionBare(run: Run, rep: Report)
    requires run.lifecycle.Some?
    ensures
      var r := Conclude(run, rep);
      if rep.state == "AWAITING_HUMAN" then r.Ok? && WaitsBare(r.value) <==> !run.formal && run.datapass.None?
      else r.Ok? && WaitsBare(r.value) ==> WaitsBare(run)
  {
    hide OpenGate, Decide, FailClosed;
    OpenGateWaits(run);
    FailClosedShuts(run, "FORMAL_DATAPASS_MISSING", Aggregator, None);
    if rep.state == "COMPLETED" && rep.decision.Some? {
      DecisionLandsExactly(run, rep.decision.value);
    }
  }

  lemma RuntimeOnlyMoves(run: Run, state: string, artifacts: bool)
    requires run.lifecycle.Some?
    ensures OnlyMoved(run, Admit(run, state)) && OnlyMoved(run, ObserveWorkers(run, artifacts)) && OnlyMoved(run, Draft(run))
  {
    hide TransitionFrom;
    var phases: set<Phase> := if state in OPEN_STATES then {FailedClosed} else {};
    OnlyMoves(run, phases, "READY_FOR_AGENTTEAMS", Some(ReadyForDispatch), Supervisor);
    var admitted := TransitionFrom(run, phases, "READY_FOR_AGENTTEAMS", Some(ReadyForDispatch), Supervisor);
    if admitted.Ok? {
      OnlyMoves(admitted.value, {ReadyForDispatch}, "AGENTTEAMS_SUBMITTED", None, Adapter);
    }
    OnlyMoves(run, if artifacts then {Dispatched, FailedClosed} else {}, "ACTIVE", None, Runtime);
    OnlyMoves(run, {Dispatched}, "ACTIVE", None, Runtime);
    var active := TransitionFrom(run, {Dispatched}, "ACTIVE", None, Runtime);
    if active.Ok? {
      OnlyMoves(active.value, {WorkersRunning, Dispatched, FailedClosed}, "COMPLETED", Some(DatapassDrafted), CaseLead);
    }
  }

  lemma ProjectionBare(run: Run, rep: Report)
    requires run.lifecycle.Some? && !OpensBare(run, SyncStep(rep)) && Bound(run, rep)
    requires Project(run, rep).Ok? && WaitsBare(Project(run, rep).value)
    ensures WaitsBare(run)
  {
    hide Admit, ObserveWorkers, Draft, Conclude, FailClosed;
    var polled := run.(state := rep.state, dispatched := true);
    RuntimeOnlyMoves(polled, rep.state, rep.artifacts);
    var admitted := Admit(polled, rep.state).value;
    RuntimeOnlyMoves(admitted, rep.state, rep.artifacts);
    var observed := ObserveWorkers(admitted, rep.artifacts).value;
    if !rep.recommended || !rep.planComplete {
      ConclusionBare(observed, rep);
    } else if observed.formal && rep.built.None? {
      FailClosedShuts(observed, "FORMAL_PROTOCOL_FAILED", Aggregator, None);
    } else {
      var with := observed.(datapass := if observed.formal then rep.built else Some(rep.legacy));
      RuntimeOnlyMoves(with, rep.state, rep.artifacts);
      ConclusionBare(Draft(with).value, rep);
    }
  }

  lemma StopKeepsDatapass(run: Run, record: StopLedger.Record)
    requires run.lifecycle.Some?
    ensures
      var r := Stop(run, record);
      r.Ok? ==> r.value.gate == run.gate && r.value.datapass == run.datapass
  {
    hide PhaseForState, Move, StopLedger.RecordFault;
  }

  lemma PollBare(run: Run, rep: Report)
    requires run.lifecycle.Some? && GateHolds(run)
    ensures
      var r := Sync(run, rep);
      if OpensBare(run, SyncStep(rep)) then r.Ok? && WaitsBare(r.value)
      else r.Ok? && WaitsBare(r.value) ==> WaitsBare(run)
  {
    hide Project, Stop, FailClosed, GateHolds, Conclude;
    var r := Sync(run, rep);
    if OpensBare(run, SyncStep(rep)) {
      var polled := PollConcludes(run, rep);
      ConclusionBare(polled, rep);
    } else if r.Ok? && WaitsBare(r.value) {
      if rep.state in {"STOPPED_BY_GATE", "BUDGET_EXCEEDED"} {
        StopKeepsDatapass(run, rep.stopRecord.value);
      } else if run.formal && !rep.handleMatches {
        FailClosedShuts(run, "FORMAL_ENVELOPE_HANDLE_MISMATCH", Aggregator, None);
      } else {
        ProjectionBare(run, rep);
      }
    }
  }

  /** A poll that reports the open gate opens it without a DataPass exactly for a legacy Run that has none by then. */
  lemma WaitingPollExactly(run: Run, rep: Report)
    requires run.lifecycle.Some? && GateHolds(run) && Bound(run, rep) && rep.state == "AWAITING_HUMAN"
    ensures Sync(run, rep).Ok? && WaitsBare(Sync(run, rep).value) <==> !run.formal && PolledDatapass(run, rep).None?
  {
    hide Sync, GateHolds, Conclude, FailClosed;
    var polled := PollConcludes(run, rep);
    if BuildRaises(run, rep) {
      FailClosedShuts(polled, "FORMAL_PROTOCOL_FAILED", Aggregator, None);
    } else {
      ConclusionBare(polled, rep);
    }
  }

  lemma BareIsLegacy(run: Run)
    requires GateHolds(run) && WaitsBare(run)
    ensures !run.formal
  {
  }

  lemma ReopenKeepsDatapass(run: Run)
    requires run.lifecycle.Some?
    ensures OnlyMoved(run, Reopen(run))
  {
    hide TransitionFrom;
    OnlyMoves(run, {ReadyForDispatch}, "AGENTTEAMS_SUBMITTED", None, Recovery);
    var seen := TransitionFrom(run, {ReadyForDispatch}, "AGENTTEAMS_SUBMITTED", None, Recovery);
    if seen.Ok? {
      OnlyMoves(seen.value, {Dispatched, FailedClosed}, "ACTIVE", None, Recovery);
      var active := TransitionFrom(seen.value, {Dispatched, FailedClosed}, "ACTIVE", None, Recovery);
      if active.Ok? {
        OnlyMoves(active.value, {WorkersRunning}, "COMPLETED", Some(DatapassDrafted), Recovery);
        var drafted := TransitionFrom(active.value, {WorkersRunning}, "COMPLETED", Some(DatapassDrafted), Recovery);
        if drafted.Ok? {
          OnlyMoves(drafted.value, {DatapassDrafted}, "AWAITING_HUMAN", None, Recovery);
        }
      }
    }
  }

  lemma RecoveryBare(run: Run, ev: Evidence)
    requires run.lifecycle.Some?
    ensures
      var r := Recover(run, ev);
      r.Ok? && WaitsBare(r.value) ==> WaitsBare(run)
  {
    hide Reopen, FailClosed;
    FailClosedShuts(run, "FORMAL_RECOVERY_FAILED", Recovery, None);
    ReopenKeepsDatapass(run.(datapass := if run.formal then ev.built else Some(ev.legacy),
                             state := "AWAITING_HUMAN", gate := Awaiting));
  }

  lemma DispatchKeepsDatapass(run: Run, step: Step)
    requires run.lifecycle.Some? && !step.StopStep? && !step.SyncStep? && !step.RecoverStep?
    ensures
      var r := Outcomes(run, step);
      r.Ok? ==> r.value.gate == run.gate && r.value.datapass == run.datapass
  {
    hide PhaseForState, Move;
  }

  /** A call makes a gate wait without a DataPass exactly when it is such a poll. */
  lemma OpensBareExactly(run: Run, step: Step)
    requires run.lifecycle.Some? && GateHolds(run)
    ensures OpensBare(run, step) ==> WaitsBare(Apply(run, step))
    ensures !WaitsBare(run) ==> (WaitsBare(Apply(run, step)) <==> OpensBare(run, step))
  {
    hide GateHolds, Stop, Sync, Recover, Attach, DispatchFailure, DispatchGuard, RequestDispatch, Reroute, OpensBare;
    hide StopLedger.RecordFault;
    match step
    case StopStep(record) => StopKeepsDatapass(run, record); OnlyPollsOpen(run, step);
    case SyncStep(report) => PollBare(run, report);
    case RecoverStep(evidence) => RecoveryBare(run, evidence); OnlyPollsOpen(run, step);
    case _ => DispatchKeepsDatapass(run, step); OnlyPollsOpen(run, step);
  }

  lemma OnlyPollsOpen(run: Run, step: Step)
    requires !step.SyncStep?
    ensures !OpensBare(run, step)
  {
  }

  /** Over every history: a gate that waits without a DataPass was opened by such a poll and has waited ever since. */
  lemma {:induction false} BareWaitHasItsPoll(runs: seq<Run>, steps: seq<Step>, i: nat) returns (k: nat)
    requires History(runs, steps) && Created(runs[0]) && i < |runs| && WaitsBare(runs[i])
    ensures k < i && OpensBare(runs[k], steps[k]) && !runs[0].formal
    ensures forall j :: k < j <= i ==> WaitsBare(runs[j])
  {
    hide Apply, GateHolds, Created, OpensBare;
    assert GateHolds(runs[0]) && runs[0].lifecycle.Some? && !WaitsBare(runs[0]) by { CreatedHolds(runs[0]); }
    HistoryHolds(runs, steps, i);
    BareIsLegacy(runs[i]);
    HistoryHolds(runs, steps, i - 1);
    OpensBareExactly(runs[i - 1], steps[i - 1]);
    if WaitsBare(runs[i - 1]) {
      k := BareWaitHasItsPoll(runs, steps, i - 1);
    } else {
      k := i - 1;
    }
  }

  lemma CreatedHolds(run: Run)
    requires Created(run)
    ensures GateHolds(run) && run.lifecycle.Some? && !WaitsBare(run)
  {
  }

  // ----- histories that meet the failing conditions

  /** A Run routed to the full team, as creation leaves it. */
  function Fresh(formal: bool): Run {
    Run("RUN-1", formal, "READY_FOR_AGENTTEAMS", NotOpened, None, None, false, None,
        Some(Bootstrap("READY_FOR_AGENTTEAMS", "NOT_OPENED", LiveIntake)))
  }

  const DATAPASS := Datapass(true, "")
  const ACTIVE_POLL := Report(true, "ACTIVE", None, true, true, true, false, false, None, Datapass(false, ""), None)
  const DRAFTING_POLL := ACTIVE_POLL.(recommended := true, planComplete := true, built := Some(DATAPASS))
  const WAITING_POLL := ACTIVE_POLL.(state := "AWAITING_HUMAN", artifacts := false)
  const APPROVING_POLL := WAITING_POLL.(state := "COMPLETED", decision := Some("APPROVE_PASS"))
  const COMPLETE_AND_APPROVING_POLL := DRAFTING_POLL.(state := "COMPLETED", decision := Some("APPROVE_PASS"))

  /** One more call at the end of a history. */
  lemma Extended(runs: seq<Run>, steps: seq<Step>, step: Step) returns (more: seq<Run>)
    requires History(runs, steps)
    ensures more == runs + [Apply(runs[|steps|], step)] && History(more, steps + [step])
  {
    hide Apply;
    more := runs + [Apply(runs[|steps|], step)];
  }

  lemma FreshIsCreated(formal: bool)
    ensures Created(Fresh(formal)) && PhaseOf(Fresh(formal)) == ReadyForDispatch && GateHolds(Fresh(formal))
  {
    hide Upper, PhaseOfRaw;
    PlainPhase("READY_FOR_AGENTTEAMS", NotOpened);
    RawPhases();
  }

  lemma AttachMoves(run: Run)
    requires run.lifecycle.Some? && PhaseOf(run) == ReadyForDispatch && run.gate == NotOpened
    ensures
      var r := Apply(run, AttachStep(true));
      r.lifecycle.Some? && PhaseOf(r) == Dispatched && r.gate == NotOpened && r.datapass == run.datapass && r.formal == run.formal
  {
    hide Transition, PhaseOfRaw;
    RawPhases();
    PlainTransition(run.(state := "AGENTTEAMS_SUBMITTED", dispatched := true), "AGENTTEAMS_SUBMITTED", Adapter);
  }

  /** A poll of a Run in progress. */
  lemma ProgressMoves(run: Run, rep: Report)
    requires run.lifecycle.Some? && GateHolds(run) && Bound(run, rep) && !BuildRaises(run, rep)
    requires rep.state == "ACTIVE" && PhaseOf(run) != FailedClosed
    ensures
      var r := Apply(run, SyncStep(rep));
      && r.lifecycle.Some? && PhaseOf(r) == PolledPhase(PhaseOf(run), rep) && GateHolds(r)
      && r.gate == run.gate && r.datapass == PolledDatapass(run, rep) && r.formal == run.formal
  {
    hide Sync, GateHolds, PolledPhase, FailClosed, Decide;
    var polled := PollConcludes(run, rep);
  }

  /** A poll that reports the open gate of a drafted Run. */
  lemma WaitingMoves(run: Run)
    requires run.lifecycle.Some? && GateHolds(run) && PhaseOf(run) == DatapassDrafted && run.datapass.Some?
    ensures
      var r := Apply(run, SyncStep(WAITING_POLL));
      && r.lifecycle.Some? && PhaseOf(r) == AwaitingHuman && GateHolds(r)
      && r.gate == Awaiting && r.datapass == run.datapass && r.formal == run.formal
  {
    hide Sync, Transition, PhaseOfRaw, FailClosed, Decide;
    var polled := PollConcludes(run, WAITING_POLL);
    RawPhases();
    PlainTransition(polled.(gate := Awaiting), "AWAITING_HUMAN", CaseLead);
  }

  predicate Stands(run: Run, formal: bool, phase: Phase, gate: Gate, drafted: bool) {
    && run.formal == formal && run.gate == gate && run.datapass.Some? == drafted
    && run.lifecycle.Some? && PhaseOf(run) == phase && GateHolds(run)
  }

  const TO_DISPATCH: seq<Step> := [AttachStep(true)]
  const TO_WORKERS := TO_DISPATCH + [SyncStep(ACTIVE_POLL)]
  const TO_DRAFT := TO_DISPATCH + [SyncStep(DRAFTING_POLL)]
  const TO_HUMAN := TO_DRAFT + [SyncStep(WAITING_POLL)]
  const TO_APPROVAL := TO_HUMAN + [SyncStep(APPROVING_POLL)]

  lemma ReachDispatch(formal: bool) returns (runs: seq<Run>)
    ensures History(runs, TO_DISPATCH) && runs[0] == Fresh(formal) && Stands(runs[1], formal, Dispatched, NotOpened, false)
  {
    hide Apply, Bootstrap;
    FreshIsCreated(formal);
    runs := Extended([Fresh(formal)], [], AttachStep(true));
    AttachMoves(Fresh(formal));
  }

  lemma ReachByPoll(rep: Report) returns (runs: seq<Run>)
    requires rep in {ACTIVE_POLL, DRAFTING_POLL}
    ensures History(runs, TO_DISPATCH + [SyncStep(rep)]) && runs[0] == Fresh(true)
    ensures rep == ACTIVE_POLL ==> Stands(runs[2], true, WorkersRunning, NotOpened, false)
    ensures rep == DRAFTING_POLL ==> Stands(runs[2], true, DatapassDrafted, NotOpened, true)
  {
    hide Apply, Fresh, GateHolds;
    runs := ReachDispatch(true);
    ProgressMoves(runs[1], rep);
    runs := Extended(runs, TO_DISPATCH, SyncStep(rep));
  }

  lemma ReachApproval() returns (runs: seq<Run>)
    ensures History(runs, TO_APPROVAL) && runs[0] == Fresh(true) && Stands(runs[4], true, Approved, GateApproved, true)
  {
    hide Apply, Fresh, GateHolds, Sync;
    runs := ReachByPoll(DRAFTING_POLL);
    WaitingMoves(runs[2]);
    runs := Extended(runs, TO_DRAFT, SyncStep(WAITING_POLL));
    ApprovalMoves(runs[3]);
    runs := Extended(runs, TO_HUMAN, SyncStep(APPROVING_POLL));
  }

  lemma ApprovalMoves(run: Run)
    requires Stands(run, true, AwaitingHuman, Awaiting, true)
    ensures Stands(Apply(run, SyncStep(APPROVING_POLL)), true, Approved, GateApproved, true)
  {
    hide Sync, Decide, FailClosed;
    var polled := PollConcludes(run, APPROVING_POLL);
    PolledDecisionExactly(run, APPROVING_POLL);
    SyncHolds(run, APPROVING_POLL);
    DecisionKeepsDatapass(polled, "APPROVE_PASS");
  }

  lemma DecisionKeepsDatapass(run: Run, decision: string)
    requires run.lifecycle.Some?
    ensures
      var r := Decide(run, decision);
      r.Ok? ==> r.value.datapass == run.datapass && r.value.formal == run.formal
  {
    hide PhaseForState, Move;
  }

  /** An approval over a drafted DataPass is lost: the poll is refused and the file stays. */
  lemma DecisionOnDraftIsRefused() returns (runs: seq<Run>)
    ensures History(runs, TO_DRAFT + [SyncStep(APPROVING_POLL)]) && Created(runs[0]) && runs[0].formal
    ensures Stands(runs[2], true, DatapassDrafted, NotOpened, true) && runs[3] == runs[2]
  {
    hide Apply, GateHolds;
    FreshIsCreated(true);
    runs := ReachByPoll(DRAFTING_POLL);
    PolledDecisionExactly(runs[2], APPROVING_POLL);
    runs := Extended(runs, TO_DRAFT, SyncStep(APPROVING_POLL));
  }

  /** So is one that comes together with the complete plan, while the Workers were still seen running. */
  lemma DecisionWithThePlanIsRefused() returns (runs: seq<Run>)
    ensures History(runs, TO_WORKERS + [SyncStep(COMPLETE_AND_APPROVING_POLL)]) && Created(runs[0]) && runs[0].formal
    ensures Stands(runs[2], true, WorkersRunning, NotOpened, false) && runs[3] == runs[2]
  {
    hide Apply, GateHolds;
    FreshIsCreated(true);
    runs := ReachByPoll(ACTIVE_POLL);
    PolledDecisionExactly(runs[2], COMPLETE_AND_APPROVING_POLL);
    runs := Extended(runs, TO_WORKERS, SyncStep(COMPLETE_AND_APPROVING_POLL));
  }

  /** A poll that is behind takes a persisted approval back: the gate waits again over an approved lifecycle. */
  lemma StalePollTakesApprovalBack() returns (runs: seq<Run>)
    ensures History(runs, TO_APPROVAL + [SyncStep(WAITING_POLL)]) && Created(runs[0]) && runs[0].formal
    ensures Stands(runs[4], true, Approved, GateApproved, true)
    ensures runs[5].gate == Awaiting && runs[5].lifecycle == runs[4].lifecycle
  {
    hide Apply, GateHolds;
    FreshIsCreated(true);
    runs := ReachApproval();
    DecisionTakenBackExactly(runs[4], SyncStep(WAITING_POLL));
    runs := Extended(runs, TO_APPROVAL, SyncStep(WAITING_POLL));
  }

  /** The DataPass invariant is one of formal Runs: a legacy Run waits for a Human without one. */
  lemma LegacyGateMayWaitWithoutDatapass() returns (runs: seq<Run>)
    ensures History(runs, TO_DISPATCH + [SyncStep(WAITING_POLL)]) && Created(runs[0]) && !runs[0].formal
    ensures runs[2].gate == Awaiting && runs[2].datapass.None?
  {
    hide Apply, GateHolds;
    FreshIsCreated(false);
    runs := ReachDispatch(false);
    LegacyPoll(runs[1]);
    runs := Extended(runs, TO_DISPATCH, SyncStep(WAITING_POLL));
  }

  lemma LegacyPoll(run: Run)
    requires Stands(run, false, Dispatched, NotOpened, false)
    ensures
      var r := Apply(run, SyncStep(WAITING_POLL));
      r.gate == Awaiting && r.datapass.None?
  {
    hide Sync, FailClosed, Decide, Transition;
    var polled := PollConcludes(run, WAITING_POLL);
  }
}
