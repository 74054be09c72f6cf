/**
 * What each call writes into the Run file: the gate and phase a decision becomes,
 * how a stop shuts a Run, and where dispatch and recovery lead.
 */
module HumanGateEffects {
  import opened Basics
  import opened AsciiText
  import opened RunLifecycle
  import opened HumanGate
  import opened HumanGateDecisions
  import StopLedger

  // ----- what the lifecycle writes down

  /** The Run's lifecycle went on to r's with this raw state: one entry more that names who moved it, none if the phase is the same. */
  predicate Logged(run: Run, r: Run, rawState: string, actor: Actor)
    requires run.lifecycle.Some? && r.lifecycle.Some?
  {
    var l, l' := run.lifecycle.value, r.lifecycle.value;
    && l'.lastRaw == Some(rawState)
    && l'.terminal == (if l'.current == l.current then l.terminal else l'.current in {Approved, Blocked, Returned, Released})
    && l'.history == l.history
                     + if l'.current == l.current then []
                       else [Entry(|l.history| + 1, Some(l.current), l'.current, rawState, actor)]
  }

  lemma TransitionLogs(run: Run, rawState: string, wanted: Option<Phase>, actor: Actor)
    requires run.lifecycle.Some? && Transition(run, rawState, wanted, actor).Ok?
    ensures Logged(run, Transition(run, rawState, wanted, actor).value, rawState, actor)
    ensures wanted.Some? ==> PhaseOf(Transition(run, rawState, wanted, actor).value) == wanted.value
  {
    hide PhaseForState, Successors;
  }

  /** What a decision writes down, for a Run that waited for it. */
  lemma DecisionIsLogged(run: Run, decision: string)
    requires run.lifecycle.Some? && PhaseOf(run) != DatapassDrafted && Decide(run, decision).Ok?
    ensures Decide(run, decision).value.lifecycle.Some? && Logged(run, Decide(run, decision).value, "COMPLETED", MatrixHuman)
  {
    hide Transition;
    TransitionLogs(run.(gate := GateFor(decision), decision := Some(decision)), "COMPLETED", Some(PhaseOfGate(GateFor(decision))), MatrixHuman);
  }

  // ----- decisions

  /** The Run says that this was decided: gate, phase, and the decision's own text. */
  predicate Says(run: Run, gate: string, phase: Phase, decision: string) {
    GateText(run.gate) == gate && run.lifecycle.Some? && PhaseOf(run) == phase && run.decision == Some(decision)
  }

  /**
   * What a decision becomes whenever it may be persisted: an approval approves,
   * a confirmed block rejects for good, a request for evidence returns the case,
   * and any other text rejects.
   */
  lemma DecisionBecomes(run: Run, rep: Report)
    requires run.lifecycle.Some? && GateHolds(run) && Bound(run, rep) && !BuildRaises(run, rep)
    requires rep.state == "COMPLETED" && rep.decision.Some?
    requires MayDecide(PhaseOf(run), GateFor(rep.decision.value))
    ensures
      var d, file := rep.decision.value, Apply(run, SyncStep(rep));
      && (d == "APPROVE_PASS" ==> Says(file, "APPROVED", Approved, d))
      && (d == "CONFIRM_BLOCK" ==> Says(file, "REJECTED", Blocked, d))
      && (d == "REQUEST_EVIDENCE" ==> Says(file, "RETURNED", Returned, d))
      && (d !in ["APPROVE_PASS", "CONFIRM_BLOCK", "REQUEST_EVIDENCE"] ==> Says(file, "REJECTED", Blocked, d))
      && (PhaseOf(run) == AwaitingHuman ==> file.lifecycle.Some? && Logged(run, file, "COMPLETED", MatrixHuman))
  {
    hide GateHolds, Sync, Decide, FailClosed;
    PolledDecisionExactly(run, rep);
    var polled := PollConcludes(run, rep);
    DecisionKeepsText(polled, rep.decision.value);
    if PhaseOf(run) == AwaitingHuman {
      DecisionIsLogged(polled, rep.decision.value);
    }
  }

  lemma DecisionKeepsText(run: Run, decision: string)
    requires run.lifecycle.Some? && Decide(run, decision).Ok?
    ensures Decide(run, decision).value.decision == Some(decision)
  {
    hide PhaseForState, Move;
  }

  // ----- stops

  /** The Run has stopped for this record: the record's digest and terminal state, and the phase that is closed. */
  predicate StoppedBy(run: Run, record: StopLedger.Record) {
    && run.stop == Some(record.sha) && run.lifecycle.Some? && PhaseOf(run) == FailedClosed
    && (record.body.terminal == StopLedger.StoppedByGate ==> run.state == "STOPPED_BY_GATE")
    && (record.body.terminal == StopLedger.BudgetExceeded ==> run.state == "BUDGET_EXCEEDED")
  }

  lemma ClosingPhases(p: Phase)
    ensures FailedClosed in Successors(p) <==>
              p in {Prechecked, Routed, ReadyForDispatch, Dispatched, WorkersRunning, DatapassDrafted, AwaitingHuman}
  {
  }

  /**
   * A stop is accepted exactly for a valid record of this Run, an undecided gate
   * and a phase that may close; it then stands in the Run with its digest and
   * state, and gate and DataPass stay as they are.
   */
  lemma StopExactly(run: Run, record: StopLedger.Record)
    requires run.lifecycle.Some?
    ensures
      var r := Stop(run, record);
      && (r.Ok? <==>
            && StopLedger.RecordFault(record).None? && record.body.runId == run.runId
            && (StoppedBy(run, record)
                || (!Decided(run.gate) && (PhaseOf(run) == FailedClosed || FailedClosed in Successors(PhaseOf(run))))))
      && (r.Ok? ==>
            && StoppedBy(r.value, record)
            && r.value == run.(stop := r.value.stop, state := r.value.state, lifecycle := r.value.lifecycle))
      && (StoppedBy(run, record) && r.Ok? ==> r.value == run)
      && (r.Ok? && PhaseOf(run) == FailedClosed ==> r.value.lifecycle == run.lifecycle)
      && (r.Ok? && PhaseOf(run) != FailedClosed ==> Logged(run, r.value, r.value.state, Named(record.body.actor)))
  {
    hide StopLedger.EvidenceFault, StopLedger.UsageFault, PhaseForState, Successors;
  }

  // ----- failing closed

  /** The Run has failed closed: gate shut, no decision, and this DataPass. */
  predicate ShutWith(run: Run, r: Run, datapass: Option<Datapass>) {
    && r.lifecycle.Some? && PhaseOf(r) == FailedClosed && r.state == "FAILED_CLOSED" && GateText(r.gate) == "NOT_OPENED"
    && r == run.(state := r.state, gate := r.gate, decision := None, datapass := datapass, lifecycle := r.lifecycle)
  }

  lemma FailClosedExactly(run: Run, rawState: string, actor: Actor, datapass: Option<Datapass>)
    requires run.lifecycle.Some?
    ensures
      var r := FailClosed(run, rawState, actor, datapass);
      && (r.Ok? <==> PhaseOf(run) == FailedClosed || FailedClosed in Successors(PhaseOf(run)))
      && (r.Ok? ==> ShutWith(run, r.value, datapass))
      && (r.Ok? && PhaseOf(run) == FailedClosed ==> r.value.lifecycle == run.lifecycle)
      && (r.Ok? && PhaseOf(run) != FailedClosed ==> Logged(run, r.value, rawState, actor))
  {
    hide PhaseForState, Successors;
  }

  /** A poll of a V0.2 Run with an invalid envelope changes nothing; with another Run's envelope it fails the Run closed. */
  lemma ForeignEnvelopeExactly(run: Run, rep: Report)
    requires run.lifecycle.Some? && run.formal && rep.runMatches && rep.state !in {"STOPPED_BY_GATE", "BUDGET_EXCEEDED"}
    ensures !rep.envelopeValid ==> Apply(run, SyncStep(rep)) == run && Sync(run, rep) == Err(EnvelopeInvalid)
    ensures rep.envelopeValid && !rep.handleMatches ==>
              var file := Apply(run, SyncStep(rep));
              if PhaseOf(run) == FailedClosed || FailedClosed in Successors(PhaseOf(run)) then ShutWith(run, file, None)
              else file == run
  {
    hide FailClosed, Project, Successors;
    FailClosedExactly(run, "FORMAL_ENVELOPE_HANDLE_MISMATCH", Aggregator, None);
  }

  /** The phases from which a Run cannot fail closed. */
  const NEVER_CLOSING := {Uploaded, CodeOnlyPass, Approved, Blocked, Returned, Released}

  /**
   * A poll of a V0.2 Run that reports the open gate, but leaves the Run without a
   * DataPass or cannot build one, shuts the Run; where the phase forbids it the
   * file stays.
   */
  lemma MissingDatapassExactly(run: Run, rep: Report)
    requires run.lifecycle.Some? && GateHolds(run) && run.formal && Bound(run, rep) && rep.state == "AWAITING_HUMAN"
    requires BuildRaises(run, rep) || PolledDatapass(run, rep).None?
    ensures
      var file := Apply(run, SyncStep(rep));
      if PhaseOf(run) in NEVER_CLOSING then file == run
      else ShutWith(run.(dispatched := true), file, None)
  {
    hide Sync, GateHolds, Decide, Admit, ObserveWorkers, Draft, FailClosed, Successors;
    var polled := PollConcludes(run, rep);
    ClosingPhases(PhaseOf(polled));
    FailClosedExactly(polled, "FORMAL_PROTOCOL_FAILED", Aggregator, None);
    FailClosedExactly(polled, "FORMAL_DATAPASS_MISSING", Aggregator, None);
  }

  // ----- dispatch

  /** An undecided Run takes a transition to the phase of a raw state exactly if the table has it. */
  lemma PlainTransitionExactly(run: Run, rawState: string, actor: Actor)
    requires run.lifecycle.Some? && !Decided(run.gate)
    requires forall i :: 0 <= i < |rawState| ==> rawState[i] == '_' || 'A' <= rawState[i] <= 'Z'
    ensures
      var r := Transition(run, rawState, None, actor);
      && (r.Ok? <==> PhaseOfRaw(rawState) == PhaseOf(run) || PhaseOfRaw(rawState) in Successors(PhaseOf(run)))
      && (r.Ok? ==> MovedTo(run, r, PhaseOfRaw(rawState)))
  {
    hide PhaseForState, PhaseOfRaw, Successors;
    PlainPhase(rawState, run.gate);
  }

  /** The Run with another state, perhaps dispatched, and its phase moved. */
  predicate RestatedTo(run: Run, r: Run, state: string, dispatched: bool, phase: Phase) {
    && r.lifecycle.Some? && PhaseOf(r) == phase
    && r == run.(state := state, dispatched := dispatched, lifecycle := r.lifecycle)
  }

  /** An undecided Run is attached exactly when the report is its own and it is ready or dispatched already. */
  lemma AttachExactly(run: Run, runMatches: bool)
    requires run.lifecycle.Some? && !Decided(run.gate)
    ensures
      var file := Apply(run, AttachStep(runMatches));
      if runMatches && PhaseOf(run) in {ReadyForDispatch, Dispatched} then
        RestatedTo(run, file, "AGENTTEAMS_SUBMITTED", true, Dispatched) && Logged(run, file, "AGENTTEAMS_SUBMITTED", Adapter)
      else file == run && Attach(run, runMatches).Err?
  {
    hide Transition, PhaseOfRaw;
    RawPhases();
    if Attach(run, runMatches).Ok? {
      TransitionLogs(run.(state := "AGENTTEAMS_SUBMITTED", dispatched := true), "AGENTTEAMS_SUBMITTED", None, Adapter);
    }
    PlainTransitionExactly(run.(state := "AGENTTEAMS_SUBMITTED", dispatched := true), "AGENTTEAMS_SUBMITTED", Adapter);
  }

  lemma ClosedRaw()
    ensures PhaseOfRaw("AGENTTEAMS_DISPATCH_FAILED") == FailedClosed == PhaseOfRaw("DISPATCH_GUARDED")
  {
  }

  /** A dispatch that failed or was held back closes an undecided Run whose phase allows it, and says so in its state. */
  lemma FailedDispatchExactly(run: Run)
    requires run.lifecycle.Some? && !Decided(run.gate)
    ensures
      var failed, held := Apply(run, DispatchFailureStep), Apply(run, DispatchGuardStep);
      if PhaseOf(run) in NEVER_CLOSING then failed == run == held
      else
        && RestatedTo(run, failed, "AGENTTEAMS_DISPATCH_FAILED", run.dispatched, FailedClosed)
        && RestatedTo(run, held, "DISPATCH_GUARDED", run.dispatched, FailedClosed)
        && Logged(run, failed, "AGENTTEAMS_DISPATCH_FAILED", Adapter) && Logged(run, held, "DISPATCH_GUARDED", TokenGuard)
  {
    hide Transition, RestatedTo, NEVER_CLOSING, Logged;
    ClosedRaw();
    ClosingTransition(run, "AGENTTEAMS_DISPATCH_FAILED", Adapter);
    ClosingTransition(run, "DISPATCH_GUARDED", TokenGuard);
  }

  lemma ClosingTransition(run: Run, state: string, actor: Actor)
    requires run.lifecycle.Some? && !Decided(run.gate) && PhaseOfRaw(state) == FailedClosed
    requires forall i :: 0 <= i < |state| ==> state[i] == '_' || 'A' <= state[i] <= 'Z'
    ensures
      var r := Transition(run.(state := state), state, None, actor);
      if PhaseOf(run) in NEVER_CLOSING then r.Err?
      else r.Ok? && RestatedTo(run, r.value, state, run.dispatched, FailedClosed) && Logged(run, r.value, state, actor)
  {
    hide Transition, PhaseOfRaw, Successors;
    ClosingPhases(PhaseOf(run));
    PlainTransitionExactly(run.(state := state), state, actor);
    if Transition(run.(state := state), state, None, actor).Ok? {
      TransitionLogs(run.(state := state), state, None, actor);
    }
  }

  /** An operator's request queues a Run that was never dispatched for want of a runtime, and changes no other. */
  lemma DispatchRequestExactly(run: Run)
    requires run.lifecycle.Some?
    ensures
      var file := Apply(run, DispatchRequestStep);
      if !run.dispatched && run.state == "RUNTIME_UNAVAILABLE" && PhaseOf(run) in {Routed, FailedClosed, CodeOnlyPass, ReadyForDispatch}
      then
        RestatedTo(run, file, "DISPATCH_GUARDED", false, ReadyForDispatch) && Logged(run, file, "READY_FOR_AGENTTEAMS", Operator)
      else file == run
  {
    hide PhaseForState;
  }

  // ----- recovery

  /** Where a recovered Run stands in the end. */
  function Recovered(p: Phase): Phase {
    if p in {ReadyForDispatch, Dispatched, FailedClosed, WorkersRunning, DatapassDrafted} then AwaitingHuman else p
  }

  lemma ReopenReaches(run: Run)
    requires run.lifecycle.Some? && run.gate == Awaiting
    ensures MovedTo(run, Reopen(run), Recovered(PhaseOf(run)))
  {
    hide Transition, PhaseOfRaw;
    RawPhases();
    var seen := run;
    if PhaseOf(run) == ReadyForDispatch {
      PlainTransition(run, "AGENTTEAMS_SUBMITTED", Recovery);
      seen := Transition(run, "AGENTTEAMS_SUBMITTED", None, Recovery).value;
    }
    var active := seen;
    if PhaseOf(seen) in {Dispatched, FailedClosed} {
      PlainTransition(seen, "ACTIVE", Recovery);
      active := Transition(seen, "ACTIVE", None, Recovery).value;
    }
    var drafted := active;
    if PhaseOf(active) == WorkersRunning {
      WantedTransition(active, "COMPLETED", DatapassDrafted, Recovery);
      drafted := Transition(active, "COMPLETED", Some(DatapassDrafted), Recovery).value;
    }
    if PhaseOf(drafted) == DatapassDrafted {
      PlainTransition(drafted, "AWAITING_HUMAN", Recovery);
    }
  }

  /**
   * Recovery opens the gate exactly for a Run without DataPass whose plan is
   * complete and whose Leader's event is on file, with the DataPass built or
   * projected for it, and walks every Run under way to AWAITING_HUMAN; a V0.2 Run
   * whose DataPass cannot be built is shut instead; any other Run stays as it is.
   */
  lemma RecoveryExactly(run: Run, ev: Evidence)
    requires run.lifecycle.Some?
    ensures
      var file := Apply(run, RecoverStep(ev));
      if run.datapass.Some? || !ev.planComplete || !ev.leaderEvent then file == run
      else if run.formal && ev.built.None? then
        file == run || ShutWith(run, file, None)
      else
        && file.lifecycle.Some? && PhaseOf(file) == Recovered(PhaseOf(run))
        && file == run.(datapass := if run.formal then ev.built else Some(ev.legacy), state := "AWAITING_HUMAN",
                        gate := Awaiting, lifecycle := file.lifecycle)
  {
    hide Reopen, FailClosed;
    FailClosedExactly(run, "FORMAL_RECOVERY_FAILED", Recovery, None);
    ReopenReaches(run.(datapass := if run.formal then ev.built else Some(ev.legacy), state := "AWAITING_HUMAN", gate := Awaiting));
  }

  // ----- the tables, read the other way

  /** The phases from which a phase may be entered. */
  function Predecessors(p: Phase): set<Phase> {
    match p
    case Uploaded => {}
    case Prechecked => {Uploaded}
    case Routed => {Prechecked}
    case ReadyForDispatch => {Routed, FailedClosed, CodeOnlyPass}
    case Dispatched => {ReadyForDispatch}
    case WorkersRunning => {Dispatched, FailedClosed}
    case DatapassDrafted => {Dispatched, WorkersRunning, FailedClosed}
    case AwaitingHuman => {Dispatched, WorkersRunning, DatapassDrafted, FailedClosed}
    case FailedClosed => {Prechecked, Routed, ReadyForDispatch, Dispatched, WorkersRunning, DatapassDrafted, AwaitingHuman}
    case CodeOnlyPass => {Routed}
    case Approved => {AwaitingHuman}
    case Blocked => {Routed, AwaitingHuman}
    case Returned => {Routed, AwaitingHuman}
    case Released => {CodeOnlyPass, Approved}
  }

  lemma EdgesExactly(p: Phase, q: Phase)
    ensures q in Successors(p) <==> p in Predecessors(q)
  {
  }

  /** The raw states that stand for a phase; every other raw state fails closed. */
  function RawStates(p: Phase): set<string> {
    match p
    case Routed => {"ROUTING"}
    case ReadyForDispatch => {"READY_FOR_AGENTTEAMS"}
    case CodeOnlyPass => {"CODE_ONLY_PRECHECK"}
    case Blocked => {"REJECT_AT_INTAKE"}
    case Returned => {"NEEDS_EVIDENCE"}
    case Dispatched => {"SUBMITTED", "AGENTTEAMS_SUBMITTED"}
    case WorkersRunning => {"RUNNING", "ACTIVE"}
    case AwaitingHuman => {"AWAITING_HUMAN"}
    case DatapassDrafted => {"COMPLETED"}
    case _ => {}
  }

  lemma RawStatesExactly(state: string, p: Phase)
    ensures p != FailedClosed ==> (PhaseOfRaw(state) == p <==> state in RawStates(p))
  {
  }

  // ----- refusals

  /** Why a poll of a Run raises before it looks at the phase. */
  lemma PollRefusals(run: Run, rep: Report)
    requires run.lifecycle.Some?
    ensures
      var r := Sync(run, rep);
      && (r == Err(RunMismatch) <==> !rep.runMatches)
      && (r == Err(StopRecordMissing) <==>
            rep.runMatches && rep.state in {"STOPPED_BY_GATE", "BUDGET_EXCEEDED"} && rep.stopRecord.None?)
      && (r == Err(EnvelopeInvalid) <==>
            rep.runMatches && rep.state !in {"STOPPED_BY_GATE", "BUDGET_EXCEEDED"} && run.formal && !rep.envelopeValid)
  {
    hide Admit, ObserveWorkers, Draft, Conclude, FailClosed, Stop, OPEN_STATES;
    if rep.stopRecord.Some? {
      StopRefusals(run, rep.stopRecord.value);
    }
    ProjectRefusals(run, rep);
    ClosedRefusals(run, "FORMAL_ENVELOPE_HANDLE_MISMATCH", Aggregator, None);
  }

  lemma ClosedRefusals(run: Run, rawState: string, actor: Actor, datapass: Option<Datapass>)
    requires run.lifecycle.Some?
    ensures
      var r := FailClosed(run, rawState, actor, datapass);
      r.Err? ==> r.error == TransitionRefused
  {
    hide PhaseForState, Move;
  }

  lemma StepRefusals(run: Run, phases: set<Phase>, rawState: string, wanted: Option<Phase>, actor: Actor)
    requires run.lifecycle.Some?
    ensures
      var r := TransitionFrom(run, phases, rawState, wanted, actor);
      r.Err? ==> r.error == TransitionRefused
  {
    hide PhaseForState, Move;
  }

  lemma RuntimeRefusals(run: Run, state: string, artifacts: bool)
    requires run.lifecycle.Some?
    ensures Admit(run, state).Err? ==> Admit(run, state).error == TransitionRefused
    ensures ObserveWorkers(run, artifacts).Err? ==> ObserveWorkers(run, artifacts).error == TransitionRefused
    ensures Draft(run).Err? ==> Draft(run).error == TransitionRefused
  {
    hide TransitionFrom;
    forall r: Run, phases: set<Phase>, rawState, wanted, actor | r.lifecycle.Some?
      ensures TransitionFrom(r, phases, rawState, wanted, actor).Err? ==> TransitionFrom(r, phases, rawState, wanted, actor).error == TransitionRefused
    {
      StepRefusals(r, phases, rawState, wanted, actor);
    }
  }

  lemma ConcludeRefusals(run: Run, rep: Report)
    requires run.lifecycle.Some?
    ensures Conclude(run, rep).Err? ==> Conclude(run, rep).error == TransitionRefused
  {
    hide FailClosed, Decide, OpenGate;
    ClosedRefusals(run, "FORMAL_DATAPASS_MISSING", Aggregator, None);
    DecideRefusals(run, if rep.decision.Some? then rep.decision.value else "");
  }

  lemma DecideRefusals(run: Run, decision: string)
    requires run.lifecycle.Some?
    ensures Decide(run, decision).Err? ==> Decide(run, decision).error == TransitionRefused
    ensures OpenGate(run).Err? ==> OpenGate(run).error == TransitionRefused
  {
    hide PhaseForState, Move;
  }

  lemma PartRefusals(run: Run, state: string, artifacts: bool, rep: Report)
    requires run.lifecycle.Some?
    ensures Admit(run, state).Err? ==> Admit(run, state).error == TransitionRefused
    ensures ObserveWorkers(run, artifacts).Err? ==> ObserveWorkers(run, artifacts).error == TransitionRefused
    ensures Draft(run).Err? ==> Draft(run).error == TransitionRefused
    ensures Conclude(run, rep).Err? ==> Conclude(run, rep).error == TransitionRefused
  {
    hide *;
    RuntimeRefusals(run, state, artifacts);
    ConcludeRefusals(run, rep);
  }

  lemma ProjectRefusals(run: Run, rep: Report)
    requires run.lifecycle.Some?
    ensures
      var r := Project(run, rep);
      r.Err? ==> r.error == TransitionRefused
  {
    hide Admit, ObserveWorkers, Draft, Conclude, FailClosed, OPEN_STATES;
    var polled := run.(state := rep.state, dispatched := true);
    PartRefusals(polled, rep.state, rep.artifacts, rep);
    var admitted := Admit(polled, rep.state);
    if admitted.Ok? {
      PartRefusals(admitted.value, rep.state, rep.artifacts, rep);
      var observed := ObserveWorkers(admitted.value, rep.artifacts);
      if observed.Ok? {
        PartRefusals(observed.value, rep.state, rep.artifacts, rep);
        ClosedRefusals(observed.value, "FORMAL_PROTOCOL_FAILED", Aggregator, None);
        var with := observed.value.(datapass := if observed.value.formal then rep.built else Some(rep.legacy));
        PartRefusals(with, rep.state, rep.artifacts, rep);
        if Draft(with).Ok? {
          PartRefusals(Draft(with).value, rep.state, rep.artifacts, rep);
        }
      }
    }
  }

  /** Why a stop is refused: its record, the Run it names, a decision already taken, or the phase. */
  lemma StopRefusals(run: Run, record: StopLedger.Record)
    requires run.lifecycle.Some?
    ensures
      var r := Stop(run, record);
      && (r == Err(StopRecordInvalid) <==> StopLedger.RecordFault(record).Some?)
      && (r == Err(StopRunMismatch) <==> StopLedger.RecordFault(record).None? && record.body.runId != run.runId)
      && (r == Err(AlreadyDecided) <==>
            StopLedger.RecordFault(record).None? && record.body.runId == run.runId && Decided(run.gate) && !StoppedBy(run, record))
      && (r.Err? ==> r.error in {StopRecordInvalid, StopRunMismatch, AlreadyDecided, TransitionRefused})
  {
    hide StopLedger.EvidenceFault, StopLedger.UsageFault, PhaseForState, Successors;
  }

  /** A recovery raises over a DataPass that no longer validates. */
  lemma RecoveryRefusals(run: Run, ev: Evidence)
    requires run.lifecycle.Some?
    ensures Recover(run, ev) == Err(DatapassInvalid) <==> run.datapass.Some? && run.datapass.value.formal && !ev.datapassValid
  {
    hide Reopen, FailClosed;
    ClosedRefusals(run, "FORMAL_RECOVERY_FAILED", Recovery, None);
    ReopenReaches(run.(datapass := if run.formal then ev.built else Some(ev.legacy), state := "AWAITING_HUMAN", gate := Awaiting));
  }
}
