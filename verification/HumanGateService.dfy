/**
 * The calls that rewrite a Run file, as they run: each reads the file, changes
 * its copy step by step, and writes it back at the end unless it raised.
 */
module HumanGateService {
  import opened Basics
  import opened RunLifecycle
  import opened HumanGate
  import StopLedger

  class RunFile {
    var file: Run

    constructor (run: Run)
      ensures file == run
    {
      file := run;
    }

    /** Reads the Run; one without a lifecycle gets its projected history on file. */
    method GetRun() returns (run: Run)
      modifies this
      ensures run == Loaded(old(file)) && file == run
    {
      run := file;
      if run.lifecycle.None? {
        run := run.(lifecycle := Some(Bootstrap(run.state, GateText(run.gate), Migration)));
        file := run;
      }
    }

    /** "runMatches" says that the report carries this Run's id. */
    method AttachAgentTeams(runMatches: bool) returns (r: Reply<Run>)
      modifies this
      ensures r == Attach(Loaded(old(file)), runMatches) && file == Apply(old(file), AttachStep(runMatches))
    {
      hide Transition, Bootstrap;
      var run := GetRun();
      if !runMatches {
        return Err(RunMismatch);
      }
      run := run.(dispatched := true);
      run := run.(state := "AGENTTEAMS_SUBMITTED");
      r := Transition(run, run.state, None, Adapter);
      if r.Ok? {
        file := r.value;
      }
    }

    method RequestDispatch() returns (r: Reply<Run>)
      modifies this
      ensures r == HumanGate.RequestDispatch(Loaded(old(file))) && file == Apply(old(file), DispatchRequestStep)
    {
      hide Transition, Bootstrap;
      var run := GetRun();
      if run.dispatched {
        return Ok(run);
      }
      if run.state == "RUNTIME_UNAVAILABLE" {
        var moved := Transition(run, "READY_FOR_AGENTTEAMS", Some(ReadyForDispatch), Operator);
        if moved.Err? {
          return moved;
        }
        run := moved.value.(state := "DISPATCH_GUARDED");
      }
      file := run;
      return Ok(run);
    }

    method RecordEmergencyStop(record: StopLedger.Record) returns (r: Reply<Run>)
      modifies this
      ensures r == Stop(Loaded(old(file)), record) && file == Apply(old(file), StopStep(record))
    {
      if StopLedger.RecordFault(record).Some? {
        return Err(StopRecordInvalid);
      }
      if record.body.runId != file.runId {
        return Err(StopRunMismatch);
      }
      var run := GetRun();
      var terminal := StateOf(record.body.terminal);
      if run.stop == Some(record.sha) && run.state == terminal && PhaseOf(run) == FailedClosed {
        return Ok(run);
      }
      if Decided(run.gate) {
        return Err(AlreadyDecided);
      }
      run := run.(stop := Some(record.sha));
      run := run.(state := terminal);
      if PhaseOf(run) != FailedClosed {
        var moved := Transition(run, run.state, Some(FailedClosed), Named(record.body.actor));
        if moved.Err? {
          return moved;
        }
        run := moved.value;
      }
      file := run;
      return Ok(run);
    }

    /** The part of a poll up to the aggregation: queue admission, dispatch and observed Workers. */
    method FollowRuntime(polled: Run, rep: Report) returns (r: Reply<Run>)
      requires polled.lifecycle.Some?
      ensures r == match Admit(polled, rep.state)
                   case Err(reason) => Err(reason)
                   case Ok(admitted) => ObserveWorkers(admitted, rep.artifacts)
      ensures r.Ok? ==> r.value.lifecycle.Some?
    {
      hide Transition, OPEN_STATES;
      var run := polled;
      if PhaseOf(run) == FailedClosed && rep.state in OPEN_STATES {
        var moved := Transition(run, "READY_FOR_AGENTTEAMS", Some(ReadyForDispatch), Supervisor);
        if moved.Err? {
          return moved;
        }
        run := moved.value;
      }
      if PhaseOf(run) == ReadyForDispatch {
        var moved := Transition(run, "AGENTTEAMS_SUBMITTED", None, Adapter);
        if moved.Err? {
          return moved;
        }
        run := moved.value;
      }
      if rep.artifacts && PhaseOf(run) in {Dispatched, FailedClosed} {
        return Transition(run, "ACTIVE", None, Runtime);
      }
      return Ok(run);
    }

    method SyncAgentTeams(rep: Report) returns (r: Reply<Run>)
      modifies this
      ensures r == Sync(Loaded(old(file)), rep) && file == Apply(old(file), SyncStep(rep))
    {
      hide Transition, StopLedger.RecordFault, Admit, ObserveWorkers, Bootstrap, OPEN_STATES;
      var run := GetRun();
      if !rep.runMatches {
        return Err(RunMismatch);
      }
      if rep.state in {"STOPPED_BY_GATE", "BUDGET_EXCEEDED"} {
        if rep.stopRecord.None? {
          return Err(StopRecordMissing);
        }
        r := RecordEmergencyStop(rep.stopRecord.value);
        return;
      }
      if run.formal && !rep.envelopeValid {
        return Err(EnvelopeInvalid);
      }
      if run.formal && !rep.handleMatches {
        r := FailClosed(run, "FORMAL_ENVELOPE_HANDLE_MISMATCH", Aggregator, None);
        if r.Ok? {
          file := r.value;
        }
        return;
      }
      run := run.(state := rep.state, dispatched := true);
      r := FollowRuntime(run, rep);
      if r.Err? {
        return;
      }
      run := r.value;
      if rep.recommended && rep.planComplete {
        if run.formal && rep.built.None? {
          r := FailClosed(run, "FORMAL_PROTOCOL_FAILED", Aggregator, None);
          if r.Ok? {
            file := r.value;
          }
          return;
        }
        run := run.(datapass := if run.formal then rep.built else Some(rep.legacy));
        r := Draft(run);
        if r.Err? {
          return;
        }
        run := r.value;
      }
      r := Conclude(run, rep);
      if r.Ok? {
        file := r.value;
      }
    }

    method RecoverFromPersistedMatrix(ev: Evidence) returns (r: Reply<Run>)
      modifies this
      ensures r == Recover(Loaded(old(file)), ev) && file == Apply(old(file), RecoverStep(ev))
    {
      hide Transition, Bootstrap, Reopen, FailClosed;
      var run := GetRun();
      if run.datapass.Some? {
        if run.datapass.value.formal && !ev.datapassValid {
          return Err(DatapassInvalid);
        }
        return Ok(run);
      }
      if !ev.planComplete || !ev.leaderEvent {
        return Ok(run);
      }
      if run.formal && ev.built.None? {
        r := FailClosed(run, "FORMAL_RECOVERY_FAILED", Recovery, None);
      } else {
        run := run.(datapass := if run.formal then ev.built else Some(ev.legacy));
        run := run.(state := "AWAITING_HUMAN", gate := Awaiting);
        r := Reopen(run);
      }
      if r.Ok? {
        file := r.value;
      }
    }
  }
}
