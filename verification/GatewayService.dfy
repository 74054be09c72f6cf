/**
 * The gateway and its control plane as they run: an object whose fields are the
 * files under the control root.  Each call is one critical section and does to
 * those files exactly what the function of Gateway named in its contract says.
 */
module GatewayService {
  import opened Basics
  import opened MapSums
  import opened Gateway

  class ControlRoot {
    var binding: Option<Sealed<Binding>>
    var baseline: Option<Sealed<Baseline>>
    var ledger: Option<LedgerFile>
    var archive: set<LedgerFile>

    function Contents(): Files
      reads this
    {
      Files(binding, baseline, ledger, archive)
    }

    constructor ()
      ensures Contents() == Files(None, None, None, {})
    {
      binding, baseline, ledger, archive := None, None, None, {};
    }

    /** Adds up the open reservations, whatever order the map yields them in. */
    static method TotalExposure(reservations: map<ReservationId, Reservation>) returns (total: nat)
      ensures total == Reserved(reservations)
    {
      total := 0;
      var left := reservations;
      while left != map[]
        invariant left.Keys <= reservations.Keys
        invariant forall id :: id in left ==> left[id] == reservations[id]
        invariant total + Reserved(left) == Reserved(reservations)
        decreases |left|
      {
        var id :| id in left;
        SumWithout(Exposures(left), id);
        assert Exposures(left - {id}) == Exposures(left) - {id};
        total := total + left[id].exposure;
        left := left - {id};
      }
    }

    /** Rewrites the two output limits of a request before it is forwarded. */
    static method EnforceOutputCap(body: RequestBody, cap: int) returns (r: Reply<Forwarded>)
      ensures r == ForwardedBody(body, cap)
    {
      if cap <= 0 {
        return Err(OutputCapInvalid);
      }
      if body.UnreadableBody? {
        return Err(RequestUnreadable);
      }
      if body.NotAnObject? {
        return Err(RequestNotObject);
      }
      var limits := [body.maxTokens, body.maxCompletionTokens];
      var declared: Option<int> := None;
      var i := 0;
      while i < 2
        invariant 0 <= i <= 2 && |limits| == 2
        invariant limits[0] == if i > 0 then Capped(body.maxTokens, cap) else body.maxTokens
        invariant limits[1] == if i > 1 then Capped(body.maxCompletionTokens, cap) else body.maxCompletionTokens
        invariant i > 0 ==> body.maxTokens.Value? ==> body.maxTokens.n >= 0
        invariant i > 1 ==> body.maxCompletionTokens.Value? ==> body.maxCompletionTokens.n >= 0
        invariant declared.Some? <==> (i > 0 && body.maxTokens.Value?) || (i > 1 && body.maxCompletionTokens.Value?)
        invariant declared.Some? ==>
                    declared.value == Larger(if i > 0 then body.maxTokens else Null,
                                             Larger(if i > 1 then body.maxCompletionTokens else Null, 0))
      {
        if limits[i].Value? {
          if limits[i].n < 0 {
            return Err(RequestOutputLimitNegative);
          }
          declared := Some(if declared.Some? then Larger(limits[i], declared.value) else limits[i].n);
          limits := limits[i := Capped(limits[i], cap)];
        }
        i := i + 1;
      }
      if declared.None? {
        return Ok(Forwarded(Value(cap), limits[1], cap));
      }
      return Ok(Forwarded(limits[0], limits[1], if declared.value > cap then cap else declared.value));
    }

    method Authorize(req: ModelRequest, now: int, id: ReservationId) returns (r: Reply<Call>)
      modifies this`ledger
      ensures (Contents(), r) == Gateway.Authorize(old(Contents()), req, now, id)
    {
      var active := ActiveBinding(Contents(), now);
      if active.Err? {
        return Err(active.error);
      }
      var b := active.value;
      var fault := RequestFault(b, req);
      if fault.Some? {
        return Err(fault.value);
      }
      var read := ReadLedger(Contents(), b.runId, now);
      if read.Err? {
        return Err(read.error);
      }
      var l := read.value;
      if l.attempts >= b.maxCalls {
        return Err(CallCountFuse);
      }
      var reserved := TotalExposure(l.reservations);
      if l.inFlight != reserved {
        return Err(ReservationTotalMismatch);
      }
      if l.spent.total >= b.cap {
        return Err(TokenFuse);
      }
      var estimate := RequestExposure(req.body, b.maxOutput);
      if estimate.Err? {
        return Err(estimate.error);
      }
      if l.spent.total + reserved + estimate.value > b.cap {
        return Err(ExposureExceedsCap);
      }
      l := l.(reservations := l.reservations[id := Reservation(req.actor, req.task, estimate.value)]);
      l := l.(attempts := l.attempts + 1, inFlight := reserved + estimate.value, updatedAt := now);
      ledger := Some(SealLedger(l));
      return Ok(Call(id, b, req.actor, req.task, estimate.value));
    }

    method ReleaseReservation(call: Call, now: int) returns (r: Reply<Ledger>)
      ensures r == Released(Contents(), call, now)
    {
      var read := ReadLedger(Contents(), call.binding.runId, now);
      if read.Err? {
        return Err(read.error);
      }
      var l := read.value;
      if call.id !in l.reservations {
        return Err(ReservationNotFound);
      }
      if l.reservations[call.id].exposure != call.exposure {
        return Err(ReservationExposureMismatch);
      }
      l := l.(reservations := l.reservations - {call.id});
      var inFlight := TotalExposure(l.reservations);
      return Ok(l.(inFlight := inFlight));
    }

    method RecordProviderResult(call: Call, reported: seq<RawUsage>, now: int) returns (r: Reply<Usage>)
      modifies this`ledger
      ensures (Contents(), r) == Gateway.RecordResult(old(Contents()), call, reported, now)
    {
      var released := ReleaseReservation(call, now);
      if released.Err? {
        return Err(released.error);
      }
      var l := released.value;
      var parsed := ParseUsage(reported);
      if parsed.None? {
        l := Appended(l, call, UsageUnreadable, now);
        ledger := Some(SealLedger(l.(status := FuseTripped(ProviderUsageUnreadable))));
        return Err(UsageNotReadable);
      }
      l := Appended(l, call, UsageRecorded(parsed.value), now);
      l := l.(spent := Plus(l.spent, parsed.value));
      l := l.(cumulative := Plus(l.baseline, l.spent));
      if l.spent.total > call.binding.cap {
        l := l.(status := FuseTripped(CapExceededAfterCall));
      }
      ledger := Some(SealLedger(l));
      if l.status.FuseTripped? {
        return Err(CapExceeded);
      }
      return Ok(parsed.value);
    }

    method RecordTransportFailure(call: Call, why: string, now: int) returns (r: Reply<()>)
      modifies this`ledger
      ensures (Contents(), r) == Gateway.RecordFailure(old(Contents()), call, why, now)
    {
      var released := ReleaseReservation(call, now);
      if released.Err? {
        return Err(released.error);
      }
      var l := Appended(released.value, call, TransportFailure(why), now);
      ledger := Some(SealLedger(l.(status := FuseTripped(UpstreamTransportFailure))));
      return Ok(());
    }

    /** "stages" counts the publication stages that happen before the process stops. */
    method PrepareRun(p: RunRequest, now: int, stages: nat) returns (r: Reply<Binding>)
      modifies this
      ensures (Contents(), r) == Gateway.PrepareRun(old(Contents()), p, now, stages)
    {
      var fault := RunRequestFault(p);
      if fault.Some? {
        return Err(fault.value);
      }
      if binding.Some? {
        var existing := binding.value;
        if !Intact(existing) {
          return Err(BindingHashMismatch);
        }
        if existing.body.state == Active && existing.body.runId != p.runId {
          return Err(BoundToOtherRun);
        }
        if existing.body.state == Active {
          return Ok(existing.body);
        }
        if existing.body.runId == p.runId {
          return Err(RunAlreadyClosed);
        }
      }
      if ledger.Some? && ledger.value in archive {
        return Err(ArchiveCollision);
      }
      if stages == 0 {
        return Err(Stopped);
      }
      if ledger.Some? {
        archive := archive + {ledger.value};
        ledger := None;
      }
      if stages == 1 {
        return Err(Stopped);
      }
      baseline := Some(Seal(Baseline(p.runId, p.totals)));
      if !LimitsPositive(p) {
        return Err(LimitsNotPositive);
      }
      if stages == 2 {
        return Err(Stopped);
      }
      var b := NewBinding(p, now);
      binding := Some(Seal(b));
      return Ok(b);
    }

    method CloseRun(runId: string, terminal: string, now: int) returns (r: Reply<Binding>)
      modifies this`binding
      ensures (Contents(), r) == Gateway.CloseRun(old(Contents()), runId, terminal, now)
    {
      if binding.None? {
        return Err(BindingUnreadable);
      }
      var b := binding.value.body;
      if b.runId != runId {
        return Err(CloseRunMismatch);
      }
      if !Intact(binding.value) {
        return Err(BindingHashMismatch);
      }
      if terminal == "" {
        return Err(TerminalStateRequired);
      }
      if b.state.Closed? {
        if b.state.terminal != terminal {
          return Err(ClosedDifferently);
        }
        return Ok(b);
      }
      b := b.(state := Closed(terminal, now));
      binding := Some(Seal(b));
      return Ok(b);
    }

    method RearmAfterTransportFailure(runId: string, now: int, stages: nat) returns (r: Reply<RearmEvent>)
      modifies this`binding, this`ledger
      ensures (Contents(), r) == Gateway.Rearm(old(Contents()), runId, now, stages)
    {
      var active := SameActiveRun(Contents(), runId);
      if active.Err? {
        return Err(active.error);
      }
      var fault := RearmFault(Contents(), runId);
      if fault.Some? {
        return Err(fault.value);
      }
      var b, l := active.value, ledger.value.body;
      var released := l.reservations;
      var window := TransportWindow(b.expiresAt, now, now + WINDOW);
      if stages == 0 {
        return Err(Stopped);
      }
      b := b.(expiresAt := window.newExpiry);
      b := b.(windows := b.windows + [window]);
      binding := Some(Seal(b));
      if stages == 1 {
        return Err(Stopped);
      }
      var event := RearmEvent(ledger.value.sha, l.attempts, l.spent, released, window, now);
      l := l.(rearms := l.rearms + [event], status := Running);
      l := l.(reservations := map[], inFlight := 0, updatedAt := now);
      ledger := Some(SealLedger(l));
      return Ok(event);
    }

    method RearmExpiredBeforeFirstCall(runId: string, now: int) returns (r: Reply<WindowEvent>)
      modifies this`binding
      ensures (Contents(), r) == Gateway.RenewExpired(old(Contents()), runId, now)
    {
      var active := SameActiveRun(Contents(), runId);
      if active.Err? {
        return Err(active.error);
      }
      var b := active.value;
      if b.expiresAt > now {
        return Err(NotExpired);
      }
      if ledger.Some? {
        var l := ledger.value.body;
        if l.runId != runId {
          return Err(LedgerRunMismatch);
        }
        if l.attempts > 0 || l.spent.calls > 0 || l.spent.prompt > 0 || l.spent.completion > 0 || l.spent.total > 0 {
          return Err(UsageNotZero);
        }
      }
      var event := ExpiredWindow(b.expiresAt, now, now + WINDOW);
      b := b.(windows := b.windows + [event]);
      b := b.(expiresAt := event.newExpiry);
      binding := Some(Seal(b));
      return Ok(event);
    }

    method RotateActorIdentities(runId: string, next: Identities, now: int) returns (r: Reply<RotationEvent>)
      modifies this`binding
      ensures (Contents(), r) == Gateway.RotateIdentities(old(Contents()), runId, next, now)
    {
      var active := SameActiveRun(Contents(), runId);
      if active.Err? {
        return Err(active.error);
      }
      var b := active.value;
      if next.Keys != b.identities.Keys {
        return Err(ActorSetMismatch);
      }
      if ledger.Some? {
        var l := ledger.value.body;
        if l.runId != runId {
          return Err(LedgerRunMismatch);
        }
        if l.reservations != map[] || l.inFlight != 0 {
          return Err(RotationInFlight);
        }
      }
      var event := RotationEvent(Sha256(b.identities), Sha256(next), now);
      b := b.(identities := next);
      b := b.(rotations := b.rotations + [event]);
      binding := Some(Seal(b));
      return Ok(event);
    }

    method ExtendRecoveryWindow(runId: string, now: int) returns (r: Reply<WindowEvent>)
      modifies this`binding
      ensures (Contents(), r) == Gateway.ExtendWindow(old(Contents()), runId, now)
    {
      var active := SameActiveRun(Contents(), runId);
      if active.Err? {
        return Err(active.error);
      }
      var b := active.value;
      if |b.windows| >= MAX_WINDOWS {
        return Err(ExtensionLimitReached);
      }
      if ledger.None? {
        return Err(LedgerUnreadable);
      }
      var l := ledger.value.body;
      if l.runId != runId || l.status != Running {
        return Err(LedgerNotRunning);
      }
      if l.spent.calls >= b.maxCalls {
        return Err(CallCapReached);
      }
      if l.spent.total >= b.cap {
        return Err(TokenCapReached);
      }
      var event := RecoveryWindow(b.expiresAt, now, now + WINDOW, l.spent.calls, l.spent.total, |b.windows| + 1);
      b := b.(windows := b.windows + [event]);
      b := b.(expiresAt := event.newExpiry);
      binding := Some(Seal(b));
      return Ok(event);
    }

    method RaiseBudget(runId: string, cap: int, maxCalls: int, now: int) returns (r: Reply<BudgetEvent>)
      modifies this`binding
      ensures (Contents(), r) == Gateway.RaiseBudget(old(Contents()), runId, cap, maxCalls, now)
    {
      var active := SameActiveRun(Contents(), runId);
      if active.Err? {
        return Err(active.error);
      }
      var b := active.value;
      if cap < b.cap || maxCalls < b.maxCalls {
        return Err(BudgetCannotDecrease);
      }
      var event := BudgetEvent(b.cap, cap, b.maxCalls, maxCalls, now);
      b := b.(raises := b.raises + [event]);
      b := b.(cap := cap, maxCalls := maxCalls);
      binding := Some(Seal(b));
      return Ok(event);
    }
  }
}
