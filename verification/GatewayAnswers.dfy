/**
 * What the gateway and its control calls answer, in terms of what was asked and
 * what is on file.
 */
module GatewayAnswers {
  import opened Basics
  import opened Gateway
  import opened GatewayRuns
  import opened GatewayUsage

  // ----- settling

  /** The last usage object of the response says this usage, which adds up and has no negative field. */
  predicate ReadableAs(reported: seq<RawUsage>, u: Usage) {
    && reported != [] && Says(reported[|reported| - 1], u)
    && u.prompt >= 0 && u.completion >= 0 && u.total == u.prompt + u.completion && u.calls == 1
  }

  lemma ReadableExactly(reported: seq<RawUsage>, u: Usage)
    ensures ParseUsage(reported) == Some(u) <==> ReadableAs(reported, u)
  {
    hide Says;
    ParsesExactly(reported, u);
  }

  /** What a call is answered that has no reservation on a running ledger of its Run. */
  predicate Unsettled<T(==)>(f: Files, call: Call, answer: Reply<T>) {
    match f.ledger
    case None => answer == Err(if f.baseline.None? then BaselineUnreadable else ReservationNotFound)
    case Some(file) =>
      answer == Err(if file.body.runId != call.binding.runId then LedgerRunMismatch
                    else if file.body.status.FuseTripped? then FuseAlreadyTripped else ReservationNotFound)
  }

  lemma ReleasedExactly(w: World, id: ReservationId, now: int)
    requires Good(w) && id in w.calls
    ensures
      var r := Released(w.files, w.calls[id], now);
      if Settleable(w.files, id) then
        && w.files.ledger.Some? && r.Ok? && r.value.spent == w.files.ledger.value.body.spent
      else r.Err? && Unsettled(w.files, w.calls[id], r)
  {
    hide Accounted, Chained, BaselineFault, ActorFault, WithinCap;
  }

  lemma ReleasedAnswer(f: Files, call: Call, reported: seq<RawUsage>, why: string, now: int)
    ensures
      var released, result, failure := Released(f, call, now), RecordResult(f, call, reported, now).1, RecordFailure(f, call, why, now).1;
      && (released.Err? ==> result == Err(released.error) && failure == Err(released.error))
      && (released.Ok? ==>
            && failure == Ok(())
            && result == match ParseUsage(reported)
                         case None => Err(UsageNotReadable)
                         case Some(u) => if released.value.spent.total + u.total > call.binding.cap then Err(CapExceeded) else Ok(u))
  {
    hide Released, ParseUsage;
  }

  /**
   * What a returning call is answered, exactly.  With its reservation on a
   * running ledger: the usage that the response says, if the new total is within
   * the cap the call was let through under; an exceeded cap, if it is above;
   * unreadable usage, if the response says none.  Otherwise: why there was nothing
   * to settle.
   */
  lemma SettleAnswersExactly(w: World, id: ReservationId, reported: seq<RawUsage>, now: int)
    requires Good(w) && id in w.calls
    ensures
      var answer := RecordResult(w.files, w.calls[id], reported, now).1;
      if Settleable(w.files, id) then
        var total, cap := w.files.ledger.value.body.spent.total, w.calls[id].binding.cap;
        && (forall u :: answer == Ok(u) <==> ReadableAs(reported, u) && total + u.total <= cap)
        && (answer == Err(CapExceeded) <==> exists u :: ReadableAs(reported, u) && total + u.total > cap)
        && (answer == Err(UsageNotReadable) <==> forall u :: !ReadableAs(reported, u))
      else Unsettled(w.files, w.calls[id], answer)
  {
    hide Good, Released, ParseUsage, RecordResult, RecordFailure, ReadableAs;
    ReleasedExactly(w, id, now);
    ReleasedAnswer(w.files, w.calls[id], reported, "", now);
    forall u
      ensures ParseUsage(reported) == Some(u) <==> ReadableAs(reported, u)
    {
      ReadableExactly(reported, u);
    }
    var parsed := ParseUsage(reported);
    if parsed.Some? {
      assert ReadableAs(reported, parsed.value);
    }
  }

  /** A failed call is answered once its record is written, exactly when it holds its reservation on a running ledger. */
  lemma FailureAnswersExactly(w: World, id: ReservationId, why: string, now: int)
    requires Good(w) && id in w.calls
    ensures
      var answer := RecordFailure(w.files, w.calls[id], why, now).1;
      if Settleable(w.files, id) then answer == Ok(()) else Unsettled(w.files, w.calls[id], answer)
  {
    hide Good, Released, ParseUsage, RecordResult, RecordFailure;
    ReleasedExactly(w, id, now);
    ReleasedAnswer(w.files, w.calls[id], [], why, now);
  }

  // ----- letting a call through

  /** The estimate is the least number of tokens, and at least one, whose four octets each cover the body. */
  lemma InputTokensExactly(bytes: nat, tokens: nat)
    ensures InputTokens(bytes) == tokens <==> tokens >= 1 && 4 * tokens >= bytes && (tokens > 1 ==> 4 * (tokens - 1) < bytes)
  {
  }

  /** The output limit that counts: max_tokens where the key is there at all, max_completion_tokens otherwise. */
  predicate Declares(body: RequestBody, limit: Option<int>)
    requires body.Payload?
  {
    match limit
    case Some(n) => body.maxTokens == Value(n) || (body.maxTokens == Absent && body.maxCompletionTokens == Value(n))
    case None => body.maxTokens == Null || (body.maxTokens == Absent && !body.maxCompletionTokens.Value?)
  }

  lemma ExposureExactly(body: RequestBody, maxOutput: nat, exposure: nat)
    ensures RequestExposure(body, maxOutput) == Ok(exposure) <==>
              && body.Payload?
              && (|| (exists n :: n >= 0 && Declares(body, Some(n)) && exposure == InputTokens(body.bytes) + n)
                  || (Declares(body, None) && exposure == InputTokens(body.bytes) + maxOutput))
  {
    if body.Payload? {
      if body.maxTokens.Value? {
        assert Declares(body, Some(body.maxTokens.n));
      } else if body.maxCompletionTokens.Value? && body.maxTokens == Absent {
        assert Declares(body, Some(body.maxCompletionTokens.n));
      }
    }
  }

  /** What a request that is let through leaves behind: one more reservation in its name, and a call under the binding in force. */
  lemma GrantExactly(w: World, req: ModelRequest, now: int, id: ReservationId)
    requires Good(w) && id !in w.calls && Authorize(w.files, req, now, id).1.Ok?
    ensures
      var f', call := Authorize(w.files, req, now, id).0, Authorize(w.files, req, now, id).1.value;
      && w.files.binding.Some? && RequestExposure(req.body, w.files.binding.value.body.maxOutput) == Ok(call.exposure)
      && call == Call(id, w.files.binding.value.body, req.actor, req.task, call.exposure)
      && f' == w.files.(ledger := f'.ledger) && f'.ledger.Some?
      && var l := f'.ledger.value.body;
      && l.attempts == (if w.files.ledger.None? then 1 else w.files.ledger.value.body.attempts + 1)
      && l.reservations == (if w.files.ledger.None? then map[] else w.files.ledger.value.body.reservations)
                           [id := Reservation(req.actor, req.task, call.exposure)]
      && l.spent == (if w.files.ledger.None? then NO_USAGE else w.files.ledger.value.body.spent) && l.updatedAt == now
  {
    hide Accounted, Chained, BaselineFault, ActorFault, Backed, RequestFault, RequestExposure, WithinCap;
  }

  /** Which budget refuses an authentic request with a readable body, in this order. */
  lemma BudgetRefusesExactly(w: World, req: ModelRequest, now: int, id: ReservationId, exposure: nat)
    requires Good(w) && w.files.binding.Some?
    requires ActiveBinding(w.files, now).Ok? && RequestFault(w.files.binding.value.body, req).None?
    requires RequestExposure(req.body, w.files.binding.value.body.maxOutput) == Ok(exposure)
    ensures
      var b, l, answer := w.files.binding.value.body, StartingLedger(w.files, now), Authorize(w.files, req, now, id).1;
      && (answer == Err(FuseAlreadyTripped) <==> l.status != Running)
      && (answer == Err(CallCountFuse) <==> l.status == Running && l.attempts >= b.maxCalls)
      && (answer == Err(TokenFuse) <==> l.status == Running && l.attempts < b.maxCalls && l.spent.total >= b.cap)
      && (answer == Err(ExposureExceedsCap) <==>
            l.status == Running && l.attempts < b.maxCalls && l.spent.total < b.cap
            && l.spent.total + l.inFlight + exposure > b.cap)
      && (answer.Err? ==> Authorize(w.files, req, now, id).0 == w.files)
  {
    hide Chained, BaselineFault, ActorFault, Backed, RequestFault, RequestExposure;
    PublishedBaseline(w);
    StartIsGood(w, now);
  }

  lemma PublishedBaseline(w: World)
    requires Good(w) && w.files.binding.Some? && w.files.binding.value.body.state == Active
    ensures w.files.baseline.Some?
  {
  }

  // ----- a record names its call

  /** The record was written for this call. */
  predicate Names(r: Record, call: Call) {
    && r.body.runId == call.binding.runId && r.body.actor == call.actor && r.body.task == call.task
    && r.body.exposure == call.exposure
  }

  ghost predicate Named(r: Record, calls: map<ReservationId, Call>) {
    exists id :: id in calls && Names(r, calls[id])
  }

  ghost predicate AllNamed(records: seq<Record>, calls: map<ReservationId, Call>) {
    forall i :: 0 <= i < |records| ==> Named(records[i], calls)
  }

  ghost predicate RecordsNamed(f: Files, calls: map<ReservationId, Call>) {
    f.ledger.Some? ==> AllNamed(f.ledger.value.body.records, calls)
  }

  lemma ReturnNames(w: World, s: Step, w': World)
    requires Good(w) && (s.ResultStep? || s.FailureStep?) && Possible(w, s) && Moved(w, s, w') && RecordsNamed(w.files, w.calls)
    ensures RecordsNamed(w'.files, w'.calls)
  {
    hide Good, ParseUsage, Released, Names;
    if w.files.ledger.Some? && Released(w.files, w.calls[s.id], s.now).Ok? {
      AppendNames(w.files, w.calls[s.id], DecisionOf(s), s.now, w'.files.ledger.value.body);
      var records, records' := w.files.ledger.value.body.records, w'.files.ledger.value.body.records;
      forall i | 0 <= i < |records'|
        ensures Named(records'[i], w'.calls)
      {
        assert i < |records| ==> records'[i] == records[i];
      }
    }
  }

  /** What is recorded names the call, its decision and the time it came back. */
  lemma AppendNames(f: Files, call: Call, decision: Decision, now: int, l': Ledger)
    requires Settles(f, call, decision, now, l')
    ensures
      var records := f.ledger.value.body.records;
      && |l'.records| == |records| + 1 && records <= l'.records
      && var last := l'.records[|records|];
      && Names(last, call) && last.body.decision == decision && last.body.at == now == l'.updatedAt
  {
  }

  lemma AllNamedStays(records: seq<Record>, calls: map<ReservationId, Call>, calls': map<ReservationId, Call>)
    requires AllNamed(records, calls) && forall id :: id in calls ==> id in calls' && calls'[id] == calls[id]
    ensures AllNamed(records, calls')
  {
    hide Names;
    forall i | 0 <= i < |records|
      ensures Named(records[i], calls')
    {
      assert Named(records[i], calls);
      var id :| id in calls && Names(records[i], calls[id]);
      assert id in calls';
    }
  }

  lemma OtherNames(w: World, s: Step, w': World)
    requires Good(w) && !s.ResultStep? && !s.FailureStep? && Possible(w, s) && Moved(w, s, w') && RecordsNamed(w.files, w.calls)
    ensures RecordsNamed(w'.files, w'.calls)
  {
    hide Accounted, Chained, BaselineFault, ActorFault, Backed, WithinCap, AllNamed, Succeeds;
    NothingIsNamed(w'.calls);
    if w.files.ledger.Some? {
      AllNamedStays(w.files.ledger.value.body.records, w.calls, w'.calls);
    }
  }

  lemma NothingIsNamed(calls: map<ReservationId, Call>)
    ensures AllNamed([], calls)
  {
  }

  /** Over every history each record names the Run, actor, task and reservation of a call that was let through. */
  lemma {:induction false} RecordsNameTheirCalls(ws: seq<World>, steps: seq<Step>, i: nat)
    requires History(ws, steps) && ws[0] == EMPTY && i < |ws|
    ensures RecordsNamed(ws[i].files, ws[i].calls)
  {
    hide Good, Apply, Moved, Possible;
    if i > 0 {
      RecordsNameTheirCalls(ws, steps, i - 1);
      HistoryGood(ws, steps, i - 1);
      StepKeeps(ws[i - 1], steps[i - 1]);
      if steps[i - 1].ResultStep? || steps[i - 1].FailureStep? {
        ReturnNames(ws[i - 1], steps[i - 1], ws[i]);
      } else {
        OtherNames(ws[i - 1], steps[i - 1], ws[i]);
      }
    }
  }

  // ----- the control plane

  /** A Run may be asked for with an attested route, a dated baseline that adds up, and actors that each have a secret and a task of their own. */
  lemma RunRequestExactly(p: RunRequest)
    ensures RunRequestFault(p).None? <==>
              && p.routeAttested && p.runId != "" && p.baselineDated
              && p.totals.prompt >= 0 && p.totals.completion >= 0 && p.totals.calls >= 0
              && p.totals.total == p.totals.prompt + p.totals.completion
              && p.identities != map[] && p.tasks.Keys == p.identities.Keys
              && (forall actor :: actor in p.identities ==> actor != "" && p.identities[actor] != "" && p.tasks[actor] != "")
              && (forall actor, other :: actor in p.tasks && other in p.tasks && p.tasks[actor] == p.tasks[other] ==> actor == other)
  {
  }

  /** A new Run is published exactly for a sound request beside no active binding, none of the same Run, and no ledger archived before. */
  lemma PrepareAnswersExactly(w: World, p: RunRequest, now: int)
    requires Good(w)
    ensures
      var (f, answer) := PrepareRun(w.files, p, now, 3);
      && (answer.Ok? && f != w.files ==> f.binding == Some(Seal(answer.value)) && f.ledger.None?)
      && (RunRequestFault(p).None? && LimitsPositive(p) ==>
            (answer.Ok? <==>
               || w.files.binding.None?
               || (w.files.binding.value.body.state == Active && w.files.binding.value.body.runId == p.runId)
               || (w.files.binding.value.body.state != Active && w.files.binding.value.body.runId != p.runId
                   && (w.files.ledger.Some? ==> w.files.ledger.value !in w.files.archive))))
  {
    hide Accounted, Chained, BaselineFault, ActorFault, Backed, WithinCap, RunRequestFault, LimitsPositive;
  }

  /** The new Run's first request is served exactly to its own actors, with their secret and task, in time and within the limits asked for. */
  lemma PreparedRunServes(w: World, p: RunRequest, now: int, req: ModelRequest, later: int, id: ReservationId)
    requires Good(w) && PrepareRun(w.files, p, now, 3).1.Ok? && ExistingAnswer(w.files, p.runId).None?
    ensures Authorize(PrepareRun(w.files, p, now, 3).0, req, later, id).1.Ok? <==>
              && later < now + p.wallSeconds
              && req.runId == p.runId
              && req.actor in p.identities && p.identities[req.actor] == req.identity
              && p.tasks[req.actor] == req.task
              && RequestExposure(req.body, p.maxOutput).Ok? && RequestExposure(req.body, p.maxOutput).value <= p.cap
  {
    hide RequestExposure, Good, PrepareRun, Authorize, LimitsPositive;
    var f := PrepareRun(w.files, p, now, 3).0;
    var w' := w.(files := f);
    PreparedFiles(w.files, p, now);
    assert Good(w') by {
      assert Apply(w, PrepareStep(p, now, 3)) == w' by { PrepareApplies(w, p, now); }
      StepKeeps(w, PrepareStep(p, now, 3));
    }
    AuthorizeExactly(w', req, later, id);
    HashedHas(p.identities, req.actor, req.identity);
  }

  lemma PrepareApplies(w: World, p: RunRequest, now: int)
    ensures Apply(w, PrepareStep(p, now, 3)) == w.(files := PrepareRun(w.files, p, now, 3).0)
    ensures Possible(w, PrepareStep(p, now, 3))
  {
    hide PrepareRun;
  }

  lemma HashedHas(identities: map<string, string>, actor: string, identity: string)
    ensures actor in Hashed(identities) <==> actor in identities
    ensures actor in identities ==> (Hashed(identities)[actor] == Sha256(identity) <==> identities[actor] == identity)
  {
  }

  lemma PreparedFiles(f: Files, p: RunRequest, now: int)
    requires PrepareRun(f, p, now, 3).1.Ok? && ExistingAnswer(f, p.runId).None?
    ensures
      var f' := PrepareRun(f, p, now, 3).0;
      && f'.ledger.None? && f'.binding.Some? && p.tasks.Keys == p.identities.Keys
      && (forall actor :: actor in p.identities ==> p.identities[actor] != "")
      && var b := f'.binding.value.body;
      && b.runId == p.runId && b.state == Active && b.expiresAt == now + p.wallSeconds
      && b.cap == p.cap && b.maxCalls == p.maxCalls && b.maxOutput == p.maxOutput && b.maxOutput > 0
      && b.identities == Hashed(p.identities) && b.tasks == p.tasks
      && b.windows == [] && b.rotations == [] && b.raises == []
  {
    hide DistinctTasks, BlankTask;
  }

  /** A live binding of this Run. */
  predicate Live(f: Files, runId: string) {
    f.binding.Some? && f.binding.value.body.runId == runId && f.binding.value.body.state == Active
  }

  /**
   * Closing is accepted exactly for the Run on file and a named terminal state:
   * a live binding is closed with it, a closed one answers with its receipt if it
   * was closed with the same state, and nothing else of the binding changes.
   */
  lemma CloseExactly(w: World, runId: string, terminal: string, now: int)
    requires Good(w)
    ensures
      var (f, answer) := CloseRun(w.files, runId, terminal, now);
      && (answer.Ok? <==>
            && w.files.binding.Some? && w.files.binding.value.body.runId == runId && terminal != ""
            && (w.files.binding.value.body.state.Closed? ==> w.files.binding.value.body.state.terminal == terminal))
      && (answer.Ok? ==>
            && f == w.files.(binding := Some(Seal(answer.value)))
            && answer.value.state.Closed? && answer.value.state.terminal == terminal
            && answer.value == w.files.binding.value.body.(state := answer.value.state)
            && answer.value.state == (if Live(w.files, runId) then Closed(terminal, now) else w.files.binding.value.body.state)
            && forall again :: CloseRun(f, runId, terminal, again) == (f, answer))
      && (answer.Err? ==> f == w.files)
  {
    hide Accounted, Chained, BaselineFault, ActorFault, Backed, WithinCap;
  }

  /** An expired binding is renewed for fifteen minutes exactly while its Run has used nothing. */
  lemma RenewExactly(w: World, runId: string, now: int)
    requires Good(w)
    ensures
      var (f, answer) := RenewExpired(w.files, runId, now);
      && (answer.Ok? <==>
            && Live(w.files, runId) && w.files.binding.value.body.expiresAt <= now
            && (w.files.ledger.Some? ==> w.files.ledger.value.body.attempts == 0))
      && (answer.Ok? ==> f.binding.Some? && f.binding.value.body.expiresAt == now + 900 && f == w.files.(binding := f.binding)
                         && f.binding.value.body == w.files.binding.value.body.(expiresAt := now + 900,
                              windows := w.files.binding.value.body.windows + [answer.value]))
      && (answer.Err? ==> f == w.files)
  {
    hide Chained, BaselineFault, ActorFault, Backed;
    if w.files.ledger.Some? && w.files.ledger.value.body.attempts == 0 {
      NothingSpentYet(w.files.ledger.value.body);
    }
  }

  /** A ledger without attempts has no record, so its counters are zero. */
  lemma NothingSpentYet(l: Ledger)
    requires Accounted(l) && l.attempts == 0
    ensures l.records == [] && l.spent == NO_USAGE
  {
  }

  /** A recovery window of fifteen minutes is granted exactly to a live Run with fewer than three windows, a running ledger and budget left. */
  lemma ExtendExactly(w: World, runId: string, now: int)
    requires Good(w)
    ensures
      var (f, answer) := ExtendWindow(w.files, runId, now);
      && (answer.Ok? <==>
            && Live(w.files, runId) && |w.files.binding.value.body.windows| < 3 && w.files.ledger.Some?
            && var l, b := w.files.ledger.value.body, w.files.binding.value.body;
            && l.status == Running && l.spent.calls < b.maxCalls && l.spent.total < b.cap)
      && (answer.Ok? ==> f.binding.Some? && f == w.files.(binding := f.binding)
                         && f.binding.value.body == w.files.binding.value.body.(expiresAt := now + 900,
                              windows := w.files.binding.value.body.windows + [answer.value]))
      && (answer.Err? ==> f == w.files)
  {
    hide Accounted, Chained, BaselineFault, ActorFault, Backed, WithinCap;
  }

  /** Identities are rotated exactly for a live Run's own set of actors with nothing in flight; afterwards the new secret alone opens. */
  lemma RotateExactly(w: World, runId: string, next: Identities, now: int)
    requires Good(w)
    ensures
      var (f, answer) := RotateIdentities(w.files, runId, next, now);
      && (answer.Ok? <==>
            && Live(w.files, runId) && next.Keys == w.files.binding.value.body.identities.Keys
            && (w.files.ledger.Some? ==> w.files.ledger.value.body.reservations == map[]))
      && (answer.Ok? ==> f.binding.Some? && f == w.files.(binding := f.binding)
                         && f.binding.value.body == w.files.binding.value.body.(identities := next,
                              rotations := w.files.binding.value.body.rotations + [answer.value]))
      && (answer.Err? ==> f == w.files)
  {
    hide Chained, BaselineFault, ActorFault, Backed, WithinCap;
    assert Reserved(map[]) == 0;
  }

  /** A raise is accepted exactly for a live Run and limits that do not fall, and both limits are then the ones asked for. */
  lemma RaiseExactly(w: World, runId: string, cap: int, maxCalls: int, now: int)
    requires Good(w)
    ensures
      var (f, answer) := RaiseBudget(w.files, runId, cap, maxCalls, now);
      && (answer.Ok? <==>
            Live(w.files, runId) && cap >= w.files.binding.value.body.cap && maxCalls >= w.files.binding.value.body.maxCalls)
      && (answer.Ok? ==> f.binding.Some? && f == w.files.(binding := f.binding)
                         && f.binding.value.body == w.files.binding.value.body.(cap := cap, maxCalls := maxCalls,
                              raises := w.files.binding.value.body.raises + [answer.value]))
      && (answer.Err? ==> f == w.files)
  {
    hide Accounted, Chained, BaselineFault, ActorFault, Backed, WithinCap;
  }

  /** A complete re-arm gives the Run fifteen more minutes and releases what was in flight. */
  lemma RearmOpens(w: World, runId: string, now: int)
    requires Good(w) && Rearm(w.files, runId, now, 2).1.Ok?
    ensures
      var (f, answer) := Rearm(w.files, runId, now, 2);
      && f.binding.Some? && f.binding.value.body.expiresAt == now + 900
      && answer.value.released == w.files.ledger.value.body.reservations
      && answer.value.attempts == w.files.ledger.value.body.attempts && answer.value.spent == w.files.ledger.value.body.spent
      && f.binding.value.body.windows == w.files.binding.value.body.windows + [answer.value.window]
      && f == w.files.(binding := f.binding, ledger := f.ledger) && f.ledger.Some? && f.ledger.value.body.updatedAt == now
      && answer.value.at == now && answer.value.previousLedger == w.files.ledger.value.sha
  {
    hide Accounted, Chained, BaselineFault, ActorFault, Backed, WithinCap;
  }

  // ----- the request that is forwarded

  /** This limit is forwarded as the smaller of what was declared and the cap. */
  ghost predicate CutTo(declared: Field, forwarded: Field, cap: int) {
    forall n :: declared == Value(n) ==> forwarded == Value(if n < cap then n else cap)
  }

  /** Every declared limit is forwarded cut to the cap, one is always there, and the largest one forwarded is reported. */
  lemma ForwardedIsCapped(body: RequestBody, cap: int)
    requires ForwardedBody(body, cap).Ok?
    ensures
      var out := ForwardedBody(body, cap).value;
      && body.Payload? && cap > 0
      && CutTo(body.maxTokens, out.maxTokens, cap) && CutTo(body.maxCompletionTokens, out.maxCompletionTokens, cap)
      && (out.maxTokens.Value? || out.maxCompletionTokens.Value?)
      && (!body.maxTokens.Value? && !body.maxCompletionTokens.Value? ==> out.maxTokens == Value(cap))
      && (!body.maxCompletionTokens.Value? ==> out.maxCompletionTokens == body.maxCompletionTokens)
      && (out.maxTokens.Value? ==> out.maxTokens.n <= out.output) && (out.maxCompletionTokens.Value? ==> out.maxCompletionTokens.n <= out.output)
      && (out.maxTokens == Value(out.output) || out.maxCompletionTokens == Value(out.output))
  {
  }

  // ----- refusals

  /** A request that is authentic: every other request of the live binding is refused for the first of these reasons. */
  lemma AuthenticExactly(w: World, req: ModelRequest, now: int, id: ReservationId)
    requires Good(w)
    ensures
      var f, r := w.files, Authorize(w.files, req, now, id).1;
      if f.binding.None? then r == Err(BindingUnreadable)
      else
        var b := f.binding.value.body;
        && (b.state != Active <==> r == Err(NoActiveRun))
        && (b.state == Active && now >= b.expiresAt <==> r == Err(BindingExpired))
        && (b.state == Active && now < b.expiresAt ==>
              && (r == Err(RequestRunIdRequired) <==> req.runId == "")
              && (r == Err(RequestRunIdMismatch) <==> req.runId != "" && req.runId != b.runId)
              && (req.runId == b.runId ==>
                    && (r == Err(RequestActorRequired) <==> req.actor == "")
                    && (r == Err(RequestIdentityRequired) <==> req.actor != "" && req.identity == "")
                    && (r == Err(RequestActorNotAuthorized) <==> req.actor != "" && req.identity != "" && req.actor !in b.identities)
                    && (req.actor in b.identities && req.identity != "" ==>
                          && (r == Err(RequestIdentityInvalid) <==> b.identities[req.actor] != Sha256(req.identity))
                          && (b.identities[req.actor] == Sha256(req.identity) ==>
                                && (r == Err(RequestTaskIdRequired) <==> req.task == "")
                                && (r == Err(RequestTaskIdMismatch) <==> req.task != "" && b.tasks[req.actor] != req.task)))))
  {
    hide Accounted, Chained, Backed, WithinCap, RequestExposure, Exposure, DistinctTasks, BlankTask;
    assert Reserved(map[]) == 0;
    if w.files.binding.Some? && ReadLedger(w.files, w.files.binding.value.body.runId, now).Ok? {
      ExposureReasons(w, req, now);
    }
  }

  lemma ExposureReasons(w: World, req: ModelRequest, now: int)
    requires Good(w) && w.files.binding.Some? && ReadLedger(w.files, w.files.binding.value.body.runId, now).Ok?
    ensures
      var b := w.files.binding.value.body;
      var r := Exposure(b, ReadLedger(w.files, b.runId, now).value, req);
      r.Err? ==> r.error in {CallCountFuse, ReservationTotalMismatch, TokenFuse, ExposureExceedsCap, RequestUnreadable,
                             RequestNotObject, RequestOutputLimitNegative}
  {
  }

  /** The reason a body gives for having no exposure. */
  lemma ExposureRefusals(body: RequestBody, maxOutput: nat)
    ensures
      var r := RequestExposure(body, maxOutput);
      && (r == Err(RequestUnreadable) <==> body.UnreadableBody?)
      && (r == Err(RequestNotObject) <==> body.NotAnObject?)
      && (r == Err(RequestOutputLimitNegative) <==> body.Payload? && exists n :: n < 0 && Declares(body, Some(n)))
  {
    if body.Payload? {
      if body.maxTokens.Value? {
        assert Declares(body, Some(body.maxTokens.n));
      } else if body.maxCompletionTokens.Value? && body.maxTokens == Absent {
        assert Declares(body, Some(body.maxCompletionTokens.n));
      }
    }
  }

  /** What files must be for a call to be let through: whoever changed them, a request is served on intact ones only. */
  ghost predicate IntactFiles(f: Files) {
    && f.binding.Some? && f.binding.value.sha == Sha256(f.binding.value.body)
    && f.baseline.Some? && f.baseline.value.sha == Sha256(f.baseline.value.body)
    && var b, base := f.binding.value.body, f.baseline.value.body;
    && b.cap >= 0 && b.maxCalls >= 0 && b.maxOutput >= 0 && b.runId != "" && b.state == Active
    && base.runId == b.runId && b.baselineSha == f.baseline.value.sha && b.baselineTotal == base.totals.total
    && base.totals.prompt >= 0 && base.totals.completion >= 0 && base.totals.calls >= 0
    && base.totals.total == base.totals.prompt + base.totals.completion
    && b.identities != map[] && "" !in b.identities && b.tasks.Keys == b.identities.Keys
    && (forall actor :: actor in b.tasks ==> b.tasks[actor] != "")
    && (forall actor, other :: actor in b.tasks && other in b.tasks && b.tasks[actor] == b.tasks[other] ==> actor == other)
    && (f.ledger.Some? ==>
          && f.ledger.value.sha in {None, Some(Sha256(f.ledger.value.body))}
          && f.ledger.value.body.runId == b.runId && f.ledger.value.body.inFlight == Reserved(f.ledger.value.body.reservations))
  }

  lemma ServedOnIntactFiles(f: Files, req: ModelRequest, now: int, id: ReservationId)
    ensures Authorize(f, req, now, id).1.Ok? ==> IntactFiles(f)
    ensures f.binding.Some? && !IntactFiles(f) ==> Authorize(f, req, now, id) == (f, Authorize(f, req, now, id).1)
  {
    hide RequestFault, RequestExposure;
  }

  /** A result or failure is recorded only in an intact ledger of its Run; otherwise no file changes. */
  lemma SettledInIntactLedger(f: Files, call: Call, reported: seq<RawUsage>, why: string, now: int)
    ensures
      var f', r := RecordResult(f, call, reported, now).0, RecordFailure(f, call, why, now);
      f' != f || r.0 != f || r.1.Ok? ==>
        && (f.ledger.Some? ==>
              && f.ledger.value.sha in {None, Some(Sha256(f.ledger.value.body))}
              && f.ledger.value.body.runId == call.binding.runId && f.ledger.value.body.status == Running
              && call.id in f.ledger.value.body.reservations && f.ledger.value.body.reservations[call.id].exposure == call.exposure)
  {
    hide ParseUsage;
  }

  /** Re-arming writes over an intact binding and an intact ledger only. */
  lemma RearmedOnIntactFiles(f: Files, runId: string, now: int, stages: nat)
    ensures Rearm(f, runId, now, stages).0 != f ==>
              && f.binding.Some? && f.binding.value.sha == Sha256(f.binding.value.body)
              && f.ledger.Some? && f.ledger.value.sha in {None, Some(Sha256(f.ledger.value.body))} && f.ledger.value.body.runId == runId
  {
  }

  /** Why a control call refuses the Run it names. */
  predicate NamesLiveRun<T(==)>(f: Files, runId: string, answer: Reply<T>) {
    && (f.binding.None? <==> answer == Err(BindingUnreadable))
    && (f.binding.Some? && !Live(f, runId) <==> answer == Err(NeedsSameActiveRun))
  }

  /** Each control call refuses a Run that is not live, and otherwise says which of its own conditions fails. */
  lemma ControlRefusals(w: World, runId: string, now: int, next: Identities, cap: int, maxCalls: int)
    requires Good(w)
    ensures NamesLiveRun(w.files, runId, Rearm(w.files, runId, now, 2).1)
    ensures NamesLiveRun(w.files, runId, RenewExpired(w.files, runId, now).1)
    ensures NamesLiveRun(w.files, runId, RotateIdentities(w.files, runId, next, now).1)
    ensures NamesLiveRun(w.files, runId, ExtendWindow(w.files, runId, now).1)
    ensures NamesLiveRun(w.files, runId, RaiseBudget(w.files, runId, cap, maxCalls, now).1)
  {
    hide Accounted, Chained, BaselineFault, ActorFault, Backed, WithinCap;
  }

  lemma OwnRefusals(w: World, runId: string, now: int, next: Identities, cap: int, maxCalls: int)
    requires Good(w) && Live(w.files, runId)
    ensures
      var f, b := w.files, w.files.binding.value.body;
      && (Rearm(f, runId, now, 2).1 == Err(LedgerUnreadable) <==> f.ledger.None?)
      && (Rearm(f, runId, now, 2).1 == Err(NotRearmable) <==>
            f.ledger.Some? && f.ledger.value.body.status != FuseTripped(UpstreamTransportFailure))
      && (RenewExpired(f, runId, now).1 == Err(NotExpired) <==> b.expiresAt > now)
      && (RenewExpired(f, runId, now).1 == Err(UsageNotZero) <==> b.expiresAt <= now && f.ledger.Some? && f.ledger.value.body.attempts > 0)
      && (RotateIdentities(f, runId, next, now).1 == Err(ActorSetMismatch) <==> next.Keys != b.identities.Keys)
      && (ExtendWindow(f, runId, now).1 == Err(ExtensionLimitReached) <==> |b.windows| >= 3)
      && (RaiseBudget(f, runId, cap, maxCalls, now).1 == Err(BudgetCannotDecrease) <==> cap < b.cap || maxCalls < b.maxCalls)
  {
    hide Chained, BaselineFault, ActorFault, Backed, WithinCap;
    if w.files.ledger.Some? && w.files.ledger.value.body.attempts == 0 {
      NothingSpentYet(w.files.ledger.value.body);
    }
  }

  /** Why a live Run with fewer than three windows gets no further one. */
  lemma WindowRefusals(w: World, runId: string, now: int)
    requires Good(w) && Live(w.files, runId) && |w.files.binding.value.body.windows| < 3
    ensures
      var f, b, r := w.files, w.files.binding.value.body, ExtendWindow(w.files, runId, now).1;
      && (r == Err(LedgerUnreadable) <==> f.ledger.None?)
      && (f.ledger.Some? ==>
            var l := f.ledger.value.body;
            && (r == Err(LedgerNotRunning) <==> l.status != Running)
            && (r == Err(CallCapReached) <==> l.status == Running && l.spent.calls >= b.maxCalls)
            && (r == Err(TokenCapReached) <==> l.status == Running && l.spent.calls < b.maxCalls && l.spent.total >= b.cap))
  {
    hide Accounted, Chained, BaselineFault, ActorFault, Backed, WithinCap;
  }

  /** Why a close is refused. */
  lemma CloseRefusals(w: World, runId: string, terminal: string, now: int)
    requires Good(w)
    ensures
      var f, r := w.files, CloseRun(w.files, runId, terminal, now).1;
      && (r == Err(BindingUnreadable) <==> f.binding.None?)
      && (f.binding.Some? ==>
            var b := f.binding.value.body;
            && (r == Err(CloseRunMismatch) <==> b.runId != runId)
            && (r == Err(TerminalStateRequired) <==> b.runId == runId && terminal == "")
            && (r == Err(ClosedDifferently) <==> b.runId == runId && terminal != "" && b.state.Closed? && b.state.terminal != terminal))
  {
    hide Accounted, Chained, BaselineFault, ActorFault, Backed, WithinCap;
  }

  /** What each refusal of a request for a new Run says of it. */
  ghost predicate RequestDefect(p: RunRequest, reason: Reason) {
    match reason
    case RouteNotAttested => !p.routeAttested
    case RunIdRequired => p.runId == ""
    case BaselineIncomplete => !p.baselineDated || !Readable(p.totals) || p.totals.total != p.totals.prompt + p.totals.completion
    case IdentitiesRequired => p.identities == map[]
    case IdentityInvalid => exists actor :: actor in p.identities && (actor == "" || p.identities[actor] == "")
    case TaskSetMismatch => p.tasks.Keys != p.identities.Keys
    case TaskIdRequired => exists actor :: actor in p.tasks && p.tasks[actor] == ""
    case TaskIdsNotUnique => exists actor, other :: actor in p.tasks && other in p.tasks && actor != other && p.tasks[actor] == p.tasks[other]
    case _ => false
  }

  lemma RunRequestRefusals(p: RunRequest, reason: Reason)
    ensures RunRequestFault(p) == Some(reason) ==> RequestDefect(p, reason)
    ensures RequestDefect(p, reason) ==> RunRequestFault(p).Some?
  {
  }

  /** Why a sound request for a new Run is refused. */
  lemma PrepareRefusals(w: World, p: RunRequest, now: int)
    requires Good(w) && RunRequestFault(p).None?
    ensures
      var f, r := w.files, PrepareRun(w.files, p, now, 3).1;
      && (r == Err(BoundToOtherRun) <==> f.binding.Some? && f.binding.value.body.state == Active && f.binding.value.body.runId != p.runId)
      && (r == Err(RunAlreadyClosed) <==> f.binding.Some? && f.binding.value.body.state != Active && f.binding.value.body.runId == p.runId)
      && (ExistingAnswer(f, p.runId).None? ==>
            && (r == Err(ArchiveCollision) <==> f.ledger.Some? && f.ledger.value in f.archive)
            && (r == Err(LimitsNotPositive) <==>
                  !(f.ledger.Some? && f.ledger.value in f.archive)
                  && (p.cap <= 0 || p.maxCalls <= 0 || p.maxOutput <= 0 || p.wallSeconds <= 0)))
  {
    hide Accounted, Chained, BaselineFault, ActorFault, Backed, WithinCap, RunRequestFault;
  }

  /** Why a body with an exposure of its own, or any other, is not forwarded. */
  lemma ForwardedRefusals(body: RequestBody, cap: int)
    ensures
      var r := ForwardedBody(body, cap);
      && (r == Err(OutputCapInvalid) <==> cap <= 0)
      && (r == Err(RequestUnreadable) <==> cap > 0 && body.UnreadableBody?)
      && (r == Err(RequestNotObject) <==> cap > 0 && body.NotAnObject?)
      && (r == Err(RequestOutputLimitNegative) <==>
            cap > 0 && body.Payload? && exists n :: n < 0 && (body.maxTokens == Value(n) || body.maxCompletionTokens == Value(n)))
  {
    if body.Payload? {
      if body.maxTokens.Value? {
        assert body.maxTokens == Value(body.maxTokens.n);
      }
      if body.maxCompletionTokens.Value? {
        assert body.maxCompletionTokens == Value(body.maxCompletionTokens.n);
      }
    }
  }

  // ----- files that someone else changed

  /** What each refusal of the files says of them. */
  ghost predicate FileDefect(f: Files, now: int, reason: Reason) {
    match reason
    case BindingUnreadable => f.binding.None?
    case BaselineUnreadable => f.baseline.None?
    case _ =>
      || (f.binding.Some? && BindingDefect(f.binding.value, now, reason))
      || (f.binding.Some? && f.baseline.Some? && BaselineDefect(f.baseline.value, f.binding.value.body, reason))
  }

  ghost predicate BindingDefect(file: Sealed<Binding>, now: int, reason: Reason) {
    var b := file.body;
    match reason
    case NoActiveRun => b.state.Closed?
    case RunIdMissing => b.runId == ""
    case BindingExpired => b.expiresAt <= now
    case LimitNegative => b.cap < 0 || b.maxCalls < 0 || b.maxOutput < 0
    case BindingHashMismatch => file.sha != Sha256(b)
    case IdentityBindingMissing => b.identities == map[]
    case IdentityBindingInvalid => "" in b.identities
    case TaskSetMismatch => b.tasks.Keys != b.identities.Keys
    case TaskBindingInvalid =>
      || (exists actor :: actor in b.tasks && b.tasks[actor] == "")
      || (exists actor, other :: actor in b.tasks && other in b.tasks && actor != other && b.tasks[actor] == b.tasks[other])
    case _ => false
  }

  predicate BaselineDefect(file: Sealed<Baseline>, b: Binding, reason: Reason) {
    var totals := file.body.totals;
    match reason
    case BaselineBindingMismatch => file.body.runId != b.runId || file.sha != Sha256(file.body) || file.sha != b.baselineSha
    case BaselineCounterNegative => totals.prompt < 0 || totals.completion < 0 || totals.total < 0 || totals.calls < 0
    case BaselineTotalMismatch => totals.total != totals.prompt + totals.completion
    case BaselineTotalBindingMismatch => b.baselineTotal < 0 || b.baselineTotal != totals.total
    case _ => false
  }

  lemma BaselineRefusedExactly(file: Sealed<Baseline>, b: Binding, reason: Reason)
    ensures BaselineFault(Some(file), b) == Some(reason) ==> BaselineDefect(file, b, reason)
    ensures BaselineDefect(file, b, reason) ==> BaselineFault(Some(file), b).Some?
  {
  }

  lemma ActorsRefusedExactly(file: Sealed<Binding>, now: int, reason: Reason)
    ensures ActorFault(file.body) == Some(reason) ==> BindingDefect(file, now, reason)
    ensures BindingDefect(file, now, reason) && reason in {IdentityBindingMissing, IdentityBindingInvalid, TaskSetMismatch, TaskBindingInvalid} ==>
              ActorFault(file.body).Some?
  {
  }

  /** The reason why files do not serve is a true one. */
  lemma FileReasonIsTrue(f: Files, now: int)
    ensures ActiveBinding(f, now).Err? ==> FileDefect(f, now, ActiveBinding(f, now).error)
  {
    hide BaselineFault, ActorFault, BaselineDefect;
    if f.binding.Some? && f.baseline.Some? && BaselineFault(f.baseline, f.binding.value.body).Some? {
      BaselineRefusedExactly(f.baseline.value, f.binding.value.body, BaselineFault(f.baseline, f.binding.value.body).value);
      BaselineReasons(f.baseline.value, f.binding.value.body);
    }
    if f.baseline.None? {
      NoBaseline(f);
    }
    if f.binding.Some? && ActorFault(f.binding.value.body).Some? {
      ActorsRefusedExactly(f.binding.value, now, ActorFault(f.binding.value.body).value);
      ActorReasons(f.binding.value.body);
    }
  }

  lemma NoBaseline(f: Files)
    requires f.baseline.None?
    ensures f.binding.Some? ==> BaselineFault(f.baseline, f.binding.value.body) == Some(BaselineUnreadable)
  {
  }

  lemma BaselineReasons(file: Sealed<Baseline>, b: Binding)
    ensures BaselineFault(Some(file), b) in {None, Some(BaselineBindingMismatch), Some(BaselineCounterNegative),
                                             Some(BaselineTotalMismatch), Some(BaselineTotalBindingMismatch)}
  {
  }

  lemma ActorReasons(b: Binding)
    ensures ActorFault(b) in {None, Some(IdentityBindingMissing), Some(IdentityBindingInvalid), Some(TaskSetMismatch), Some(TaskBindingInvalid)}
  {
  }

  /** Files that serve have none of the defects. */
  lemma ServingFilesAreSound(f: Files, now: int, reason: Reason)
    requires ActiveBinding(f, now).Ok?
    ensures !FileDefect(f, now, reason)
  {
    hide BaselineFault, ActorFault, BaselineDefect;
    NoBaselineServes(f, now);
    BaselineRefusedExactly(f.baseline.value, f.binding.value.body, reason);
    ActorsRefusedExactly(f.binding.value, now, reason);
  }

  lemma NoBaselineServes(f: Files, now: int)
    requires ActiveBinding(f, now).Ok?
    ensures f.binding.Some? && f.baseline.Some?
  {
  }

  /** The reason why files do not serve is a true one, and they serve exactly if there is none. */
  lemma FilesRefusedExactly(f: Files, now: int, reason: Reason)
    ensures ActiveBinding(f, now) == Err(reason) ==> FileDefect(f, now, reason)
    ensures FileDefect(f, now, reason) ==> ActiveBinding(f, now).Err?
  {
    hide *;
    FileReasonIsTrue(f, now);
    if ActiveBinding(f, now).Ok? {
      ServingFilesAreSound(f, now, reason);
    }
  }

  /** Why a ledger is not read: none of its own Run's, changed since it was sealed, or fused. */
  lemma LedgerRefusedExactly(f: Files, runId: string, now: int)
    requires f.ledger.Some?
    ensures
      var file, r := f.ledger.value, ReadLedger(f, runId, now);
      var changed := file.sha !in {None, Some(Sha256(file.body))};
      && (r == Err(LedgerRunMismatch) <==> file.body.runId != runId)
      && (r == Err(LedgerHashMismatch) <==> file.body.runId == runId && changed)
      && (r == Err(FuseAlreadyTripped) <==> file.body.runId == runId && !changed && file.body.status != Running)
      && (r.Ok? ==> r.value == file.body)
  {
  }

  /** A ledger whose promised tokens were changed serves no request. */
  lemma ReservationTotalIsChecked(b: Binding, l: Ledger, req: ModelRequest)
    ensures Exposure(b, l, req) == Err(ReservationTotalMismatch) <==> l.attempts < b.maxCalls && l.inFlight != Reserved(l.reservations)
  {
  }

  /** Whoever changed the binding, no control call touches it: each that names the Run rightly says that its hash does not match. */
  lemma ChangedBindingIsRefused(f: Files, runId: string, now: int, next: Identities, cap: int, maxCalls: int, terminal: string, p: RunRequest)
    requires f.binding.Some? && f.binding.value.sha != Sha256(f.binding.value.body)
    ensures RunRequestFault(p).None? ==> PrepareRun(f, p, now, 3) == (f, Err(BindingHashMismatch))
    ensures f.binding.value.body.runId == runId ==> CloseRun(f, runId, terminal, now) == (f, Err(BindingHashMismatch))
    ensures Live(f, runId) ==>
              && Rearm(f, runId, now, 2) == (f, Err(BindingHashMismatch)) && RenewExpired(f, runId, now) == (f, Err(BindingHashMismatch))
              && RotateIdentities(f, runId, next, now) == (f, Err(BindingHashMismatch))
              && ExtendWindow(f, runId, now) == (f, Err(BindingHashMismatch))
              && RaiseBudget(f, runId, cap, maxCalls, now) == (f, Err(BindingHashMismatch))
  {
  }

  /** A ledger of another Run beside the live binding stops every control call that reads it. */
  lemma ForeignLedgerIsRefused(f: Files, runId: string, now: int, next: Identities)
    requires Live(f, runId) && Intact(f.binding.value) && f.ledger.Some? && f.ledger.value.body.runId != runId
    ensures Rearm(f, runId, now, 2) == (f, Err(LedgerRunMismatch))
    ensures f.binding.value.body.expiresAt <= now ==> RenewExpired(f, runId, now) == (f, Err(LedgerRunMismatch))
    ensures next.Keys == f.binding.value.body.identities.Keys ==> RotateIdentities(f, runId, next, now) == (f, Err(LedgerRunMismatch))
    ensures |f.binding.value.body.windows| < 3 ==> ExtendWindow(f, runId, now) == (f, Err(LedgerNotRunning))
  {
  }
}
