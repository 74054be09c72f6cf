/**
 * What the gateway's numbers cover: when a reservation covers what is forwarded,
 * which usage never reaches the ledger, and a Run that a raised cap does not save.
 */
module GatewayUsage {
  import opened Basics
  import opened MapSums
  import opened Gateway
  import opened GatewayRuns

  // ----- the reservation and the request that is forwarded

  /** A limit in the second field is larger than the one in the first, which alone was reserved for. */
  predicate UnderReserved(body: RequestBody, cap: int) {
    && body.Payload?
    && body.maxTokens.Value? && body.maxCompletionTokens.Value?
    && body.maxTokens.n < body.maxCompletionTokens.n && body.maxTokens.n < cap
  }

  /** The output reserved for covers the largest output limit forwarded, except exactly in that case. */
  lemma ReservationCoversExactly(body: RequestBody, cap: nat)
    requires RequestExposure(body, cap).Ok? && ForwardedBody(body, cap).Ok?
    ensures RequestExposure(body, cap).value >= InputTokens(body.bytes) + ForwardedBody(body, cap).value.output
            <==> !UnderReserved(body, cap)
  {
  }

  /** One output token is reserved for, a thousand are allowed. */
  lemma SecondLimitIsNotReserved()
    ensures
      var body := Payload(400, Value(1), Value(1000));
      RequestExposure(body, 1000) == Ok(101) && ForwardedBody(body, 1000) == Ok(Forwarded(Value(1), Value(1000), 1000))
  {
    assert InputTokens(400) == 100;
  }

  /** A request is refused after its reservation was made exactly when its second limit is negative. */
  lemma RefusedAfterReservationExactly(body: RequestBody, cap: nat)
    requires cap > 0 && RequestExposure(body, cap).Ok?
    ensures ForwardedBody(body, cap).Err? <==> body.maxCompletionTokens.Value? && body.maxCompletionTokens.n < 0
  {
  }

  // ----- usage that never reaches the ledger

  /** Total tokens a provider reports to this Run in a step, readable and in full. */
  function Reported(w: World, s: Step, runId: string): nat
    requires Possible(w, s)
  {
    if s.ResultStep? && w.calls[s.id].binding.runId == runId && ParseUsage(s.reported).Some?
    then ParseUsage(s.reported).value.total else 0
  }

  /** The call still holds its reservation and no fuse has tripped. */
  predicate Settleable(f: Files, id: ReservationId) {
    Holds(f, id) && f.ledger.value.body.status == Running
  }

  function Lost(w: World, s: Step, runId: string): nat
    requires Possible(w, s)
  {
    if s.ResultStep? && !Settleable(w.files, s.id) then Reported(w, s, runId) else 0
  }

  ghost function ReportedUpTo(ws: seq<World>, steps: seq<Step>, runId: string, i: nat): nat
    requires History(ws, steps) && i <= |steps|
  {
    if i == 0 then 0 else ReportedUpTo(ws, steps, runId, i - 1) + Reported(ws[i - 1], steps[i - 1], runId)
  }

  ghost function LostUpTo(ws: seq<World>, steps: seq<Step>, runId: string, i: nat): nat
    requires History(ws, steps) && i <= |steps|
  {
    if i == 0 then 0 else LostUpTo(ws, steps, runId, i - 1) + Lost(ws[i - 1], steps[i - 1], runId)
  }

  function Tokens(l: Ledger): nat {
    if l.spent.total < 0 then 0 else l.spent.total
  }

  function ArchivedTokens(archive: set<LedgerFile>, runId: string): map<LedgerFile, nat> {
    map file | file in archive && file.body.runId == runId :: Tokens(file.body)
  }

  function PlacedTokens(f: Files, runId: string): nat {
    if f.ledger.Some? && f.ledger.value.body.runId == runId then Tokens(f.ledger.value.body) else 0
  }

  /** What the Run's ledgers count, the one in place and the archived ones. */
  ghost function SpentByRun(f: Files, runId: string): nat {
    Sum(ArchivedTokens(f.archive, runId)) + PlacedTokens(f, runId)
  }

  /** A result reaches the ledger exactly when its call is settleable. */
  lemma SettlesExactly(w: World, id: ReservationId, now: int)
    requires Good(w) && id in w.calls
    ensures w.files.ledger.Some? && Released(w.files, w.calls[id], now).Ok? <==> Settleable(w.files, id)
  {
    hide Accounted, Chained, BaselineFault, ActorFault, WithinCap;
  }

  lemma ResultSpends(w: World, s: Step, w': World, runId: string)
    requires Good(w) && Good(w') && Possible(w, s) && s.ResultStep? && Moved(w, s, w')
    ensures SpentByRun(w'.files, runId) + Lost(w, s, runId) == SpentByRun(w.files, runId) + Reported(w, s, runId)
  {
    hide Good, ParseUsage, Holds, Released, Settles;
    SettlesExactly(w, s.id, s.now);
    if Settleable(w.files, s.id) {
      SettledLedger(w.files, w.calls[s.id], DecisionOf(s), s.now, w'.files.ledger.value.body);
      TotalsAreCounted(w);
      TotalsAreCounted(w');
    }
  }

  lemma TotalsAreCounted(w: World)
    requires Good(w)
    ensures w.files.ledger.Some? ==> Tokens(w.files.ledger.value.body) == w.files.ledger.value.body.spent.total
  {
  }

  /** Archiving moves a ledger's tokens and loses none. */
  lemma ArchivingSpendsNothing(f: Files, f': Files, newRun: string, runId: string)
    requires Prepared(f, f', newRun)
    ensures SpentByRun(f', runId) == SpentByRun(f, runId)
  {
    hide BaselineFault, ActorFault, Tokens, Sum;
    if f.ledger.None? {
      assert f'.archive == f.archive;
    } else if f' != f {
      var file := f.ledger.value;
      if file.body.runId == runId {
        SumInsert(ArchivedTokens(f.archive, runId), file, Tokens(file.body));
        assert ArchivedTokens(f'.archive, runId) == ArchivedTokens(f.archive, runId)[file := Tokens(file.body)];
      } else {
        assert ArchivedTokens(f'.archive, runId) == ArchivedTokens(f.archive, runId);
      }
    }
  }

  lemma OtherSpendsNothing(w: World, s: Step, w': World, runId: string)
    requires Good(w) && Possible(w, s) && !s.ResultStep? && Moved(w, s, w')
    ensures SpentByRun(w'.files, runId) == SpentByRun(w.files, runId)
  {
    hide Accounted, Chained, BaselineFault, ActorFault, WithinCap, Backed, Released, Appended, LastRecorded, Prepared, Succeeds, ArchivedTokens;
    if s.PrepareStep? {
      ArchivingSpendsNothing(w.files, w'.files, s.p.runId, runId);
    } else if s.FailureStep? && w.files.ledger.Some? && Released(w.files, w.calls[s.id], s.now).Ok? {
      SettledLedger(w.files, w.calls[s.id], DecisionOf(s), s.now, w'.files.ledger.value.body);
    }
  }

  lemma NoReport(w: World, s: Step, runId: string)
    requires Possible(w, s) && !s.ResultStep?
    ensures Reported(w, s, runId) == 0 && Lost(w, s, runId) == 0
  {
  }

  /**
   * The exact loss, over every history: what providers reported to a Run is what
   * its ledgers count, in place or archived, plus what came back to calls whose
   * reservation a re-arm released or an archive took away, that had settled
   * before, or that met a fuse.
   */
  lemma {:induction false} LossIsExact(ws: seq<World>, steps: seq<Step>, runId: string, i: nat)
    requires History(ws, steps) && ws[0] == EMPTY && i <= |steps|
    ensures ReportedUpTo(ws, steps, runId, i) == SpentByRun(ws[i].files, runId) + LostUpTo(ws, steps, runId, i)
  {
    hide Good, Apply, Moved, Reported, Lost, SpentByRun, Possible;
    if i == 0 {
      NothingSpent(runId);
    } else {
      LossIsExact(ws, steps, runId, i - 1);
      HistoryGood(ws, steps, i - 1);
      StepKeeps(ws[i - 1], steps[i - 1]);
      if steps[i - 1].ResultStep? {
        ResultSpends(ws[i - 1], steps[i - 1], ws[i], runId);
      } else {
        OtherSpendsNothing(ws[i - 1], steps[i - 1], ws[i], runId);
        NoReport(ws[i - 1], steps[i - 1], runId);
      }
    }
  }

  lemma NothingSpent(runId: string)
    ensures SpentByRun(EMPTY.files, runId) == 0
  {
    assert ArchivedTokens({}, runId) == map[];
  }

  // ----- a reservation nobody settles

  /** The step takes the open reservation away: its result or failure, a complete re-arm, or the next Run's preparation. */
  predicate LetsGo(w: World, s: Step, id: ReservationId)
    requires Holds(w.files, id) && w.files.binding.Some?
  {
    var l, b := w.files.ledger.value.body, w.files.binding.value.body;
    match s
    case ResultStep(back, _, _) => back == id && l.status == Running
    case FailureStep(back, _, _) => back == id && l.status == Running
    case RearmStep(runId, _, stages) =>
      stages >= 2 && b.state == Active && b.runId == runId && l.status == FuseTripped(UpstreamTransportFailure)
    case PrepareStep(p, _, stages) =>
      && stages > 0 && RunRequestFault(p) == None && b.state != Active && b.runId != p.runId
      && w.files.ledger.value !in w.files.archive
    case _ => false
  }

  lemma HeldHasBinding(w: World, id: ReservationId)
    requires Good(w) && Holds(w.files, id)
    ensures w.files.binding.Some? && id in w.calls && Intact(w.files.binding.value)
    ensures w.files.binding.value.body.runId == w.files.ledger.value.body.runId
  {
  }

  lemma CallsAreNamed(w: World)
    requires Good(w)
    ensures forall id :: id in w.calls ==> w.calls[id].id == id
  {
  }

  lemma ReturnLetsGo(w: World, s: Step, w': World, id: ReservationId)
    requires Good(w) && Holds(w.files, id) && w.files.binding.Some?
    requires (s.ResultStep? || s.FailureStep?) && Possible(w, s) && Moved(w, s, w')
    ensures Holds(w'.files, id) <==> !LetsGo(w, s, id)
  {
    hide Good, Released, Settles, ParseUsage;
    CallsAreNamed(w);
    SettlesExactly(w, s.id, s.now);
    if Settleable(w.files, s.id) {
      SettledLedger(w.files, w.calls[s.id], DecisionOf(s), s.now, w'.files.ledger.value.body);
    }
  }

  lemma ControlLetsGo(w: World, s: Step, id: ReservationId)
    requires Good(w) && Holds(w.files, id) && w.files.binding.Some? && Intact(w.files.binding.value)
    requires s.RearmStep? || s.PrepareStep?
    ensures Holds(Apply(w, s).files, id) <==> !LetsGo(w, s, id)
  {
    hide Accounted, Chained, BaselineFault, ActorFault, WithinCap, Backed, RunRequestFault, LimitsPositive, NewBinding;
  }

  lemma OtherKeepsHold(w: World, s: Step, w': World, id: ReservationId)
    requires Holds(w.files, id) && Possible(w, s) && Moved(w, s, w')
    requires !s.ResultStep? && !s.FailureStep? && !s.RearmStep? && !s.PrepareStep?
    ensures Holds(w'.files, id)
  {
    hide Succeeds;
  }

  /** An open reservation stays open over a step exactly when the step is none of those. */
  lemma StaysOpenExactly(w: World, s: Step, id: ReservationId)
    requires Good(w) && Possible(w, s) && Holds(w.files, id)
    ensures w.files.binding.Some?
    ensures Holds(Apply(w, s).files, id) <==> !LetsGo(w, s, id)
  {
    hide Good, Apply, Moved, Possible;
    HeldHasBinding(w, id);
    StepKeeps(w, s);
    if s.ResultStep? || s.FailureStep? {
      ReturnLetsGo(w, s, Apply(w, s), id);
    } else if s.RearmStep? || s.PrepareStep? {
      ControlLetsGo(w, s, id);
    } else {
      OtherKeepsHold(w, s, Apply(w, s), id);
    }
  }

  /** No rotation goes through beside an open reservation; the Run's own gets to hear why. */
  lemma HeldBlocksRotation(w: World, id: ReservationId, runId: string, next: Identities, now: int)
    requires Good(w) && Holds(w.files, id)
    ensures
      var answer := RotateIdentities(w.files, runId, next, now).1;
      && answer.Err?
      && (SameActiveRun(w.files, runId).Ok? && next.Keys == w.files.binding.value.body.identities.Keys ==>
            answer == Err(RotationInFlight))
  {
    hide Accounted, Chained, BaselineFault, ActorFault, WithinCap, Backed;
  }

  /**
   * A reservation that its call never settles, as that of a request refused after
   * it was made, stays open over every history without a re-arm or the next Run's
   * preparation, and all that time the Run's identities cannot be rotated.
   */
  lemma {:induction false} UnsettledBlocksRotation(ws: seq<World>, steps: seq<Step>, i: nat, j: nat, id: ReservationId)
    requires History(ws, steps) && ws[0] == EMPTY && i <= j < |ws| && Holds(ws[i].files, id)
    requires forall k :: i <= k < j && Holds(ws[k].files, id) && ws[k].files.binding.Some? ==> !LetsGo(ws[k], steps[k], id)
    ensures Holds(ws[j].files, id)
    ensures forall runId, next, now :: RotateIdentities(ws[j].files, runId, next, now).1.Err?
    decreases j
  {
    hide Good, Apply, Holds, LetsGo, Possible, RotateIdentities;
    if i < j {
      UnsettledBlocksRotation(ws, steps, i, j - 1, id);
      HistoryGood(ws, steps, j - 1);
      StaysOpenExactly(ws[j - 1], steps[j - 1], id);
    }
    HistoryGood(ws, steps, j);
    forall runId, next, now
      ensures RotateIdentities(ws[j].files, runId, next, now).1.Err?
    {
      HeldBlocksRotation(ws[j], id, runId, next, now);
    }
  }

  // ----- histories that meet the failing conditions

  const IDENTITIES: map<string, string> := map["worker" := "secret"]
  const TASKS: map<string, string> := map["worker" := "task"]
  const RUN := RunRequest(true, "R", 20, 2, 1, 60, true, NO_USAGE, IDENTITIES, TASKS)

  /** The body {"max_tokens":1} has 16 octets. */
  const CALL := ModelRequest("R", "worker", "secret", "task", Payload(16, Value(1), Absent))

  /** The body {"max_tokens":1,"max_completion_tokens":-1} has 43. */
  const LATE_REFUSED := CALL.(body := Payload(43, Value(1), Value(-1)))
  const REPORTED: seq<RawUsage> := [RawUsage(Some(1), None, Some(20), None, None)]

  lemma Extended(ws: seq<World>, steps: seq<Step>, s: Step) returns (more: seq<World>)
    requires History(ws, steps) && Possible(ws[|steps|], s)
    ensures more == ws + [Apply(ws[|steps|], s)] && History(more, steps + [s])
  {
    hide Apply, Possible;
    more := ws + [Apply(ws[|steps|], s)];
  }

  lemma RunIsPrepared()
    ensures PrepareRun(EMPTY.files, RUN, 0, 3)
            == (Files(Some(Seal(NewBinding(RUN, 0))), Some(Seal(Baseline("R", NO_USAGE))), None, {}), Ok(NewBinding(RUN, 0)))
    ensures RunRequestFault(RUN) == None
  {
    assert "worker" in IDENTITIES && "worker" in TASKS;
  }

  lemma CallExposure()
    ensures RequestExposure(CALL.body, 1) == Ok(5) && RequestExposure(LATE_REFUSED.body, 1) == Ok(12)
  {
    assert InputTokens(16) == 4 && InputTokens(43) == 11;
  }

  lemma UsageIsRead()
    ensures ParseUsage(REPORTED) == Some(Usage(1, 20, 21, 1))
  {
  }

  /** Nothing is spent, and this many calls hold reservations of so many tokens. */
  predicate Unspent(w: World, attempts: nat, inFlight: nat) {
    && w.files.binding == Some(Seal(NewBinding(RUN, 0)))
    && match w.files.ledger
       case None => attempts == 0 && inFlight == 0
       case Some(file) =>
         && file.body.attempts == attempts && file.body.inFlight == inFlight && file.body.status == Running
         && file.body.spent.total == 0
  }

  /** The call is in flight under the cap of 20, over an unused ledger. */
  predicate InFlight(w: World, id: ReservationId) {
    && id in w.calls && w.calls[id].binding.cap == 20 && w.calls[id].binding.runId == "R"
    && Settleable(w.files, id) && w.files.ledger.value.body.spent.total == 0
  }

  lemma CallIsServed(w: World, req: ModelRequest, attempts: nat, inFlight: nat, now: int, id: ReservationId)
    requires Good(w) && Unspent(w, attempts, inFlight) && attempts < 2 && now < 60
    requires req == CALL.(body := req.body) && RequestExposure(req.body, 1).Ok?
    requires inFlight + RequestExposure(req.body, 1).value <= 20
    ensures Authorize(w.files, req, now, id).1.Ok? && Authorize(w.files, req, now, id).1.value.binding.maxOutput == 1
  {
    hide Authorize, Good, RequestExposure;
    AuthorizeExactly(w, req, now, id);
    assert Authorize(w.files, req, now, id).1.Ok?;
    AuthorizeMoves(w.files, req, now, id);
  }

  lemma ServedWorld(w: World, req: ModelRequest, attempts: nat, inFlight: nat, now: int, id: ReservationId)
    requires Good(w) && Unspent(w, attempts, inFlight) && attempts < 2 && now < 60 && id !in w.calls
    requires req == CALL.(body := req.body) && RequestExposure(req.body, 1).Ok?
    requires inFlight + RequestExposure(req.body, 1).value <= 20
    ensures
      var w' := Apply(w, AuthorizeStep(req, now, id));
      && InFlight(w', id) && w'.calls.Keys == w.calls.Keys + {id}
      && Unspent(w', attempts + 1, inFlight + w'.calls[id].exposure)
      && forall other :: other != id && InFlight(w, other) ==> InFlight(w', other)
  {
    hide Good, Authorize, RequestExposure, PrepareRun;
    CallIsServed(w, req, attempts, inFlight, now, id);
    AuthorizeMoves(w.files, req, now, id);
  }

  lemma ServedExposure(w: World, req: ModelRequest, now: int, id: ReservationId)
    requires Authorize(w.files, req, now, id).1.Ok? && Authorize(w.files, req, now, id).1.value.binding.maxOutput == 1
    ensures RequestExposure(req.body, 1) == Ok(Authorize(w.files, req, now, id).1.value.exposure)
  {
    hide BaselineFault, ActorFault, RequestFault, RequestExposure;
  }

  const PREPARED: seq<Step> := [PrepareStep(RUN, 0, 3)]
  const SERVED := PREPARED + [AuthorizeStep(CALL, 1, "a")]

  lemma ReachServed(req: ModelRequest) returns (ws: seq<World>)
    requires req in {CALL, LATE_REFUSED}
    ensures History(ws, PREPARED + [AuthorizeStep(req, 1, "a")]) && ws[0] == EMPTY
    ensures InFlight(ws[2], "a") && ws[2].calls.Keys == {"a"} && Unspent(ws[2], 1, ws[2].calls["a"].exposure)
    ensures RequestExposure(req.body, 1) == Ok(ws[2].calls["a"].exposure) && ws[2].calls["a"].binding.maxOutput == 1
  {
    hide Apply, Good, InFlight, PrepareRun, RequestExposure, Authorize;
    RunIsPrepared();
    CallExposure();
    ws := Extended([EMPTY], [], PrepareStep(RUN, 0, 3));
    assert ws[1] == World(PrepareRun(EMPTY.files, RUN, 0, 3).0, map[]) by { PreparedWorld(); }
    HistoryGood(ws, PREPARED, 1);
    CallIsServed(ws[1], req, 0, 0, 1, "a");
    ServedExposure(ws[1], req, 1, "a");
    ServedWorld(ws[1], req, 0, 0, 1, "a");
    ServedCall(ws[1], req, 1, "a");
    ws := Extended(ws, PREPARED, AuthorizeStep(req, 1, "a"));
  }

  lemma ServedCall(w: World, req: ModelRequest, now: int, id: ReservationId)
    requires id !in w.calls && Authorize(w.files, req, now, id).1.Ok?
    ensures Apply(w, AuthorizeStep(req, now, id)).calls == w.calls[id := Authorize(w.files, req, now, id).1.value]
  {
    hide Authorize;
  }

  lemma PreparedWorld()
    ensures Apply(EMPTY, PrepareStep(RUN, 0, 3)) == World(PrepareRun(EMPTY.files, RUN, 0, 3).0, map[])
  {
    hide PrepareRun;
  }

  // ----- a raised cap does not save a call in flight

  const RAISED := SERVED + [RaiseStep("R", 1000, 2, 2)]
  const OVERRUN := RAISED + [ResultStep("a", REPORTED, 3)]

  lemma RaiseKeepsInFlight(w: World)
    requires InFlight(w, "a") && w.files.binding == Some(Seal(NewBinding(RUN, 0)))
    ensures
      var w' := Apply(w, RaiseStep("R", 1000, 2, 2));
      InFlight(w', "a") && w'.files.binding.Some? && w'.files.binding.value.body.cap == 1000
  {
    hide Hashed;
  }

  /**
   * The raised cap of 1000 would hold the total of 21, but the call was let
   * through under a cap of 20 and trips the fuse when it returns.
   */
  lemma RaiseInFlightDoesNotSave() returns (ws: seq<World>)
    ensures History(ws, OVERRUN) && ws[0] == EMPTY
    ensures ws[4].files.ledger.Some? && ws[4].files.binding.Some?
    ensures
      var l, b := ws[4].files.ledger.value.body, ws[4].files.binding.value.body;
      l.status == FuseTripped(CapExceededAfterCall) && l.spent.total == 21 && b.cap == 1000 && l.spent.total <= b.cap
  {
    hide Apply, Good, InFlight, PrepareRun, ParseUsage, RequestExposure;
    ws := ReachServed(CALL);
    RaiseKeepsInFlight(ws[2]);
    ws := Extended(ws, SERVED, RaiseStep("R", 1000, 2, 2));
    HistoryGood(ws, RAISED, 3);
    ResultTripsFuse(ws[3]);
    ws := Extended(ws, RAISED, ResultStep("a", REPORTED, 3));
  }

  lemma ResultTripsFuse(w: World)
    requires Good(w) && InFlight(w, "a") && w.files.binding.Some?
    ensures Possible(w, ResultStep("a", REPORTED, 3))
    ensures
      var f := Apply(w, ResultStep("a", REPORTED, 3)).files;
      && f.ledger.Some? && f.binding == w.files.binding
      && f.ledger.value.body.status == FuseTripped(CapExceededAfterCall) && f.ledger.value.body.spent.total == 21
  {
    hide Good, ParseUsage, RecordResult;
    UsageIsRead();
    AfterCallFuseExactly(w, "a", REPORTED, 3);
    StepKeeps(w, ResultStep("a", REPORTED, 3));
    SettlesExactly(w, "a", 3);
  }

  // ----- a usage that is lost

  const BOTH := SERVED + [AuthorizeStep(CALL, 2, "b")]
  const FAILED := BOTH + [FailureStep("a", "URLError", 3)]
  const LATE := FAILED + [ResultStep("b", REPORTED, 4)]

  /** Of two calls in flight one fails in transport; the 21 tokens the other one used are in no ledger. */
  lemma UsageMayBeLost() returns (ws: seq<World>)
    ensures History(ws, LATE) && ws[0] == EMPTY
    ensures Possible(ws[4], LATE[4]) && Lost(ws[4], LATE[4], "R") == 21 && ws[5] == ws[4]
    ensures SpentByRun(ws[5].files, "R") == 0
  {
    hide Apply, Good, InFlight, PrepareRun, ParseUsage, RequestExposure, SpentByRun, Lost;
    ws := ReachServed(CALL);
    CallExposure();
    HistoryGood(ws, SERVED, 2);
    ServedWorld(ws[2], CALL, 1, 5, 2, "b");
    ws := Extended(ws, SERVED, AuthorizeStep(CALL, 2, "b"));
    assert InFlight(ws[3], "a") && InFlight(ws[3], "b");
    HistoryGood(ws, BOTH, 3);
    FailureTripsFuse(ws[3]);
    assert Possible(ws[3], FailureStep("a", "URLError", 3)) by { InFlightIsPossible(ws[3], "a"); }
    ws := Extended(ws, BOTH, FailureStep("a", "URLError", 3));
    HistoryGood(ws, FAILED, 4);
    FusedLoses(ws[4]);
    NoResultNothingSpent(ws, FAILED, "R", 4);
    ws := Extended(ws, FAILED, ResultStep("b", REPORTED, 4));
  }

  lemma {:induction false} NoResultNothingSpent(ws: seq<World>, steps: seq<Step>, runId: string, i: nat)
    requires History(ws, steps) && ws[0] == EMPTY && i <= |steps|
    requires forall k :: 0 <= k < i ==> !steps[k].ResultStep?
    ensures SpentByRun(ws[i].files, runId) == 0
  {
    hide Good, Apply, Moved, SpentByRun, Possible;
    if i == 0 {
      NothingSpent(runId);
    } else {
      NoResultNothingSpent(ws, steps, runId, i - 1);
      HistoryGood(ws, steps, i - 1);
      StepKeeps(ws[i - 1], steps[i - 1]);
      OtherSpendsNothing(ws[i - 1], steps[i - 1], ws[i], runId);
    }
  }

  lemma InFlightIsPossible(w: World, id: ReservationId)
    requires InFlight(w, id)
    ensures Possible(w, FailureStep(id, "URLError", 3))
  {
  }

  /** The Run's fuse has tripped over an unused ledger; nothing is archived. */
  predicate Fused(w: World) {
    && "b" in w.calls && w.calls["b"].binding.runId == "R"
    && w.files.ledger.Some? && w.files.ledger.value.body.status.FuseTripped? && w.files.ledger.value.body.spent.total == 0
  }

  lemma FailureTripsFuse(w: World)
    requires Good(w) && InFlight(w, "a") && InFlight(w, "b")
    ensures Fused(Apply(w, FailureStep("a", "URLError", 3)))
    ensures Apply(w, FailureStep("a", "URLError", 3)).files.archive == w.files.archive
  {
    hide Good, Released;
    SettlesExactly(w, "a", 3);
    StepKeeps(w, FailureStep("a", "URLError", 3));
    FailureMark(w.files, w.calls["a"], "URLError", 3);
  }

  lemma FailureMark(f: Files, call: Call, why: string, now: int)
    requires f.ledger.Some? && Released(f, call, now).Ok?
    ensures
      var l := RecordFailure(f, call, why, now).0.ledger;
      l.Some? && l.value.body.status.FuseTripped? && l.value.body.spent == f.ledger.value.body.spent
  {
  }

  lemma FusedLoses(w: World)
    requires Good(w) && Fused(w)
    ensures Possible(w, ResultStep("b", REPORTED, 4)) && Lost(w, ResultStep("b", REPORTED, 4), "R") == 21
    ensures Apply(w, ResultStep("b", REPORTED, 4)) == w
  {
    hide Good, ParseUsage, Released;
    UsageIsRead();
    SettlesExactly(w, "b", 4);
    StepKeeps(w, ResultStep("b", REPORTED, 4));
  }

  // ----- a request refused after its reservation was made

  const STRANDED := PREPARED + [AuthorizeStep(LATE_REFUSED, 1, "a")]

  /** The request is let through with a reservation, refused before it is forwarded, and blocks the next rotation. */
  lemma LateRefusalStrands() returns (ws: seq<World>)
    ensures History(ws, STRANDED) && ws[0] == EMPTY
    ensures "a" in ws[2].calls && Holds(ws[2].files, "a")
    ensures ForwardedBody(LATE_REFUSED.body, ws[2].calls["a"].binding.maxOutput) == Err(RequestOutputLimitNegative)
    ensures RotateIdentities(ws[2].files, "R", Hashed(IDENTITIES), 2).1 == Err(RotationInFlight)
  {
    hide Apply, Good, PrepareRun, RequestExposure;
    ws := ReachServed(LATE_REFUSED);
    HistoryGood(ws, STRANDED, 2);
    HeldBlocksRotation(ws[2], "a", "R", Hashed(IDENTITIES), 2);
  }
}
