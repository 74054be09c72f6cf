/**
 * Whole-run results about the model-budget gateway.  A World is the control
 * root plus every call ever let through.  A call may come back at any later
 * time, more than once or never, with any other step in between.
 */
module GatewayRuns {
  import opened Basics
  import opened MapSums
  import opened Gateway

  datatype World = World(files: Files, calls: map<ReservationId, Call>)

  const EMPTY := World(Files(None, None, None, {}), map[])

  datatype Step =
    | AuthorizeStep(req: ModelRequest, now: int, id: ReservationId)
    | ResultStep(id: ReservationId, reported: seq<RawUsage>, now: int)
    | FailureStep(id: ReservationId, why: string, now: int)
    | PrepareStep(p: RunRequest, now: int, stages: nat)
    | CloseStep(runId: string, terminal: string, now: int)
    | RearmStep(runId: string, now: int, stages: nat)
    | RenewStep(runId: string, now: int)
    | RotateStep(runId: string, next: Identities, now: int)
    | ExtendStep(runId: string, now: int)
    | RaiseStep(runId: string, cap: int, maxCalls: int, now: int)

  /** A reservation id is a fresh uuid; only a call that was let through comes back. */
  predicate Possible(w: World, s: Step) {
    match s
    case AuthorizeStep(_, _, id) => id !in w.calls
    case ResultStep(id, _, _) => id in w.calls
    case FailureStep(id, _, _) => id in w.calls
    case _ => true
  }

  ghost function Apply(w: World, s: Step): World
    requires Possible(w, s)
  {
    match s
    case AuthorizeStep(req, now, id) =>
      var (files, reply) := Authorize(w.files, req, now, id);
      World(files, if reply.Ok? then w.calls[id := reply.value] else w.calls)
    case ResultStep(id, reported, now) =>
      w.(files := RecordResult(w.files, w.calls[id], reported, now).0)
    case FailureStep(id, why, now) =>
      w.(files := RecordFailure(w.files, w.calls[id], why, now).0)
    case PrepareStep(p, now, stages) => w.(files := PrepareRun(w.files, p, now, stages).0)
    case CloseStep(runId, terminal, now) => w.(files := CloseRun(w.files, runId, terminal, now).0)
    case RearmStep(runId, now, stages) => w.(files := Rearm(w.files, runId, now, stages).0)
    case RenewStep(runId, now) => w.(files := RenewExpired(w.files, runId, now).0)
    case RotateStep(runId, next, now) => w.(files := RotateIdentities(w.files, runId, next, now).0)
    case ExtendStep(runId, now) => w.(files := ExtendWindow(w.files, runId, now).0)
    case RaiseStep(runId, cap, maxCalls, now) => w.(files := RaiseBudget(w.files, runId, cap, maxCalls, now).0)
  }

  /** A history: the worlds it passes through and the steps between them. */
  ghost predicate History(ws: seq<World>, steps: seq<Step>) {
    && |ws| == |steps| + 1
    && forall i :: 0 <= i < |steps| ==> Possible(ws[i], steps[i]) && ws[i + 1] == Apply(ws[i], steps[i])
  }

  // ----- what a ledger says about itself

  function RecordedUsage(r: Record): Usage {
    match r.body.decision
    case UsageRecorded(u) => u
    case _ => NO_USAGE
  }

  function Spent(records: seq<Record>): Usage {
    if records == [] then NO_USAGE
    else Plus(Spent(records[..|records| - 1]), RecordedUsage(records[|records| - 1]))
  }

  /** Total tokens of the newest record that carries a usage. */
  function LastRecorded(records: seq<Record>): int {
    if records == [] then 0
    else
      var last := records[|records| - 1];
      if last.body.decision.UsageRecorded? then last.body.decision.usage.total
      else LastRecorded(records[..|records| - 1])
  }

  /** The records that carry a provider's usage. */
  function UsageRecords(records: seq<Record>): nat {
    if records == [] then 0
    else
      UsageRecords(records[..|records| - 1]) + if records[|records| - 1].body.decision.UsageRecorded? then 1 else 0
  }

  function ReleasedCount(rearms: seq<RearmEvent>): nat {
    if rearms == [] then 0
    else ReleasedCount(rearms[..|rearms| - 1]) + |rearms[|rearms| - 1].released|
  }

  /** Record i is sealed, carries number i + 1 and links to its predecessor's digest, the first to GENESIS. */
  predicate ChainedAt(records: seq<Record>, i: nat, runId: string)
    requires i < |records|
  {
    && Intact(records[i])
    && records[i].body.sequence == i + 1
    && records[i].body.runId == runId
    && records[i].body.previous == LastLink(records[..i])
  }

  ghost predicate Chained(records: seq<Record>, runId: string) {
    forall i: nat :: i < |records| ==> ChainedAt(records, i, runId)
  }

  ghost predicate Accounted(l: Ledger) {
    && Chained(l.records, l.runId)
    && l.inFlight == Reserved(l.reservations)
    && l.attempts == |l.records| + |l.reservations| + ReleasedCount(l.rearms)
    && l.spent == Spent(l.records)
    && Readable(l.spent)
    && l.spent.total == l.spent.prompt + l.spent.completion
    && l.cumulative == Plus(l.baseline, l.spent)
    && (forall i :: 0 <= i < |l.records| && l.records[i].body.decision.UsageRecorded? ==>
          l.records[i].body.decision.usage.calls == 1)
  }

  ghost predicate WithinCap(l: Ledger, b: Binding) {
    && l.attempts <= b.maxCalls
    && l.spent.total - LastRecorded(l.records) <= b.cap
    && (l.status != FuseTripped(CapExceededAfterCall) ==> l.spent.total <= b.cap)
  }

  /** Every open reservation belongs to a call that was let through under a cap not above this one. */
  ghost predicate Backed(l: Ledger, b: Binding, calls: map<ReservationId, Call>) {
    forall id :: id in l.reservations ==>
      && id in calls
      && calls[id].id == id
      && calls[id].exposure == l.reservations[id].exposure
      && calls[id].binding.runId == l.runId
      && calls[id].binding.cap <= b.cap
  }

  ghost predicate LedgerGood(file: LedgerFile, f: Files, calls: map<ReservationId, Call>) {
    && file == SealLedger(file.body)
    && Accounted(file.body)
    && f.binding.Some?
    && f.binding.value.body.runId == file.body.runId
    && f.baseline.Some?
    && f.baseline.value.body == Baseline(file.body.runId, file.body.baseline)
    && WithinCap(file.body, f.binding.value.body)
    && Backed(file.body, f.binding.value.body, calls)
  }

  /** Publication order: an ACTIVE binding only ever stands on its own Run's baseline and ledger. */
  ghost predicate Published(f: Files) {
    f.binding.Some? && f.binding.value.body.state == Active ==>
      && BaselineFault(f.baseline, f.binding.value.body) == None
      && (f.ledger.Some? ==> f.ledger.value.body.runId == f.binding.value.body.runId)
  }

  /** What every published binding says about itself. */
  predicate Usable(b: Binding) {
    && b.runId != ""
    && b.cap > 0 && b.maxCalls > 0 && b.maxOutput > 0
    && ActorFault(b) == None
  }

  ghost predicate Good(w: World) {
    && (w.files.binding.Some? ==> Intact(w.files.binding.value) && Usable(w.files.binding.value.body))
    && Published(w.files)
    && (w.files.ledger.Some? ==> LedgerGood(w.files.ledger.value, w.files, w.calls))
    && (forall id :: id in w.calls ==> w.calls[id].id == id)
  }

  // ----- small facts about one ledger

  lemma ReservedInsert(m: map<ReservationId, Reservation>, id: ReservationId, r: Reservation)
    requires id !in m
    ensures Reserved(m[id := r]) == Reserved(m) + r.exposure
  {
    SumInsert(Exposures(m), id, r.exposure);
    assert Exposures(m[id := r]) == Exposures(m)[id := r.exposure];
  }

  lemma ReservedRemove(m: map<ReservationId, Reservation>, id: ReservationId)
    requires id in m
    ensures Reserved(m) == Reserved(m - {id}) + m[id].exposure
    ensures |m| == |m - {id}| + 1
  {
    SumWithout(Exposures(m), id);
    assert Exposures(m - {id}) == Exposures(m) - {id};
    assert m.Keys == (m - {id}).Keys + {id};
  }

  lemma ChainAppend(records: seq<Record>, runId: string, r: Record)
    requires Chained(records, runId)
    requires Intact(r) && r.body.sequence == |records| + 1 && r.body.runId == runId
    requires r.body.previous == LastLink(records)
    ensures Chained(records + [r], runId)
  {
    forall i: nat | i < |records + [r]|
      ensures ChainedAt(records + [r], i, runId)
    {
      assert (records + [r])[..i] == records[..i];
      assert i < |records| ==> ChainedAt(records, i, runId);
    }
  }

  lemma AppendAccounted(l: Ledger, call: Call, decision: Decision, now: int, l': Ledger)
    requires Chained(l.records, l.runId) && call.binding.runId == l.runId
    requires l' == Appended(l, call, decision, now)
    ensures Chained(l'.records, l.runId)
    ensures |l'.records| == |l.records| + 1 && l.records <= l'.records
    ensures Spent(l'.records) == Plus(Spent(l.records), if decision.UsageRecorded? then decision.usage else NO_USAGE)
    ensures LastRecorded(l'.records) == if decision.UsageRecorded? then decision.usage.total else LastRecorded(l.records)
  {
    ChainAppend(l.records, l.runId, l'.records[|l.records|]);
    assert l'.records[..|l'.records| - 1] == l.records;
  }

  function UsageOf(decision: Decision): Usage {
    if decision.UsageRecorded? then decision.usage else NO_USAGE
  }

  predicate Sound(decision: Decision) {
    decision.UsageRecorded? ==>
      && Readable(decision.usage)
      && decision.usage.calls == 1
      && decision.usage.total == decision.usage.prompt + decision.usage.completion
  }

  /** l' is what a settling call writes over the ledger it released its reservation from. */
  ghost predicate Settles(f: Files, call: Call, decision: Decision, now: int, l': Ledger) {
    && f.ledger.Some?
    && Released(f, call, now).Ok?
    && var l := f.ledger.value.body;
    l' == Appended(Released(f, call, now).value, call, decision, now)
          .(spent := Plus(l.spent, UsageOf(decision)),
            cumulative := Plus(l.baseline, Plus(l.spent, UsageOf(decision))),
            status := l'.status)
  }

  /** A result that reaches the ledger moves one reservation into one record. */
  lemma SettledAccounted(f: Files, call: Call, decision: Decision, now: int, l': Ledger)
    requires Settles(f, call, decision, now, l') && Accounted(f.ledger.value.body) && Sound(decision)
    ensures Accounted(l')
    ensures l'.inFlight == f.ledger.value.body.inFlight - call.exposure
    ensures l'.spent == Plus(f.ledger.value.body.spent, UsageOf(decision))
    ensures l'.reservations == f.ledger.value.body.reservations - {call.id}
    ensures LastRecorded(l'.records) ==
            if decision.UsageRecorded? then UsageOf(decision).total else LastRecorded(f.ledger.value.body.records)
  {
    hide Chained, Spent, LastRecorded, LastLink, ReleasedCount, Reserved;
    var l := f.ledger.value.body;
    var released := Released(f, call, now).value;
    ReservedRemove(l.reservations, call.id);
    AppendAccounted(released, call, decision, now, Appended(released, call, decision, now));
  }

  /** What a settling call leaves as it was, and what it found. */
  lemma SettledLedger(f: Files, call: Call, decision: Decision, now: int, l': Ledger)
    requires Settles(f, call, decision, now, l')
    ensures
      var l := f.ledger.value.body;
      && l.runId == call.binding.runId && l.status == Running
      && call.id in l.reservations && l.reservations[call.id].exposure == call.exposure
      && l'.runId == l.runId && l'.baseline == l.baseline && l'.attempts == l.attempts && l'.rearms == l.rearms
      && l'.reservations == l.reservations - {call.id}
      && l'.spent == Plus(l.spent, UsageOf(decision))
      && l.records <= l'.records
  {
  }

  // ----- what each step does, as relations between two states of the files

  /** The ledger a served request starts from: the one on disk, or a new one over the baseline. */
  function StartingLedger(f: Files, now: int): Ledger
    requires f.binding.Some? && (f.ledger.None? ==> f.baseline.Some?)
  {
    if f.ledger.Some? then f.ledger.value.body
    else FreshLedger(f.binding.value.body.runId, f.baseline.value.body.totals, now)
  }

  ghost predicate Granted(f: Files, f': Files, call: Call, now: int) {
    && f.binding.Some? && call.binding == f.binding.value.body && call.binding.state == Active
    && (f.ledger.None? ==> f.baseline.Some?)
    && var l := StartingLedger(f, now);
    && l.runId == call.binding.runId && l.status == Running
    && l.attempts < call.binding.maxCalls
    && l.spent.total + l.inFlight + call.exposure <= call.binding.cap
    && f' == f.(ledger := Some(SealLedger(
                  l.(reservations := l.reservations[call.id := Reservation(call.actor, call.task, call.exposure)],
                     attempts := l.attempts + 1, inFlight := l.inFlight + call.exposure, updatedAt := now))))
  }

  /** A returning call settles its reservation, or changes nothing at all. */
  ghost predicate Returned(f: Files, f': Files, call: Call, decision: Decision, now: int) {
    if f.ledger.Some? && Released(f, call, now).Ok? then
      && f'.ledger.Some? && f' == f.(ledger := Some(SealLedger(f'.ledger.value.body)))
      && Settles(f, call, decision, now, f'.ledger.value.body)
      && (f'.ledger.value.body.status == FuseTripped(CapExceededAfterCall) <==>
            decision.UsageRecorded? && f'.ledger.value.body.spent.total > call.binding.cap)
    else f' == f
  }

  /** b' is the same Run's binding after a control call: limits only grow, histories only extend. */
  predicate Succeeds(b: Binding, b': Binding) {
    && b'.runId == b.runId && b'.cap >= b.cap && b'.maxCalls >= b.maxCalls && b'.maxOutput == b.maxOutput
    && b'.baselineSha == b.baselineSha && b'.baselineTotal == b.baselineTotal
    && b'.tasks == b.tasks && b'.identities.Keys == b.identities.Keys
    && b.windows <= b'.windows && b.rotations <= b'.rotations && b.raises <= b'.raises
    && b.state == Active
  }

  predicate Rebound(f: Files, f': Files) {
    || f' == f
    || (f.binding.Some? && f'.binding.Some? && f' == f.(binding := f'.binding)
        && Intact(f'.binding.value) && Succeeds(f.binding.value.body, f'.binding.value.body))
  }

  predicate Reopened(f: Files, f': Files) {
    || Rebound(f, f')
    || (f.ledger.Some? && f'.ledger.Some?
        && Rebound(f.(ledger := f'.ledger), f')
        && var l, l' := f.ledger.value.body, f'.ledger.value.body;
        && l.status == FuseTripped(UpstreamTransportFailure)
        && |l'.rearms| == |l.rearms| + 1 && l'.rearms[..|l.rearms|] == l.rearms
        && l'.rearms[|l.rearms|].released == l.reservations
        && f'.ledger.value == SealLedger(l.(rearms := l'.rearms, status := Running, reservations := map[],
                                            inFlight := 0, updatedAt := l'.updatedAt)))
  }

  /** Preparation, stopped anywhere: nothing; the ledger archived and a new baseline; or the new binding on top. */
  predicate Prepared(f: Files, f': Files, runId: string) {
    || f' == f
    || (&& (f.binding.Some? ==> f.binding.value.body.state != Active && f.binding.value.body.runId != runId)
        && f'.ledger.None?
        && f'.archive == f.archive + (if f.ledger.Some? then {f.ledger.value} else {})
        && (f.ledger.Some? ==> f.ledger.value !in f.archive)
        && (|| f'.binding == f.binding
            || (&& f'.binding.Some? && Intact(f'.binding.value) && Usable(f'.binding.value.body)
                && f'.binding.value.body.runId == runId
                && BaselineFault(f'.baseline, f'.binding.value.body) == None)))
  }

  /** The decision a returning call writes down. */
  function DecisionOf(s: Step): Decision
    requires s.ResultStep? || s.FailureStep?
  {
    if s.FailureStep? then TransportFailure(s.why)
    else if ParseUsage(s.reported).Some? then UsageRecorded(ParseUsage(s.reported).value)
    else UsageUnreadable
  }

  ghost predicate Moved(w: World, s: Step, w': World)
    requires Possible(w, s)
  {
    match s
    case AuthorizeStep(_, now, id) =>
      || w' == w
      || (&& id in w'.calls && w'.calls[id].id == id && w'.calls == w.calls[id := w'.calls[id]]
          && Granted(w.files, w'.files, w'.calls[id], now))
    case ResultStep(id, _, now) =>
      w'.calls == w.calls && Sound(DecisionOf(s)) && Returned(w.files, w'.files, w.calls[id], DecisionOf(s), now)
    case FailureStep(id, _, now) =>
      w'.calls == w.calls && Sound(DecisionOf(s)) && Returned(w.files, w'.files, w.calls[id], DecisionOf(s), now)
    case PrepareStep(p, _, _) => w'.calls == w.calls && Prepared(w.files, w'.files, p.runId)
    case RearmStep(_, _, _) => w'.calls == w.calls && Reopened(w.files, w'.files) && SameCap(w.files, w'.files)
    case RaiseStep(_, _, _, _) => w'.calls == w.calls && Rebound(w.files, w'.files)
    case _ => w'.calls == w.calls && Rebound(w.files, w'.files) && SameCap(w.files, w'.files)
  }

  predicate SameCap(f: Files, f': Files) {
    f.binding.Some? && f'.binding.Some? ==> f'.binding.value.body.cap == f.binding.value.body.cap
  }

  predicate Cumulates(f: Files) {
    f.ledger.Some? ==> f.ledger.value.body.cumulative == Plus(f.ledger.value.body.baseline, f.ledger.value.body.spent)
  }

  lemma AuthorizeMoves(f: Files, req: ModelRequest, now: int, id: ReservationId)
    ensures
      var (f', reply) := Authorize(f, req, now, id);
      if reply.Ok? then reply.value.id == id && Granted(f, f', reply.value, now) else f' == f
  {
    hide BaselineFault, ActorFault, RequestFault, RequestExposure;
  }

  lemma ResultMoves(f: Files, call: Call, reported: seq<RawUsage>, now: int)
    requires Cumulates(f)
    ensures
      var parsed := ParseUsage(reported);
      Returned(f, RecordResult(f, call, reported, now).0, call,
               if parsed.Some? then UsageRecorded(parsed.value) else UsageUnreadable, now)
  {
  }

  lemma FailureMoves(f: Files, call: Call, why: string, now: int)
    requires Cumulates(f)
    ensures Returned(f, RecordFailure(f, call, why, now).0, call, TransportFailure(why), now)
  {
  }

  lemma NewBindingUsable(p: RunRequest, now: int)
    requires RunRequestFault(p) == None
    ensures ActorFault(NewBinding(p, now)) == None
    ensures BaselineFault(Some(Seal(Baseline(p.runId, p.totals))), NewBinding(p, now)) == None
    ensures p.runId != ""
  {
    var actor :| actor in p.identities;
    assert actor in Hashed(p.identities);
  }

  lemma PrepareMoves(f: Files, p: RunRequest, now: int, stages: nat)
    ensures Prepared(f, PrepareRun(f, p, now, stages).0, p.runId)
  {
    hide RunRequestFault, BaselineFault, ActorFault;
    if RunRequestFault(p) == None {
      NewBindingUsable(p, now);
    }
  }

  lemma RearmMoves(f: Files, runId: string, now: int, stages: nat)
    ensures Reopened(f, Rearm(f, runId, now, stages).0) && SameCap(f, Rearm(f, runId, now, stages).0)
  {
  }

  lemma ControlMoves(w: World, s: Step)
    requires s.CloseStep? || s.RenewStep? || s.RotateStep? || s.ExtendStep? || s.RaiseStep?
    ensures Moved(w, s, Apply(w, s))
  {
    hide Authorize, RecordResult, RecordFailure, PrepareRun, Rearm, Granted, Returned, Prepared, Reopened, ParseUsage;
  }

  lemma StepMoves(w: World, s: Step)
    requires Possible(w, s) && Cumulates(w.files)
    ensures Moved(w, s, Apply(w, s))
  {
    hide Authorize, RecordResult, RecordFailure, PrepareRun, Rearm, Granted, Returned, Prepared, Reopened;
    match s
    case AuthorizeStep(req, now, id) => AuthorizeMoves(w.files, req, now, id);
    case ResultStep(id, reported, now) => ResultMoves(w.files, w.calls[id], reported, now);
    case FailureStep(id, why, now) => FailureMoves(w.files, w.calls[id], why, now);
    case PrepareStep(p, now, stages) => PrepareMoves(w.files, p, now, stages);
    case RearmStep(runId, now, stages) => RearmMoves(w.files, runId, now, stages);
    case _ => ControlMoves(w, s);
  }

  // ----- every step keeps the invariant

  lemma StartIsGood(w: World, now: int)
    requires Good(w) && w.files.binding.Some? && w.files.binding.value.body.state == Active
    requires w.files.ledger.None? ==> w.files.baseline.Some?
    ensures
      var l, b := StartingLedger(w.files, now), w.files.binding.value.body;
      && Accounted(l) && WithinCap(l, b) && Backed(l, b, w.calls)
      && w.files.baseline.Some? && w.files.baseline.value.body == Baseline(l.runId, l.baseline)
  {
    assert Reserved(map[]) == 0;
  }

  lemma GrantAccounted(l: Ledger, id: ReservationId, r: Reservation, l': Ledger)
    requires Accounted(l) && id !in l.reservations
    requires l' == l.(reservations := l.reservations[id := r], attempts := l.attempts + 1,
                      inFlight := l.inFlight + r.exposure, updatedAt := l'.updatedAt)
    ensures Accounted(l')
  {
    ReservedInsert(l.reservations, id, r);
    assert l'.reservations.Keys == l.reservations.Keys + {id};
  }

  lemma GrantKeeps(w: World, s: Step, w': World)
    requires Good(w) && s.AuthorizeStep? && Possible(w, s) && Moved(w, s, w')
    ensures Good(w')
  {
    hide Accounted, Chained, BaselineFault, ActorFault;
    if w' != w {
      StartIsGood(w, s.now);
      var call := w'.calls[s.id];
      GrantAccounted(StartingLedger(w.files, s.now), call.id,
                     Reservation(call.actor, call.task, call.exposure), w'.files.ledger.value.body);
    }
  }

  lemma SettledWithinCap(f: Files, call: Call, decision: Decision, now: int, l': Ledger, b: Binding, calls: map<ReservationId, Call>)
    requires Settles(f, call, decision, now, l') && Accounted(f.ledger.value.body) && Sound(decision)
    requires WithinCap(f.ledger.value.body, b) && Backed(f.ledger.value.body, b, calls) && call == calls[call.id]
    requires l'.status == FuseTripped(CapExceededAfterCall) <==> decision.UsageRecorded? && l'.spent.total > call.binding.cap
    ensures Accounted(l') && WithinCap(l', b) && Backed(l', b, calls)
  {
    hide Accounted, Chained, Released, Settles, LastRecorded, Spent;
    SettledAccounted(f, call, decision, now, l');
    SettledLedger(f, call, decision, now, l');
  }

  lemma ReturnKeeps(w: World, s: Step, w': World)
    requires Good(w) && (s.ResultStep? || s.FailureStep?) && Possible(w, s) && Moved(w, s, w')
    ensures Good(w')
  {
    hide Accounted, Chained, BaselineFault, ActorFault, Released, ParseUsage, WithinCap, Backed, Appended;
    var call := w.calls[s.id];
    if w.files.ledger.Some? && Released(w.files, call, s.now).Ok? {
      var l' := w'.files.ledger.value.body;
      SettledLedger(w.files, call, DecisionOf(s), s.now, l');
      SettledWithinCap(w.files, call, DecisionOf(s), s.now, l', w.files.binding.value.body, w.calls);
    }
  }

  lemma ReopenKeeps(w: World, w': World)
    requires Good(w) && w'.calls == w.calls && Reopened(w.files, w'.files)
    ensures Good(w')
  {
    assert Reserved(map[]) == 0;
    if !Rebound(w.files, w'.files) {
      var l, l' := w.files.ledger.value.body, w'.files.ledger.value.body;
      assert l'.rearms[..|l'.rearms| - 1] == l.rearms;
    }
  }

  lemma PrepareKeeps(w: World, w': World, runId: string)
    requires Good(w) && w'.calls == w.calls && Prepared(w.files, w'.files, runId)
    ensures Good(w')
  {
  }

  lemma MoveKeeps(w: World, s: Step, w': World)
    requires Good(w) && Possible(w, s) && Moved(w, s, w')
    ensures Good(w')
  {
    hide Good, Possible, Granted, Returned, Prepared, Reopened;
    match s
    case AuthorizeStep(_, _, _) => GrantKeeps(w, s, w');
    case ResultStep(_, _, _) => ReturnKeeps(w, s, w');
    case FailureStep(_, _, _) => ReturnKeeps(w, s, w');
    case PrepareStep(p, _, _) => PrepareKeeps(w, w', p.runId);
    case _ => ReopenKeeps(w, w');
  }

  lemma GoodCumulates(w: World)
    requires Good(w)
    ensures Cumulates(w.files)
  {
  }

  lemma EmptyIsGood()
    ensures Good(EMPTY)
  {
  }

  /** What a step does from a sound world, and that it leaves a sound world. */
  lemma StepKeeps(w: World, s: Step)
    requires Good(w) && Possible(w, s)
    ensures Moved(w, s, Apply(w, s)) && Good(Apply(w, s))
  {
    hide Good, Apply, Moved, Cumulates;
    GoodCumulates(w);
    StepMoves(w, s);
    MoveKeeps(w, s, Apply(w, s));
  }

  lemma {:induction false} HistoryGood(ws: seq<World>, steps: seq<Step>, i: nat)
    requires History(ws, steps) && ws[0] == EMPTY && i < |ws|
    ensures Good(ws[i])
  {
    hide Good, Apply, Possible;
    EmptyIsGood();
    if i > 0 {
      HistoryGood(ws, steps, i - 1);
      StepKeeps(ws[i - 1], steps[i - 1]);
    }
  }

  // ----- main results

  /**
   * Accounting, in every interleaving: in-flight tokens are exactly the open
   * reservations, every attempt is a record, an open reservation or one that a
   * re-arm released, every counter is the sum over the usage records, and the
   * calls counted are as many as those records.
   */
  lemma AccountingHolds(ws: seq<World>, steps: seq<Step>, i: nat)
    requires History(ws, steps) && ws[0] == EMPTY && i < |ws| && ws[i].files.ledger.Some?
    ensures
      var l := ws[i].files.ledger.value.body;
      && l.inFlight == Reserved(l.reservations)
      && l.attempts == |l.records| + |l.reservations| + ReleasedCount(l.rearms)
      && l.spent == Spent(l.records)
      && ws[i].files.baseline.Some?
      && l.cumulative == Plus(ws[i].files.baseline.value.body.totals, Spent(l.records))
      && l.spent.calls == UsageRecords(l.records)
  {
    HistoryGood(ws, steps, i);
    CallsAreRecords(ws[i].files.ledger.value.body.records);
  }

  lemma {:induction false} CallsAreRecords(records: seq<Record>)
    requires forall i :: 0 <= i < |records| && records[i].body.decision.UsageRecorded? ==>
               records[i].body.decision.usage.calls == 1
    ensures Spent(records).calls == UsageRecords(records)
    decreases |records|
  {
    if records != [] {
      CallsAreRecords(records[..|records| - 1]);
    }
  }

  /** Cap safety: only the fuse that marks an overrun leaves the total above the cap, and then by one usage at most. */
  lemma CapNeverExceededWhileRunning(ws: seq<World>, steps: seq<Step>, i: nat)
    requires History(ws, steps) && ws[0] == EMPTY && i < |ws| && ws[i].files.ledger.Some?
    ensures
      && ws[i].files.binding.Some?
      && var l, b := ws[i].files.ledger.value.body, ws[i].files.binding.value.body;
      && b.runId == l.runId
      && l.attempts <= b.maxCalls
      && (l.status == Running ==> l.spent.total <= b.cap)
      && l.spent.total - LastRecorded(l.records) <= b.cap
  {
    HistoryGood(ws, steps, i);
  }

  /** A crash between any two writes never leaves an ACTIVE binding without its own baseline, or over another Run's ledger. */
  lemma PublicationIsOrdered(ws: seq<World>, steps: seq<Step>, i: nat)
    requires History(ws, steps) && ws[0] == EMPTY && i < |ws|
    requires ws[i].files.binding.Some? && ws[i].files.binding.value.body.state == Active
    ensures
      var f, b := ws[i].files, ws[i].files.binding.value.body;
      && f.baseline.Some? && f.baseline.value.sha == b.baselineSha && Intact(f.baseline.value) && f.baseline.value.body.runId == b.runId
      && (f.ledger.None? || f.ledger.value.body.runId == b.runId)
  {
    HistoryGood(ws, steps, i);
  }

  /**
   * A served request, exactly: the Run is active and not expired, the caller is
   * who the binding says for the task it names, no fuse has tripped, and both
   * a call and the request's whole exposure still fit beside what is reserved.
   */
  lemma AuthorizeExactly(w: World, req: ModelRequest, now: int, id: ReservationId)
    requires Good(w)
    ensures
      var f := w.files;
      Authorize(f, req, now, id).1.Ok? <==>
        && f.binding.Some?
        && var b := f.binding.value.body;
        && b.state == Active && now < b.expiresAt
        && req.runId == b.runId
        && req.actor in b.identities && b.identities[req.actor] == Sha256(req.identity) && req.identity != ""
        && req.actor in b.tasks && b.tasks[req.actor] == req.task
        && RequestExposure(req.body, b.maxOutput).Ok?
        && var exposure := RequestExposure(req.body, b.maxOutput).value;
        && (match f.ledger
            case None => exposure <= b.cap
            case Some(file) =>
              && file.body.status == Running
              && file.body.attempts < b.maxCalls
              && file.body.spent.total + file.body.inFlight + exposure <= b.cap)
  {
    assert Reserved(map[]) == 0;
  }

  /** No control call resets usage, forgets a record or lowers a limit of the Run it acts on. */
  lemma ControlKeepsUsage(w: World, s: Step)
    requires Good(w) && w.files.ledger.Some?
    requires s.CloseStep? || s.RearmStep? || s.RenewStep? || s.RotateStep? || s.ExtendStep? || s.RaiseStep?
    ensures
      var f := Apply(w, s).files;
      && f.ledger.Some? && f.binding.Some? && f.baseline == w.files.baseline && f.archive == w.files.archive
      && var l, l', b, b' := w.files.ledger.value.body, f.ledger.value.body, w.files.binding.value.body, f.binding.value.body;
      && l'.runId == l.runId && l'.attempts == l.attempts && l'.spent == l.spent
      && l'.cumulative == l.cumulative && l'.records == l.records
      && b'.runId == b.runId && b'.cap >= b.cap && b'.maxCalls >= b.maxCalls
      && b.windows <= b'.windows && b.rotations <= b'.rotations && b.raises <= b'.raises
  {
    hide Apply, Accounted, BaselineFault, ActorFault, Granted, Returned, Prepared;
    StepKeeps(w, s);
  }

  // ----- a call that holds no reservation can no longer change anything

  predicate Holds(f: Files, id: ReservationId) {
    f.ledger.Some? && id in f.ledger.value.body.reservations
  }

  lemma NotHeldIsHarmless(w: World, s: Step)
    requires Good(w) && Possible(w, s) && (s.ResultStep? || s.FailureStep?) && !Holds(w.files, s.id)
    ensures Apply(w, s) == w
  {
    hide Apply, Accounted, BaselineFault, ActorFault, Appended, ParseUsage;
    StepKeeps(w, s);
  }

  lemma NeverHeldAgain(w: World, s: Step, w': World, id: ReservationId)
    requires Good(w) && Possible(w, s) && Moved(w, s, w')
    requires id in w.calls && !Holds(w.files, id)
    ensures id in w'.calls && !Holds(w'.files, id)
  {
    hide Accounted, Chained, BaselineFault, ActorFault;
  }

  lemma {:induction false} NeverHeldLater(ws: seq<World>, steps: seq<Step>, i: nat, j: nat, id: ReservationId)
    requires History(ws, steps) && ws[0] == EMPTY && i <= j < |ws|
    requires id in ws[i].calls && !Holds(ws[i].files, id)
    ensures id in ws[j].calls && !Holds(ws[j].files, id)
    decreases j
  {
    hide Good, Apply, Moved, Possible, Holds;
    if i < j {
      NeverHeldLater(ws, steps, i, j - 1, id);
      HistoryGood(ws, steps, j - 1);
      StepKeeps(ws[j - 1], steps[j - 1]);
      NeverHeldAgain(ws[j - 1], steps[j - 1], ws[j], id);
    }
  }

  /**
   * Isolation: once a call's reservation is gone, because it settled, a re-arm
   * released it or a newer Run took the ledger's place, its result changes no
   * file however late it arrives.
   */
  lemma LateResultIsIsolated(ws: seq<World>, steps: seq<Step>, i: nat, j: nat, id: ReservationId)
    requires History(ws, steps) && ws[0] == EMPTY && i <= j < |steps|
    requires id in ws[i].calls && !Holds(ws[i].files, id)
    requires (steps[j].ResultStep? || steps[j].FailureStep?) && steps[j].id == id
    ensures ws[j + 1] == ws[j]
  {
    hide Good, Moved, Holds;
    NeverHeldLater(ws, steps, i, j, id);
    HistoryGood(ws, steps, j);
    NotHeldIsHarmless(ws[j], steps[j]);
  }

  /** A result of one Run never touches the ledger of another, whatever that ledger holds. */
  lemma OtherRunsLedgerUntouched(w: World, s: Step)
    requires Good(w) && Possible(w, s) && (s.ResultStep? || s.FailureStep?)
    requires w.files.ledger.Some? && w.files.ledger.value.body.runId != w.calls[s.id].binding.runId
    ensures Apply(w, s) == w
  {
    hide Apply, Accounted, BaselineFault, ActorFault, Appended, ParseUsage;
    StepKeeps(w, s);
  }

  // ----- append-only records

  predicate Grows(first: Ledger, l: Ledger) {
    && first.runId == l.runId
    && first.baseline == l.baseline
    && first.records <= l.records
    && first.rearms <= l.rearms
    && first.attempts <= l.attempts
  }

  /** The ledger's history goes on, in place or in the archive. */
  ghost predicate Continued(l: Ledger, f: Files) {
    || (f.ledger.Some? && Grows(l, f.ledger.value.body))
    || exists a :: a in f.archive && Grows(l, a.body)
  }

  lemma LedgerGrows(w: World, s: Step, w': World)
    requires Good(w) && Possible(w, s) && Moved(w, s, w')
    requires w.files.ledger.Some? && w'.files.ledger.Some?
    ensures Grows(w.files.ledger.value.body, w'.files.ledger.value.body)
  {
    hide Chained, BaselineFault, ActorFault;
  }

  /** A ledger only leaves its place for the archive, and nothing leaves the archive. */
  lemma ArchiveGrows(w: World, s: Step, w': World)
    requires Possible(w, s) && Moved(w, s, w')
    ensures w.files.archive <= w'.files.archive
    ensures w.files.ledger.Some? && w'.files.ledger.None? ==> w.files.ledger.value in w'.files.archive
  {
    hide Settles, Succeeds, Released;
  }

  lemma StepContinues(w: World, s: Step, w': World, l: Ledger)
    requires Good(w) && Possible(w, s) && Moved(w, s, w')
    requires Continued(l, w.files)
    ensures Continued(l, w'.files)
    ensures w.files.archive <= w'.files.archive
  {
    hide Good, Moved, Possible;
    ArchiveGrows(w, s, w');
    if w.files.ledger.Some? && w'.files.ledger.Some? {
      LedgerGrows(w, s, w');
    }
  }

  /** Records and re-arm events are append-only: what is written once is a prefix of everything written later. */
  lemma {:induction false} RecordsAppendOnly(ws: seq<World>, steps: seq<Step>, i: nat, j: nat)
    requires History(ws, steps) && ws[0] == EMPTY && i <= j < |ws| && ws[i].files.ledger.Some?
    ensures Continued(ws[i].files.ledger.value.body, ws[j].files)
    ensures ws[i].files.archive <= ws[j].files.archive
    decreases j
  {
    hide Good, Apply, Moved, Possible;
    var l := ws[i].files.ledger.value.body;
    if i == j {
      assert Grows(l, l);
    } else {
      RecordsAppendOnly(ws, steps, i, j - 1);
      HistoryGood(ws, steps, j - 1);
      StepKeeps(ws[j - 1], steps[j - 1]);
      StepContinues(ws[j - 1], steps[j - 1], ws[j], l);
    }
  }

  /** The chain itself: numbered 1..n and linked from GENESIS, across re-arms. */
  lemma RecordsAreChained(ws: seq<World>, steps: seq<Step>, i: nat)
    requires History(ws, steps) && ws[0] == EMPTY && i < |ws| && ws[i].files.ledger.Some?
    ensures Chained(ws[i].files.ledger.value.body.records, ws[i].files.ledger.value.body.runId)
  {
    HistoryGood(ws, steps, i);
  }

  lemma ChainPrefix(records: seq<Record>, runId: string)
    requires Chained(records, runId) && records != []
    ensures Chained(records[..|records| - 1], runId)
    ensures LastLink(records[..|records| - 1]) == records[|records| - 1].body.previous
  {
    var shorter := records[..|records| - 1];
    assert ChainedAt(records, |shorter|, runId);
    forall i: nat | i < |shorter|
      ensures ChainedAt(shorter, i, runId)
    {
      assert ChainedAt(records, i, runId);
      assert shorter[..i] == records[..i];
    }
  }

  /** Linked digests commit to the whole chain: equal last digests mean equal chains. */
  lemma {:induction false} ChainCommitsToHistory(a: seq<Record>, b: seq<Record>, runId: string)
    requires Chained(a, runId) && Chained(b, runId)
    requires LastLink(a) == LastLink(b)
    ensures a == b
    decreases |a|
  {
    if a != [] {
      ChainPrefix(a, runId);
      ChainPrefix(b, runId);
      assert ChainedAt(a, |a| - 1, runId) && ChainedAt(b, |b| - 1, runId);
      assert a[|a| - 1] == b[|b| - 1];
      ChainCommitsToHistory(a[..|a| - 1], b[..|b| - 1], runId);
      assert a == a[..|a| - 1] + [a[|a| - 1]] && b == b[..|b| - 1] + [b[|b| - 1]];
    }
  }

  // ----- fuses

  predicate Absorbing(file: LedgerFile) {
    file.body.status.FuseTripped? && file.body.status.reason != UpstreamTransportFailure
  }

  lemma StepAbsorbs(w: World, s: Step, w': World, file: LedgerFile)
    requires Good(w) && Possible(w, s) && Moved(w, s, w') && Absorbing(file)
    requires w.files.ledger == Some(file) || file in w.files.archive
    ensures w'.files.ledger == Some(file) || file in w'.files.archive
    ensures w.files.ledger == Some(file) ==> w'.calls == w.calls
  {
    hide Accounted, Chained, BaselineFault, ActorFault, Appended, Possible;
  }

  /** The fused ledger is never touched again: on disk or in the archive it stays byte for byte what it was, for ever. */
  lemma {:induction false} FusedLedgerIsKept(ws: seq<World>, steps: seq<Step>, i: nat, j: nat)
    requires History(ws, steps) && ws[0] == EMPTY && i <= j < |ws|
    requires ws[i].files.ledger.Some? && Absorbing(ws[i].files.ledger.value)
    ensures ws[j].files.ledger == ws[i].files.ledger || ws[i].files.ledger.value in ws[j].files.archive
    decreases j
  {
    hide Good, Apply, Moved, Absorbing, Possible;
    if i < j {
      FusedLedgerIsKept(ws, steps, i, j - 1);
      HistoryGood(ws, steps, j - 1);
      StepKeeps(ws[j - 1], steps[j - 1]);
      StepAbsorbs(ws[j - 1], steps[j - 1], ws[j], ws[i].files.ledger.value);
    }
  }

  /**
   * The fused Run is over: its ledger is in place, or a preparation has archived
   * it and stopped, and then its binding is still there and no longer ACTIVE.
   */
  predicate Silenced(f: Files, file: LedgerFile) {
    || f.ledger == Some(file)
    || (&& f.ledger.None? && file in f.archive
        && f.binding.Some? && f.binding.value.body.runId == file.body.runId && f.binding.value.body.state != Active)
  }

  lemma CallStaysSilent(w: World, s: Step, w': World, file: LedgerFile)
    requires Good(w) && Possible(w, s) && Moved(w, s, w') && Absorbing(file) && Silenced(w.files, file)
    requires !s.PrepareStep?
    ensures Silenced(w'.files, file) && w'.calls == w.calls
  {
    hide Accounted, Chained, BaselineFault, ActorFault, Backed, WithinCap, Settles;
    if w.files.ledger == Some(file) {
      StepAbsorbs(w, s, w', file);
    }
  }

  lemma PrepareStaysSilent(w: World, s: Step, file: LedgerFile)
    requires Good(w) && Absorbing(file) && Silenced(w.files, file)
    requires s.PrepareStep? && !Rebinds(w, s, file.body.runId)
    ensures Silenced(Apply(w, s).files, file) && Apply(w, s).calls == w.calls
  {
    hide Accounted, Chained, BaselineFault, ActorFault, Backed, WithinCap, RunRequestFault, LimitsPositive, NewBinding;
  }

  /**
   * Fuse absorption: once a ledger's fuse tripped for unreadable usage or an
   * exceeded cap, no sequence of steps lets a call through or changes that ledger
   * before another Run is bound, not even around a preparation that archived it
   * and stopped before the new binding.
   */
  lemma {:induction false} FuseAbsorbs(ws: seq<World>, steps: seq<Step>, i: nat, j: nat)
    requires History(ws, steps) && ws[0] == EMPTY && i <= j < |ws|
    requires ws[i].files.ledger.Some? && Absorbing(ws[i].files.ledger.value)
    requires forall k :: i <= k < j ==> !Rebinds(ws[k], steps[k], ws[i].files.ledger.value.body.runId)
    ensures ws[j].calls == ws[i].calls
    ensures Silenced(ws[j].files, ws[i].files.ledger.value)
    decreases j
  {
    hide Good, Apply, Moved, Absorbing, Possible, Silenced, Rebinds;
    var file := ws[i].files.ledger.value;
    if i == j {
      assert Silenced(ws[j].files, file) by { InPlaceIsSilenced(ws[j].files, file); }
    } else {
      FuseAbsorbs(ws, steps, i, j - 1);
      HistoryGood(ws, steps, j - 1);
      StepKeeps(ws[j - 1], steps[j - 1]);
      if steps[j - 1].PrepareStep? {
        PrepareStaysSilent(ws[j - 1], steps[j - 1], file);
      } else {
        CallStaysSilent(ws[j - 1], steps[j - 1], ws[j], file);
      }
    }
  }

  lemma InPlaceIsSilenced(f: Files, file: LedgerFile)
    requires f.ledger == Some(file)
    ensures Silenced(f, file)
  {
  }

  /** Exactly the transport-failure fuse of the active Run can be re-armed, and re-arming resets no counter. */
  lemma RearmExactly(w: World, runId: string, now: int)
    requires Good(w)
    ensures Rearm(w.files, runId, now, 2).1.Ok? <==>
              && w.files.binding.Some? && w.files.binding.value.body.runId == runId
              && w.files.binding.value.body.state == Active
              && w.files.ledger.Some?
              && w.files.ledger.value.body.status == FuseTripped(UpstreamTransportFailure)
    ensures Rearm(w.files, runId, now, 2).1.Ok? ==>
              var l, l' := w.files.ledger.value.body, Rearm(w.files, runId, now, 2).0.ledger.value.body;
              && l'.status == Running && l'.reservations == map[] && l'.inFlight == 0
              && l'.attempts == l.attempts && l'.spent == l.spent && l'.cumulative == l.cumulative
              && l'.records == l.records
              && ReleasedCount(l'.rearms) == ReleasedCount(l.rearms) + |l.reservations|
  {
    if Rearm(w.files, runId, now, 2).1.Ok? {
      var l' := Rearm(w.files, runId, now, 2).0.ledger.value.body;
      assert l'.rearms[..|l'.rearms| - 1] == w.files.ledger.value.body.rearms;
    }
  }

  // ----- when the reservations really bound the Run

  /** Every usage stays within its reservation and no cap raise lands while a call is in flight. */
  predicate Disciplined(w: World, s: Step)
    requires Possible(w, s)
  {
    && (s.ResultStep? && ParseUsage(s.reported).Some? ==> ParseUsage(s.reported).value.total <= w.calls[s.id].exposure)
    && (s.RaiseStep? && w.files.ledger.Some? ==> w.files.ledger.value.body.reservations == map[])
  }

  ghost predicate TightFiles(f: Files, calls: map<ReservationId, Call>) {
    f.ledger.Some? && f.binding.Some? ==>
      var l, b := f.ledger.value.body, f.binding.value.body;
      && l.spent.total + l.inFlight <= b.cap
      && l.status != FuseTripped(CapExceededAfterCall)
      && forall id :: id in l.reservations && id in calls ==> calls[id].binding.cap == b.cap
  }

  lemma ReturnKeepsTight(w: World, s: Step, w': World)
    requires Good(w) && TightFiles(w.files, w.calls)
    requires (s.ResultStep? || s.FailureStep?) && Possible(w, s) && Disciplined(w, s) && Moved(w, s, w')
    ensures TightFiles(w'.files, w'.calls)
  {
    hide Accounted, Chained, BaselineFault, ActorFault, Released, Settles, Published, WithinCap;
    var call := w.calls[s.id];
    if w.files.ledger.Some? && Released(w.files, call, s.now).Ok? {
      var l' := w'.files.ledger.value.body;
      SettledAccounted(w.files, call, DecisionOf(s), s.now, l');
      SettledLedger(w.files, call, DecisionOf(s), s.now, l');
    }
  }

  lemma OtherKeepsTight(w: World, s: Step, w': World)
    requires Good(w) && TightFiles(w.files, w.calls)
    requires !s.ResultStep? && !s.FailureStep? && Possible(w, s) && Disciplined(w, s) && Moved(w, s, w')
    ensures TightFiles(w'.files, w'.calls)
  {
    assert Reserved(map[]) == 0;
  }

  /**
   * Under that discipline spent plus in-flight tokens never exceed the cap and
   * the after-call fuse never trips.
   */
  lemma {:induction false} ReservationsBoundTheRun(ws: seq<World>, steps: seq<Step>, i: nat)
    requires History(ws, steps) && ws[0] == EMPTY && i < |ws|
    requires forall k :: 0 <= k < |steps| ==> Disciplined(ws[k], steps[k])
    ensures TightFiles(ws[i].files, ws[i].calls)
  {
    hide Good, Apply, Moved, Disciplined, Possible;
    if i > 0 {
      ReservationsBoundTheRun(ws, steps, i - 1);
      HistoryGood(ws, steps, i - 1);
      StepKeeps(ws[i - 1], steps[i - 1]);
      if steps[i - 1].ResultStep? || steps[i - 1].FailureStep? {
        ReturnKeepsTight(ws[i - 1], steps[i - 1], ws[i]);
      } else {
        OtherKeepsTight(ws[i - 1], steps[i - 1], ws[i]);
      }
    }
  }

  /**
   * Exactly when the after-call fuse trips: the new total passes the cap the
   * call was let through under, not the cap in force when it returns.
   */
  lemma AfterCallFuseExactly(w: World, id: ReservationId, reported: seq<RawUsage>, now: int)
    requires Good(w) && id in w.calls && Holds(w.files, id) && w.files.ledger.value.body.status == Running
    requires ParseUsage(reported).Some?
    ensures
      var l := Apply(w, ResultStep(id, reported, now)).files.ledger.value.body;
      var total := w.files.ledger.value.body.spent.total + ParseUsage(reported).value.total;
      && l.spent.total == total
      && (l.status == FuseTripped(CapExceededAfterCall) <==> total > w.calls[id].binding.cap)
  {
    StepKeeps(w, ResultStep(id, reported, now));
    SettledAccounted(w.files, w.calls[id], DecisionOf(ResultStep(id, reported, now)), now,
                     Apply(w, ResultStep(id, reported, now)).files.ledger.value.body);
  }

  // ----- crashes and closing

  /** A preparation that stopped at any stage is finished by simply asking again. */
  lemma PrepareResumes(f: Files, p: RunRequest, now: int, stages: nat, again: int)
    requires PrepareRun(f, p, now, 3).1.Ok? && ExistingAnswer(f, p.runId).None? && stages < 3
    ensures PrepareRun(f, p, now, stages).1 == Err(Stopped)
    ensures PrepareRun(PrepareRun(f, p, now, stages).0, p, again, 3) == PrepareRun(f, p, again, 3)
  {
  }

  /** The step publishes another Run's binding. */
  predicate Rebinds(w: World, s: Step, runId: string) {
    && s.PrepareStep?
    && s.p.runId != runId
    && PrepareRun(w.files, s.p, s.now, s.stages).1.Ok?
  }

  lemma ClosedStep(w: World, s: Step)
    requires Possible(w, s) && w.files.binding.Some? && w.files.binding.value.body.state.Closed?
    ensures Apply(w, s).files.binding == w.files.binding || Rebinds(w, s, w.files.binding.value.body.runId)
  {
  }

  /** Closing is final: the receipt stays as it is until a different Run is bound in its place. */
  lemma {:induction false} ClosedReceiptIsFinal(ws: seq<World>, steps: seq<Step>, i: nat, j: nat)
    requires History(ws, steps) && i <= j < |ws|
    requires ws[i].files.binding.Some? && ws[i].files.binding.value.body.state.Closed?
    ensures || ws[j].files.binding == ws[i].files.binding
            || exists k :: i <= k < j && Rebinds(ws[k], steps[k], ws[i].files.binding.value.body.runId)
    decreases j
  {
    hide Apply, Possible;
    if i < j {
      ClosedReceiptIsFinal(ws, steps, i, j - 1);
      if ws[j - 1].files.binding == ws[i].files.binding {
        ClosedStep(ws[j - 1], steps[j - 1]);
      }
    }
  }
}
