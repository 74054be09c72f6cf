/**
 * The model-budget gateway: the files under its control root and what every
 * gateway and control-plane call does to them, as functions on values.
 * GatewayService holds the calls themselves; GatewayRuns the whole-run results.
 */
module Gateway {
  import opened Basics
  import opened MapSums

  type ReservationId = string

  // ----- stored records

  /** Prompt, completion and total tokens with the number of provider calls. */
  datatype Usage = Usage(prompt: int, completion: int, total: int, calls: int)

  const NO_USAGE := Usage(0, 0, 0, 0)

  function Plus(a: Usage, b: Usage): Usage {
    Usage(a.prompt + b.prompt, a.completion + b.completion, a.total + b.total, a.calls + b.calls)
  }

  predicate Readable(u: Usage) {
    u.prompt >= 0 && u.completion >= 0 && u.total >= 0 && u.calls >= 0
  }

  datatype Baseline = Baseline(runId: string, totals: Usage)

  datatype BindingState = Active | Closed(terminal: string, at: int)

  datatype WindowEvent =
    | TransportWindow(previousExpiry: int, at: int, newExpiry: int)
    | ExpiredWindow(previousExpiry: int, at: int, newExpiry: int)
    | RecoveryWindow(previousExpiry: int, at: int, newExpiry: int, calls: int, tokens: int, sequence: nat)

  datatype BudgetEvent = BudgetEvent(oldCap: int, newCap: int, oldCalls: int, newCalls: int, at: int)

  type Identities = map<string, Digest<string>>

  datatype RotationEvent = RotationEvent(previous: Digest<Identities>, next: Digest<Identities>, at: int)

  datatype Binding = Binding(
    runId: string,
    state: BindingState,
    expiresAt: int,
    cap: int,
    maxCalls: int,
    maxOutput: int,
    baselineSha: Digest<Baseline>,
    baselineTotal: int,
    identities: Identities,
    tasks: map<string, string>,
    windows: seq<WindowEvent>,
    rotations: seq<RotationEvent>,
    raises: seq<BudgetEvent>)

  datatype Reservation = Reservation(actor: string, task: string, exposure: nat)

  datatype Decision =
    | UsageRecorded(usage: Usage)
    | UsageUnreadable
    | TransportFailure(reason: string)

  datatype Link = Genesis | Follows(record: Digest<RecordBody>)

  datatype RecordBody = RecordBody(
    sequence: nat, runId: string, actor: string, task: string,
    decision: Decision, exposure: nat, previous: Link, at: int)

  type Record = Sealed<RecordBody>

  datatype FuseReason = ProviderUsageUnreadable | CapExceededAfterCall | UpstreamTransportFailure

  datatype LedgerStatus = Running | FuseTripped(reason: FuseReason)

  datatype RearmEvent = RearmEvent(
    previousLedger: Option<Digest<Ledger>>, attempts: nat, spent: Usage,
    released: map<ReservationId, Reservation>, window: WindowEvent, at: int)

  datatype Ledger = Ledger(
    runId: string,
    status: LedgerStatus,
    attempts: nat,
    spent: Usage,
    baseline: Usage,
    cumulative: Usage,
    inFlight: nat,
    reservations: map<ReservationId, Reservation>,
    records: seq<Record>,
    rearms: seq<RearmEvent>,
    updatedAt: int)

  datatype LedgerFile = LedgerFile(body: Ledger, sha: Option<Digest<Ledger>>)

  /** active_run.json, provider_usage_baseline.json, gateway_ledger.json and history/. */
  datatype Files = Files(
    binding: Option<Sealed<Binding>>,
    baseline: Option<Sealed<Baseline>>,
    ledger: Option<LedgerFile>,
    archive: set<LedgerFile>)

  datatype Reason =
    // reading the binding
    | BindingUnreadable | NoActiveRun | RunIdMissing | BindingExpired | LimitNegative
    | BindingHashMismatch | BaselineUnreadable | BaselineBindingMismatch | BaselineCounterNegative
    | BaselineTotalMismatch | BaselineTotalBindingMismatch | IdentityBindingMissing
    | IdentityBindingInvalid | TaskSetMismatch | TaskBindingInvalid
    // checking the request
    | RequestRunIdRequired | RequestRunIdMismatch | RequestActorRequired | RequestIdentityRequired
    | RequestActorNotAuthorized | RequestIdentityInvalid | RequestTaskIdRequired | RequestTaskIdMismatch
    | RequestUnreadable | RequestNotObject | RequestOutputLimitNegative | OutputCapInvalid
    // the ledger and its budget
    | LedgerUnreadable | LedgerRunMismatch | LedgerHashMismatch | FuseAlreadyTripped
    | CallCountFuse | ReservationTotalMismatch | TokenFuse | ExposureExceedsCap
    | ReservationNotFound | ReservationExposureMismatch | UsageNotReadable | CapExceeded
    // the control plane
    | RouteNotAttested | RunIdRequired | BaselineIncomplete | IdentitiesRequired | IdentityInvalid
    | TaskIdRequired | TaskIdsNotUnique | BoundToOtherRun | RunAlreadyClosed | ArchiveCollision
    | LimitsNotPositive | CloseRunMismatch | TerminalStateRequired | ClosedDifferently
    | NeedsSameActiveRun | NotRearmable | NotExpired | UsageNotZero | ActorSetMismatch
    | RotationInFlight | ExtensionLimitReached | LedgerNotRunning | CallCapReached | TokenCapReached
    | BudgetCannotDecrease
    // the process stopped between two writes
    | Stopped

  type Reply<T> = Outcome<T, Reason>

  // ----- reading the files

  /** The first reason in source order for which the baseline does not back this binding. */
  function BaselineFault(file: Option<Sealed<Baseline>>, b: Binding): Option<Reason> {
    match file
    case None => Some(BaselineUnreadable)
    case Some(base) =>
      if base.body.runId != b.runId || !Intact(base) || base.sha != b.baselineSha then Some(BaselineBindingMismatch)
      else if !Readable(base.body.totals) then Some(BaselineCounterNegative)
      else if base.body.totals.total != base.body.totals.prompt + base.body.totals.completion then
        Some(BaselineTotalMismatch)
      else if b.baselineTotal < 0 || b.baselineTotal != base.body.totals.total then
        Some(BaselineTotalBindingMismatch)
      else None
  }

  predicate DistinctTasks(tasks: map<string, string>) {
    forall a, c :: a in tasks && c in tasks && a != c ==> tasks[a] != tasks[c]
  }

  predicate BlankTask(tasks: map<string, string>) {
    exists a :: a in tasks && tasks[a] == ""
  }

  function ActorFault(b: Binding): Option<Reason> {
    if b.identities == map[] then Some(IdentityBindingMissing)
    else if "" in b.identities then Some(IdentityBindingInvalid)
    else if b.tasks.Keys != b.identities.Keys then Some(TaskSetMismatch)
    else if BlankTask(b.tasks) || !DistinctTasks(b.tasks) then Some(TaskBindingInvalid)
    else None
  }

  /** The binding a request may be served under, or why there is none. */
  function ActiveBinding(f: Files, now: int): Reply<Binding> {
    match f.binding
    case None => Err(BindingUnreadable)
    case Some(file) =>
      var b := file.body;
      if b.state != Active then Err(NoActiveRun)
      else if b.runId == "" then Err(RunIdMissing)
      else if now >= b.expiresAt then Err(BindingExpired)
      else if b.cap < 0 || b.maxCalls < 0 || b.maxOutput < 0 then Err(LimitNegative)
      else if !Intact(file) then Err(BindingHashMismatch)
      else match BaselineFault(f.baseline, b)
        case Some(reason) => Err(reason)
        case None =>
          match ActorFault(b)
          case Some(reason) => Err(reason)
          case None => Ok(b)
  }

  function FreshLedger(runId: string, totals: Usage, now: int): Ledger {
    Ledger(runId, Running, 0, NO_USAGE, totals, totals, 0, map[], [], [], now)
  }

  function ReadLedger(f: Files, runId: string, now: int): Reply<Ledger> {
    match f.ledger
    case None =>
      if f.baseline.None? then Err(BaselineUnreadable)
      else Ok(FreshLedger(runId, f.baseline.value.body.totals, now))
    case Some(file) =>
      if file.body.runId != runId then Err(LedgerRunMismatch)
      else if file.sha.Some? && file.sha.value != Sha256(file.body) then Err(LedgerHashMismatch)
      else if file.body.status.FuseTripped? then Err(FuseAlreadyTripped)
      else Ok(file.body)
  }

  function SealLedger(l: Ledger): LedgerFile {
    LedgerFile(l, Some(Sha256(l)))
  }

  function Exposures(reservations: map<ReservationId, Reservation>): map<ReservationId, nat> {
    map id | id in reservations :: reservations[id].exposure
  }

  /** Tokens promised to calls whose provider has not answered yet. */
  ghost function Reserved(reservations: map<ReservationId, Reservation>): nat {
    Sum(Exposures(reservations))
  }

  // ----- authorize

  datatype Field = Absent | Null | Value(n: int)

  datatype RequestBody =
    | UnreadableBody
    | NotAnObject
    | Payload(bytes: nat, maxTokens: Field, maxCompletionTokens: Field)

  datatype ModelRequest = ModelRequest(runId: string, actor: string, identity: string, task: string, body: RequestBody)

  /** A call let through: the binding it was let through under and what it reserved. */
  datatype Call = Call(id: ReservationId, binding: Binding, actor: string, task: string, exposure: nat)

  /** One token for each started group of four body bytes. */
  function InputTokens(bytes: nat): nat {
    if bytes == 0 then 1 else (bytes + 3) / 4
  }

  /** The estimated input plus the output the body declares first. */
  function RequestExposure(body: RequestBody, defaultOutput: nat): Reply<nat> {
    match body
    case UnreadableBody => Err(RequestUnreadable)
    case NotAnObject => Err(RequestNotObject)
    case Payload(bytes, maxTokens, maxCompletion) =>
      var declared := if maxTokens == Absent then maxCompletion else maxTokens;
      var output := if declared.Value? then declared.n else defaultOutput;
      if output < 0 then Err(RequestOutputLimitNegative) else Ok(InputTokens(bytes) + output)
  }

  /** The output limits as they are forwarded to the provider, and the largest of them. */
  datatype Forwarded = Forwarded(maxTokens: Field, maxCompletionTokens: Field, output: int)

  function Capped(f: Field, cap: int): Field {
    if f.Value? && f.n > cap then Value(cap) else f
  }

  function Larger(f: Field, n: int): int {
    if f.Value? && f.n > n then f.n else n
  }

  /** Both limits are cut to the cap; a body that declares none gets the cap. */
  function ForwardedBody(body: RequestBody, cap: int): Reply<Forwarded> {
    if cap <= 0 then Err(OutputCapInvalid)
    else
      match body
      case UnreadableBody => Err(RequestUnreadable)
      case NotAnObject => Err(RequestNotObject)
      case Payload(_, first, second) =>
        if (first.Value? && first.n < 0) || (second.Value? && second.n < 0) then Err(RequestOutputLimitNegative)
        else if !first.Value? && !second.Value? then Ok(Forwarded(Value(cap), second, cap))
        else Ok(Forwarded(Capped(first, cap), Capped(second, cap), Larger(Capped(first, cap), Larger(Capped(second, cap), 0))))
  }

  function RequestFault(b: Binding, req: ModelRequest): Option<Reason> {
    if req.runId == "" then Some(RequestRunIdRequired)
    else if req.runId != b.runId then Some(RequestRunIdMismatch)
    else if req.actor == "" then Some(RequestActorRequired)
    else if req.identity == "" then Some(RequestIdentityRequired)
    else if req.actor !in b.identities then Some(RequestActorNotAuthorized)
    else if b.identities[req.actor] != Sha256(req.identity) then Some(RequestIdentityInvalid)
    else if req.task == "" then Some(RequestTaskIdRequired)
    else if req.actor !in b.tasks || b.tasks[req.actor] != req.task then Some(RequestTaskIdMismatch)
    else None
  }

  ghost function Exposure(b: Binding, l: Ledger, req: ModelRequest): Reply<nat> {
    if l.attempts >= b.maxCalls then Err(CallCountFuse)
    else if l.inFlight != Reserved(l.reservations) then Err(ReservationTotalMismatch)
    else if l.spent.total >= b.cap then Err(TokenFuse)
    else
      match RequestExposure(req.body, if b.maxOutput < 0 then 0 else b.maxOutput)
      case Err(reason) => Err(reason)
      case Ok(exposure) =>
        if l.spent.total + Reserved(l.reservations) + exposure > b.cap then Err(ExposureExceedsCap)
        else Ok(exposure)
  }

  ghost function Authorize(f: Files, req: ModelRequest, now: int, id: ReservationId): (Files, Reply<Call>) {
    match ActiveBinding(f, now)
    case Err(reason) => (f, Err(reason))
    case Ok(b) =>
      match RequestFault(b, req)
      case Some(reason) => (f, Err(reason))
      case None =>
        match ReadLedger(f, b.runId, now)
        case Err(reason) => (f, Err(reason))
        case Ok(l) =>
          match Exposure(b, l, req)
          case Err(reason) => (f, Err(reason))
          case Ok(exposure) =>
            var l' := l.(reservations := l.reservations[id := Reservation(req.actor, req.task, exposure)],
                         attempts := l.attempts + 1,
                         inFlight := Reserved(l.reservations) + exposure,
                         updatedAt := now);
            (f.(ledger := Some(SealLedger(l'))), Ok(Call(id, b, req.actor, req.task, exposure)))
  }

  // ----- settle

  /** A usage object as the provider reports it, with both spellings of its fields. */
  datatype RawUsage = RawUsage(
    promptTokens: Option<int>, inputTokens: Option<int>,
    completionTokens: Option<int>, outputTokens: Option<int>, totalTokens: Option<int>)

  function Either(first: Option<int>, second: Option<int>): int {
    match (first, second)
    case (Some(n), _) => n
    case (None, Some(n)) => n
    case (None, None) => 0
  }

  /** The last usage object of a response, if it is readable and adds up. */
  function ParseUsage(reported: seq<RawUsage>): (u: Option<Usage>)
    ensures u.Some? ==> Readable(u.value) && u.value.total == u.value.prompt + u.value.completion && u.value.calls == 1
  {
    if reported == [] then None
    else
      var raw := reported[|reported| - 1];
      var prompt := Either(raw.promptTokens, raw.inputTokens);
      var completion := Either(raw.completionTokens, raw.outputTokens);
      var total := if raw.totalTokens.Some? then raw.totalTokens.value else prompt + completion;
      if prompt < 0 || completion < 0 || total != prompt + completion then None
      else Some(Usage(prompt, completion, total, 1))
  }

  /** The usage object says this usage; a field under neither of its names stands for zero, a missing total for the sum. */
  predicate Says(raw: RawUsage, u: Usage) {
    && (raw.promptTokens == Some(u.prompt) || (raw.promptTokens.None? && raw.inputTokens in {Some(u.prompt), None}))
    && (raw.promptTokens.None? && raw.inputTokens.None? ==> u.prompt == 0)
    && (raw.completionTokens == Some(u.completion)
        || (raw.completionTokens.None? && raw.outputTokens in {Some(u.completion), None}))
    && (raw.completionTokens.None? && raw.outputTokens.None? ==> u.completion == 0)
    && raw.totalTokens in {Some(u.total), None}
  }

  /** A usage is accepted exactly when the last usage object says it, it adds up and no field is negative. */
  lemma ParsesExactly(reported: seq<RawUsage>, u: Usage)
    ensures ParseUsage(reported) == Some(u) <==>
              && reported != [] && Says(reported[|reported| - 1], u)
              && Readable(u) && u.total == u.prompt + u.completion && u.calls == 1
  {
  }

  /** The ledger with a call's reservation taken back, before anything is written. */
  ghost function Released(f: Files, call: Call, now: int): Reply<Ledger> {
    match ReadLedger(f, call.binding.runId, now)
    case Err(reason) => Err(reason)
    case Ok(l) =>
      if call.id !in l.reservations then Err(ReservationNotFound)
      else if l.reservations[call.id].exposure != call.exposure then Err(ReservationExposureMismatch)
      else
        var rest := l.reservations - {call.id};
        Ok(l.(reservations := rest, inFlight := Reserved(rest)))
  }

  function LastLink(records: seq<Record>): Link {
    if records == [] then Genesis else Follows(records[|records| - 1].sha)
  }

  function Appended(l: Ledger, call: Call, decision: Decision, now: int): Ledger {
    var body := RecordBody(|l.records| + 1, call.binding.runId, call.actor, call.task,
                           decision, call.exposure, LastLink(l.records), now);
    l.(records := l.records + [Seal(body)], updatedAt := now)
  }

  ghost function RecordResult(f: Files, call: Call, reported: seq<RawUsage>, now: int): (Files, Reply<Usage>) {
    match Released(f, call, now)
    case Err(reason) => (f, Err(reason))
    case Ok(l) =>
      match ParseUsage(reported)
      case None =>
        var l' := Appended(l, call, UsageUnreadable, now).(status := FuseTripped(ProviderUsageUnreadable));
        (f.(ledger := Some(SealLedger(l'))), Err(UsageNotReadable))
      case Some(usage) =>
        var spent := Plus(l.spent, usage);
        var over := spent.total > call.binding.cap;
        var l' := Appended(l, call, UsageRecorded(usage), now)
                  .(spent := spent,
                    cumulative := Plus(l.baseline, spent),
                    status := if over then FuseTripped(CapExceededAfterCall) else l.status);
        (f.(ledger := Some(SealLedger(l'))), if over then Err(CapExceeded) else Ok(usage))
  }

  ghost function RecordFailure(f: Files, call: Call, why: string, now: int): (Files, Reply<()>) {
    match Released(f, call, now)
    case Err(reason) => (f, Err(reason))
    case Ok(l) =>
      var l' := Appended(l, call, TransportFailure(why), now).(status := FuseTripped(UpstreamTransportFailure));
      (f.(ledger := Some(SealLedger(l'))), Ok(()))
  }

  // ----- control plane

  datatype RunRequest = RunRequest(
    routeAttested: bool, runId: string, cap: int, maxCalls: int, maxOutput: int, wallSeconds: int,
    baselineDated: bool, totals: Usage, identities: map<string, string>, tasks: map<string, string>)

  const WINDOW := 900

  function RunRequestFault(p: RunRequest): Option<Reason> {
    if !p.routeAttested then Some(RouteNotAttested)
    else if p.runId == "" then Some(RunIdRequired)
    else if !p.baselineDated || !Readable(p.totals) || p.totals.total != p.totals.prompt + p.totals.completion then
      Some(BaselineIncomplete)
    else if p.identities == map[] then Some(IdentitiesRequired)
    else if "" in p.identities || exists a :: a in p.identities && p.identities[a] == "" then Some(IdentityInvalid)
    else if p.tasks.Keys != p.identities.Keys then Some(TaskSetMismatch)
    else if BlankTask(p.tasks) then Some(TaskIdRequired)
    else if !DistinctTasks(p.tasks) then Some(TaskIdsNotUnique)
    else None
  }

  function Hashed(identities: map<string, string>): Identities {
    map actor | actor in identities :: Sha256(identities[actor])
  }

  function NewBinding(p: RunRequest, now: int): Binding {
    Binding(p.runId, Active, now + p.wallSeconds, p.cap, p.maxCalls, p.maxOutput,
            Sha256(Baseline(p.runId, p.totals)), p.totals.total, Hashed(p.identities), p.tasks, [], [], [])
  }

  predicate LimitsPositive(p: RunRequest) {
    p.cap > 0 && p.maxCalls > 0 && p.maxOutput > 0 && p.wallSeconds > 0
  }

  /** What the existing binding makes of a new Run: go ahead (None), a finished answer, or a refusal. */
  function ExistingAnswer(f: Files, runId: string): Option<Reply<Binding>> {
    match f.binding
    case None => None
    case Some(file) =>
      if !Intact(file) then Some(Err(BindingHashMismatch))
      else if file.body.state == Active then
        if file.body.runId == runId then Some(Ok(file.body)) else Some(Err(BoundToOtherRun))
      else if file.body.runId == runId then Some(Err(RunAlreadyClosed))
      else None
  }

  /**
   * Preparing a Run publishes in three stages: the old ledger is archived, the
   * baseline becomes durable, the ACTIVE binding appears.  "stages" is how many
   * of them happen before the process stops; three or more is a complete call.
   */
  function PrepareRun(f: Files, p: RunRequest, now: int, stages: nat): (Files, Reply<Binding>) {
    match RunRequestFault(p)
    case Some(reason) => (f, Err(reason))
    case None =>
      match ExistingAnswer(f, p.runId)
      case Some(answer) => (f, answer)
      case None =>
        if f.ledger.Some? && f.ledger.value in f.archive then (f, Err(ArchiveCollision))
        else if stages == 0 then (f, Err(Stopped))
        else
          var archived := if f.ledger.None? then f
                          else f.(ledger := None, archive := f.archive + {f.ledger.value});
          if stages == 1 then (archived, Err(Stopped))
          else
            var based := archived.(baseline := Some(Seal(Baseline(p.runId, p.totals))));
            if !LimitsPositive(p) then (based, Err(LimitsNotPositive))
            else if stages == 2 then (based, Err(Stopped))
            else (based.(binding := Some(Seal(NewBinding(p, now)))), Ok(NewBinding(p, now)))
  }

  function CloseRun(f: Files, runId: string, terminal: string, now: int): (Files, Reply<Binding>) {
    match f.binding
    case None => (f, Err(BindingUnreadable))
    case Some(file) =>
      var b := file.body;
      if b.runId != runId then (f, Err(CloseRunMismatch))
      else if !Intact(file) then (f, Err(BindingHashMismatch))
      else if terminal == "" then (f, Err(TerminalStateRequired))
      else if b.state.Closed? then (f, if b.state.terminal != terminal then Err(ClosedDifferently) else Ok(b))
      else
        var b' := b.(state := Closed(terminal, now));
        (f.(binding := Some(Seal(b'))), Ok(b'))
  }

  /** The active binding of this Run, as every re-opening control call first checks it. */
  function SameActiveRun(f: Files, runId: string): Reply<Binding> {
    match f.binding
    case None => Err(BindingUnreadable)
    case Some(file) =>
      if file.body.runId != runId || file.body.state != Active then Err(NeedsSameActiveRun)
      else if !Intact(file) then Err(BindingHashMismatch)
      else Ok(file.body)
  }

  function RearmFault(f: Files, runId: string): Option<Reason> {
    match f.ledger
    case None => Some(LedgerUnreadable)
    case Some(file) =>
      if file.body.runId != runId then Some(LedgerRunMismatch)
      else if file.sha.Some? && file.sha.value != Sha256(file.body) then Some(LedgerHashMismatch)
      else if file.body.status != FuseTripped(UpstreamTransportFailure) then Some(NotRearmable)
      else None
  }

  /** Re-arming writes the renewed binding first and the re-opened ledger second. */
  function Rearm(f: Files, runId: string, now: int, stages: nat): (Files, Reply<RearmEvent>) {
    match SameActiveRun(f, runId)
    case Err(reason) => (f, Err(reason))
    case Ok(b) =>
      match RearmFault(f, runId)
      case Some(reason) => (f, Err(reason))
      case None =>
        var l := f.ledger.value.body;
        var window := TransportWindow(b.expiresAt, now, now + WINDOW);
        var b' := b.(expiresAt := now + WINDOW, windows := b.windows + [window]);
        var event := RearmEvent(f.ledger.value.sha, l.attempts, l.spent, l.reservations, window, now);
        var l' := l.(rearms := l.rearms + [event], status := Running, reservations := map[],
                     inFlight := 0, updatedAt := now);
        if stages == 0 then (f, Err(Stopped))
        else if stages == 1 then (f.(binding := Some(Seal(b'))), Err(Stopped))
        else (f.(binding := Some(Seal(b')), ledger := Some(SealLedger(l'))), Ok(event))
  }

  function RenewExpired(f: Files, runId: string, now: int): (Files, Reply<WindowEvent>) {
    match SameActiveRun(f, runId)
    case Err(reason) => (f, Err(reason))
    case Ok(b) =>
      if b.expiresAt > now then (f, Err(NotExpired))
      else if f.ledger.Some? && f.ledger.value.body.runId != runId then (f, Err(LedgerRunMismatch))
      else if f.ledger.Some? && (f.ledger.value.body.attempts > 0 || f.ledger.value.body.spent.calls > 0
                                 || f.ledger.value.body.spent.prompt > 0 || f.ledger.value.body.spent.completion > 0
                                 || f.ledger.value.body.spent.total > 0) then (f, Err(UsageNotZero))
      else
        var event := ExpiredWindow(b.expiresAt, now, now + WINDOW);
        (f.(binding := Some(Seal(b.(expiresAt := now + WINDOW, windows := b.windows + [event])))), Ok(event))
  }

  function RotateIdentities(f: Files, runId: string, next: Identities, now: int): (Files, Reply<RotationEvent>) {
    match SameActiveRun(f, runId)
    case Err(reason) => (f, Err(reason))
    case Ok(b) =>
      if next.Keys != b.identities.Keys then (f, Err(ActorSetMismatch))
      else if f.ledger.Some? && f.ledger.value.body.runId != runId then (f, Err(LedgerRunMismatch))
      else if f.ledger.Some? && (f.ledger.value.body.reservations != map[] || f.ledger.value.body.inFlight != 0) then
        (f, Err(RotationInFlight))
      else
        var event := RotationEvent(Sha256(b.identities), Sha256(next), now);
        (f.(binding := Some(Seal(b.(identities := next, rotations := b.rotations + [event])))), Ok(event))
  }

  const MAX_WINDOWS := 3

  function ExtendWindow(f: Files, runId: string, now: int): (Files, Reply<WindowEvent>) {
    match SameActiveRun(f, runId)
    case Err(reason) => (f, Err(reason))
    case Ok(b) =>
      if |b.windows| >= MAX_WINDOWS then (f, Err(ExtensionLimitReached))
      else if f.ledger.None? then (f, Err(LedgerUnreadable))
      else
        var l := f.ledger.value.body;
        if l.runId != runId || l.status != Running then (f, Err(LedgerNotRunning))
        else if l.spent.calls >= b.maxCalls then (f, Err(CallCapReached))
        else if l.spent.total >= b.cap then (f, Err(TokenCapReached))
        else
          var event := RecoveryWindow(b.expiresAt, now, now + WINDOW, l.spent.calls, l.spent.total, |b.windows| + 1);
          (f.(binding := Some(Seal(b.(expiresAt := now + WINDOW, windows := b.windows + [event])))), Ok(event))
  }

  function RaiseBudget(f: Files, runId: string, cap: int, maxCalls: int, now: int): (Files, Reply<BudgetEvent>) {
    match SameActiveRun(f, runId)
    case Err(reason) => (f, Err(reason))
    case Ok(b) =>
      if cap < b.cap || maxCalls < b.maxCalls then (f, Err(BudgetCannotDecrease))
      else
        var event := BudgetEvent(b.cap, cap, b.maxCalls, maxCalls, now);
        (f.(binding := Some(Seal(b.(cap := cap, maxCalls := maxCalls, raises := b.raises + [event])))), Ok(event))
  }
}
