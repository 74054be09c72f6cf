/**
 * The emergency-stop ledger: one hash-linked chain of control records per Run,
 * verified on every read, with idempotent appends and usage reconciliations that
 * must supersede the newest record.
 */
module StopLedger {
  import opened Basics

  datatype Terminal = StoppedByGate | BudgetExceeded | OtherTerminal(text: string)

  datatype RecordType = EmergencyStop | UsageReconciliation | OtherType(text: string)

  datatype EvidenceBody = EvidenceBody(evidenceType: string, detail: string)

  /** A reference as the caller hands it in, with or without its digest. */
  datatype EvidenceInput = EvidenceInput(body: EvidenceBody, sha: Option<Digest<EvidenceBody>>)

  datatype UsageChange = UsageChange(baseline: int, ending: int, delta: int, detail: string)

  /** What makes two requests the same request. */
  datatype KeyMaterial = KeyMaterial(
    runId: string, terminal: Terminal, actor: string, reason: string, guard: Digest<string>,
    evidence: seq<Sealed<EvidenceBody>>, recordType: RecordType, usageStatus: string,
    supersedes: Option<Digest<RecordBody>>, usage: Option<UsageChange>)

  datatype RecordBody = RecordBody(
    recordType: RecordType, recordId: string, sequence: int, runId: string,
    caseId: string, terminal: Terminal, actor: string, actorSource: string, reason: string, reasonCodes: set<string>,
    at: int, guard: string, guardSha: Digest<string>, evidence: seq<Sealed<EvidenceBody>>,
    previous: Option<Digest<RecordBody>>, key: Digest<KeyMaterial>, usageStatus: string,
    supersedes: Option<Digest<RecordBody>>, usage: Option<UsageChange>, usageSha: Option<Digest<UsageChange>>)

  type Record = Sealed<RecordBody>

  datatype Request = Request(
    runId: string, caseId: string, terminal: Terminal, actor: string, reason: string, guard: string,
    evidence: seq<EvidenceInput>, reasonCodes: set<string>, actorSource: string, recordType: RecordType,
    usageStatus: string, supersedes: Option<Digest<RecordBody>>, usage: Option<UsageChange>)

  datatype Reason =
    | TerminalInvalid | RecordTypeInvalid | RunIdInvalid | ActorMissing | ReasonMissing | GuardDigestInvalid
    | EvidenceMissing | EvidenceTypeMissing | EvidenceDigestMismatch | MustSupersede | UsageMissing
    | UsageNotHashBound | UsageDigestMismatch | UsageArithmetic | RecordDigestMismatch
    | SequenceNotContiguous | ChainBroken | NoPriorRecord | NotLatest

  type Reply<T> = Outcome<T, Reason>

  // ----- reading

  predicate IsRunId(s: string) {
    && |s| > 4 && s[..4] == "RUN-"
    && forall i :: 4 <= i < |s| ==> '0' <= s[i] <= '9' || 'A' <= s[i] <= 'Z' || 'a' <= s[i] <= 'z' || s[i] == '-'
  }

  function EvidenceFault(refs: seq<Sealed<EvidenceBody>>): Option<Reason> {
    if refs == [] then None
    else if refs[0].body.evidenceType == "" then Some(EvidenceTypeMissing)
    else if !Intact(refs[0]) then Some(EvidenceDigestMismatch)
    else EvidenceFault(refs[1..])
  }

  function UsageFault(b: RecordBody): Option<Reason> {
    if b.supersedes.None? then Some(MustSupersede)
    else if b.usage.None? then Some(UsageMissing)
    else if b.usageSha.None? then Some(UsageNotHashBound)
    else if b.usageSha.value != Sha256(b.usage.value) then Some(UsageDigestMismatch)
    else
      var u := b.usage.value;
      if u.baseline < 0 || u.ending < 0 || u.delta < 0 || u.ending - u.baseline != u.delta then Some(UsageArithmetic)
      else None
  }

  /** The first reason, in source order, for which a stored record is not valid on its own. */
  function RecordFault(r: Record): Option<Reason> {
    var b := r.body;
    if b.terminal.OtherTerminal? then Some(TerminalInvalid)
    else if b.recordType.OtherType? then Some(RecordTypeInvalid)
    else if |b.runId| < 4 || b.runId[..4] != "RUN-" then Some(RunIdInvalid)
    else if b.actor == "" then Some(ActorMissing)
    else if b.reason == "" then Some(ReasonMissing)
    else if b.evidence == [] then Some(EvidenceMissing)
    else if EvidenceFault(b.evidence).Some? then EvidenceFault(b.evidence)
    else if b.recordType == UsageReconciliation && UsageFault(b).Some? then UsageFault(b)
    else if !Intact(r) then Some(RecordDigestMismatch)
    else None
  }

  function LastDigest(chain: seq<Record>): Option<Digest<RecordBody>> {
    if chain == [] then None else Some(chain[|chain| - 1].sha)
  }

  /** Why record i does not belong where it stands. */
  function PlaceFault(chain: seq<Record>, i: nat): Option<Reason>
    requires i < |chain|
  {
    if RecordFault(chain[i]).Some? then RecordFault(chain[i])
    else if chain[i].body.sequence != i + 1 then Some(SequenceNotContiguous)
    else if chain[i].body.previous != LastDigest(chain[..i]) then Some(ChainBroken)
    else None
  }

  /** The first fault a verifying read finds, from the front. */
  function ChainFault(chain: seq<Record>): Option<Reason> {
    if chain == [] then None
    else
      var before := ChainFault(chain[..|chain| - 1]);
      if before.Some? then before else PlaceFault(chain, |chain| - 1)
  }

  // ----- appending

  function Stored(refs: seq<EvidenceInput>): (r: seq<Sealed<EvidenceBody>>)
    ensures |r| == |refs|
  {
    seq(|refs|, i requires 0 <= i < |refs| =>
      if refs[i].sha.Some? then Sealed(refs[i].body, refs[i].sha.value) else Seal(refs[i].body))
  }

  function KeyOf(q: Request): Digest<KeyMaterial> {
    Sha256(KeyMaterial(q.runId, q.terminal, q.actor, q.reason, Sha256(q.guard), Stored(q.evidence),
                       q.recordType, q.usageStatus, q.supersedes, q.usage))
  }

  /** Where the record of a request with this key stands, if there is one. */
  function FindKey(chain: seq<Record>, key: Digest<KeyMaterial>): (n: nat)
    ensures n <= |chain|
    ensures n < |chain| ==> chain[n].body.key == key
    ensures forall i :: 0 <= i < n ==> chain[i].body.key != key
  {
    if chain == [] || chain[0].body.key == key then 0 else 1 + FindKey(chain[1..], key)
  }

  function NewRecord(chain: seq<Record>, q: Request, id: string, now: int): Record {
    Seal(RecordBody(
      q.recordType, id, |chain| + 1, q.runId, q.caseId, q.terminal, q.actor, q.actorSource, q.reason, q.reasonCodes,
      now, q.guard, Sha256(q.guard), Stored(q.evidence), LastDigest(chain), KeyOf(q), q.usageStatus,
      q.supersedes, q.usage, if q.usage.Some? then Some(Sha256(q.usage.value)) else None))
  }

  function RequestFault(q: Request): Option<Reason> {
    if q.terminal.OtherTerminal? then Some(TerminalInvalid)
    else if q.actor == "" || q.reason == "" then Some(ActorMissing)
    else if !IsRunId(q.runId) then Some(RunIdInvalid)
    else None
  }

  function SupersedeFault(chain: seq<Record>, q: Request): Option<Reason> {
    if q.recordType != UsageReconciliation then None
    else if chain == [] then Some(NoPriorRecord)
    else if q.supersedes != LastDigest(chain) then Some(NotLatest)
    else None
  }

  function Append(chain: seq<Record>, q: Request, id: string, now: int): (seq<Record>, Reply<Record>) {
    if RequestFault(q).Some? then (chain, Err(RequestFault(q).value))
    else if ChainFault(chain).Some? then (chain, Err(ChainFault(chain).value))
    else if SupersedeFault(chain, q).Some? then (chain, Err(SupersedeFault(chain, q).value))
    else
      var n := FindKey(chain, KeyOf(q));
      if n < |chain| then (chain, Ok(chain[n]))
      else
        var r := NewRecord(chain, q, id, now);
        if RecordFault(r).Some? then (chain, Err(RecordFault(r).value)) else (chain + [r], Ok(r))
  }

  // ----- the ledger as it runs

  /** The record files of every Run, in file-name order. */
  class EmergencyStopLedger {
    var files: map<string, seq<Record>>

    constructor ()
      ensures files == map[]
    {
      files := map[];
    }

    function ChainOf(runId: string): seq<Record>
      reads this
    {
      if runId in files then files[runId] else []
    }

    /** Reads a Run's records, verifying each against the one before it. */
    method Records(runId: string) returns (r: Reply<seq<Record>>)
      ensures r == if !IsRunId(runId) then Err(RunIdInvalid)
                   else if ChainFault(ChainOf(runId)).Some? then Err(ChainFault(ChainOf(runId)).value)
                   else Ok(ChainOf(runId))
    {
      if !IsRunId(runId) {
        return Err(RunIdInvalid);
      }
      var records := ChainOf(runId);
      var previous: Option<Digest<RecordBody>> := None;
      var i := 0;
      while i < |records|
        invariant 0 <= i <= |records|
        invariant ChainFault(records[..i]) == None && previous == LastDigest(records[..i])
      {
        var record := records[i];
        ghost var read := records[..i + 1];
        assert read[..i] == records[..i];
        var fault := RecordFault(record);
        if fault.None? && record.body.sequence != i + 1 {
          fault := Some(SequenceNotContiguous);
        }
        if fault.None? && record.body.previous != previous {
          fault := Some(ChainBroken);
        }
        assert fault == ChainFault(read);
        if fault.Some? {
          FaultStays(records, i + 1);
          return Err(fault.value);
        }
        previous := Some(record.sha);
        i := i + 1;
      }
      assert records[..i] == records;
      return Ok(records);
    }

    method AppendRecord(q: Request, id: string, now: int) returns (r: Reply<Record>)
      modifies this
      ensures
        var (chain, reply) := Append(old(ChainOf(q.runId)), q, id, now);
        && r == reply && ChainOf(q.runId) == chain
        && forall runId :: runId != q.runId ==> ChainOf(runId) == old(ChainOf(runId))
    {
      hide ChainFault, RecordFault, NewRecord, KeyOf, IsRunId;
      if q.terminal.OtherTerminal? {
        return Err(TerminalInvalid);
      }
      if q.actor == "" || q.reason == "" {
        return Err(ActorMissing);
      }
      var read := Records(q.runId);
      if read.Err? {
        return Err(read.error);
      }
      var existing := read.value;
      if q.recordType == UsageReconciliation {
        if existing == [] {
          return Err(NoPriorRecord);
        }
        if q.supersedes != Some(existing[|existing| - 1].sha) {
          return Err(NotLatest);
        }
      }
      var key := KeyOf(q);
      var i := 0;
      while i < |existing|
        invariant 0 <= i <= |existing|
        invariant FindKey(existing, key) == i + FindKey(existing[i..], key)
      {
        if existing[i].body.key == key {
          return Ok(existing[i]);
        }
        assert existing[i..][1..] == existing[i + 1..];
        i := i + 1;
      }
      var record := NewRecord(existing, q, id, now);
      var fault := RecordFault(record);
      if fault.Some? {
        return Err(fault.value);
      }
      files := files[q.runId := existing + [record]];
      return Ok(record);
    }
  }

  /** A fault found in front is the fault of the whole chain. */
  lemma {:induction false} FaultStays(chain: seq<Record>, n: nat)
    requires n <= |chain| && ChainFault(chain[..n]).Some?
    ensures ChainFault(chain) == ChainFault(chain[..n])
    decreases |chain|
  {
    if n == |chain| {
      assert chain[..n] == chain;
    } else {
      assert chain[..|chain| - 1][..n] == chain[..n];
      FaultStays(chain[..|chain| - 1], n);
    }
  }

  // ----- chains built by appends

  datatype Call = Call(request: Request, id: string, now: int)

  /** The chain of one Run after each of a list of appends. */
  ghost predicate History(chains: seq<seq<Record>>, calls: seq<Call>, runId: string) {
    && |chains| == |calls| + 1
    && chains[0] == []
    && forall i :: 0 <= i < |calls| ==>
         && calls[i].request.runId == runId
         && chains[i + 1] == Append(chains[i], calls[i].request, calls[i].id, calls[i].now).0
  }

  function KeyOfRecord(b: RecordBody): Digest<KeyMaterial> {
    Sha256(KeyMaterial(b.runId, b.terminal, b.actor, b.reason, b.guardSha, b.evidence,
                       b.recordType, b.usageStatus, b.supersedes, b.usage))
  }

  /** The record carries the key of what it says, and a reconciliation supersedes the record before it. */
  predicate WellKeyed(r: Record, runId: string) {
    && r.body.runId == runId
    && r.body.key == KeyOfRecord(r.body)
    && (r.body.recordType == UsageReconciliation ==> r.body.supersedes == r.body.previous)
  }

  ghost predicate KeysDiffer(chain: seq<Record>) {
    forall i, j :: 0 <= i < j < |chain| ==> chain[i].body.key != chain[j].body.key
  }

  ghost predicate Good(chain: seq<Record>, runId: string) {
    && ChainFault(chain) == None
    && (forall i :: 0 <= i < |chain| ==> WellKeyed(chain[i], runId))
    && KeysDiffer(chain)
  }

  /** A chain without a fault has none anywhere. */
  lemma {:induction false} PlaceHolds(chain: seq<Record>, i: nat)
    requires ChainFault(chain) == None && i < |chain|
    ensures PlaceFault(chain, i) == None
    decreases |chain|
  {
    if i < |chain| - 1 {
      var before := chain[..|chain| - 1];
      PlaceHolds(before, i);
      assert before[..i] == chain[..i];
    }
  }

  lemma AppendKeeps(chain: seq<Record>, q: Request, id: string, now: int, runId: string)
    requires Good(chain, runId) && q.runId == runId
    ensures
      var (chain', reply) := Append(chain, q, id, now);
      && Good(chain', runId)
      && (chain' == chain || (reply.Ok? && chain' == chain + [reply.value]))
  {
    hide RecordFault, ChainFault, IsRunId;
    var r := NewRecord(chain, q, id, now);
    if Append(chain, q, id, now).0 != chain {
      assert (chain + [r])[..|chain|] == chain;
      assert ChainFault(chain + [r]) == PlaceFault(chain + [r], |chain|) by { ExtendFault(chain, r); }
    }
  }

  lemma ExtendFault(chain: seq<Record>, r: Record)
    requires ChainFault(chain) == None
    ensures ChainFault(chain + [r]) == PlaceFault(chain + [r], |chain|)
  {
    assert (chain + [r])[..|chain|] == chain;
  }

  lemma {:induction false} HistoryGood(chains: seq<seq<Record>>, calls: seq<Call>, runId: string, i: nat)
    requires History(chains, calls, runId) && i < |chains|
    ensures Good(chains[i], runId)
  {
    hide Append, ChainFault;
    if i == 0 {
      assert ChainFault([]) == None by { EmptyChain(); }
    } else {
      HistoryGood(chains, calls, runId, i - 1);
      AppendKeeps(chains[i - 1], calls[i - 1].request, calls[i - 1].id, calls[i - 1].now, runId);
    }
  }

  lemma EmptyChain()
    ensures ChainFault([]) == None
  {
  }

  /**
   * Whatever is appended, the ledger passes its own verification: every record
   * valid, numbered from one, linked to the one before it; and no two records
   * carry the same idempotency key.
   */
  lemma AppendsVerify(chains: seq<seq<Record>>, calls: seq<Call>, runId: string, i: nat)
    requires History(chains, calls, runId) && i < |chains|
    ensures ChainFault(chains[i]) == None && KeysDiffer(chains[i])
    ensures forall k: nat :: k < |chains[i]| ==> PlaceFault(chains[i], k) == None
  {
    HistoryGood(chains, calls, runId, i);
    forall k: nat | k < |chains[i]|
      ensures PlaceFault(chains[i], k) == None
    {
      PlaceHolds(chains[i], k);
    }
  }

  /** Append-only: what is on file stays where it is. */
  lemma {:induction false} ChainsOnlyGrow(chains: seq<seq<Record>>, calls: seq<Call>, runId: string, i: nat, j: nat)
    requires History(chains, calls, runId) && i <= j < |chains|
    ensures chains[i] <= chains[j]
    decreases j
  {
    hide Append;
    if i < j {
      ChainsOnlyGrow(chains, calls, runId, i, j - 1);
      HistoryGood(chains, calls, runId, j - 1);
      AppendKeeps(chains[j - 1], calls[j - 1].request, calls[j - 1].id, calls[j - 1].now, runId);
    }
  }

  // ----- repeating a request

  lemma AnsweredRecord(chain: seq<Record>, q: Request, id: string, now: int, runId: string)
    requires Good(chain, runId) && q.runId == runId && Append(chain, q, id, now).1.Ok?
    ensures
      var (chain', reply) := Append(chain, q, id, now);
      reply.value in chain' && reply.value.body.key == KeyOf(q)
  {
    hide ChainFault, RecordFault, IsRunId;
  }

  lemma FindKeyIs(chain: seq<Record>, n: nat, key: Digest<KeyMaterial>)
    requires KeysDiffer(chain) && n < |chain| && chain[n].body.key == key
    ensures FindKey(chain, key) == n
  {
  }

  /**
   * Idempotence: once a stop request was answered with a record, asking the same
   * again, at any later time and under any other record id or case, answers with
   * that stored record and appends nothing.
   */
  lemma RepeatedStopIsTheStoredRecord(chains: seq<seq<Record>>, calls: seq<Call>, runId: string, i: nat, j: nat)
    requires History(chains, calls, runId) && i < j < |calls|
    requires calls[i].request.recordType != UsageReconciliation
    requires KeyOf(calls[j].request) == KeyOf(calls[i].request)
    requires Append(chains[i], calls[i].request, calls[i].id, calls[i].now).1.Ok?
    ensures
      var first := Append(chains[i], calls[i].request, calls[i].id, calls[i].now).1;
      Append(chains[j], calls[j].request, calls[j].id, calls[j].now) == (chains[j], first)
  {
    hide ChainFault, RecordFault, IsRunId, FindKey;
    var q := calls[i].request;
    var first := Append(chains[i], q, calls[i].id, calls[i].now).1.value;
    HistoryGood(chains, calls, runId, i);
    HistoryGood(chains, calls, runId, j);
    AnsweredRecord(chains[i], q, calls[i].id, calls[i].now, runId);
    ChainsOnlyGrow(chains, calls, runId, i + 1, j);
    var n :| 0 <= n < |chains[i + 1]| && chains[i + 1][n] == first;
    FindKeyIs(chains[j], n, KeyOf(q));
    AcceptedRequest(chains[i], q, calls[i].id, calls[i].now);
  }

  lemma AcceptedRequest(chain: seq<Record>, q: Request, id: string, now: int)
    requires Append(chain, q, id, now).1.Ok?
    ensures RequestFault(q) == None
  {
  }

  /** In a good chain no reconciliation supersedes the newest record. */
  lemma NewestIsNotSuperseded(chain: seq<Record>, runId: string, n: nat)
    requires Good(chain, runId) && n < |chain| && chain[n].body.recordType == UsageReconciliation
    ensures chain[n].body.supersedes != LastDigest(chain)
  {
    hide ChainFault, EvidenceFault, UsageFault;
    PlaceHolds(chain, n);
    PlaceHolds(chain, |chain| - 1);
    if n > 0 {
      PlaceHolds(chain, n - 1);
      assert chain[..n][n - 1] == chain[n - 1];
    }
  }

  /**
   * A reconciliation is never answered with a stored record: it is refused, or it
   * appends a new record that supersedes the newest one.
   */
  lemma ReconciliationNeverReplays(chains: seq<seq<Record>>, calls: seq<Call>, runId: string, i: nat)
    requires History(chains, calls, runId) && i < |calls|
    requires calls[i].request.recordType == UsageReconciliation
    ensures
      var (chain, reply) := Append(chains[i], calls[i].request, calls[i].id, calls[i].now);
      if reply.Err? then chain == chains[i]
      else chain == chains[i] + [reply.value] && reply.value.body.supersedes == LastDigest(chains[i])
           && reply.value.body.supersedes.Some?
  {
    hide ChainFault, RecordFault, IsRunId;
    var q := calls[i].request;
    HistoryGood(chains, calls, runId, i);
    var n := FindKey(chains[i], KeyOf(q));
    if n < |chains[i]| {
      NewestIsNotSuperseded(chains[i], runId, n);
    }
  }

  /** Sending the same reconciliation again is always refused. */
  lemma RepeatedReconciliationIsRefused(chains: seq<seq<Record>>, calls: seq<Call>, runId: string, i: nat, j: nat)
    requires History(chains, calls, runId) && i < j < |calls|
    requires calls[i].request.recordType == UsageReconciliation
    requires KeyOf(calls[j].request) == KeyOf(calls[i].request)
    requires Append(chains[i], calls[i].request, calls[i].id, calls[i].now).1.Ok?
    ensures Append(chains[j], calls[j].request, calls[j].id, calls[j].now) == (chains[j], Err(NotLatest))
  {
    hide ChainFault, EvidenceFault, UsageFault, IsRunId, FindKey;
    var q := calls[i].request;
    ReconciliationNeverReplays(chains, calls, runId, i);
    ReconciliationNeverReplays(chains, calls, runId, j);
    ChainsOnlyGrow(chains, calls, runId, i + 1, j);
    HistoryGood(chains, calls, runId, j);
    AcceptedRequest(chains[i], q, calls[i].id, calls[i].now);
    assert chains[j][|chains[i]| - 1] == chains[i][|chains[i]| - 1];
    PlaceHolds(chains[j], |chains[i]| - 1);
    PlaceHolds(chains[j], |chains[j]| - 1);
  }

  const STOP := Request("RUN-1", "", StoppedByGate, "operator", "stop", "guard", [EvidenceInput(EvidenceBody("trace", ""), None)],
                        {}, "", EmergencyStop, "", None, None)
  const STOPPED := NewRecord([], STOP, "1", 0)
  const RECONCILE := STOP.(recordType := UsageReconciliation, supersedes := Some(STOPPED.sha), usage := Some(UsageChange(0, 1, 1, "")))
  const RECONCILED := NewRecord([STOPPED], RECONCILE, "2", 0)

  lemma StopIsRequest()
    ensures RequestFault(STOP) == None && RequestFault(RECONCILE) == None
  {
    assert "RUN-1"[..4] == "RUN-";
  }

  lemma EvidenceIsSound()
    ensures Stored(STOP.evidence) == [Seal(STOP.evidence[0].body)] && EvidenceFault(Stored(STOP.evidence)) == None
  {
    var refs := Stored(STOP.evidence);
    assert refs == [Seal(STOP.evidence[0].body)];
    assert refs[1..] == [];
  }

  lemma StopIsSound()
    ensures RecordFault(STOPPED) == None && RecordFault(RECONCILED) == None
  {
    hide Stored, EvidenceFault, KeyOf;
    EvidenceIsSound();
    assert "RUN-1"[..4] == "RUN-";
  }

  lemma StopIsAppended()
    ensures Append([], STOP, "1", 0) == ([STOPPED], Ok(STOPPED))
    ensures ChainFault([STOPPED]) == None
  {
    hide RequestFault, RecordFault, KeyOf, Stored;
    StopIsRequest();
    StopIsSound();
    EmptyChain();
    assert [] + [STOPPED] == [STOPPED];
    ExtendFault([], STOPPED);
  }

  lemma ReconciliationIsAppended()
    ensures Append([STOPPED], RECONCILE, "2", 0) == ([STOPPED, RECONCILED], Ok(RECONCILED))
  {
    hide ChainFault, RequestFault, RecordFault, Stored;
    StopIsRequest();
    StopIsSound();
    StopIsAppended();
    assert STOPPED.body.key == KeyOf(STOP) != KeyOf(RECONCILE);
    assert [STOPPED] + [RECONCILED] == [STOPPED, RECONCILED];
  }

  /** A stop, its reconciliation, and the same reconciliation once more. */
  const REPEATED := [Call(STOP, "1", 0), Call(RECONCILE, "2", 0), Call(RECONCILE, "3", 1)]

  /** The retry of an accepted reconciliation gets an error where the retry of a stop gets its record. */
  lemma RetriedReconciliationFails() returns (chains: seq<seq<Record>>)
    ensures History(chains, REPEATED, "RUN-1")
    ensures Append(chains[1], RECONCILE, "2", 0).1 == Ok(RECONCILED)
    ensures chains[2] == [STOPPED, RECONCILED] && Append(chains[2], RECONCILE, "3", 1) == (chains[2], Err(NotLatest))
  {
    hide Append;
    StopIsAppended();
    ReconciliationIsAppended();
    chains := [[], [STOPPED], [STOPPED, RECONCILED], Append([STOPPED, RECONCILED], RECONCILE, "3", 1).0];
    RepeatedReconciliationIsRefused(chains, REPEATED, "RUN-1", 1, 2);
  }

  // ----- what a digest commits to

  /** Two verified chains with the same newest digest are the same chain. */
  lemma {:induction false} EqualDigestsEqualChains(a: seq<Record>, b: seq<Record>)
    requires ChainFault(a) == None && ChainFault(b) == None && LastDigest(a) == LastDigest(b)
    ensures a == b
    decreases |a|
  {
    hide EvidenceFault, UsageFault;
    if a != [] {
      PlaceHolds(a, |a| - 1);
      PlaceHolds(b, |b| - 1);
      assert a[|a| - 1] == b[|b| - 1];
      EqualDigestsEqualChains(a[..|a| - 1], b[..|b| - 1]);
      assert a == a[..|a| - 1] + [a[|a| - 1]] && b == b[..|b| - 1] + [b[|b| - 1]];
    }
  }
}
