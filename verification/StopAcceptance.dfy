/** Which requests the emergency-stop ledger accepts, and what the appended record says. */
module StopAcceptance {
  import opened Basics
  import opened AsciiText
  import opened StopLedger

  /** The reference names its type, and the digest handed in with it, if any, is its own. */
  predicate EvidenceSound(ref: EvidenceInput) {
    ref.body.evidenceType != "" && ref.sha in {None, Some(Sha256(ref.body))}
  }

  /** Three readings of the provider's counter that no one can count below zero and that agree. */
  predicate UsageSound(u: UsageChange) {
    u.baseline >= 0 && u.delta >= 0 && u.ending == u.baseline + u.delta
  }

  /** What a request must be to be recorded behind this chain. */
  ghost predicate Acceptable(chain: seq<Record>, q: Request) {
    && q.terminal in {StoppedByGate, BudgetExceeded} && q.actor != "" && q.reason != "" && IsRunId(q.runId)
    && q.evidence != [] && (forall i :: 0 <= i < |q.evidence| ==> EvidenceSound(q.evidence[i]))
    && match q.recordType
       case EmergencyStop => true
       case UsageReconciliation =>
         && chain != [] && q.supersedes == Some(chain[|chain| - 1].sha)
         && q.usage.Some? && UsageSound(q.usage.value)
       case OtherType(_) => false
  }

  lemma {:induction false} EvidenceExactly(refs: seq<Sealed<EvidenceBody>>)
    ensures EvidenceFault(refs).None? <==> forall i :: 0 <= i < |refs| ==> refs[i].body.evidenceType != "" && Intact(refs[i])
  {
    if refs != [] {
      EvidenceExactly(refs[1..]);
      assert forall i :: 0 < i < |refs| ==> refs[i] == refs[1..][i - 1];
    }
  }

  /** The evidence of a request, as it is stored, is sound exactly when each reference is. */
  lemma StoredExactly(refs: seq<EvidenceInput>)
    ensures EvidenceFault(Stored(refs)).None? <==> forall i :: 0 <= i < |refs| ==> EvidenceSound(refs[i])
  {
    EvidenceExactly(Stored(refs));
    forall i | 0 <= i < |refs|
      ensures EvidenceSound(refs[i]) <==> Stored(refs)[i].body.evidenceType != "" && Intact(Stored(refs)[i])
    {
    }
  }

  /** A record that says what the request says is valid exactly when the request is sound. */
  lemma RecordExactly(r: Record, q: Request)
    requires Intact(r) && IsRunId(r.body.runId) && r.body.actor != "" && r.body.reason != "" && !r.body.terminal.OtherTerminal?
    requires r.body.recordType == q.recordType && r.body.evidence == Stored(q.evidence)
    requires r.body.usage == q.usage && r.body.supersedes == q.supersedes
    requires r.body.usageSha == if q.usage.Some? then Some(Sha256(q.usage.value)) else None
    ensures RecordFault(r).None? <==>
              && q.evidence != [] && (forall i :: 0 <= i < |q.evidence| ==> EvidenceSound(q.evidence[i]))
              && !q.recordType.OtherType?
              && (q.recordType == UsageReconciliation ==> q.supersedes.Some? && q.usage.Some? && UsageSound(q.usage.value))
  {
    hide EvidenceFault, Stored, EvidenceSound;
    StoredExactly(q.evidence);
    StoredLength(q.evidence);
  }

  lemma StoredLength(refs: seq<EvidenceInput>)
    ensures Stored(refs) == [] <==> refs == []
  {
  }

  /** A valid record's own request parts are sound: what a repeated request finds was acceptable. */
  lemma ValidRecordIsSound(r: Record, q: Request)
    requires RecordFault(r).None? && r.body.recordType == q.recordType && r.body.evidence == Stored(q.evidence)
    requires r.body.usage == q.usage
    ensures
      && q.evidence != [] && (forall i :: 0 <= i < |q.evidence| ==> EvidenceSound(q.evidence[i]))
      && !q.recordType.OtherType? && (q.recordType == UsageReconciliation ==> q.usage.Some? && UsageSound(q.usage.value))
  {
    hide EvidenceFault, Stored, EvidenceSound;
    StoredExactly(q.evidence);
    StoredLength(q.evidence);
  }

  /**
   * In a chain that appends have written a request is answered with a record
   * exactly when it is acceptable; otherwise nothing is appended.
   */
  lemma AppendExactly(chain: seq<Record>, runId: string, q: Request, id: string, now: int)
    requires Good(chain, runId) && q.runId == runId
    ensures
      var (chain', reply) := Append(chain, q, id, now);
      && (reply.Ok? <==> Acceptable(chain, q))
      && (reply.Err? ==> chain' == chain)
  {
    hide RecordFault, ChainFault, IsRunId, FindKey, Stored, EvidenceSound, UsageSound;
    var n := FindKey(chain, KeyOf(q));
    FoundKey(chain, KeyOf(q));
    if n < |chain| {
      PlaceHolds(chain, n);
      ValidRecordIsSound(chain[n], q);
    } else if RequestFault(q).None? {
      RecordExactly(NewRecord(chain, q, id, now), q);
    }
  }

  lemma FoundKey(chain: seq<Record>, key: Digest<KeyMaterial>)
    ensures FindKey(chain, key) < |chain| ==> chain[FindKey(chain, key)].body.key == key
  {
  }

  /** What an appended record says: the request, behind the newest record, under its id and time. */
  lemma AppendedSays(chain: seq<Record>, q: Request, id: string, now: int)
    requires Append(chain, q, id, now).1.Ok? && Append(chain, q, id, now).0 != chain
    ensures
      var (chain', reply) := Append(chain, q, id, now);
      var b := reply.value.body;
      && chain' == chain + [reply.value] && reply.value.sha == Sha256(b)
      && b.recordId == id && b.sequence == |chain| + 1 && b.at == now
      && b.previous == (if chain == [] then None else Some(chain[|chain| - 1].sha))
      && b.recordType == q.recordType && b.runId == q.runId && b.caseId == q.caseId && b.terminal == q.terminal
      && b.actor == q.actor && b.actorSource == q.actorSource && b.reason == q.reason && b.reasonCodes == q.reasonCodes
      && b.guard == q.guard && b.guardSha == Sha256(q.guard) && b.usageStatus == q.usageStatus
      && b.supersedes == q.supersedes && b.usage == q.usage
      && |b.evidence| == |q.evidence| && forall i :: 0 <= i < |q.evidence| ==> b.evidence[i].body == q.evidence[i].body
  {
    hide RecordFault, ChainFault, IsRunId, FindKey;
  }

  /** Two requests are the same request exactly when they agree in everything but case, source, codes, record id and time. */
  lemma SameRequestExactly(q: Request, p: Request)
    ensures KeyOf(q) == KeyOf(p) <==>
              && q.runId == p.runId && q.terminal == p.terminal && q.actor == p.actor && q.reason == p.reason && q.guard == p.guard
              && Stored(q.evidence) == Stored(p.evidence) && q.recordType == p.recordType && q.usageStatus == p.usageStatus
              && q.supersedes == p.supersedes && q.usage == p.usage
  {
    hide Stored;
  }

  // ----- refusals

  /** A Run id is RUN- and one or more letters, digits and dashes. */
  lemma RunIdExactly(s: string)
    ensures IsRunId(s) <==>
              && |s| >= 5 && s[0] == 'R' && s[1] == 'U' && s[2] == 'N' && s[3] == '-'
              && forall i :: 4 <= i < |s| ==> IsLetterOrDigit(s[i]) || s[i] == '-'
  {
    hide DIGITS, SMALL, CAPITAL;
    forall i | 4 <= i < |s|
      ensures IsLetterOrDigit(s[i]) || s[i] == '-' <==> '0' <= s[i] <= '9' || 'A' <= s[i] <= 'Z' || 'a' <= s[i] <= 'z' || s[i] == '-'
    {
      ClassesExactly(s[i]);
    }
    assert |s| >= 4 ==> (s[..4] == "RUN-" <==> s[0] == 'R' && s[1] == 'U' && s[2] == 'N' && s[3] == '-');
  }

  /** What each refusal of a stored record says of it. */
  ghost predicate Defect(r: Record, reason: Reason) {
    var b := r.body;
    match reason
    case TerminalInvalid => b.terminal !in {StoppedByGate, BudgetExceeded}
    case RecordTypeInvalid => b.recordType !in {EmergencyStop, UsageReconciliation}
    case RunIdInvalid => !("RUN-" <= b.runId)
    case ActorMissing => b.actor == ""
    case ReasonMissing => b.reason == ""
    case EvidenceMissing => b.evidence == []
    case EvidenceTypeMissing => exists ref :: ref in b.evidence && ref.body.evidenceType == ""
    case EvidenceDigestMismatch => exists ref :: ref in b.evidence && !Intact(ref)
    case MustSupersede => b.recordType == UsageReconciliation && b.supersedes == None
    case UsageMissing => b.recordType == UsageReconciliation && b.usage == None
    case UsageNotHashBound => b.recordType == UsageReconciliation && b.usageSha == None
    case UsageDigestMismatch =>
      b.recordType == UsageReconciliation && b.usage.Some? && b.usageSha !in {None, Some(Sha256(b.usage.value))}
    case UsageArithmetic => b.recordType == UsageReconciliation && b.usage.Some? && !UsageSound(b.usage.value)
    case RecordDigestMismatch => r.sha != Sha256(b)
    case _ => false
  }

  lemma {:induction false} EvidenceTruthful(refs: seq<Sealed<EvidenceBody>>)
    ensures EvidenceFault(refs) == Some(EvidenceTypeMissing) ==> exists ref :: ref in refs && ref.body.evidenceType == ""
    ensures EvidenceFault(refs) == Some(EvidenceDigestMismatch) ==> exists ref :: ref in refs && !Intact(ref)
    ensures EvidenceFault(refs) in {None, Some(EvidenceTypeMissing), Some(EvidenceDigestMismatch)}
  {
    if refs != [] {
      EvidenceTruthful(refs[1..]);
      assert refs == [refs[0]] + refs[1..];
    }
  }

  /** The reason given for a stored record is a defect it has, and it is refused exactly if it has one. */
  lemma RecordRefusalsExactly(r: Record, reason: Reason)
    ensures RecordFault(r) == Some(reason) ==> Defect(r, reason)
    ensures Defect(r, reason) ==> RecordFault(r).Some?
  {
    hide EvidenceFault;
    EvidenceTruthful(r.body.evidence);
    EvidenceExactly(r.body.evidence);
    assert |r.body.runId| >= 4 ==> ("RUN-" <= r.body.runId <==> r.body.runId[..4] == "RUN-");
  }

  /** Why an append to a chain of its own Run is refused before its record is made. */
  lemma RequestRefusalsExactly(chain: seq<Record>, runId: string, q: Request, id: string, now: int)
    requires Good(chain, runId) && q.runId == runId
    ensures
      var r := Append(chain, q, id, now).1;
      && (q.terminal.OtherTerminal? ==> r == Err(TerminalInvalid))
      && (!q.terminal.OtherTerminal? && (q.actor == "" || q.reason == "") ==> r == Err(ActorMissing))
      && (RequestFault(q).None? && q.recordType == UsageReconciliation && chain == [] ==> r == Err(NoPriorRecord))
      && (RequestFault(q).None? && q.recordType == UsageReconciliation && chain != [] && q.supersedes != Some(chain[|chain| - 1].sha) ==>
            r == Err(NotLatest))
      && (r == Err(RunIdInvalid) <==> !q.terminal.OtherTerminal? && q.actor != "" && q.reason != "" && !IsRunId(q.runId))
  {
    hide RecordFault, ChainFault, IsRunId, FindKey;
    RunIdIsLong(q.runId);
    RecordRefusalsExactly(NewRecord(chain, q, id, now), RunIdInvalid);
  }

  lemma RunIdIsLong(s: string)
    ensures IsRunId(s) ==> "RUN-" <= s
  {
  }

  // ----- verification

  /** Record i is valid, has number i + 1 and names the digest of the record before it. */
  predicate InPlace(chain: seq<Record>, i: nat)
    requires i < |chain|
  {
    && RecordFault(chain[i]).None? && chain[i].body.sequence == i + 1
    && chain[i].body.previous == if i == 0 then None else Some(chain[i - 1].sha)
  }

  lemma PlaceExactly(chain: seq<Record>, i: nat)
    requires i < |chain|
    ensures PlaceFault(chain, i).None? <==> InPlace(chain, i)
    ensures PlaceFault(chain, i) == Some(SequenceNotContiguous) <==> RecordFault(chain[i]).None? && chain[i].body.sequence != i + 1
    ensures PlaceFault(chain, i) == Some(ChainBroken) ==>
              chain[i].body.sequence == i + 1 && chain[i].body.previous != if i == 0 then None else Some(chain[i - 1].sha)
  {
    hide EvidenceFault, UsageFault;
    RecordReasons(chain[i]);
    assert i > 0 ==> chain[..i][i - 1] == chain[i - 1];
  }

  lemma RecordReasons(r: Record)
    ensures RecordFault(r) !in {Some(SequenceNotContiguous), Some(ChainBroken)}
  {
    EvidenceTruthful(r.body.evidence);
  }

  /** A chain passes verification exactly when every record is in its place; otherwise the first one that is not gives the reason. */
  lemma {:induction false} ChainExactly(chain: seq<Record>)
    ensures ChainFault(chain).None? <==> forall i: nat :: i < |chain| ==> InPlace(chain, i)
    ensures forall i: nat :: i < |chain| && !InPlace(chain, i) && (forall j: nat :: j < i ==> InPlace(chain, j)) ==>
              ChainFault(chain) == PlaceFault(chain, i)
    decreases |chain|
  {
    hide InPlace, PlaceFault;
    if chain != [] {
      var before := chain[..|chain| - 1];
      ChainExactly(before);
      PlaceExactly(chain, |chain| - 1);
      forall i: nat | i < |before|
        ensures InPlace(before, i) <==> InPlace(chain, i)
        ensures PlaceFault(before, i) == PlaceFault(chain, i)
      {
        SamePlace(before, chain, i);
      }
    }
  }

  lemma SamePlace(before: seq<Record>, chain: seq<Record>, i: nat)
    requires i < |before| && chain != [] && before == chain[..|chain| - 1]
    ensures InPlace(before, i) <==> InPlace(chain, i)
    ensures PlaceFault(before, i) == PlaceFault(chain, i)
  {
    hide RecordFault;
    assert before[..i] == chain[..i];
  }

  /** Nothing is answered or appended over a chain that does not verify. */
  lemma BrokenChainRefuses(chain: seq<Record>, q: Request, id: string, now: int)
    requires RequestFault(q).None? && !(forall i: nat :: i < |chain| ==> InPlace(chain, i))
    ensures ChainFault(chain).Some? && Append(chain, q, id, now) == (chain, Err(ChainFault(chain).value))
  {
    hide InPlace, RecordFault, FindKey;
    ChainExactly(chain);
  }
}
