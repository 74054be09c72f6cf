/** What lies in a built capsule: who may see which key, what the index says, and which requests are well formed. */
module CapsuleContents {
  import opened Basics
  import opened ContextCapsule

  // ----- the allowlist, read key by key

  const ALL_ROLES := {
    EvidenceInvestigator, SemanticImpactAnalyst, DataRightsSteward, ResearchContextAnalyst, RuntimeResilienceAuditor,
    IndependentValidator}

  /** The roles that may see a key. */
  function MaySee(key: Key): set<Role> {
    match key
    case S | F | A | H | R | G | PS => ALL_ROLES
    case I | D => {EvidenceInvestigator, SemanticImpactAnalyst, ResearchContextAnalyst, IndependentValidator}
    case M => {EvidenceInvestigator, SemanticImpactAnalyst, IndependentValidator}
    case C | T | X | CO | IM | Q | DP | SF | SC | SV => {SemanticImpactAnalyst, IndependentValidator}
    case RM | RB | RC => {EvidenceInvestigator, ResearchContextAnalyst}
    case CL | GB | US => {DataRightsSteward}
    case EW | ET | ER | EC => {RuntimeResilienceAuditor}
    case PI | PR | VA => {IndependentValidator}
    case P | PH | OtherKey(_) => {}
  }

  lemma CommonKeysAre(key: Key)
    ensures key in COMMON <==> MaySee(key) == ALL_ROLES
    ensures key in COMMON <==> DataRightsSteward in MaySee(key) && key !in {CL, GB, US}
    ensures key in COMMON <==> RuntimeResilienceAuditor in MaySee(key) && key !in {EW, ET, ER, EC}
  {
  }

  lemma MappingKeysAre(key: Key)
    ensures key in MAPPING <==> SemanticImpactAnalyst in MaySee(key) && MaySee(key) != ALL_ROLES
  {
    hide ALL_ROLES;
    SomeKeysAre(key);
  }

  lemma SomeKeysAre(key: Key)
    ensures MaySee(key) == ALL_ROLES <==> key in {S, F, A, H, R, G, PS}
    ensures key in {S, F, A, H, R, G, PS} ==> MaySee(key) == ALL_ROLES && SemanticImpactAnalyst in ALL_ROLES
  {
  }

  lemma ValidatorKeysAre(key: Key)
    ensures IndependentValidator in MaySee(key) <==> SemanticImpactAnalyst in MaySee(key) || key in {PI, PR, VA}
    ensures MaySee(key) == ALL_ROLES ==> SemanticImpactAnalyst in MaySee(key)
  {
  }

  lemma ResearchKeysAre(key: Key)
    ensures ResearchContextAnalyst in MaySee(key) <==> key in {S, F, A, H, R, G, PS, I, D, RM, RB, RC}
  {
  }

  lemma EvidenceKeysAre(key: Key)
    ensures EvidenceInvestigator in MaySee(key) <==> ResearchContextAnalyst in MaySee(key) || key == M
  {
  }

  /** A key is on a role's list exactly when the role is one that may see it. */
  lemma AllowlistExactly(role: Role, key: Key)
    requires !role.OtherRole?
    ensures key in RoleKeys(role) <==> role in MaySee(key)
  {
    hide MAPPING, MaySee, ALL_ROLES;
    CommonKeysAre(key);
    MappingKeysAre(key);
    ValidatorKeysAre(key);
    ResearchKeysAre(key);
    EvidenceKeysAre(key);
    StewardKeys(key);
  }

  lemma StewardKeys(key: Key)
    ensures key in {CL, GB, US} ==> DataRightsSteward in MaySee(key)
    ensures key in {EW, ET, ER, EC} ==> RuntimeResilienceAuditor in MaySee(key)
  {
  }

  // ----- requests

  /** A request is well formed exactly when case, Run, recipe and roles are known and the payload carries its own digest. */
  lemma RequestExactly(q: Request)
    ensures RequestFault(q).None? <==>
              && q.caseId != "" && q.runId != "" && q.recipe in {FreshSession, SignedMemory, SignedMemoryGuarded}
              && (forall i :: 0 <= i < |q.selected| ==> q.selected[i] in ALL_ROLES)
              && PH in q.payload && q.payload[PH] == Hash(Sha256(q.payload - {PH}))
  {
    assert Without(q.payload, PH) == q.payload - {PH};
    assert forall role: Role :: role in ALL_ROLES <==> !role.OtherRole?;
  }

  // ----- the order of roles

  /** This role stands in front of the first place of the other one. */
  ghost predicate StartsBefore(items: seq<Role>, role: Role, other: Role) {
    exists n :: 0 <= n < |items| && items[n] == role && other !in items[..n + 1]
  }

  lemma {:induction false} StartsBeforeLonger(items: seq<Role>, last: Role, role: Role, other: Role)
    requires StartsBefore(items, role, other)
    ensures StartsBefore(items + [last], role, other)
  {
    var n :| 0 <= n < |items| && items[n] == role && other !in items[..n + 1];
    assert (items + [last])[n] == role && (items + [last])[..n + 1] == items[..n + 1];
  }

  /** Every role once, in the order of first places. */
  lemma {:induction false} DistinctExactly(items: seq<Role>, i: nat, j: nat)
    requires i < j < |Distinct(items)|
    ensures Distinct(items)[i] != Distinct(items)[j] && StartsBefore(items, Distinct(items)[i], Distinct(items)[j])
  {
    var before, last := items[..|items| - 1], items[|items| - 1];
    assert items == before + [last];
    if j < |Distinct(before)| {
      DistinctExactly(before, i, j);
      StartsBeforeLonger(before, last, Distinct(before)[i], Distinct(before)[j]);
    } else {
      var role := Distinct(before)[i];
      assert role in before;
      var n :| 0 <= n < |before| && before[n] == role;
      assert items[n] == role && items[..n + 1] == before[..n + 1];
      assert last !in before;
    }
  }

  // ----- the index

  /** The index of a built capsule names what it was built for, its workers in order, and the digest of each one's slice. */
  lemma IndexHolds(s: Store, q: Request)
    ensures
      var (s', built) := Build(s, q);
      built.Ok? ==>
        && built.value.capsule in s' && s'[built.value.capsule].body.IndexObject? && S in q.payload && PH in q.payload
        && var index := s'[built.value.capsule].body;
        && built.value.capsule == Sha256(index) == s'[built.value.capsule].sha
        && index.caseId == q.caseId && index.runId == q.runId && index.submission == q.payload[S]
        && Hash(index.source) == q.payload[PH] && index.policy == q.policy && index.recipe == q.recipe == built.value.recipe
        && index.route == q.route && index.fingerprint == built.value.fingerprint
        && index.workers == Distinct(q.selected) && index.slices == built.value.slices
        && (forall role :: role in index.slices <==> role in q.selected)
  {
    hide WriteObject, WriteSlices, Build, SliceOf, FingerprintOf;
    BuiltIsStored(s, q);
  }

  /** Each slice that the index names is on file and says what it is. */
  lemma SlicesHold(s: Store, q: Request, role: Role)
    ensures
      var (s', built) := Build(s, q);
      built.Ok? && role in built.value.slices ==>
        && built.value.slices[role] in s' && PH in q.payload
        && var slice := s'[built.value.slices[role]].body;
        && slice.SliceObject? && slice.role == role && slice.caseId == q.caseId && slice.runId == q.runId
        && slice.fingerprint == built.value.fingerprint && Hash(slice.source) == q.payload[PH] && slice.recipe == q.recipe
        && slice.allowed == slice.payload.Keys
  {
    hide WriteObject, WriteSlices, Build, RolePayload, FingerprintOf;
    BuiltIsStored(s, q);
  }

  /** Two requests have one fingerprint exactly when payload digest, policy, recipe, route and the order of workers are the same. */
  lemma FingerprintExactly(q: Request, p: Request)
    requires RequestFault(q).None? && RequestFault(p).None?
    ensures FingerprintOf(q) == FingerprintOf(p) <==>
              && q.payload[PH] == p.payload[PH] && q.policy == p.policy && q.recipe == p.recipe && q.route == p.route
              && Distinct(q.selected) == Distinct(p.selected)
  {
    hide Distinct;
  }

  // ----- refusals

  /** What each refusal of a build says of its request. */
  ghost predicate Defect(q: Request, reason: Reason) {
    match reason
    case IdentityIncomplete => q.caseId == "" || q.runId == "" || PH !in q.payload || q.payload[PH].Text?
    case PayloadMismatch => PH in q.payload && q.payload[PH] != Hash(Sha256(q.payload - {PH}))
    case RecipeInvalid => q.recipe !in {FreshSession, SignedMemory, SignedMemoryGuarded}
    case RolesUnsupported => exists i :: 0 <= i < |q.selected| && q.selected[i] !in ALL_ROLES
    case SubmissionMissing => S !in q.payload
    case _ => false
  }

  /** In a store that only builds have written the reason given is a defect of the request, and a request is refused exactly if it has one. */
  lemma BuildRefusalsExactly(s: Store, q: Request, reason: Reason)
    requires IntactStore(s)
    ensures Build(s, q).1 == Err(reason) ==> Defect(q, reason)
    ensures Defect(q, reason) ==> Build(s, q).1.Err?
  {
    hide WriteObject, WriteSlices, SliceOf, IndexOf, FingerprintOf, SliceHandles, IntactStore, Distinct;
    BuildExactly(s, q);
    RequestExactly(q);
    FaultIsDefect(q);
    if RequestFault(q).None? {
      RolesSupported(q);
      SlicesIntact(s, q, Distinct(q.selected));
      if S in q.payload {
        WriteIntact(WriteSlices(s, q, Distinct(q.selected)).0, IndexOf(q));
      }
    }
  }

  lemma FaultIsDefect(q: Request)
    ensures RequestFault(q).Some? ==> Defect(q, RequestFault(q).value)
  {
    assert Without(q.payload, PH) == q.payload - {PH};
    assert forall role: Role :: role in ALL_ROLES <==> !role.OtherRole?;
    if exists role :: role in q.selected && role.OtherRole? {
      var role :| role in q.selected && role.OtherRole?;
      var i :| 0 <= i < |q.selected| && q.selected[i] == role;
    }
  }

  /** What each refusal of a load says, whatever lies in the store. */
  predicate LoadDefect(s: Store, ref: Digest<ObjectBody>, role: Role, caseId: string, runId: string, reason: Reason) {
    match reason
    case RoleUnknown => role !in ALL_ROLES
    case ObjectMissing => ref !in s
    case NotASlice => ref in s && s[ref].body.IndexObject?
    case HashMismatch => ref in s && (s[ref].sha != ref || ref != Sha256(s[ref].body))
    case AccessDenied => ref in s && s[ref].body.SliceObject? && s[ref].body.role != role
    case NotBound => ref in s && s[ref].body.SliceObject? && (s[ref].body.caseId != caseId || s[ref].body.runId != runId)
    case RecipeInvalid => ref in s && s[ref].body.SliceObject? && s[ref].body.recipe.OtherRecipe?
    case AllowlistViolated =>
      && ref in s && s[ref].body.SliceObject? && role in ALL_ROLES
      && (|| s[ref].body.payload.Keys != s[ref].body.allowed
          || exists key :: key in s[ref].body.payload && key !in {P, PH} && role !in MaySee(key))
    case _ => false
  }

  /** The loaded object keeps to the allowlist, said in the keys' own terms. */
  lemma AllowedExactly(payload: Fields, role: Role)
    requires role in ALL_ROLES
    ensures payload.Keys <= RoleKeys(role) + {P, PH} <==> forall key :: key in payload && key !in {P, PH} ==> role in MaySee(key)
  {
    hide RoleKeys, MaySee;
    forall key | key in payload
      ensures key in RoleKeys(role) <==> role in MaySee(key)
    {
      AllowlistExactly(role, key);
    }
  }

  lemma LoadReasonIsTrue(s: Store, ref: Digest<ObjectBody>, role: Role, caseId: string, runId: string)
    ensures
      var r := Load(s, ref, role, caseId, runId);
      r.Err? ==> LoadDefect(s, ref, role, caseId, runId, r.error)
  {
    hide RoleKeys, MaySee, ALL_ROLES;
    KnownRoles(role);
    if role in ALL_ROLES && ref in s && s[ref].body.SliceObject? {
      AllowedExactly(s[ref].body.payload, role);
    }
  }

  lemma LoadedHasNoDefect(s: Store, ref: Digest<ObjectBody>, role: Role, caseId: string, runId: string, reason: Reason)
    requires Load(s, ref, role, caseId, runId).Ok?
    ensures !LoadDefect(s, ref, role, caseId, runId, reason)
  {
    hide RoleKeys, MaySee, ALL_ROLES;
    KnownRoles(role);
    AllowedExactly(s[ref].body.payload, role);
  }

  /** The reason given for a load is a true one, and a load is refused exactly if there is one. */
  lemma LoadRefusalsExactly(s: Store, ref: Digest<ObjectBody>, role: Role, caseId: string, runId: string, reason: Reason)
    ensures Load(s, ref, role, caseId, runId) == Err(reason) ==> LoadDefect(s, ref, role, caseId, runId, reason)
    ensures LoadDefect(s, ref, role, caseId, runId, reason) ==> Load(s, ref, role, caseId, runId).Err?
  {
    hide Load, LoadDefect;
    LoadReasonIsTrue(s, ref, role, caseId, runId);
    if Load(s, ref, role, caseId, runId).Ok? {
      LoadedHasNoDefect(s, ref, role, caseId, runId, reason);
    }
  }

  lemma KnownRoles(role: Role)
    ensures role in ALL_ROLES <==> !role.OtherRole?
  {
  }
}
