/**
 * Content-addressed role slices: one immutable object per role beside an index,
 * written once under its own digest, and the loader that hands a Worker its own
 * slice and nothing else.
 */
module ContextCapsule {
  import opened Basics

  // ----- the role allowlist

  /** The payload keys the allowlist and the builder know by name, and all others. */
  datatype Key =
    | S | F | A | H | R | G | PS | I | D | C | T | M | X | CO | IM | Q | DP | SF | SC | SV | RM | RB | RC
    | CL | GB | US | EW | ET | ER | EC | PI | PR | VA | P | PH | OtherKey(name: string)

  datatype Role =
    | EvidenceInvestigator | SemanticImpactAnalyst | DataRightsSteward | ResearchContextAnalyst
    | RuntimeResilienceAuditor | IndependentValidator | OtherRole(name: string)

  const COMMON := {S, F, A, H, R, G, PS}

  const MAPPING := {I, D, C, T, M, X, CO, IM, Q, DP, SF, SC, SV}

  /** The payload keys a role may see. */
  function RoleKeys(role: Role): set<Key>
    requires !role.OtherRole?
  {
    match role
    case EvidenceInvestigator => COMMON + {I, D, M, RM, RB, RC}
    case SemanticImpactAnalyst => COMMON + MAPPING
    case DataRightsSteward => COMMON + {CL, GB, US}
    case ResearchContextAnalyst => COMMON + {I, D, RM, RB, RC}
    case RuntimeResilienceAuditor => COMMON + {EW, ET, ER, EC}
    case IndependentValidator => COMMON + MAPPING + {PI, PR, VA}
  }

  // ----- objects

  /** A payload value: canonical text, or the digest of the rest of the payload. */
  datatype Value = Text(text: string) | Hash(digest: Digest<Fields>)

  type Fields = map<Key, Value>

  datatype Recipe = FreshSession | SignedMemory | SignedMemoryGuarded | OtherRecipe(name: string)

  datatype Fingerprint = Fingerprint(
    source: Digest<Fields>, policy: string, recipe: Recipe, workers: seq<Role>, route: string)

  datatype ObjectBody =
    | SliceObject(
        role: Role, caseId: string, runId: string, fingerprint: Digest<Fingerprint>, source: Digest<Fields>,
        recipe: Recipe, allowed: set<Key>, payload: Fields)
    | IndexObject(
        caseId: string, runId: string, submission: Value, fingerprint: Digest<Fingerprint>, source: Digest<Fields>,
        policy: string, recipe: Recipe, route: string, workers: seq<Role>, slices: map<Role, Digest<ObjectBody>>)

  /** A stored object with the digest it declares for itself. */
  type Object = Sealed<ObjectBody>

  type Store = map<Digest<ObjectBody>, Object>

  datatype Request = Request(
    caseId: string, runId: string, payload: Fields, selected: seq<Role>, policy: string, route: string, recipe: Recipe)

  datatype Handle = Handle(
    capsule: Digest<ObjectBody>, fingerprint: Digest<Fingerprint>, recipe: Recipe,
    slices: map<Role, Digest<ObjectBody>>, hit: bool)

  /** What a Worker gets: its payload and the four context fields beside it. */
  datatype RoleContext = RoleContext(payload: Fields, slice: Digest<ObjectBody>, fingerprint: Digest<Fingerprint>, recipe: Recipe)

  datatype Reason =
    | IdentityIncomplete | PayloadMismatch | RecipeInvalid | RolesUnsupported | Collision | SubmissionMissing
    | RoleUnknown | ObjectMissing | NotASlice | HashMismatch | AccessDenied | NotBound | AllowlistViolated

  type Reply<T> = Outcome<T, Reason>

  // ----- building

  /** The first occurrence of every item. */
  function Distinct(items: seq<Role>): (r: seq<Role>)
    ensures forall x :: x in r <==> x in items
  {
    if items == [] then []
    else
      var before := Distinct(items[..|items| - 1]);
      var last := items[|items| - 1];
      assert items == items[..|items| - 1] + [last];
      if last in before then before else before + [last]
  }

  function Without(payload: Fields, key: Key): Fields {
    map k | k in payload && k != key :: payload[k]
  }

  function RequestFault(q: Request): Option<Reason> {
    if q.caseId == "" || q.runId == "" || PH !in q.payload || q.payload[PH].Text? then Some(IdentityIncomplete)
    else if q.payload[PH].digest != Sha256(Without(q.payload, PH)) then Some(PayloadMismatch)
    else if q.recipe.OtherRecipe? then Some(RecipeInvalid)
    else if exists role :: role in q.selected && role.OtherRole? then Some(RolesUnsupported)
    else None
  }

  function FingerprintOf(q: Request): Digest<Fingerprint>
    requires RequestFault(q).None?
  {
    Sha256(Fingerprint(q.payload[PH].digest, q.policy, q.recipe, Distinct(q.selected), q.route))
  }

  const PAYLOAD_PROTOCOL := "FINFLUX_LIVE_WORKER_PAYLOAD_V0.1"

  /** The payload restricted to the role's keys, with the protocol and payload digest every slice carries. */
  function RolePayload(q: Request, role: Role): Fields
    requires RequestFault(q).None? && !role.OtherRole?
  {
    (map k | k in q.payload && k in RoleKeys(role) :: q.payload[k])
      [P := Text(PAYLOAD_PROTOCOL)][PH := q.payload[PH]]
  }

  function SliceOf(q: Request, role: Role): ObjectBody
    requires RequestFault(q).None? && !role.OtherRole?
  {
    SliceObject(role, q.caseId, q.runId, FingerprintOf(q), q.payload[PH].digest, q.recipe,
                RolePayload(q, role).Keys, RolePayload(q, role))
  }

  function IndexOf(q: Request): ObjectBody
    requires RequestFault(q).None? && S in q.payload
  {
    IndexObject(q.caseId, q.runId, q.payload[S], FingerprintOf(q), q.payload[PH].digest, q.policy, q.recipe, q.route,
                Distinct(q.selected), SliceHandles(q))
  }

  function SliceHandles(q: Request): map<Role, Digest<ObjectBody>>
    requires RequestFault(q).None?
  {
    map role | role in q.selected && !role.OtherRole? :: Sha256(SliceOf(q, role))
  }

  /** Writes an object under its digest, once. */
  function WriteObject(s: Store, body: ObjectBody): (Store, Reply<bool>) {
    var record := Seal(body);
    if record.sha !in s then (s[record.sha := record], Ok(false))
    else if s[record.sha] != record then (s, Err(Collision))
    else (s, Ok(true))
  }

  /** Writes the slices in order; answers whether all were there already. */
  function WriteSlices(s: Store, q: Request, roles: seq<Role>): (Store, Reply<bool>)
    requires RequestFault(q).None? && forall role :: role in roles ==> !role.OtherRole?
  {
    if roles == [] then (s, Ok(true))
    else
      var (before, first) := WriteSlices(s, q, roles[..|roles| - 1]);
      match first
      case Err(reason) => (before, Err(reason))
      case Ok(hit) =>
        var (after, last) := WriteObject(before, SliceOf(q, roles[|roles| - 1]));
        (after, if last.Err? then last else Ok(hit && last.value))
  }

  function Build(s: Store, q: Request): (Store, Reply<Handle>) {
    match RequestFault(q)
    case Some(reason) => (s, Err(reason))
    case None =>
      var (sliced, hits) := WriteSlices(s, q, Distinct(q.selected));
      match hits
      case Err(reason) => (sliced, Err(reason))
      case Ok(hit) =>
        if S !in q.payload then (sliced, Err(SubmissionMissing))
        else
          var (indexed, wrote) := WriteObject(sliced, IndexOf(q));
          match wrote
          case Err(reason) => (indexed, Err(reason))
          case Ok(there) =>
            (indexed, Ok(Handle(Sha256(IndexOf(q)), FingerprintOf(q), q.recipe, SliceHandles(q), hit && there)))
  }

  // ----- loading

  function Load(s: Store, ref: Digest<ObjectBody>, role: Role, caseId: string, runId: string): Reply<RoleContext> {
    if role.OtherRole? then Err(RoleUnknown)
    else if ref !in s then Err(ObjectMissing)
    else
      var body := s[ref].body;
      if !body.SliceObject? then Err(NotASlice)
      else if s[ref].sha != ref || Sha256(body) != ref then Err(HashMismatch)
      else if body.role != role then Err(AccessDenied)
      else if body.caseId != caseId || body.runId != runId then Err(NotBound)
      else if body.recipe.OtherRecipe? then Err(RecipeInvalid)
      else if body.payload.Keys != body.allowed || !(body.payload.Keys <= RoleKeys(role) + {P, PH}) then
        Err(AllowlistViolated)
      else Ok(RoleContext(body.payload, ref, body.fingerprint, body.recipe))
  }

  // ----- the store as it runs

  class CapsuleStore {
    var objects: Store

    constructor ()
      ensures objects == map[]
    {
      objects := map[];
    }

    method WriteContentAddressed(body: ObjectBody) returns (r: Reply<bool>)
      modifies this
      ensures (objects, r) == WriteObject(old(objects), body)
    {
      var record := Seal(body);
      if record.sha in objects {
        if objects[record.sha] != record {
          return Err(Collision);
        }
        return Ok(true);
      }
      objects := objects[record.sha := record];
      return Ok(false);
    }

    method BuildRunContextCapsule(q: Request) returns (r: Reply<Handle>)
      modifies this
      ensures (objects, r) == Build(old(objects), q)
    {
      hide SliceOf, IndexOf, WriteObject, FingerprintOf, RequestFault, SliceHandles;
      var fault := RequestFault(q);
      if fault.Some? {
        return Err(fault.value);
      }
      RolesSupported(q);
      var workers := Distinct(q.selected);
      var handles: map<Role, Digest<ObjectBody>> := map[];
      var allHit, i := true, 0;
      while i < |workers|
        invariant 0 <= i <= |workers|
        invariant (objects, Ok(allHit)) == WriteSlices(old(objects), q, workers[..i])
        invariant handles == map role | role in workers[..i] :: Sha256(SliceOf(q, role))
      {
        var role := workers[i];
        ghost var written := workers[..i + 1];
        assert written[..i] == workers[..i];
        var wrote := WriteContentAddressed(SliceOf(q, role));
        if wrote.Err? {
          FailedSlicesStay(old(objects), q, workers, i + 1);
          return Err(wrote.error);
        }
        allHit := allHit && wrote.value;
        handles := handles[role := Sha256(SliceOf(q, role))];
        i := i + 1;
      }
      assert workers[..i] == workers;
      HandlesAre(q, workers, handles);
      if S !in q.payload {
        return Err(SubmissionMissing);
      }
      var index := IndexOf(q);
      var wrote := WriteContentAddressed(index);
      if wrote.Err? {
        return Err(wrote.error);
      }
      return Ok(Handle(Sha256(index), FingerprintOf(q), q.recipe, handles, allHit && wrote.value));
    }
  }

  lemma RolesSupported(q: Request)
    requires RequestFault(q).None?
    ensures forall role :: role in q.selected ==> !role.OtherRole?
  {
  }

  lemma HandlesAre(q: Request, workers: seq<Role>, handles: map<Role, Digest<ObjectBody>>)
    requires RequestFault(q).None? && workers == Distinct(q.selected)
    requires forall role :: role in workers ==> !role.OtherRole?
    requires handles == map role | role in workers :: Sha256(SliceOf(q, role))
    ensures handles == SliceHandles(q)
  {
    hide SliceOf, RequestFault;
  }

  /** A slice that could not be written stops the rest. */
  lemma {:induction false} FailedSlicesStay(s: Store, q: Request, roles: seq<Role>, n: nat)
    requires RequestFault(q).None? && (forall role :: role in roles ==> !role.OtherRole?) && n <= |roles|
    requires WriteSlices(s, q, roles[..n]).1.Err?
    ensures WriteSlices(s, q, roles) == WriteSlices(s, q, roles[..n])
    decreases |roles|
  {
    hide SliceOf, WriteObject, RequestFault;
    if n == |roles| {
      assert roles[..n] == roles;
    } else {
      assert roles[..|roles| - 1][..n] == roles[..n];
      FailedSlicesStay(s, q, roles[..|roles| - 1], n);
    }
  }

  // ----- what writing leaves behind

  /** The object is on file under its own digest. */
  predicate Stored(s: Store, body: ObjectBody) {
    Sha256(body) in s && s[Sha256(body)] == Seal(body)
  }

  ghost predicate Grows(s: Store, s': Store) {
    forall key :: key in s ==> key in s' && s'[key] == s[key]
  }

  lemma WriteStores(s: Store, body: ObjectBody)
    ensures
      var (s', r) := WriteObject(s, body);
      && Grows(s, s')
      && (r.Ok? ==> Stored(s', body) && (r.value <==> Stored(s, body)))
      && (r.Err? ==> s' == s)
  {
  }

  lemma StoredAlready(s: Store, body: ObjectBody)
    requires Stored(s, body)
    ensures WriteObject(s, body) == (s, Ok(true))
  {
  }

  lemma {:induction false} SlicesStored(s: Store, q: Request, roles: seq<Role>)
    requires RequestFault(q).None? && forall role :: role in roles ==> !role.OtherRole?
    ensures
      var (s', r) := WriteSlices(s, q, roles);
      && Grows(s, s')
      && (r.Ok? ==> forall role :: role in roles ==> Stored(s', SliceOf(q, role)))
  {
    hide SliceOf, WriteObject, RequestFault;
    if roles != [] {
      var last := roles[|roles| - 1];
      var (before, first) := WriteSlices(s, q, roles[..|roles| - 1]);
      SlicesStored(s, q, roles[..|roles| - 1]);
      WriteStores(before, SliceOf(q, last));
      var (s', r) := WriteSlices(s, q, roles);
      if r.Ok? {
        assert first.Ok? && s' == WriteObject(before, SliceOf(q, last)).0;
        forall role | role in roles
          ensures Stored(s', SliceOf(q, role))
        {
          LastOrBefore(roles, role);
        }
      }
    }
  }

  lemma LastOrBefore(items: seq<Role>, x: Role)
    requires items != [] && x in items
    ensures x in items[..|items| - 1] || x == items[|items| - 1]
  {
  }

  lemma {:induction false} SlicesAlready(s: Store, q: Request, roles: seq<Role>)
    requires RequestFault(q).None? && forall role :: role in roles ==> !role.OtherRole? && Stored(s, SliceOf(q, role))
    ensures WriteSlices(s, q, roles) == (s, Ok(true))
  {
    hide SliceOf, WriteObject, RequestFault, Stored;
    if roles != [] {
      SlicesAlready(s, q, roles[..|roles| - 1]);
      StoredAlready(s, SliceOf(q, roles[|roles| - 1]));
    }
  }

  /** A capsule that was built has its index and every slice on file, and touched nothing else. */
  lemma BuiltIsStored(s: Store, q: Request)
    ensures
      var (s', r) := Build(s, q);
      r.Ok? ==>
        && RequestFault(q).None? && S in q.payload
        && Grows(s, s')
        && Stored(s', IndexOf(q))
        && (forall role :: role in q.selected ==> !role.OtherRole? && Stored(s', SliceOf(q, role)))
        && r.value == Handle(Sha256(IndexOf(q)), FingerprintOf(q), q.recipe, SliceHandles(q), r.value.hit)
  {
    hide SliceOf, IndexOf, WriteObject, WriteSlices, SliceHandles, FingerprintOf;
    if Build(s, q).1.Ok? {
      var roles := Distinct(q.selected);
      SlicesStored(s, q, roles);
      WriteStores(WriteSlices(s, q, roles).0, IndexOf(q));
      KeepStored(WriteSlices(s, q, roles).0, Build(s, q).0, q);
    }
  }

  lemma KeepStored(s: Store, s': Store, q: Request)
    requires RequestFault(q).None? && Grows(s, s')
    ensures forall role :: role in q.selected && !role.OtherRole? && Stored(s, SliceOf(q, role)) ==> Stored(s', SliceOf(q, role))
  {
    hide SliceOf, RequestFault;
  }

  // ----- the results

  /**
   * Round trip and isolation of built slices: a slice of the capsule loads for
   * its own role, case and Run and for no other, and gives exactly the payload
   * restricted to the role's keys with the protocol, payload digest and context.
   */
  lemma SliceRoundTrips(s: Store, q: Request, owner: Role, role: Role, caseId: string, runId: string)
    ensures
      var (s', built) := Build(s, q);
      built.Ok? && owner in built.value.slices ==>
        var ref := built.value.slices[owner];
        var r := Load(s', ref, role, caseId, runId);
        && (r.Ok? <==> role == owner && caseId == q.caseId && runId == q.runId)
        && (r.Ok? ==>
              && r.value == RoleContext(r.value.payload, ref, built.value.fingerprint, q.recipe)
              && r.value.payload.Keys == (q.payload.Keys * RoleKeys(role)) + {P, PH}
              && r.value.payload[P] == Text(PAYLOAD_PROTOCOL) && r.value.payload[PH] == q.payload[PH]
              && forall k :: k in q.payload && k in RoleKeys(role) ==> r.value.payload[k] == q.payload[k])
  {
    hide WriteObject, WriteSlices, Build, RoleKeys, PAYLOAD_PROTOCOL;
    BuiltIsStored(s, q);
    if Build(s, q).1.Ok? && owner in q.selected {
      LoadStored(Build(s, q).0, q, owner, role, caseId, runId);
    }
  }

  lemma SharedKeys()
    ensures P !in COMMON && PH !in COMMON && P !in MAPPING && PH !in MAPPING
  {
  }

  /** No role's keys are the two that every slice carries. */
  lemma CommonKeys(role: Role)
    requires !role.OtherRole?
    ensures P !in RoleKeys(role) && PH !in RoleKeys(role)
  {
    hide COMMON, MAPPING;
    SharedKeys();
  }

  lemma LoadStored(s: Store, q: Request, owner: Role, role: Role, caseId: string, runId: string)
    requires RequestFault(q).None? && !owner.OtherRole? && Stored(s, SliceOf(q, owner))
    ensures
      var r := Load(s, Sha256(SliceOf(q, owner)), role, caseId, runId);
      && (r.Ok? <==> role == owner && caseId == q.caseId && runId == q.runId)
      && (r.Ok? ==>
            && r.value == RoleContext(RolePayload(q, role), Sha256(SliceOf(q, owner)), FingerprintOf(q), q.recipe)
            && r.value.payload.Keys == (q.payload.Keys * RoleKeys(role)) + {P, PH}
            && r.value.payload[P] == Text(PAYLOAD_PROTOCOL) && r.value.payload[PH] == q.payload[PH]
            && forall k :: k in q.payload && k in RoleKeys(role) ==> r.value.payload[k] == q.payload[k])
  {
    hide RoleKeys, PAYLOAD_PROTOCOL;
    RecipeAllowed(q);
    CommonKeys(owner);
    assert RolePayload(q, owner).Keys == (q.payload.Keys * RoleKeys(owner)) + {P, PH};
  }

  lemma RecipeAllowed(q: Request)
    requires RequestFault(q).None?
    ensures !q.recipe.OtherRecipe? && PH in q.payload
  {
  }

  /** The digest of the index opens nothing. */
  lemma IndexIsNoSlice(s: Store, q: Request, role: Role, caseId: string, runId: string)
    ensures
      var (s', built) := Build(s, q);
      built.Ok? && !role.OtherRole? ==> Load(s', built.value.capsule, role, caseId, runId) == Err(NotASlice)
  {
    hide Build;
    BuiltIsStored(s, q);
  }

  /**
   * Isolation against any store: whatever objects lie there, forged ones
   * included, a load gives a role nothing outside its keys, and only an object
   * that hashes to the reference and names this role, case and Run.
   */
  lemma NothingOutsideTheAllowlist(s: Store, ref: Digest<ObjectBody>, role: Role, caseId: string, runId: string)
    requires Load(s, ref, role, caseId, runId).Ok?
    ensures !role.OtherRole?
    ensures
      var payload := Load(s, ref, role, caseId, runId).value.payload;
      && payload.Keys <= RoleKeys(role) + {P, PH}
      && exists body: ObjectBody :: ref == Sha256(body) && body.SliceObject? && body.payload == payload
           && body.role == role && body.caseId == caseId && body.runId == runId
  {
    hide RoleKeys;
    var body := s[ref].body;
    assert ref == Sha256(body) && body.SliceObject? && body.payload == Load(s, ref, role, caseId, runId).value.payload;
  }

  /** A reference always means the same thing: two stores that both load it give the same context. */
  lemma ReferenceIsContent(s: Store, s': Store, ref: Digest<ObjectBody>, role: Role, caseId: string, runId: string)
    ensures
      var r, r' := Load(s, ref, role, caseId, runId), Load(s', ref, role, caseId, runId);
      r.Ok? && r'.Ok? ==> r == r'
  {
    hide RoleKeys;
  }

  /** Building the same capsule again changes nothing on file and reports a hit. */
  lemma RebuildHits(s: Store, q: Request)
    ensures
      var (s', built) := Build(s, q);
      built.Ok? ==> Build(s', q) == (s', Ok(built.value.(hit := true)))
  {
    hide SliceOf, IndexOf, WriteObject, WriteSlices, SliceHandles, Stored, FingerprintOf;
    BuiltIsStored(s, q);
    if Build(s, q).1.Ok? {
      var s' := Build(s, q).0;
      SlicesAlready(s', q, Distinct(q.selected));
      StoredAlready(s', IndexOf(q));
    }
  }

  /** A build reports a hit exactly when it found every object there, and then leaves the store as it was. */
  lemma HitMeansStored(s: Store, q: Request)
    ensures
      var (s', built) := Build(s, q);
      built.Ok? ==>
        && (built.value.hit <==>
              Stored(s, IndexOf(q)) && forall role :: role in q.selected ==> !role.OtherRole? && Stored(s, SliceOf(q, role)))
        && (built.value.hit ==> s' == s)
  {
    hide SliceOf, IndexOf, WriteObject, WriteSlices, SliceHandles, Stored, FingerprintOf;
    BuiltIsStored(s, q);
    if Build(s, q).1.Ok? {
      var roles := Distinct(q.selected);
      SlicesHit(s, q, roles);
      var sliced := WriteSlices(s, q, roles).0;
      WriteStores(sliced, IndexOf(q));
      NoSliceIsIndex(s, q, roles);
      if Build(s, q).1.value.hit {
        StoredAlready(sliced, IndexOf(q));
      }
    }
  }

  lemma {:induction false} SlicesHit(s: Store, q: Request, roles: seq<Role>)
    requires RequestFault(q).None? && forall role :: role in roles ==> !role.OtherRole?
    ensures
      var (s', r) := WriteSlices(s, q, roles);
      r.Ok? ==>
        && (r.value ==> s' == s)
        && (r.value <==> forall role :: role in roles ==> Stored(s, SliceOf(q, role)))
  {
    hide SliceOf, WriteObject, RequestFault, Stored;
    var (s', r) := WriteSlices(s, q, roles);
    if roles != [] && r.Ok? {
      var last := roles[|roles| - 1];
      var (before, first) := WriteSlices(s, q, roles[..|roles| - 1]);
      SlicesHit(s, q, roles[..|roles| - 1]);
      WriteStores(before, SliceOf(q, last));
      var wrote := WriteObject(before, SliceOf(q, last)).1;
      assert wrote.Ok? && r == Ok(first.value && wrote.value);
      if r.value {
        assert before == s;
        StoredAlready(s, SliceOf(q, last));
        forall role | role in roles
          ensures Stored(s, SliceOf(q, role))
        {
          LastOrBefore(roles, role);
        }
      }
      if forall role :: role in roles ==> Stored(s, SliceOf(q, role)) {
        SlicesAlready(s, q, roles);
      }
    }
  }

  /** Writing slices neither stores nor removes the index. */
  lemma {:induction false} NoSliceIsIndex(s: Store, q: Request, roles: seq<Role>)
    requires RequestFault(q).None? && S in q.payload && forall role :: role in roles ==> !role.OtherRole?
    ensures Stored(WriteSlices(s, q, roles).0, IndexOf(q)) <==> Stored(s, IndexOf(q))
  {
    hide RequestFault, RolePayload, FingerprintOf, SliceHandles;
    if roles != [] {
      NoSliceIsIndex(s, q, roles[..|roles| - 1]);
    }
  }

  // ----- when a build succeeds

  /** Every object lies under its own digest, as writing leaves it. */
  ghost predicate IntactStore(s: Store) {
    forall key :: key in s ==> s[key] == Seal(s[key].body) && s[key].sha == key
  }

  lemma WriteIntact(s: Store, body: ObjectBody)
    requires IntactStore(s)
    ensures WriteObject(s, body).1.Ok? && IntactStore(WriteObject(s, body).0)
  {
  }

  lemma {:induction false} SlicesIntact(s: Store, q: Request, roles: seq<Role>)
    requires IntactStore(s) && RequestFault(q).None? && forall role :: role in roles ==> !role.OtherRole?
    ensures WriteSlices(s, q, roles).1.Ok? && IntactStore(WriteSlices(s, q, roles).0)
  {
    hide SliceOf, WriteObject, RequestFault, IntactStore;
    if roles != [] {
      SlicesIntact(s, q, roles[..|roles| - 1]);
      WriteIntact(WriteSlices(s, q, roles[..|roles| - 1]).0, SliceOf(q, roles[|roles| - 1]));
    }
  }

  /**
   * In a store that only builds have written, no build ever collides: it succeeds
   * exactly for a well-formed request whose payload names the submission, and
   * leaves a store of the same kind.
   */
  lemma BuildExactly(s: Store, q: Request)
    requires IntactStore(s)
    ensures Build(s, q).1.Ok? <==> RequestFault(q).None? && S in q.payload
    ensures IntactStore(Build(s, q).0)
  {
    hide SliceOf, IndexOf, WriteObject, WriteSlices, SliceHandles, FingerprintOf, IntactStore, RequestFault;
    if RequestFault(q).None? {
      RolesSupported(q);
      SlicesIntact(s, q, Distinct(q.selected));
      if S in q.payload {
        WriteIntact(WriteSlices(s, q, Distinct(q.selected)).0, IndexOf(q));
      }
    }
  }
}
