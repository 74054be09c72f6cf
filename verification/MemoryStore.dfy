/**
 * The content-addressed memory store and its Run-and-role cache, with the local
 * backend: exclusive writes, the ranked index and lookups that may be answered
 * from the cache.
 */
module MemoryStore {
  import opened Basics
  import opened AsciiText
  import opened BoundedRecall

  // ----- identifiers

  predicate IsAlphanumeric(c: char) {
    'A' <= c <= 'Z' || 'a' <= c <= 'z' || '0' <= c <= '9'
  }

  predicate IsSafe(c: char) {
    IsAlphanumeric(c) || c == '.' || c == '_' || c == '-'
  }

  /** Every maximal run of unsafe characters becomes one dash. */
  function Dashed(s: string, inRun: bool): string {
    if s == "" then ""
    else if IsSafe(s[0]) then [s[0]] + Dashed(s[1..], false)
    else (if inRun then "" else "-") + Dashed(s[1..], true)
  }

  function DropMarks(s: string): string {
    if s != "" && (s[0] == '-' || s[0] == '.') then DropMarks(s[1..])
    else if s != "" && (s[|s| - 1] == '-' || s[|s| - 1] == '.') then DropMarks(s[..|s| - 1])
    else s
  }

  /** The file-name part made of a Run id or a role. */
  function Segment(s: string): string {
    DropMarks(Dashed(Strip(s), false))
  }

  predicate IsSegment(s: string) {
    1 <= |Segment(s)| <= 160
  }

  predicate IsSha256(s: string) {
    |s| == 64 && forall i :: 0 <= i < 64 ==> '0' <= s[i] <= '9' || 'a' <= s[i] <= 'f'
  }

  // ----- stored records

  const APPROVED := {
    "APPROVED", "APPROVE_PASS", "CONFIRM_BLOCK", "REQUEST_EVIDENCE", "HUMAN_APPROVED", "SIGNED_PASS"}

  datatype ObjectBody = ObjectBody(sha256: string)

  datatype BindingBody = BindingBody(
    runId: string, role: string, summary: string, uri: string, sha256: string,
    decision: string, signer: Digest<string>, signature: string, signedAt: string)

  datatype Path = Path(run: string, role: string, sha256: string)

  datatype BindingFile = BindingFile(path: Path, record: Sealed<BindingBody>)

  /** The objects directory, and the binding files in path order. */
  datatype Store = Store(objects: map<string, Sealed<ObjectBody>>, bindings: seq<BindingFile>)

  datatype CacheKey = CacheKey(runId: string, role: string, query: Digest<string>, budget: MemoryBudget)

  datatype Memory = Memory(store: Store, cache: map<CacheKey, seq<Item>>)

  datatype Reference = Reference(runId: string, role: string, summary: string, uri: string, sha256: string)

  datatype Approval = Approval(decision: string, signer: string, signature: string, signedAt: string)

  datatype Reason =
    | ReferenceInvalid | SignatureRequired | SummaryNotStructured | Collision | SegmentInvalid | QueryInvalid
    // the process stopped before a write; the cache is lost with it
    | Stopped

  type Reply<T> = Outcome<T, Reason>

  datatype WriteStatus = Stored | DedupHit

  datatype Answer = Answer(items: seq<Item>, cacheHit: bool, characters: nat, tokens: nat)

  // ----- order

  predicate Less(a: string, c: string) {
    c != "" && (a == "" || a[0] < c[0] || (a[0] == c[0] && Less(a[1..], c[1..])))
  }

  predicate PathLess(a: Path, c: Path) {
    || Less(a.run, c.run)
    || (a.run == c.run && Less(a.role, c.role))
    || (a.run == c.run && a.role == c.role && Less(a.sha256, c.sha256))
  }

  lemma {:induction false} LessTotal(a: string, c: string)
    ensures a == c || Less(a, c) || Less(c, a)
    ensures !(Less(a, c) && Less(c, a)) && !Less(a, a)
  {
    if a != "" && c != "" {
      LessTotal(a[1..], c[1..]);
      LessTotal(a[1..], a[1..]);
      assert a == [a[0]] + a[1..] && c == [c[0]] + c[1..];
    } else if a != "" {
      LessTotal(a[1..], a[1..]);
    }
  }

  lemma {:induction false} LessTransitive(a: string, c: string, d: string)
    requires Less(a, c) && Less(c, d)
    ensures Less(a, d)
  {
    if a != "" && a[0] == c[0] == d[0] {
      LessTransitive(a[1..], c[1..], d[1..]);
    }
  }

  lemma PathLessTotal(a: Path, c: Path)
    ensures a == c || PathLess(a, c) || PathLess(c, a)
    ensures !(PathLess(a, c) && PathLess(c, a))
  {
    LessTotal(a.run, c.run);
    LessTotal(a.role, c.role);
    LessTotal(a.sha256, c.sha256);
  }

  lemma PathLessTransitive(a: Path, c: Path, d: Path)
    requires PathLess(a, c) && PathLess(c, d)
    ensures PathLess(a, d)
  {
    hide Less;
    if Less(a.run, c.run) && Less(c.run, d.run) {
      LessTransitive(a.run, c.run, d.run);
    }
    if Less(a.role, c.role) && Less(c.role, d.role) {
      LessTransitive(a.role, c.role, d.role);
    }
    if Less(a.sha256, c.sha256) && Less(c.sha256, d.sha256) {
      LessTransitive(a.sha256, c.sha256, d.sha256);
    }
  }

  ghost predicate InPathOrder(files: seq<BindingFile>) {
    forall i, j :: 0 <= i < j < |files| ==> PathLess(files[i].path, files[j].path)
  }

  // ----- exclusive writes

  /** Where a path stands or belongs in the directory. */
  function PathIndex(files: seq<BindingFile>, path: Path): (n: nat)
    ensures n <= |files|
    ensures forall i :: 0 <= i < n ==> PathLess(files[i].path, path)
    ensures n < |files| ==> !PathLess(files[n].path, path)
  {
    if files != [] && PathLess(files[0].path, path) then 1 + PathIndex(files[1..], path) else 0
  }

  function WriteObject(s: Store, sha256: string): (Store, Reply<WriteStatus>) {
    var record := Seal(ObjectBody(sha256));
    if sha256 !in s.objects then (s.(objects := s.objects[sha256 := record]), Ok(Stored))
    else if s.objects[sha256] != record then (s, Err(Collision))
    else (s, Ok(DedupHit))
  }

  function WriteBinding(s: Store, file: BindingFile): (Store, Reply<WriteStatus>) {
    var n := PathIndex(s.bindings, file.path);
    if n == |s.bindings| || s.bindings[n].path != file.path then
      (s.(bindings := s.bindings[..n] + [file] + s.bindings[n..]), Ok(Stored))
    else if s.bindings[n] != file then (s, Err(Collision))
    else (s, Ok(DedupHit))
  }

  // ----- the ranked index

  predicate IsWordChar(c: char) {
    IsAlphanumeric(c) || c == '_' || c == '-'
  }

  function TakeWord(s: string): (w: string)
    ensures w <= s
  {
    if s != "" && IsWordChar(s[0]) then [s[0]] + TakeWord(s[1..]) else ""
  }

  /** Words of two or more characters, and single characters of the common CJK block. */
  function Terms(query: string): set<string> {
    if query == "" then {}
    else
      var word := TakeWord(query);
      if |word| >= 2 then {Lower(word)} + Terms(query[|word|..])
      else (if '\U{3400}' <= query[0] <= '\U{9FFF}' then {[query[0]]} else {}) + Terms(query[1..])
  }

  predicate Contains(text: string, term: string)
    decreases |text|
  {
    |term| <= |text| && (term <= text || (text != "" && Contains(text[1..], term)))
  }

  function Score(item: Item, query: string): nat {
    var text := Lower(item.summary + " " + item.uri);
    |set term | term in Terms(query) && Contains(text, term)|
  }

  function ItemOf(b: BindingBody): Item {
    Item(b.summary, b.uri, b.sha256)
  }

  /** The binding file carries a Human-approved reference of exactly this role whose object is on file. */
  predicate Signed(file: BindingFile, role: string, objects: map<string, Sealed<ObjectBody>>) {
    var b := file.record.body;
    && file.path.role == Segment(role)
    && Intact(file.record)
    && b.role == role
    && Upper(b.decision) in APPROVED
    && IsSha256(b.signature) && IsSha256(b.sha256)
    && b.sha256 in objects && objects[b.sha256] == Seal(ObjectBody(b.sha256))
  }

  predicate Relevant(file: BindingFile, role: string, query: string, objects: map<string, Sealed<ObjectBody>>) {
    Signed(file, role, objects) && Score(ItemOf(file.record.body), query) > 0
  }

  /** Relevant bindings in path order, the first one of each digest. */
  function Collect(files: seq<BindingFile>, role: string, query: string, objects: map<string, Sealed<ObjectBody>>,
                   seen: set<string>): seq<Item>
  {
    if files == [] then []
    else if files[0].record.body.sha256 !in seen && Relevant(files[0], role, query, objects) then
      [ItemOf(files[0].record.body)]
      + Collect(files[1..], role, query, objects, seen + {files[0].record.body.sha256})
    else Collect(files[1..], role, query, objects, seen)
  }

  predicate RankedBefore(a: Item, c: Item, query: string) {
    Score(a, query) > Score(c, query) || (Score(a, query) == Score(c, query) && Less(a.sha256, c.sha256))
  }

  function InsertRanked(item: Item, items: seq<Item>, query: string): seq<Item> {
    if items == [] || !RankedBefore(items[0], item, query) then [item] + items
    else [items[0]] + InsertRanked(item, items[1..], query)
  }

  function Rank(items: seq<Item>, query: string): seq<Item> {
    if items == [] then [] else InsertRanked(items[0], Rank(items[1..], query), query)
  }

  function LocalItems(s: Store, role: string, query: string): seq<Item> {
    Rank(Collect(s.bindings, role, query, s.objects, {}), query)
  }

  // ----- the operations on values

  predicate ValidReference(r: Reference) {
    && IsSegment(r.runId) && IsSegment(r.role)
    && 1 <= |Strip(r.summary)| <= 4096 && '\0' !in Strip(r.summary)
    && IsSha256(r.sha256)
  }

  predicate ValidApproval(a: Approval) {
    Upper(Strip(a.decision)) in APPROVED && Strip(a.signer) != "" && Strip(a.signedAt) != "" && IsSha256(a.signature)
  }

  const EXECUTION_CONTROL := "finflux-execution-control"

  function BindingOf(r: Reference, a: Approval): BindingFile {
    BindingFile(
      Path(Segment(r.runId), Segment(r.role), r.sha256),
      Seal(BindingBody(r.runId, r.role, Strip(r.summary), r.uri, r.sha256, Upper(Strip(a.decision)),
                       Sha256(Strip(a.signer)), a.signature, Strip(a.signedAt))))
  }

  function CommitFault(r: Reference, a: Approval, structured: bool): Option<Reason> {
    if !ValidReference(r) then Some(ReferenceInvalid)
    else if !ValidApproval(a) then Some(SignatureRequired)
    else if r.role == EXECUTION_CONTROL && !structured then Some(SummaryNotStructured)
    else None
  }

  function Evict(cache: map<CacheKey, seq<Item>>, role: string): map<CacheKey, seq<Item>> {
    map key | key in cache && key.role != role :: cache[key]
  }

  /** "structured" says that the summary is an operational record of the allowed shape; "writes" counts files written before a stop. */
  function Commit(m: Memory, r: Reference, a: Approval, structured: bool, writes: nat): (Memory, Reply<WriteStatus>) {
    match CommitFault(r, a, structured)
    case Some(reason) => (m, Err(reason))
    case None =>
      if writes == 0 then (m.(cache := map[]), Err(Stopped))
      else
        var (s, wrote) := WriteObject(m.store, r.sha256);
        if wrote.Err? then (m.(store := s), Err(wrote.error))
        else if writes == 1 then (Memory(s, map[]), Err(Stopped))
        else
          var (s', bound) := WriteBinding(s, BindingOf(r, a));
          if bound.Err? then (m.(store := s'), Err(bound.error))
          else (Memory(s', Evict(m.cache, r.role)), Ok(bound.value))
  }

  function LookupFault(runId: string, role: string, query: string): Option<Reason> {
    if !IsSegment(runId) || !IsSegment(role) then Some(SegmentInvalid)
    else if !(1 <= |Strip(query)| <= 4096) then Some(QueryInvalid)
    else None
  }

  function AnswerOf(items: seq<Item>, hit: bool): Answer {
    Answer(items, hit, |Text(items)|, TokenEstimate(Text(items)))
  }

  function Lookup(m: Memory, runId: string, role: string, query: string, budget: MemoryBudget): (Memory, Reply<Answer>) {
    match LookupFault(runId, role, query)
    case Some(reason) => (m, Err(reason))
    case None =>
      var key := CacheKey(Strip(runId), Strip(role), Sha256(Strip(query)), budget);
      if key in m.cache then (m, Ok(AnswerOf(Pack(m.cache[key], budget), true)))
      else
        var packed := Pack(LocalItems(m.store, Strip(role), Strip(query)), budget);
        (m.(cache := m.cache[key := packed]), Ok(AnswerOf(Pack(packed, budget), false)))
  }

  // ----- histories

  datatype Step =
    | CommitStep(reference: Reference, approval: Approval, structured: bool, writes: nat)
    | LookupStep(runId: string, role: string, query: string, budget: MemoryBudget)
    | Restart

  function Apply(m: Memory, step: Step): Memory {
    match step
    case CommitStep(r, a, structured, writes) => Commit(m, r, a, structured, writes).0
    case LookupStep(runId, role, query, budget) => Lookup(m, runId, role, query, budget).0
    case Restart => m.(cache := map[])
  }

  ghost predicate History(ms: seq<Memory>, steps: seq<Step>) {
    && |ms| == |steps| + 1
    && forall i :: 0 <= i < |steps| ==> ms[i + 1] == Apply(ms[i], steps[i])
  }

  /** Every binding's object is on file. */
  ghost predicate Anchored(s: Store) {
    forall i :: 0 <= i < |s.bindings| ==> s.bindings[i].record.body.sha256 in s.objects
  }

  /** Every cached answer is what the store says now. */
  ghost predicate Coherent(m: Memory) {
    forall key, query :: key in m.cache && key.query == Sha256(query) ==>
      m.cache[key] == Pack(LocalItems(m.store, key.role, query), key.budget)
  }

  ghost predicate Good(m: Memory) {
    Anchored(m.store) && InPathOrder(m.store.bindings) && Coherent(m)
  }

  // ----- what a commit does to the index

  /** A file no lookup of this role would use can stand anywhere in the directory. */
  lemma {:induction false} IrrelevantFile(before: seq<BindingFile>, file: BindingFile, after: seq<BindingFile>, role: string,
                                          query: string, objects: map<string, Sealed<ObjectBody>>, seen: set<string>)
    requires !Relevant(file, role, query, objects)
    ensures Collect(before + [file] + after, role, query, objects, seen) == Collect(before + after, role, query, objects, seen)
    decreases |before|
  {
    hide Relevant;
    var long, short := before + [file] + after, before + after;
    if before == [] {
      assert long[1..] == after == short;
    } else {
      assert long[1..] == before[1..] + [file] + after && short[1..] == before[1..] + after;
      IrrelevantFile(before[1..], file, after, role, query, objects, seen);
      IrrelevantFile(before[1..], file, after, role, query, objects, seen + {before[0].record.body.sha256});
    }
  }

  /** A new object changes nothing for bindings that have theirs. */
  lemma {:induction false} NewObject(files: seq<BindingFile>, role: string, query: string,
                                     objects: map<string, Sealed<ObjectBody>>, sha256: string, seen: set<string>)
    requires forall i :: 0 <= i < |files| ==> files[i].record.body.sha256 in objects
    requires sha256 !in objects
    ensures
      Collect(files, role, query, objects[sha256 := Seal(ObjectBody(sha256))], seen) == Collect(files, role, query, objects, seen)
    decreases |files|
  {
    hide Score, IsSha256, Segment, Upper, APPROVED;
    if files != [] {
      NewObject(files[1..], role, query, objects, sha256, seen);
      NewObject(files[1..], role, query, objects, sha256, seen + {files[0].record.body.sha256});
    }
  }

  /** Storing an object alone changes no lookup. */
  lemma ObjectChangesNothing(s: Store, sha256: string, role: string, query: string)
    requires Anchored(s)
    ensures LocalItems(WriteObject(s, sha256).0, role, query) == LocalItems(s, role, query)
  {
    hide Collect, Rank;
    if sha256 !in s.objects {
      NewObject(s.bindings, role, query, s.objects, sha256, {});
    }
  }

  lemma BindingChangesOnlyItsRole(s: Store, file: BindingFile, role: string, query: string)
    requires file.record.body.role != role
    ensures LocalItems(WriteBinding(s, file).0, role, query) == LocalItems(s, role, query)
  {
    hide Collect, Rank, PathIndex, Segment, Score;
    var n := PathIndex(s.bindings, file.path);
    IrrelevantFile(s.bindings[..n], file, s.bindings[n..], role, query, s.objects, {});
    assert s.bindings[..n] + s.bindings[n..] == s.bindings;
  }

  /** A commit changes the lookups of its own role only, and of no role when it is refused. */
  lemma CommitChangesOnlyItsRole(m: Memory, r: Reference, a: Approval, structured: bool, writes: nat, role: string, query: string)
    requires Anchored(m.store)
    requires role != r.role || Commit(m, r, a, structured, writes).1.Err?
    ensures LocalItems(Commit(m, r, a, structured, writes).0.store, role, query) == LocalItems(m.store, role, query)
  {
    hide LocalItems, ValidReference, ValidApproval, PathIndex, Segment;
    ObjectChangesNothing(m.store, r.sha256, role, query);
    if role != r.role {
      BindingChangesOnlyItsRole(WriteObject(m.store, r.sha256).0, BindingOf(r, a), role, query);
    }
  }

  lemma BehindIndex(files: seq<BindingFile>, path: Path, i: nat)
    requires InPathOrder(files) && PathIndex(files, path) <= i < |files|
    ensures files[i].path == path ==> i == PathIndex(files, path)
    ensures files[i].path != path ==> PathLess(path, files[i].path)
  {
    hide PathLess;
    var n := PathIndex(files, path);
    PathLessTotal(files[n].path, path);
    PathLessTotal(files[i].path, path);
    if n < i {
      assert PathLess(files[n].path, files[i].path);
      if files[n].path != path {
        PathLessTransitive(path, files[n].path, files[i].path);
      }
    }
  }

  /** A path is on file exactly when it stands at its index. */
  lemma PathIndexFinds(files: seq<BindingFile>, path: Path)
    requires InPathOrder(files)
    ensures
      var n := PathIndex(files, path);
      (exists i :: 0 <= i < |files| && files[i].path == path) <==> n < |files| && files[n].path == path
  {
    hide PathLess;
    var n := PathIndex(files, path);
    forall i | 0 <= i < |files| && files[i].path == path
      ensures i == n
    {
      if i < n {
        PathLessTotal(files[i].path, path);
      } else {
        BehindIndex(files, path, i);
      }
    }
  }

  lemma InsertKeepsOrder(files: seq<BindingFile>, file: BindingFile)
    requires InPathOrder(files)
    ensures
      var n := PathIndex(files, file.path);
      n == |files| || files[n].path != file.path ==> InPathOrder(files[..n] + [file] + files[n..])
  {
    hide PathLess, PathIndex;
    var n := PathIndex(files, file.path);
    if n == |files| || files[n].path != file.path {
      forall i | n <= i < |files|
        ensures PathLess(file.path, files[i].path)
      {
        BehindIndex(files, file.path, i);
      }
      var more := files[..n] + [file] + files[n..];
      assert forall i :: 0 <= i < |more| ==> more[i] == if i < n then files[i] else if i == n then file else files[i - 1];
    }
  }

  lemma ObjectKeeps(s: Store, sha256: string)
    requires Anchored(s)
    ensures
      var s' := WriteObject(s, sha256).0;
      Anchored(s') && s'.bindings == s.bindings && sha256 in s'.objects
  {
  }

  lemma BindingKeeps(s: Store, file: BindingFile)
    requires Anchored(s) && InPathOrder(s.bindings) && file.record.body.sha256 in s.objects
    ensures
      var s' := WriteBinding(s, file).0;
      Anchored(s') && InPathOrder(s'.bindings) && s'.objects == s.objects
  {
    hide PathIndex, InPathOrder;
    InsertKeepsOrder(s.bindings, file);
  }

  lemma CommitKeepsStore(m: Memory, r: Reference, a: Approval, structured: bool, writes: nat)
    requires Anchored(m.store) && InPathOrder(m.store.bindings)
    ensures
      var s := Commit(m, r, a, structured, writes).0.store;
      Anchored(s) && InPathOrder(s.bindings)
  {
    hide ValidReference, ValidApproval, Segment, InPathOrder, Anchored, WriteObject, WriteBinding, Evict, Upper;
    ObjectKeeps(m.store, r.sha256);
    BindingKeeps(WriteObject(m.store, r.sha256).0, BindingOf(r, a));
  }

  lemma CommitEvicts(m: Memory, r: Reference, a: Approval, structured: bool, writes: nat)
    ensures
      var (m', status) := Commit(m, r, a, structured, writes);
      forall key :: key in m'.cache ==>
        key in m.cache && m'.cache[key] == m.cache[key] && (status.Ok? ==> key.role != r.role)
  {
    hide ValidReference, ValidApproval, PathIndex, Segment;
  }

  lemma CommitKeeps(m: Memory, r: Reference, a: Approval, structured: bool, writes: nat)
    requires Good(m)
    ensures Good(Commit(m, r, a, structured, writes).0)
  {
    hide LocalItems, Pack, Commit, InPathOrder;
    var m' := Commit(m, r, a, structured, writes).0;
    CommitKeepsStore(m, r, a, structured, writes);
    CommitEvicts(m, r, a, structured, writes);
    forall key, query | key in m'.cache && key.query == Sha256(query)
      ensures m'.cache[key] == Pack(LocalItems(m'.store, key.role, query), key.budget)
    {
      CommitChangesOnlyItsRole(m, r, a, structured, writes, key.role, query);
    }
  }

  lemma StepKeeps(m: Memory, step: Step)
    requires Good(m)
    ensures Good(Apply(m, step))
  {
    hide LocalItems, Pack, Commit, InPathOrder, Strip, IsSegment;
    if step.CommitStep? {
      CommitKeeps(m, step.reference, step.approval, step.structured, step.writes);
    }
  }

  lemma {:induction false} HistoryGood(ms: seq<Memory>, steps: seq<Step>, i: nat)
    requires History(ms, steps) && i < |ms|
    requires Anchored(ms[0].store) && InPathOrder(ms[0].store.bindings) && ms[0].cache == map[]
    ensures Good(ms[i])
  {
    hide Apply, Anchored, InPathOrder;
    if i > 0 {
      HistoryGood(ms, steps, i - 1);
      StepKeeps(ms[i - 1], steps[i - 1]);
    }
  }

  // ----- the results over every history of commits, lookups and restarts

  /** Every binding's object is on file, whatever was committed and wherever a commit stopped. */
  lemma EveryBindingHasItsObject(ms: seq<Memory>, steps: seq<Step>, i: nat)
    requires History(ms, steps) && i < |ms|
    requires Anchored(ms[0].store) && InPathOrder(ms[0].store.bindings) && ms[0].cache == map[]
    ensures Anchored(ms[i].store) && InPathOrder(ms[i].store.bindings)
  {
    HistoryGood(ms, steps, i);
  }

  /**
   * Cache coherence: after any history a lookup answers with the same items,
   * characters and tokens as the same lookup with an empty cache.
   */
  lemma CacheIsTransparent(ms: seq<Memory>, steps: seq<Step>, i: nat, runId: string, role: string, query: string, budget: MemoryBudget)
    requires History(ms, steps) && i < |ms|
    requires Anchored(ms[0].store) && InPathOrder(ms[0].store.bindings) && ms[0].cache == map[]
    ensures
      var cached := Lookup(ms[i], runId, role, query, budget).1;
      var uncached := Lookup(ms[i].(cache := map[]), runId, role, query, budget).1;
      cached == if cached.Ok? then Ok(uncached.value.(cacheHit := cached.value.cacheHit)) else uncached
  {
    hide LocalItems, Pack, Strip, IsSegment, Text, TokenEstimate;
    HistoryGood(ms, steps, i);
  }

  // ----- what the index holds

  /** Best score first, ties by digest, no digest twice. */
  ghost predicate Ranked(items: seq<Item>, query: string) {
    forall i, j :: 0 <= i < j < |items| ==> RankedBefore(items[i], items[j], query)
  }

  lemma RankedTransitive(a: Item, c: Item, d: Item, query: string)
    requires RankedBefore(a, c, query) && RankedBefore(c, d, query)
    ensures RankedBefore(a, d, query)
  {
    hide Score, Less;
    if Less(a.sha256, c.sha256) && Less(c.sha256, d.sha256) {
      LessTransitive(a.sha256, c.sha256, d.sha256);
    }
  }

  lemma RankedTotal(a: Item, c: Item, query: string)
    requires a.sha256 != c.sha256
    ensures RankedBefore(a, c, query) || RankedBefore(c, a, query)
  {
    hide Score, Less;
    LessTotal(a.sha256, c.sha256);
  }

  lemma {:induction false} InsertRankedKeeps(item: Item, items: seq<Item>, query: string)
    requires Ranked(items, query) && forall i :: 0 <= i < |items| ==> items[i].sha256 != item.sha256
    ensures Ranked(InsertRanked(item, items, query), query)
    ensures forall x :: x in InsertRanked(item, items, query) <==> x == item || x in items
  {
    hide RankedBefore;
    if items != [] && RankedBefore(items[0], item, query) {
      InsertRankedKeeps(item, items[1..], query);
      assert items == [items[0]] + items[1..];
      var more := InsertRanked(item, items[1..], query);
      forall i | 0 <= i < |more|
        ensures RankedBefore(items[0], more[i], query)
      {
        assert more[i] in more;
      }
    } else if items != [] {
      RankedTotal(items[0], item, query);
      forall i | 0 < i < |items|
        ensures RankedBefore(item, items[i], query)
      {
        RankedTransitive(item, items[0], items[i], query);
      }
    }
  }

  ghost predicate DigestsDiffer(items: seq<Item>) {
    forall i, j :: 0 <= i < j < |items| ==> items[i].sha256 != items[j].sha256
  }

  lemma {:induction false} RankIsRanked(items: seq<Item>, query: string)
    requires DigestsDiffer(items)
    ensures Ranked(Rank(items, query), query)
    ensures forall x :: x in Rank(items, query) <==> x in items
  {
    hide RankedBefore, Ranked;
    if items == [] {
      assert Ranked([], query) by { EmptyIsRanked(query); }
    } else {
      RankIsRanked(items[1..], query);
      assert items == [items[0]] + items[1..];
      var ranked := Rank(items[1..], query);
      forall i | 0 <= i < |ranked|
        ensures ranked[i].sha256 != items[0].sha256
      {
        assert ranked[i] in ranked;
      }
      InsertRankedKeeps(items[0], ranked, query);
    }
  }

  lemma EmptyIsRanked(query: string)
    ensures Ranked([], query)
  {
  }

  /** Of the relevant binding files of one digest, this is the first in path order. */
  ghost predicate Stands(files: seq<BindingFile>, i: nat, role: string, query: string, objects: map<string, Sealed<ObjectBody>>) {
    && i < |files| && Relevant(files[i], role, query, objects)
    && forall j :: 0 <= j < i && Relevant(files[j], role, query, objects) ==>
         files[j].record.body.sha256 != files[i].record.body.sha256
  }

  /** The item says what the first relevant binding file of its digest says. */
  ghost predicate ComesFrom(item: Item, files: seq<BindingFile>, role: string, query: string, objects: map<string, Sealed<ObjectBody>>) {
    exists i: nat :: Stands(files, i, role, query, objects) && ItemOf(files[i].record.body) == item
  }

  lemma ComesFromBehind(item: Item, files: seq<BindingFile>, role: string, query: string, objects: map<string, Sealed<ObjectBody>>)
    requires files != [] && ComesFrom(item, files[1..], role, query, objects)
    requires Relevant(files[0], role, query, objects) ==> files[0].record.body.sha256 != item.sha256
    ensures ComesFrom(item, files, role, query, objects)
  {
    hide Relevant;
    var rest := files[1..];
    var i: nat :| Stands(rest, i, role, query, objects) && ItemOf(rest[i].record.body) == item;
    forall j | 0 <= j < i + 1 && Relevant(files[j], role, query, objects)
      ensures files[j].record.body.sha256 != item.sha256
    {
      if j > 0 {
        assert rest[j - 1] == files[j];
      }
    }
    assert files[i + 1] == rest[i];
    assert Stands(files, i + 1, role, query, objects);
  }

  lemma {:induction false} CollectedAreRelevant(files: seq<BindingFile>, role: string, query: string,
                                                objects: map<string, Sealed<ObjectBody>>, seen: set<string>)
    ensures
      var items := Collect(files, role, query, objects, seen);
      && DigestsDiffer(items)
      && (forall i :: 0 <= i < |items| ==> items[i].sha256 !in seen && ComesFrom(items[i], files, role, query, objects))
    decreases |files|
  {
    hide Relevant, ComesFrom;
    if files != [] {
      var first := files[0].record.body.sha256;
      var rest := if first !in seen && Relevant(files[0], role, query, objects) then seen + {first} else seen;
      CollectedAreRelevant(files[1..], role, query, objects, rest);
      if first !in seen && Relevant(files[0], role, query, objects) {
        FirstStands(files, role, query, objects);
      }
      forall item: Item | item.sha256 !in rest && ComesFrom(item, files[1..], role, query, objects)
        ensures ComesFrom(item, files, role, query, objects)
      {
        ComesFromBehind(item, files, role, query, objects);
      }
    }
  }

  lemma FirstStands(files: seq<BindingFile>, role: string, query: string, objects: map<string, Sealed<ObjectBody>>)
    requires files != [] && Relevant(files[0], role, query, objects)
    ensures ComesFrom(ItemOf(files[0].record.body), files, role, query, objects)
  {
    hide Relevant;
    assert Stands(files, 0, role, query, objects);
  }

  lemma {:induction false} RelevantAreCollected(files: seq<BindingFile>, role: string, query: string,
                                                objects: map<string, Sealed<ObjectBody>>, seen: set<string>, i: nat)
    requires i < |files| && Relevant(files[i], role, query, objects) && files[i].record.body.sha256 !in seen
    ensures exists item :: item in Collect(files, role, query, objects, seen) && item.sha256 == files[i].record.body.sha256
    decreases |files|
  {
    hide Relevant;
    var first := files[0].record.body;
    if first.sha256 !in seen && Relevant(files[0], role, query, objects) {
      if first.sha256 == files[i].record.body.sha256 {
        assert ItemOf(first) in Collect(files, role, query, objects, seen);
      } else {
        RelevantAreCollected(files[1..], role, query, objects, seen + {first.sha256}, i - 1);
      }
    } else {
      RelevantAreCollected(files[1..], role, query, objects, seen, i - 1);
    }
  }

  lemma OneStands(files: seq<BindingFile>, item: Item, other: Item, role: string, query: string, objects: map<string, Sealed<ObjectBody>>)
    requires ComesFrom(item, files, role, query, objects) && ComesFrom(other, files, role, query, objects)
    requires item.sha256 == other.sha256
    ensures item == other
  {
    hide Relevant;
    var i: nat :| Stands(files, i, role, query, objects) && ItemOf(files[i].record.body) == item;
    var j: nat :| Stands(files, j, role, query, objects) && ItemOf(files[j].record.body) == other;
    assert !(i < j) && !(j < i);
  }

  /**
   * The index holds exactly what the first relevant binding of each digest says,
   * relevant meaning approved, intact, of this very role and scoring, and it holds
   * it best score first.
   */
  lemma IndexIsExact(s: Store, role: string, query: string)
    ensures Ranked(LocalItems(s, role, query), query)
    ensures forall item :: item in LocalItems(s, role, query) <==> ComesFrom(item, s.bindings, role, query, s.objects)
    ensures forall i :: 0 <= i < |s.bindings| && Relevant(s.bindings[i], role, query, s.objects) ==>
              exists item :: item in LocalItems(s, role, query) && item.sha256 == s.bindings[i].record.body.sha256
  {
    hide Relevant, Stands, ComesFrom, Ranked, DigestsDiffer;
    var files, items := s.bindings, Collect(s.bindings, role, query, s.objects, {});
    CollectedAreRelevant(files, role, query, s.objects, {});
    RankIsRanked(items, query);
    forall i | 0 <= i < |files| && Relevant(files[i], role, query, s.objects)
      ensures exists item :: item in LocalItems(s, role, query) && item.sha256 == files[i].record.body.sha256
    {
      RelevantAreCollected(files, role, query, s.objects, {}, i);
    }
    forall item | ComesFrom(item, files, role, query, s.objects)
      ensures item in LocalItems(s, role, query)
    {
      var i := RelevantFileOf(item, files, role, query, s.objects);
      RelevantAreCollected(files, role, query, s.objects, {}, i);
      var other :| other in items && other.sha256 == item.sha256;
      OneStands(files, item, other, role, query, s.objects);
    }
  }

  lemma RelevantFileOf(item: Item, files: seq<BindingFile>, role: string, query: string, objects: map<string, Sealed<ObjectBody>>)
    returns (i: nat)
    requires ComesFrom(item, files, role, query, objects)
    ensures i < |files| && Relevant(files[i], role, query, objects) && files[i].record.body.sha256 == item.sha256
  {
    hide Relevant;
    i :| 0 <= i && Stands(files, i, role, query, objects) && ItemOf(files[i].record.body) == item;
  }

  lemma CommitStores(m: Memory, r: Reference, a: Approval, structured: bool, writes: nat)
    requires Commit(m, r, a, structured, writes).1.Ok?
    ensures
      var s := Commit(m, r, a, structured, writes).0.store;
      && BindingOf(r, a) in s.bindings
      && r.sha256 in s.objects && s.objects[r.sha256] == Seal(ObjectBody(r.sha256))
      && ValidReference(r) && ValidApproval(a)
  {
    hide ValidReference, ValidApproval, Segment, Upper;
    var s := WriteObject(m.store, r.sha256).0;
    var n := PathIndex(s.bindings, BindingOf(r, a).path);
    var s' := WriteBinding(s, BindingOf(r, a)).0;
    assert s'.bindings[n] == BindingOf(r, a);
  }

  /** Nothing stored is ever changed or removed. */
  ghost predicate Grows(s: Store, s': Store) {
    && (forall sha256 :: sha256 in s.objects ==> sha256 in s'.objects && s'.objects[sha256] == s.objects[sha256])
    && (forall file :: file in s.bindings ==> file in s'.bindings)
  }

  lemma WritesGrow(s: Store, sha256: string, file: BindingFile)
    ensures Grows(s, WriteObject(s, sha256).0) && Grows(s, WriteBinding(s, file).0)
  {
    var n := PathIndex(s.bindings, file.path);
    assert s.bindings == s.bindings[..n] + s.bindings[n..];
  }

  lemma StepGrows(m: Memory, step: Step)
    ensures Grows(m.store, Apply(m, step).store)
  {
    hide WriteObject, WriteBinding, ValidReference, ValidApproval, LocalItems, Pack, Strip, Segment, Upper;
    if step.CommitStep? {
      var file := BindingOf(step.reference, step.approval);
      WritesGrow(m.store, step.reference.sha256, file);
      WritesGrow(WriteObject(m.store, step.reference.sha256).0, step.reference.sha256, file);
    }
  }

  lemma {:induction false} HistoryGrows(ms: seq<Memory>, steps: seq<Step>, i: nat, j: nat)
    requires History(ms, steps) && i <= j < |ms|
    ensures Grows(ms[i].store, ms[j].store)
    decreases j
  {
    hide Apply;
    if i < j {
      HistoryGrows(ms, steps, i, j - 1);
      StepGrows(ms[j - 1], steps[j - 1]);
    }
  }

  lemma UpperTwice(s: string)
    ensures Upper(Upper(s)) == Upper(s)
  {
  }

  /** Which lookups a committed reference is relevant for: the role it was committed under must be trimmed. */
  lemma CommittedIsRelevantExactly(r: Reference, a: Approval, role: string, query: string, objects: map<string, Sealed<ObjectBody>>)
    requires ValidReference(r) && ValidApproval(a)
    requires r.sha256 in objects && objects[r.sha256] == Seal(ObjectBody(r.sha256))
    ensures Relevant(BindingOf(r, a), Strip(role), query, objects) <==>
              r.role == Strip(role) && Score(ItemOf(BindingOf(r, a).record.body), query) > 0
  {
    hide Score, Segment, Upper, IsSha256, Strip;
    UpperTwice(Strip(a.decision));
  }

  lemma TrimmedKeepsDigests(items: seq<Item>, item: Item)
    requires item in items
    ensures exists other :: other in Trimmed(items) && other.sha256 == item.sha256
  {
    hide Trimmed, Strip;
    var i :| 0 <= i < |items| && items[i] == item;
    TrimmedAt(items, i);
    assert Trimmed(items)[i] in Trimmed(items);
  }

  /** A lookup answers with the packing of the index, trimmed, and with the whole index when that fits. */
  lemma LookupAnswers(m: Memory, runId: string, role: string, query: string, budget: MemoryBudget)
    requires Coherent(m) && LookupFault(runId, role, query).None?
    ensures
      var index := LocalItems(m.store, Strip(role), Strip(query));
      var answer := Lookup(m, runId, role, query, budget).1;
      && answer.Ok? && answer.value.items == Trimmed(Pack(index, budget))
      && (Presentable(index, budget) ==> Pack(index, budget) == Trimmed(index))
  {
    hide LocalItems, Pack, Strip, IsSegment, Text, TokenEstimate, Trimmed, Presentable;
    var index := LocalItems(m.store, Strip(role), Strip(query));
    RepackTrims(index, budget);
    if Presentable(index, budget) {
      PresentableIsPacked(index, budget);
    }
  }

  lemma PresentableIsPacked(items: seq<Item>, b: MemoryBudget)
    requires Presentable(items, b)
    ensures Pack(items, b) == Trimmed(items)
  {
    hide PackFrom, Presentable;
    PackTrims(items, 0, b);
    assert items[0..] == items && items[..0] == [];
  }

  /** The commit of a step went through. */
  ghost predicate Committed(m: Memory, step: Step) {
    step.CommitStep? && Commit(m, step.reference, step.approval, step.structured, step.writes).1.Ok?
  }

  /**
   * After any history, from the cache or not, a lookup of the role a reference was
   * committed under answers with the packing of an index that holds the reference,
   * and with the reference itself when that index fits the budget.
   */
  lemma CommittedIsFound(ms: seq<Memory>, steps: seq<Step>, i: nat, j: nat, runId: string, role: string, query: string, budget: MemoryBudget)
    requires History(ms, steps) && i < j < |ms| && Committed(ms[i], steps[i])
    requires Anchored(ms[0].store) && InPathOrder(ms[0].store.bindings) && ms[0].cache == map[]
    requires LookupFault(runId, role, query).None? && steps[i].reference.role == Strip(role)
    requires Score(ItemOf(BindingOf(steps[i].reference, steps[i].approval).record.body), Strip(query)) > 0
    ensures
      var sha256 := steps[i].reference.sha256;
      var index := LocalItems(ms[j].store, Strip(role), Strip(query));
      var answer := Lookup(ms[j], runId, role, query, budget).1;
      && (exists item :: item in index && item.sha256 == sha256)
      && answer.Ok? && answer.value.items == Trimmed(Pack(index, budget))
      && (Presentable(index, budget) ==> exists item :: item in answer.value.items && item.sha256 == sha256)
  {
    hide Score, LocalItems, Pack, Trimmed, Presentable, Commit, Apply, Lookup, LookupFault, Strip, Segment, Anchored, InPathOrder, Coherent;
    var index := LocalItems(ms[j].store, Strip(role), Strip(query));
    CommittedIsIndexed(ms, steps, i, j, role, Strip(query));
    CoherentAt(ms, steps, j);
    LookupAnswers(ms[j], runId, role, query, budget);
    if Presentable(index, budget) {
      var item :| item in index && item.sha256 == steps[i].reference.sha256;
      TrimmedKeepsDigests(index, item);
      var other :| other in Trimmed(index) && other.sha256 == item.sha256;
      TrimmedKeepsDigests(Trimmed(index), other);
    }
  }

  lemma CoherentAt(ms: seq<Memory>, steps: seq<Step>, i: nat)
    requires History(ms, steps) && i < |ms|
    requires Anchored(ms[0].store) && InPathOrder(ms[0].store.bindings) && ms[0].cache == map[]
    ensures Coherent(ms[i])
  {
    hide Anchored, InPathOrder, Coherent;
    HistoryGood(ms, steps, i);
  }

  lemma CommittedIsOnFile(ms: seq<Memory>, steps: seq<Step>, i: nat, j: nat)
    requires History(ms, steps) && i < j < |ms| && Committed(ms[i], steps[i])
    ensures
      var r, s := steps[i].reference, ms[j].store;
      && BindingOf(r, steps[i].approval) in s.bindings
      && r.sha256 in s.objects && s.objects[r.sha256] == Seal(ObjectBody(r.sha256))
      && ValidReference(r) && ValidApproval(steps[i].approval)
  {
    hide ValidReference, ValidApproval, Segment, Commit;
    CommitStores(ms[i], steps[i].reference, steps[i].approval, steps[i].structured, steps[i].writes);
    HistoryGrows(ms, steps, i + 1, j);
  }

  lemma CommittedIsIndexed(ms: seq<Memory>, steps: seq<Step>, i: nat, j: nat, role: string, query: string)
    requires History(ms, steps) && i < j < |ms| && Committed(ms[i], steps[i])
    requires steps[i].reference.role == Strip(role)
    requires Score(ItemOf(BindingOf(steps[i].reference, steps[i].approval).record.body), query) > 0
    ensures exists item :: item in LocalItems(ms[j].store, Strip(role), query) && item.sha256 == steps[i].reference.sha256
  {
    hide Score, LocalItems, Segment, ValidReference, ValidApproval, Relevant, ComesFrom, Commit, Apply, Strip;
    var r, a, s := steps[i].reference, steps[i].approval, ms[j].store;
    CommittedIsOnFile(ms, steps, i, j);
    var n :| 0 <= n < |s.bindings| && s.bindings[n] == BindingOf(r, a);
    CommittedIsRelevantExactly(r, a, role, query, s.objects);
    IndexIsExact(s, Strip(role), query);
  }

  /** A reference committed under a role with a blank around it is answered as stored, and no lookup ever finds it. */
  lemma PaddedRoleIsNeverFound(ms: seq<Memory>, steps: seq<Step>, i: nat, j: nat, role: string, query: string)
    requires History(ms, steps) && i < j < |ms| && Committed(ms[i], steps[i])
    ensures
      var file := BindingOf(steps[i].reference, steps[i].approval);
      && file in ms[j].store.bindings
      && (steps[i].reference.role != Strip(steps[i].reference.role) ==> !Relevant(file, Strip(role), query, ms[j].store.objects))
  {
    hide Score, Segment, ValidReference, ValidApproval, Relevant, Commit, Apply, Strip;
    CommittedIsOnFile(ms, steps, i, j);
    CommittedIsRelevantExactly(steps[i].reference, steps[i].approval, role, query, ms[j].store.objects);
    StripIsIdempotent(role);
  }

  // ----- when a commit is accepted

  /** What a commit finds on file where it would write is what it would write. */
  ghost predicate Clear(s: Store, r: Reference, a: Approval) {
    && (r.sha256 in s.objects ==> s.objects[r.sha256] == Seal(ObjectBody(r.sha256)))
    && forall i :: 0 <= i < |s.bindings| && s.bindings[i].path == BindingOf(r, a).path ==> s.bindings[i] == BindingOf(r, a)
  }

  /**
   * A commit left to finish is accepted exactly when reference and approval are
   * valid and nothing else stands at its two paths; the path keeps Run and role
   * only as segments, so another Run or role may stand there.  It is new exactly
   * when its binding was not on file.
   */
  lemma CommitExactly(m: Memory, r: Reference, a: Approval, structured: bool, writes: nat)
    requires InPathOrder(m.store.bindings)
    ensures
      var status := Commit(m, r, a, structured, writes).1;
      && (status.Ok? <==> CommitFault(r, a, structured).None? && writes >= 2 && Clear(m.store, r, a))
      && (CommitFault(r, a, structured).None? && writes >= 2 && !Clear(m.store, r, a) ==> status == Err(Collision))
      && (status.Ok? ==> (status.value == Stored <==> BindingOf(r, a) !in m.store.bindings))
  {
    hide CommitFault, PathIndex, BindingOf;
    var files, file := m.store.bindings, BindingOf(r, a);
    var n := PathIndex(files, file.path);
    PathIndexFinds(files, file.path);
    forall i | 0 <= i < |files| && files[i].path == file.path
      ensures i == n
    {
      OnePerPath(files, file.path, i);
    }
  }

  lemma OnePerPath(files: seq<BindingFile>, path: Path, i: nat)
    requires InPathOrder(files) && i < |files| && files[i].path == path
    ensures i == PathIndex(files, path)
  {
    hide PathLess;
    if i < PathIndex(files, path) {
      PathLessTotal(files[i].path, path);
    } else {
      BehindIndex(files, path, i);
    }
  }

  const DIGEST := seq(64, i => '0')
  const PADDED := Reference("R", "a ", "s", "urn:u", DIGEST)
  const SIGNED := Approval("APPROVED", "h", DIGEST, "t")

  lemma Plain(c: char)
    requires IsAlphanumeric(c)
    ensures Strip([c]) == [c] && Strip([c, ' ']) == [c] && Segment([c]) == [c] && Segment([c, ' ']) == [c]
  {
    assert StripLeft([c]) == [c] && StripLeft([c, ' ']) == [c, ' '];
    assert [c, ' '][..1] == [c];
    assert Dashed([c], false) == [c] + Dashed([], false);
  }

  /** Such a commit goes through: the role is checked as trimmed and stored as given. */
  lemma PaddedRoleIsCommitted()
    ensures Committed(Memory(Store(map[], []), map[]), CommitStep(PADDED, SIGNED, false, 2))
    ensures PADDED.role != Strip(PADDED.role)
  {
    hide Strip, Segment, Upper;
    Plain('R');
    Plain('a');
    Plain('s');
    Plain('h');
    Plain('t');
    assert |DIGEST| == 64;
    ApprovedWord();
  }

  lemma ApprovedWord()
    ensures Strip("APPROVED") == "APPROVED" && Upper("APPROVED") == "APPROVED"
  {
    assert StripLeft("APPROVED") == "APPROVED";
  }

  const SPACED := PADDED.(role := "a b")
  const DASHED := PADDED.(role := "a-b")

  lemma OneSegment()
    ensures Segment("a b") == "a-b" == Segment("a-b")
  {
    assert StripLeft("a b") == "a b" && StripLeft("a-b") == "a-b";
    assert Dashed("a b", false) == ['a'] + Dashed(" b", false) && Dashed(" b", false) == "-" + Dashed("b", true);
    assert Dashed("a-b", false) == ['a'] + Dashed("-b", false) && Dashed("-b", false) == ['-'] + Dashed("b", false);
    assert Dashed("b", true) == ['b'] + Dashed("", false) && Dashed("b", false) == ['b'] + Dashed("", false);
  }

  /** Two roles with one segment: the second one's reference to the same content is refused. */
  lemma OtherRoleCollides()
    ensures
      var (m, first) := Commit(Memory(Store(map[], []), map[]), SPACED, SIGNED, false, 2);
      first == Ok(Stored) && Commit(m, DASHED, SIGNED, false, 2).1 == Err(Collision)
  {
    hide Strip, Segment, Upper, Commit;
    Plain('R');
    Plain('s');
    Plain('h');
    Plain('t');
    OneSegment();
    assert |DIGEST| == 64;
    ApprovedWord();
    var empty := Memory(Store(map[], []), map[]);
    EmptyIsInOrder();
    CommitExactly(empty, SPACED, SIGNED, false, 2);
    CommitKeepsStore(empty, SPACED, SIGNED, false, 2);
    var m := Commit(empty, SPACED, SIGNED, false, 2).0;
    CommitStores(empty, SPACED, SIGNED, false, 2);
    CommitExactly(m, DASHED, SIGNED, false, 2);
    var i :| 0 <= i < |m.store.bindings| && m.store.bindings[i] == BindingOf(SPACED, SIGNED);
    assert BindingOf(SPACED, SIGNED).path == BindingOf(DASHED, SIGNED).path;
    assert BindingOf(SPACED, SIGNED) != BindingOf(DASHED, SIGNED);
  }

  lemma EmptyIsInOrder()
    ensures InPathOrder([])
  {
  }
}
