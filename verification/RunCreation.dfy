/**
 * Idempotent Run creation: an attempt file, then the Run file, then a commit
 * file, with the process allowed to stop before any of the three writes.
 */
module RunCreation {
  import opened Basics
  import opened AsciiText

  type Key = string
  type KeySha = Digest<Key>
  type RunId = string

  datatype Request = Request(submission: string, key: KeySha)

  /** What a submission and a client key are reduced to; the key itself is never stored. */
  datatype Binding = Binding(key: KeySha, request: Digest<Request>)

  datatype AttemptBody = AttemptBody(binding: Binding, submission: string, at: int)

  datatype ReceiptBody = ReceiptBody(binding: Binding, attempt: Digest<AttemptBody>)

  datatype CommitBody = CommitBody(binding: Binding, attempt: Digest<AttemptBody>, runId: RunId, at: int)

  type Attempt = Sealed<AttemptBody>
  type Receipt = Sealed<ReceiptBody>
  type Commit = Sealed<CommitBody>

  /** A Run; every other part of it is in "state" and no business of this protocol. */
  datatype Run = Run(id: RunId, submission: string, receipt: Option<Receipt>, state: string)

  datatype Store = Store(attempts: map<KeySha, Attempt>, commits: map<KeySha, Commit>, runs: map<RunId, Run>)

  const EMPTY := Store(map[], map[], map[])

  datatype Reason =
    | KeyInvalid | KeyBoundElsewhere | ReceiptBroken | SeveralRuns | CommitBroken | CommitNamesAnother
    | RunMissing | CommitDisagrees | NotExecutable
    // the process stopped before a write
    | Stopped

  type Reply<T> = Outcome<T, Reason>

  datatype RunReply = RunReply(run: Run, replayed: bool)

  datatype Status = NotFound | Prepared | Committed(run: Run)

  predicate SafeChar(c: char) {
    'A' <= c <= 'Z' || 'a' <= c <= 'z' || '0' <= c <= '9' || c == '.' || c == '_' || c == ':' || c == '-'
  }

  predicate ValidKey(key: Key) {
    16 <= |key| <= 160 && forall i :: 0 <= i < |key| ==> SafeChar(key[i])
  }

  function BindingOf(submission: string, key: Key): Binding {
    Binding(Sha256(key), Sha256(Request(submission, Sha256(key))))
  }

  // ----- reading the files

  function ReadAttempt(s: Store, b: Binding): Reply<Option<Attempt>> {
    if b.key !in s.attempts then Ok(None)
    else
      var a := s.attempts[b.key];
      if a.body.binding != b || !Intact(a) then Err(KeyBoundElsewhere) else Ok(Some(a))
  }

  function ReadCommit(s: Store, b: Binding, a: Attempt): Reply<Option<Commit>> {
    if b.key !in s.commits then Ok(None)
    else
      var c := s.commits[b.key];
      if c.body.binding != b || c.body.attempt != a.sha || !Intact(c) then Err(CommitBroken) else Ok(Some(c))
  }

  predicate Matching(run: Run, b: Binding) {
    run.receipt.Some? && run.receipt.value.body.binding == b
  }

  ghost predicate BrokenMatch(runs: map<RunId, Run>, b: Binding) {
    exists id :: id in runs && Matching(runs[id], b) && !Intact(runs[id].receipt.value)
  }

  ghost predicate TwoMatches(runs: map<RunId, Run>, b: Binding) {
    exists id, other :: id in runs && other in runs && id != other && Matching(runs[id], b) && Matching(runs[other], b)
  }

  /** The Run that carries this binding's receipt, if there is one. */
  ghost function FindRun(runs: map<RunId, Run>, b: Binding): (r: Reply<Option<RunId>>)
    ensures r.Ok? && r.value.Some? ==> r.value.value in runs
  {
    if BrokenMatch(runs, b) then Err(ReceiptBroken)
    else if TwoMatches(runs, b) then Err(SeveralRuns)
    else if exists id :: id in runs && Matching(runs[id], b) then
      var id :| id in runs && Matching(runs[id], b);
      Ok(Some(id))
    else Ok(None)
  }

  // ----- the operations; "writes" counts the files written before the process stops

  function NewAttempt(b: Binding, submission: string, now: int): Attempt {
    Seal(AttemptBody(b, submission, now))
  }

  function NewRun(id: RunId, submission: string, receipt: Option<Receipt>): Run {
    Run(id, submission, receipt, "AWAITING_AGENTTEAMS")
  }

  ghost function WriteCommit(s: Store, b: Binding, a: Attempt, id: RunId, now: int, writes: nat): (Store, Reply<Commit>) {
    match ReadCommit(s, b, a)
    case Err(reason) => (s, Err(reason))
    case Ok(Some(c)) => (s, if c.body.runId != id then Err(CommitNamesAnother) else Ok(c))
    case Ok(None) =>
      var c := Seal(CommitBody(b, a.sha, id, now));
      if writes == 0 then (s, Err(Stopped)) else (s.(commits := s.commits[b.key := c]), Ok(c))
  }

  /** Finishes a creation with the Run that is on file. */
  ghost function Finish(s: Store, b: Binding, a: Attempt, id: RunId, replayed: bool, now: int, writes: nat):
      (Store, Reply<RunReply>)
    requires id in s.runs
  {
    var (s', written) := WriteCommit(s, b, a, id, now, writes);
    match written
    case Err(reason) => (s', Err(reason))
    case Ok(_) => (s', Ok(RunReply(s.runs[id], replayed)))
  }

  /** The Run a commit names must be on file and be the one that carries the receipt. */
  function CommittedRun(s: Store, c: Commit, found: Option<RunId>): Reply<Run> {
    if c.body.runId !in s.runs then Err(RunMissing)
    else if found != Some(c.body.runId) then Err(CommitDisagrees)
    else Ok(s.runs[c.body.runId])
  }

  /** Creation once the attempt is on file. */
  ghost function Attempted(s: Store, submission: string, b: Binding, a: Attempt, executable: bool, newId: RunId,
                           now: int, writes: nat): (Store, Reply<RunReply>)
  {
    match ReadCommit(s, b, a)
    case Err(reason) => (s, Err(reason))
    case Ok(commit) =>
      match FindRun(s.runs, b)
      case Err(reason) => (s, Err(reason))
      case Ok(found) =>
        if commit.Some? then
          match CommittedRun(s, commit.value, found)
          case Err(reason) => (s, Err(reason))
          case Ok(run) => (s, Ok(RunReply(run, true)))
        else if found.Some? then Finish(s, b, a, found.value, true, now, writes)
        else if !executable then (s, Err(NotExecutable))
        else if writes == 0 then (s, Err(Stopped))
        else
          var receipt := Seal(ReceiptBody(b, a.sha));
          Finish(s.(runs := s.runs[newId := NewRun(newId, submission, Some(receipt))]),
                 b, a, newId, false, now, writes - 1)
  }

  /** "executable" says that the submission exists and is ready; "newId" is the id a new Run would get. */
  ghost function Create(s: Store, submission: string, key: Option<Key>, executable: bool, newId: RunId,
                        now: int, writes: nat): (Store, Reply<RunReply>)
  {
    match key
    case None =>
      if !executable then (s, Err(NotExecutable))
      else if writes == 0 then (s, Err(Stopped))
      else
        var run := NewRun(newId, submission, None);
        (s.(runs := s.runs[newId := run]), Ok(RunReply(run, false)))
    case Some(k) =>
      var b := BindingOf(submission, k);
      if !ValidKey(k) then (s, Err(KeyInvalid))
      else
        match ReadAttempt(s, b)
        case Err(reason) => (s, Err(reason))
        case Ok(Some(a)) =>
          if a.body.submission != submission then (s, Err(KeyBoundElsewhere))
          else Attempted(s, submission, b, a, executable, newId, now, writes)
        case Ok(None) =>
          var a := NewAttempt(b, submission, now);
          if writes == 0 then (s, Err(Stopped))
          else Attempted(s.(attempts := s.attempts[b.key := a]), submission, b, a, executable, newId, now, writes - 1)
  }

  ghost function Reconcile(s: Store, submission: string, key: Key, now: int, writes: nat): (Store, Reply<Status>) {
    var b := BindingOf(submission, key);
    if !ValidKey(key) then (s, Err(KeyInvalid))
    else
      match ReadAttempt(s, b)
      case Err(reason) => (s, Err(reason))
      case Ok(None) => (s, Ok(NotFound))
      case Ok(Some(a)) =>
        if a.body.submission != submission then (s, Err(KeyBoundElsewhere))
        else
          match ReadCommit(s, b, a)
          case Err(reason) => (s, Err(reason))
          case Ok(commit) =>
            match FindRun(s.runs, b)
            case Err(reason) => (s, Err(reason))
            case Ok(found) =>
              if commit.Some? then
                match CommittedRun(s, commit.value, found)
                case Err(reason) => (s, Err(reason))
                case Ok(run) => (s, Ok(Committed(run)))
              else if found.None? then (s, Ok(Prepared))
              else
                var (s', written) := WriteCommit(s, b, a, found.value, now, writes);
                match written
                case Err(reason) => (s', Err(reason))
                case Ok(_) => (s', Ok(Committed(s.runs[found.value])))
  }

  /** Every later mutator rewrites a Run file and leaves its receipt alone. */
  function Update(s: Store, id: RunId, state: string): Store {
    if id in s.runs then s.(runs := s.runs[id := s.runs[id].(state := state)]) else s
  }

  // ----- the operations as the service runs them

  class LiveIntake {
    var attempts: map<KeySha, Attempt>
    var commits: map<KeySha, Commit>
    var runs: map<RunId, Run>

    function Contents(): Store
      reads this
    {
      Store(attempts, commits, runs)
    }

    constructor ()
      ensures Contents() == EMPTY
    {
      attempts, commits, runs := map[], map[], map[];
    }

    /** Reads every Run file and collects those with this binding's receipt. */
    method RunsForCreationBinding(b: Binding) returns (r: Reply<Option<RunId>>)
      ensures r == FindRun(runs, b)
    {
      var matches: set<RunId> := {};
      var left := runs.Keys;
      while left != {}
        invariant left <= runs.Keys
        invariant matches == set id | id in runs && id !in left && Matching(runs[id], b)
        invariant forall id :: id in matches ==> Intact(runs[id].receipt.value)
        decreases |left|
      {
        var id :| id in left;
        if Matching(runs[id], b) {
          if !Intact(runs[id].receipt.value) {
            return Err(ReceiptBroken);
          }
          matches := matches + {id};
        }
        left := left - {id};
      }
      assert forall id :: id in runs && Matching(runs[id], b) ==> id in matches;
      if matches == {} {
        return Ok(None);
      }
      var id :| id in matches;
      if matches != {id} {
        assert exists other :: other in matches && other != id;
        return Err(SeveralRuns);
      }
      return Ok(Some(id));
    }

    method WriteRunCreationCommit(b: Binding, a: Attempt, id: RunId, now: int, writes: nat) returns (r: Reply<Commit>)
      modifies this`commits
      ensures (Contents(), r) == WriteCommit(old(Contents()), b, a, id, now, writes)
    {
      var existing := ReadCommit(Contents(), b, a);
      if existing.Err? {
        return Err(existing.error);
      }
      if existing.value.Some? {
        if existing.value.value.body.runId != id {
          return Err(CommitNamesAnother);
        }
        return Ok(existing.value.value);
      }
      if writes == 0 {
        return Err(Stopped);
      }
      var c := Seal(CommitBody(b, a.sha, id, now));
      commits := commits[b.key := c];
      return Ok(c);
    }

    method FinishCreation(submission: string, b: Binding, a: Attempt, executable: bool, newId: RunId, now: int,
                          writes: nat) returns (r: Reply<RunReply>)
      modifies this`commits, this`runs
      ensures (Contents(), r) == Attempted(old(Contents()), submission, b, a, executable, newId, now, writes)
    {
      var commit := ReadCommit(Contents(), b, a);
      if commit.Err? {
        return Err(commit.error);
      }
      var found := RunsForCreationBinding(b);
      if found.Err? {
        return Err(found.error);
      }
      if commit.value.Some? {
        var run := CommittedRun(Contents(), commit.value.value, found.value);
        if run.Err? {
          return Err(run.error);
        }
        return Ok(RunReply(run.value, true));
      }
      if found.value.Some? {
        var run := runs[found.value.value];
        var written := WriteRunCreationCommit(b, a, found.value.value, now, writes);
        if written.Err? {
          return Err(written.error);
        }
        return Ok(RunReply(run, true));
      }
      if !executable {
        return Err(NotExecutable);
      }
      if writes == 0 {
        return Err(Stopped);
      }
      var run := NewRun(newId, submission, Some(Seal(ReceiptBody(b, a.sha))));
      runs := runs[newId := run];
      var written := WriteRunCreationCommit(b, a, newId, now, writes - 1);
      if written.Err? {
        return Err(written.error);
      }
      return Ok(RunReply(run, false));
    }

    method CreateRun(submission: string, key: Option<Key>, executable: bool, newId: RunId, now: int, writes: nat)
      returns (r: Reply<RunReply>)
      modifies this
      ensures (Contents(), r) == Create(old(Contents()), submission, key, executable, newId, now, writes)
    {
      if key.None? {
        if !executable {
          return Err(NotExecutable);
        }
        if writes == 0 {
          return Err(Stopped);
        }
        var run := NewRun(newId, submission, None);
        runs := runs[newId := run];
        return Ok(RunReply(run, false));
      }
      if !ValidKey(key.value) {
        return Err(KeyInvalid);
      }
      var b := BindingOf(submission, key.value);
      var existing := ReadAttempt(Contents(), b);
      if existing.Err? {
        return Err(existing.error);
      }
      if existing.value.Some? {
        if existing.value.value.body.submission != submission {
          return Err(KeyBoundElsewhere);
        }
        r := FinishCreation(submission, b, existing.value.value, executable, newId, now, writes);
        return;
      }
      if writes == 0 {
        return Err(Stopped);
      }
      var a := NewAttempt(b, submission, now);
      attempts := attempts[b.key := a];
      r := FinishCreation(submission, b, a, executable, newId, now, writes - 1);
    }

    method ReconcileRunCreation(submission: string, key: Key, now: int, writes: nat) returns (r: Reply<Status>)
      modifies this`commits
      ensures (Contents(), r) == Reconcile(old(Contents()), submission, key, now, writes)
    {
      if !ValidKey(key) {
        return Err(KeyInvalid);
      }
      var b := BindingOf(submission, key);
      var existing := ReadAttempt(Contents(), b);
      if existing.Err? {
        return Err(existing.error);
      }
      if existing.value.None? {
        return Ok(NotFound);
      }
      var a := existing.value.value;
      if a.body.submission != submission {
        return Err(KeyBoundElsewhere);
      }
      var commit := ReadCommit(Contents(), b, a);
      if commit.Err? {
        return Err(commit.error);
      }
      var found := RunsForCreationBinding(b);
      if found.Err? {
        return Err(found.error);
      }
      if commit.value.Some? {
        var run := CommittedRun(Contents(), commit.value.value, found.value);
        if run.Err? {
          return Err(run.error);
        }
        return Ok(Committed(run.value));
      }
      if found.value.None? {
        return Ok(Prepared);
      }
      var run := runs[found.value.value];
      var written := WriteRunCreationCommit(b, a, found.value.value, now, writes);
      if written.Err? {
        return Err(written.error);
      }
      return Ok(Committed(run));
    }

    method UpdateRun(id: RunId, state: string)
      modifies this`runs
      ensures Contents() == Update(old(Contents()), id, state)
    {
      if id in runs {
        runs := runs[id := runs[id].(state := state)];
      }
    }
  }

  // ----- histories

  datatype Step =
    | CreateStep(submission: string, key: Option<Key>, executable: bool, newId: RunId, now: int, writes: nat)
    | ReconcileStep(submission: string, requested: Key, now: int, writes: nat)
    | UpdateStep(id: RunId, state: string)

  /** A new Run id was never used before. */
  predicate Possible(s: Store, step: Step) {
    step.CreateStep? ==> step.newId !in s.runs
  }

  ghost function Apply(s: Store, step: Step): Store {
    match step
    case CreateStep(submission, key, executable, newId, now, writes) =>
      Create(s, submission, key, executable, newId, now, writes).0
    case ReconcileStep(submission, key, now, writes) => Reconcile(s, submission, key, now, writes).0
    case UpdateStep(id, state) => Update(s, id, state)
  }

  ghost predicate History(ss: seq<Store>, steps: seq<Step>) {
    && |ss| == |steps| + 1
    && ss[0] == EMPTY
    && forall i :: 0 <= i < |steps| ==> Possible(ss[i], steps[i]) && ss[i + 1] == Apply(ss[i], steps[i])
  }

  // ----- what the files say together

  predicate AttemptGood(k: KeySha, a: Attempt) {
    Intact(a) && a.body.binding == Binding(k, Sha256(Request(a.body.submission, k)))
  }

  /** The Run was made for key k by the attempt on file. */
  predicate MadeFor(s: Store, run: Run, k: KeySha) {
    && k in s.attempts
    && run.submission == s.attempts[k].body.submission
    && run.receipt == Some(Seal(ReceiptBody(s.attempts[k].body.binding, s.attempts[k].sha)))
  }

  predicate HasKey(run: Run, k: KeySha) {
    run.receipt.Some? && run.receipt.value.body.binding.key == k
  }

  predicate RunGood(s: Store, id: RunId)
    requires id in s.runs
  {
    && s.runs[id].id == id
    && (s.runs[id].receipt.Some? ==> MadeFor(s, s.runs[id], s.runs[id].receipt.value.body.binding.key))
  }

  ghost predicate OneRunPerKey(runs: map<RunId, Run>) {
    forall id, other, k :: id in runs && other in runs && HasKey(runs[id], k) && HasKey(runs[other], k) ==> id == other
  }

  predicate CommitGood(s: Store, k: KeySha, c: Commit) {
    && Intact(c)
    && k in s.attempts
    && c.body.binding == s.attempts[k].body.binding
    && c.body.attempt == s.attempts[k].sha
    && c.body.runId in s.runs
    && HasKey(s.runs[c.body.runId], k)
  }

  ghost predicate Good(s: Store) {
    && (forall k :: k in s.attempts ==> AttemptGood(k, s.attempts[k]))
    && (forall id :: id in s.runs ==> RunGood(s, id))
    && OneRunPerKey(s.runs)
    && (forall k :: k in s.commits ==> CommitGood(s, k, s.commits[k]))
  }

  ghost predicate HasRun(s: Store, k: KeySha) {
    exists id :: id in s.runs && HasKey(s.runs[id], k)
  }

  /** In a good store looking for a binding's Run never fails and finds the one Run of its key. */
  lemma FindRunExactly(s: Store, b: Binding)
    requires Good(s) && b.key in s.attempts && s.attempts[b.key].body.binding == b
    ensures FindRun(s.runs, b).Ok?
    ensures FindRun(s.runs, b).value.Some? <==> HasRun(s, b.key)
    ensures FindRun(s.runs, b).value.Some? ==>
              var id := FindRun(s.runs, b).value.value;
              id in s.runs && HasKey(s.runs[id], b.key)
  {
    forall id | id in s.runs && Matching(s.runs[id], b)
      ensures HasKey(s.runs[id], b.key) && Intact(s.runs[id].receipt.value)
    {
      assert RunGood(s, id);
    }
    forall id | id in s.runs && HasKey(s.runs[id], b.key)
      ensures Matching(s.runs[id], b)
    {
      assert RunGood(s, id);
    }
  }

  // ----- what every step keeps

  /** Nothing on file is lost: attempts and commits stay, Runs keep their submission and receipt. */
  ghost predicate Extends(s: Store, s': Store) {
    && (forall k :: k in s.attempts ==> k in s'.attempts && s'.attempts[k] == s.attempts[k])
    && (forall k :: k in s.commits ==> k in s'.commits && s'.commits[k] == s.commits[k])
    && (forall id :: id in s.runs ==>
          id in s'.runs && s'.runs[id] == s.runs[id].(state := s'.runs[id].state))
  }

  lemma ExtendsOnward(s: Store, s': Store, s'': Store)
    requires Extends(s, s') && Extends(s', s'')
    ensures Extends(s, s'')
  {
  }

  /** What was good stays good while nothing is lost. */
  lemma CarryOver(s: Store, s': Store)
    requires Good(s) && Extends(s, s')
    ensures forall k :: k in s.attempts ==> AttemptGood(k, s'.attempts[k])
    ensures forall id :: id in s.runs ==> RunGood(s', id)
    ensures forall k :: k in s.commits ==> CommitGood(s', k, s'.commits[k])
  {
    forall id | id in s.runs
      ensures RunGood(s', id)
    {
      assert RunGood(s, id);
    }
    forall k | k in s.commits
      ensures CommitGood(s', k, s'.commits[k])
    {
      assert CommitGood(s, k, s.commits[k]);
    }
  }

  /** The attempt on file that this binding and submission ask for. */
  ghost predicate Asks(s: Store, submission: string, b: Binding, a: Attempt) {
    b.key in s.attempts && s.attempts[b.key] == a && a.body.binding == b && a.body.submission == submission
  }

  lemma AttemptKeeps(s: Store, submission: string, key: Key, now: int)
    requires Good(s) && Sha256(key) !in s.attempts
    ensures
      var b := BindingOf(submission, key);
      var a := NewAttempt(b, submission, now);
      var s' := s.(attempts := s.attempts[b.key := a]);
      Good(s') && Extends(s, s') && Asks(s', submission, b, a)
  {
    hide MadeFor, HasKey, CommitGood, RunGood, OneRunPerKey;
    var b := BindingOf(submission, key);
    CarryOver(s, s.(attempts := s.attempts[b.key := NewAttempt(b, submission, now)]));
  }

  lemma RunKeeps(s: Store, submission: string, b: Binding, a: Attempt, newId: RunId)
    requires Good(s) && Asks(s, submission, b, a) && newId !in s.runs && !HasRun(s, b.key)
    ensures
      var s' := s.(runs := s.runs[newId := NewRun(newId, submission, Some(Seal(ReceiptBody(b, a.sha))))]);
      Good(s') && Extends(s, s') && Asks(s', submission, b, a) && HasKey(s'.runs[newId], b.key)
  {
    hide CommitGood, AttemptGood;
    var s' := s.(runs := s.runs[newId := NewRun(newId, submission, Some(Seal(ReceiptBody(b, a.sha))))]);
    CarryOver(s, s');
    assert OneRunPerKey(s'.runs) by {
      hide MadeFor;
      assert forall id :: id in s.runs ==> s'.runs[id] == s.runs[id] && !HasKey(s.runs[id], b.key);
    }
    assert RunGood(s', newId);
  }

  lemma CommitKeeps(s: Store, k: KeySha, c: Commit)
    requires Good(s) && CommitGood(s, k, c) && k !in s.commits
    ensures Good(s.(commits := s.commits[k := c])) && Extends(s, s.(commits := s.commits[k := c]))
  {
    hide MadeFor, HasKey, RunGood, OneRunPerKey, AttemptGood;
    CarryOver(s, s.(commits := s.commits[k := c]));
  }

  lemma CommitIsGood(s: Store, k: KeySha)
    requires Good(s) && k in s.commits
    ensures CommitGood(s, k, s.commits[k])
  {
  }

  lemma FinishKeeps(s: Store, submission: string, b: Binding, a: Attempt, id: RunId, replayed: bool, now: int, writes: nat)
    requires Good(s) && Asks(s, submission, b, a) && id in s.runs && HasKey(s.runs[id], b.key) && b.key !in s.commits
    ensures
      var (s', r) := Finish(s, b, a, id, replayed, now, writes);
      && Good(s') && Extends(s, s') && s'.attempts == s.attempts && s'.runs == s.runs
      && (r.Ok? <==> writes > 0)
      && (r.Ok? ==> r.value == RunReply(s.runs[id], replayed) && b.key in s'.commits)
  {
    hide Good, HasKey;
    if writes > 0 {
      CommitKeeps(s, b.key, Seal(CommitBody(b, a.sha, id, now)));
    }
  }

  /** The reply of a creation: the key's Run as it is on file, committed. */
  ghost predicate Answers(s: Store, k: KeySha, submission: string, reply: RunReply) {
    && k in s.commits
    && reply.run.id in s.runs
    && s.runs[reply.run.id] == reply.run
    && HasKey(reply.run, k)
    && reply.run.submission == submission
  }

  lemma KeyRun(s: Store, id: RunId, k: KeySha)
    requires Good(s) && id in s.runs && HasKey(s.runs[id], k)
    ensures s.runs[id].id == id && k in s.attempts && s.runs[id].submission == s.attempts[k].body.submission
  {
    assert RunGood(s, id);
  }

  lemma AlreadyCommitted(s: Store, submission: string, b: Binding, a: Attempt, executable: bool, newId: RunId, now: int, writes: nat)
    requires Good(s) && Asks(s, submission, b, a) && b.key in s.commits
    ensures
      var (s', r) := Attempted(s, submission, b, a, executable, newId, now, writes);
      s' == s && r.Ok? && r.value.replayed && HasRun(s, b.key) && Answers(s, b.key, submission, r.value)
  {
    FindRunExactly(s, b);
    CommitIsGood(s, b.key);
    KeyRun(s, s.commits[b.key].body.runId, b.key);
  }

  /** What creation does from a good store, once the attempt is on file. */
  lemma AttemptedKeeps(s: Store, submission: string, b: Binding, a: Attempt, executable: bool, newId: RunId, now: int, writes: nat)
    requires Good(s) && Asks(s, submission, b, a) && newId !in s.runs
    ensures
      var (s', r) := Attempted(s, submission, b, a, executable, newId, now, writes);
      && Good(s') && Extends(s, s') && s'.attempts == s.attempts
      && (HasRun(s, b.key) ==> s'.runs == s.runs)
      && (writes >= 2 ==> (r.Ok? <==> HasRun(s, b.key) || executable))
      && (r.Ok? ==> Answers(s', b.key, submission, r.value) && (r.value.replayed <==> HasRun(s, b.key)))
  {
    hide Good, HasKey, HasRun, Finish, FindRun;
    FindRunExactly(s, b);
    if b.key in s.commits {
      AlreadyCommitted(s, submission, b, a, executable, newId, now, writes);
    } else if HasRun(s, b.key) {
      var id := FindRun(s.runs, b).value.value;
      KeyRun(s, id, b.key);
      FinishKeeps(s, submission, b, a, id, true, now, writes);
    } else if executable && writes > 0 {
      RunKeeps(s, submission, b, a, newId);
      var s' := s.(runs := s.runs[newId := NewRun(newId, submission, Some(Seal(ReceiptBody(b, a.sha))))]);
      FinishKeeps(s', submission, b, a, newId, false, now, writes - 1);
      ExtendsOnward(s, s', Finish(s', b, a, newId, false, now, writes - 1).0);
    }
  }

  /** The key is still free, or already serves this submission. */
  predicate Free(s: Store, submission: string, key: Key) {
    Sha256(key) in s.attempts ==> s.attempts[Sha256(key)].body.submission == submission
  }

  lemma ReadAttemptExactly(s: Store, submission: string, key: Key)
    requires Good(s)
    ensures ReadAttempt(s, BindingOf(submission, key)).Ok? <==> Free(s, submission, key)
    ensures Free(s, submission, key) && Sha256(key) in s.attempts ==>
              Asks(s, submission, BindingOf(submission, key), s.attempts[Sha256(key)])
  {
    if Sha256(key) in s.attempts {
      assert AttemptGood(Sha256(key), s.attempts[Sha256(key)]);
    }
  }

  lemma NoRunWithoutAttempt(s: Store, k: KeySha)
    requires Good(s) && HasRun(s, k)
    ensures k in s.attempts
  {
    var id :| id in s.runs && HasKey(s.runs[id], k);
    KeyRun(s, id, k);
  }

  /** Everything creation with a client key does, from any good store and stopped anywhere. */
  lemma CreateKeeps(s: Store, submission: string, key: Key, executable: bool, newId: RunId, now: int, writes: nat)
    requires Good(s) && newId !in s.runs
    ensures
      var (s', r) := Create(s, submission, Some(key), executable, newId, now, writes);
      && Good(s') && Extends(s, s')
      && (!ValidKey(key) || !Free(s, submission, key) ==> s' == s && r.Err?)
      && (HasRun(s, Sha256(key)) ==> s'.runs == s.runs)
      && (writes >= 3 ==> (r.Ok? <==> ValidKey(key) && Free(s, submission, key) && (HasRun(s, Sha256(key)) || executable)))
      && (r.Ok? ==> Answers(s', Sha256(key), submission, r.value)
                    && (r.value.replayed <==> HasRun(s, Sha256(key))))
  {
    hide Good, HasKey, Attempted, ValidKey, Answers, Intact;
    var b := BindingOf(submission, key);
    ReadAttemptExactly(s, submission, key);
    if ValidKey(key) && Free(s, submission, key) {
      if b.key in s.attempts {
        AttemptedKeeps(s, submission, b, s.attempts[b.key], executable, newId, now, writes);
      } else {
        AttemptKeeps(s, submission, key, now);
        if HasRun(s, b.key) {
          NoRunWithoutAttempt(s, b.key);
          assert false;
        }
        if writes > 0 {
          var a := NewAttempt(b, submission, now);
          var s1 := s.(attempts := s.attempts[b.key := a]);
          AttemptedKeeps(s1, submission, b, a, executable, newId, now, writes - 1);
          ExtendsOnward(s, s1, Attempted(s1, submission, b, a, executable, newId, now, writes - 1).0);
        }
      }
    }
  }

  lemma LegacyKeeps(s: Store, submission: string, executable: bool, newId: RunId, now: int, writes: nat)
    requires Good(s) && newId !in s.runs
    ensures
      var (s', r) := Create(s, submission, None, executable, newId, now, writes);
      && Good(s') && Extends(s, s') && s'.attempts == s.attempts && s'.commits == s.commits
  {
    hide CommitGood, AttemptGood, MadeFor;
    CarryOver(s, Create(s, submission, None, executable, newId, now, writes).0);
  }

  /** Reconciling only ever adds the missing commit of a Run that already exists. */
  lemma ReconcileKeeps(s: Store, submission: string, key: Key, now: int, writes: nat)
    requires Good(s)
    ensures
      var (s', r) := Reconcile(s, submission, key, now, writes);
      && Good(s') && Extends(s, s') && s'.attempts == s.attempts && s'.runs == s.runs
      && (writes >= 1 ==> (r.Ok? <==> ValidKey(key) && Free(s, submission, key)))
      && (r.Ok? ==> match r.value
                    case NotFound => Sha256(key) !in s.attempts
                    case Prepared => Sha256(key) in s.attempts && !HasRun(s, Sha256(key))
                    case Committed(run) => Answers(s', Sha256(key), submission, RunReply(run, true)))
  {
    hide Good, HasKey, HasRun, FindRun, Answers, ValidKey, Intact;
    var b := BindingOf(submission, key);
    ReadAttemptExactly(s, submission, key);
    if ValidKey(key) && Free(s, submission, key) && b.key in s.attempts {
      var a := s.attempts[b.key];
      FindRunExactly(s, b);
      if b.key in s.commits {
        ReconcileCommitted(s, submission, key, now, writes);
      } else if HasRun(s, b.key) {
        var id := FindRun(s.runs, b).value.value;
        KeyRun(s, id, b.key);
        FinishKeeps(s, submission, b, a, id, true, now, writes);
        if writes > 0 {
          AnswersIs(Finish(s, b, a, id, true, now, writes).0, b.key, submission, RunReply(s.runs[id], true));
        }
      }
    }
  }

  lemma ReconcileCommitted(s: Store, submission: string, key: Key, now: int, writes: nat)
    requires Good(s) && ValidKey(key) && Free(s, submission, key) && Sha256(key) in s.commits
    ensures
      var (s', r) := Reconcile(s, submission, key, now, writes);
      s' == s && r.Ok? && r.value.Committed? && Answers(s, Sha256(key), submission, RunReply(r.value.run, true))
  {
    var b := BindingOf(submission, key);
    CommitIsGood(s, b.key);
    ReadAttemptExactly(s, submission, key);
    FindRunExactly(s, b);
    KeyRun(s, s.commits[b.key].body.runId, b.key);
  }

  lemma AnswersIs(s: Store, k: KeySha, submission: string, reply: RunReply)
    requires k in s.commits && reply.run.id in s.runs && s.runs[reply.run.id] == reply.run
    requires HasKey(reply.run, k) && reply.run.submission == submission
    ensures Answers(s, k, submission, reply)
  {
  }

  lemma UpdateKeeps(s: Store, id: RunId, state: string)
    requires Good(s)
    ensures Good(Update(s, id, state)) && Extends(s, Update(s, id, state))
  {
    hide CommitGood, AttemptGood, MadeFor;
    CarryOver(s, Update(s, id, state));
  }

  lemma StepKeeps(s: Store, step: Step)
    requires Good(s) && Possible(s, step)
    ensures Good(Apply(s, step)) && Extends(s, Apply(s, step))
  {
    hide Good, Extends, Create, Reconcile, Update;
    match step
    case CreateStep(submission, key, executable, newId, now, writes) =>
      if key.None? {
        LegacyKeeps(s, submission, executable, newId, now, writes);
      } else {
        CreateKeeps(s, submission, key.value, executable, newId, now, writes);
      }
    case ReconcileStep(submission, key, now, writes) => ReconcileKeeps(s, submission, key, now, writes);
    case UpdateStep(id, state) => UpdateKeeps(s, id, state);
  }

  lemma {:induction false} HistoryGood(ss: seq<Store>, steps: seq<Step>, i: nat)
    requires History(ss, steps) && i < |ss|
    ensures Good(ss[i])
  {
    hide Good, Apply;
    if i == 0 {
      assert Good(EMPTY) by { EmptyGood(); }
    } else {
      HistoryGood(ss, steps, i - 1);
      StepKeeps(ss[i - 1], steps[i - 1]);
    }
  }

  lemma EmptyGood()
    ensures Good(EMPTY)
  {
  }

  lemma {:induction false} HistoryExtends(ss: seq<Store>, steps: seq<Step>, i: nat, j: nat)
    requires History(ss, steps) && i <= j < |ss|
    ensures Extends(ss[i], ss[j])
    decreases j
  {
    hide Good, Apply;
    if i < j {
      HistoryExtends(ss, steps, i, j - 1);
      HistoryGood(ss, steps, j - 1);
      StepKeeps(ss[j - 1], steps[j - 1]);
      ExtendsOnward(ss[i], ss[j - 1], ss[j]);
    }
  }

  // ----- the results over every history, with a stop before any write

  /** A client key never has two Runs. */
  lemma AtMostOneRunPerKey(ss: seq<Store>, steps: seq<Step>, i: nat, k: KeySha, id: RunId, other: RunId)
    requires History(ss, steps) && i < |ss|
    requires id in ss[i].runs && other in ss[i].runs && HasKey(ss[i].runs[id], k) && HasKey(ss[i].runs[other], k)
    ensures id == other
  {
    HistoryGood(ss, steps, i);
  }

  /** A commit stands on its attempt and on the Run it names, and that Run is the key's. */
  lemma CommitImpliesRun(ss: seq<Store>, steps: seq<Step>, i: nat, k: KeySha)
    requires History(ss, steps) && i < |ss| && k in ss[i].commits
    ensures CommitGood(ss[i], k, ss[i].commits[k])
    ensures MadeFor(ss[i], ss[i].runs[ss[i].commits[k].body.runId], k)
  {
    HistoryGood(ss, steps, i);
    assert RunGood(ss[i], ss[i].commits[k].body.runId);
  }

  /** What the client hears from step i, if the step answers with the key's Run. */
  ghost function Heard(s: Store, step: Step, key: Key): Option<Run> {
    match step
    case CreateStep(submission, asked, executable, newId, now, writes) =>
      var r := Create(s, submission, asked, executable, newId, now, writes).1;
      if asked == Some(key) && r.Ok? then Some(r.value.run) else None
    case ReconcileStep(submission, asked, now, writes) =>
      var r := Reconcile(s, submission, asked, now, writes).1;
      if asked == key && r.Ok? && r.value.Committed? then Some(r.value.run) else None
    case UpdateStep(_, _) => None
  }

  lemma HeardIsTheKeysRun(s: Store, step: Step, key: Key)
    requires Good(s) && Possible(s, step) && Heard(s, step, key).Some?
    ensures
      var s', run := Apply(s, step), Heard(s, step, key).value;
      run.id in s'.runs && s'.runs[run.id] == run && HasKey(run, Sha256(key))
  {
    hide Good, Extends, HasKey, Create, Reconcile, ValidKey;
    match step
    case CreateStep(submission, _, executable, newId, now, writes) =>
      CreateKeeps(s, submission, key, executable, newId, now, writes);
    case ReconcileStep(submission, _, now, writes) => ReconcileKeeps(s, submission, key, now, writes);
  }

  /**
   * Idempotence: whatever happens in between, crashes included, every creation
   * and every reconciliation of one key that answers with a Run answers with the
   * same Run of the same submission.
   */
  lemma EveryAnswerIsTheSameRun(ss: seq<Store>, steps: seq<Step>, i: nat, j: nat, key: Key)
    requires History(ss, steps) && i <= j < |steps|
    requires Heard(ss[i], steps[i], key).Some? && Heard(ss[j], steps[j], key).Some?
    ensures
      var first, later := Heard(ss[i], steps[i], key).value, Heard(ss[j], steps[j], key).value;
      later == first.(state := later.state)
  {
    hide Good, Apply, Heard, HasKey;
    var first, later := Heard(ss[i], steps[i], key).value, Heard(ss[j], steps[j], key).value;
    HistoryGood(ss, steps, i);
    HistoryGood(ss, steps, j);
    HeardIsTheKeysRun(ss[i], steps[i], key);
    HeardIsTheKeysRun(ss[j], steps[j], key);
    HistoryExtends(ss, steps, i + 1, j + 1);
    KeepsKey(ss[i + 1], ss[j + 1], first.id, Sha256(key));
    AtMostOneRunPerKey(ss, steps, j + 1, Sha256(key), first.id, later.id);
  }

  lemma KeepsKey(s: Store, s': Store, id: RunId, k: KeySha)
    requires Extends(s, s') && id in s.runs && HasKey(s.runs[id], k)
    ensures id in s'.runs && HasKey(s'.runs[id], k) && s'.runs[id] == s.runs[id].(state := s'.runs[id].state)
  {
  }

  /** Reconciling never creates a Run, however it is called. */
  lemma ReconcileCreatesNothing(ss: seq<Store>, steps: seq<Step>, i: nat)
    requires History(ss, steps) && i < |steps| && steps[i].ReconcileStep?
    ensures ss[i + 1].runs == ss[i].runs && ss[i + 1].attempts == ss[i].attempts
  {
    HistoryGood(ss, steps, i);
    ReconcileKeeps(ss[i], steps[i].submission, steps[i].requested, steps[i].now, steps[i].writes);
  }

  /** Once a key was used for one submission, asking with another one is refused and writes nothing, ever after. */
  lemma ReuseIsRefused(ss: seq<Store>, steps: seq<Step>, i: nat, j: nat, key: Key)
    requires History(ss, steps) && i <= j < |steps|
    requires Sha256(key) in ss[i].attempts && steps[j].CreateStep? && steps[j].key == Some(key)
    requires steps[j].submission != ss[i].attempts[Sha256(key)].body.submission
    ensures ss[j + 1] == ss[j] && Heard(ss[j], steps[j], key) == None
  {
    hide Good;
    HistoryGood(ss, steps, j);
    HistoryExtends(ss, steps, i, j);
    var st := steps[j];
    CreateKeeps(ss[j], st.submission, key, st.executable, st.newId, st.now, st.writes);
  }

  /**
   * Exactly when a creation that is left to finish answers: the key is well
   * formed, free or already this submission's, and its Run exists or may be made.
   */
  lemma CreateExactly(ss: seq<Store>, steps: seq<Step>, i: nat, submission: string, key: Key, executable: bool,
                      newId: RunId, now: int, writes: nat)
    requires History(ss, steps) && i < |ss| && newId !in ss[i].runs && writes >= 3
    ensures
      var r := Create(ss[i], submission, Some(key), executable, newId, now, writes).1;
      && (r.Ok? <==> ValidKey(key) && Free(ss[i], submission, key) && (HasRun(ss[i], Sha256(key)) || executable))
      && (r.Ok? ==> (r.value.replayed <==> HasRun(ss[i], Sha256(key))) && r.value.run.submission == submission)
  {
    HistoryGood(ss, steps, i);
    CreateKeeps(ss[i], submission, key, executable, newId, now, writes);
  }

  /**
   * Crash recovery: stop a creation before any of its writes and ask again with
   * the same key.  The second call answers, and if the first one had already
   * written a Run, with that Run and without writing another.
   */
  lemma RetryHeals(ss: seq<Store>, steps: seq<Step>, i: nat, submission: string, key: Key,
                   newId: RunId, now: int, writes: nat, otherId: RunId, again: int)
    requires History(ss, steps) && i < |ss| && newId !in ss[i].runs
    requires ValidKey(key) && Free(ss[i], submission, key)
    ensures
      var s1 := Create(ss[i], submission, Some(key), true, newId, now, writes).0;
      otherId !in s1.runs ==>
        var (s2, r) := Create(s1, submission, Some(key), true, otherId, again, 3);
        && r.Ok?
        && (HasRun(s1, Sha256(key)) ==> r.value.replayed && s2.runs == s1.runs)
  {
    hide Good, HasKey, ValidKey;
    HistoryGood(ss, steps, i);
    CreateKeeps(ss[i], submission, key, true, newId, now, writes);
    var s1 := Create(ss[i], submission, Some(key), true, newId, now, writes).0;
    AttemptIsOwn(ss[i], submission, key, true, newId, now, writes);
    if otherId !in s1.runs {
      CreateKeeps(s1, submission, key, true, otherId, again, 3);
    }
  }

  lemma AttemptIsOwn(s: Store, submission: string, key: Key, executable: bool, newId: RunId, now: int, writes: nat)
    requires Good(s) && newId !in s.runs && Free(s, submission, key)
    ensures Free(Create(s, submission, Some(key), executable, newId, now, writes).0, submission, key)
  {
    hide Good, HasKey, HasRun, ValidKey, FindRun, ReadCommit, Answers;
    CreateKeeps(s, submission, key, executable, newId, now, writes);
  }

  // ----- what a creation leaves on file

  /** A Run as creation writes it: under its new id, of this submission. */
  predicate IsNewRun(run: Run, id: RunId, submission: string) {
    run.id == id && run.submission == submission
  }

  /**
   * Creation without a client key, exactly: over every history and stopped before
   * its one write or not, it answers if and only if the submission is executable
   * and the write happens.  Then the answered Run, without a receipt, is the only
   * file that changed; otherwise none did.
   */
  lemma KeylessExactly(ss: seq<Store>, steps: seq<Step>, i: nat)
    requires History(ss, steps) && i < |steps| && steps[i].CreateStep? && steps[i].key.None?
    ensures
      var st := steps[i];
      var r := Create(ss[i], st.submission, None, st.executable, st.newId, st.now, st.writes).1;
      && (r.Ok? <==> st.executable && st.writes >= 1)
      && (r.Ok? ==>
            && !r.value.replayed && IsNewRun(r.value.run, st.newId, st.submission) && r.value.run.receipt.None?
            && ss[i + 1] == ss[i].(runs := ss[i].runs[st.newId := r.value.run]) && st.newId !in ss[i].runs)
      && (r.Err? ==> ss[i + 1] == ss[i] && r.error == (if st.executable then Stopped else NotExecutable))
  {
  }

  /**
   * Creation with a client key writes one Run at most: the one it answers with as
   * new, or, stopped before its commit, the one that the next call will answer
   * with; it goes under the new id and carries this key's receipt.
   */
  lemma KeyedWritesOneRun(s: Store, submission: string, key: Key, executable: bool, newId: RunId, now: int, writes: nat)
    requires Good(s) && newId !in s.runs
    ensures
      var (s', r) := Create(s, submission, Some(key), executable, newId, now, writes);
      && (s'.runs != s.runs ==>
            && newId in s'.runs && s'.runs == s.runs[newId := s'.runs[newId]]
            && IsNewRun(s'.runs[newId], newId, submission) && HasKey(s'.runs[newId], Sha256(key)))
      && (r.Ok? ==> (r.value.replayed <==> s'.runs == s.runs) && (!r.value.replayed ==> r.value.run == s'.runs[newId]))
  {
    hide Good, Attempted, ValidKey, HasRun, HasKey, IsNewRun, Intact;
    CreateKeeps(s, submission, key, executable, newId, now, writes);
    ReadAttemptExactly(s, submission, key);
    if ValidKey(key) && Free(s, submission, key) {
      var b := BindingOf(submission, key);
      if b.key in s.attempts {
        AttemptedWritesOneRun(s, submission, b, s.attempts[b.key], executable, newId, now, writes);
      } else if writes > 0 {
        AttemptKeeps(s, submission, key, now);
        var a := NewAttempt(b, submission, now);
        AttemptedWritesOneRun(s.(attempts := s.attempts[b.key := a]), submission, b, a, executable, newId, now, writes - 1);
      }
    }
  }

  lemma AttemptedWritesOneRun(s: Store, submission: string, b: Binding, a: Attempt, executable: bool, newId: RunId, now: int, writes: nat)
    requires Good(s) && Asks(s, submission, b, a) && newId !in s.runs
    ensures
      var (s', r) := Attempted(s, submission, b, a, executable, newId, now, writes);
      && (s'.runs != s.runs ==>
            && newId in s'.runs && s'.runs == s.runs[newId := s'.runs[newId]]
            && IsNewRun(s'.runs[newId], newId, submission) && HasKey(s'.runs[newId], b.key))
      && (r.Ok? ==> (r.value.replayed <==> s'.runs == s.runs) && (!r.value.replayed ==> r.value.run == s'.runs[newId]))
  {
    hide Good, HasRun, WriteCommit, FindRun;
    FindRunExactly(s, b);
    WriteCommitKeepsRuns(s, b, a, if FindRun(s.runs, b).value.Some? then FindRun(s.runs, b).value.value else newId, now, writes);
    if writes > 0 {
      var s' := s.(runs := s.runs[newId := NewRun(newId, submission, Some(Seal(ReceiptBody(b, a.sha))))]);
      WriteCommitKeepsRuns(s', b, a, newId, now, writes - 1);
    }
  }

  lemma WriteCommitKeepsRuns(s: Store, b: Binding, a: Attempt, id: RunId, now: int, writes: nat)
    ensures WriteCommit(s, b, a, id, now, writes).0.runs == s.runs
  {
  }

  /** Why a creation with a key is refused before anything is written. */
  lemma KeyRefusedExactly(s: Store, submission: string, key: Key, executable: bool, newId: RunId, now: int, writes: nat)
    requires Good(s) && newId !in s.runs
    ensures
      var r := Create(s, submission, Some(key), executable, newId, now, writes).1;
      && (r == Err(KeyInvalid) <==> !ValidKey(key))
      && (r == Err(KeyBoundElsewhere) <==> ValidKey(key) && !Free(s, submission, key))
      && (writes >= 3 ==>
            (r == Err(NotExecutable) <==>
               ValidKey(key) && Free(s, submission, key) && !HasRun(s, Sha256(key)) && !executable))
  {
    hide Good, FindRun, ReadCommit, ValidKey, CommittedRun, Intact, HasKey, HasRun, Finish, Attempted;
    ReadAttemptExactly(s, submission, key);
    CreateKeeps(s, submission, key, executable, newId, now, writes);
    if ValidKey(key) && Free(s, submission, key) {
      var b := BindingOf(submission, key);
      if b.key in s.attempts {
        AttemptedRefuses(s, submission, b, s.attempts[b.key], executable, newId, now, writes);
      } else if writes > 0 {
        AttemptKeeps(s, submission, key, now);
        if HasRun(s, b.key) {
          NoRunWithoutAttempt(s, b.key);
          assert false;
        }
        var a := NewAttempt(b, submission, now);
        AttemptedRefuses(s.(attempts := s.attempts[b.key := a]), submission, b, a, executable, newId, now, writes - 1);
        SameRuns(s, s.(attempts := s.attempts[b.key := a]), b.key);
      }
    }
  }

  lemma SameRuns(s: Store, s': Store, k: KeySha)
    requires s.runs == s'.runs
    ensures HasRun(s, k) <==> HasRun(s', k)
  {
  }

  lemma AttemptedRefuses(s: Store, submission: string, b: Binding, a: Attempt, executable: bool, newId: RunId, now: int, writes: nat)
    requires Good(s) && Asks(s, submission, b, a) && newId !in s.runs
    ensures
      var r := Attempted(s, submission, b, a, executable, newId, now, writes).1;
      r.Err? ==> r.error == if !HasRun(s, b.key) && !executable then NotExecutable else Stopped
  {
    hide Good, HasKey, HasRun, Finish, FindRun;
    FindRunExactly(s, b);
    if b.key in s.commits {
      AlreadyCommitted(s, submission, b, a, executable, newId, now, writes);
    } else if HasRun(s, b.key) {
      FinishStops(s, b, a, FindRun(s.runs, b).value.value, true, now, writes);
    } else if executable && writes > 0 {
      var s' := s.(runs := s.runs[newId := NewRun(newId, submission, Some(Seal(ReceiptBody(b, a.sha))))]);
      FinishStops(s', b, a, newId, false, now, writes - 1);
    }
  }

  lemma FinishStops(s: Store, b: Binding, a: Attempt, id: RunId, replayed: bool, now: int, writes: nat)
    requires id in s.runs && b.key !in s.commits
    ensures Finish(s, b, a, id, replayed, now, writes).1.Err? ==> Finish(s, b, a, id, replayed, now, writes).1 == Err(Stopped)
  {
  }

  // ----- refusals

  /** A key is 16 to 160 letters, digits, dots, underscores, colons and dashes. */
  lemma KeyExactly(key: Key)
    ensures ValidKey(key) <==>
              |key| >= 16 && |key| <= 160 && forall c :: c in key ==> IsLetterOrDigit(c) || c in "._:-"
  {
    hide DIGITS, SMALL, CAPITAL;
    forall i | 0 <= i < |key|
      ensures SafeChar(key[i]) <==> IsLetterOrDigit(key[i]) || key[i] in "._:-"
    {
      ClassesExactly(key[i]);
    }
    assert ValidKey(key) ==> forall i :: 0 <= i < |key| ==> IsLetterOrDigit(key[i]) || key[i] in "._:-";
  }

  /** What each refusal says of the files, whatever they hold. */
  ghost predicate Defect(s: Store, submission: string, key: Key, reason: Reason) {
    var b := BindingOf(submission, key);
    match reason
    case KeyInvalid => !ValidKey(key)
    case KeyBoundElsewhere =>
      && b.key in s.attempts
      && (s.attempts[b.key].body.binding != b || !Intact(s.attempts[b.key]) || s.attempts[b.key].body.submission != submission)
    case CommitBroken =>
      && b.key in s.commits && b.key in s.attempts
      && (s.commits[b.key].body.binding != b || s.commits[b.key].body.attempt != s.attempts[b.key].sha || !Intact(s.commits[b.key]))
    case ReceiptBroken => BrokenMatch(s.runs, b)
    case SeveralRuns => TwoMatches(s.runs, b)
    case RunMissing => b.key in s.commits && s.commits[b.key].body.runId !in s.runs
    case CommitDisagrees => b.key in s.commits && FindRun(s.runs, b) != Ok(Some(s.commits[b.key].body.runId))
    case _ => false
  }

  /** The reason reconciliation gives is a true one, and with such a defect of an attempted key it is never answered. */
  lemma ReconcileRefusalsExactly(s: Store, submission: string, key: Key, now: int, writes: nat, reason: Reason)
    requires writes >= 1
    ensures Reconcile(s, submission, key, now, writes).1 == Err(reason) ==> Defect(s, submission, key, reason)
    ensures Defect(s, submission, key, reason) && Sha256(key) in s.attempts ==> Reconcile(s, submission, key, now, writes).1.Err?
    ensures Reconcile(s, submission, key, now, writes).1.Err? ==> Reconcile(s, submission, key, now, writes).0 == s
  {
    hide ValidKey, BrokenMatch, TwoMatches;
  }

  /** A later mutator rewrites the state of the Run it names and nothing else. */
  lemma UpdateExactly(s: Store, id: RunId, state: string)
    ensures
      var s' := Update(s, id, state);
      && s'.runs.Keys == s.runs.Keys && s'.attempts == s.attempts && s'.commits == s.commits
      && forall other :: other in s.runs ==>
           s'.runs[other] == if other == id then s.runs[other].(state := state) else s.runs[other]
  {
  }

  /** On any files, creation is refused for an attempt that is not this submission's, and then writes nothing. */
  lemma ForeignAttemptIsRefused(s: Store, submission: string, key: Key, executable: bool, newId: RunId, now: int, writes: nat)
    requires ValidKey(key) && Defect(s, submission, key, KeyBoundElsewhere)
    ensures Create(s, submission, Some(key), executable, newId, now, writes) == (s, Err(KeyBoundElsewhere))
    ensures Reconcile(s, submission, key, now, writes) == (s, Err(KeyBoundElsewhere))
  {
    hide Attempted, FindRun;
  }
}
