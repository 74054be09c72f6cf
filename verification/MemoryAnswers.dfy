/**
 * What a lookup finds, in terms of texts and of what was committed: the terms of
 * a query, the score they give, the order of the answer, and where each item of
 * an answer comes from.
 */
module MemoryAnswers {
  import opened Basics
  import opened AsciiText
  import opened BoundedRecall
  import opened MemoryStore

  // ----- order of texts

  /** The first n characters agree, and then the shorter text or the smaller character comes first. */
  predicate DiffersAt(a: string, c: string, n: nat) {
    && n <= |a| && n < |c| && a[..n] == c[..n]
    && (n == |a| || a[n] < c[n])
  }

  lemma FirstAgrees(a: string, c: string, n: nat)
    requires DiffersAt(a, c, n)
    ensures n > 0 ==> a != "" && c != "" && a[0] == c[0]
  {
    if n > 0 {
      assert a[..n][0] == c[..n][0];
    }
  }

  /** Texts are ordered as in a dictionary. */
  lemma {:induction false} LessExactly(a: string, c: string)
    ensures Less(a, c) <==> exists n :: DiffersAt(a, c, n)
  {
    if a != "" && c != "" && a[0] == c[0] {
      LessExactly(a[1..], c[1..]);
      assert a == [a[0]] + a[1..] && c == [c[0]] + c[1..];
      if Less(a, c) {
        var n: nat :| DiffersAt(a[1..], c[1..], n);
        assert a[..n + 1] == [a[0]] + a[1..][..n] && c[..n + 1] == [c[0]] + c[1..][..n];
        assert DiffersAt(a, c, n + 1);
      }
      if n: nat :| DiffersAt(a, c, n) {
        assert a[..n][1..] == a[1..][..n - 1] && c[..n][1..] == c[1..][..n - 1];
        assert DiffersAt(a[1..], c[1..], n - 1);
      }
    } else {
      if n: nat :| DiffersAt(a, c, n) {
        FirstAgrees(a, c, n);
      }
      if Less(a, c) {
        assert DiffersAt(a, c, 0);
      }
    }
  }

  // ----- terms

  /** A maximal word of two or more characters stands here. */
  predicate WordAt(query: string, i: nat, n: nat) {
    && n >= 2 && i + n <= |query|
    && (forall k :: i <= k < i + n ==> IsWordChar(query[k]))
    && (i == 0 || !IsWordChar(query[i - 1]))
    && (i + n == |query| || !IsWordChar(query[i + n]))
  }

  predicate WordIs(query: string, i: nat, n: nat, term: string) {
    WordAt(query, i, n) && term == Lower(query[i..i + n])
  }

  ghost predicate IsWord(query: string, term: string) {
    exists i: nat, n: nat :: WordIs(query, i, n, term)
  }

  predicate IsSingle(query: string, term: string) {
    |term| == 1 && '\U{3400}' <= term[0] <= '\U{9FFF}' && term[0] in query
  }

  lemma {:induction false} TakeWordExactly(s: string)
    ensures forall k :: 0 <= k < |TakeWord(s)| ==> IsWordChar(s[k])
    ensures |TakeWord(s)| < |s| ==> !IsWordChar(s[|TakeWord(s)|])
  {
    if s != "" && IsWordChar(s[0]) {
      TakeWordExactly(s[1..]);
    }
  }

  /** What the terms of a text gain by n characters more in front of it that end outside a word. */
  predicate Apart(query: string, n: nat) {
    n <= |query| && (n == 0 || n == |query| || !IsWordChar(query[n - 1]) || !IsWordChar(query[n]))
  }

  /** Behind such a front the words of the rest are words of the whole. */
  lemma WordsBehind(query: string, n: nat, i: nat, k: nat, term: string)
    requires Apart(query, n) && i >= n
    ensures WordIs(query[n..], i - n, k, term) <==> WordIs(query, i, k, term)
  {
    hide Lower;
    var rest := query[n..];
    assert forall j :: 0 <= j < |rest| ==> rest[j] == query[j + n];
    assert i + k <= |query| ==> rest[i - n..i - n + k] == query[i..i + k];
    if WordAt(rest, i - n, k) {
      assert forall j :: i <= j < i + k ==> query[j] == rest[j - n];
      assert IsWordChar(rest[i - n]) && query[i] == rest[i - n];
    }
  }

  lemma TermBehind(query: string, n: nat, term: string)
    requires Apart(query, n) && n <= |query|
    ensures IsWord(query[n..], term) ==> IsWord(query, term)
    ensures IsSingle(query[n..], term) ==> IsSingle(query, term)
  {
    hide WordIs;
    var rest := query[n..];
    if IsWord(rest, term) {
      var i: nat, k: nat :| WordIs(rest, i, k, term);
      WordsBehind(query, n, i + n, k, term);
    }
  }

  /** A word at the front is the only one that starts within it, and it holds no single term. */
  lemma WordInFront(query: string, i: nat, n: nat, term: string)
    requires i < |TakeWord(query)| && WordIs(query, i, n, term)
    ensures i == 0 && term == Lower(TakeWord(query))
  {
    hide Lower;
    var word := TakeWord(query);
    TakeWordExactly(query);
    assert word == query[..|word|];
    assert i == 0 && n == |word|;
    assert query[0..0 + n] == word;
  }

  lemma FrontWord(query: string, term: string)
    requires query != "" && |TakeWord(query)| >= 2
    ensures
      var word := TakeWord(query);
      && Apart(query, |word|) && (IsWord(query, term) <==> term == Lower(word) || IsWord(query[|word|..], term))
  {
    hide TakeWord, WordIs, IsSingle, Lower;
    var word := TakeWord(query);
    WordIsFront(query);
    TermBehind(query, |word|, term);
    if IsWord(query, term) {
      var i: nat, n: nat :| WordIs(query, i, n, term);
      if i < |word| {
        WordInFront(query, i, n, term);
      } else {
        WordsBehind(query, |word|, i, n, term);
      }
    }
  }

  lemma WordIsFront(query: string)
    requires |TakeWord(query)| >= 2
    ensures
      var word := TakeWord(query);
      Apart(query, |word|) && WordIs(query, 0, |word|, Lower(word))
  {
    hide Lower;
    TakeWordExactly(query);
    assert query[0..0 + |TakeWord(query)|] == TakeWord(query);
  }

  /** No character of a word is a term of its own. */
  lemma FrontSingles(query: string, term: string)
    ensures IsSingle(query, term) <==> IsSingle(query[|TakeWord(query)|..], term)
  {
    var word := TakeWord(query);
    TakeWordExactly(query);
    if IsSingle(query, term) {
      var k :| 0 <= k < |query| && query[k] == term[0];
      assert k >= |word|;
      assert query[|word|..][k - |word|] == term[0];
    }
  }

  lemma FirstIsNoWord(query: string, n: nat, term: string)
    requires |TakeWord(query)| < 2
    ensures !WordIs(query, 0, n, term)
  {
    hide Lower;
    TakeWordExactly(query);
  }

  lemma FrontCharacter(query: string, term: string)
    requires query != "" && |TakeWord(query)| < 2
    ensures Apart(query, 1)
    ensures IsWord(query, term) <==> IsWord(query[1..], term)
    ensures IsSingle(query, term) <==> IsSingle(query[1..], term) || (term == [query[0]] && '\U{3400}' <= query[0] <= '\U{9FFF}')
  {
    hide WordIs, TakeWord;
    CharacterIsApart(query);
    TermBehind(query, 1, term);
    if IsWord(query, term) {
      var i: nat, n: nat :| WordIs(query, i, n, term);
      FirstIsNoWord(query, n, term);
      WordsBehind(query, 1, i, n, term);
    }
    if IsSingle(query, term) && term[0] != query[0] {
      var k :| 0 <= k < |query| && query[k] == term[0];
      assert query[1..][k - 1] == term[0];
    }
  }

  lemma CharacterIsApart(query: string)
    requires query != "" && |TakeWord(query)| < 2
    ensures Apart(query, 1)
  {
    TakeWordExactly(query);
  }

  /** The terms of a query are its maximal words of two or more characters in lower case, and its single CJK characters. */
  lemma {:induction false} TermsExactly(query: string, term: string)
    ensures term in Terms(query) <==> IsWord(query, term) || IsSingle(query, term)
    decreases |query|
  {
    hide IsWord, IsSingle;
    if query == "" {
      NothingHasTerms(term);
    } else if |TakeWord(query)| >= 2 {
      FrontWord(query, term);
      FrontSingles(query, term);
      TermsExactly(query[|TakeWord(query)|..], term);
    } else {
      FrontCharacter(query, term);
      TermsExactly(query[1..], term);
    }
  }

  lemma NothingHasTerms(term: string)
    ensures !IsWord("", term) && !IsSingle("", term)
  {
  }

  // ----- scores

  predicate OccursAt(term: string, text: string, i: nat) {
    i + |term| <= |text| && text[i..i + |term|] == term
  }

  ghost predicate Occurs(term: string, text: string) {
    exists i: nat :: OccursAt(term, text, i)
  }

  lemma OccursBehind(term: string, text: string, i: nat)
    requires text != ""
    ensures OccursAt(term, text[1..], i) <==> OccursAt(term, text, i + 1)
    ensures OccursAt(term, text, 0) <==> term <= text
  {
    assert i + |term| <= |text| - 1 ==> text[1..][i..i + |term|] == text[i + 1..i + 1 + |term|];
  }

  lemma {:induction false} ContainsExactly(text: string, term: string)
    ensures Contains(text, term) <==> Occurs(term, text)
    decreases |text|
  {
    hide OccursAt;
    if text == "" {
      OccursInNothing(term);
    } else {
      OccursBehind(term, text, 0);
      if |term| <= |text| {
        ContainsExactly(text[1..], term);
      } else {
        LongerOccursNowhere(term, text);
      }
      if Occurs(term, text[1..]) {
        var i: nat :| OccursAt(term, text[1..], i);
        OccursBehind(term, text, i);
      }
      if i: nat :| OccursAt(term, text, i) {
        if i > 0 {
          OccursBehind(term, text, i - 1);
        }
      }
    }
  }

  lemma OccursInNothing(term: string)
    ensures Occurs(term, "") <==> term == ""
  {
    assert term == "" ==> OccursAt(term, "", 0);
  }

  lemma LongerOccursNowhere(term: string, text: string)
    requires |term| > |text|
    ensures forall i: nat :: !OccursAt(term, text, i)
    ensures text != "" ==> !Occurs(term, text[1..])
  {
  }

  /** The score of an item is the number of the query's terms that occur in its summary or reference, in lower case. */
  lemma ScoreExactly(item: Item, query: string, matched: set<string>)
    requires forall term :: term in matched <==>
      (IsWord(query, term) || IsSingle(query, term)) && Occurs(term, Lower(item.summary + " " + item.uri))
    ensures Score(item, query) == |matched|
  {
    hide Terms, Contains, IsWord, IsSingle, Occurs;
    var text := Lower(item.summary + " " + item.uri);
    var found := set term | term in Terms(query) && Contains(text, term);
    forall term
      ensures term in found <==> term in matched
    {
      TermsExactly(query, term);
      ContainsExactly(text, term);
    }
    assert found == matched;
  }

  // ----- the order of an index

  /** The best score comes first; equal scores come in the order of their digests. */
  lemma IndexIsBestFirst(s: Store, role: string, query: string, i: nat, j: nat)
    requires i < j < |LocalItems(s, role, query)|
    ensures
      var items := LocalItems(s, role, query);
      && Score(items[i], query) >= Score(items[j], query)
      && (Score(items[i], query) == Score(items[j], query) ==> Less(items[i].sha256, items[j].sha256))
  {
    hide LocalItems, Score, Less;
    IndexIsExact(s, role, query);
  }

  /** What a binding file must say to be used: sealed, of this role in path and record, approved and signed, its object on file and sealed. */
  predicate Trusted(file: BindingFile, s: Store, role: string) {
    var b := file.record.body;
    && file.record.sha == Sha256(b) && b.role == role && file.path.role == Segment(role)
    && Upper(b.decision) in ["APPROVED", "APPROVE_PASS", "CONFIRM_BLOCK", "REQUEST_EVIDENCE", "HUMAN_APPROVED", "SIGNED_PASS"]
    && IsSha256(b.signature) && IsSha256(b.sha256)
    && b.sha256 in s.objects && s.objects[b.sha256].body.sha256 == b.sha256
    && s.objects[b.sha256].sha == Sha256(s.objects[b.sha256].body)
  }

  /** Whatever lies in the store, a file is used exactly if it is trusted and scores, and every item of an index says what such a file says. */
  lemma IndexIsTrusted(s: Store, role: string, query: string, file: BindingFile, item: Item)
    ensures Relevant(file, role, query, s.objects) <==> Trusted(file, s, role) && Score(ItemOf(file.record.body), query) > 0
    ensures item in LocalItems(s, role, query) ==>
              exists i :: 0 <= i < |s.bindings| && Trusted(s.bindings[i], s, role)
                          && s.bindings[i].record.body.summary == item.summary && s.bindings[i].record.body.uri == item.uri
                          && s.bindings[i].record.body.sha256 == item.sha256
  {
    hide Score, Segment, Upper, IsSha256, LocalItems;
    IndexIsExact(s, role, query);
    if item in LocalItems(s, role, query) {
      var i: nat :| Stands(s.bindings, i, role, query, s.objects) && ItemOf(s.bindings[i].record.body) == item;
      assert Trusted(s.bindings[i], s, role);
    }
  }

  // ----- texts that are injected

  /** A text is its blanks, what is left of it, and its blanks. */
  lemma {:induction false} StripLeftExactly(s: string) returns (blanks: string)
    ensures s == blanks + StripLeft(s) && forall i :: 0 <= i < |blanks| ==> IsSpace(blanks[i])
  {
    if s != "" && IsSpace(s[0]) {
      var more := StripLeftExactly(s[1..]);
      blanks := [s[0]] + more;
    } else {
      blanks := "";
    }
  }

  lemma {:induction false} StripRightExactly(s: string) returns (blanks: string)
    ensures s == StripRight(s) + blanks && forall i :: 0 <= i < |blanks| ==> IsSpace(blanks[i])
    decreases |s|
  {
    if s != "" && IsSpace(s[|s| - 1]) {
      var more := StripRightExactly(s[..|s| - 1]);
      blanks := more + [s[|s| - 1]];
    } else {
      blanks := "";
    }
  }

  lemma StripExactly(s: string) returns (before: string, after: string)
    ensures s == before + Strip(s) + after
    ensures forall i :: 0 <= i < |before| ==> IsSpace(before[i])
    ensures forall i :: 0 <= i < |after| ==> IsSpace(after[i])
    ensures Strip(s) == "" || (!IsSpace(Strip(s)[0]) && !IsSpace(Strip(s)[|Strip(s)| - 1]))
  {
    before := StripLeftExactly(s);
    after := StripRightExactly(StripLeft(s));
  }

  /** A line holds digest, reference and summary, in this order and told apart by bars. */
  lemma LineHolds(item: Item)
    ensures
      var line, n, u := Line(item), |item.sha256|, |item.uri|;
      && |line| == n + u + |item.summary| + 6
      && line[..n] == item.sha256 && line[n..n + 3] == " | " && line[n + 3..n + 3 + u] == item.uri
      && line[n + 3 + u..n + 6 + u] == " | " && line[n + 6 + u..] == item.summary
  {
  }

  /** CJK characters cost a token each, wherever they stand, and the others together a token for each started four. */
  lemma EstimateExactly(text: string, tokens: nat)
    ensures
      var cjk := |CjkPlaces(text)|;
      && cjk <= |text|
      && var others := |text| - cjk;
      TokenEstimate(text) == tokens <==>
        tokens >= cjk && 4 * (tokens - cjk) >= others && (tokens > cjk ==> 4 * (tokens - cjk - 1) < others)
  {
    hide CjkPlaces;
    CjkExactly(text);
  }

  function CjkPlaces(text: string): set<nat> {
    set i: nat | i < |text| && IsCjk(text[i])
  }

  lemma CjkPlacesOnward(text: string, c: char)
    ensures CjkPlaces(text + [c]) == CjkPlaces(text) + (if IsCjk(c) then {|text|} else {})
    ensures |text| !in CjkPlaces(text)
  {
    hide IsCjk;
    assert forall i :: 0 <= i < |text| ==> (text + [c])[i] == text[i];
  }

  lemma {:induction false} CjkExactly(text: string)
    ensures Cjk(text) == |CjkPlaces(text)|
    decreases |text|
  {
    hide IsCjk, CjkPlaces;
    if text == "" {
      NoPlaces();
    } else {
      var before, c := text[..|text| - 1], text[|text| - 1];
      CjkExactly(before);
      assert text == before + [c];
      CjkJoin(before, [c]);
      CjkPlacesOnward(before, c);
    }
  }

  lemma NoPlaces()
    ensures CjkPlaces("") == {}
  {
  }

  // ----- segments

  predicate AllSafe(s: string) {
    forall i :: 0 <= i < |s| ==> IsSafe(s[i])
  }

  predicate AllUnsafe(s: string) {
    forall i :: 0 <= i < |s| ==> !IsSafe(s[i])
  }

  lemma {:induction false} DashedUnsafe(run: string, rest: string)
    requires AllUnsafe(run) && (rest == "" || IsSafe(rest[0]))
    ensures Dashed(run + rest, true) == Dashed(rest, false)
  {
    if run == "" {
      assert run + rest == rest;
    } else {
      assert (run + rest)[1..] == run[1..] + rest;
      DashedUnsafe(run[1..], rest);
    }
  }

  /** Safe characters stay; each run of unsafe ones becomes one dash. */
  lemma {:induction false} DashedExactly(safe: string, run: string, rest: string)
    requires AllSafe(safe) && AllUnsafe(run) && (rest == "" || IsSafe(rest[0])) && (run == "" ==> rest == "")
    ensures Dashed(safe + run + rest, false) == safe + (if run == "" then "" else "-") + Dashed(rest, false)
    decreases |safe|
  {
    var s := safe + run + rest;
    if safe != "" {
      assert s[1..] == safe[1..] + run + rest;
      DashedExactly(safe[1..], run, rest);
    } else if run != "" {
      assert s[1..] == run[1..] + rest;
      DashedUnsafe(run[1..], rest);
    }
  }

  predicate IsMark(c: char) {
    c in "-."
  }

  predicate AllMarks(s: string) {
    forall i :: 0 <= i < |s| ==> IsMark(s[i])
  }

  lemma DropMarksStep(s: string)
    ensures s != "" && IsMark(s[0]) ==> DropMarks(s) == DropMarks(s[1..])
    ensures s != "" && !IsMark(s[0]) && IsMark(s[|s| - 1]) ==> DropMarks(s) == DropMarks(s[..|s| - 1])
    ensures s == "" || (!IsMark(s[0]) && !IsMark(s[|s| - 1])) ==> DropMarks(s) == s
  {
  }

  /** Dashes and dots are cut off both ends. */
  lemma {:induction false} DropMarksExactly(s: string) returns (before: string, after: string)
    ensures s == before + DropMarks(s) + after && AllMarks(before) && AllMarks(after)
    ensures DropMarks(s) == "" || (!IsMark(DropMarks(s)[0]) && !IsMark(DropMarks(s)[|DropMarks(s)| - 1]))
    decreases |s|
  {
    hide DropMarks, IsMark;
    DropMarksStep(s);
    before, after := "", "";
    if s != "" && IsMark(s[0]) {
      var more, rest := DropMarksExactly(s[1..]);
      before, after := [s[0]] + more, rest;
    } else if s != "" && IsMark(s[|s| - 1]) {
      var more, rest := DropMarksExactly(s[..|s| - 1]);
      before, after := more, rest + [s[|s| - 1]];
    }
  }

  // ----- where an item of an answer comes from

  /** The step committed this binding file. */
  predicate CommittedBy(file: BindingFile, step: Step) {
    && step.CommitStep? && CommitFault(step.reference, step.approval, step.structured).None?
    && file == BindingOf(step.reference, step.approval)
  }

  lemma StepBindings(m: Memory, step: Step, file: BindingFile)
    requires file in Apply(m, step).store.bindings
    ensures file in m.store.bindings || CommittedBy(file, step)
  {
    hide CommitFault, BindingOf, LocalItems, Pack, LookupFault, Evict;
    if step.CommitStep? {
      var s := WriteObject(m.store, step.reference.sha256).0;
      if file !in s.bindings {
        WrittenBindings(s, BindingOf(step.reference, step.approval), file);
      }
    }
  }

  lemma WrittenBindings(s: Store, file: BindingFile, other: BindingFile)
    requires other in WriteBinding(s, file).0.bindings
    ensures other in s.bindings || other == file
  {
  }

  lemma {:induction false} BindingsAreCommitted(ms: seq<Memory>, steps: seq<Step>, i: nat, file: BindingFile) returns (k: nat)
    requires History(ms, steps) && i < |ms| && ms[0].store.bindings == [] && file in ms[i].store.bindings
    ensures k < i && CommittedBy(file, steps[k])
  {
    hide Apply, CommittedBy;
    StepBindings(ms[i - 1], steps[i - 1], file);
    if CommittedBy(file, steps[i - 1]) {
      k := i - 1;
    } else {
      k := BindingsAreCommitted(ms, steps, i - 1, file);
    }
  }

  /** The item is a cut of this one. */
  predicate CutOf(cut: Item, item: Item) {
    cut == item.(summary := cut.summary) && cut.summary <= Strip(item.summary)
  }

  lemma {:induction false} PackedIsCut(items: seq<Item>, kept: seq<Item>, b: MemoryBudget, cut: Item)
    requires cut in PackFrom(items, kept, b) && cut !in kept
    ensures exists item :: item in items && CutOf(cut, item)
    decreases |items|
  {
    hide FitsCut, PrefixTooLong, Strip;
    var k := Longest(kept, items[0], |Strip(items[0].summary)|, b);
    assert items == [items[0]] + items[1..];
    if PrefixTooLong(kept, items[0], b) || k == 0 {
      PackedIsCut(items[1..], kept, b, cut);
    } else if cut == Cut(items[0], k) {
      assert items[0] in items && CutOf(cut, items[0]);
    } else {
      PackedIsCut(items[1..], kept + [Cut(items[0], k)], b, cut);
    }
  }

  lemma TrimmedFrom(items: seq<Item>, item: Item)
    requires item in Trimmed(items)
    ensures exists other :: other in items && item == TrimmedItem(other)
  {
    hide Trimmed, Strip;
    var i :| 0 <= i < |items| && Trimmed(items)[i] == item;
    TrimmedAt(items, i);
    assert items[i] in items;
  }

  /** A trimmed cut is a cut. */
  lemma TrimmedCut(cut: Item, item: Item)
    requires CutOf(cut, item) && cut.summary != "" && !IsSpace(cut.summary[0])
    ensures CutOf(TrimmedItem(cut), item)
  {
    assert StripLeft(cut.summary) == cut.summary;
  }

  lemma AnsweredIsCut(items: seq<Item>, b: MemoryBudget, item: Item)
    requires item in Trimmed(Pack(items, b))
    ensures exists other :: other in items && CutOf(item, other)
  {
    hide PackFrom, Trimmed, TrimmedItem, CutOf, IsSpace;
    TrimmedFrom(Pack(items, b), item);
    var cut :| cut in Pack(items, b) && item == TrimmedItem(cut);
    PackFromStarted(items, [], b);
    PackedIsCut(items, [], b, cut);
    var other :| other in items && CutOf(cut, other);
    TrimmedCut(cut, other);
  }

  /** The step committed, with a Human's approval, a reference of this role that the item is a cut of. */
  predicate Backs(step: Step, role: string, item: Item) {
    && step.CommitStep? && step.reference.role == role
    && item.sha256 == step.reference.sha256 && item.uri == step.reference.uri && item.summary <= Strip(step.reference.summary)
    && Upper(Strip(step.approval.decision)) in
         ["APPROVED", "APPROVE_PASS", "CONFIRM_BLOCK", "REQUEST_EVIDENCE", "HUMAN_APPROVED", "SIGNED_PASS"]
    && Strip(step.approval.signer) != ""
  }

  lemma CommittedBacks(file: BindingFile, step: Step, role: string, query: string, objects: map<string, Sealed<ObjectBody>>, item: Item)
    requires CommittedBy(file, step) && Relevant(file, role, query, objects) && CutOf(item, ItemOf(file.record.body))
    ensures Backs(step, role, item)
  {
    hide Score, Segment, Upper, IsSha256, Strip;
    StripIsIdempotent(step.reference.summary);
  }

  /**
   * Over every history that starts with no binding on file, whatever a lookup
   * answers was committed for its trimmed role with a Human's approval: the same
   * digest, the same reference, and a cut of the committed summary.
   */
  lemma AnswersAreCommitted(ms: seq<Memory>, steps: seq<Step>, i: nat, runId: string, role: string, query: string,
                            budget: MemoryBudget, item: Item) returns (k: nat)
    requires History(ms, steps) && i < |ms| && ms[0].store.bindings == [] && ms[0].cache == map[]
    requires
      var answer := Lookup(ms[i], runId, role, query, budget).1;
      answer.Ok? && item in answer.value.items
    ensures k < i && Backs(steps[k], Strip(role), item)
  {
    hide Apply, Lookup, LocalItems, Relevant, Pack, Trimmed, Backs, CommittedBy, CutOf, Strip, Coherent, Presentable;
    var s, index := ms[i].store, LocalItems(ms[i].store, Strip(role), Strip(query));
    CoherentAt(ms, steps, i);
    AcceptedLookup(ms[i], runId, role, query, budget);
    LookupAnswers(ms[i], runId, role, query, budget);
    AnsweredIsCut(index, budget, item);
    var other :| other in index && CutOf(item, other);
    IndexIsExact(s, Strip(role), Strip(query));
    var n: nat :| Stands(s.bindings, n, Strip(role), Strip(query), s.objects) && ItemOf(s.bindings[n].record.body) == other;
    k := BindingsAreCommitted(ms, steps, i, s.bindings[n]);
    CommittedBacks(s.bindings[n], steps[k], Strip(role), Strip(query), s.objects, item);
  }

  lemma AcceptedLookup(m: Memory, runId: string, role: string, query: string, budget: MemoryBudget)
    requires Lookup(m, runId, role, query, budget).1.Ok?
    ensures LookupFault(runId, role, query).None?
  {
    hide LookupFault, LocalItems, Pack, Text, TokenEstimate, Strip;
  }

  // ----- which lookups the cache answers

  /** What a lookup injects is what it counts, and it stays within the budget. */
  lemma AnswerIsCounted(m: Memory, runId: string, role: string, query: string, budget: MemoryBudget)
    requires Lookup(m, runId, role, query, budget).1.Ok?
    ensures
      var a := Lookup(m, runId, role, query, budget).1.value;
      && a.characters == |Text(a.items)| <= budget.maxCharacters && a.tokens == TokenEstimate(Text(a.items)) <= budget.maxTokens
      && |a.items| <= budget.maxItems
  {
    hide LookupFault, LocalItems, Pack, Text, TokenEstimate, Strip;
    var key := CacheKey(Strip(runId), Strip(role), Sha256(Strip(query)), budget);
    if key in m.cache {
      PackWithinBudget(m.cache[key], budget);
    } else {
      PackWithinBudget(Pack(LocalItems(m.store, Strip(role), Strip(query)), budget), budget);
    }
  }

  /** A lookup asked again is answered from the cache with the same items, and changes nothing. */
  lemma RepeatedLookupHits(m: Memory, runId: string, role: string, query: string, budget: MemoryBudget)
    ensures
      var (m', first) := Lookup(m, runId, role, query, budget);
      && m'.store == m.store
      && (first.Ok? ==> Lookup(m', runId, role, query, budget) == (m', Ok(first.value.(cacheHit := true))))
  {
    hide LookupFault, LocalItems, Pack, Text, TokenEstimate, Strip;
  }

  /** An accepted commit makes its own role's next lookup read the store, and no other role's. */
  lemma CommitForgetsItsRole(m: Memory, r: Reference, a: Approval, structured: bool, writes: nat,
                             runId: string, role: string, query: string, budget: MemoryBudget)
    requires Commit(m, r, a, structured, writes).1.Ok? && LookupFault(runId, role, query).None?
    ensures
      var before := Lookup(m, runId, role, query, budget).1;
      var after := Lookup(Commit(m, r, a, structured, writes).0, runId, role, query, budget).1;
      before.Ok? && after.Ok? && (after.value.cacheHit <==> before.value.cacheHit && Strip(role) != r.role)
  {
    hide LookupFault, LocalItems, Pack, Text, TokenEstimate, Strip, Commit;
    CommittedCache(m, r, a, structured, writes);
  }

  lemma CommittedCache(m: Memory, r: Reference, a: Approval, structured: bool, writes: nat)
    requires Commit(m, r, a, structured, writes).1.Ok?
    ensures forall key ::
      key in Commit(m, r, a, structured, writes).0.cache <==> key in m.cache && key.role != r.role
  {
    hide CommitFault, WriteObject, WriteBinding, BindingOf;
  }

  // ----- refusals and character classes

  /** Digests are 64 lower-case hexadecimal digits. */
  lemma DigestExactly(s: string)
    ensures IsSha256(s) <==> |s| == 64 && forall i :: 0 <= i < |s| ==> s[i] in "0123456789abcdef"
  {
    forall i | 0 <= i < |s|
      ensures '0' <= s[i] <= '9' || 'a' <= s[i] <= 'f' <==> s[i] in "0123456789abcdef"
    {
      HexCharacter(s[i]);
    }
  }

  lemma HexCharacter(c: char)
    ensures '0' <= c <= '9' || 'a' <= c <= 'f' <==> c in "0123456789abcdef"
  {
  }

  /** What a segment keeps and a word is made of. */
  lemma CharactersExactly(c: char)
    ensures IsSafe(c) <==> IsLetterOrDigit(c) || c in "._-"
    ensures IsWordChar(c) <==> IsLetterOrDigit(c) || c in "_-"
  {
    hide DIGITS, SMALL, CAPITAL;
    ClassesExactly(c);
  }

  /** What each refusal of a commit says. */
  predicate CommitDefect(r: Reference, a: Approval, structured: bool, reason: Reason) {
    match reason
    case ReferenceInvalid =>
      || Segment(r.runId) == "" || |Segment(r.runId)| > 160 || Segment(r.role) == "" || |Segment(r.role)| > 160
      || Strip(r.summary) == "" || |Strip(r.summary)| > 4096 || '\0' in Strip(r.summary) || !IsSha256(r.sha256)
    case SignatureRequired =>
      || Upper(Strip(a.decision)) !in
           ["APPROVED", "APPROVE_PASS", "CONFIRM_BLOCK", "REQUEST_EVIDENCE", "HUMAN_APPROVED", "SIGNED_PASS"]
      || Strip(a.signer) == "" || Strip(a.signedAt) == "" || !IsSha256(a.signature)
    case SummaryNotStructured => r.role == "finflux-execution-control" && !structured
    case _ => false
  }

  /** The reason given is a true one, and a commit is refused before any write exactly if there is one. */
  lemma CommitRefusalsExactly(r: Reference, a: Approval, structured: bool, reason: Reason)
    ensures CommitFault(r, a, structured) == Some(reason) ==> CommitDefect(r, a, structured, reason)
    ensures CommitDefect(r, a, structured, reason) ==> CommitFault(r, a, structured).Some?
  {
    hide Segment, Strip, Upper, IsSha256;
  }

  /** A lookup is refused exactly for a Run or role that has no segment, or else a query that is blank or too long. */
  lemma LookupRefusalsExactly(m: Memory, runId: string, role: string, query: string, budget: MemoryBudget)
    ensures
      var r := Lookup(m, runId, role, query, budget).1;
      var segments := Segment(runId) != "" && |Segment(runId)| <= 160 && Segment(role) != "" && |Segment(role)| <= 160;
      && (r == Err(SegmentInvalid) <==> !segments)
      && (r == Err(QueryInvalid) <==> segments && (Strip(query) == "" || |Strip(query)| > 4096))
      && (r.Err? ==> r.error in {SegmentInvalid, QueryInvalid})
  {
    hide Segment, Strip, LocalItems, Pack, Text, TokenEstimate;
  }

  const SPACES := "\t\n\U{B}\U{C}\r\U{1C}\U{1D}\U{1E}\U{1F} \U{85}\U{A0}\U{1680}"
  const WIDE_SPACES := "\U{2000}\U{2001}\U{2002}\U{2003}\U{2004}\U{2005}\U{2006}\U{2007}\U{2008}\U{2009}\U{200A}\U{2028}\U{2029}\U{202F}\U{205F}\U{3000}"

  /** The blanks that are stripped, and the characters that cost a token each, by their code points. */
  lemma CodePointsExactly(c: char)
    ensures IsSpace(c) <==> c in SPACES || c in WIDE_SPACES
    ensures IsCjk(c) <==> 13312 <= c as int < 40960 || 63744 <= c as int < 64256
  {
  }
}
