/**
 * Budgeted recall: the greedy packer that cuts memory summaries to a character,
 * token and item budget with a binary search over each summary's prefixes.
 */
module BoundedRecall {

  datatype Budget = Budget(maxCharacters: int, maxTokens: int, maxItems: int)

  type MemoryBudget = b: Budget |
    32 <= b.maxCharacters <= 16000 && 8 <= b.maxTokens <= 4000 && 1 <= b.maxItems <= 20
    witness Budget(1200, 300, 4)

  datatype Item = Item(summary: string, uri: string, sha256: string)

  // ----- text and what it costs

  predicate IsCjk(c: char) {
    '\U{3400}' <= c <= '\U{9FFF}' || '\U{F900}' <= c <= '\U{FAFF}'
  }

  function Cjk(text: string): (n: nat)
    ensures n <= |text|
  {
    if text == "" then 0 else (if IsCjk(text[0]) then 1 else 0) + Cjk(text[1..])
  }

  /** CJK characters count one for one, the others by started groups of four. */
  function TokenEstimate(text: string): nat {
    Cjk(text) + (|text| - Cjk(text) + 3) / 4
  }

  predicate Fits(text: string, b: MemoryBudget) {
    |text| <= b.maxCharacters && TokenEstimate(text) <= b.maxTokens
  }

  lemma {:induction false} CjkJoin(a: string, c: string)
    ensures Cjk(a + c) == Cjk(a) + Cjk(c)
  {
    if a == "" {
      assert a + c == c;
    } else {
      assert (a + c)[1..] == a[1..] + c;
      CjkJoin(a[1..], c);
    }
  }

  /** The estimate never falls when a text grows at its end. */
  lemma EstimateMonotone(a: string, c: string)
    requires a <= c
    ensures TokenEstimate(a) <= TokenEstimate(c)
  {
    assert c == a + c[|a|..];
    CjkJoin(a, c[|a|..]);
  }

  predicate IsSpace(c: char) {
    || '\U{9}' <= c <= '\U{D}' || '\U{1C}' <= c <= '\U{20}' || c == '\U{85}' || c == '\U{A0}' || c == '\U{1680}'
    || '\U{2000}' <= c <= '\U{200A}' || c == '\U{2028}' || c == '\U{2029}' || c == '\U{202F}' || c == '\U{205F}'
    || c == '\U{3000}'
  }

  function StripLeft(s: string): (r: string)
    ensures |r| <= |s| && (r == "" || !IsSpace(r[0]))
  {
    if s != "" && IsSpace(s[0]) then StripLeft(s[1..]) else s
  }

  function StripRight(s: string): (r: string)
    ensures r <= s && (r == "" || !IsSpace(r[|r| - 1]))
  {
    if s != "" && IsSpace(s[|s| - 1]) then StripRight(s[..|s| - 1]) else s
  }

  function Strip(s: string): string {
    StripRight(StripLeft(s))
  }

  function Prefix(item: Item): string {
    item.sha256 + " | " + item.uri + " | "
  }

  function Line(item: Item): string {
    Prefix(item) + item.summary
  }

  /** The injected text of a list of items, one line each. */
  function Text(items: seq<Item>): string {
    if items == [] then ""
    else if |items| == 1 then Line(items[0])
    else Text(items[..|items| - 1]) + "\n" + Line(items[|items| - 1])
  }

  function Cut(item: Item, k: nat): Item
    requires k <= |Strip(item.summary)|
  {
    item.(summary := Strip(item.summary)[..k])
  }

  predicate FitsCut(kept: seq<Item>, item: Item, k: nat, b: MemoryBudget)
    requires k <= |Strip(item.summary)|
  {
    Fits(Text(kept + [Cut(item, k)]), b)
  }

  lemma TextOf(kept: seq<Item>, item: Item)
    ensures Text(kept + [item]) == (if kept == [] then "" else Text(kept) + "\n") + Line(item)
  {
    assert (kept + [item])[..|kept|] == kept;
  }

  /** A shorter cut fits wherever a longer one does: why the binary search is right. */
  lemma FitsDownward(kept: seq<Item>, item: Item, j: nat, k: nat, b: MemoryBudget)
    requires j <= k <= |Strip(item.summary)| && FitsCut(kept, item, k, b)
    ensures FitsCut(kept, item, j, b)
  {
    TextOf(kept, Cut(item, j));
    TextOf(kept, Cut(item, k));
    EstimateMonotone(Text(kept + [Cut(item, j)]), Text(kept + [Cut(item, k)]));
  }

  // ----- the packer as a function

  /** The longest cut of at most n characters that fits, or 0. */
  function Longest(kept: seq<Item>, item: Item, n: nat, b: MemoryBudget): (k: nat)
    requires n <= |Strip(item.summary)|
    ensures k <= n && (k > 0 ==> FitsCut(kept, item, k, b))
    ensures forall j :: k < j <= n ==> !FitsCut(kept, item, j, b)
  {
    if n == 0 || FitsCut(kept, item, n, b) then n else Longest(kept, item, n - 1, b)
  }

  predicate PrefixTooLong(kept: seq<Item>, item: Item, b: MemoryBudget) {
    |(if kept == [] then "" else "\n") + Prefix(item)| > b.maxCharacters
  }

  function PackFrom(items: seq<Item>, kept: seq<Item>, b: MemoryBudget): seq<Item> {
    if items == [] || |kept| >= b.maxItems then kept
    else if PrefixTooLong(kept, items[0], b) then PackFrom(items[1..], kept, b)
    else
      var k := Longest(kept, items[0], |Strip(items[0].summary)|, b);
      if k == 0 then PackFrom(items[1..], kept, b)
      else PackFrom(items[1..], kept + [Cut(items[0], k)], b)
  }

  function Pack(items: seq<Item>, b: MemoryBudget): seq<Item> {
    PackFrom(items, [], b)
  }

  // ----- the packer as the source runs it

  method LongestCut(kept: seq<Item>, item: Item, b: MemoryBudget) returns (low: nat)
    ensures low == Longest(kept, item, |Strip(item.summary)|, b)
  {
    var high := |Strip(item.summary)|;
    low := 0;
    while low < high
      invariant 0 <= low <= high <= |Strip(item.summary)|
      invariant low > 0 ==> FitsCut(kept, item, low, b)
      invariant forall j :: high < j <= |Strip(item.summary)| ==> !FitsCut(kept, item, j, b)
    {
      var middle := (low + high + 1) / 2;
      if FitsCut(kept, item, middle, b) {
        low := middle;
      } else {
        forall j | middle <= j <= |Strip(item.summary)|
          ensures !FitsCut(kept, item, j, b)
        {
          if FitsCut(kept, item, j, b) {
            FitsDownward(kept, item, middle, j, b);
          }
        }
        high := middle - 1;
      }
    }
  }

  method BoundedItems(items: seq<Item>, b: MemoryBudget) returns (accepted: seq<Item>, characters: nat, tokens: nat)
    ensures accepted == Pack(items, b)
    ensures characters == |Text(accepted)| && tokens == TokenEstimate(Text(accepted))
  {
    accepted := [];
    var i := 0;
    while i < |items| && |accepted| < b.maxItems
      invariant 0 <= i <= |items|
      invariant PackFrom(items[i..], accepted, b) == Pack(items, b)
    {
      var raw := items[i];
      assert items[i..][0] == raw && items[i..][1..] == items[i + 1..];
      i := i + 1;
      if !PrefixTooLong(accepted, raw, b) {
        var low := LongestCut(accepted, raw, b);
        if low > 0 {
          accepted := accepted + [Cut(raw, low)];
        }
      }
    }
    return accepted, |Text(accepted)|, TokenEstimate(Text(accepted));
  }

  // ----- what the packer promises

  /** "cut" is a non-empty prefix of the item's summary that fits, and one more character would not. */
  ghost predicate BestCut(kept: seq<Item>, item: Item, cut: Item, b: MemoryBudget) {
    exists k: nat ::
      && 0 < k <= |Strip(item.summary)|
      && cut == Cut(item, k)
      && FitsCut(kept, item, k, b)
      && (k < |Strip(item.summary)| ==> !FitsCut(kept, item, k + 1, b))
  }

  /** Not even one character of the item's summary fits behind the items kept so far. */
  ghost predicate NoRoom(kept: seq<Item>, item: Item, b: MemoryBudget) {
    Strip(item.summary) == "" || !FitsCut(kept, item, 1, b)
  }

  /** Greedy packing, said without computing it: "more" follows "kept", item by item, in order. */
  ghost predicate Greedy(items: seq<Item>, kept: seq<Item>, more: seq<Item>, b: MemoryBudget)
    decreases |items|
  {
    if items == [] || |kept| >= b.maxItems then more == []
    else if more != [] && BestCut(kept, items[0], more[0], b) then
      Greedy(items[1..], kept + [more[0]], more[1..], b)
    else NoRoom(kept, items[0], b) && Greedy(items[1..], kept, more, b)
  }

  lemma LongPrefixHasNoRoom(kept: seq<Item>, item: Item, b: MemoryBudget)
    requires PrefixTooLong(kept, item, b)
    ensures NoRoom(kept, item, b)
  {
    if Strip(item.summary) != "" {
      TextOf(kept, Cut(item, 1));
    }
  }

  lemma RoomForLess(kept: seq<Item>, item: Item, cut: Item, b: MemoryBudget)
    requires BestCut(kept, item, cut, b)
    ensures !NoRoom(kept, item, b)
  {
    var k: nat :| 0 < k <= |Strip(item.summary)| && cut == Cut(item, k) && FitsCut(kept, item, k, b);
    FitsDownward(kept, item, 1, k, b);
  }

  lemma SkipIsGreedy(items: seq<Item>, kept: seq<Item>, more: seq<Item>, b: MemoryBudget)
    requires items != [] && |kept| < b.maxItems && NoRoom(kept, items[0], b)
    requires Greedy(items[1..], kept, more, b)
    ensures Greedy(items, kept, more, b)
  {
    hide FitsCut, Cut, NoRoom, BestCut;
    if more != [] && BestCut(kept, items[0], more[0], b) {
      RoomForLess(kept, items[0], more[0], b);
    }
  }

  lemma NothingFits(kept: seq<Item>, item: Item, b: MemoryBudget)
    requires Longest(kept, item, |Strip(item.summary)|, b) == 0
    ensures NoRoom(kept, item, b)
  {
    hide FitsCut;
  }

  lemma LongestIsBest(kept: seq<Item>, item: Item, k: nat, b: MemoryBudget)
    requires 0 < k == Longest(kept, item, |Strip(item.summary)|, b)
    ensures BestCut(kept, item, Cut(item, k), b)
  {
    assert k < |Strip(item.summary)| ==> !FitsCut(kept, item, k + 1, b);
  }

  lemma {:induction false} PackFromGreedy(items: seq<Item>, kept: seq<Item>, b: MemoryBudget) returns (more: seq<Item>)
    ensures PackFrom(items, kept, b) == kept + more
    ensures Greedy(items, kept, more, b)
    decreases |items|
  {
    hide FitsCut, Cut, PrefixTooLong, NoRoom, BestCut;
    if items == [] || |kept| >= b.maxItems {
      more := [];
    } else {
      var k := Longest(kept, items[0], |Strip(items[0].summary)|, b);
      if PrefixTooLong(kept, items[0], b) || k == 0 {
        if PrefixTooLong(kept, items[0], b) {
          LongPrefixHasNoRoom(kept, items[0], b);
        } else {
          NothingFits(kept, items[0], b);
        }
        more := PackFromGreedy(items[1..], kept, b);
        SkipIsGreedy(items, kept, more, b);
      } else {
        var cut := Cut(items[0], k);
        LongestIsBest(kept, items[0], k, b);
        var rest := PackFromGreedy(items[1..], kept + [cut], b);
        more := [cut] + rest;
        assert more[1..] == rest && kept + [cut] + rest == kept + more;
      }
    }
  }

  lemma BestCutIsUnique(kept: seq<Item>, item: Item, one: Item, other: Item, b: MemoryBudget)
    requires BestCut(kept, item, one, b) && BestCut(kept, item, other, b)
    ensures one == other
  {
    hide FitsCut, Strip, Cut;
    var n := |Strip(item.summary)|;
    var j: nat :| 0 < j <= n && one == Cut(item, j) && FitsCut(kept, item, j, b) && (j < n ==> !FitsCut(kept, item, j + 1, b));
    var k: nat :| 0 < k <= n && other == Cut(item, k) && FitsCut(kept, item, k, b) && (k < n ==> !FitsCut(kept, item, k + 1, b));
    if j < k {
      FitsDownward(kept, item, j + 1, k, b);
    } else if k < j {
      FitsDownward(kept, item, k + 1, j, b);
    }
  }

  lemma {:induction false} GreedyIsUnique(items: seq<Item>, kept: seq<Item>, one: seq<Item>, other: seq<Item>, b: MemoryBudget)
    requires Greedy(items, kept, one, b) && Greedy(items, kept, other, b)
    ensures one == other
    decreases |items|
  {
    hide FitsCut, Cut, NoRoom, BestCut;
    if items != [] && |kept| < b.maxItems {
      if one != [] && BestCut(kept, items[0], one[0], b) {
        RoomForLess(kept, items[0], one[0], b);
        BestCutIsUnique(kept, items[0], one[0], other[0], b);
        GreedyIsUnique(items[1..], kept + [one[0]], one[1..], other[1..], b);
        assert one == [one[0]] + one[1..] && other == [other[0]] + other[1..];
      } else if other != [] && BestCut(kept, items[0], other[0], b) {
        RoomForLess(kept, items[0], other[0], b);
      } else {
        GreedyIsUnique(items[1..], kept, one, other, b);
      }
    }
  }

  /**
   * The packer is exactly greedy packing: an item is kept with the longest prefix
   * of its stripped summary that fits behind the ones before it, and is left out
   * only when not one character fits or the item limit is reached.
   */
  lemma PackIsGreedy(items: seq<Item>, packed: seq<Item>, b: MemoryBudget)
    ensures packed == Pack(items, b) <==> Greedy(items, [], packed, b)
  {
    hide Greedy, PackFrom;
    var more := PackFromGreedy(items, [], b);
    assert [] + more == more;
    if Greedy(items, [], packed, b) {
      GreedyIsUnique(items, [], packed, more, b);
    }
  }

  /** The injected text is within all three limits. */
  lemma {:induction false} PackFromWithinBudget(items: seq<Item>, kept: seq<Item>, b: MemoryBudget)
    requires Fits(Text(kept), b) && |kept| <= b.maxItems
    ensures Fits(Text(PackFrom(items, kept, b)), b) && |PackFrom(items, kept, b)| <= b.maxItems
    decreases |items|
  {
    hide Fits, Text, Cut, Strip, PrefixTooLong;
    if items != [] && |kept| < b.maxItems {
      var k := Longest(kept, items[0], |Strip(items[0].summary)|, b);
      if PrefixTooLong(kept, items[0], b) || k == 0 {
        PackFromWithinBudget(items[1..], kept, b);
      } else {
        PackFromWithinBudget(items[1..], kept + [Cut(items[0], k)], b);
      }
    }
  }

  lemma PackWithinBudget(items: seq<Item>, b: MemoryBudget)
    ensures Fits(Text(Pack(items, b)), b) && |Pack(items, b)| <= b.maxItems
  {
    PackFromWithinBudget(items, [], b);
  }

  // ----- packing what is already packed

  function TrimmedItem(item: Item): Item {
    item.(summary := Strip(item.summary))
  }

  function Trimmed(items: seq<Item>): (r: seq<Item>)
    ensures |r| == |items|
  {
    if items == [] then [] else Trimmed(items[..|items| - 1]) + [TrimmedItem(items[|items| - 1])]
  }

  /** a costs no more than c, character class by character class. */
  predicate Cheaper(a: string, c: string) {
    Cjk(a) <= Cjk(c) && |a| - Cjk(a) <= |c| - Cjk(c)
  }

  lemma CheaperFits(a: string, c: string, b: MemoryBudget)
    requires Cheaper(a, c) && Fits(c, b)
    ensures Fits(a, b)
  {
  }

  lemma CheaperJoin(a: string, a': string, c: string, c': string)
    requires Cheaper(a, c) && Cheaper(a', c')
    ensures Cheaper(a + a', c + c')
  {
    CjkJoin(a, a');
    CjkJoin(c, c');
  }

  lemma PrefixCheaper(a: string, c: string)
    requires a <= c
    ensures Cheaper(a, c)
  {
    assert c == a + c[|a|..];
    CjkJoin(a, c[|a|..]);
  }

  lemma {:induction false} StripLeftCheaper(s: string)
    ensures Cheaper(StripLeft(s), s)
  {
    if s != "" && IsSpace(s[0]) {
      StripLeftCheaper(s[1..]);
    }
  }

  lemma LineTrims(item: Item)
    ensures Cheaper(Line(TrimmedItem(item)), Line(item))
  {
    hide Cjk;
    PrefixCheaper(Strip(item.summary), StripLeft(item.summary));
    StripLeftCheaper(item.summary);
    PrefixCheaper(Prefix(item), Prefix(item));
    CheaperJoin(Prefix(item), Strip(item.summary), Prefix(item), item.summary);
  }

  lemma {:induction false} TextTrims(items: seq<Item>)
    ensures Cheaper(Text(Trimmed(items)), Text(items))
  {
    hide Cheaper, TrimmedItem, Line;
    if items == [] {
      PrefixCheaper("", "");
    } else {
      var before, last := items[..|items| - 1], items[|items| - 1];
      LineTrims(last);
      TextOf(Trimmed(before), TrimmedItem(last));
      if before != [] {
        TextTrims(before);
        PrefixCheaper("\n", "\n");
        CheaperJoin(Text(Trimmed(before)), "\n", Text(before), "\n");
        CheaperJoin(Text(Trimmed(before)) + "\n", Line(TrimmedItem(last)), Text(before) + "\n", Line(last));
      }
    }
  }

  lemma {:induction false} TextGrows(items: seq<Item>, n: nat)
    requires n <= |items|
    ensures Text(items[..n]) <= Text(items)
    decreases |items|
  {
    if n == |items| {
      assert items[..n] == items;
    } else {
      TextGrows(items[..|items| - 1], n);
      assert items[..|items| - 1][..n] == items[..n];
    }
  }

  lemma {:induction false} TrimmedPrefix(items: seq<Item>, n: nat)
    requires n < |items|
    ensures Trimmed(items[..n + 1]) == Trimmed(items[..n]) + [TrimmedItem(items[n])]
  {
    assert items[..n + 1][..n] == items[..n];
  }

  /** A list that fits and has something to say in every line. */
  predicate Presentable(items: seq<Item>, b: MemoryBudget) {
    Fits(Text(items), b) && |items| <= b.maxItems && forall i :: 0 <= i < |items| ==> Strip(items[i].summary) != ""
  }

  lemma WholeLineFits(items: seq<Item>, n: nat, b: MemoryBudget)
    requires Presentable(items, b) && n < |items|
    ensures
      var kept, item := Trimmed(items[..n]), items[n];
      !PrefixTooLong(kept, item, b) && Longest(kept, item, |Strip(item.summary)|, b) == |Strip(item.summary)|
  {
    hide Text, Strip, Fits, Trimmed;
    var kept, item := Trimmed(items[..n]), items[n];
    TrimmedPrefix(items, n);
    assert Cut(item, |Strip(item.summary)|) == TrimmedItem(item);
    TextTrims(items[..n + 1]);
    TextGrows(items, n + 1);
    PrefixCheaper(Text(items[..n + 1]), Text(items));
    CheaperFits(Text(items[..n + 1]), Text(items), b);
    CheaperFits(Text(kept + [TrimmedItem(item)]), Text(items[..n + 1]), b);
    if PrefixTooLong(kept, item, b) {
      LongPrefixHasNoRoom(kept, item, b);
      FitsDownward(kept, item, 1, |Strip(item.summary)|, b);
    }
  }

  /** Packing a list that fits only trims its summaries. */
  lemma {:induction false} PackTrims(items: seq<Item>, n: nat, b: MemoryBudget)
    requires Presentable(items, b) && n <= |items|
    ensures PackFrom(items[n..], Trimmed(items[..n]), b) == Trimmed(items)
    decreases |items| - n
  {
    hide Strip, Fits, Text, Trimmed, PrefixTooLong;
    if n == |items| {
      assert items[..n] == items;
    } else {
      WholeLineFits(items, n, b);
      TrimmedPrefix(items, n);
      PackTrims(items, n + 1, b);
      assert items[n..][1..] == items[n + 1..];
      assert Cut(items[n], |Strip(items[n].summary)|) == TrimmedItem(items[n]);
    }
  }

  /** Every kept summary starts with a character that is not blank. */
  predicate Started(items: seq<Item>) {
    forall i :: 0 <= i < |items| ==> items[i].summary != "" && !IsSpace(items[i].summary[0])
  }

  lemma {:induction false} PackFromStarted(items: seq<Item>, kept: seq<Item>, b: MemoryBudget)
    requires Started(kept)
    ensures Started(PackFrom(items, kept, b))
    decreases |items|
  {
    hide FitsCut, PrefixTooLong;
    if items != [] && |kept| < b.maxItems {
      var k := Longest(kept, items[0], |Strip(items[0].summary)|, b);
      if PrefixTooLong(kept, items[0], b) || k == 0 {
        PackFromStarted(items[1..], kept, b);
      } else {
        PackFromStarted(items[1..], kept + [Cut(items[0], k)], b);
      }
    }
  }

  lemma {:induction false} StripKeepsStart(s: string)
    requires s != "" && !IsSpace(s[0])
    ensures StripRight(s) != ""
    decreases |s|
  {
    if IsSpace(s[|s| - 1]) {
      StripKeepsStart(s[..|s| - 1]);
    }
  }

  lemma PackedIsPresentable(items: seq<Item>, b: MemoryBudget)
    ensures Presentable(Pack(items, b), b)
  {
    var packed := Pack(items, b);
    PackWithinBudget(items, b);
    PackFromStarted(items, [], b);
    forall i | 0 <= i < |packed|
      ensures Strip(packed[i].summary) != ""
    {
      StripKeepsStart(packed[i].summary);
    }
  }

  /** Packing twice trims what a cut left blank at the end of a summary, and nothing else. */
  lemma RepackTrims(items: seq<Item>, b: MemoryBudget)
    ensures Pack(Pack(items, b), b) == Trimmed(Pack(items, b))
  {
    var packed := Pack(items, b);
    PackedIsPresentable(items, b);
    PackTrims(packed, 0, b);
    assert packed[0..] == packed && packed[..0] == [];
  }

  lemma {:induction false} TrimmedAt(items: seq<Item>, i: nat)
    requires i < |items|
    ensures Trimmed(items)[i] == TrimmedItem(items[i])
  {
    if i < |items| - 1 {
      TrimmedAt(items[..|items| - 1], i);
    }
  }

  predicate EndsBlank(s: string) {
    s != "" && IsSpace(s[|s| - 1])
  }

  lemma TrimChangesExactly(item: Item)
    requires item.summary != "" && !IsSpace(item.summary[0])
    ensures TrimmedItem(item) == item <==> !EndsBlank(item.summary)
  {
  }

  /** Packing again changes nothing exactly when no cut ended in a blank. */
  lemma RepackIsIdentityExactly(items: seq<Item>, b: MemoryBudget)
    ensures
      var packed := Pack(items, b);
      Pack(packed, b) == packed <==> forall i :: 0 <= i < |packed| ==> !EndsBlank(packed[i].summary)
  {
    hide PackFrom, Strip, EndsBlank, Trimmed, TrimmedItem;
    var packed := Pack(items, b);
    RepackTrims(items, b);
    PackFromStarted(items, [], b);
    forall i | 0 <= i < |packed|
      ensures Trimmed(packed)[i] == packed[i] <==> !EndsBlank(packed[i].summary)
    {
      TrimmedAt(packed, i);
      TrimChangesExactly(packed[i]);
    }
  }

  const HEX64 := seq(64, i => 'a')

  /** One summary that a budget of 77 characters cuts behind a blank. */
  const CUT_AT_BLANK := Item("a bcd", "urn:x", HEX64)
  const NARROW: MemoryBudget := Budget(77, 4000, 4)

  lemma PlainSummary()
    ensures Strip("a bcd") == "a bcd" && Strip("a ") == "a"
  {
    assert StripLeft("a bcd") == "a bcd" && StripLeft("a ") == "a ";
    assert "a "[..1] == "a";
  }

  lemma NarrowFits(k: nat)
    requires k <= |Strip(CUT_AT_BLANK.summary)|
    ensures FitsCut([], CUT_AT_BLANK, k, NARROW) <==> k <= 2
  {
    hide Strip, Cjk;
    assert |HEX64| == 64;
    TextOf([], Cut(CUT_AT_BLANK, k));
    assert [] + [Cut(CUT_AT_BLANK, k)] == [Cut(CUT_AT_BLANK, k)];
  }

  /** Packing this packing once more trims the blank, so the second packing is another one. */
  lemma RepackMayTrim()
    ensures Pack([CUT_AT_BLANK], NARROW) == [CUT_AT_BLANK.(summary := "a ")]
    ensures Pack(Pack([CUT_AT_BLANK], NARROW), NARROW) == [CUT_AT_BLANK.(summary := "a")]
  {
    hide FitsCut, HEX64, PackFrom, Strip;
    PlainSummary();
    NarrowFits(2);
    NarrowFits(3);
    var cut := CUT_AT_BLANK.(summary := "a ");
    assert "a bcd"[..2] == "a ";
    assert cut == Cut(CUT_AT_BLANK, 2);
    assert BestCut([], CUT_AT_BLANK, cut, NARROW);
    assert [CUT_AT_BLANK][1..] == [] && [cut][1..] == [];
    PackIsGreedy([CUT_AT_BLANK], [cut], NARROW);
    RepackTrims([CUT_AT_BLANK], NARROW);
    TrimmedPrefix([cut], 0);
    assert [cut][..1] == [cut] && [cut][..0] == [];
  }

  lemma {:induction false} StripIsIdempotent(s: string)
    ensures Strip(Strip(s)) == Strip(s)
  {
    var t := StripLeft(s);
    if StripRight(t) != "" {
      assert StripRight(t)[0] == t[0];
    }
  }

  /** From the second packing on nothing changes any more. */
  lemma RepackIsStable(items: seq<Item>, b: MemoryBudget)
    ensures
      var twice := Pack(Pack(items, b), b);
      Pack(twice, b) == twice
  {
    hide PackFrom, Strip;
    var packed := Pack(items, b);
    var twice := Pack(packed, b);
    RepackTrims(items, b);
    RepackTrims(packed, b);
    forall i | 0 <= i < |twice|
      ensures Trimmed(twice)[i] == twice[i]
    {
      TrimmedAt(twice, i);
      TrimmedAt(packed, i);
      StripIsIdempotent(packed[i].summary);
    }
    assert Trimmed(twice) == twice;
  }
}
