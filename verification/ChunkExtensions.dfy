/** Octets and the character classes of HTTP/1.1 framing. */
module Octets {
  type Octet = b: int | 0 <= b < 256

  type Octets = seq<Octet>

  const TAB: Octet := 0x09
  const LF: Octet := 0x0A
  const CR: Octet := 0x0D
  const SPACE: Octet := 0x20
  const DQUOTE: Octet := 0x22
  const COLON: Octet := 0x3A
  const SEMICOLON: Octet := 0x3B
  const EQUALS: Octet := 0x3D
  const BACKSLASH: Octet := 0x5C

  predicate IsBlank(b: Octet) {
    b == SPACE || b == TAB
  }

  predicate IsDigit(b: Octet) {
    0x30 <= b <= 0x39
  }

  predicate IsUpper(b: Octet) {
    0x41 <= b <= 0x5A
  }

  /** tchar, section 5.6.2 of RFC 9110. */
  predicate IsTchar(b: Octet) {
    || IsDigit(b) || IsUpper(b) || 0x61 <= b <= 0x7A
    || b == 0x21 || 0x23 <= b <= 0x27 || b == 0x2A || b == 0x2B || b == 0x2D || b == 0x2E
    || 0x5E <= b <= 0x60 || b == 0x7C || b == 0x7E
  }

  /** qdtext, section 5.6.4 of RFC 9110. */
  predicate IsQdText(b: Octet) {
    b == TAB || b == SPACE || b == 0x21 || 0x23 <= b <= 0x5B || 0x5D <= b <= 0x7E || b >= 0x80
  }

  /** What may follow the backslash of a quoted-pair, section 5.6.4 of RFC 9110. */
  predicate IsQuotable(b: Octet) {
    b == TAB || b == SPACE || 0x21 <= b <= 0x7E || b >= 0x80
  }

  predicate AllBlank(v: Octets) {
    forall i :: 0 <= i < |v| ==> IsBlank(v[i])
  }

  predicate AllTchar(v: Octets) {
    forall i :: 0 <= i < |v| ==> IsTchar(v[i])
  }
}

/**
 * Chunk extensions, section 7.1.1 of RFC 9112: the grammar as parse trees, the
 * index-walking checker, and the proof that it accepts the grammar exactly.
 */
module ChunkExtensions {
  import opened Basics
  import opened Octets

  // ----- the grammar

  datatype QuotedItem = Plain(b: Octet) | Escaped(b: Octet)

  datatype ExtensionValue =
    | NoValue
    | TokenValue(before: Octets, after: Octets, token: Octets)
    | QuotedValue(before: Octets, after: Octets, items: seq<QuotedItem>)

  /** BWS ";" BWS name [ BWS "=" BWS value ] */
  datatype Extension = Extension(before: Octets, after: Octets, name: Octets, value: ExtensionValue)

  predicate ItemsValid(items: seq<QuotedItem>) {
    forall i :: 0 <= i < |items| ==>
      match items[i]
      case Plain(b) => IsQdText(b)
      case Escaped(b) => IsQuotable(b)
  }

  predicate IsToken(v: Octets) {
    v != [] && AllTchar(v)
  }

  predicate ValueValid(v: ExtensionValue) {
    match v
    case NoValue => true
    case TokenValue(before, after, token) => AllBlank(before) && AllBlank(after) && IsToken(token)
    case QuotedValue(before, after, items) => AllBlank(before) && AllBlank(after) && ItemsValid(items)
  }

  predicate ExtensionValid(e: Extension) {
    AllBlank(e.before) && AllBlank(e.after) && IsToken(e.name) && ValueValid(e.value)
  }

  // The text of each part is given with whatever follows it.

  function ItemsText(items: seq<QuotedItem>, rest: Octets): Octets {
    if items == [] then rest
    else
      var more := ItemsText(items[1..], rest);
      match items[0]
      case Plain(b) => [b] + more
      case Escaped(b) => [BACKSLASH, b] + more
  }

  function ValueText(v: ExtensionValue, rest: Octets): Octets {
    match v
    case NoValue => rest
    case TokenValue(before, after, token) => before + ([EQUALS] + (after + (token + rest)))
    case QuotedValue(before, after, items) =>
      before + ([EQUALS] + (after + ([DQUOTE] + ItemsText(items, [DQUOTE] + rest))))
  }

  function ExtensionText(e: Extension, rest: Octets): Octets {
    e.before + ([SEMICOLON] + (e.after + (e.name + ValueText(e.value, rest))))
  }

  function ExtensionsText(es: seq<Extension>, tail: Octets): Octets {
    if es == [] then tail else ExtensionText(es[0], ExtensionsText(es[1..], tail))
  }

  predicate ExtensionsValid(es: seq<Extension>) {
    forall i :: 0 <= i < |es| ==> ExtensionValid(es[i])
  }

  /** The text of a list of extensions followed by optional blanks. */
  ghost predicate Derives(v: Octets, es: seq<Extension>, tail: Octets) {
    ExtensionsValid(es) && AllBlank(tail) && v == ExtensionsText(es, tail)
  }

  ghost predicate IsChunkExt(v: Octets) {
    exists es, tail :: Derives(v, es, tail)
  }

  // ----- reading a suffix

  function DropBlanks(v: Octets): (r: Octets)
    ensures |r| <= |v| && (r == [] || !IsBlank(r[0]))
  {
    if v != [] && IsBlank(v[0]) then DropBlanks(v[1..]) else v
  }

  function DropToken(v: Octets): (r: Octets)
    ensures |r| <= |v| && (r == [] || !IsTchar(r[0]))
  {
    if v != [] && IsTchar(v[0]) then DropToken(v[1..]) else v
  }

  /** The rest after the closing quote of a quoted-string whose opening quote is already read. */
  function DropQuoted(v: Octets): (r: Option<Octets>)
    ensures r.Some? ==> |r.value| < |v|
  {
    if v == [] then None
    else if v[0] == DQUOTE then Some(v[1..])
    else if v[0] == BACKSLASH then
      if |v| > 1 && IsQuotable(v[1]) then DropQuoted(v[2..]) else None
    else if IsQdText(v[0]) then DropQuoted(v[1..])
    else None
  }

  /** The rest after an optional value, given the text behind a name. */
  function DropValue(v: Octets): (r: Option<Octets>)
    ensures r.Some? ==> |r.value| <= |v|
  {
    var w := DropBlanks(v);
    if w == [] || w[0] == SEMICOLON then Some(w)
    else if w[0] != EQUALS then None
    else
      var x := DropBlanks(w[1..]);
      if x == [] then None
      else if x[0] == DQUOTE then DropQuoted(x[1..])
      else if IsTchar(x[0]) then Some(DropToken(x))
      else None
  }

  /** Whether the checker accepts this suffix. */
  predicate Accepts(v: Octets)
    decreases |v|
  {
    var w := DropBlanks(v);
    || w == []
    || (&& w[0] == SEMICOLON
        && var n := DropBlanks(w[1..]);
        && n != [] && IsTchar(n[0])
        && DropValue(DropToken(n)).Some?
        && Accepts(DropValue(DropToken(n)).value))
  }

  // ----- everything accepted has a parse tree

  lemma {:induction false} SplitBlanks(v: Octets) returns (blanks: Octets)
    ensures AllBlank(blanks) && v == blanks + DropBlanks(v)
  {
    if v != [] && IsBlank(v[0]) {
      var more := SplitBlanks(v[1..]);
      blanks := [v[0]] + more;
    } else {
      blanks := [];
    }
  }

  lemma {:induction false} SplitToken(v: Octets) returns (token: Octets)
    ensures AllTchar(token) && v == token + DropToken(v)
    ensures v != [] && IsTchar(v[0]) ==> token != []
  {
    if v != [] && IsTchar(v[0]) {
      var more := SplitToken(v[1..]);
      token := [v[0]] + more;
    } else {
      token := [];
    }
  }

  lemma {:induction false} SplitQuoted(v: Octets) returns (items: seq<QuotedItem>)
    requires DropQuoted(v).Some?
    ensures ItemsValid(items) && v == ItemsText(items, [DQUOTE] + DropQuoted(v).value)
  {
    if v[0] == DQUOTE {
      items := [];
    } else if v[0] == BACKSLASH {
      var more := SplitQuoted(v[2..]);
      items := [Escaped(v[1])] + more;
      assert items[1..] == more;
    } else {
      var more := SplitQuoted(v[1..]);
      items := [Plain(v[0])] + more;
      assert items[1..] == more;
    }
  }

  lemma SplitValue(v: Octets) returns (value: ExtensionValue, blanks: Octets)
    requires DropValue(v).Some?
    ensures ValueValid(value) && AllBlank(blanks)
    ensures v == ValueText(value, blanks + DropValue(v).value)
  {
    var before := SplitBlanks(v);
    var w := DropBlanks(v);
    if w == [] || w[0] == SEMICOLON {
      value, blanks := NoValue, before;
    } else {
      blanks := [];
      assert [] + DropValue(v).value == DropValue(v).value;
      var after := SplitBlanks(w[1..]);
      var x := DropBlanks(w[1..]);
      assert w == [EQUALS] + (after + x);
      if x[0] == DQUOTE {
        var items := SplitQuoted(x[1..]);
        assert x == [DQUOTE] + x[1..];
        value := QuotedValue(before, after, items);
      } else {
        var token := SplitToken(x);
        value := TokenValue(before, after, token);
      }
    }
  }

  lemma Regroup(a: Octets, b: Octets, c: Octets)
    ensures (a + b) + c == a + (b + c)
  {
  }

  lemma BlanksJoin(blanks: Octets, v: Octets, es: seq<Extension>, tail: Octets) returns (es': seq<Extension>, tail': Octets)
    requires AllBlank(blanks) && Derives(v, es, tail)
    ensures Derives(blanks + v, es', tail')
  {
    if es == [] {
      es', tail' := [], blanks + tail;
    } else {
      tail' := tail;
      es' := [es[0].(before := blanks + es[0].before)] + es[1..];
      assert es'[1..] == es[1..];
      var e, rest := es[0], ExtensionsText(es[1..], tail);
      var inner := [SEMICOLON] + (e.after + (e.name + ValueText(e.value, rest)));
      Regroup(blanks, e.before, inner);
      assert ExtensionText(es'[0], rest) == blanks + v;
    }
  }

  lemma {:induction false} AcceptedDerives(v: Octets) returns (es: seq<Extension>, tail: Octets)
    requires Accepts(v)
    ensures Derives(v, es, tail)
    decreases |v|
  {
    hide DropBlanks, DropToken, DropValue, ValueText;
    var before := SplitBlanks(v);
    var w := DropBlanks(v);
    if w == [] {
      assert v == before;
      es, tail := [], before;
    } else {
      var after := SplitBlanks(w[1..]);
      var n := DropBlanks(w[1..]);
      var name := SplitToken(n);
      var value, blanks := SplitValue(DropToken(n));
      var rest := DropValue(DropToken(n)).value;
      var more, end := AcceptedDerives(rest);
      more, end := BlanksJoin(blanks, rest, more, end);
      var e := Extension(before, after, name, value);
      assert w == [SEMICOLON] + w[1..];
      assert v == ExtensionText(e, blanks + rest);
      es, tail := [e] + more, end;
      assert es[1..] == more;
    }
  }

  // ----- every parse tree is accepted

  lemma {:induction false} DropBlanksOver(blanks: Octets, w: Octets)
    requires AllBlank(blanks)
    ensures DropBlanks(blanks + w) == DropBlanks(w)
  {
    if blanks != [] {
      assert (blanks + w)[1..] == blanks[1..] + w;
      DropBlanksOver(blanks[1..], w);
    } else {
      assert blanks + w == w;
    }
  }

  lemma {:induction false} DropTokenOver(token: Octets, w: Octets)
    requires AllTchar(token) && (w == [] || !IsTchar(w[0]))
    ensures DropToken(token + w) == w
  {
    if token != [] {
      assert (token + w)[1..] == token[1..] + w;
      DropTokenOver(token[1..], w);
    } else {
      assert token + w == w;
    }
  }

  lemma {:induction false} DropQuotedOver(items: seq<QuotedItem>, w: Octets)
    requires ItemsValid(items)
    ensures DropQuoted(ItemsText(items, [DQUOTE] + w)) == Some(w)
  {
    if items == [] {
      assert ([DQUOTE] + w)[1..] == w;
    } else {
      DropQuotedOver(items[1..], w);
      var more := ItemsText(items[1..], [DQUOTE] + w);
      assert items[0].Plain? ==> ([items[0].b] + more)[1..] == more;
      assert items[0].Escaped? ==> ([BACKSLASH, items[0].b] + more)[2..] == more;
    }
  }

  /** What may stand behind an extension: the next one, blanks, or nothing. */
  predicate Follows(w: Octets) {
    && (w == [] || w[0] == SEMICOLON || IsBlank(w[0]))
    && (DropBlanks(w) == [] || DropBlanks(w)[0] == SEMICOLON)
  }

  lemma FollowerStart(es: seq<Extension>, tail: Octets)
    requires ExtensionsValid(es) && AllBlank(tail)
    ensures Follows(ExtensionsText(es, tail))
  {
    if es == [] {
      DropBlanksOver(tail, []);
      assert tail + [] == tail;
    } else {
      var e := es[0];
      var rest := [SEMICOLON] + (e.after + (e.name + ValueText(e.value, ExtensionsText(es[1..], tail))));
      DropBlanksOver(e.before, rest);
      assert e.before == [] ==> e.before + rest == rest;
    }
  }

  lemma DropBehindEquals(before: Octets, after: Octets, x: Octets)
    requires AllBlank(before) && AllBlank(after) && x != [] && !IsBlank(x[0])
    ensures DropValue(before + ([EQUALS] + (after + x))) ==
            if x[0] == DQUOTE then DropQuoted(x[1..]) else if IsTchar(x[0]) then Some(DropToken(x)) else None
  {
    DropBlanksOver(before, [EQUALS] + (after + x));
    assert ([EQUALS] + (after + x))[1..] == after + x;
    DropBlanksOver(after, x);
  }

  lemma DropValueOver(value: ExtensionValue, w: Octets)
    requires ValueValid(value) && Follows(w)
    ensures DropValue(ValueText(value, w)) == Some(if value.NoValue? then DropBlanks(w) else w)
  {
    match value
    case NoValue =>
    case TokenValue(before, after, token) =>
      DropBehindEquals(before, after, token + w);
      DropTokenOver(token, w);
    case QuotedValue(before, after, items) =>
      var quoted := ItemsText(items, [DQUOTE] + w);
      assert ([DQUOTE] + quoted)[1..] == quoted;
      DropBehindEquals(before, after, [DQUOTE] + quoted);
      DropQuotedOver(items, w);
  }

  /** Greedy token reading stops exactly behind the name: nothing that may follow it is a tchar. */
  lemma DropNameOver(e: Extension, w: Octets)
    requires ExtensionValid(e) && Follows(w)
    ensures DropToken(e.name + ValueText(e.value, w)) == ValueText(e.value, w)
  {
    DropTokenOver(e.name, ValueText(e.value, w));
  }

  lemma AcceptsBlanks(v: Octets)
    ensures Accepts(DropBlanks(v)) == Accepts(v)
  {
    assert DropBlanks(DropBlanks(v)) == DropBlanks(v);
  }

  lemma ExtensionAccepted(e: Extension, w: Octets)
    requires ExtensionValid(e) && Follows(w) && Accepts(w)
    ensures Accepts(ExtensionText(e, w))
  {
    var behind := ValueText(e.value, w);
    var named := e.name + behind;
    var inner := [SEMICOLON] + (e.after + named);
    DropBlanksOver(e.before, inner);
    assert inner[1..] == e.after + named;
    DropBlanksOver(e.after, named);
    DropNameOver(e, w);
    DropValueOver(e.value, w);
    AcceptsBlanks(w);
  }

  lemma {:induction false} DerivedAccepted(es: seq<Extension>, tail: Octets)
    requires ExtensionsValid(es) && AllBlank(tail)
    ensures Accepts(ExtensionsText(es, tail))
  {
    if es == [] {
      FollowerStart(es, tail);
      DropBlanksOver(tail, []);
      assert tail + [] == tail;
    } else {
      DerivedAccepted(es[1..], tail);
      FollowerStart(es[1..], tail);
      ExtensionAccepted(es[0], ExtensionsText(es[1..], tail));
    }
  }

  /** The checker accepts exactly the chunk-ext language followed by optional blanks. */
  lemma AcceptsExactly(v: Octets)
    ensures Accepts(v) <==> IsChunkExt(v)
  {
    if Accepts(v) {
      var es, tail := AcceptedDerives(v);
    }
    if IsChunkExt(v) {
      var es, tail :| Derives(v, es, tail);
      DerivedAccepted(es, tail);
    }
  }

  // ----- the checker itself

  method SkipOws(value: Octets, start: nat) returns (index: nat)
    requires start <= |value|
    ensures start <= index <= |value| && value[index..] == DropBlanks(value[start..])
  {
    index := start;
    while index < |value| && IsBlank(value[index])
      invariant start <= index <= |value|
      invariant DropBlanks(value[index..]) == DropBlanks(value[start..])
    {
      assert value[index..][1..] == value[index + 1..];
      index := index + 1;
    }
  }

  method ConsumeToken(value: Octets, start: nat) returns (index: Option<nat>)
    requires start <= |value|
    ensures index.Some? <==> start < |value| && IsTchar(value[start])
    ensures index.Some? ==> start < index.value <= |value| && value[index.value..] == DropToken(value[start..])
  {
    var i := start;
    while i < |value| && IsTchar(value[i])
      invariant start <= i <= |value|
      invariant DropToken(value[i..]) == DropToken(value[start..])
    {
      assert value[i..][1..] == value[i + 1..];
      i := i + 1;
    }
    if i == start {
      return None;
    }
    return Some(i);
  }

  method ConsumeQuoted(value: Octets, start: nat) returns (index: Option<nat>)
    requires start <= |value|
    ensures index.Some? <==> DropQuoted(value[start..]).Some?
    ensures index.Some? ==> start < index.value <= |value|
                            && DropQuoted(value[start..]) == Some(value[index.value..])
  {
    var i := start;
    while i < |value|
      invariant start <= i <= |value|
      invariant DropQuoted(value[i..]) == DropQuoted(value[start..])
    {
      var b := value[i];
      assert value[i..][1..] == value[i + 1..];
      if b == DQUOTE {
        return Some(i + 1);
      }
      if b == BACKSLASH {
        i := i + 1;
        if i == |value| || !IsQuotable(value[i]) {
          return None;
        }
        assert value[i - 1..][2..] == value[i + 1..];
        i := i + 1;
      } else if IsQdText(b) {
        i := i + 1;
      } else {
        return None;
      }
    }
    return None;
  }

  /** The optional "= value" behind a name; the index comes back where the next extension may start. */
  method ConsumeValue(value: Octets, start: nat) returns (index: Option<nat>)
    requires start <= |value|
    ensures index.Some? <==> DropValue(value[start..]).Some?
    ensures index.Some? ==> start <= index.value <= |value|
                            && DropValue(value[start..]) == Some(value[index.value..])
  {
    var i := SkipOws(value, start);
    if i == |value| || value[i] == SEMICOLON {
      return Some(i);
    }
    if value[i] != EQUALS {
      return None;
    }
    assert value[i..][1..] == value[i + 1..];
    i := SkipOws(value, i + 1);
    if i == |value| {
      return None;
    }
    if value[i] != DQUOTE {
      index := ConsumeToken(value, i);
    } else {
      assert value[i..][1..] == value[i + 1..];
      index := ConsumeQuoted(value, i + 1);
    }
  }

  /** Walks an index over the extensions; every round moves it forward. */
  method ValidateChunkExtensions(value: Octets) returns (ok: bool)
    ensures ok <==> IsChunkExt(value)
  {
    hide IsChunkExt, DropValue, DropToken, DropBlanks, IsTchar;
    AcceptsExactly(value);
    var index := 0;
    while true
      invariant 0 <= index <= |value|
      invariant Accepts(value[index..]) == Accepts(value)
      decreases |value| - index
    {
      index := SkipOws(value, index);
      if index == |value| {
        return true;
      }
      if value[index] != SEMICOLON {
        return false;
      }
      assert value[index..][1..] == value[index + 1..];
      index := SkipOws(value, index + 1);
      var named := ConsumeToken(value, index);
      if named.None? {
        return false;
      }
      var next := ConsumeValue(value, named.value);
      if next.None? {
        return false;
      }
      index := next.value;
    }
  }
}
