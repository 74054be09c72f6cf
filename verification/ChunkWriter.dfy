/**
 * An independent writer of chunked bodies, made of text literals, and the proof
 * that the reader gives back what it writes.
 */
module ChunkWriter {
  import opened Basics
  import opened AsciiText
  import opened Octets
  import opened ChunkExtensions
  import opened ChunkedBody

  predicate IsAscii(s: string) {
    forall i :: 0 <= i < |s| ==> s[i] < '\U{80}'
  }

  function Ascii(s: string): (v: Octets)
    requires IsAscii(s)
    ensures |v| == |s|
  {
    seq(|s|, i requires 0 <= i < |s| => s[i] as int)
  }

  // ----- digits

  const LOWER_DIGITS := "0123456789abcdef"
  const UPPER_DIGITS := "0123456789ABCDEF"

  /** This octet is the hexadecimal digit d, in either case. */
  predicate Writes(b: Octet, d: nat) {
    d < 16 && (b == LOWER_DIGITS[d] as int || b == UPPER_DIGITS[d] as int)
  }

  /** The digits are exactly the characters of the two literals, each worth its place there. */
  lemma DigitsExactly(b: Octet, d: nat)
    ensures IsHex(b) && HexDigit(b) == d <==> Writes(b, d)
  {
  }

  /** The shortest hexadecimal text of a number. */
  function HexText(n: nat): (v: Octets)
    ensures v != []
  {
    (if n < 16 then [] else HexText(n / 16)) + [LOWER_DIGITS[n % 16] as int]
  }

  lemma {:induction false} HexTextIsRead(n: nat)
    ensures AllHex(HexText(n)) && HexValue(HexText(n)) == n
    ensures n > 0 ==> HexText(n)[0] != 0x30
    decreases n
  {
    var v, d := HexText(n), n % 16;
    assert Writes(LOWER_DIGITS[d] as int, d);
    DigitsExactly(LOWER_DIGITS[d] as int, d);
    if n < 16 {
      assert v == [LOWER_DIGITS[d] as int] && v[..0] == [];
    } else {
      HexTextIsRead(n / 16);
      assert v[..|v| - 1] == HexText(n / 16);
    }
  }

  /** A number of at most 8 MiB takes at most six digits. */
  lemma HexTextIsShort(n: nat)
    requires n <= 8388608
    ensures |HexText(n)| <= 6
  {
    HexTextIsRead(n);
    if |HexText(n)| > 6 {
      ShortcutIsSound(HexText(n));
      assert false;
    }
  }

  // ----- the writer

  function Joined(parts: seq<Octets>): Octets {
    if parts == [] then [] else parts[0] + Joined(parts[1..])
  }

  /** Each part as a chunk, the last chunk, no trailers, and what follows on the connection. */
  function Written(parts: seq<Octets>, rest: Octets): Octets {
    if parts == [] then Ascii("0\r\n\r\n") + rest
    else (HexText(|parts[0]|) + Ascii("\r\n")) + (parts[0] + Ascii("\r\n") + Written(parts[1..], rest))
  }

  predicate Writable(parts: seq<Octets>) {
    forall i :: 0 <= i < |parts| ==> parts[i] != [] && |HexText(|parts[i]|)| <= 8190
  }

  /** Parts of at most 8 MiB can always be written. */
  lemma ShortPartsAreWritable(parts: seq<Octets>)
    requires forall i :: 0 <= i < |parts| ==> 1 <= |parts[i]| <= 8388608
    ensures Writable(parts)
  {
    hide HexText;
    forall i | 0 <= i < |parts|
      ensures |HexText(|parts[i]|)| <= 8190
    {
      HexTextIsShort(|parts[i]|);
    }
  }

  lemma LineEnd()
    ensures Ascii("\r\n") == CRLF && Ascii("0\r\n\r\n") == [0x30] + (CRLF + CRLF)
  {
  }

  lemma NoExtension()
    ensures IsChunkExt([])
  {
    assert Derives([], [], []);
  }

  lemma {:induction false} HexHasNoLf(v: Octets)
    requires AllHex(v)
    ensures NoLf(v)
  {
    forall i | 0 <= i < |v|
      ensures v[i] != LF
    {
      assert IsHex(v[i]);
    }
  }

  /** A size line without extensions. */
  lemma SizeLine(size: Octets, rest: Octets)
    requires AllHex(size) && size != [] && |size| <= 8190
    ensures SplitLine(size + (CRLF + rest), MAX_LINE) == Some(Line(size, rest))
    ensures ChunkSize(size) == if HexValue(size) > 8388608 then Err(TooLarge) else Ok(HexValue(size))
  {
    hide HexValue, IsChunkExt, ChunkSize, SplitLine;
    HexHasNoLf(size);
    SplitLineOver(size, rest);
    NoExtension();
    ChunkSizeIsExact(size, []);
    assert size + [] == size;
  }

  lemma LastIsRead(rest: Octets)
    ensures Decode(Ascii("0\r\n\r\n") + rest, 0) == Ok(Body([], rest))
    ensures forall have: nat :: Decode(Ascii("0\r\n\r\n") + rest, have) == Ok(Body([], rest))
  {
    hide ChunkSize, SplitLine, HexValue, HexText, IsTrailerField;
    LineEnd();
    HexTextIsRead(0);
    assert HexText(0) == [0x30] by { ZeroText(); }
    SizeLine([0x30], CRLF + rest);
    assert Ascii("0\r\n\r\n") + rest == [0x30] + (CRLF + (CRLF + rest));
    SplitLineOver([], rest);
    assert [] + (CRLF + rest) == CRLF + rest;
  }

  lemma ZeroText()
    ensures HexText(0) == [0x30]
  {
  }

  /** One chunk more in front. */
  lemma ChunkIsRead(part: Octets, more: Octets, have: nat)
    requires part != [] && |HexText(|part|)| <= 8190
    ensures
      var v := (HexText(|part|) + Ascii("\r\n")) + (part + Ascii("\r\n") + more);
      Decode(v, have) == if have + |part| > 8388608 then Err(TooLarge) else Prepend(part, Decode(more, have + |part|))
  {
    hide ChunkSize, SplitLine, HexValue, HexText, DropTrailers;
    var size, v := HexText(|part|), (HexText(|part|) + Ascii("\r\n")) + (part + Ascii("\r\n") + more);
    LineEnd();
    HexTextIsRead(|part|);
    var tail := part + (CRLF + more);
    assert v == size + (CRLF + tail);
    SizeLine(size, tail);
    assert tail[..|part|] == part && tail[|part|..|part| + 2] == CRLF && tail[|part| + 2..] == more;
  }

  /**
   * Whatever is written is read back with what follows it, when it has at most
   * 8388608 octets, and refused as too large otherwise.
   */
  lemma {:induction false} WrittenIsReadExactly(parts: seq<Octets>, rest: Octets, have: nat)
    requires Writable(parts) && have <= 8388608
    ensures Decode(Written(parts, rest), have) ==
            if have + |Joined(parts)| <= 8388608 then Ok(Body(Joined(parts), rest)) else Err(TooLarge)
    decreases |parts|
  {
    hide Decode, HexText;
    if parts == [] {
      LastIsRead(rest);
    } else {
      ChunkIsRead(parts[0], Written(parts[1..], rest), have);
      if have + |parts[0]| <= 8388608 {
        WrittenIsReadExactly(parts[1..], rest, have + |parts[0]|);
      }
    }
  }

  // ----- refusals

  /** A size line is malformed exactly when it is no hexadecimal number followed by an extension. */
  lemma MalformedSizeExactly(line: Octets)
    ensures ChunkSize(line) == Err(Malformed) <==> forall size, ext :: size != [] && AllHex(size) && IsChunkExt(ext) ==> line != size + ext
    ensures ChunkSize(line).Err? ==> ChunkSize(line).error in {Malformed, TooLarge}
  {
    hide IsChunkExt, HexValue;
    if size, ext :| size != [] && AllHex(size) && IsChunkExt(ext) && line == size + ext {
      ChunkSizeIsExact(size, ext);
    }
    assert line == TakeHex(line) + line[|TakeHex(line)|..];
  }

  lemma LongSizeIsText(line: Octets) returns (size: Octets, ext: Octets)
    requires ChunkSize(line) == Err(TooLarge) && |line| + 2 <= MAX_LINE
    ensures HeadValid(size, ext) && line == size + ext && HexValue(size) > MAX_BODY
  {
    size, ext := TakeHex(line), line[|TakeHex(line)|..];
    assert line == size + ext;
  }

  /** Whole chunks within the limit, and then a size line that goes beyond it. */
  ghost predicate Overruns(chunks: seq<Chunk>, size: Octets, ext: Octets, have: nat) {
    && (forall i :: 0 <= i < |chunks| ==> ChunkValid(chunks[i])) && HeadValid(size, ext)
    && have + |Data(chunks)| <= MAX_BODY < have + |Data(chunks)| + HexValue(size)
  }

  lemma OverrunsOnward(c: Chunk, chunks: seq<Chunk>, size: Octets, ext: Octets, have: nat)
    requires ChunkValid(c) && Overruns(chunks, size, ext, have + |c.data|)
    ensures Overruns([c] + chunks, size, ext, have)
    ensures forall rest :: ChunksText([c] + chunks, rest) == ChunkText(c, ChunksText(chunks, rest))
  {
    hide ChunkValid, HeadValid, HexValue, ChunkText;
    assert ([c] + chunks)[1..] == chunks;
  }

  /** A body refused as too large does go beyond the limit behind whole chunks. */
  lemma {:induction false} TooLargeOverruns(v: Octets, have: nat)
      returns (chunks: seq<Chunk>, size: Octets, ext: Octets, rest: Octets)
    requires have <= MAX_BODY && Decode(v, have) == Err(TooLarge)
    ensures Overruns(chunks, size, ext, have) && v == ChunksText(chunks, (size + ext) + (CRLF + rest))
    decreases |v|
  {
    hide IsTrailerField, IsChunkExt, SplitLine, ChunkSize, DropTrailers, HeadValid, ChunkText, HexValue, Overruns;
    var Line(line, tail) := SplitLine(v, MAX_LINE).value;
    SplitLineText(v);
    if ChunkSize(line).Err? {
      size, ext := LongSizeIsText(line);
      chunks, rest := [], tail;
      assert Overruns([], size, ext, have) by { OverrunsAtOnce(size, ext, have); }
    } else {
      size, ext := HeadIsText(line);
      var n := ChunkSize(line).value;
      if have + n > MAX_BODY {
        chunks, rest := [], tail;
        assert Overruns([], size, ext, have) by { OverrunsAtOnce(size, ext, have); }
      } else {
        var c := Chunk(size, ext, tail[..n]);
        ChunkIsText(c, tail, tail[n + 2..]);
        chunks, size, ext, rest := TooLargeOverruns(tail[n + 2..], have + n);
        OverrunsOnward(c, chunks, size, ext, have);
        chunks := [c] + chunks;
      }
    }
  }

  lemma OverrunsAtOnce(size: Octets, ext: Octets, have: nat)
    requires HeadValid(size, ext) && have <= MAX_BODY < have + HexValue(size)
    ensures Overruns([], size, ext, have)
  {
  }

  lemma BeyondIsTooLarge(size: Octets, ext: Octets, rest: Octets, have: nat)
    requires HeadValid(size, ext) && have <= MAX_BODY < have + HexValue(size)
    ensures Decode((size + ext) + (CRLF + rest), have) == Err(TooLarge)
  {
    hide IsTrailerField, IsChunkExt, SplitLine, ChunkSize, DropTrailers, HexValue;
    ChunkExtNoLf(ext);
    HexHasNoLf(size);
    SplitLineOver(size + ext, rest);
    ChunkSizeIsExact(size, ext);
  }

  lemma {:induction false} OverrunIsTooLarge(chunks: seq<Chunk>, size: Octets, ext: Octets, rest: Octets, have: nat)
    requires Overruns(chunks, size, ext, have)
    ensures Decode(ChunksText(chunks, (size + ext) + (CRLF + rest)), have) == Err(TooLarge)
    decreases |chunks|
  {
    hide HeadValid, HexValue, ChunkText, Decode;
    if chunks == [] {
      BeyondIsTooLarge(size, ext, rest, have);
    } else {
      OverrunIsTooLarge(chunks[1..], size, ext, rest, have + |chunks[0].data|);
      ChunkIsDecoded(chunks[0], ChunksText(chunks[1..], (size + ext) + (CRLF + rest)), have);
    }
  }

  /**
   * A body is refused as too large exactly when it announces more than the limit
   * behind whole chunks within it; every other refusal is for malformed framing.
   */
  lemma TooLargeExactly(v: Octets)
    ensures Decode(v, 0) == Err(TooLarge) <==>
              exists chunks, size, ext, rest :: Overruns(chunks, size, ext, 0) && v == ChunksText(chunks, (size + ext) + (CRLF + rest))
    ensures Decode(v, 0).Err? ==> Decode(v, 0).error in {TooLarge, Malformed}
  {
    hide Overruns, ChunksText, Decode;
    TwoRefusals(v, 0);
    if Decode(v, 0) == Err(TooLarge) {
      var chunks, size, ext, rest := TooLargeOverruns(v, 0);
    }
    if chunks, size, ext, rest :| Overruns(chunks, size, ext, 0) && v == ChunksText(chunks, (size + ext) + (CRLF + rest)) {
      OverrunIsTooLarge(chunks, size, ext, rest, 0);
    }
  }

  lemma {:induction false} TwoRefusals(v: Octets, have: nat)
    ensures Decode(v, have).Err? ==> Decode(v, have).error in {TooLarge, Malformed}
    decreases |v|
  {
    hide SplitLine, ChunkSize, DropTrailers;
    if SplitLine(v, MAX_LINE).Some? {
      var Line(line, rest) := SplitLine(v, MAX_LINE).value;
      MalformedSizeExactly(line);
      if ChunkSize(line).Ok? && 0 < ChunkSize(line).value && ChunkSize(line).value + 2 <= |rest| {
        TwoRefusals(rest[ChunkSize(line).value + 2..], have + ChunkSize(line).value);
      }
    }
  }

  /** A line that does not end within 8192 octets is refused. */
  lemma LongLineIsRefused(v: Octets, have: nat)
    requires FirstLf(v) >= 8192
    ensures Decode(v, have) == Err(Malformed)
  {
  }

  /** A trailer section of well-formed lines is read exactly if it has at most 65536 octets and 100 fields. */
  lemma {:induction false} TrailersExactly(trailers: seq<Octets>, rest: Octets, bytes: nat, fields: nat)
    requires forall i :: 0 <= i < |trailers| ==> IsTrailerField(trailers[i]) && |trailers[i]| <= 8190
    requires fields <= 100
    ensures DropTrailers(TrailersText(trailers, rest), bytes, fields) ==
            if bytes + TrailerLength(trailers) <= 65536 && fields + |trailers| <= 100 then Some(rest) else None
    decreases |trailers|
  {
    hide IsTrailerField, SplitLine;
    if trailers == [] {
      assert [] + (CRLF + rest) == CRLF + rest;
      SplitLineOver([], rest);
    } else {
      TrailerNoLf(trailers[0]);
      SplitLineOver(trailers[0], TrailersText(trailers[1..], rest));
      if fields < 100 {
        TrailersExactly(trailers[1..], rest, bytes + |trailers[0]| + 2, fields + 1);
      }
    }
  }

  // ----- bodies of a declared length

  function DecimalText(n: nat): (s: string)
    ensures s != ""
  {
    (if n < 10 then "" else DecimalText(n / 10)) + ["0123456789"[n % 10]]
  }

  lemma DecimalDigit(d: nat)
    requires d < 10
    ensures
      var c := "0123456789"[d];
      '0' <= c <= '9' && (c - '0') as nat == d
  {
  }

  predicate Digits(s: string) {
    forall i :: 0 <= i < |s| ==> '0' <= s[i] <= '9'
  }

  lemma DecimalOnward(s: string, d: nat)
    requires Digits(s) && d < 10
    ensures
      var more := s + ["0123456789"[d]];
      Digits(more) && AllDigits(more) && Decimal(more) == 10 * Decimal(s) + d
  {
    DecimalDigit(d);
    assert (s + ["0123456789"[d]])[..|s|] == s;
  }

  lemma NoDecimal()
    ensures Digits("") && Decimal("") == 0
  {
  }

  lemma {:induction false} DecimalTextIsRead(n: nat)
    ensures AllDigits(DecimalText(n)) && Decimal(DecimalText(n)) == n
    ensures Digits(DecimalText(n))
  {
    hide Decimal, AllDigits, Digits;
    if n < 10 {
      NoDecimal();
      DecimalOnward("", n);
    } else {
      DecimalTextIsRead(n / 10);
      DecimalOnward(DecimalText(n / 10), n % 10);
    }
  }

  /** A length written in decimal frames exactly that many octets, between one and 8388608 and as many as there are. */
  lemma LengthIsReadExactly(n: nat, input: Octets)
    requires |DecimalText(n)| <= 4300
    ensures Framed([], [DecimalText(n)], input) ==
            if n == 0 then Err(SizeInvalid) else if n > 8388608 then Err(TooLarge)
            else if n > |input| then Err(Truncated) else Ok(Body(input[..n], input[n..]))
  {
    hide Decimal, DecimalText;
    DecimalTextIsRead(n);
  }

  /** Which framing is refused, and for what. */
  lemma FramingRefusals(codings: seq<string>, lengths: seq<string>, input: Octets)
    ensures
      var r := Framed(codings, lengths, input);
      && (r == Err(FramingConflict) <==> codings != [] && lengths != [])
      && (r == Err(CodingUnsupported) <==> lengths == [] && codings != [] && (|codings| > 1 || Lower(codings[0]) != "chunked"))
      && (codings == [] && |lengths| != 1 ==> r == Err(SizeInvalid))
      && (codings == [] && |lengths| == 1 && !AllDigits(lengths[0]) ==> r == Err(SizeInvalid))
      && (r == Err(LengthNotConvertible) <==> codings == [] && |lengths| == 1 && AllDigits(lengths[0]) && |lengths[0]| > 4300)
  {
    hide Decode, Decimal, Lower;
    TwoRefusals(input, 0);
  }

  /** A written body is framed by the one coding "chunked", in any case, unless it is empty. */
  lemma WrittenIsFramed(coding: string, parts: seq<Octets>, rest: Octets)
    requires Lower(coding) == "chunked" && Writable(parts)
    ensures Framed([coding], [], Written(parts, rest)) ==
            if |Joined(parts)| > 8388608 then Err(TooLarge) else if Joined(parts) == [] then Err(SizeInvalid)
            else Ok(Body(Joined(parts), rest))
  {
    hide Decode, Lower, HexText;
    WrittenIsReadExactly(parts, rest, 0);
  }

  // ----- character classes

  const MARKS := "!#$%&'*+-.^_`|~"

  /** The token characters of section 5.6.2 of RFC 9110: its marks spelled out, digits and letters. */
  lemma TcharsExactly(b: Octet)
    ensures
      var c := b as char;
      IsTchar(b) <==> c in MARKS || '0' <= c <= '9' || 'A' <= c <= 'Z' || 'a' <= c <= 'z'
  {
  }

  /** Text between quotes is all that may be quoted but the quote and the backslash; what may be quoted is all but controls. */
  lemma QuotedTextExactly(b: Octet)
    ensures IsQdText(b) <==> IsQuotable(b) && b as char !in "\"\\"
    ensures IsQuotable(b) <==> b as char == '\t' || (b as char >= ' ' && b != 127)
  {
  }

  /** Names are compared without regard to case. */
  lemma {:induction false} LowerNameExactly(name: Octets)
    ensures |LowerName(name)| == |name|
    ensures forall i :: 0 <= i < |name| ==> LowerName(name)[i] == LowerChar(name[i] as char)
  {
    if name != [] {
      LowerNameExactly(name[1..]);
    }
  }

  /** A trailer's value holds tabs and no other control character. */
  lemma FieldValueExactly(value: Octets)
    ensures FieldValue(value) <==>
              forall i :: 0 <= i < |value| ==> value[i] as char == '\t' || (value[i] as char >= ' ' && value[i] != 127)
  {
  }
}
