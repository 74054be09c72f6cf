/**
 * The bounded HTTP/1.1 chunked-body reader: the wire format of section 7.1 of
 * RFC 9112 as a grammar with an encoder, the reader over a byte stream, and the
 * proof that the reader accepts the bounded grammar exactly and decodes it.
 */
module ChunkedBody {
  import opened Basics
  import opened AsciiText
  import opened Octets
  import opened ChunkExtensions

  const MAX_BODY := 8 * 1024 * 1024
  const MAX_LINE := 8 * 1024
  const MAX_TRAILER_BYTES := 64 * 1024
  const MAX_TRAILER_FIELDS := 100

  /** Python's int() takes no decimal string with more digits; what it raises then is not caught. */
  const MAX_INT_DIGITS := 4300

  const CRLF: Octets := [CR, LF]

  datatype BodyError =
    | Malformed | TooLarge | FramingConflict | CodingUnsupported | SizeInvalid | Truncated
    | LengthNotConvertible

  // ----- chunk sizes

  predicate IsHex(b: Octet) {
    IsDigit(b) || 0x41 <= b <= 0x46 || 0x61 <= b <= 0x66
  }

  function HexDigit(b: Octet): (d: nat)
    requires IsHex(b)
    ensures d < 16 && (d == 0 <==> b == 0x30)
  {
    if IsDigit(b) then b - 0x30 else if b <= 0x46 then b - 0x37 else b - 0x57
  }

  predicate AllHex(v: Octets) {
    forall i :: 0 <= i < |v| ==> IsHex(v[i])
  }

  /** The positional value of a string of hexadecimal digits, of any length. */
  function HexValue(v: Octets): nat
    requires AllHex(v)
  {
    if v == [] then 0 else 16 * HexValue(v[..|v| - 1]) + HexDigit(v[|v| - 1])
  }

  lemma {:induction false} LeadingZero(v: Octets)
    requires AllHex(v) && v != [] && v[0] == 0x30
    ensures HexValue(v) == HexValue(v[1..])
  {
    if |v| == 1 {
      assert v[..0] == [] && v[1..] == [];
    } else {
      assert v[1..][..|v| - 2] == v[..|v| - 1][1..];
      LeadingZero(v[..|v| - 1]);
    }
  }

  function Power16(n: nat): nat {
    if n == 0 then 1 else 16 * Power16(n - 1)
  }

  /** n digits without a leading zero stand for at least 16 to the power n - 1. */
  lemma {:induction false} SignificantDigits(v: Octets)
    requires AllHex(v) && v != [] && v[0] != 0x30
    ensures HexValue(v) >= Power16(|v| - 1)
  {
    if |v| == 1 {
      assert v[..0] == [];
    } else {
      SignificantDigits(v[..|v| - 1]);
    }
  }

  lemma {:induction false} Power16Grows(m: nat, n: nat)
    requires m <= n
    ensures Power16(m) <= Power16(n)
  {
    if m < n {
      Power16Grows(m, n - 1);
    }
  }

  /** The shortcut never rejects a value in range: seven significant digits always exceed the limit. */
  lemma ShortcutIsSound(v: Octets)
    requires AllHex(v) && |v| > 6 && v[0] != 0x30
    ensures HexValue(v) > MAX_BODY
  {
    SignificantDigits(v);
    Power16Grows(6, |v| - 1);
    assert Power16(6) == 16 * Power16(5) == 16777216 by {
      assert Power16(2) == 256;
      assert Power16(4) == 65536;
    }
  }

  function TakeHex(v: Octets): (r: Octets)
    ensures r <= v && AllHex(r) && (|r| < |v| ==> !IsHex(v[|r|]))
  {
    if v != [] && IsHex(v[0]) then [v[0]] + TakeHex(v[1..]) else []
  }

  /** What a chunk-size line means. */
  ghost function ChunkSize(line: Octets): Outcome<nat, BodyError> {
    var size := TakeHex(line);
    if size == [] || !IsChunkExt(line[|size|..]) then Err(Malformed)
    else if HexValue(size) > MAX_BODY then Err(TooLarge)
    else Ok(HexValue(size))
  }

  lemma {:induction false} TakeHexIs(line: Octets, end: nat)
    requires end <= |line| && AllHex(line[..end]) && (end < |line| ==> !IsHex(line[end]))
    ensures TakeHex(line) == line[..end]
  {
    if end > 0 {
      assert line[..end][0] == line[0];
      assert line[1..][..end - 1] == line[..end][1..];
      TakeHexIs(line[1..], end - 1);
      assert line[..end] == [line[0]] + line[1..][..end - 1];
    }
  }

  /** Where the leading hexadecimal digits end. */
  method ScanHex(line: Octets) returns (end: nat)
    ensures end <= |line| && TakeHex(line) == line[..end]
  {
    end := 0;
    while end < |line| && IsHex(line[end])
      invariant 0 <= end <= |line| && AllHex(line[..end])
    {
      end := end + 1;
    }
    TakeHexIs(line, end);
  }

  method StripZeros(size: Octets) returns (significant: Octets)
    requires AllHex(size)
    ensures AllHex(significant) && HexValue(significant) == HexValue(size)
    ensures significant != [] ==> significant[0] != 0x30
  {
    significant := size;
    while significant != [] && significant[0] == 0x30
      invariant AllHex(significant) && HexValue(significant) == HexValue(size)
      decreases |significant|
    {
      LeadingZero(significant);
      significant := significant[1..];
    }
  }

  method ParseHex(digits: Octets) returns (size: nat)
    requires AllHex(digits)
    ensures size == HexValue(digits)
  {
    size := 0;
    var i := 0;
    while i < |digits|
      invariant 0 <= i <= |digits|
      invariant size == HexValue(digits[..i])
    {
      assert digits[..i + 1][..i] == digits[..i];
      size := 16 * size + HexDigit(digits[i]);
      i := i + 1;
    }
    assert digits[..i] == digits;
  }

  method ParseChunkSize(line: Octets) returns (r: Outcome<nat, BodyError>)
    ensures r == ChunkSize(line)
  {
    hide IsChunkExt, HexValue;
    var end := ScanHex(line);
    if end == 0 {
      return Err(Malformed);
    }
    var extensionsOk := ValidateChunkExtensions(line[end..]);
    if !extensionsOk {
      return Err(Malformed);
    }
    var significant := StripZeros(line[..end]);
    if |significant| > 6 {
      ShortcutIsSound(significant);
      return Err(TooLarge);
    }
    var size := ParseHex(significant);
    if size > MAX_BODY {
      return Err(TooLarge);
    }
    return Ok(size);
  }

  /** Chunk-size arithmetic: any number of digits and leading zeros, any valid extensions. */
  lemma ChunkSizeIsExact(size: Octets, ext: Octets)
    requires AllHex(size) && size != [] && IsChunkExt(ext)
    ensures ChunkSize(size + ext) == if HexValue(size) > MAX_BODY then Err(TooLarge) else Ok(HexValue(size))
  {
    ExtStart(ext);
    assert (size + ext)[..|size|] == size && (size + ext)[|size|..] == ext;
    TakeHexIs(size + ext, |size|);
  }

  lemma ExtStart(ext: Octets)
    requires IsChunkExt(ext)
    ensures ext == [] || ext[0] == SEMICOLON || IsBlank(ext[0])
  {
    AcceptsExactly(ext);
  }

  // ----- trailer fields

  const FORBIDDEN := {
    "authorization", "connection", "content-length", "cookie", "host", "proxy-authorization",
    "set-cookie", "te", "trailer", "transfer-encoding", "upgrade"}

  function LowerName(name: Octets): string {
    if name == [] then ""
    else [(if IsUpper(name[0]) then name[0] + 0x20 else name[0]) as char] + LowerName(name[1..])
  }

  predicate FieldName(name: Octets) {
    IsToken(name) && LowerName(name) !in FORBIDDEN
  }

  predicate FieldValue(value: Octets) {
    forall i :: 0 <= i < |value| ==> (value[i] >= 0x20 || value[i] == TAB) && value[i] != 0x7F
  }

  ghost predicate IsTrailerField(line: Octets) {
    exists name, value :: line == name + [COLON] + value && FieldName(name) && FieldValue(value)
  }

  lemma TrailerFieldAt(line: Octets, colon: nat)
    requires colon < |line| && line[colon] == COLON
    requires forall i :: 0 <= i < colon ==> line[i] != COLON
    ensures IsTrailerField(line) <==> FieldName(line[..colon]) && FieldValue(line[colon + 1..])
  {
    hide LowerName, FieldValue, FORBIDDEN;
    assert line == line[..colon] + [COLON] + line[colon + 1..];
    if IsTrailerField(line) {
      var name, value :| line == name + [COLON] + value && FieldName(name) && FieldValue(value);
      assert line[|name|] == COLON;
      assert |name| == colon && name == line[..colon] && value == line[colon + 1..];
    }
  }

  lemma TrailerFieldHasColon(line: Octets)
    requires IsTrailerField(line)
    ensures exists i :: 0 <= i < |line| && line[i] == COLON
  {
    var name, value :| line == name + [COLON] + value && FieldName(name) && FieldValue(value);
    assert line[|name|] == COLON;
  }

  method ValidateTrailerLine(line: Octets) returns (ok: bool)
    ensures ok <==> IsTrailerField(line)
  {
    var colon := 0;
    while colon < |line| && line[colon] != COLON
      invariant 0 <= colon <= |line|
      invariant forall i :: 0 <= i < colon ==> line[i] != COLON
    {
      colon := colon + 1;
    }
    if colon == |line| {
      if IsTrailerField(line) {
        TrailerFieldHasColon(line);
        assert false;
      }
      return false;
    }
    TrailerFieldAt(line, colon);
    return FieldName(line[..colon]) && FieldValue(line[colon + 1..]);
  }

  // ----- lines

  /** The position of the first line feed, or the length. */
  function FirstLf(v: Octets): (n: nat)
    ensures n <= |v| && (n < |v| ==> v[n] == LF) && (forall i :: 0 <= i < n ==> v[i] != LF)
  {
    if v == [] || v[0] == LF then 0 else 1 + FirstLf(v[1..])
  }

  datatype Line = Line(text: Octets, rest: Octets)

  /** One line of at most "limit" octets that ends in CRLF, and what follows it. */
  function SplitLine(v: Octets, limit: nat): (r: Option<Line>)
    ensures r.Some? ==> |r.value.rest| < |v|
  {
    var lf := FirstLf(v);
    if 1 <= lf < |v| && lf + 1 <= limit && v[lf - 1] == CR then Some(Line(v[..lf - 1], v[lf + 1..])) else None
  }

  predicate NoLf(v: Octets) {
    forall i :: 0 <= i < |v| ==> v[i] != LF
  }

  lemma SplitLineOver(line: Octets, rest: Octets)
    requires NoLf(line) && |line| + 2 <= MAX_LINE
    ensures SplitLine(line + (CRLF + rest), MAX_LINE) == Some(Line(line, rest))
  {
    var v := line + (CRLF + rest);
    assert v[|line|] == CR && v[|line| + 1] == LF;
    assert FirstLf(v) == |line| + 1;
    assert v[..|line|] == line && v[|line| + 2..] == rest;
  }

  lemma SplitLineText(v: Octets)
    requires SplitLine(v, MAX_LINE).Some?
    ensures v == SplitLine(v, MAX_LINE).value.text + (CRLF + SplitLine(v, MAX_LINE).value.rest)
    ensures |SplitLine(v, MAX_LINE).value.text| + 2 <= MAX_LINE
  {
  }

  /** Reading a line succeeds exactly when the octets up to the first line feed end in CRLF within the limit. */
  lemma SplitLineReads(v: Octets, limit: nat, line: Octets, rest: Octets)
    requires v == line + rest
    requires |line| == if FirstLf(v) <= limit && FirstLf(v) < |v| then FirstLf(v) + 1
                       else if limit + 1 < |v| then limit + 1 else |v|
    ensures SplitLine(v, limit) == if 2 <= |line| <= limit && line[|line| - 2..] == CRLF
                            then Some(Line(line[..|line| - 2], rest)) else None
  {
    hide FirstLf;
    assert v[..|line|] == line && v[|line|..] == rest;
    if 2 <= |line| {
      assert line[|line| - 2..] == [v[|line| - 2], v[|line| - 1]];
      assert line[..|line| - 2] == v[..|line| - 2];
    }
  }

  lemma {:induction false} QuotedNoLf(items: seq<QuotedItem>, rest: Octets)
    requires ItemsValid(items) && NoLf(rest)
    ensures NoLf(ItemsText(items, rest))
  {
    if items != [] {
      QuotedNoLf(items[1..], rest);
    }
  }

  lemma ValueNoLf(value: ExtensionValue, rest: Octets)
    requires ValueValid(value) && NoLf(rest)
    ensures NoLf(ValueText(value, rest))
  {
    if value.QuotedValue? {
      QuotedNoLf(value.items, [DQUOTE] + rest);
    }
  }

  lemma {:induction false} ExtensionsNoLf(es: seq<Extension>, tail: Octets)
    requires ExtensionsValid(es) && AllBlank(tail)
    ensures NoLf(ExtensionsText(es, tail))
  {
    if es != [] {
      ExtensionsNoLf(es[1..], tail);
      ValueNoLf(es[0].value, ExtensionsText(es[1..], tail));
    }
  }

  lemma ChunkExtNoLf(ext: Octets)
    requires IsChunkExt(ext)
    ensures NoLf(ext)
  {
    var es, tail :| Derives(ext, es, tail);
    ExtensionsNoLf(es, tail);
  }

  lemma TrailerNoLf(line: Octets)
    requires IsTrailerField(line)
    ensures NoLf(line) && line != []
  {
    var name, value :| line == name + [COLON] + value && FieldName(name) && FieldValue(value);
  }

  // ----- the wire format

  datatype Chunk = Chunk(size: Octets, ext: Octets, data: Octets)

  /** chunked-body = *chunk last-chunk trailer-section CRLF */
  datatype Message = Message(chunks: seq<Chunk>, lastSize: Octets, lastExt: Octets, trailers: seq<Octets>)

  ghost predicate HeadValid(size: Octets, ext: Octets) {
    size != [] && AllHex(size) && IsChunkExt(ext) && |size + ext| + 2 <= MAX_LINE
  }

  ghost predicate ChunkValid(c: Chunk) {
    HeadValid(c.size, c.ext) && HexValue(c.size) == |c.data| && c.data != []
  }

  function TrailerLength(trailers: seq<Octets>): nat {
    if trailers == [] then 2 else |trailers[0]| + 2 + TrailerLength(trailers[1..])
  }

  ghost predicate TrailersValid(trailers: seq<Octets>, bytes: nat, fields: nat) {
    && (forall i :: 0 <= i < |trailers| ==> IsTrailerField(trailers[i]) && |trailers[i]| + 2 <= MAX_LINE)
    && bytes + TrailerLength(trailers) <= MAX_TRAILER_BYTES
    && fields + |trailers| <= MAX_TRAILER_FIELDS
  }

  function Data(chunks: seq<Chunk>): Octets {
    if chunks == [] then [] else chunks[0].data + Data(chunks[1..])
  }

  /** The message fits the limits of the reader when "have" octets are already decoded. */
  ghost predicate MessageValid(m: Message, have: nat) {
    && (forall i :: 0 <= i < |m.chunks| ==> ChunkValid(m.chunks[i]))
    && HeadValid(m.lastSize, m.lastExt) && HexValue(m.lastSize) == 0
    && TrailersValid(m.trailers, 0, 0)
    && have + |Data(m.chunks)| <= MAX_BODY
  }

  function TrailersText(trailers: seq<Octets>, rest: Octets): Octets {
    if trailers == [] then CRLF + rest else trailers[0] + (CRLF + TrailersText(trailers[1..], rest))
  }

  function ChunkText(c: Chunk, rest: Octets): Octets {
    (c.size + c.ext) + (CRLF + (c.data + (CRLF + rest)))
  }

  function ChunksText(chunks: seq<Chunk>, rest: Octets): Octets {
    if chunks == [] then rest else ChunkText(chunks[0], ChunksText(chunks[1..], rest))
  }

  /** The encoding of a message in front of whatever follows it on the connection. */
  function Encode(m: Message, rest: Octets): Octets {
    ChunksText(m.chunks, (m.lastSize + m.lastExt) + (CRLF + TrailersText(m.trailers, rest)))
  }

  // ----- decoding a suffix

  /** The rest behind the trailer section, after "fields" fields of "bytes" octets in all. */
  ghost function DropTrailers(v: Octets, bytes: nat, fields: nat): Option<Octets>
    decreases |v|
  {
    match SplitLine(v, MAX_LINE)
    case None => None
    case Some(Line(line, rest)) =>
      if bytes + |line| + 2 > MAX_TRAILER_BYTES then None
      else if line == [] then Some(rest)
      else if fields + 1 > MAX_TRAILER_FIELDS || !IsTrailerField(line) then None
      else DropTrailers(rest, bytes + |line| + 2, fields + 1)
  }

  datatype Body = Body(data: Octets, unread: Octets)

  type Decoded = Outcome<Body, BodyError>

  function Prepend(data: Octets, d: Decoded): Decoded {
    if d.Ok? then Ok(Body(data + d.value.data, d.value.unread)) else d
  }

  /** Body and unread rest, when "have" octets are already decoded. */
  ghost function Decode(v: Octets, have: nat): Decoded
    decreases |v|
  {
    match SplitLine(v, MAX_LINE)
    case None => Err(Malformed)
    case Some(Line(line, rest)) =>
      match ChunkSize(line)
      case Err(error) => Err(error)
      case Ok(size) =>
        if size == 0 then
          match DropTrailers(rest, 0, 0)
          case None => Err(Malformed)
          case Some(unread) => Ok(Body([], unread))
        else if have + size > MAX_BODY then Err(TooLarge)
        else if |rest| < size + 2 || rest[size..size + 2] != CRLF then Err(Malformed)
        else Prepend(rest[..size], Decode(rest[size + 2..], have + size))
  }

  // ----- everything accepted is an encoding

  lemma {:induction false} TrailersAreText(v: Octets, bytes: nat, fields: nat) returns (trailers: seq<Octets>)
    requires fields <= MAX_TRAILER_FIELDS && DropTrailers(v, bytes, fields).Some?
    ensures TrailersValid(trailers, bytes, fields)
    ensures v == TrailersText(trailers, DropTrailers(v, bytes, fields).value)
    decreases |v|
  {
    hide IsTrailerField, SplitLine;
    var Line(line, rest) := SplitLine(v, MAX_LINE).value;
    SplitLineText(v);
    if line == [] {
      trailers := [];
      assert [] + (CRLF + rest) == CRLF + rest;
    } else {
      var more := TrailersAreText(rest, bytes + |line| + 2, fields + 1);
      trailers := [line] + more;
      assert trailers[1..] == more;
    }
  }

  lemma HeadIsText(line: Octets) returns (size: Octets, ext: Octets)
    requires ChunkSize(line).Ok? && |line| + 2 <= MAX_LINE
    ensures HeadValid(size, ext) && line == size + ext && HexValue(size) == ChunkSize(line).value
  {
    size := TakeHex(line);
    ext := line[|size|..];
    assert line == size + ext;
  }

  /** One more chunk in front of a message. */
  lemma MessageWithChunk(c: Chunk, more: Message, rest: Octets, have: nat)
    requires ChunkValid(c) && MessageValid(more, have + |c.data|)
    ensures
      var m := more.(chunks := [c] + more.chunks);
      && MessageValid(m, have)
      && Encode(m, rest) == ChunkText(c, Encode(more, rest))
      && Data(m.chunks) == c.data + Data(more.chunks)
  {
    hide ChunkValid, HeadValid, HexValue, TrailersValid, TrailersText, ChunkText;
    var m := more.(chunks := [c] + more.chunks);
    assert m.chunks[1..] == more.chunks;
    assert forall i :: 0 < i < |m.chunks| ==> m.chunks[i] == more.chunks[i - 1];
  }

  lemma {:induction false} DecodedIsEncoding(v: Octets, have: nat) returns (m: Message)
    requires have <= MAX_BODY && Decode(v, have).Ok?
    ensures MessageValid(m, have)
    ensures v == Encode(m, Decode(v, have).value.unread)
    ensures Data(m.chunks) == Decode(v, have).value.data
    decreases |v|
  {
    hide IsTrailerField, IsChunkExt, SplitLine, ChunkSize, DropTrailers, HeadValid, MessageValid, Encode, Data, ChunkText, HexValue;
    var Line(line, rest) := SplitLine(v, MAX_LINE).value;
    SplitLineText(v);
    var size, ext := HeadIsText(line);
    var n := ChunkSize(line).value;
    if n == 0 {
      m := LastIsMessage(size, ext, rest, have);
    } else {
      var more := DecodedIsEncoding(rest[n + 2..], have + n);
      var c := Chunk(size, ext, rest[..n]);
      MessageWithChunk(c, more, Decode(v, have).value.unread, have);
      m := more.(chunks := [c] + more.chunks);
      ChunkIsText(c, rest, rest[n + 2..]);
    }
  }

  lemma ChunkIsText(c: Chunk, rest: Octets, more: Octets)
    requires |rest| >= |c.data| + 2 && rest[..|c.data|] == c.data && rest[|c.data|..|c.data| + 2] == CRLF
    requires more == rest[|c.data| + 2..]
    ensures ChunkText(c, more) == (c.size + c.ext) + (CRLF + rest)
  {
    assert rest == c.data + (CRLF + more);
  }

  lemma LastIsMessage(size: Octets, ext: Octets, rest: Octets, have: nat) returns (m: Message)
    requires HeadValid(size, ext) && HexValue(size) == 0 && have <= MAX_BODY && DropTrailers(rest, 0, 0).Some?
    ensures MessageValid(m, have) && m.chunks == [] && Data(m.chunks) == []
    ensures Encode(m, DropTrailers(rest, 0, 0).value) == (size + ext) + (CRLF + rest)
  {
    hide HeadValid, DropTrailers, TrailersValid, TrailersText, HexValue;
    var trailers := TrailersAreText(rest, 0, 0);
    m := Message([], size, ext, trailers);
  }

  // ----- every encoding within the limits is decoded

  lemma {:induction false} TrailersAreDropped(trailers: seq<Octets>, rest: Octets, bytes: nat, fields: nat)
    requires TrailersValid(trailers, bytes, fields)
    ensures DropTrailers(TrailersText(trailers, rest), bytes, fields) == Some(rest)
    decreases |trailers|
  {
    hide IsTrailerField, SplitLine;
    if trailers == [] {
      assert [] + (CRLF + rest) == CRLF + rest;
      SplitLineOver([], rest);
    } else {
      TrailerNoLf(trailers[0]);
      SplitLineOver(trailers[0], TrailersText(trailers[1..], rest));
      TrailersAreDropped(trailers[1..], rest, bytes + |trailers[0]| + 2, fields + 1);
    }
  }

  lemma HeadIsRead(size: Octets, ext: Octets, rest: Octets)
    requires HeadValid(size, ext) && HexValue(size) <= MAX_BODY
    ensures SplitLine((size + ext) + (CRLF + rest), MAX_LINE) == Some(Line(size + ext, rest))
    ensures ChunkSize(size + ext) == Ok(HexValue(size))
  {
    ChunkExtNoLf(ext);
    SplitLineOver(size + ext, rest);
    ChunkSizeIsExact(size, ext);
  }

  lemma {:induction false} EncodingIsDecoded(m: Message, rest: Octets, have: nat)
    requires MessageValid(m, have)
    ensures Decode(Encode(m, rest), have) == Ok(Body(Data(m.chunks), rest))
    decreases |m.chunks|
  {
    hide HeadValid, TrailersText, TrailersValid, HexValue, ChunkText, Decode;
    if m.chunks == [] {
      LastIsDecoded(m, rest, have);
    } else {
      var c, more := m.chunks[0], m.(chunks := m.chunks[1..]);
      EncodingIsDecoded(more, rest, have + |c.data|);
      ChunkIsDecoded(c, Encode(more, rest), have);
    }
  }

  lemma LastIsDecoded(m: Message, rest: Octets, have: nat)
    requires MessageValid(m, have) && m.chunks == []
    ensures Decode(Encode(m, rest), have) == Ok(Body([], rest))
  {
    hide IsTrailerField, IsChunkExt, SplitLine, ChunkSize, DropTrailers, TrailersText, TrailersValid, HexValue;
    HeadIsRead(m.lastSize, m.lastExt, TrailersText(m.trailers, rest));
    TrailersAreDropped(m.trailers, rest, 0, 0);
  }

  lemma ChunkIsDecoded(c: Chunk, more: Octets, have: nat)
    requires ChunkValid(c) && have + |c.data| <= MAX_BODY
    ensures Decode(ChunkText(c, more), have) == Prepend(c.data, Decode(more, have + |c.data|))
  {
    hide IsTrailerField, IsChunkExt, SplitLine, ChunkSize, DropTrailers, HexValue;
    var tail := c.data + (CRLF + more);
    HeadIsRead(c.size, c.ext, tail);
    assert tail[..|c.data|] == c.data && tail[|c.data|..|c.data| + 2] == CRLF && tail[|c.data| + 2..] == more;
  }

  /** Soundness, completeness and round trip in one: the reader returns a body exactly for the encodings of that body. */
  lemma DecodeIsExact(v: Octets, body: Octets, rest: Octets)
    ensures Decode(v, 0) == Ok(Body(body, rest)) <==>
              exists m :: MessageValid(m, 0) && v == Encode(m, rest) && body == Data(m.chunks)
  {
    if Decode(v, 0) == Ok(Body(body, rest)) {
      var m := DecodedIsEncoding(v, 0);
    }
    if exists m :: MessageValid(m, 0) && v == Encode(m, rest) && body == Data(m.chunks) {
      var m :| MessageValid(m, 0) && v == Encode(m, rest) && body == Data(m.chunks);
      EncodingIsDecoded(m, rest, 0);
    }
  }

  /** No encoding can be read in two ways. */
  lemma EncodingIsUnambiguous(m: Message, n: Message, rest: Octets, more: Octets)
    requires MessageValid(m, 0) && MessageValid(n, 0) && Encode(m, rest) == Encode(n, more)
    ensures Data(m.chunks) == Data(n.chunks) && rest == more
  {
    EncodingIsDecoded(m, rest, 0);
    EncodingIsDecoded(n, more, 0);
  }

  // ----- the reader

  /** A connection's buffered input. */
  class ByteStream {
    var unread: Octets

    constructor (input: Octets)
      ensures unread == input
    {
      unread := input;
    }

    /** Up to "size" octets, ending early behind the first line feed. */
    method ReadLine(size: nat) returns (line: Octets)
      modifies this
      ensures old(unread) == line + unread
      ensures |line| == if FirstLf(old(unread)) < size && FirstLf(old(unread)) < |old(unread)|
                        then FirstLf(old(unread)) + 1
                        else if size < |old(unread)| then size else |old(unread)|
    {
      var n := FirstLf(unread);
      n := if n < size && n < |unread| then n + 1 else if size < |unread| then size else |unread|;
      line := unread[..n];
      unread := unread[n..];
    }

    method Read(size: nat) returns (data: Octets)
      modifies this
      ensures old(unread) == data + unread
      ensures |data| == if size < |old(unread)| then size else |old(unread)|
    {
      var n := if size < |unread| then size else |unread|;
      data := unread[..n];
      unread := unread[n..];
    }
  }

  /** Reads one bounded line with its CRLF; a line without one, or a longer one, is refused. */
  method ReadCrlfLine(stream: ByteStream, limit: nat) returns (r: Option<Octets>)
    modifies stream
    ensures |stream.unread| <= |old(stream.unread)|
    ensures r.Some? <==> SplitLine(old(stream.unread), limit).Some?
    ensures r.Some? ==> SplitLine(old(stream.unread), limit) == Some(Line(r.value, stream.unread))
                        && |stream.unread| < |old(stream.unread)|
  {
    var line := stream.ReadLine(limit + 1);
    SplitLineReads(old(stream.unread), limit, line, stream.unread);
    if line == [] || |line| > limit || |line| < 2 || line[|line| - 2..] != CRLF {
      return None;
    }
    return Some(line[..|line| - 2]);
  }

  /** Reads the trailer section behind the last chunk. */
  method ReadTrailers(stream: ByteStream) returns (ok: bool)
    modifies stream
    ensures ok <==> DropTrailers(old(stream.unread), 0, 0).Some?
    ensures ok ==> DropTrailers(old(stream.unread), 0, 0) == Some(stream.unread)
  {
    hide SplitLine, IsTrailerField;
    var trailerBytes: nat, trailerFields: nat := 0, 0;
    while true
      invariant DropTrailers(old(stream.unread), 0, 0) == DropTrailers(stream.unread, trailerBytes, trailerFields)
      decreases |stream.unread|
    {
      var trailer := ReadCrlfLine(stream, MAX_LINE);
      if trailer.None? {
        return false;
      }
      trailerBytes := trailerBytes + |trailer.value| + 2;
      if trailerBytes > MAX_TRAILER_BYTES {
        return false;
      }
      if trailer.value == [] {
        return true;
      }
      trailerFields := trailerFields + 1;
      if trailerFields > MAX_TRAILER_FIELDS {
        return false;
      }
      var valid := ValidateTrailerLine(trailer.value);
      if !valid {
        return false;
      }
    }
  }

  /** The data of one chunk and the CRLF behind it. */
  method ReadChunkData(stream: ByteStream, size: nat) returns (chunk: Option<Octets>)
    modifies stream
    ensures
      var rest := old(stream.unread);
      && |stream.unread| <= |rest|
      && (chunk.Some? <==> |rest| >= size + 2 && rest[size..size + 2] == CRLF)
      && (chunk.Some? ==> chunk.value == rest[..size] && stream.unread == rest[size + 2..])
  {
    ghost var rest := stream.unread;
    var data := stream.Read(size);
    var terminator := stream.Read(2);
    assert rest == data + (terminator + stream.unread);
    if |data| != size || terminator != CRLF {
      assert |rest| < size + 2 || rest[size..size + 2] == terminator;
      return None;
    }
    assert rest[size..size + 2] == CRLF;
    return Some(data);
  }

  method ReadChunkedRequestBody(stream: ByteStream) returns (r: Outcome<Octets, BodyError>)
    modifies stream
    ensures r.Ok? ==> Decode(old(stream.unread), 0) == Ok(Body(r.value, stream.unread)) && |r.value| <= MAX_BODY
    ensures r.Err? ==> Decode(old(stream.unread), 0) == Err(r.error)
  {
    hide ChunkSize, DropTrailers, SplitLine;
    var decoded: Octets := [];
    PrependNothing(Decode(stream.unread, 0));
    while true
      invariant |decoded| <= MAX_BODY
      invariant Decode(old(stream.unread), 0) == Prepend(decoded, Decode(stream.unread, |decoded|))
      decreases |stream.unread|
    {
      var line := ReadCrlfLine(stream, MAX_LINE);
      if line.None? {
        return Err(Malformed);
      }
      var size := ParseChunkSize(line.value);
      if size.Err? {
        return Err(size.error);
      }
      if size.value == 0 {
        var ended := ReadTrailers(stream);
        if !ended {
          return Err(Malformed);
        }
        assert decoded + [] == decoded;
        return Ok(decoded);
      }
      if |decoded| + size.value > MAX_BODY {
        return Err(TooLarge);
      }
      var chunk := ReadChunkData(stream, size.value);
      if chunk.None? {
        return Err(Malformed);
      }
      PrependTwice(decoded, chunk.value, Decode(stream.unread, |decoded| + size.value));
      decoded := decoded + chunk.value;
    }
  }

  lemma PrependNothing(d: Decoded)
    ensures Prepend([], d) == d
  {
    if d.Ok? {
      assert [] + d.value.data == d.value.data;
    }
  }

  lemma PrependTwice(a: Octets, b: Octets, d: Decoded)
    ensures Prepend(a, Prepend(b, d)) == Prepend(a + b, d)
  {
    if d.Ok? {
      assert a + (b + d.value.data) == (a + b) + d.value.data;
    }
  }

  // ----- framing

  predicate AllDigits(s: string) {
    s != [] && forall i :: 0 <= i < |s| ==> '0' <= s[i] <= '9'
  }

  function Decimal(s: string): nat
    requires forall i :: 0 <= i < |s| ==> '0' <= s[i] <= '9'
  {
    if s == [] then 0 else 10 * Decimal(s[..|s| - 1]) + (s[|s| - 1] - '0') as nat
  }

  method ParseDecimal(s: string) returns (n: nat)
    requires AllDigits(s)
    ensures n == Decimal(s)
  {
    n := 0;
    var i := 0;
    while i < |s|
      invariant 0 <= i <= |s|
      invariant n == Decimal(s[..i])
    {
      assert s[..i + 1][..i] == s[..i];
      n := 10 * n + (s[i] - '0') as nat;
      i := i + 1;
    }
    assert s[..i] == s;
  }

  /** What a request's framing headers and input mean: exactly one framing, one body that is not empty. */
  ghost function Framed(codings: seq<string>, lengths: seq<string>, input: Octets): Decoded {
    if codings != [] && lengths != [] then Err(FramingConflict)
    else if codings != [] then
      if |codings| != 1 || Lower(codings[0]) != "chunked" then Err(CodingUnsupported)
      else
        var d := Decode(input, 0);
        if d.Ok? && d.value.data == [] then Err(SizeInvalid) else d
    else if |lengths| != 1 || !AllDigits(lengths[0]) then Err(SizeInvalid)
    else if |lengths[0]| > MAX_INT_DIGITS then Err(LengthNotConvertible)
    else if Decimal(lengths[0]) == 0 then Err(SizeInvalid)
    else if Decimal(lengths[0]) > MAX_BODY then Err(TooLarge)
    else if |input| < Decimal(lengths[0]) then Err(Truncated)
    else Ok(Body(input[..Decimal(lengths[0])], input[Decimal(lengths[0])..]))
  }

  /**
   * Reads a request body; "codings" are the trimmed items of every Transfer-Encoding header,
   * "lengths" the trimmed Content-Length headers.
   */
  method ReadRequestBody(codings: seq<string>, lengths: seq<string>, stream: ByteStream)
    returns (r: Outcome<Octets, BodyError>)
    modifies stream
    ensures r.Ok? ==> Framed(codings, lengths, old(stream.unread)) == Ok(Body(r.value, stream.unread))
    ensures r.Ok? ==> 0 < |r.value| <= MAX_BODY
    ensures r.Err? ==> Framed(codings, lengths, old(stream.unread)) == Err(r.error)
  {
    hide Decode, Decimal;
    if codings != [] && lengths != [] {
      return Err(FramingConflict);
    }
    if codings != [] {
      if |codings| != 1 || Lower(codings[0]) != "chunked" {
        return Err(CodingUnsupported);
      }
      var body := ReadChunkedRequestBody(stream);
      if body.Ok? && body.value == [] {
        return Err(SizeInvalid);
      }
      return body;
    }
    if |lengths| != 1 || !AllDigits(lengths[0]) {
      return Err(SizeInvalid);
    }
    if |lengths[0]| > MAX_INT_DIGITS {
      return Err(LengthNotConvertible);
    }
    var length := ParseDecimal(lengths[0]);
    if length <= 0 {
      return Err(SizeInvalid);
    }
    if length > MAX_BODY {
      return Err(TooLarge);
    }
    var body := stream.Read(length);
    if |body| != length {
      return Err(Truncated);
    }
    assert old(stream.unread)[..length] == body;
    return Ok(body);
  }

  /** A length too long for int() is neither a size that is invalid nor one that is too large. */
  lemma LongLengthIsNotConvertible(input: Octets)
    ensures Framed([], [seq(MAX_INT_DIGITS + 1, i => '0')], input) == Err(LengthNotConvertible)
  {
  }
}
