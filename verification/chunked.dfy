/** The copier of a chunked body that keeps every byte of the framing (section 7.1 of RFC 9112). */
module Chunked {
  import opened Options
  import Io
  import opened Segments
  import opened Sequences

  const MAX_CHUNK_LINE_LEN: nat := 4096
  const MAX_CHUNK_SIZE: nat := 0x400_0000
  const MAX_CHUNK_TRAILER_LINE: nat := 64

  const LF: byte := 10
  const CR: byte := 13
  const SEMICOLON: byte := 59
  const CRLF: seq<byte> := [CR, LF]

  datatype Error = EOF | UnexpectedEOF | LineTooLong | BadNumber | SizeOutOfRange | TooManyTrailers

  // ---- Lines ----

  /** The position of the first `b`, or the length if there is none. */
  function IndexOf(s: seq<byte>, b: byte): (k: nat)
    ensures k <= |s| && b !in s[..k] && (k < |s| ==> s[k] == b)
  {
    if s == [] then 0
    else if s[0] == b then 0
    else
      var k := IndexOf(s[1..], b);
      assert s[..k + 1] == [s[0]] + s[1..][..k];
      k + 1
  }

  datatype LineResult = Line(line: seq<byte>, rest: seq<byte>) | NoLine(error: Error)

  /** The next line with its newline, if it is at most `max` bytes long. */
  function ReadLine(s: seq<byte>, max: nat): LineResult {
    var k := IndexOf(s, LF);
    if k < |s| && k + 1 <= max then Line(s[..k + 1], s[k + 1..])
    else if k < |s| || |s| > max then NoLine(LineTooLong)
    else NoLine(EOF)
  }

  // ---- Chunk sizes ----

  /** How many bytes of white space `s` starts with, as one character: ASCII or one of the other
      Unicode spaces in UTF-8. */
  function SpaceFront(s: seq<byte>): nat {
    if s == [] then 0
    else if 9 <= s[0] <= 13 || s[0] == 32 then 1
    else if |s| >= 2 && WideSpace(s[..2]) then 2
    else if |s| >= 3 && WideSpace(s[..3]) then 3
    else 0
  }

  function SpaceBack(s: seq<byte>): (k: nat)
    ensures k <= |s|
  {
    if s == [] then 0
    else if 9 <= s[|s| - 1] <= 13 || s[|s| - 1] == 32 then 1
    else if |s| >= 2 && WideSpace(s[|s| - 2..]) then 2
    else if |s| >= 3 && WideSpace(s[|s| - 3..]) then 3
    else 0
  }

  predicate WideSpace(c: seq<byte>) {
    || c == [0xC2, 0x85] || c == [0xC2, 0xA0] || c == [0xE1, 0x9A, 0x80]
    || (|c| == 3 && c[..2] == [0xE2, 0x80] && (0x80 <= c[2] <= 0x8A || c[2] == 0xA8 || c[2] == 0xA9 || c[2] == 0xAF))
    || c == [0xE2, 0x81, 0x9F] || c == [0xE3, 0x80, 0x80]
  }

  function TrimLeft(s: seq<byte>): seq<byte> {
    if SpaceFront(s) == 0 then s else TrimLeft(s[SpaceFront(s)..])
  }

  function TrimRight(s: seq<byte>): seq<byte> {
    if SpaceBack(s) == 0 then s else TrimRight(s[..|s| - SpaceBack(s)])
  }

  predicate IsHex(b: byte) {
    48 <= b <= 57 || 65 <= b <= 70 || 97 <= b <= 102
  }

  function HexDigit(b: byte): nat {
    if 48 <= b <= 57 then b - 48 else if 65 <= b <= 70 then b - 55 else if 97 <= b <= 102 then b - 87 else 0
  }

  function HexValue(ds: seq<byte>): nat {
    if ds == [] then 0 else 16 * HexValue(ds[..|ds| - 1]) + HexDigit(ds[|ds| - 1])
  }

  predicate AllHex(ds: seq<byte>) {
    ds != [] && forall i :: 0 <= i < |ds| ==> IsHex(ds[i])
  }

  /** `strconv.ParseInt` in base 16 and 64 bits. */
  function ParseInt(s: seq<byte>): Option<int> {
    if s == [] then None
    else
      var signed := s[0] == 43 || s[0] == 45;
      var ds := if signed then s[1..] else s;
      if !AllHex(ds) then None
      else
        var v: int := if s[0] == 45 then 0 - HexValue(ds) else HexValue(ds);
        if -0x8000_0000_0000_0000 <= v < 0x8000_0000_0000_0000 then Some(v) else None
  }

  /** The number a chunk line announces: trimmed, then cut at the first semicolon. */
  function SizeOf(line: seq<byte>): Option<int> {
    var t := TrimRight(TrimLeft(line));
    ParseInt(t[..IndexOf(t, SEMICOLON)])
  }

  // ---- Copying ----

  /** What a copy writes, and either what it leaves unread or why it fails. */
  datatype Outcome = Copied(written: seq<byte>, rest: seq<byte>) | Failed(written: seq<byte>, error: Error)

  function Writing(w: seq<byte>, o: Outcome): Outcome {
    o.(written := w + o.written)
  }

  predicate Blank(line: seq<byte>) {
    line == CRLF || line == [LF]
  }

  function Trailers(s: seq<byte>, left: nat): Outcome {
    if left == 0 then Failed([], TooManyTrailers)
    else
      match ReadLine(s, MAX_CHUNK_LINE_LEN)
      case NoLine(e) => Failed([], e)
      case Line(line, rest) => if Blank(line) then Copied(line, rest) else Writing(line, Trailers(rest, left - 1))
  }

  /** The chunk data and the two bytes after it, whatever they are. */
  function Data(s: seq<byte>, size: nat): Outcome {
    if |s| < size then Failed(s, EOF)
    else if |s| == size then Failed(s, EOF)
    else if |s| == size + 1 then Failed(s[..size], UnexpectedEOF)
    else Copied(s[..size + 2], s[size + 2..])
  }

  function Copy(s: seq<byte>): Outcome
    decreases |s|
  {
    match ReadLine(s, MAX_CHUNK_LINE_LEN)
    case NoLine(e) => Failed([], e)
    case Line(line, rest) =>
      match SizeOf(line)
      case None => Failed(line, BadNumber)
      case Some(size) =>
        if size < 0 || size > MAX_CHUNK_SIZE then Failed(line, SizeOutOfRange)
        else if size == 0 then Writing(line, Trailers(rest, MAX_CHUNK_TRAILER_LINE))
        else
          match Data(rest, size)
          case Failed(w, e) => Failed(line + w, e)
          case Copied(w, later) => Writing(line + w, Copy(later))
  }

  // ---- The bodies that are copied ----

  predicate IsLine(l: seq<byte>) {
    0 < |l| <= MAX_CHUNK_LINE_LEN && l[|l| - 1] == LF && LF !in l[..|l| - 1]
  }

  datatype Chunk = Chunk(line: seq<byte>, data: seq<byte>, after: seq<byte>)

  datatype Body = Body(chunks: seq<Chunk>, last: seq<byte>, trailers: seq<seq<byte>>, blank: seq<byte>)

  predicate ChunkAccepted(c: Chunk) {
    IsLine(c.line) && 0 < |c.data| <= MAX_CHUNK_SIZE && SizeOf(c.line) == Some(|c.data|) && |c.after| == 2
  }

  predicate TrailersOk(ls: seq<seq<byte>>) {
    forall i :: 0 <= i < |ls| ==> IsLine(ls[i]) && !Blank(ls[i])
  }

  predicate Accepted(b: Body) {
    && (forall i :: 0 <= i < |b.chunks| ==> ChunkAccepted(b.chunks[i]))
    && IsLine(b.last) && SizeOf(b.last) == Some(0)
    && |b.trailers| < MAX_CHUNK_TRAILER_LINE
    && TrailersOk(b.trailers)
    && Blank(b.blank)
  }

  function ChunkText(c: Chunk): seq<byte> {
    c.line + c.data + c.after
  }

  function TrailerText(ls: seq<seq<byte>>, blank: seq<byte>): seq<byte> {
    if ls == [] then blank else ls[0] + TrailerText(ls[1..], blank)
  }

  function Text(b: Body): seq<byte>
    decreases |b.chunks|
  {
    if b.chunks == [] then b.last + TrailerText(b.trailers, b.blank)
    else ChunkText(b.chunks[0]) + Text(b.(chunks := b.chunks[1..]))
  }

  lemma {:induction false} IndexOfFirst(s: seq<byte>, b: byte, k: nat)
    requires k < |s| && s[k] == b && b !in s[..k]
    ensures IndexOf(s, b) == k
  {
    if k > 0 {
      assert s[0] == s[..k][0];
      assert s[1..][..k - 1] == s[..k][1..];
      IndexOfFirst(s[1..], b, k - 1);
    }
  }

  lemma ReadLineAppended(l: seq<byte>, rest: seq<byte>)
    requires IsLine(l)
    ensures ReadLine(l + rest, MAX_CHUNK_LINE_LEN) == Line(l, rest)
  {
    var s := l + rest;
    assert s[..|l| - 1] == l[..|l| - 1];
    IndexOfFirst(s, LF, |l| - 1);
    assert s[..|l|] == l && s[|l|..] == rest;
  }

  lemma ReadLineIsLine(s: seq<byte>)
    requires ReadLine(s, MAX_CHUNK_LINE_LEN).Line?
    ensures
      var Line(line, rest) := ReadLine(s, MAX_CHUNK_LINE_LEN);
      IsLine(line) && s == line + rest
  {
  }

  lemma BlankIsLine(l: seq<byte>)
    requires Blank(l)
    ensures IsLine(l)
  {
  }

  lemma {:induction false} TrailersComplete(ls: seq<seq<byte>>, blank: seq<byte>, rest: seq<byte>, left: nat)
    requires |ls| < left && Blank(blank) && TrailersOk(ls)
    ensures Trailers(TrailerText(ls, blank) + rest, left) == Copied(TrailerText(ls, blank), rest)
  {
    hide IsLine, ReadLine;
    if ls == [] {
      BlankIsLine(blank);
      ReadLineAppended(blank, rest);
    } else {
      TrailersComplete(ls[1..], blank, rest, left - 1);
      var later := TrailerText(ls[1..], blank);
      ReadLineAppended(ls[0], later + rest);
      Assoc(ls[0], later, rest);
    }
  }

  lemma CopyOneChunk(c: Chunk, later: seq<byte>)
    requires ChunkAccepted(c)
    ensures Copy(ChunkText(c) + later) == Writing(ChunkText(c), Copy(later))
  {
    var rest := c.data + c.after + later;
    assert ChunkText(c) + later == c.line + rest;
    ReadLineAppended(c.line, rest);
    assert rest[..|c.data| + 2] == c.data + c.after && rest[|c.data| + 2..] == later;
    Assoc(c.line, c.data, c.after);
  }

  lemma CopyLastChunk(b: Body, rest: seq<byte>)
    requires Accepted(b) && b.chunks == []
    ensures Copy(Text(b) + rest) == Copied(Text(b), rest)
  {
    var tail := TrailerText(b.trailers, b.blank);
    TrailersComplete(b.trailers, b.blank, rest, MAX_CHUNK_TRAILER_LINE);
    ReadLineAppended(b.last, tail + rest);
    Assoc(b.last, tail, rest);
    hide IsLine, ReadLine, TrailerText, Trailers, SizeOf;
  }

  /** Every accepted body is copied whole, whatever follows it, and what follows is left unread. */
  lemma {:induction false} CopyComplete(b: Body, rest: seq<byte>)
    requires Accepted(b)
    ensures Copy(Text(b) + rest) == Copied(Text(b), rest)
    decreases |b.chunks|
  {
    if b.chunks == [] {
      CopyLastChunk(b, rest);
    } else {
      var c, b' := b.chunks[0], b.(chunks := b.chunks[1..]);
      CopyComplete(b', rest);
      CopyOneChunk(c, Text(b') + rest);
      Assoc(ChunkText(c), Text(b'), rest);
      hide Copy, ChunkText;
    }
  }

  lemma AddTrailer(line: seq<byte>, ls: seq<seq<byte>>, blank: seq<byte>)
    requires IsLine(line) && !Blank(line) && TrailersOk(ls)
    ensures TrailersOk([line] + ls) && TrailerText([line] + ls, blank) == line + TrailerText(ls, blank)
  {
    assert ([line] + ls)[1..] == ls;
  }

  lemma {:induction false} TrailersSound(s: seq<byte>, left: nat) returns (ls: seq<seq<byte>>, blank: seq<byte>)
    requires Trailers(s, left).Copied?
    ensures |ls| < left && Blank(blank) && TrailersOk(ls)
    ensures Trailers(s, left).written == TrailerText(ls, blank)
    ensures s == TrailerText(ls, blank) + Trailers(s, left).rest
  {
    ReadLineIsLine(s);
    var Line(line, rest) := ReadLine(s, MAX_CHUNK_LINE_LEN);
    hide ReadLine, IsLine, Blank;
    if Blank(line) {
      ls, blank := [], line;
    } else {
      hide TrailersOk, TrailerText;
      var o := Trailers(rest, left - 1);
      assert Trailers(s, left) == Writing(line, o);
      hide Trailers;
      ls, blank := TrailersSound(rest, left - 1);
      Assoc(line, TrailerText(ls, blank), o.rest);
      AddTrailer(line, ls, blank);
      ls := [line] + ls;
    }
  }

  lemma DataSplits(s: seq<byte>, size: nat)
    requires Data(s, size).Copied?
    ensures
      var Copied(w, later) := Data(s, size);
      |w| == size + 2 && w == w[..size] + w[size..] && s == w + later
  {
  }

  lemma Ended(line: seq<byte>, rest: seq<byte>, s: seq<byte>) returns (b: Body)
    requires IsLine(line) && SizeOf(line) == Some(0) && s == line + rest
    requires Trailers(rest, MAX_CHUNK_TRAILER_LINE).Copied?
    ensures Accepted(b) && Text(b) == line + Trailers(rest, MAX_CHUNK_TRAILER_LINE).written
    ensures s == Text(b) + Trailers(rest, MAX_CHUNK_TRAILER_LINE).rest
  {
    hide SizeOf, IsLine;
    var ls, blank := TrailersSound(rest, MAX_CHUNK_TRAILER_LINE);
    b := Body([], line, ls, blank);
    Assoc(line, TrailerText(ls, blank), Trailers(rest, MAX_CHUNK_TRAILER_LINE).rest);
  }

  /** A copy that succeeds has copied exactly an accepted body. */
  lemma {:induction false} CopySound(s: seq<byte>) returns (b: Body)
    requires Copy(s).Copied?
    ensures Accepted(b) && Copy(s).written == Text(b) && s == Text(b) + Copy(s).rest
    decreases |s|
  {
    ReadLineIsLine(s);
    var Line(line, rest) := ReadLine(s, MAX_CHUNK_LINE_LEN);
    var size := SizeOf(line).value;
    if size == 0 {
      b := Ended(line, rest, s);
    } else {
      DataSplits(rest, size);
      var Copied(w, later) := Data(rest, size);
      b := CopySound(later);
      var c := Chunk(line, w[..size], w[size..]);
      assert ChunkText(c) == line + w;
      assert Copy(s) == Writing(line + w, Copy(later));
      hide Copy, ReadLine, SizeOf, IsLine, Data;
      b := Prepended(c, b);
      Assoc(line, w, later);
      Assoc(ChunkText(c), Text(b.(chunks := b.chunks[1..])), Copy(later).rest);
    }
  }

  lemma Prepended(c: Chunk, b: Body) returns (b': Body)
    requires ChunkAccepted(c) && Accepted(b)
    ensures Accepted(b') && b'.chunks == [c] + b.chunks && b'.(chunks := b'.chunks[1..]) == b
    ensures Text(b') == ChunkText(c) + Text(b)
  {
    hide ChunkAccepted, ChunkText;
    b' := b.(chunks := [c] + b.chunks);
    assert b'.chunks[1..] == b.chunks;
  }

  /** The copier's language: it succeeds exactly on inputs that start with an accepted body. */
  lemma CopiesExactlyAccepted(s: seq<byte>)
    ensures Copy(s).Copied? <==> exists b: Body :: Accepted(b) && Text(b) <= s
  {
    hide Copy, Text, Accepted;
    if Copy(s).Copied? {
      var b := CopySound(s);
      assert Text(b) <= s;
    }
    forall b: Body | Accepted(b) && Text(b) <= s ensures Copy(s).Copied? {
      assert s == Text(b) + s[|Text(b)|..];
      CopyComplete(b, s[|Text(b)|..]);
    }
  }

  // ---- The grammar of RFC 9112 ----

  /** `chunk-size [ chunk-ext ] CRLF` with no blank before the extension. */
  function SizeLine(digits: seq<byte>, ext: seq<byte>): seq<byte> {
    digits + ext + CRLF
  }

  predicate IsExtension(ext: seq<byte>) {
    ext == [] || (ext[0] == SEMICOLON && LF !in ext)
  }

  /** A byte that no white space character contains. */
  predicate Solid(b: byte) {
    33 <= b < 128
  }

  lemma SolidFront(s: seq<byte>)
    requires s != [] && Solid(s[0])
    ensures TrimLeft(s) == s
  {
    assert |s| >= 2 ==> s[..2][0] == s[0];
    assert |s| >= 3 ==> s[..3][0] == s[0];
  }

  /** A space character never reaches back over a solid byte. */
  lemma NoStraddle(p: seq<byte>, q: seq<byte>)
    requires p != [] && Solid(p[|p| - 1])
    ensures SpaceBack(p + q) <= |q|
  {
    var s := p + q;
    assert s[|p| - 1] == p[|p| - 1];
  }

  /** Trimming stops at the last solid byte at the latest. */
  lemma {:induction false} TrimStops(p: seq<byte>, q: seq<byte>) returns (q': seq<byte>)
    requires p != [] && Solid(p[|p| - 1])
    ensures TrimRight(p + q) == p + q' && q' <= q && SpaceBack(p + q') == 0
    decreases |q|
  {
    hide SpaceBack;
    var s := p + q;
    var k := SpaceBack(s);
    if k == 0 {
      q' := q;
    } else {
      NoStraddle(p, q);
      assert s[..|s| - k] == p + q[..|q| - k];
      q' := TrimStops(p, q[..|q| - k]);
    }
  }

  lemma HexIsSolid(ds: seq<byte>)
    requires AllHex(ds)
    ensures Solid(ds[0]) && Solid(ds[|ds| - 1]) && SEMICOLON !in ds && LF !in ds
  {
  }

  /** What is left of a line after trimming and cutting, when its first semicolon is at `|h|`. */
  lemma CutAtSemicolon(h: seq<byte>, more: seq<byte>)
    requires h != [] && Solid(h[0]) && SEMICOLON !in h
    ensures SizeOf(h + [SEMICOLON] + more) == ParseInt(h)
  {
    var p := h + [SEMICOLON];
    SolidFront(p + more);
    var q' := TrimStops(p, more);
    var t := p + q';
    assert t[..|h|] == h && t[|h|] == SEMICOLON;
    IndexOfFirst(t, SEMICOLON, |h|);
    hide TrimRight, TrimLeft, ParseInt;
  }

  lemma SpaceTail(h: seq<byte>, k: nat)
    requires 1 <= k <= 2
    ensures SpaceBack(h + CRLF[..k]) > 0
  {
    assert (h + CRLF[..k])[|h| + k - 1] == CRLF[k - 1];
  }

  lemma CutAtEnd(h: seq<byte>)
    requires AllHex(h)
    ensures SizeOf(h + CRLF) == ParseInt(h)
  {
    HexIsSolid(h);
    SolidFront(h + CRLF);
    var q' := TrimStops(h, CRLF);
    SpaceTail(h, 1);
    SpaceTail(h, 2);
    assert q' == CRLF[..|q'|];
    NilRight(h);
    assert IndexOf(h, SEMICOLON) == |h|;
    hide TrimRight, TrimLeft, ParseInt;
  }

  lemma SizeLineValue(digits: seq<byte>, ext: seq<byte>)
    requires AllHex(digits) && IsExtension(ext) && HexValue(digits) <= MAX_CHUNK_SIZE
    ensures SizeOf(SizeLine(digits, ext)) == Some(HexValue(digits))
  {
    HexIsSolid(digits);
    hide HexValue;
    if ext == [] {
      assert SizeLine(digits, ext) == digits + CRLF;
      CutAtEnd(digits);
    } else {
      assert SizeLine(digits, ext) == digits + [SEMICOLON] + (ext[1..] + CRLF);
      CutAtSemicolon(digits, ext[1..] + CRLF);
    }
  }

  /** The grammar allows blanks before a chunk extension; the copier takes the size line exactly
      when there are none, since it trims before it cuts at the semicolon. */
  lemma BlankBeforeExtension(digits: seq<byte>, blanks: seq<byte>, ext: seq<byte>)
    requires AllHex(digits) && HexValue(digits) <= MAX_CHUNK_SIZE
    requires forall b :: b in blanks ==> b == 32 || b == 9
    requires ext != [] && IsExtension(ext)
    ensures SizeOf(digits + blanks + ext + CRLF).Some? <==> blanks == []
  {
    HexIsSolid(digits);
    var h := digits + blanks;
    assert digits + blanks + ext + CRLF == h + [SEMICOLON] + (ext[1..] + CRLF);
    CutAtSemicolon(h, ext[1..] + CRLF);
    if blanks == [] {
      assert h == digits;
    } else {
      assert h[|h| - 1] == blanks[|blanks| - 1] && h[|h| - 1] in blanks;
      assert !AllHex(h) && !AllHex(h[1..]);
    }
    hide HexValue;
  }

  /** A chunked body of the standard, without blanks before its extensions. */
  datatype RfcChunk = RfcChunk(digits: seq<byte>, ext: seq<byte>, data: seq<byte>)

  datatype RfcBody = RfcBody(chunks: seq<RfcChunk>, zeros: seq<byte>, ext: seq<byte>, fields: seq<seq<byte>>)

  predicate SizeLineFits(digits: seq<byte>, ext: seq<byte>) {
    |digits| + |ext| + 2 <= MAX_CHUNK_LINE_LEN
  }

  predicate RfcChunkOk(c: RfcChunk) {
    && AllHex(c.digits) && HexValue(c.digits) == |c.data| && 0 < |c.data| <= MAX_CHUNK_SIZE
    && IsExtension(c.ext) && SizeLineFits(c.digits, c.ext)
  }

  predicate FieldOk(f: seq<byte>) {
    f != [] && LF !in f && |f| + 2 <= MAX_CHUNK_LINE_LEN
  }

  /** Within the copier's limits. */
  predicate RfcOk(b: RfcBody) {
    && (forall i :: 0 <= i < |b.chunks| ==> RfcChunkOk(b.chunks[i]))
    && AllHex(b.zeros) && HexValue(b.zeros) == 0 && IsExtension(b.ext) && SizeLineFits(b.zeros, b.ext)
    && |b.fields| < MAX_CHUNK_TRAILER_LINE
    && (forall i :: 0 <= i < |b.fields| ==> FieldOk(b.fields[i]))
  }

  function Parsed(c: RfcChunk): Chunk {
    Chunk(SizeLine(c.digits, c.ext), c.data, CRLF)
  }

  function FieldLine(f: seq<byte>): seq<byte> {
    f + CRLF
  }

  function ParsedBody(b: RfcBody): Body {
    Body(seq(|b.chunks|, i requires 0 <= i < |b.chunks| => Parsed(b.chunks[i])),
         SizeLine(b.zeros, b.ext),
         seq(|b.fields|, i requires 0 <= i < |b.fields| => FieldLine(b.fields[i])),
         CRLF)
  }

  lemma SizeLineIsLine(digits: seq<byte>, ext: seq<byte>)
    requires AllHex(digits) && IsExtension(ext) && SizeLineFits(digits, ext)
    ensures IsLine(SizeLine(digits, ext))
  {
    HexIsSolid(digits);
    var l := SizeLine(digits, ext);
    assert l[..|l| - 1] == digits + ext + [CR];
  }

  lemma FieldLineIsLine(f: seq<byte>)
    requires FieldOk(f)
    ensures IsLine(FieldLine(f)) && !Blank(FieldLine(f))
  {
    var l := FieldLine(f);
    assert l[..|l| - 1] == f + [CR];
  }

  /** Every chunked body of the standard within the limits, with no blank before an extension, is
      copied byte for byte, and what follows it on the connection is left unread. */
  lemma StandardBodyCopied(b: RfcBody, rest: seq<byte>)
    requires RfcOk(b)
    ensures Copy(Text(ParsedBody(b)) + rest) == Copied(Text(ParsedBody(b)), rest)
  {
    var p := ParsedBody(b);
    forall i | 0 <= i < |p.chunks| ensures ChunkAccepted(p.chunks[i]) {
      var c := b.chunks[i];
      assert RfcChunkOk(c);
      SizeLineIsLine(c.digits, c.ext);
      SizeLineValue(c.digits, c.ext);
    }
    SizeLineIsLine(b.zeros, b.ext);
    SizeLineValue(b.zeros, b.ext);
    forall i | 0 <= i < |p.trailers| ensures IsLine(p.trailers[i]) && !Blank(p.trailers[i]) {
      FieldLineIsLine(b.fields[i]);
    }
    hide RfcOk, ChunkAccepted, IsLine, SizeOf, HexValue, Copy, Text;
    CopyComplete(p, rest);
  }

  // ---- Any input ----

  lemma WritingTwice(a: seq<byte>, b: seq<byte>, o: Outcome)
    ensures Writing(a, Writing(b, o)) == Writing(a + b, o)
  {
    Assoc(a, b, o.written);
  }

  lemma PrefixAfter(a: seq<byte>, w: seq<byte>, s: seq<byte>)
    requires w <= s
    ensures a + w <= a + s
  {
  }

  /** The output is a prefix of the input, and after a success the rest of it is unread. */
  predicate Faithful(o: Outcome, s: seq<byte>) {
    o.written <= s && (o.Copied? ==> s == o.written + o.rest)
  }

  lemma AfterLine(line: seq<byte>, rest: seq<byte>, o: Outcome)
    requires Faithful(o, rest)
    ensures Faithful(Writing(line, o), line + rest)
  {
    PrefixAfter(line, o.written, rest);
    if o.Copied? {
      Assoc(line, o.written, o.rest);
    }
  }

  lemma LineAlone(line: seq<byte>, rest: seq<byte>, e: Error)
    ensures Faithful(Failed(line, e), line + rest)
    ensures Faithful(Failed([], e), line)
    ensures Faithful(Copied(line, rest), line + rest)
  {
  }

  lemma {:induction false} TrailersFaithful(s: seq<byte>, left: nat)
    ensures Faithful(Trailers(s, left), s)
  {
    hide Faithful, Writing;
    LineAlone(s, [], TooManyTrailers);
    if left > 0 {
      var l := ReadLine(s, MAX_CHUNK_LINE_LEN);
      if l.Line? {
        ReadLineIsLine(s);
        hide ReadLine, IsLine;
        TrailersFaithful(l.rest, left - 1);
        LineAlone(l.line, l.rest, EOF);
        AfterLine(l.line, l.rest, Trailers(l.rest, left - 1));
      } else {
        LineAlone(s, [], l.error);
      }
    }
  }

  lemma DataFaithful(s: seq<byte>, size: nat)
    ensures Faithful(Data(s, size), s)
  {
  }

  /** On any input the copier writes a prefix of the input, and after a success leaves the rest. */
  lemma {:induction false} CopyFaithful(s: seq<byte>)
    ensures Faithful(Copy(s), s)
    decreases |s|, 1
  {
    hide Faithful, Writing;
    var l := ReadLine(s, MAX_CHUNK_LINE_LEN);
    if l.NoLine? {
      LineAlone(s, [], l.error);
    } else {
      ReadLineIsLine(s);
      hide ReadLine, IsLine, SizeOf, Data;
      var size := SizeOf(l.line);
      if size.None? || size.value < 0 || size.value > MAX_CHUNK_SIZE {
        LineAlone(l.line, l.rest, if size.None? then BadNumber else SizeOutOfRange);
      } else if size.value == 0 {
        TrailersFaithful(l.rest, MAX_CHUNK_TRAILER_LINE);
        AfterLine(l.line, l.rest, Trailers(l.rest, MAX_CHUNK_TRAILER_LINE));
      } else {
        DataFaithful(l.rest, size.value);
        ChunkFaithful(l.line, l.rest, Data(l.rest, size.value));
      }
    }
  }

  lemma ChunkFaithful(line: seq<byte>, rest: seq<byte>, o: Outcome)
    requires line != [] && Faithful(o, rest)
    ensures o.Failed? ==> Faithful(Failed(line + o.written, o.error), line + rest)
    ensures o.Copied? ==> Faithful(Writing(line + o.written, Copy(o.rest)), line + rest)
    decreases |line| + |rest|, 0
  {
    if o.Copied? {
      CopyFaithful(o.rest);
      hide Copy;
      AfterLine(line + o.written, o.rest, Copy(o.rest));
      Assoc(line, o.written, o.rest);
    } else {
      PrefixAfter(line, o.written, rest);
    }
  }

  // ---- The copier ----

  /** A `bufio.Reader`: `rest` is what will still arrive before the connection ends. */
  class Reader {
    var rest: seq<byte>
    const size: nat

    constructor (bytes: seq<byte>, size: nat)
      requires size >= 16
      ensures rest == bytes && this.size == size
    {
      rest, this.size := bytes, size;
    }

    /** `ReadSlice`: up to the newline, or a full buffer (`full`), or all there is (`end`). */
    method ReadSlice() returns (piece: seq<byte>, full: bool, end: bool)
      requires size >= 16
      modifies this
      ensures old(rest) == piece + rest
      ensures
        var k := IndexOf(old(rest), LF);
        if k < |old(rest)| && k < size then !full && !end && piece == old(rest)[..k + 1]
        else if |old(rest)| >= size then full && !end && |piece| == size
        else end && !full && rest == []
      ensures full || end ==> LF !in piece
    {
      var k := IndexOf(rest, LF);
      var n := if k < |rest| && k < size then k + 1 else if |rest| >= size then size else |rest|;
      full := !(k < |rest| && k < size) && |rest| >= size;
      end := !(k < |rest| && k < size) && !full;
      piece, rest := rest[..n], rest[n..];
    }

    /** A full read of `n` bytes. */
    method ReadFull(n: nat) returns (piece: seq<byte>, err: Option<Error>)
      modifies this
      ensures old(rest) == piece + rest
      ensures |piece| == if |old(rest)| < n then |old(rest)| else n
      ensures err == if |piece| == n then None else if piece == [] then Some(EOF) else Some(UnexpectedEOF)
    {
      var k := if |rest| < n then |rest| else n;
      piece, rest := rest[..k], rest[k..];
      err := if k == n then None else if k == 0 then Some(EOF) else Some(UnexpectedEOF);
    }
  }

  /** Before the first newline, the newline is where it is after the part already read. */
  lemma IndexOfSplit(sb: seq<byte>, rest: seq<byte>)
    requires LF !in sb
    ensures IndexOf(sb + rest, LF) == |sb| + IndexOf(rest, LF)
  {
    var s, k := sb + rest, IndexOf(rest, LF);
    if k < |rest| {
      assert s[..|sb| + k] == sb + rest[..k];
      IndexOfFirst(s, LF, |sb| + k);
    } else {
      assert rest[..k] == rest;
      assert IndexOf(s, LF) < |s| ==> s[IndexOf(s, LF)] in s;
    }
  }

  /** How far a reader has come: what it has consumed of its bytes. */
  ghost predicate Consumed(before: seq<byte>, taken: seq<byte>, rest: seq<byte>) {
    before == taken + rest
  }

  method ReadLineLimited(br: Reader, max: nat) returns (line: seq<byte>, err: Option<Error>, ghost taken: seq<byte>)
    requires br.size >= 16
    modifies br
    ensures Consumed(old(br.rest), taken, br.rest) && (err == None ==> line != [])
    ensures
      match ReadLine(old(br.rest), max)
      case Line(l, rest) => err == None && line == l == taken && br.rest == rest
      case NoLine(e) => err == Some(e)
  {
    hide IndexOf;
    var sb := [];
    while true
      invariant old(br.rest) == sb + br.rest && LF !in sb && |sb| <= max
      decreases |br.rest|
    {
      IndexOfSplit(sb, br.rest);
      ghost var before := br.rest;
      var piece, full, end := br.ReadSlice();
      Assoc(sb, piece, br.rest);
      sb := sb + piece;
      taken := sb;
      if |sb| > max {
        return [], Some(LineTooLong), taken;
      }
      if full {
        continue;
      }
      if end {
        return sb, Some(EOF), taken;
      }
      return sb, None, taken;
    }
  }

  method CopyTrailers(w: Io.Writer, br: Reader) returns (err: Option<Error>, ghost taken: seq<byte>)
    requires br.size >= 16
    modifies w, br
    ensures Consumed(old(br.rest), taken, br.rest)
    ensures
      var o := Trailers(old(br.rest), MAX_CHUNK_TRAILER_LINE);
      && w.out == old(w.out) + o.written && o.written <= taken
      && match o
         case Copied(written, rest) => err == None && br.rest == rest && taken == written
         case Failed(_, e) => err == Some(e)
  {
    hide ReadLine;
    taken := [];
    var i := 0;
    while i < MAX_CHUNK_TRAILER_LINE
      invariant i <= MAX_CHUNK_TRAILER_LINE
      invariant Consumed(old(br.rest), taken, br.rest)
      invariant w.out == old(w.out) + taken
      invariant Trailers(old(br.rest), MAX_CHUNK_TRAILER_LINE)
             == Writing(taken, Trailers(br.rest, MAX_CHUNK_TRAILER_LINE - i))
    {
      var tline, e, t := ReadLineLimited(br, MAX_CHUNK_LINE_LEN);
      Assoc(taken, t, br.rest);
      if e.Some? {
        NilRight(taken);
        taken := taken + t;
        return e, taken;
      }
      w.Write(tline);
      Assoc(old(w.out), taken, tline);
      WritingTwice(taken, tline, Trailers(br.rest, MAX_CHUNK_TRAILER_LINE - i - 1));
      taken := taken + tline;
      if tline == CRLF || tline == [LF] {
        return None, taken;
      }
      i := i + 1;
    }
    NilRight(taken);
    err := Some(TooManyTrailers);
  }

  /** The data of one chunk and what follows it. */
  method CopyData(w: Io.Writer, br: Reader, size: nat) returns (err: Option<Error>, ghost taken: seq<byte>)
    requires size > 0
    modifies w, br
    ensures Consumed(old(br.rest), taken, br.rest)
    ensures
      var o := Data(old(br.rest), size);
      && w.out == old(w.out) + o.written && o.written <= taken
      && match o
         case Copied(written, rest) => err == None && br.rest == rest && taken == written
         case Failed(_, e) => err == Some(e)
  {
    var data, f := br.ReadFull(size);
    w.Write(data);
    if f.Some? {
      return Some(EOF), data;
    }
    var crlf;
    crlf, f := br.ReadFull(2);
    taken := data + crlf;
    if f.Some? {
      return f, taken;
    }
    w.Write(crlf);
    Assoc(old(w.out), data, crlf);
    return None, taken;
  }

  /** Copies a body: writes what `Copy` says and fails when it does; what it has written is always
      a prefix of what it has consumed, and after a success it is all of it. */
  method CopyRawChunked(w: Io.Writer, br: Reader) returns (err: Option<Error>, ghost taken: seq<byte>)
    requires br.size >= 16
    modifies w, br
    ensures Consumed(old(br.rest), taken, br.rest)
    ensures w.out == old(w.out) + Copy(old(br.rest)).written && Copy(old(br.rest)).written <= taken
    ensures
      match Copy(old(br.rest))
      case Copied(written, rest) => err == None && br.rest == rest && taken == written
      case Failed(_, e) => err == Some(e)
  {
    hide SizeOf, ReadLine, Data, Trailers;
    taken := [];
    ghost var input := br.rest;
    NilRight(w.out);
    while true
      invariant Consumed(input, taken, br.rest)
      invariant w.out == old(w.out) + taken
      invariant Copy(input) == Writing(taken, Copy(br.rest))
      decreases |br.rest|
    {
      ghost var here := br.rest;
      var line, e, t := ReadLineLimited(br, MAX_CHUNK_LINE_LEN);
      ghost var start := taken;
      taken := start + t;
      Assoc(start, t, br.rest);
      if e.Some? {
        NilRight(start);
        return e, taken;
      }
      w.Write(line);
      Assoc(old(w.out), start, line);
      var size := SizeOf(line);
      if size.None? {
        return Some(BadNumber), taken;
      }
      if size.value < 0 || size.value > MAX_CHUNK_SIZE {
        return Some(SizeOutOfRange), taken;
      }
      ghost var rest := br.rest;
      if size.value == 0 {
        e, t := CopyTrailers(w, br);
        Joined(old(w.out), start, line, Trailers(rest, MAX_CHUNK_TRAILER_LINE).written, t);
        Assoc(taken, t, br.rest);
        taken := taken + t;
        return e, taken;
      }
      e, t := CopyData(w, br, size.value);
      Joined(old(w.out), start, line, Data(rest, size.value).written, t);
      Assoc(taken, t, br.rest);
      taken := taken + t;
      if e.Some? {
        return e, taken;
      }
      WritingTwice(start, line + t, Copy(br.rest));
    }
  }

  lemma Joined(out: seq<byte>, start: seq<byte>, line: seq<byte>, written: seq<byte>, taken: seq<byte>)
    requires written <= taken
    ensures out + (start + line) + written == out + (start + (line + written))
    ensures start + line + written == start + (line + written) <= start + line + taken
    ensures start + line + taken == start + (line + taken)
  {
  }
}
