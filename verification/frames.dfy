/** The multiplexer's frames on the wire: `muxPackager` packs and unpacks them, `readSession` reads
    them one after another until the link fails. */
module Frames {
  import opened Options
  import opened Io
  import opened Segments
  import opened Sequences
  import opened Words
  import opened LittleEndian

  const PING: byte := 0
  const NEW_CONN_OK: byte := 1
  const NEW_CONN_FAIL: byte := 2
  const NEW_MSG: byte := 3
  const NEW_MSG_PART: byte := 4
  const MSG_SEND_OK: byte := 5
  const NEW_CONN: byte := 6
  const CONN_CLOSE: byte := 7
  const PING_RETURN: byte := 8

  type i32 = n: int | -0x8000_0000 <= n < 0x8000_0000

  predicate CarriesContent(flag: byte) {
    flag == NEW_MSG || flag == NEW_MSG_PART || flag == PING || flag == PING_RETURN
  }

  datatype Frame =
    | WithContent(flag: byte, id: i32, content: seq<byte>)
    | WithWindow(id: i32, window: u64)
    | Bare(flag: byte, id: i32)

  function Flag(f: Frame): byte {
    if f.WithWindow? then MSG_SEND_OK else f.flag
  }

  predicate WellFormed(f: Frame) {
    match f
    case WithContent(flag, _, content) => CarriesContent(flag) && |content| <= MAXIMUM_SEGMENT_SIZE
    case WithWindow(_, _) => true
    case Bare(flag, _) => !CarriesContent(flag) && flag != MSG_SEND_OK
  }

  /** Two's complement. */
  function Unsigned(id: i32): u32 {
    if id < 0 then id + TWO32 else id
  }

  function Signed(u: u32): i32 {
    if u >= TWO31 then u - TWO32 else u
  }

  function Encode(f: Frame): seq<byte> {
    match f
    case WithContent(flag, id, content) => [flag] + Put(Unsigned(id), 4) + Put(|content|, 2) + content
    case WithWindow(id, window) => [MSG_SEND_OK] + Put(Unsigned(id), 4) + Put(window, 8)
    case Bare(flag, id) => [flag] + Put(Unsigned(id), 4)
  }

  function EncodeAll(fs: seq<Frame>): seq<byte> {
    if fs == [] then [] else Encode(fs[0]) + EncodeAll(fs[1..])
  }

  datatype Error = Broken(cause: ReadError) | ContentTooLong | SegmentTooLarge

  /** The outcome of reading one frame from a stream of bytes that then ends. */
  datatype Outcome = Got(frame: Frame, rest: seq<byte>) | Fail(error: Error)

  function DecodeContent(flag: byte, id: i32, s: seq<byte>): Outcome {
    if FullReadError(s, 2).Some? then Fail(Broken(FullReadError(s, 2).value))
    else
      var n := Get(s[..2]);
      if n > POOL_SIZE_WINDOW then Fail(ContentTooLong)
      else if n > MAXIMUM_SEGMENT_SIZE then Fail(SegmentTooLarge)
      else if FullReadError(s[2..], n).Some? then Fail(Broken(FullReadError(s[2..], n).value))
      else Got(WithContent(flag, id, s[2..2 + n]), s[2 + n..])
  }

  function DecodeWindow(id: i32, s: seq<byte>): Outcome {
    if FullReadError(s, 8).Some? then Fail(Broken(FullReadError(s, 8).value))
    else
      PutGet(s[..8]); Spans();
      Got(WithWindow(id, Get(s[..8])), s[8..])
  }

  function HeaderId(s: seq<byte>): i32
    requires |s| == 4
  {
    PutGet(s); Spans();
    Signed(Get(s))
  }

  function Decode(s: seq<byte>): Outcome {
    if FullReadError(s, 5).Some? then Fail(Broken(FullReadError(s, 5).value))
    else
      var flag, id := s[0], HeaderId(s[1..5]);
      if CarriesContent(flag) then DecodeContent(flag, id, s[5..])
      else if flag == MSG_SEND_OK then DecodeWindow(id, s[5..])
      else Got(Bare(flag, id), s[5..])
  }

  /** What reading frames until the first error yields. */
  datatype Session = Session(frames: seq<Frame>, error: Error)

  function DecodeAll(s: seq<byte>): Session
    decreases |s|
  {
    match Decode(s)
    case Fail(e) => Session([], e)
    case Got(f, rest) =>
      DecodeConsumes(s);
      After([f], DecodeAll(rest))
  }

  /** A session that reads `fs` first. */
  function After(fs: seq<Frame>, later: Session): Session {
    Session(fs + later.frames, later.error)
  }

  lemma AfterAfter(fs: seq<Frame>, gs: seq<Frame>, later: Session)
    ensures After(fs, After(gs, later)) == After(fs + gs, later)
  {
    Assoc(fs, gs, later.frames);
  }

  lemma DecodeConsumes(s: seq<byte>)
    requires Decode(s).Got?
    ensures |Decode(s).rest| < |s|
  {
  }

  // ---- Round trips ----

  lemma HeaderRoundTrip(flag: byte, id: i32, tail: seq<byte>)
    ensures
      var s := [flag] + Put(Unsigned(id), 4) + tail;
      s[0] == flag && s[1..5] == Put(Unsigned(id), 4) && HeaderId(s[1..5]) == id && s[5..] == tail
  {
    Spans();
    GetPut(Unsigned(id), 4);
    assert ([flag] + Put(Unsigned(id), 4) + tail)[1..5] == Put(Unsigned(id), 4);
  }

  lemma Parts(a: seq<byte>, b: seq<byte>, c: seq<byte>)
    ensures (a + b + c)[..|a|] == a
    ensures |(a + b + c)[|a|..]| == |b| + |c|
    ensures (a + b + c)[|a|..|a| + |b|] == b
    ensures (a + b + c)[|a| + |b|..] == c
  {
  }

  lemma ContentRoundTrip(flag: byte, id: i32, content: seq<byte>, rest: seq<byte>)
    requires |content| <= MAXIMUM_SEGMENT_SIZE
    ensures DecodeContent(flag, id, Put(|content|, 2) + content + rest) == Got(WithContent(flag, id, content), rest)
  {
    Spans();
    GetPut(|content|, 2);
    hide Put;
    hide Get;
    Parts(Put(|content|, 2), content, rest);
  }

  lemma WindowFrameRoundTrip(id: i32, window: u64, rest: seq<byte>)
    ensures DecodeWindow(id, Put(window, 8) + rest) == Got(WithWindow(id, window), rest)
  {
    var tail := Put(window, 8) + rest;
    Spans();
    GetPut(window, 8);
    hide Put;
    assert tail[..8] == Put(window, 8) && tail[8..] == rest;
  }

  /** A well-formed frame followed by any bytes is read back and leaves exactly those bytes. */
  lemma RoundTrip(f: Frame, rest: seq<byte>)
    requires WellFormed(f)
    ensures Decode(Encode(f) + rest) == Got(f, rest)
  {
    hide Put;
    hide Get;
    hide HeaderId;
    hide DecodeContent;
    hide DecodeWindow;
    match f
    case WithContent(flag, id, content) =>
      var tail := Put(|content|, 2) + content + rest;
      assert Encode(f) + rest == [flag] + Put(Unsigned(id), 4) + tail;
      HeaderRoundTrip(flag, id, tail);
      ContentRoundTrip(flag, id, content, rest);
    case WithWindow(id, window) =>
      var tail := Put(window, 8) + rest;
      assert Encode(f) + rest == [MSG_SEND_OK] + Put(Unsigned(id), 4) + tail;
      HeaderRoundTrip(MSG_SEND_OK, id, tail);
      WindowFrameRoundTrip(id, window, rest);
    case Bare(flag, id) =>
      HeaderRoundTrip(flag, id, rest);
  }

  lemma ContentCanonical(flag: byte, id: i32, s: seq<byte>)
    requires DecodeContent(flag, id, s).Got?
    ensures
      var Got(f, rest) := DecodeContent(flag, id, s);
      f.WithContent? && f.flag == flag && f.id == id && |f.content| <= MAXIMUM_SEGMENT_SIZE
      && s == Put(|f.content|, 2) + f.content + rest
  {
    PutGet(s[..2]);
    hide Put;
    hide Get;
    var n := Get(s[..2]);
    assert s == s[..2] + s[2..2 + n] + s[2 + n..];
  }

  lemma WindowCanonical(id: i32, s: seq<byte>)
    requires DecodeWindow(id, s).Got?
    ensures
      var Got(f, rest) := DecodeWindow(id, s);
      f.WithWindow? && f.id == id && s == Put(f.window, 8) + rest
  {
    PutGet(s[..8]);
    hide Put;
    hide Get;
    assert s == s[..8] + s[8..];
  }

  lemma HeaderCanonical(s: seq<byte>)
    requires |s| >= 5
    ensures s == [s[0]] + Put(Unsigned(HeaderId(s[1..5])), 4) + s[5..]
  {
    Spans();
    PutGet(s[1..5]);
    hide Put;
    hide Get;
    assert s == [s[0]] + s[1..5] + s[5..];
  }

  /** The reader accepts only what a packager can have written: a decoded frame is well formed and
      its encoding is exactly the bytes consumed. */
  lemma DecodeIsCanonical(s: seq<byte>)
    requires Decode(s).Got?
    ensures WellFormed(Decode(s).frame)
    ensures s == Encode(Decode(s).frame) + Decode(s).rest
  {
    hide Put;
    hide Get;
    hide HeaderId;
    hide DecodeContent;
    hide DecodeWindow;
    HeaderCanonical(s);
    var flag, id, tail := s[0], HeaderId(s[1..5]), s[5..];
    var Got(f, rest) := Decode(s);
    if CarriesContent(flag) {
      ContentCanonical(flag, id, tail);
      assert [flag] + Put(Unsigned(id), 4) + (Put(|f.content|, 2) + f.content + rest) == Encode(f) + rest;
    } else if flag == MSG_SEND_OK {
      WindowCanonical(id, tail);
      assert [flag] + Put(Unsigned(id), 4) + (Put(f.window, 8) + rest) == Encode(f) + rest;
    }
  }

  /** The second size check of `UnPack` never fires: the pooled buffer has the segment size. */
  lemma SegmentCheckRedundant(s: seq<byte>)
    ensures Decode(s) != Fail(SegmentTooLarge)
  {
  }

  /** Where a frame can be cut so that the reader sees a clean end of input instead of an
      unexpected one: before it, after its header, or after its content length. */
  predicate CutBetweenReads(f: Frame, k: nat) {
    k == 0 || (k == 5 && !f.Bare?) || (k == 7 && f.WithContent?)
  }

  /** A proper prefix of a frame is never read as a frame; the error tells only whether the cut
      falls between two of the reader's reads. */
  lemma CutFrameFails(f: Frame, k: nat)
    requires WellFormed(f) && k < |Encode(f)|
    ensures Decode(Encode(f)[..k]) == Fail(Broken(if CutBetweenReads(f, k) then EOF else UnexpectedEOF))
  {
    Spans();
    var s, p := Encode(f), Encode(f)[..k];
    if k >= 5 {
      assert p[..5] == s[..5] && p[0] == s[0] && p[1..5] == s[1..5];
      match f
      case WithContent(flag, id, content) =>
        HeaderRoundTrip(flag, id, Put(|content|, 2) + content);
        assert s == [flag] + Put(Unsigned(id), 4) + (Put(|content|, 2) + content);
        GetPut(|content|, 2);
        if k >= 7 {
          assert p[5..7] == s[5..7];
          assert p[5..][..2] == p[5..7];
          assert s[5..7] == Put(|content|, 2);
        }
      case WithWindow(id, window) =>
        HeaderRoundTrip(MSG_SEND_OK, id, Put(window, 8));
      case Bare(flag, id) =>
    }
  }

  lemma {:induction false} DecodeAllPrefix(fs: seq<Frame>, tail: seq<byte>)
    requires forall f :: f in fs ==> WellFormed(f)
    ensures DecodeAll(EncodeAll(fs) + tail) == After(fs, DecodeAll(tail))
  {
    if fs == [] {
      assert EncodeAll(fs) + tail == tail;
      assert fs + DecodeAll(tail).frames == DecodeAll(tail).frames;
    } else {
      DecodeAllPrefix(fs[1..], tail);
      assert EncodeAll(fs) + tail == Encode(fs[0]) + (EncodeAll(fs[1..]) + tail);
      RoundTrip(fs[0], EncodeAll(fs[1..]) + tail);
      hide Encode;
      hide Decode;
      AfterAfter([fs[0]], fs[1..], DecodeAll(tail));
      assert [fs[0]] + fs[1..] == fs;
    }
  }

  /** Any list of frames, packed one after another, is read back exactly and then the input ends. */
  lemma AllFramesSurvive(fs: seq<Frame>)
    requires forall f :: f in fs ==> WellFormed(f)
    ensures DecodeAll(EncodeAll(fs)) == Session(fs, Broken(EOF))
  {
    DecodeAllPrefix(fs, []);
    NilRight(fs);
    assert EncodeAll(fs) + [] == EncodeAll(fs);
  }

  /** A link that breaks inside a frame yields the whole frames before it and then an error. */
  lemma CutStream(fs: seq<Frame>, f: Frame, k: nat)
    requires (forall g :: g in fs ==> WellFormed(g)) && WellFormed(f) && k < |Encode(f)|
    ensures DecodeAll(EncodeAll(fs) + Encode(f)[..k])
         == Session(fs, Broken(if CutBetweenReads(f, k) then EOF else UnexpectedEOF))
  {
    hide Encode;
    hide Decode;
    CutFrameFails(f, k);
    DecodeAllPrefix(fs, Encode(f)[..k]);
    NilRight(fs);
  }

  // ---- The packager ----

  /** The last argument of `Set`: nil, a byte slice or a window. */
  datatype Payload = Nothing | Slice(data: seq<byte>) | Size(w: u64)

  /** What `Set` makes of its arguments: content that is too large is dropped without an error. */
  function Requested(flag: byte, id: i32, p: Payload): Frame
    requires flag == MSG_SEND_OK ==> p.Size?
  {
    if CarriesContent(flag) then
      WithContent(flag, id, if p.Slice? && |p.data| <= MAXIMUM_SEGMENT_SIZE then p.data else [])
    else if flag == MSG_SEND_OK then WithWindow(id, p.w)
    else Bare(flag, id)
  }

  /** Content given to `Set` reaches the other side exactly when it fits a segment; content that
      does not arrives as an empty frame. */
  lemma ContentSurvivesIffFits(flag: byte, id: i32, data: seq<byte>, rest: seq<byte>)
    requires CarriesContent(flag)
    ensures
      var got := Decode(Encode(Requested(flag, id, Slice(data))) + rest);
      && got.Got? && got.rest == rest
      && (got.frame == WithContent(flag, id, data) <==> |data| <= MAXIMUM_SEGMENT_SIZE)
      && (|data| > MAXIMUM_SEGMENT_SIZE ==> got.frame == WithContent(flag, id, []))
  {
    RoundTrip(Requested(flag, id, Slice(data)), rest);
  }

  class Packager {
    var flag: byte
    var id: i32
    var window: u64
    var buf: array<byte>
    var length: u16
    var content: array<byte>

    ghost predicate Valid()
      reads this
    {
      buf.Length == content.Length == POOL_SIZE_WINDOW && length <= POOL_SIZE_WINDOW && buf != content
    }

    /** The frame that the fields describe. */
    function Loaded(): Frame
      requires Valid()
      reads this, content
    {
      if CarriesContent(flag) then WithContent(flag, id, content[..length])
      else if flag == MSG_SEND_OK then WithWindow(id, window)
      else Bare(flag, id)
    }

    /** A packager as it comes out of its pool. */
    constructor ()
      ensures Valid() && length == 0 && fresh(buf) && fresh(content)
    {
      flag, id, window, length := 0, 0, 0, 0;
      buf, content := new byte[POOL_SIZE_WINDOW], new byte[POOL_SIZE_WINDOW];
    }

    /** `basePackager.Set`. */
    method SetContent(data: seq<byte>)
      requires Valid()
      modifies this`length, content
      ensures Valid()
      ensures content[..length] == if |data| <= MAXIMUM_SEGMENT_SIZE then data else []
    {
      length := 0;
      if |data| > MAXIMUM_SEGMENT_SIZE {
        return;
      }
      forall i | 0 <= i < |data| {
        content[i] := data[i];
      }
      length := |data|;
    }

    method Set(flag: byte, id: i32, p: Payload)
      requires Valid() && length == 0
      requires flag == MSG_SEND_OK ==> p.Size?
      requires CarriesContent(flag) ==> !p.Size?
      modifies this
      ensures Valid() && fresh(buf) && (content == old(content) || fresh(content))
      ensures Loaded() == Requested(flag, id, p) && WellFormed(Loaded())
    {
      buf := new byte[POOL_SIZE_WINDOW];
      this.flag := flag;
      this.id := id;
      if CarriesContent(flag) {
        content := new byte[POOL_SIZE_WINDOW];
        if p.Slice? {
          SetContent(p.data);
        }
      } else if flag == MSG_SEND_OK {
        window := p.w;
      }
    }

    /** Writes exactly the encoding of the loaded frame. */
    method Pack(writer: Writer)
      requires Valid()
      modifies buf, writer
      ensures Valid() && Loaded() == old(Loaded())
      ensures writer.out == old(writer.out) + Encode(Loaded())
    {
      buf[0] := flag;
      PutInto(buf, 1, Unsigned(id), 4);
      ghost var header := [flag] + Put(Unsigned(id), 4);
      assert buf[..5] == header;
      if CarriesContent(flag) {
        PutInto(buf, 5, length, 2);
        assert buf[..7] == header + Put(length, 2);
        writer.Write(buf[..7]);
        writer.Write(content[..length]);
        assert writer.out == old(writer.out) + (header + Put(length, 2) + content[..length]);
      } else if flag == MSG_SEND_OK {
        PutInto(buf, 5, window, 8);
        assert buf[..13] == header + Put(window, 8);
        writer.Write(buf[..13]);
      } else {
        writer.Write(buf[..5]);
      }
    }

    /** `basePackager.UnPack`. */
    method UnpackContent(reader: Reader) returns (n: u16, err: Option<Error>)
      requires Valid()
      modifies this`length, buf, content, reader
      ensures Valid() && n <= 2 + MAXIMUM_SEGMENT_SIZE
      ensures
        match DecodeContent(flag, id, old(reader.rest))
        case Fail(e) => err == Some(e)
        case Got(f, rest) =>
          && err == None && reader.rest == rest && f == WithContent(flag, id, content[..length])
          && n == |old(reader.rest)| - |rest|
    {
      length, n := 0, 0;
      ghost var s := reader.rest;
      var l, e := reader.ReadFull(buf, 5, 7);
      if e.Some? {
        return n, Some(Broken(e.value));
      }
      n := n + l;
      assert buf[5..7] == s[..2];
      PutGet(buf[5..7]);
      Spans();
      var size := Get(buf[5..7]);
      if size > content.Length {
        return n, Some(ContentTooLong);
      }
      if size > MAXIMUM_SEGMENT_SIZE {
        return n, Some(SegmentTooLarge);
      }
      length := size;
      l, e := reader.ReadFull(content, 0, length);
      n := n + l;
      assert e == None ==> content[..length] == s[2..2 + length];
      err := if e.Some? then Some(Broken(e.value)) else None;
    }

    /** Reads one frame: the fields then describe it, and `n` is the number of bytes it took. */
    method Unpack(reader: Reader) returns (n: u16, err: Option<Error>)
      requires Valid()
      modifies this, reader
      ensures Valid() && fresh(buf) && (content == old(content) || fresh(content))
      ensures
        match Decode(old(reader.rest))
        case Fail(e) => err == Some(e)
        case Got(f, rest) => err == None && Loaded() == f && reader.rest == rest && n == |Encode(f)|
    {
      hide Put;
      hide Get;
      hide Encode;
      hide DecodeContent;
      n := 0;
      ghost var s := reader.rest;
      buf := new byte[POOL_SIZE_WINDOW];
      var l, e := reader.ReadFull(buf, 0, 5);
      if e.Some? {
        return n, Some(Broken(e.value));
      }
      err := None;
      n := n + l;
      assert buf[0] == s[0] && buf[1..5] == s[1..5];
      flag := buf[0];
      id := HeaderId(buf[1..5]);
      if CarriesContent(flag) {
        content := new byte[POOL_SIZE_WINDOW];
        var m;
        m, err := UnpackContent(reader);
        if err.Some? {
          return;
        }
        n := n + m;
      } else if flag == MSG_SEND_OK {
        l, e := reader.ReadFull(buf, 5, 13);
        assert e == None ==> buf[5..13] == s[5..][..8];
        err := if e.Some? then Some(Broken(e.value)) else None;
        PutGet(buf[5..13]);
        Spans();
        window := Get(buf[5..13]);
        n := n + l;
      }
      if err == None {
        DecodeIsCanonical(s);
      }
    }
  }

  /** The reading loop of a session: frames until the first error. */
  method ReadSession(reader: Reader) returns (frames: seq<Frame>, error: Error)
    modifies reader
    ensures Session(frames, error) == DecodeAll(old(reader.rest))
  {
    hide Decode;
    frames := [];
    while true
      invariant DecodeAll(old(reader.rest)) == After(frames, DecodeAll(reader.rest))
      decreases |reader.rest|
    {
      var pack := new Packager();
      ghost var s := reader.rest;
      var n, err := pack.Unpack(reader);
      if err.Some? {
        NilRight(frames);
        return frames, err.value;
      }
      DecodeConsumes(s);
      var frame := pack.Loaded();
      AfterAfter(frames, [frame], DecodeAll(reader.rest));
      frames := frames + [frame];
    }
  }
}
