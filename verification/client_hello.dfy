/** The ClientHello parser (section 7.4.1.2 of RFC 5246, server names of section 3 of RFC 6066). */
module ClientHello {
  import opened Options
  import opened Segments
  import opened Sequences
  import opened Words
  import opened BigEndian

  const STATUS_TYPE_OCSP: byte := 1
  const SERVER_NAME: u16 := 0
  const STATUS_REQUEST: u16 := 5
  const SUPPORTED_CURVES: u16 := 10
  const SUPPORTED_POINTS: u16 := 11
  const SIGNATURE_ALGORITHMS: u16 := 13
  const ALPN: u16 := 16
  const SCT: u16 := 18
  const SESSION_TICKET: u16 := 35
  const NEXT_PROTO_NEG: u16 := 13172
  const RENEGOTIATION_INFO: u16 := 0xff01
  const SCSV_RENEGOTIATION: u16 := 0x00ff

  const DOT: byte := 46

  /** The fields of a parsed message. */
  datatype Hello = Hello(
    vers: u16,
    random: seq<byte>,
    sessionId: seq<byte>,
    cipherSuites: seq<u16>,
    compressionMethods: seq<byte>,
    nextProtoNeg: bool,
    serverName: seq<byte>,
    ocspStapling: bool,
    scts: bool,
    supportedCurves: seq<u16>,
    supportedPoints: seq<byte>,
    ticketSupported: bool,
    sessionTicket: seq<byte>,
    signatureAlgorithms: seq<u16>,
    secureRenegotiation: seq<byte>,
    secureRenegotiationSupported: bool,
    alpnProtocols: seq<seq<byte>>)

  // ---- Messages as the standards describe them ----

  datatype Name = Name(kind: byte, text: seq<byte>)

  /** `host` is the first name of type 0; nothing looks at what comes after it. */
  datatype Extension =
    | ServerNames(others: seq<Name>, host: Option<seq<byte>>, unread: seq<byte>)
    | NextProtoNeg
    | StatusRequest(body: seq<byte>)
    | SupportedCurves(numbers: seq<u16>)
    | SupportedPoints(body: seq<byte>)
    | SessionTicket(body: seq<byte>)
    | SignatureAlgorithms(numbers: seq<u16>)
    | RenegotiationInfo(body: seq<byte>)
    | Alpn(protocols: seq<seq<byte>>)
    | Sct
    | Unknown(kind: u16, body: seq<byte>)

  datatype Message = Message(
    header: seq<byte>,
    vers: u16,
    random: seq<byte>,
    sessionId: seq<byte>,
    cipherSuites: seq<u16>,
    compressionMethods: seq<byte>,
    extensions: Option<seq<Extension>>)

  function Be16s(ns: seq<u16>): (s: seq<byte>)
    ensures |s| == 2 * |ns|
  {
    if ns == [] then [] else Be(ns[0]) + Be16s(ns[1..])
  }

  function NameBytes(n: Name): seq<byte>
    requires |n.text| < 0x1_0000
  {
    [n.kind] + Be(|n.text|) + n.text
  }

  predicate NamesOk(ns: seq<Name>) {
    forall i :: 0 <= i < |ns| ==> ns[i].kind != 0 && |ns[i].text| < 0x1_0000
  }

  function NamesBytes(ns: seq<Name>): seq<byte>
    requires NamesOk(ns)
  {
    if ns == [] then [] else NameBytes(ns[0]) + NamesBytes(ns[1..])
  }

  predicate HostOk(host: Option<seq<byte>>, unread: seq<byte>) {
    if host.None? then unread == [] else |host.value| < 0x1_0000
  }

  function HostBytes(host: Option<seq<byte>>, unread: seq<byte>): seq<byte>
    requires HostOk(host, unread)
  {
    if host.None? then [] else NameBytes(Name(0, host.value)) + unread
  }

  predicate ProtocolsOk(ps: seq<seq<byte>>) {
    forall i :: 0 <= i < |ps| ==> 0 < |ps[i]| < 256
  }

  function ProtocolsBytes(ps: seq<seq<byte>>): seq<byte>
    requires ProtocolsOk(ps)
  {
    if ps == [] then [] else [|ps[0]|] + ps[0] + ProtocolsBytes(ps[1..])
  }

  predicate Known(kind: u16) {
    || kind == SERVER_NAME || kind == STATUS_REQUEST || kind == SUPPORTED_CURVES || kind == SUPPORTED_POINTS
    || kind == SIGNATURE_ALGORITHMS || kind == ALPN || kind == SCT || kind == SESSION_TICKET
    || kind == NEXT_PROTO_NEG || kind == RENEGOTIATION_INFO
  }

  /** A list with its length in two bytes before it. */
  function Counted(s: seq<byte>): seq<byte>
    requires |s| < 0x1_0000
  {
    Be(|s|) + s
  }

  predicate ShapeOk(e: Extension) {
    match e
    case ServerNames(others, host, unread) =>
      NamesOk(others) && HostOk(host, unread) && |NamesBytes(others) + HostBytes(host, unread)| < 0x1_0000
    case SupportedCurves(numbers) => 2 * |numbers| < 0x1_0000
    case SignatureAlgorithms(numbers) => 2 * |numbers| < 0x1_0000
    case SupportedPoints(body) => |body| < 256
    case RenegotiationInfo(body) => |body| < 256
    case Alpn(protocols) => ProtocolsOk(protocols) && |ProtocolsBytes(protocols)| < 0x1_0000
    case Unknown(kind, _) => !Known(kind)
    case _ => true
  }

  function Body(e: Extension): seq<byte>
    requires ShapeOk(e)
  {
    match e
    case ServerNames(others, host, unread) => Counted(NamesBytes(others) + HostBytes(host, unread))
    case NextProtoNeg => []
    case StatusRequest(body) => body
    case SupportedCurves(numbers) => Counted(Be16s(numbers))
    case SupportedPoints(body) => [|body|] + body
    case SessionTicket(body) => body
    case SignatureAlgorithms(numbers) => Counted(Be16s(numbers))
    case RenegotiationInfo(body) => [|body|] + body
    case Alpn(protocols) => Counted(ProtocolsBytes(protocols))
    case Sct => []
    case Unknown(_, body) => body
  }

  function Kind(e: Extension): u16 {
    match e
    case ServerNames(_, _, _) => SERVER_NAME
    case NextProtoNeg => NEXT_PROTO_NEG
    case StatusRequest(_) => STATUS_REQUEST
    case SupportedCurves(_) => SUPPORTED_CURVES
    case SupportedPoints(_) => SUPPORTED_POINTS
    case SessionTicket(_) => SESSION_TICKET
    case SignatureAlgorithms(_) => SIGNATURE_ALGORITHMS
    case RenegotiationInfo(_) => RENEGOTIATION_INFO
    case Alpn(_) => ALPN
    case Sct => SCT
    case Unknown(kind, _) => kind
  }

  predicate ExtensionOk(e: Extension) {
    ShapeOk(e) && |Body(e)| < 0x1_0000
  }

  function EncodeExtension(e: Extension): seq<byte>
    requires ExtensionOk(e)
  {
    Be(Kind(e)) + Counted(Body(e))
  }

  predicate ExtensionsOk(es: seq<Extension>) {
    forall i :: 0 <= i < |es| ==> ExtensionOk(es[i])
  }

  function EncodeExtensions(es: seq<Extension>): seq<byte>
    requires ExtensionsOk(es)
  {
    if es == [] then [] else EncodeExtension(es[0]) + EncodeExtensions(es[1..])
  }

  predicate MessageOk(m: Message) {
    && |m.header| == 4 && |m.random| == 32 && |m.sessionId| <= 32
    && 2 * |m.cipherSuites| < 0x1_0000 && |m.compressionMethods| < 256
    && (m.extensions.Some? ==> ExtensionsOk(m.extensions.value) && |EncodeExtensions(m.extensions.value)| < 0x1_0000)
  }

  function EncodeTail(es: Option<seq<Extension>>): seq<byte>
    requires es.Some? ==> ExtensionsOk(es.value) && |EncodeExtensions(es.value)| < 0x1_0000
  {
    if es.None? then [] else Counted(EncodeExtensions(es.value))
  }

  function Encode(m: Message): seq<byte>
    requires MessageOk(m)
  {
    m.header + Be(m.vers) + m.random + [|m.sessionId|] + m.sessionId
    + (Counted(Be16s(m.cipherSuites)) + ([|m.compressionMethods|] + m.compressionMethods + EncodeTail(m.extensions)))
  }

  // ---- What a message means ----

  predicate EndsWithDot(s: seq<byte>) {
    s != [] && s[|s| - 1] == DOT
  }

  /** The effect of one extension; a host name with a trailing dot spoils the message. */
  function Apply(h: Hello, e: Extension): Option<Hello> {
    match e
    case ServerNames(_, host, _) =>
      if host.None? then Some(h)
      else if EndsWithDot(host.value) then None
      else Some(h.(serverName := host.value))
    case NextProtoNeg => Some(h.(nextProtoNeg := true))
    case StatusRequest(body) => Some(h.(ocspStapling := body != [] && body[0] == STATUS_TYPE_OCSP))
    case SupportedCurves(numbers) => Some(h.(supportedCurves := numbers))
    case SupportedPoints(body) => Some(h.(supportedPoints := body))
    case SessionTicket(body) => Some(h.(ticketSupported := true, sessionTicket := body))
    case SignatureAlgorithms(numbers) => Some(h.(signatureAlgorithms := numbers))
    case RenegotiationInfo(body) => Some(h.(secureRenegotiation := body, secureRenegotiationSupported := true))
    case Alpn(protocols) => Some(h.(alpnProtocols := h.alpnProtocols + protocols))
    case Sct => Some(h.(scts := true))
    case Unknown(_, _) => Some(h)
  }

  function ApplyAll(h: Hello, es: seq<Extension>): Option<Hello>
    decreases |es|
  {
    if es == [] then Some(h)
    else
      match Apply(h, es[0])
      case None => None
      case Some(h') => ApplyAll(h', es[1..])
  }

  /** The message object after the fixed part: curves, points and renegotiation data keep what the
      object held before. */
  function Started(h: Hello, vers: u16, random: seq<byte>, sessionId: seq<byte>, suites: seq<u16>,
                   methods: seq<byte>): Hello {
    Hello(vers, random, sessionId, suites, methods, false, [], false, false, h.supportedCurves, h.supportedPoints,
          false, [], [], h.secureRenegotiation,
          h.secureRenegotiationSupported || SCSV_RENEGOTIATION in suites, [])
  }

  function Meaning(h: Hello, m: Message): Option<Hello> {
    ApplyAll(Started(h, m.vers, m.random, m.sessionId, m.cipherSuites, m.compressionMethods), Listed(m.extensions))
  }

  function Listed(es: Option<seq<Extension>>): seq<Extension> {
    if es.Some? then es.value else []
  }

  // ---- The parser ----

  function U16s(s: seq<byte>): (ns: seq<u16>)
    requires |s| % 2 == 0
    ensures |ns| == |s| / 2
  {
    if s == [] then [] else [Num(s[0], s[1])] + U16s(s[2..])
  }

  /** The server name of a name list, `current` if it has no host name. */
  function ParseNames(d: seq<byte>, current: seq<byte>): Option<seq<byte>>
    decreases |d|
  {
    if d == [] then Some(current)
    else if |d| < 3 then None
    else
      var n := Num(d[1], d[2]);
      if |d| - 3 < n then None
      else if d[0] == 0 then (if EndsWithDot(d[3..3 + n]) then None else Some(d[3..3 + n]))
      else ParseNames(d[3 + n..], current)
  }

  function ParseProtocols(d: seq<byte>): Option<seq<seq<byte>>>
    decreases |d|
  {
    if d == [] then Some([])
    else if d[0] == 0 || d[0] > |d| - 1 then None
    else
      match ParseProtocols(d[1 + d[0]..])
      case None => None
      case Some(ps) => Some([d[1..1 + d[0]]] + ps)
  }

  /** Whether `b` is a list that fills it after its two length bytes. */
  predicate IsCounted(b: seq<byte>) {
    |b| >= 2 && Num(b[0], b[1]) == |b| - 2
  }

  function ParseBody(h: Hello, kind: u16, b: seq<byte>): Option<Hello> {
    if kind == SERVER_NAME then
      if !IsCounted(b) then None
      else
        match ParseNames(b[2..], h.serverName)
        case None => None
        case Some(name) => Some(h.(serverName := name))
    else if kind == NEXT_PROTO_NEG then
      if b != [] then None else Some(h.(nextProtoNeg := true))
    else if kind == STATUS_REQUEST then
      Some(h.(ocspStapling := b != [] && b[0] == STATUS_TYPE_OCSP))
    else if kind == SUPPORTED_CURVES then
      if !IsCounted(b) || |b| % 2 == 1 then None else Some(h.(supportedCurves := U16s(b[2..])))
    else if kind == SUPPORTED_POINTS then
      if b == [] || |b| - 1 != b[0] then None else Some(h.(supportedPoints := b[1..]))
    else if kind == SESSION_TICKET then
      Some(h.(ticketSupported := true, sessionTicket := b))
    else if kind == SIGNATURE_ALGORITHMS then
      if !IsCounted(b) || |b| % 2 == 1 then None else Some(h.(signatureAlgorithms := U16s(b[2..])))
    else if kind == RENEGOTIATION_INFO then
      if b == [] || |b| - 1 != b[0] then None
      else Some(h.(secureRenegotiation := b[1..], secureRenegotiationSupported := true))
    else if kind == ALPN then
      if !IsCounted(b) then None
      else
        match ParseProtocols(b[2..])
        case None => None
        case Some(ps) => Some(h.(alpnProtocols := h.alpnProtocols + ps))
    else if kind == SCT then
      if b != [] then None else Some(h.(scts := true))
    else Some(h)
  }

  function ParseExtensions(h: Hello, d: seq<byte>): Option<Hello>
    decreases |d|
  {
    if d == [] then Some(h)
    else if |d| < 4 || |d| - 4 < Num(d[2], d[3]) then None
    else
      var n := Num(d[2], d[3]);
      match ParseBody(h, Num(d[0], d[1]), d[4..4 + n])
      case None => None
      case Some(h') => ParseExtensions(h', d[4 + n..])
  }

  function ParseTail(h: Hello, d: seq<byte>): Option<Hello> {
    if d == [] then Some(h)
    else if !IsCounted(d) then None
    else ParseExtensions(h, d[2..])
  }

  /** The fixed part of the message and what follows it. */
  datatype Fixed = Fixed(vers: u16, random: seq<byte>, sessionId: seq<byte>, suites: seq<u16>, methods: seq<byte>,
                         tail: seq<byte>)

  function ParseMethods(d: seq<byte>): Option<(seq<byte>, seq<byte>)> {
    if d == [] || |d| - 1 < d[0] then None else Some((d[1..1 + d[0]], d[1 + d[0]..]))
  }

  function ParseSuites(d: seq<byte>): Option<(seq<u16>, seq<byte>)> {
    if |d| < 2 then None
    else
      var n := Num(d[0], d[1]);
      if n % 2 == 1 || |d| < 2 + n then None else Some((U16s(d[2..2 + n]), d[2 + n..]))
  }

  function ParseFixed(data: seq<byte>): Option<Fixed> {
    if |data| < 42 then None
    else if data[38] > 32 || |data| < 39 + data[38] then None
    else
      match ParseSuites(data[39 + data[38]..])
      case None => None
      case Some((suites, d)) =>
        match ParseMethods(d)
        case None => None
        case Some((methods, tail)) =>
          Some(Fixed(Num(data[4], data[5]), data[6..38], data[39..39 + data[38]], suites, methods, tail))
  }

  /** The result of parsing into an object that holds `h`. */
  function Parse(h: Hello, data: seq<byte>): Option<Hello> {
    match ParseFixed(data)
    case None => None
    case Some(f) => ParseTail(Started(h, f.vers, f.random, f.sessionId, f.suites, f.methods), f.tail)
  }

  // ---- Encoded messages are understood ----

  lemma Front(a: seq<byte>, b: seq<byte>, c: seq<byte>)
    ensures |a + b + c| == |a| + |b| + |c|
    ensures (a + b + c)[..|a|] == a
    ensures (a + b + c)[|a|..|a| + |b|] == b
    ensures (a + b + c)[|a| + |b|..] == c
  {
  }

  lemma CountedSplits(s: seq<byte>)
    requires |s| < 0x1_0000
    ensures IsCounted(Counted(s)) && Counted(s)[2..] == s && |Counted(s)| == |s| + 2
  {
  }

  lemma {:induction false} U16sOfBe16s(ns: seq<u16>)
    ensures U16s(Be16s(ns)) == ns
  {
    if ns != [] {
      U16sOfBe16s(ns[1..]);
      assert Be16s(ns)[2..] == Be16s(ns[1..]);
    }
  }

  lemma {:induction false} Be16sOfU16s(s: seq<byte>)
    requires |s| % 2 == 0
    ensures Be16s(U16s(s)) == s
  {
    if s != [] {
      Be16sOfU16s(s[2..]);
      assert U16s(s)[1..] == U16s(s[2..]);
      assert s == s[..2] + s[2..] && Be(Num(s[0], s[1])) == s[..2];
    }
  }

  lemma OneName(n: Name, rest: seq<byte>, current: seq<byte>)
    requires |n.text| < 0x1_0000
    ensures
      ParseNames(NameBytes(n) + rest, current)
      == if n.kind == 0 then (if EndsWithDot(n.text) then None else Some(n.text)) else ParseNames(rest, current)
  {
    Front([n.kind] + Be(|n.text|), n.text, rest);
    var d := NameBytes(n) + rest;
    assert d[0] == n.kind && Num(d[1], d[2]) == |n.text|;
    assert d[3..3 + |n.text|] == n.text && d[3 + |n.text|..] == rest;
  }

  lemma {:induction false} NamesRoundTrip(ns: seq<Name>, host: Option<seq<byte>>, unread: seq<byte>, current: seq<byte>)
    requires NamesOk(ns) && HostOk(host, unread)
    ensures
      ParseNames(NamesBytes(ns) + HostBytes(host, unread), current)
      == if host.None? then Some(current) else if EndsWithDot(host.value) then None else Some(host.value)
  {
    if ns == [] {
      assert NamesBytes(ns) + HostBytes(host, unread) == HostBytes(host, unread);
      if host.Some? {
        OneName(Name(0, host.value), unread, current);
      }
    } else {
      NamesRoundTrip(ns[1..], host, unread, current);
      OneName(ns[0], NamesBytes(ns[1..]) + HostBytes(host, unread), current);
      Assoc(NameBytes(ns[0]), NamesBytes(ns[1..]), HostBytes(host, unread));
    }
  }

  lemma {:induction false} ProtocolsRoundTrip(ps: seq<seq<byte>>)
    requires ProtocolsOk(ps)
    ensures ParseProtocols(ProtocolsBytes(ps)) == Some(ps)
  {
    if ps != [] {
      ProtocolsRoundTrip(ps[1..]);
      Front([|ps[0]|], ps[0], ProtocolsBytes(ps[1..]));
      assert [ps[0]] + ps[1..] == ps;
    }
  }

  lemma BodyRoundTrip(h: Hello, e: Extension)
    requires ExtensionOk(e)
    ensures ParseBody(h, Kind(e), Body(e)) == Apply(h, e)
  {
    hide U16s, Be16s, ParseNames, ParseProtocols, NamesBytes, HostBytes, ProtocolsBytes, Counted, IsCounted;
    match e
    case ServerNames(others, host, unread) =>
      CountedSplits(NamesBytes(others) + HostBytes(host, unread));
      NamesRoundTrip(others, host, unread, h.serverName);
    case SupportedCurves(numbers) =>
      CountedSplits(Be16s(numbers));
      U16sOfBe16s(numbers);
    case SignatureAlgorithms(numbers) =>
      CountedSplits(Be16s(numbers));
      U16sOfBe16s(numbers);
    case Alpn(protocols) =>
      CountedSplits(ProtocolsBytes(protocols));
      ProtocolsRoundTrip(protocols);
    case _ =>
  }

  lemma HeaderRoundTrip(kind: u16, b: seq<byte>, rest: seq<byte>)
    requires |b| < 0x1_0000
    ensures
      var d := Be(kind) + Counted(b) + rest;
      |d| == 4 + |b| + |rest| && Num(d[0], d[1]) == kind && Num(d[2], d[3]) == |b|
      && d[4..4 + |b|] == b && d[4 + |b|..] == rest
  {
    Front(Be(kind) + Be(|b|), b, rest);
    assert Be(kind) + Counted(b) + rest == Be(kind) + Be(|b|) + b + rest;
  }

  lemma OneExtension(h: Hello, e: Extension, rest: seq<byte>)
    requires ExtensionOk(e)
    ensures
      ParseExtensions(h, EncodeExtension(e) + rest)
      == match Apply(h, e) case None => None case Some(h') => ParseExtensions(h', rest)
  {
    hide ParseBody, Apply, Counted, Kind, Num, Body;
    BodyRoundTrip(h, e);
    HeaderRoundTrip(Kind(e), Body(e), rest);
  }

  lemma {:induction false} ExtensionsRoundTrip(h: Hello, es: seq<Extension>)
    requires ExtensionsOk(es)
    ensures ParseExtensions(h, EncodeExtensions(es)) == ApplyAll(h, es)
    decreases |es|
  {
    if es != [] {
      hide ParseExtensions, EncodeExtension, Apply, ExtensionOk;
      OneExtension(h, es[0], EncodeExtensions(es[1..]));
      match Apply(h, es[0])
      case None =>
      case Some(h') => ExtensionsRoundTrip(h', es[1..]);
    }
  }

  lemma MethodsRoundTrip(methods: seq<byte>, tail: seq<byte>)
    requires |methods| < 256
    ensures ParseMethods([|methods|] + methods + tail) == Some((methods, tail))
  {
    Front([|methods|], methods, tail);
  }

  lemma CountedFront(s: seq<byte>, tail: seq<byte>)
    requires |s| < 0x1_0000
    ensures
      var d := Counted(s) + tail;
      |d| >= 2 + |s| && Num(d[0], d[1]) == |s| && d[2..2 + |s|] == s && d[2 + |s|..] == tail
  {
    Front(Be(|s|), s, tail);
  }

  lemma SuitesRoundTrip(suites: seq<u16>, tail: seq<byte>)
    requires 2 * |suites| < 0x1_0000
    ensures ParseSuites(Counted(Be16s(suites)) + tail) == Some((suites, tail))
  {
    hide Be16s, U16s, Counted, Num;
    CountedFront(Be16s(suites), tail);
    U16sOfBe16s(suites);
  }

  lemma StartRoundTrip(header: seq<byte>, vers: u16, random: seq<byte>, sessionId: seq<byte>, rest: seq<byte>)
    requires |header| == 4 && |random| == 32 && |sessionId| <= 32 && |rest| >= 3
    ensures
      var data := header + Be(vers) + random + [|sessionId|] + sessionId + rest;
      && |data| >= 42 && data[38] == |sessionId| && |data| >= 39 + |sessionId|
      && Num(data[4], data[5]) == vers && data[6..38] == random
      && data[39..39 + |sessionId|] == sessionId && data[39 + |sessionId|..] == rest
  {
    var start := header + Be(vers) + random + [|sessionId|];
    Front(start, sessionId, rest);
    var data := start + sessionId + rest;
    assert data[38] == start[38] == |sessionId|;
    assert data[6..38] == start[6..38] == random;
    assert Num(data[4], data[5]) == vers;
  }

  lemma FixedRoundTrip(m: Message)
    requires MessageOk(m)
    ensures ParseFixed(Encode(m))
         == Some(Fixed(m.vers, m.random, m.sessionId, m.cipherSuites, m.compressionMethods, EncodeTail(m.extensions)))
  {
    hide EncodeTail, ParseSuites, ParseMethods;
    var methods := [|m.compressionMethods|] + m.compressionMethods + EncodeTail(m.extensions);
    MethodsRoundTrip(m.compressionMethods, EncodeTail(m.extensions));
    SuitesRoundTrip(m.cipherSuites, methods);
    StartRoundTrip(m.header, m.vers, m.random, m.sessionId, Counted(Be16s(m.cipherSuites)) + methods);
    hide Num;
  }

  /** Every encoded message, with any mix of unknown and known extensions in any order and number,
      is parsed to what it means; it is refused exactly when that is spoiled by a dotted name. */
  lemma MessageRoundTrip(h: Hello, m: Message)
    requires MessageOk(m)
    ensures Parse(h, Encode(m)) == Meaning(h, m)
  {
    FixedRoundTrip(m);
    hide Encode, ParseFixed;
    if m.extensions.Some? {
      CountedSplits(EncodeExtensions(m.extensions.value));
      ExtensionsRoundTrip(Started(h, m.vers, m.random, m.sessionId, m.cipherSuites, m.compressionMethods),
                          m.extensions.value);
    }
  }

  predicate Dotted(e: Extension) {
    e.ServerNames? && e.host.Some? && EndsWithDot(e.host.value)
  }

  /** A message is refused exactly when one of its host names ends with a dot. */
  lemma {:induction false} RefusedIffDotted(h: Hello, es: seq<Extension>)
    ensures ApplyAll(h, es).None? <==> exists i :: 0 <= i < |es| && Dotted(es[i])
    decreases |es|
  {
    if es != [] {
      match Apply(h, es[0])
      case None =>
        assert Dotted(es[0]);
      case Some(h') =>
        RefusedIffDotted(h', es[1..]);
        assert !Dotted(es[0]);
        assert forall i :: 0 <= i < |es| - 1 ==> es[1..][i] == es[i + 1];
        if i :| 0 <= i < |es| && Dotted(es[i]) {
          assert Dotted(es[1..][i - 1]);
        }
    }
  }

  // ---- Only encoded messages are accepted ----

  lemma OneNameSound(d: seq<byte>, n: nat)
    requires |d| >= 3 && n == Num(d[1], d[2]) && |d| - 3 >= n
    ensures |d[3..3 + n]| == n < 0x1_0000 && d == NameBytes(Name(d[0], d[3..3 + n])) + d[3 + n..]
  {
    BeNum(d[1], d[2]);
    hide Be, Num;
    CutInThree(d, 3, 3 + n);
    assert d[..3] == [d[0]] + [d[1], d[2]];
  }

  lemma {:induction false} NamesSound(d: seq<byte>, current: seq<byte>)
    returns (others: seq<Name>, host: Option<seq<byte>>, unread: seq<byte>)
    requires ParseNames(d, current).Some?
    ensures NamesOk(others) && HostOk(host, unread) && d == NamesBytes(others) + HostBytes(host, unread)
    ensures ParseNames(d, current) == Some(if host.Some? then host.value else current)
    ensures host.Some? ==> !EndsWithDot(host.value)
    decreases |d|
  {
    if d == [] {
      others, host, unread := [], None, [];
    } else {
      var n := Num(d[1], d[2]);
      var name, rest := Name(d[0], d[3..3 + n]), d[3 + n..];
      OneNameSound(d, n);
      if d[0] == 0 {
        others, host, unread := [], Some(name.text), rest;
        hide NameBytes, Num;
      } else {
        var more;
        more, host, unread := NamesSound(rest, current);
        hide NameBytes, Num, ParseNames;
        others := [name] + more;
        assert others[1..] == more;
        Assoc(NameBytes(name), NamesBytes(more), HostBytes(host, unread));
      }
    }
  }

  lemma {:induction false} ProtocolsSound(d: seq<byte>)
    requires ParseProtocols(d).Some?
    ensures ProtocolsOk(ParseProtocols(d).value) && ProtocolsBytes(ParseProtocols(d).value) == d
    decreases |d|
  {
    if d != [] {
      hide ProtocolsBytes, ProtocolsOk;
      var n: nat := d[0];
      var p, rest := d[1..1 + n], d[1 + n..];
      ProtocolsSound(rest);
      var more := ParseProtocols(rest).value;
      assert ParseProtocols(d) == Some([p] + more);
      hide ParseProtocols;
      OneProtocol(p, more);
      CutInThree(d, 1, 1 + n);
    }
  }

  lemma OneProtocol(p: seq<byte>, more: seq<seq<byte>>)
    requires 0 < |p| < 256 && ProtocolsOk(more)
    ensures ProtocolsOk([p] + more) && ProtocolsBytes([p] + more) == [|p|] + p + ProtocolsBytes(more)
  {
    assert ([p] + more)[1..] == more;
  }

  lemma CountedOf(b: seq<byte>)
    requires IsCounted(b)
    ensures Counted(b[2..]) == b
  {
    BeNum(b[0], b[1]);
    hide Be, Num;
    CutInThree(b, 2, |b|);
    assert b[..2] == [b[0], b[1]];
  }

  lemma BodySound(h: Hello, kind: u16, b: seq<byte>) returns (e: Extension)
    requires |b| < 0x1_0000 && ParseBody(h, kind, b).Some?
    ensures ExtensionOk(e) && Kind(e) == kind && Body(e) == b
    ensures Apply(h, e) == ParseBody(h, kind, b)
  {
    if IsCounted(b) {
      CountedOf(b);
    }
    if kind == SERVER_NAME {
      var others, host, unread := NamesSound(b[2..], h.serverName);
      e := ServerNames(others, host, unread);
    } else if kind == NEXT_PROTO_NEG {
      e := NextProtoNeg;
    } else if kind == STATUS_REQUEST {
      e := StatusRequest(b);
    } else if kind == SUPPORTED_CURVES {
      Be16sOfU16s(b[2..]);
      e := SupportedCurves(U16s(b[2..]));
    } else if kind == SUPPORTED_POINTS {
      e := SupportedPoints(b[1..]);
    } else if kind == SESSION_TICKET {
      e := SessionTicket(b);
    } else if kind == SIGNATURE_ALGORITHMS {
      Be16sOfU16s(b[2..]);
      e := SignatureAlgorithms(U16s(b[2..]));
    } else if kind == RENEGOTIATION_INFO {
      e := RenegotiationInfo(b[1..]);
    } else if kind == ALPN {
      ProtocolsSound(b[2..]);
      e := Alpn(ParseProtocols(b[2..]).value);
    } else if kind == SCT {
      e := Sct;
    } else {
      e := Unknown(kind, b);
    }
  }

  lemma {:induction false} ExtensionsSound(h: Hello, d: seq<byte>) returns (es: seq<Extension>)
    requires ParseExtensions(h, d).Some?
    ensures ExtensionsOk(es) && EncodeExtensions(es) == d && ApplyAll(h, es) == ParseExtensions(h, d)
    decreases |d|
  {
    if d == [] {
      es := [];
    } else {
      var n := Num(d[2], d[3]);
      var kind, b := Num(d[0], d[1]), d[4..4 + n];
      HeaderSound(d, n);
      hide Num, Counted, ParseBody, Apply, ExtensionOk;
      var e := BodySound(h, kind, b);
      var more := ExtensionsSound(ParseBody(h, kind, b).value, d[4 + n..]);
      es := Prepended(e, more);
      assert EncodeExtension(e) + d[4 + n..] == d;
    }
  }

  lemma Prepended(e: Extension, more: seq<Extension>) returns (es: seq<Extension>)
    requires ExtensionOk(e) && ExtensionsOk(more)
    ensures ExtensionsOk(es) && EncodeExtensions(es) == EncodeExtension(e) + EncodeExtensions(more)
    ensures es != [] && es[0] == e && es[1..] == more
  {
    es := [e] + more;
    assert es[1..] == more;
  }

  lemma HeaderSound(d: seq<byte>, n: nat)
    requires |d| >= 4 && n == Num(d[2], d[3]) && |d| - 4 >= n
    ensures d == Be(Num(d[0], d[1])) + Counted(d[4..4 + n]) + d[4 + n..]
  {
    BeNum(d[0], d[1]);
    BeNum(d[2], d[3]);
    hide Be, Num;
    CutInThree(d, 4, 4 + n);
    assert d[..4] == [d[0], d[1]] + [d[2], d[3]];
    Assoc([d[0], d[1]], [d[2], d[3]], d[4..4 + n]);
  }

  lemma FixedSound(data: seq<byte>, tail: Option<seq<Extension>>) returns (m: Message)
    requires ParseFixed(data).Some?
    requires tail.Some? ==> ExtensionsOk(tail.value) && |EncodeExtensions(tail.value)| < 0x1_0000
    requires EncodeTail(tail) == ParseFixed(data).value.tail
    ensures MessageOk(m) && Encode(m) == data && m.extensions == tail
    ensures ParseFixed(data) == Some(Fixed(m.vers, m.random, m.sessionId, m.cipherSuites, m.compressionMethods,
                                           EncodeTail(tail)))
  {
    hide EncodeTail, Counted, Be16s, Encode, Num, Be, U16s, EncodeExtensions, ExtensionsOk;
    var k: nat := data[38];
    var suites := ParseSuites(data[39 + k..]).value;
    var methods := ParseMethods(suites.1).value;
    SuitesSound(data[39 + k..]);
    MethodsSound(suites.1);
    hide ParseSuites, ParseMethods;
    var f := ParseFixed(data).value;
    assert f == Fixed(Num(data[4], data[5]), data[6..38], data[39..39 + k], suites.0, methods.0, methods.1);
    hide ParseFixed;
    m := Message(data[..4], f.vers, f.random, f.sessionId, f.suites, f.methods, tail);
    StartSound(data);
    EncodeIs(m, data[39 + k..]);
  }

  lemma StartSound(data: seq<byte>)
    requires |data| >= 42 && |data| >= 39 + data[38] as int
    ensures data == data[..4] + Be(Num(data[4], data[5])) + data[6..38] + [data[38]]
                    + data[39..39 + data[38] as int] + data[39 + data[38] as int..]
  {
    BeNum(data[4], data[5]);
    hide Be, Num;
    CutInThree(data, 39, 39 + data[38] as int);
    assert data[..39] == data[..4] + [data[4], data[5]] + data[6..38] + [data[38]];
  }

  lemma EncodeIs(m: Message, rest: seq<byte>)
    requires MessageOk(m)
    requires rest == Counted(Be16s(m.cipherSuites))
                     + ([|m.compressionMethods|] + m.compressionMethods + EncodeTail(m.extensions))
    ensures Encode(m) == m.header + Be(m.vers) + m.random + [|m.sessionId|] + m.sessionId + rest
  {
  }

  lemma SuitesSound(d: seq<byte>)
    requires ParseSuites(d).Some?
    ensures
      var (suites, rest) := ParseSuites(d).value;
      2 * |suites| < 0x1_0000 && d == Counted(Be16s(suites)) + rest
  {
    hide Be16s, U16s;
    var n: int := Num(d[0], d[1]);
    Be16sOfU16s(d[2..2 + n]);
    BeNum(d[0], d[1]);
    hide Be, Num;
    CutInThree(d, 2, 2 + n);
    assert d[..2] == [d[0], d[1]];
  }

  lemma MethodsSound(d: seq<byte>)
    requires ParseMethods(d).Some?
    ensures
      var (methods, rest) := ParseMethods(d).value;
      |methods| < 256 && d == [|methods|] + methods + rest
  {
  }

  lemma TailSound(h: Hello, d: seq<byte>) returns (tail: Option<seq<Extension>>)
    requires ParseTail(h, d).Some?
    ensures tail.Some? ==> ExtensionsOk(tail.value) && |EncodeExtensions(tail.value)| < 0x1_0000
    ensures EncodeTail(tail) == d && ApplyAll(h, Listed(tail)) == ParseTail(h, d)
  {
    tail := None;
    if d != [] {
      var es := ExtensionsSound(h, d[2..]);
      tail := Some(es);
      CountedOf(d);
    }
    hide ParseExtensions, EncodeExtensions, ExtensionsOk;
  }

  lemma MessageSound(h: Hello, data: seq<byte>) returns (m: Message)
    requires Parse(h, data).Some?
    ensures MessageOk(m) && Encode(m) == data && Meaning(h, m) == Parse(h, data)
  {
    hide ParseFixed, ParseTail, Encode, EncodeTail, EncodeExtensions, ExtensionsOk, MessageOk, ApplyAll;
    var f := ParseFixed(data).value;
    var tail := TailSound(Started(h, f.vers, f.random, f.sessionId, f.suites, f.methods), f.tail);
    m := FixedSound(data, tail);
  }

  /** The parser accepts exactly the encodings of messages without a dotted host name. */
  lemma AcceptsExactly(h: Hello, data: seq<byte>)
    ensures Parse(h, data).Some? <==>
            exists m: Message :: MessageOk(m) && Encode(m) == data && Meaning(h, m).Some?
  {
    hide Encode, Parse, MessageOk;
    if Parse(h, data).Some? {
      var m := MessageSound(h, data);
    }
    forall m: Message | MessageOk(m) && Encode(m) == data && Meaning(h, m).Some? ensures Parse(h, data).Some? {
      MessageRoundTrip(h, m);
    }
  }

  // ---- Parsing into a used object ----

  /** The curves that the last extension of that kind carries. */
  function CurvesIn(es: seq<Extension>): Option<seq<u16>> {
    if es == [] then None
    else if CurvesIn(es[1..]).Some? then CurvesIn(es[1..])
    else if es[0].SupportedCurves? then Some(es[0].numbers)
    else None
  }

  function PointsIn(es: seq<Extension>): Option<seq<byte>> {
    if es == [] then None
    else if PointsIn(es[1..]).Some? then PointsIn(es[1..])
    else if es[0].SupportedPoints? then Some(es[0].body)
    else None
  }

  function RenegotiationIn(es: seq<Extension>): Option<seq<byte>> {
    if es == [] then None
    else if RenegotiationIn(es[1..]).Some? then RenegotiationIn(es[1..])
    else if es[0].RenegotiationInfo? then Some(es[0].body)
    else None
  }

  /** The message itself says that renegotiation is supported. */
  predicate SaysRenegotiation(m: Message) {
    SCSV_RENEGOTIATION in m.cipherSuites || RenegotiationIn(Listed(m.extensions)).Some?
  }

  function Or<T>(o: Option<T>, t: T): T {
    if o.Some? then o.value else t
  }

  /** In `r` the four fields are what the list sets them to, or else those of `h`. */
  predicate SetOrKept(h: Hello, es: seq<Extension>, r: Hello) {
    && r.supportedCurves == Or(CurvesIn(es), h.supportedCurves)
    && r.supportedPoints == Or(PointsIn(es), h.supportedPoints)
    && r.secureRenegotiation == Or(RenegotiationIn(es), h.secureRenegotiation)
    && r.secureRenegotiationSupported == (h.secureRenegotiationSupported || RenegotiationIn(es).Some?)
  }

  lemma OneApplied(h: Hello, e: Extension)
    requires Apply(h, e).Some?
    ensures
      var r := Apply(h, e).value;
      && r.supportedCurves == (if e.SupportedCurves? then e.numbers else h.supportedCurves)
      && r.supportedPoints == (if e.SupportedPoints? then e.body else h.supportedPoints)
      && r.secureRenegotiation == (if e.RenegotiationInfo? then e.body else h.secureRenegotiation)
      && r.secureRenegotiationSupported == (h.secureRenegotiationSupported || e.RenegotiationInfo?)
  {
  }

  lemma OneSetsOrKeeps(h: Hello, es: seq<Extension>, r: Hello)
    requires es != [] && Apply(h, es[0]).Some? && SetOrKept(Apply(h, es[0]).value, es[1..], r)
    ensures SetOrKept(h, es, r)
  {
    hide Apply;
    OneApplied(h, es[0]);
  }

  lemma {:induction false} ListSetsOrKeeps(h: Hello, es: seq<Extension>)
    requires ApplyAll(h, es).Some?
    ensures SetOrKept(h, es, ApplyAll(h, es).value)
    decreases |es|
  {
    if es != [] {
      hide SetOrKept, Apply;
      ListSetsOrKeeps(Apply(h, es[0]).value, es[1..]);
      OneSetsOrKeeps(h, es, ApplyAll(h, es).value);
    }
  }

  /** Each of four fields is what the message last sets it to, or else what the object held. */
  lemma SetsOrKeeps(h: Hello, m: Message)
    requires MessageOk(m) && Parse(h, Encode(m)).Some?
    ensures
      var r, es := Parse(h, Encode(m)).value, Listed(m.extensions);
      && r.supportedCurves == Or(CurvesIn(es), h.supportedCurves)
      && r.supportedPoints == Or(PointsIn(es), h.supportedPoints)
      && r.secureRenegotiation == Or(RenegotiationIn(es), h.secureRenegotiation)
      && r.secureRenegotiationSupported == (h.secureRenegotiationSupported || SaysRenegotiation(m))
  {
    hide Parse, Encode, MessageOk, ApplyAll;
    MessageRoundTrip(h, m);
    ListSetsOrKeeps(Started(h, m.vers, m.random, m.sessionId, m.cipherSuites, m.compressionMethods),
                    Listed(m.extensions));
  }

  /** Two objects that held different values of such a field agree on it after the message exactly
      when the message sets it. */
  lemma AgreeIffSet(h: Hello, g: Hello, m: Message)
    requires MessageOk(m) && Parse(h, Encode(m)).Some? && Parse(g, Encode(m)).Some?
    ensures
      var r, q, es := Parse(h, Encode(m)).value, Parse(g, Encode(m)).value, Listed(m.extensions);
      && (h.supportedCurves != g.supportedCurves ==>
            (r.supportedCurves == q.supportedCurves <==> CurvesIn(es).Some?))
      && (h.supportedPoints != g.supportedPoints ==>
            (r.supportedPoints == q.supportedPoints <==> PointsIn(es).Some?))
      && (h.secureRenegotiation != g.secureRenegotiation ==>
            (r.secureRenegotiation == q.secureRenegotiation <==> RenegotiationIn(es).Some?))
      && (h.secureRenegotiationSupported != g.secureRenegotiationSupported ==>
            (r.secureRenegotiationSupported == q.secureRenegotiationSupported <==> SaysRenegotiation(m)))
  {
    hide Parse, Encode, MessageOk, SaysRenegotiation, CurvesIn, PointsIn, RenegotiationIn;
    SetsOrKeeps(h, m);
    SetsOrKeeps(g, m);
  }

  /** Nothing else of what an object held before matters. */
  lemma OnlyKeptMatters(h: Hello, g: Hello, data: seq<byte>)
    requires h.supportedCurves == g.supportedCurves && h.supportedPoints == g.supportedPoints
    requires h.secureRenegotiation == g.secureRenegotiation
    requires h.secureRenegotiationSupported == g.secureRenegotiationSupported
    ensures Parse(h, data) == Parse(g, data)
  {
  }

  // ---- The parser as an object ----

  class ClientHelloMsg {
    var raw: seq<byte>
    var vers: u16
    var random: seq<byte>
    var sessionId: seq<byte>
    var cipherSuites: seq<u16>
    var compressionMethods: seq<byte>
    var nextProtoNeg: bool
    var serverName: seq<byte>
    var ocspStapling: bool
    var scts: bool
    var supportedCurves: seq<u16>
    var supportedPoints: seq<byte>
    var ticketSupported: bool
    var sessionTicket: seq<byte>
    var signatureAlgorithms: seq<u16>
    var secureRenegotiation: seq<byte>
    var secureRenegotiationSupported: bool
    var alpnProtocols: seq<seq<byte>>

    ghost function View(): Hello
      reads this
    {
      Hello(vers, random, sessionId, cipherSuites, compressionMethods, nextProtoNeg, serverName, ocspStapling, scts,
            supportedCurves, supportedPoints, ticketSupported, sessionTicket, signatureAlgorithms,
            secureRenegotiation, secureRenegotiationSupported, alpnProtocols)
    }

    /** An object that has parsed nothing yet. */
    constructor ()
      ensures View() == Hello(0, [], [], [], [], false, [], false, false, [], [], false, [], [], [], false, [])
    {
      raw, random, sessionId, cipherSuites, compressionMethods := [], [], [], [], [];
      supportedCurves, supportedPoints, sessionTicket, signatureAlgorithms := [], [], [], [];
      serverName, secureRenegotiation, alpnProtocols := [], [], [];
      vers, nextProtoNeg, ocspStapling, scts := 0, false, false, false;
      ticketSupported, secureRenegotiationSupported := false, false;
    }

    method ReadNumbers(s: seq<byte>, n: nat) returns (ns: seq<u16>)
      requires |s| == 2 * n
      ensures ns == U16s(s)
    {
      ns := [];
      var d := s;
      for i := 0 to n
        invariant |d| == 2 * (n - i)
        invariant U16s(s) == ns + U16s(d)
      {
        Assoc(ns, [Num(d[0], d[1])], U16s(d[2..]));
        ns := ns + [Num(d[0], d[1])];
        d := d[2..];
      }
      NilRight(ns);
    }

    method ReadNames(names: seq<byte>) returns (ok: bool)
      modifies this`serverName
      ensures ok <==> ParseNames(names, old(serverName)).Some?
      ensures ok ==> Some(serverName) == ParseNames(names, old(serverName))
    {
      var d := names;
      while |d| > 0
        invariant ParseNames(d, serverName) == ParseNames(names, old(serverName))
        invariant serverName == old(serverName)
        decreases |d|
      {
        if |d| < 3 {
          return false;
        }
        var nameType := d[0];
        var nameLen := Num(d[1], d[2]);
        var tail := d[3..];
        if |tail| < nameLen {
          return false;
        }
        assert tail[..nameLen] == d[3..3 + nameLen] && tail[nameLen..] == d[3 + nameLen..];
        if nameType == 0 {
          serverName := tail[..nameLen];
          if EndsWithDot(serverName) {
            return false;
          }
          return true;
        }
        d := tail[nameLen..];
      }
      return true;
    }

    method ReadProtocols(list: seq<byte>) returns (ok: bool)
      modifies this`alpnProtocols
      ensures ok <==> ParseProtocols(list).Some?
      ensures ok ==> alpnProtocols == old(alpnProtocols) + ParseProtocols(list).value
    {
      var d := list;
      ghost var got: seq<seq<byte>> := [];
      NilRight(alpnProtocols);
      assert ParseProtocols(d).Some? ==> got + ParseProtocols(d).value == ParseProtocols(d).value;
      while |d| != 0
        invariant alpnProtocols == old(alpnProtocols) + got
        invariant ParseProtocols(list).Some? <==> ParseProtocols(d).Some?
        invariant ParseProtocols(d).Some? ==> ParseProtocols(list) == Some(got + ParseProtocols(d).value)
        decreases |d|
      {
        var stringLen := d[0];
        var tail := d[1..];
        if stringLen == 0 || stringLen > |tail| {
          return false;
        }
        assert tail[..stringLen] == d[1..1 + stringLen] && tail[stringLen..] == d[1 + stringLen..];
        alpnProtocols := alpnProtocols + [tail[..stringLen]];
        Assoc(old(alpnProtocols), got, [tail[..stringLen]]);
        if ParseProtocols(tail[stringLen..]).Some? {
          Assoc(got, [tail[..stringLen]], ParseProtocols(tail[stringLen..]).value);
        }
        got := got + [tail[..stringLen]];
        d := tail[stringLen..];
      }
      NilRight(got);
      return true;
    }

    /** One arm of the extension switch. */
    method ReadExtension(extension: u16, b: seq<byte>) returns (ok: bool)
      modifies this
      ensures raw == old(raw)
      ensures ok <==> ParseBody(old(View()), extension, b).Some?
      ensures ok ==> Some(View()) == ParseBody(old(View()), extension, b)
    {
      hide ParseNames, ParseProtocols, U16s;
      if extension == SERVER_NAME {
        if |b| < 2 {
          return false;
        }
        var namesLen := Num(b[0], b[1]);
        if |b| - 2 != namesLen {
          return false;
        }
        ok := ReadNames(b[2..]);
      } else if extension == NEXT_PROTO_NEG {
        if |b| > 0 {
          return false;
        }
        nextProtoNeg := true;
        return true;
      } else if extension == STATUS_REQUEST {
        ocspStapling := |b| > 0 && b[0] == STATUS_TYPE_OCSP;
        return true;
      } else if extension == SUPPORTED_CURVES {
        if |b| < 2 {
          return false;
        }
        var l: int := Num(b[0], b[1]);
        if l % 2 == 1 || |b| != l + 2 {
          return false;
        }
        supportedCurves := ReadNumbers(b[2..], l / 2);
        return true;
      } else if extension == SUPPORTED_POINTS {
        if |b| < 1 {
          return false;
        }
        if |b| - 1 != b[0] {
          return false;
        }
        supportedPoints := b[1..];
        return true;
      } else {
        ok := ReadLaterExtension(extension, b);
      }
    }

    /** The other arms. */
    method ReadLaterExtension(extension: u16, b: seq<byte>) returns (ok: bool)
      requires extension != SERVER_NAME && extension != NEXT_PROTO_NEG && extension != STATUS_REQUEST
      requires extension != SUPPORTED_CURVES && extension != SUPPORTED_POINTS
      modifies this
      ensures raw == old(raw)
      ensures ok <==> ParseBody(old(View()), extension, b).Some?
      ensures ok ==> Some(View()) == ParseBody(old(View()), extension, b)
    {
      hide ParseNames, ParseProtocols, U16s;
      if extension == SESSION_TICKET {
        ticketSupported := true;
        sessionTicket := b;
        return true;
      } else if extension == SIGNATURE_ALGORITHMS {
        if |b| < 2 || |b| % 2 != 0 {
          return false;
        }
        var l: int := Num(b[0], b[1]);
        if l != |b| - 2 {
          return false;
        }
        signatureAlgorithms := ReadNumbers(b[2..], l / 2);
        return true;
      } else if extension == RENEGOTIATION_INFO {
        if |b| == 0 {
          return false;
        }
        var d := b[1..];
        if b[0] != |d| {
          return false;
        }
        secureRenegotiation := d;
        secureRenegotiationSupported := true;
        return true;
      } else if extension == ALPN {
        if |b| < 2 {
          return false;
        }
        var l: int := Num(b[0], b[1]);
        if l != |b| - 2 {
          return false;
        }
        ok := ReadProtocols(b[2..]);
      } else if extension == SCT {
        scts := true;
        if |b| != 0 {
          return false;
        }
        return true;
      } else {
        return true;
      }
    }

    method ReadExtensions(list: seq<byte>) returns (ok: bool)
      modifies this
      ensures raw == old(raw)
      ensures ok <==> ParseExtensions(old(View()), list).Some?
      ensures ok ==> Some(View()) == ParseExtensions(old(View()), list)
    {
      hide ParseBody;
      var data := list;
      while |data| != 0
        invariant ParseExtensions(old(View()), list) == ParseExtensions(View(), data)
        invariant raw == old(raw)
        decreases |data|
      {
        if |data| < 4 {
          return false;
        }
        var extension := Num(data[0], data[1]);
        var length := Num(data[2], data[3]);
        var tail := data[4..];
        if |tail| < length {
          return false;
        }
        assert tail[..length] == data[4..4 + length] && tail[length..] == data[4 + length..];
        var read := ReadExtension(extension, tail[..length]);
        if !read {
          return false;
        }
        data := tail[length..];
      }
      return true;
    }

    /** Version, random and session id. */
    method ReadStart(bytes: seq<byte>) returns (ok: bool, rest: seq<byte>)
      requires |bytes| >= 42
      modifies this`raw, this`vers, this`random, this`sessionId
      ensures
        var k: int := bytes[38];
        && (ok <==> k <= 32 && |bytes| >= 39 + k)
        && (ok ==> vers == Num(bytes[4], bytes[5]) && random == bytes[6..38] && sessionId == bytes[39..39 + k]
                   && rest == bytes[39 + k..] && raw == bytes)
    {
      rest := bytes;
      raw := bytes;
      vers := Num(bytes[4], bytes[5]);
      random := bytes[6..38];
      var sessionIdLen: int := bytes[38];
      if sessionIdLen > 32 || |bytes| < 39 + sessionIdLen {
        return false, rest;
      }
      sessionId := bytes[39..39 + sessionIdLen];
      return true, bytes[39 + sessionIdLen..];
    }

    method ReadSuites(d: seq<byte>) returns (ok: bool, rest: seq<byte>)
      modifies this`cipherSuites, this`secureRenegotiationSupported
      ensures ok <==> ParseSuites(d).Some?
      ensures ok ==>
        && (cipherSuites, rest) == ParseSuites(d).value
        && secureRenegotiationSupported == (old(secureRenegotiationSupported) || SCSV_RENEGOTIATION in cipherSuites)
    {
      rest := d;
      if |d| < 2 {
        return false, rest;
      }
      var cipherSuiteLen: int := Num(d[0], d[1]);
      if cipherSuiteLen % 2 == 1 || |d| < 2 + cipherSuiteLen {
        return false, rest;
      }
      cipherSuites := ReadNumbers(d[2..2 + cipherSuiteLen], cipherSuiteLen / 2);
      if SCSV_RENEGOTIATION in cipherSuites {
        secureRenegotiationSupported := true;
      }
      return true, d[2 + cipherSuiteLen..];
    }

    method ReadMethods(d: seq<byte>) returns (ok: bool, rest: seq<byte>)
      modifies this`compressionMethods
      ensures ok <==> ParseMethods(d).Some?
      ensures ok ==> (compressionMethods, rest) == ParseMethods(d).value
    {
      rest := d;
      if |d| < 1 {
        return false, rest;
      }
      var compressionMethodsLen: int := d[0];
      if |d| < 1 + compressionMethodsLen {
        return false, rest;
      }
      compressionMethods := d[1..1 + compressionMethodsLen];
      return true, d[1 + compressionMethodsLen..];
    }

    /** The fixed part of the message: its fields, the resets, and what is left. */
    method ReadFixed(bytes: seq<byte>) returns (ok: bool, data: seq<byte>)
      modifies this
      ensures ok <==> ParseFixed(bytes).Some?
      ensures ok ==>
        var f := ParseFixed(bytes).value;
        View() == Started(old(View()), f.vers, f.random, f.sessionId, f.suites, f.methods) && data == f.tail
      ensures ok ==> raw == bytes
    {
      hide ParseSuites, ParseMethods;
      data := bytes;
      if |data| < 42 {
        return false, data;
      }
      ok, data := ReadStart(bytes);
      if !ok {
        return false, data;
      }
      ok, data := ReadSuites(data);
      if !ok {
        return false, data;
      }
      ok, data := ReadMethods(data);
      if !ok {
        return false, data;
      }
      ResetFlags();
      ResetLists();
    }

    method ResetFlags()
      modifies this
      ensures raw == old(raw)
      ensures View() == old(View()).(nextProtoNeg := false, ocspStapling := false, scts := false,
                                     ticketSupported := false)
    {
      nextProtoNeg, ocspStapling, scts, ticketSupported := false, false, false, false;
    }

    method ResetLists()
      modifies this
      ensures raw == old(raw)
      ensures View() == old(View()).(serverName := [], sessionTicket := [], signatureAlgorithms := [],
                                     alpnProtocols := [])
    {
      serverName, sessionTicket, signatureAlgorithms, alpnProtocols := [], [], [], [];
    }

    /** Parses any bytes whatever; on success the fields are what `Parse` says. */
    method Unmarshal(bytes: seq<byte>) returns (ok: bool)
      modifies this
      ensures ok <==> Parse(old(View()), bytes).Some?
      ensures ok ==> Some(View()) == Parse(old(View()), bytes) && raw == bytes
    {
      hide ParseFixed, ParseExtensions, Started;
      var data;
      ok, data := ReadFixed(bytes);
      if !ok {
        return false;
      }
      if |data| == 0 {
        return true;
      }
      if |data| < 2 {
        return false;
      }
      var extensionsLength := Num(data[0], data[1]);
      data := data[2..];
      if extensionsLength != |data| {
        return false;
      }
      ok := ReadExtensions(data);
    }
  }
}
