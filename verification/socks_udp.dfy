/** SOCKS5 UDP datagrams (section 7 of RFC 1928): addresses, headers, and reading what was written. */
module SocksUdp {
  import opened Options
  import opened Io
  import opened Segments
  import opened Sequences
  import opened Words
  import opened BigEndian

  const IPV4: byte := 1
  const DOMAIN_NAME: byte := 3
  const IPV6: byte := 4

  /** Size of a pooled datagram buffer. */
  const POOL_SIZE_UDP: nat := 1672

  const ZERO4: seq<byte> := [0, 0, 0, 0]
  const ZERO16: seq<byte> := ZERO4 + ZERO4 + ZERO4 + ZERO4
  const MAPPED: seq<byte> := [0, 0, 0, 0, 0, 0, 0, 0, 0, 0, 255, 255]

  datatype Address = Address(kind: byte, host: seq<byte>, port: u16)

  datatype Header = Header(rsv: u16, frag: byte, addr: Option<Address>)

  datatype Datagram = Datagram(header: Option<Header>, data: seq<byte>)

  datatype Error = Broken(cause: ReadError) | AddrNotSupported | InvalidLength | PayloadTooLarge

  // ---- Text of IP addresses ----

  /** `net.IP.String` and `net.ParseIP`; a parsed address has 16 bytes, an IPv4 one in its mapped form. */
  datatype IpText = IpText(show: seq<byte> -> seq<byte>, parse: seq<byte> -> Option<seq<byte>>)

  ghost predicate Lawful(ip: IpText) {
    && (forall b :: |b| == 4 ==> ip.parse(ip.show(b)) == Some(MAPPED + b))
    && (forall b :: |b| == 16 ==> ip.parse(ip.show(b)) == Some(b))
    && (forall t :: ip.parse(t).Some? ==> |ip.parse(t).value| == 16)
  }

  /** The four bytes that are sent for a host text. */
  function V4(ip: IpText, host: seq<byte>): (b: seq<byte>)
    ensures |b| == 4
  {
    var p := ip.parse(host);
    if p.Some? && |p.value| == 16 && p.value[..12] == MAPPED then p.value[12..] else ZERO4
  }

  function V16(ip: IpText, host: seq<byte>): (b: seq<byte>)
    ensures |b| == 16
  {
    var p := ip.parse(host);
    if p.Some? && |p.value| == 16 then p.value else ZERO16
  }

  lemma PrintedParses(ip: IpText, b: seq<byte>)
    requires Lawful(ip)
    ensures |b| == 4 ==> V4(ip, ip.show(b)) == b
    ensures |b| == 16 ==> V16(ip, ip.show(b)) == b
  {
    if |b| == 4 {
      assert ip.parse(ip.show(b)) == Some(MAPPED + b);
      assert (MAPPED + b)[..12] == MAPPED && (MAPPED + b)[12..] == b;
    }
  }

  // ---- Encoding ----

  /** The kind and host of an encoded address. */
  function HostBytes(ip: IpText, a: Address): seq<byte> {
    if a.kind == IPV4 then [IPV4] + V4(ip, a.host)
    else if a.kind == DOMAIN_NAME then [DOMAIN_NAME, |a.host| % 256] + a.host
    else if a.kind == IPV6 then [IPV6] + V16(ip, a.host)
    else [IPV4] + ZERO4
  }

  function EncodeAddr(ip: IpText, a: Address): seq<byte> {
    HostBytes(ip, a) + Be(a.port)
  }

  /** What is written for a missing address or header. */
  function AddrOf(h: Header): Address {
    if h.addr.Some? then h.addr.value else Address(0, [], 0)
  }

  function HeaderOf(d: Datagram): Header {
    if d.header.Some? then d.header.value else Header(0, 0, None)
  }

  function HeaderBytes(ip: IpText, h: Header): seq<byte> {
    Be(h.rsv) + [h.frag] + EncodeAddr(ip, AddrOf(h))
  }

  function DatagramBytes(ip: IpText, d: Datagram): seq<byte> {
    HeaderBytes(ip, HeaderOf(d)) + d.data
  }

  // ---- Decoding ----

  /** The length of an encoded address, from its first two bytes. */
  function AddrLength(kind: byte, next: byte): (n: Option<nat>)
    ensures n.Some? ==> 4 <= n.value <= 259
  {
    if kind == IPV4 then Some(7)
    else if kind == IPV6 then Some(19)
    else if kind == DOMAIN_NAME then Some(4 + next)
    else None
  }

  predicate IsAddr(b: seq<byte>) {
    |b| >= 2 && AddrLength(b[0], b[1]) == Some(|b|)
  }

  function DecodeAddr(ip: IpText, b: seq<byte>): Address
    requires IsAddr(b)
  {
    var n := |b| - 2;
    var host := if b[0] == DOMAIN_NAME then b[2..n] else ip.show(b[1..n]);
    Address(b[0], host, Num(b[n], b[n + 1]))
  }

  datatype Outcome = Got(datagram: Datagram, rest: seq<byte>) | Fail(error: Error)

  function DatagramOf(ip: IpText, s: seq<byte>, hlen: nat, end: nat): Datagram
    requires 3 <= hlen <= end <= |s| && IsAddr(s[3..hlen])
  {
    Datagram(Some(Header(Num(s[0], s[1]), s[2], Some(DecodeAddr(ip, s[3..hlen])))), s[hlen..end])
  }

  lemma HeaderSlice(s: seq<byte>, hlen: nat)
    requires 5 <= hlen <= |s| && AddrLength(s[3], s[4]) == Some(hlen - 3)
    ensures IsAddr(s[3..hlen])
  {
  }

  /** Reading a datagram from a stream: up to its end when the reserved field is zero, otherwise
      as many data bytes as the field says. */
  function ReadDatagram(ip: IpText, s: seq<byte>): Outcome {
    if FullReadError(s, 5).Some? then Fail(Broken(FullReadError(s, 5).value))
    else if AddrLength(s[3], s[4]).None? then Fail(AddrNotSupported)
    else
      var hlen := 3 + AddrLength(s[3], s[4]).value;
      var rsv := Num(s[0], s[1]);
      if rsv == 0 then
        var n := if |s| < POOL_SIZE_UDP then |s| else POOL_SIZE_UDP;
        if n < hlen then Fail(InvalidLength)
        else
          HeaderSlice(s, hlen);
          Got(DatagramOf(ip, s, hlen, n), s[n..])
      else if hlen + rsv as int > POOL_SIZE_UDP then Fail(PayloadTooLarge)
      else if FullReadError(s[5..], hlen + rsv - 5).Some? then Fail(Broken(FullReadError(s[5..], hlen + rsv - 5).value))
      else
        HeaderSlice(s, hlen);
        Got(DatagramOf(ip, s, hlen, hlen + rsv), s[hlen + rsv..])
  }

  // ---- What is read back ----

  /** An address as it comes out of the wire: unprintable IP hosts become zero addresses, an
      unknown kind the zero IPv4 address. */
  function Normal(ip: IpText, a: Address): Address {
    if a.kind == IPV4 then a.(host := ip.show(V4(ip, a.host)))
    else if a.kind == DOMAIN_NAME then a
    else if a.kind == IPV6 then a.(host := ip.show(V16(ip, a.host)))
    else Address(IPV4, ip.show(ZERO4), a.port)
  }

  predicate Sendable(a: Address) {
    a.kind == DOMAIN_NAME ==> |a.host| <= 255
  }

  function NormalHeader(ip: IpText, h: Header): Header {
    h.(addr := Some(Normal(ip, AddrOf(h))))
  }

  lemma AddrRoundTrip(ip: IpText, a: Address)
    requires Sendable(a)
    ensures
      var b := EncodeAddr(ip, a);
      IsAddr(b) && DecodeAddr(ip, b) == Normal(ip, a)
  {
    var b := EncodeAddr(ip, a);
    var n := |b| - 2;
    NumBe(a.port);
    assert b[n..] == Be(a.port);
    if a.kind == DOMAIN_NAME {
      assert b[2..n] == a.host;
    } else if a.kind == IPV4 {
      assert b[1..n] == V4(ip, a.host);
    } else if a.kind == IPV6 {
      assert b[1..n] == V16(ip, a.host);
    } else {
      assert b[1..n] == ZERO4;
    }
  }

  /** An address comes back unchanged exactly when it is a domain name or the text of an IP address
      of its kind as the printer writes it. */
  lemma UnchangedIffCanonical(ip: IpText, a: Address)
    requires Lawful(ip)
    ensures Normal(ip, a) == a <==>
            || a.kind == DOMAIN_NAME
            || (a.kind == IPV4 && exists b :: |b| == 4 && a.host == ip.show(b))
            || (a.kind == IPV6 && exists b :: |b| == 16 && a.host == ip.show(b))
  {
    forall b: seq<byte> | |b| == 4 || |b| == 16
      ensures |b| == 4 ==> V4(ip, ip.show(b)) == b
      ensures |b| == 16 ==> V16(ip, ip.show(b)) == b
    {
      PrintedParses(ip, b);
    }
    hide Lawful, V4, V16;
    if Normal(ip, a) == a && a.kind == IPV4 {
      assert a.host == ip.show(V4(ip, a.host));
    }
    if Normal(ip, a) == a && a.kind == IPV6 {
      assert a.host == ip.show(V16(ip, a.host));
    }
  }

  lemma HeaderParts(ip: IpText, h: Header, tail: seq<byte>)
    requires Sendable(AddrOf(h))
    ensures
      var s, hlen := HeaderBytes(ip, h) + tail, |HeaderBytes(ip, h)|;
      && 7 <= hlen <= 262 && |s| == hlen + |tail|
      && AddrLength(s[3], s[4]) == Some(hlen - 3) && IsAddr(s[3..hlen])
      && Num(s[0], s[1]) == h.rsv && s[2] == h.frag
      && DecodeAddr(ip, s[3..hlen]) == Normal(ip, AddrOf(h))
      && s[hlen..] == tail
  {
    var a := EncodeAddr(ip, AddrOf(h));
    AddrRoundTrip(ip, AddrOf(h));
    NumBe(h.rsv);
    var s := HeaderBytes(ip, h) + tail;
    assert s[3..3 + |a|] == a;
    assert s[3] == a[0] && s[4] == a[1];
  }

  /** The standard form: with a zero reserved field everything to the end of the datagram is data,
      cut off where the buffer ends. */
  lemma StandardRoundTrip(ip: IpText, d: Datagram)
    requires HeaderOf(d).rsv == 0 && Sendable(AddrOf(HeaderOf(d)))
    ensures
      var h := HeaderOf(d);
      var room := POOL_SIZE_UDP - |HeaderBytes(ip, h)|;
      var kept := if |d.data| < room then |d.data| else room;
      ReadDatagram(ip, DatagramBytes(ip, d))
      == Got(Datagram(Some(NormalHeader(ip, h)), d.data[..kept]), d.data[kept..])
  {
    hide HeaderBytes, IsAddr, DecodeAddr, Normal, AddrLength, Num, EncodeAddr;
    var h := HeaderOf(d);
    HeaderParts(ip, h, d.data);
    var s, hlen := HeaderBytes(ip, h) + d.data, |HeaderBytes(ip, h)|;
    var room := POOL_SIZE_UDP - hlen;
    var kept := if |d.data| < room then |d.data| else room;
    assert s[hlen..hlen + kept] == d.data[..kept] && s[hlen + kept..] == d.data[kept..];
  }

  /** The data arrive whole exactly when the datagram fits the buffer. */
  lemma WholeIffFits(ip: IpText, d: Datagram)
    requires HeaderOf(d).rsv == 0 && Sendable(AddrOf(HeaderOf(d)))
    ensures
      var o := ReadDatagram(ip, DatagramBytes(ip, d));
      && o.Got?
      && (o.datagram.data == d.data <==> |DatagramBytes(ip, d)| <= POOL_SIZE_UDP)
  {
    hide ReadDatagram, HeaderBytes, IsAddr, DecodeAddr, Normal, AddrLength, Num, EncodeAddr;
    StandardRoundTrip(ip, d);
    HeaderParts(ip, HeaderOf(d), d.data);
  }

  /** The stream form: with the reserved field as data length the datagram is read back from a
      stream that goes on with anything, and nothing after it is consumed, or it is refused. */
  lemma FramedRoundTrip(ip: IpText, d: Datagram, rest: seq<byte>)
    requires HeaderOf(d).rsv == |d.data| > 0 && Sendable(AddrOf(HeaderOf(d)))
    ensures
      ReadDatagram(ip, DatagramBytes(ip, d) + rest)
      == if |DatagramBytes(ip, d)| <= POOL_SIZE_UDP then
           Got(Datagram(Some(NormalHeader(ip, HeaderOf(d))), d.data), rest)
         else Fail(PayloadTooLarge)
  {
    hide HeaderBytes, IsAddr, DecodeAddr, Normal, AddrLength, Num, EncodeAddr;
    var h := HeaderOf(d);
    HeaderParts(ip, h, d.data + rest);
    Assoc(HeaderBytes(ip, h), d.data, rest);
    var s, hlen := HeaderBytes(ip, h) + (d.data + rest), |HeaderBytes(ip, h)|;
    assert s[hlen..hlen + |d.data|] == d.data && s[hlen + |d.data|..] == rest;
  }

  lemma DecodedHost(ip: IpText, b: seq<byte>)
    requires Lawful(ip) && IsAddr(b)
    ensures HostBytes(ip, DecodeAddr(ip, b)) == b[..|b| - 2]
  {
    var n := |b| - 2;
    if b[0] == DOMAIN_NAME {
      hide Lawful, V4, V16, Num;
      assert b[..n] == [b[0], b[1]] + b[2..n];
    } else {
      PrintedParses(ip, b[1..n]);
      hide Lawful, V4, V16, Num;
      assert b[..n] == [b[0]] + b[1..n];
    }
  }

  lemma DecodedAddrEncodes(ip: IpText, b: seq<byte>)
    requires Lawful(ip) && IsAddr(b)
    ensures EncodeAddr(ip, DecodeAddr(ip, b)) == b
  {
    hide HostBytes;
    var n := |b| - 2;
    DecodedHost(ip, b);
    BeNum(b[n], b[n + 1]);
    hide Be, Num, Lawful, AddrLength;
    assert b == b[..n] + [b[n], b[n + 1]];
  }

  lemma FrontPieces(s: seq<byte>, hlen: nat, end: nat)
    requires 3 <= hlen <= end <= |s|
    ensures s[..end] == [s[0], s[1]] + [s[2]] + s[3..hlen] + s[hlen..end]
  {
  }

  lemma Reencoded(ip: IpText, s: seq<byte>, hlen: nat, end: nat)
    requires Lawful(ip) && 3 <= hlen <= end <= |s| && IsAddr(s[3..hlen])
    ensures DatagramBytes(ip, DatagramOf(ip, s, hlen, end)) == s[..end]
  {
    DecodedAddrEncodes(ip, s[3..hlen]);
    BeNum(s[0], s[1]);
    hide EncodeAddr, DecodeAddr, AddrLength, Lawful, Be, Num, IsAddr;
    FrontPieces(s, hlen, end);
  }

  /** Relaying is transparent: writing a datagram that was read gives back exactly the bytes that
      were read. */
  lemma RelayExact(ip: IpText, s: seq<byte>)
    requires Lawful(ip) && ReadDatagram(ip, s).Got?
    ensures s == DatagramBytes(ip, ReadDatagram(ip, s).datagram) + ReadDatagram(ip, s).rest
  {
    hide EncodeAddr, DecodeAddr, AddrLength, Lawful, IsAddr, DatagramBytes, DatagramOf, Num;
    var hlen := 3 + AddrLength(s[3], s[4]).value;
    HeaderSlice(s, hlen);
    var end := |s| - |ReadDatagram(ip, s).rest|;
    Reencoded(ip, s, hlen, end);
    assert s == s[..end] + s[end..];
  }

  /** A domain name of more than 255 bytes is written with its length modulo 256, and what is read
      back is never that name. */
  lemma LongNameLost(ip: IpText, d: Datagram, tail: seq<byte>)
    requires AddrOf(HeaderOf(d)).kind == DOMAIN_NAME && |AddrOf(HeaderOf(d)).host| > 255
    ensures
      match ReadDatagram(ip, DatagramBytes(ip, d) + tail)
      case Fail(_) => true
      case Got(read, _) => read.header.value.addr.value.host != AddrOf(HeaderOf(d)).host
  {
    var s := DatagramBytes(ip, d) + tail;
    assert s[3] == DOMAIN_NAME;
    if ReadDatagram(ip, s).Got? {
      hide DatagramBytes, Num;
      var hlen := 3 + AddrLength(s[3], s[4]).value;
      HeaderSlice(s, hlen);
      NameFits(ip, s[3..hlen]);
      hide DecodeAddr;
    }
  }

  lemma NameFits(ip: IpText, b: seq<byte>)
    requires IsAddr(b) && b[0] == DOMAIN_NAME
    ensures |DecodeAddr(ip, b).host| == b[1]
  {
  }

  // ---- The codec ----

  method CopyInto(b: array<byte>, at: nat, s: seq<byte>)
    requires at + |s| <= b.Length
    modifies b
    ensures b[..] == old(b[..at]) + s + old(b[at + |s|..])
  {
    forall i | 0 <= i < |s| {
      b[at + i] := s[i];
    }
  }

  /** An address as the code fills it in. */
  class Addr {
    var kind: byte
    var host: seq<byte>
    var port: u16

    function View(): Address
      reads this
    {
      Address(kind, host, port)
    }

    constructor (a: Address)
      ensures View() == a
    {
      kind, host, port := a.kind, a.host, a.port;
    }

    /** `b` must hold a whole address; the slicing of a shorter one panics. */
    method Decode(ip: IpText, b: seq<byte>) returns (err: Option<Error>)
      requires |b| >= 2 && (AddrLength(b[0], b[1]).Some? ==> IsAddr(b))
      modifies this
      ensures err == if AddrLength(b[0], b[1]).Some? then None else Some(AddrNotSupported)
      ensures err == None ==> View() == DecodeAddr(ip, b)
    {
      kind := b[0];
      var pos := 1;
      if kind == IPV4 {
        host := ip.show(b[pos..pos + 4]);
        pos := pos + 4;
      } else if kind == IPV6 {
        host := ip.show(b[pos..pos + 16]);
        pos := pos + 16;
      } else if kind == DOMAIN_NAME {
        var addrlen: int := b[pos];
        pos := pos + 1;
        host := b[pos..pos + addrlen];
        pos := pos + addrlen;
      } else {
        return Some(AddrNotSupported);
      }
      port := Num(b[pos], b[pos + 1]);
      return None;
    }

    method EncodeHost(ip: IpText, b: array<byte>, at: nat) returns (pos: nat)
      requires at + |HostBytes(ip, View())| <= b.Length
      modifies b
      ensures pos == |HostBytes(ip, View())|
      ensures b[..] == old(b[..at]) + HostBytes(ip, View()) + old(b[at + pos..])
    {
      if kind == IPV4 {
        CopyInto(b, at, [kind] + V4(ip, host));
        pos := 5;
      } else if kind == DOMAIN_NAME {
        CopyInto(b, at, [kind, |host| % 256] + host);
        pos := 2 + |host|;
      } else if kind == IPV6 {
        CopyInto(b, at, [kind] + V16(ip, host));
        pos := 17;
      } else {
        CopyInto(b, at, [IPV4] + ZERO4);
        pos := 5;
      }
    }

    /** Writes the address into the buffer at `at`. */
    method Encode(ip: IpText, b: array<byte>, at: nat) returns (pos: nat)
      requires at + |EncodeAddr(ip, View())| <= b.Length
      modifies b
      ensures pos == |EncodeAddr(ip, View())|
      ensures b[..] == old(b[..at]) + EncodeAddr(ip, View()) + old(b[at + pos..])
    {
      hide HostBytes;
      ghost var was, head := b[..], HostBytes(ip, View());
      pos := EncodeHost(ip, b, at);
      assert b[..at + pos] == was[..at] + head;
      assert b[at + pos + 2..] == was[at + pos + 2..];
      CopyInto(b, at + pos, Be(port));
      pos := pos + 2;
      Assoc(was[..at], head, Be(port));
    }
  }

  /** Writes a header; the pooled buffer must hold it. */
  method WriteHeader(ip: IpText, h: Header, w: Writer)
    requires |HeaderBytes(ip, h)| <= POOL_SIZE_UDP
    modifies w
    ensures w.out == old(w.out) + HeaderBytes(ip, h)
  {
    var b := new byte[POOL_SIZE_UDP];
    CopyInto(b, 0, Be(h.rsv));
    CopyInto(b, 2, [h.frag]);
    assert b[..3] == Be(h.rsv) + [h.frag];
    var addr := new Addr(AddrOf(h));
    var length := addr.Encode(ip, b, 3);
    assert b[..3 + length] == HeaderBytes(ip, h);
    w.Write(b[..3 + length]);
  }

  method WriteDatagram(ip: IpText, d: Datagram, w: Writer)
    requires |HeaderBytes(ip, HeaderOf(d))| <= POOL_SIZE_UDP
    modifies w
    ensures w.out == old(w.out) + DatagramBytes(ip, d)
  {
    hide HeaderBytes;
    var buf := new Writer();
    WriteHeader(ip, HeaderOf(d), buf);
    buf.Write(d.data);
    w.Write(buf.out);
  }

  /** Fills the buffer after its first 5 bytes, to the end of the datagram or for `rsv` data bytes. */
  method ReadRest(r: Reader, b: array<byte>, hlen: nat, rsv: u16) returns (n: nat, err: Option<Error>)
    requires b.Length == POOL_SIZE_UDP && 7 <= hlen <= 262
    modifies r, b
    ensures
      var s := old(r.rest);
      var want := if rsv == 0 then POOL_SIZE_UDP - 5 else hlen + rsv - 5;
      var got := if |s| < want then |s| else want;
      && (rsv == 0 ==> n == 5 + got && err == if n < hlen then Some(InvalidLength) else None)
      && (rsv > 0 && hlen + rsv as int > POOL_SIZE_UDP ==> err == Some(PayloadTooLarge))
      && (rsv > 0 && hlen + rsv as int <= POOL_SIZE_UDP ==>
            if got < want then err == Some(Broken(FullReadError(s, want).value)) else err == None && n == hlen + rsv)
      && (err == None ==> n == 5 + got <= b.Length && b[..n] == old(b[..5]) + s[..got] && r.rest == s[got..])
  {
    n := 5;
    if rsv == 0 {
      var extra := r.ReadAll(b.Length - n);
      CopyInto(b, n, extra);
      n := n + |extra|;
      return n, if n < hlen then Some(InvalidLength) else None;
    }
    if hlen + rsv as int > b.Length {
      return n, Some(PayloadTooLarge);
    }
    var m, e := r.ReadFull(b, n, hlen + rsv);
    if e.Some? {
      return n, Some(Broken(e.value));
    }
    n := hlen + rsv;
    return n, None;
  }

  lemma Rejoin(s: seq<byte>, i: nat, k: nat)
    requires i + k <= |s|
    ensures s[..i] + s[i..][..k] == s[..i + k] && s[i..][k..] == s[i + k..]
  {
  }

  /** The datagram in the first `n` bytes of the buffer. */
  method FromBuffer(ip: IpText, b: array<byte>, hlen: nat, n: nat) returns (d: Datagram)
    requires 5 <= hlen <= n <= b.Length && AddrLength(b[3], b[4]) == Some(hlen - 3)
    ensures
      && IsAddr(b[..n][3..hlen])
      && d == DatagramOf(ip, b[..n], hlen, n)
  {
    var s := b[..n];
    assert s[3] == b[3] && s[4] == b[4];
    HeaderSlice(s, hlen);
    hide DecodeAddr, IsAddr, Num;
    var addr := new Addr(Address(0, [], 0));
    var err := addr.Decode(ip, s[3..hlen]);
    d := Datagram(Some(Header(Num(s[0], s[1]), s[2], Some(addr.View()))), s[hlen..n]);
  }

  lemma SameDatagram(ip: IpText, s: seq<byte>, hlen: nat, n: nat)
    requires 5 <= hlen <= n <= |s| && IsAddr(s[..n][3..hlen])
    ensures s[..n][3..hlen] == s[3..hlen] && DatagramOf(ip, s[..n], hlen, n) == DatagramOf(ip, s, hlen, n)
  {
    hide DecodeAddr, IsAddr, Num;
    assert s[..n][3..hlen] == s[3..hlen];
    assert s[..n][hlen..n] == s[hlen..n];
  }

  /** Reads a datagram; what is left in the pooled buffer from before never shows. */
  method ReadUDPDatagram(ip: IpText, r: Reader) returns (d: Option<Datagram>, err: Option<Error>)
    modifies r
    ensures
      match ReadDatagram(ip, old(r.rest))
      case Fail(e) => d == None && err == Some(e)
      case Got(read, rest) => d == Some(read) && err == None && r.rest == rest
  {
    hide AddrLength, DecodeAddr, IsAddr, Num, DatagramOf;
    ghost var s := r.rest;
    var b := new byte[POOL_SIZE_UDP];
    var n, e := r.ReadFull(b, 0, 5);
    if e.Some? {
      return None, Some(Broken(e.value));
    }
    assert b[..5] == s[..5];
    assert b[0] == s[0] && b[1] == s[1] && b[3] == s[3] && b[4] == s[4];
    var rsv := Num(b[0], b[1]);
    var length := AddrLength(b[3], b[4]);
    if length.None? {
      return None, Some(AddrNotSupported);
    }
    var hlen := 3 + length.value;
    n, err := ReadRest(r, b, hlen, rsv);
    if err.Some? {
      return None, err;
    }
    Rejoin(s, 5, n - 5);
    assert b[3] == b[..n][3] && b[4] == b[..n][4];
    var read := FromBuffer(ip, b, hlen, n);
    SameDatagram(ip, s, hlen, n);
    d := Some(read);
  }
}
