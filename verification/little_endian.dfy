/** Little-endian numbers, as `encoding/binary` stores them. */
module LittleEndian {
  import opened Segments

  /** The number of values that `k` bytes can hold. */
  function Span(k: nat): (n: nat)
    ensures n > 0
  {
    if k == 0 then 1 else 256 * Span(k - 1)
  }

  function Put(v: nat, k: nat): (s: seq<byte>)
    ensures |s| == k
  {
    if k == 0 then [] else [v % 256] + Put(v / 256, k - 1)
  }

  function Get(s: seq<byte>): nat {
    if s == [] then 0 else s[0] + 256 * Get(s[1..])
  }

  lemma {:induction false} GetPut(v: nat, k: nat)
    requires v < Span(k)
    ensures Get(Put(v, k)) == v
  {
    if k > 0 {
      GetPut(v / 256, k - 1);
      assert Put(v, k)[1..] == Put(v / 256, k - 1);
    }
  }

  lemma {:induction false} PutGet(s: seq<byte>)
    ensures Get(s) < Span(|s|)
    ensures Put(Get(s), |s|) == s
  {
    if s != [] {
      PutGet(s[1..]);
      assert Get(s) % 256 == s[0] && Get(s) / 256 == Get(s[1..]);
    }
  }

  lemma Spans()
    ensures Span(2) == 0x1_0000
    ensures Span(4) == 0x1_0000_0000
    ensures Span(8) == 0x1_0000_0000_0000_0000
  {
    assert Span(4) == 256 * Span(3) == 65536 * Span(2);
    assert Span(6) == 256 * Span(5) == 65536 * Span(4);
    assert Span(8) == 256 * Span(7) == 65536 * Span(6);
  }

  /** Stores `k` bytes of `v` into a buffer. */
  method PutInto(b: array<byte>, at: nat, v: nat, k: nat)
    requires at + k <= b.Length
    modifies b
    ensures b[..] == old(b[..at]) + Put(v, k) + old(b[at + k..])
    decreases k
  {
    if k > 0 {
      b[at] := v % 256;
      assert b[..at + 1] == old(b[..at]) + [v % 256];
      PutInto(b, at + 1, v / 256, k - 1);
      assert old(b[..at]) + [v % 256] + Put(v / 256, k - 1) == old(b[..at]) + Put(v, k);
    } else {
      assert b[..] == b[..at] + [] + b[at..];
    }
  }
}
