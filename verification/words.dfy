/** The packed 64-bit words that the multiplexer changes with compare-and-swap, as integers.
    Shifts and masks by constants are written as division, remainder and multiplication;
    an OR of disjoint bit fields is a sum. */
module Words {
  const TWO31: nat := 0x8000_0000
  const TWO32: nat := 0x1_0000_0000
  const TWO63: nat := 0x8000_0000_0000_0000
  const TWO64: nat := 0x1_0000_0000_0000_0000

  type u16 = n: int | 0 <= n < 0x1_0000
  type u31 = n: int | 0 <= n < 0x8000_0000
  type u32 = n: int | 0 <= n < 0x1_0000_0000
  type u64 = n: int | 0 <= n < 0x1_0000_0000_0000_0000

  /** A ring index pair: head in the high half, tail in the low half. */
  function PackPair(head: u32, tail: u32): u64 {
    head * TWO32 + tail
  }

  function PairHead(w: u64): u32 {
    w / TWO32
  }

  function PairTail(w: u64): u32 {
    w % TWO32
  }

  lemma PairRoundTrip(head: u32, tail: u32)
    ensures PairHead(PackPair(head, tail)) == head
    ensures PairTail(PackPair(head, tail)) == tail
  {
  }

  lemma PairOnto(w: u64)
    ensures PackPair(PairHead(w), PairTail(w)) == w
  {
  }

  function Add64(w: u64, d: u64): u64 {
    (w + d) % TWO64
  }

  /** The consumer's final addition: it adds 1, or, on the last tail index, the complement of
      2^32 - 2, which is 2^64 - 2^32 + 1. */
  function AdvanceTail(w: u64, tail: u32): u64 {
    if tail < TWO32 - 1 then Add64(w, 1) else Add64(w, TWO64 - 1 - (TWO32 - 2))
  }

  lemma AdvanceTailKeepsHead(w: u64, tail: u32)
    requires PairTail(w) == tail
    ensures AdvanceTail(w, tail) == PackPair(PairHead(w), (tail + 1) % TWO32)
  {
    PairOnto(w);
    if tail == TWO32 - 1 {
      assert w + (TWO64 - 1 - (TWO32 - 2)) == PairHead(w) * TWO32 + TWO64;
    }
  }

  /** Arithmetic on a wrapped count is arithmetic on the count, wrapped. */
  lemma PlusWrapped(x: nat, d: int)
    ensures (x % TWO32 + d) % TWO32 == (x + d) % TWO32
  {
    assert x + d == x / TWO32 * TWO32 + (x % TWO32 + d);
  }

  /** The receive queue's word: byte length in the high half, wait flag in the low half.
      A pop adds the complement of (l << 32) - 1, computed in 64 bits. */
  function SubtractLength(w: u64, l: u16): u64 {
    Add64(w, TWO64 - 1 - (l * TWO32 - 1) % TWO64)
  }

  lemma SubtractLengthKeepsFlag(w: u64, l: u16)
    ensures SubtractLength(w, l) == PackPair((PairHead(w) - l) % TWO32, PairTail(w))
  {
    PairOnto(w);
    var h, t := PairHead(w), PairTail(w);
    assert l > 0 ==> (l * TWO32 - 1) % TWO64 == l * TWO32 - 1;
    if h < l {
      assert (h - l) % TWO32 == h - l + TWO32;
    }
    hide PairHead, PairTail;
    assert w + (TWO64 - l * TWO32) == (h - l) * TWO32 + t + TWO64;
  }

  /** A flow-control window as read out of its word. */
  datatype Window = Window(max: u31, done: u31, wait: bool)

  function PackWindow(max: u32, done: u32, wait: bool): u64 {
    (if wait then TWO63 else 0) + max % TWO31 * TWO32 + done % TWO31
  }

  function UnpackWindow(w: u64): Window {
    Window(w / TWO32 % TWO31, w % TWO31, w / TWO63 % 2 == 1)
  }

  /** Packing keeps the low 31 bits of both numbers and the flag, so on 31-bit numbers a window
      and its word determine each other and the record can stand for the word. */
  lemma WindowRoundTrip(max: u32, done: u32, wait: bool)
    ensures UnpackWindow(PackWindow(max, done, wait)) == Window(max % TWO31, done % TWO31, wait)
  {
    var f := if wait then 1 else 0;
    FieldsApart(f, max % TWO31, done % TWO31);
  }

  lemma FieldsApart(f: nat, m: u31, d: u31)
    requires f < 2
    ensures
      var w := f * TWO63 + m * TWO32 + d;
      w / TWO32 % TWO31 == m && w % TWO31 == d && w / TWO63 % 2 == f
  {
    var hi := f * TWO31 + m;
    var w := hi * TWO32 + d;
    assert w / TWO32 == hi;
    assert w % TWO31 == d by {
      assert w == (2 * hi) * TWO31 + d;
    }
    assert w / TWO63 == f by {
      assert w == f * TWO63 + (m * TWO32 + d);
    }
  }
}
