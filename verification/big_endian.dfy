/** Two-byte big-endian numbers. */
module BigEndian {
  import opened Segments
  import opened Words

  function Be(n: u16): seq<byte> {
    [n / 256, n % 256]
  }

  function Num(a: byte, b: byte): u16 {
    256 * a + b
  }

  lemma BeNum(a: byte, b: byte)
    ensures Be(Num(a, b)) == [a, b]
  {
  }

  lemma NumBe(n: u16)
    ensures Num(Be(n)[0], Be(n)[1]) == n
  {
  }
}
