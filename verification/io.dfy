/** Byte streams: the two ends of a connection. */
module Io {
  import opened Options
  import opened Segments

  datatype ReadError = EOF | UnexpectedEOF

  /** The error of a full read of `n` bytes where `s` is all that still arrives. */
  function FullReadError(s: seq<byte>, n: nat): Option<ReadError> {
    if |s| >= n then None else if s == [] then Some(EOF) else Some(UnexpectedEOF)
  }

  class Writer {
    var out: seq<byte>

    constructor ()
      ensures out == []
    {
      out := [];
    }

    method Write(b: seq<byte>)
      modifies this
      ensures out == old(out) + b
    {
      out := out + b;
    }
  }

  /** `rest` is what will still arrive before the stream ends. */
  class Reader {
    var rest: seq<byte>

    constructor (bytes: seq<byte>)
      ensures rest == bytes
    {
      rest := bytes;
    }

    /** `io.ReadFull` into `b[from..to]`. */
    method ReadFull(b: array<byte>, from: nat, to: nat) returns (n: nat, err: Option<ReadError>)
      requires from <= to <= b.Length
      modifies this, b
      ensures n == if |old(rest)| < to - from then |old(rest)| else to - from
      ensures err == FullReadError(old(rest), to - from)
      ensures rest == old(rest)[n..]
      ensures b[..] == old(b[..from]) + old(rest)[..n] + old(b[from + n..])
    {
      err := FullReadError(rest, to - from);
      n := if |rest| < to - from then |rest| else to - from;
      var i := 0;
      while i < n
        invariant i <= n
        invariant rest == old(rest)
        invariant b[..from + i] == old(b[..from]) + rest[..i]
        invariant b[from + i..] == old(b[from + i..])
      {
        b[from + i] := rest[i];
        i := i + 1;
      }
      assert b[..] == b[..from + n] + b[from + n..];
      rest := rest[n..];
    }

    /** `io.ReadAll` of at most `limit` bytes. */
    method ReadAll(limit: nat) returns (extra: seq<byte>)
      modifies this
      ensures extra == if |old(rest)| < limit then old(rest) else old(rest)[..limit]
      ensures rest == old(rest)[|extra|..]
    {
      var n := if |rest| < limit then |rest| else limit;
      extra, rest := rest[..n], rest[n..];
    }
  }
}
