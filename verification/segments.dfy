/** Segments of a stream: the payload of one data frame and its "more follows" flag. */
module Segments {
  /** Size of a pooled buffer, and the most payload a frame can carry. */
  const POOL_SIZE_WINDOW: nat := 4085
  const MAXIMUM_SEGMENT_SIZE: nat := POOL_SIZE_WINDOW

  /** The size a window starts with. */
  const INITIAL_WINDOW: nat := MAXIMUM_SEGMENT_SIZE * 30

  type byte = x: int | 0 <= x < 256

  /** A queue element; `part` is set when more of the same write follows. */
  datatype Segment = Segment(data: seq<byte>, part: bool)

  function Bytes(es: seq<Segment>): seq<byte> {
    if es == [] then [] else Bytes(es[..|es| - 1]) + es[|es| - 1].data
  }

  /** Number of payload bytes in a list of segments. */
  function Total(es: seq<Segment>): nat {
    if es == [] then 0 else Total(es[..|es| - 1]) + |es[|es| - 1].data|
  }

  lemma TotalOne(e: Segment)
    ensures Total([e]) == |e.data|
  {
    assert [e][..0] == [];
  }

  lemma {:induction false} TotalAppend(es: seq<Segment>, fs: seq<Segment>)
    ensures Total(es + fs) == Total(es) + Total(fs)
  {
    if fs == [] {
      assert es + fs == es;
    } else {
      TotalAppend(es, fs[..|fs| - 1]);
      assert (es + fs)[..|es + fs| - 1] == es + fs[..|fs| - 1];
    }
  }

  lemma TotalPush(es: seq<Segment>, e: Segment)
    ensures Total(es + [e]) == Total(es) + |e.data|
  {
    assert (es + [e])[..|es|] == es;
  }

  lemma TotalPop(es: seq<Segment>)
    requires es != []
    ensures Total(es) == |es[0].data| + Total(es[1..])
  {
    assert es == [es[0]] + es[1..];
    TotalAppend([es[0]], es[1..]);
    TotalOne(es[0]);
  }

  lemma {:induction false} TotalIsLength(es: seq<Segment>)
    ensures Total(es) == |Bytes(es)|
  {
    if es != [] {
      TotalIsLength(es[..|es| - 1]);
    }
  }

  lemma BytesPush(es: seq<Segment>, e: Segment)
    ensures Bytes(es + [e]) == Bytes(es) + e.data
  {
    assert (es + [e])[..|es|] == es;
  }

  lemma {:induction false} BytesPrefix(es: seq<Segment>, k: nat)
    requires k <= |es|
    ensures Bytes(es[..k]) <= Bytes(es)
    decreases |es|
  {
    if k < |es| {
      BytesPrefix(es[..|es| - 1], k);
      assert es[..|es| - 1][..k] == es[..k];
    } else {
      assert es[..k] == es;
    }
  }

  lemma TotalPositive(es: seq<Segment>)
    requires forall i :: 0 <= i < |es| ==> es[i].data != []
    ensures Total(es) == 0 <==> es == []
  {
  }
}
