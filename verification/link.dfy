/** The frames of one stream through the write queue, the packager and the session reader of the
    other side: what the stream model takes as one ordered wire. */
module Link {
  import opened Options
  import opened Segments
  import opened Sequences
  import opened Words
  import opened Frames
  import PriorityQueue
  import RecvQueue
  import Stream
  import StreamInvariant
  import StreamTheorems

  /** The frame that carries a segment or the close of stream `id`. */
  function Carrier(id: i32, f: Stream.Frame): Frame {
    match f
    case Data(seg) => WithContent(if seg.part then NEW_MSG_PART else NEW_MSG, id, seg.data)
    case CloseFrame => Bare(CONN_CLOSE, id)
  }

  function AckCarrier(id: i32, a: Stream.Ack): Frame {
    WithWindow(id, PackWindow(a.max, a.read, false))
  }

  /** What the session reader makes of a data or close frame. */
  function Carried(f: Frame): Option<Stream.Frame> {
    match f
    case WithContent(flag, _, content) =>
      if flag == NEW_MSG || flag == NEW_MSG_PART then Some(Stream.Data(Segment(content, flag == NEW_MSG_PART)))
      else None
    case WithWindow(_, _) => None
    case Bare(flag, _) => if flag == CONN_CLOSE then Some(Stream.CloseFrame) else None
  }

  function CarriedAck(f: Frame): Option<Stream.Ack> {
    match f
    case WithWindow(_, w) => Some(Stream.Ack(UnpackWindow(w).max, UnpackWindow(w).done))
    case _ => None
  }

  /** The frames of stream `id` other than those that open it. */
  function OfStream(fs: seq<Frame>, id: i32): seq<Frame> {
    if fs == [] then []
    else
      var f := fs[|fs| - 1];
      OfStream(fs[..|fs| - 1], id) + if PriorityQueue.ClassOf(f).Low? && f.id == id then [f] else []
  }

  lemma {:induction false} OfStreamSplits(fs: seq<Frame>, gs: seq<Frame>, id: i32)
    ensures OfStream(fs + gs, id) == OfStream(fs, id) + OfStream(gs, id)
  {
    if gs == [] {
      assert fs + gs == fs;
      NilRight(OfStream(fs, id));
    } else {
      var front, g := gs[..|gs| - 1], gs[|gs| - 1];
      OfStreamSplits(fs, front, id);
      assert (fs + gs)[..|fs + gs| - 1] == fs + front;
      Assoc(OfStream(fs, id), OfStream(front, id),
            if PriorityQueue.ClassOf(g).Low? && g.id == id then [g] else []);
    }
  }

  /** A stream's frames all have the lowest class, so selecting the class first loses none. */
  lemma {:induction false} StreamIsLow(fs: seq<Frame>, id: i32)
    ensures OfStream(PriorityQueue.OfClass(fs, PriorityQueue.Low), id) == OfStream(fs, id)
  {
    if fs != [] {
      var front, f := fs[..|fs| - 1], fs[|fs| - 1];
      StreamIsLow(front, id);
      var one := if PriorityQueue.ClassOf(f).Low? then [f] else [];
      OfStreamSplits(PriorityQueue.OfClass(front, PriorityQueue.Low), one, id);
      assert [f][..0] == [];
    }
  }

  /** Order and content of every stream survive the shared link: whatever frames of other streams
      and classes come between, the frames of stream `id` that the other side reads, then those
      still queued, are exactly those that were queued, in order. */
  lemma StreamSurvivesLink(maxLength: int, es: seq<PriorityQueue.Event>, id: i32)
    requires forall e :: e in es && e.Arrive? ==> WellFormed(e.p)
    ensures
      var l := PriorityQueue.Run(PriorityQueue.Fresh(maxLength), es);
      OfStream(DecodeAll(EncodeAll(l.served)).frames, id) + OfStream(l.q.low, id) == OfStream(l.accepted, id)
  {
    var l := PriorityQueue.Run(PriorityQueue.Fresh(maxLength), es);
    ServedWellFormed(maxLength, es);
    AllFramesSurvive(l.served);
    PriorityQueue.EachClassFifo(maxLength, es, PriorityQueue.Low);
    StreamIsLow(l.served, id);
    StreamIsLow(l.accepted, id);
    OfStreamSplits(PriorityQueue.OfClass(l.served, PriorityQueue.Low), l.q.low, id);
  }

  lemma {:induction false} ServedWellFormed(maxLength: int, es: seq<PriorityQueue.Event>)
    requires forall e :: e in es && e.Arrive? ==> WellFormed(e.p)
    ensures
      var l := PriorityQueue.Run(PriorityQueue.Fresh(maxLength), es);
      && (forall f :: f in l.served ==> WellFormed(f))
      && (forall c :: AllWellFormed(PriorityQueue.Waiting(l.q, c)))
  {
    hide WellFormed;
    if es != [] {
      var before, e := es[..|es| - 1], es[|es| - 1];
      ServedWellFormed(maxLength, before);
      var m := PriorityQueue.Run(PriorityQueue.Fresh(maxLength), before);
      var l := PriorityQueue.After(m, e);
      hide PriorityQueue.Run;
      if e.Serve? && PriorityQueue.Next(m.q).Some? {
        var c := PriorityQueue.Next(m.q).value;
        assert AllWellFormed(PriorityQueue.Waiting(m.q, c));
        assert WellFormed(PriorityQueue.Waiting(m.q, c)[0]);
      }
      forall c ensures AllWellFormed(PriorityQueue.Waiting(l.q, c)) {
        assert AllWellFormed(PriorityQueue.Waiting(m.q, c));
        hide PriorityQueue.ClassOf;
      }
    }
  }

  ghost predicate AllWellFormed(fs: seq<Frame>) {
    forall f :: f in fs ==> WellFormed(f)
  }

  /** Every data or close frame in flight in any run of a stream fits a frame of the link, travels
      in the lowest class, and is what the other side recovers. */
  lemma CarriersAreExact(run: seq<Stream.Action>, id: i32, i: nat)
    requires Stream.Run(run).Some? && i < |Stream.Run(run).value.wire|
    ensures
      var f := Stream.Run(run).value.wire[i];
      && WellFormed(Carrier(id, f)) && Carried(Carrier(id, f)) == Some(f)
      && PriorityQueue.ClassOf(Carrier(id, f)).Low?
  {
    hide StreamInvariant.Inv, Stream.Run;
    WireSegments(run, i);
  }

  /** The same for an acknowledgement: its two numbers cross in one packed window. */
  lemma AckCarrierExact(id: i32, a: Stream.Ack)
    ensures WellFormed(AckCarrier(id, a)) && PriorityQueue.ClassOf(AckCarrier(id, a)).Low?
    ensures CarriedAck(AckCarrier(id, a)) == Some(a)
  {
    WindowRoundTrip(a.max, a.read, false);
    hide PackWindow, UnpackWindow;
  }

  lemma WireSegments(run: seq<Stream.Action>, i: nat)
    requires Stream.Run(run).Some? && i < |Stream.Run(run).value.wire|
    ensures
      var f := Stream.Run(run).value.wire[i];
      f.Data? ==> 0 < |f.seg.data| <= MAXIMUM_SEGMENT_SIZE
  {
    var s := Stream.Run(run).value;
    StreamTheorems.RunInv(run);
    hide Stream.Run, RecvQueue.Inv;
    assert StreamInvariant.Pipe(s);
    hide StreamInvariant.Inv, Stream.OnWire;
    if s.wire[i].Data? {
      OnWireHas(s.wire, i);
      InPipe(s.hist.cuts, s.rcv.rq.pushed + Stream.InDelivery(s.rcv), Stream.OnWire(s.wire),
             Stream.InWriter(s.snd), s.wire[i].seg);
    }
  }

  lemma InPipe(cuts: seq<Segment>, front: seq<Segment>, mid: seq<Segment>, back: seq<Segment>, seg: Segment)
    requires cuts == front + mid + back && seg in mid
    requires forall i :: 0 <= i < |cuts| ==> 0 < |cuts[i].data| <= MAXIMUM_SEGMENT_SIZE
    ensures 0 < |seg.data| <= MAXIMUM_SEGMENT_SIZE
  {
    var k :| 0 <= k < |mid| && mid[k] == seg;
    assert cuts[|front| + k] == seg;
  }

  lemma {:induction false} OnWireHas(wire: seq<Stream.Frame>, i: nat)
    requires i < |wire| && wire[i].Data?
    ensures wire[i].seg in Stream.OnWire(wire)
    decreases |wire|
  {
    if i < |wire| - 1 {
      OnWireHas(wire[..|wire| - 1], i);
    }
  }
}
