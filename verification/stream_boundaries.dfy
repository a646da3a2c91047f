/** Message boundaries: where writes end, and which of those positions a read may cross. */
module StreamBoundaries {
  import opened Options
  import opened Segments
  import opened Stream
  import opened StreamInvariant
  import RecvQueue

  /** The stream position at which the first `k` cut segments end. */
  function Position(cuts: seq<Segment>, k: nat): nat
    requires k <= |cuts|
  {
    Total(cuts[..k])
  }

  /** Ends of writes lie at the end of everything written or before the current write. */
  ghost predicate EndsOk(ends: set<nat>, written: nat, current: nat) {
    && current <= written
    && (forall e :: e in ends ==> e <= written - current || e == written)
    && (current > 0 ==> written in ends)
  }

  /** A segment says "more follows" exactly when no write ends with it, and no write ends inside it. */
  ghost predicate CutOk(cuts: seq<Segment>, ends: set<nat>, k: nat)
    requires k < |cuts|
  {
    && (cuts[k].part <==> Position(cuts, k + 1) !in ends)
    && (forall e :: e in ends ==> !(Position(cuts, k) < e < Position(cuts, k + 1)))
  }

  /** What a read may do: it returns at least a byte, stays inside one write, and stops early only
      at the end of a write. */
  ghost predicate CallOk(c: ReadCall, ends: set<nat>) {
    && c.start < c.end <= c.start + c.size
    && (forall e :: e in ends ==> !(c.start < e < c.end))
    && (c.end == c.start + c.size || c.end in ends)
  }

  /** The same for a read in progress that has copied up to `at`, with `room` left; while it goes on
      to another element it is not at the end of a write. */
  ghost predicate ProgressOk(reader: Reader, start: nat, size: nat, at: nat, ends: set<nat>) {
    match reader
    case Resting => true
    case Ended => true
    case Popping(room) => start + size == at + room && InOneWrite(start, at, ends) && (at == start || at !in ends)
    case Copying(room) => start + size == at + room && InOneWrite(start, at, ends) && (at == start || at !in ends)
    case Status(room) => start + size == at + room && start < at && InOneWrite(start, at, ends)
    case StatusLoaded(room, _) => start + size == at + room && start < at && InOneWrite(start, at, ends)
    case StatusChecked(room, _, _) => start + size == at + room && start < at && InOneWrite(start, at, ends)
    case Reporting(room, _) => start + size == at + room && start < at && InOneWrite(start, at, ends)
  }

  ghost predicate InOneWrite(start: nat, at: nat, ends: set<nat>) {
    start <= at && forall e :: e in ends ==> !(start < e < at)
  }

  ghost predicate CutsOk(cuts: seq<Segment>, ends: set<nat>) {
    forall k :: 0 <= k < |cuts| ==> CutOk(cuts, ends, k)
  }

  ghost predicate CallsOk(calls: seq<ReadCall>, ends: set<nat>, out: nat) {
    forall i :: 0 <= i < |calls| ==> CallOk(calls[i], ends) && calls[i].end <= out
  }

  ghost predicate Bounded(s: State) {
    && EndsOk(s.hist.ends, |s.hist.written|, |s.snd.buf|)
    && CutsOk(s.hist.cuts, s.hist.ends)
    && ProgressOk(s.rcv.reader, s.hist.readStart, s.hist.readSize, |s.hist.out|, s.hist.ends)
    && CallsOk(s.hist.calls, s.hist.ends, |s.hist.out|)
  }

  // ---- Positions ----

  lemma PositionMonotone(cuts: seq<Segment>, j: nat, k: nat)
    requires j <= k <= |cuts|
    ensures Position(cuts, j) <= Position(cuts, k)
  {
    TotalAppend(cuts[..j], cuts[j..k]);
    assert cuts[..k] == cuts[..j] + cuts[j..k];
  }

  /** The taken segments are the first cut ones; everything read, written and cut lines up. */
  lemma Positions(s: State)
    requires Inv(s)
    ensures s.hist.taken <= s.hist.cuts
    ensures |s.hist.out| + |RestOfElement(s.rcv)| == Total(s.hist.taken) == Position(s.hist.cuts, |s.hist.taken|)
    ensures Total(s.hist.cuts) + |RestOfWrite(s.snd)| == |s.hist.written|
    ensures |s.hist.out| <= |s.hist.written|
    ensures s.snd.off <= |s.snd.buf|
  {
    hide Total, Bytes, OnWire, ReadSum, BeforeClose, RecvQueue.WakeOk, RecvQueue.LengthOk;
    TotalIsLength(s.hist.taken);
    TotalIsLength(s.hist.cuts);
    var rq := s.rcv.rq;
    assert rq.popped <= rq.pushed <= s.hist.cuts;
    assert s.hist.cuts[..|s.hist.taken|] == s.hist.taken;
    PositionMonotone(s.hist.cuts, |s.hist.taken|, |s.hist.cuts|);
    assert s.hist.cuts[..|s.hist.cuts|] == s.hist.cuts;
  }

  // ---- Each step keeps the boundaries ----

  lemma IdleHasNoRest(s: State)
    requires Inv(s) && s.snd.writer.Idle?
    ensures RestOfWrite(s.snd) == []
  {
    hide RecvQueue.Inv, Content, Control, CreditOk, DrainOk;
  }

  lemma StartWriteBounded(s: State, msg: seq<byte>, s': State)
    requires Inv(s) && Bounded(s) && StartWrite(s, msg) == Some(s')
    ensures Bounded(s')
  {
    hide Inv, RecvQueue.Inv;
    Positions(s);
    IdleHasNoRest(s);
    NewEndBounded(s.hist.cuts, s.hist.ends, |s.hist.written| + |msg|);
    hide CutsOk;
  }

  /** A write that ends beyond everything cut leaves the cut segments as they are. */
  lemma NewEndBounded(cuts: seq<Segment>, ends: set<nat>, end: nat)
    requires CutsOk(cuts, ends) && Total(cuts) < end
    ensures CutsOk(cuts, ends + {end})
  {
    forall k | 0 <= k < |cuts| ensures CutOk(cuts, ends + {end}, k) {
      PositionMonotone(cuts, k + 1, |cuts|);
      assert cuts[..|cuts|] == cuts;
      assert CutOk(cuts, ends, k);
    }
  }

  /** Cutting the next segment out of a write whose last `rest` bytes are left. */
  lemma CutBounded(cuts: seq<Segment>, seg: Segment, ends: set<nat>, written: nat, current: nat, rest: nat)
    requires EndsOk(ends, written, current) && CutsOk(cuts, ends)
    requires Total(cuts) + rest == written && 0 < |seg.data| <= rest <= current
    requires seg.part <==> |seg.data| < rest
    ensures CutsOk(cuts + [seg], ends)
  {
    var cuts' := cuts + [seg];
    assert cuts'[..|cuts|] == cuts && cuts'[..|cuts| + 1] == cuts';
    TotalPush(cuts, seg);
    forall k | 0 <= k < |cuts'| ensures CutOk(cuts', ends, k) {
      if k < |cuts| {
        assert CutOk(cuts, ends, k);
        assert cuts'[..k] == cuts[..k] && cuts'[..k + 1] == cuts[..k + 1];
      }
    }
  }

  lemma WriteToBounded(s: State, s': State)
    requires Inv(s) && Bounded(s) && WriteTo(s) == Some(s')
    ensures Bounded(s')
  {
    hide Inv, Remaining, CutsOk, CallsOk, ProgressOk, Total;
    Positions(s);
    if s'.snd.writer.Cut? {
      CutBounded(s.hist.cuts, s'.snd.writer.seg, s.hist.ends, |s.hist.written|, |s.snd.buf|, |RestOfWrite(s.snd)|);
    }
  }

  /** The current element is the last segment taken, and what has been read ends inside it. */
  lemma CurrentElement(s: State)
    requires Inv(s) && s.rcv.reader.Copying?
    ensures RestOfElement(s.rcv) == s.rcv.elem.data[s.rcv.off..] != []
    ensures
      var t := |s.hist.taken|;
      && 0 < t <= |s.hist.cuts| && s.rcv.elem == s.hist.cuts[t - 1]
      && Position(s.hist.cuts, t - 1) <= |s.hist.out|
      && |s.hist.out| + |RestOfElement(s.rcv)| == Position(s.hist.cuts, t)
  {
    hide RecvQueue.Inv, Total, Pipe, BytesOk, CloseOk, Flow;
    Positions(s);
    var t := |s.hist.taken|;
    assert s.hist.cuts[..t] == s.hist.cuts[..t - 1] + [s.hist.cuts[t - 1]];
    TotalPush(s.hist.cuts[..t - 1], s.hist.cuts[t - 1]);
  }

  /** No write ends inside what is left of the current element. */
  lemma RestInOneWrite(s: State)
    requires Inv(s) && CutsOk(s.hist.cuts, s.hist.ends) && s.rcv.reader.Copying?
    ensures RestOfElement(s.rcv) == s.rcv.elem.data[s.rcv.off..] != []
    ensures forall e :: e in s.hist.ends ==> !(|s.hist.out| < e < |s.hist.out| + |RestOfElement(s.rcv)|)
  {
    hide Inv, Position;
    CurrentElement(s);
    assert CutOk(s.hist.cuts, s.hist.ends, |s.hist.taken| - 1);
  }

  lemma CopyOutBounded(s: State, s': State)
    requires Inv(s) && Bounded(s) && CopyOut(s) == Some(s')
    ensures Bounded(s')
  {
    hide RecvQueue.Inv;
    RestInOneWrite(s);
    hide Inv, CutsOk;
  }

  lemma AfterElementBounded(s: State, room: nat, s': State)
    requires Inv(s) && AfterElement(s, room) == Some(s')
    requires EndsOk(s.hist.ends, |s.hist.written|, |s.snd.buf|) && CutsOk(s.hist.cuts, s.hist.ends)
    requires CallsOk(s.hist.calls, s.hist.ends, |s.hist.out|)
    requires s.rcv.off == |s.rcv.elem.data| > 0
    requires s.hist.readStart + s.hist.readSize == |s.hist.out| + room && s.hist.readStart < |s.hist.out|
    requires InOneWrite(s.hist.readStart, |s.hist.out|, s.hist.ends)
    ensures Bounded(s')
  {
    hide RecvQueue.Inv;
    Positions(s);
    var t := |s.hist.taken|;
    assert t > 0 && s.rcv.elem == s.hist.taken[t - 1] == s.hist.cuts[t - 1];
    assert CutOk(s.hist.cuts, s.hist.ends, t - 1);
    assert RestOfElement(s.rcv) == [];
    hide Inv, Position, Total;
  }

  lemma SwapInStatusBounded(s: State, s': State)
    requires Inv(s) && Bounded(s) && SwapInStatus(s) == Some(s')
    ensures Bounded(s')
  {
    hide RecvQueue.Inv;
    assert s.rcv.off == |s.rcv.elem.data| > 0;
    var room := s.rcv.reader.room;
    if !s'.rcv.reader.Status? && !s'.rcv.reader.Reporting? {
      AfterElementBounded(s, room, s'.(rcv := s'.rcv.(win := s.rcv.win)));
    }
    hide Inv, CutsOk, CallsOk, EndsOk;
  }

  lemma ReportInStatusBounded(s: State, s': State)
    requires Inv(s) && Bounded(s) && ReportInStatus(s) == Some(s')
    ensures Bounded(s')
  {
    hide RecvQueue.Inv;
    assert s.rcv.off == |s.rcv.elem.data| > 0;
    AfterElementBounded(s, s.rcv.reader.room, s'.(acks := s.acks));
  }

  lemma StartReadBounded(s: State, size: nat, s': State)
    requires Inv(s) && Bounded(s) && StartRead(s, size) == Some(s')
    ensures Bounded(s')
  {
    hide RecvQueue.Inv;
    hide Inv, CutsOk, CallsOk, EndsOk;
  }

  /** The other steps change no position and leave a read in progress where it is. */
  lemma OtherBounded(s: State, s': State)
    requires Bounded(s)
    requires
      && s'.hist.cuts == s.hist.cuts && s'.hist.ends == s.hist.ends && s'.hist.written == s.hist.written
      && s'.hist.out == s.hist.out && s'.hist.calls == s.hist.calls && s'.snd.buf == s.snd.buf
      && s'.hist.readStart == s.hist.readStart && s'.hist.readSize == s.hist.readSize
    requires
      ProgressOk(s.rcv.reader, s.hist.readStart, s.hist.readSize, |s.hist.out|, s.hist.ends) ==>
        ProgressOk(s'.rcv.reader, s.hist.readStart, s.hist.readSize, |s.hist.out|, s.hist.ends)
    ensures Bounded(s')
  {
  }

  lemma StepBounded(s: State, a: Action, s': State)
    requires Inv(s) && Bounded(s) && Step(s, a) == Some(s')
    ensures Bounded(s')
  {
    hide Inv, Bounded, RecvQueue.Step, Remaining;
    match a
    case BeginWrite(msg) => StartWriteBounded(s, msg, s');
    case WriteNext => WriteToBounded(s, s');
    case Copy => CopyOutBounded(s, s');
    case SwapForStatus => SwapInStatusBounded(s, s');
    case SendStatus => ReportInStatusBounded(s, s');
    case BeginRead(size) => StartReadBounded(s, size, s');
    case _ =>
      FrameOfOthers(s, a, s');
      hide Step;
      OtherBounded(s, s');
  }

  lemma FrameOfOthers(s: State, a: Action, s': State)
    requires Step(s, a) == Some(s')
    requires !a.BeginWrite? && !a.WriteNext? && !a.Copy? && !a.SwapForStatus? && !a.SendStatus? && !a.BeginRead?
    ensures
      && s'.hist.cuts == s.hist.cuts && s'.hist.ends == s.hist.ends && s'.hist.written == s.hist.written
      && s'.hist.out == s.hist.out && s'.hist.calls == s.hist.calls && s'.snd.buf == s.snd.buf
      && s'.hist.readStart == s.hist.readStart && s'.hist.readSize == s.hist.readSize
    ensures
      ProgressOk(s.rcv.reader, s.hist.readStart, s.hist.readSize, |s.hist.out|, s.hist.ends) ==>
        ProgressOk(s'.rcv.reader, s.hist.readStart, s.hist.readSize, |s.hist.out|, s.hist.ends)
  {
    hide InOneWrite, RecvQueue.Step, Remaining;
  }
}
