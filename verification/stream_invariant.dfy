/** What every step of a stream keeps. */
module StreamInvariant {
  import opened Options
  import opened Segments
  import opened Sequences
  import opened Words
  import opened Stream
  import RecvQueue

  // ---- The parts of the invariant ----

  /** The session reader is inside the queue only while its write is pushing. */
  ghost predicate DelivererOk(deliverer: Deliverer, pusher: RecvQueue.Pusher) {
    deliverer.Pushing? || pusher.Idle?
  }

  /** Where the reader is agrees with where it is in the queue and in the current element. */
  ghost predicate ReaderOk(reader: Reader, popper: RecvQueue.Popper, off: nat, size: nat) {
    match reader
    case Popping(room) => room > 0 && !popper.Resting? && off == size
    case Ended => popper.Ended? && off == size
    case Copying(room) => room > 0 && popper.Resting? && off < size
    case Resting => popper.Resting? && off <= size
    case _ => popper.Resting? && 0 < size == off
  }

  ghost predicate ElementOk(elem: Segment, taken: seq<Segment>) {
    elem == (if taken == [] then Segment([], false) else taken[|taken| - 1])
  }

  /** The writer's side: the wait flag is set only over a full window with a parked writer, and a
      parked writer has its flag set or is about to be woken. A swap that finds the word changed
      never carries a wait over. */
  ghost predicate SenderOk(snd: Sender, granted: nat) {
    && (snd.win.wait ==> snd.writer.Parked? && snd.win.max <= snd.win.done)
    && (snd.writer.Parked? ==> snd.win.wait || snd.setter.Waking?)
    && (snd.setter.Waking? ==> snd.writer.Parked? && !snd.win.wait)
    && match snd.setter {
       case Loop(_, newWait) => !newWait
       case Loaded(ack, ptrs, newWait) => !newWait && ack.read <= ptrs.done && (ptrs.wait ==> snd.win == ptrs)
       case _ => true
       }
    && snd.off <= |snd.buf|
    && (snd.writer.Idle? ==> snd.off == |snd.buf|)
    && (snd.writer.Cut? || snd.writer.Counted? ==> |snd.writer.seg.data| <= snd.off)
    && snd.win.done + CutSize(snd) <= granted < TWO31
    && snd.win.max <= granted
  }

  function CutSize(snd: Sender): nat {
    if snd.writer.Cut? then |snd.writer.seg.data| else 0
  }

  /** Every segment cut so far is in exactly one place, and the places are in stream order. */
  ghost predicate PipeOk(cuts: seq<Segment>, taken: seq<Segment>, rq: RecvQueue.State,
                         delivery: seq<Segment>, wire: seq<Segment>, writer: seq<Segment>) {
    && cuts == rq.pushed + delivery + wire + writer
    && rq.popped == taken + InPop(rq)
    && (forall i :: 0 <= i < |cuts| ==> 0 < |cuts[i].data| <= MAXIMUM_SEGMENT_SIZE)
  }

  ghost predicate Pipe(s: State) {
    PipeOk(s.hist.cuts, s.hist.taken, s.rcv.rq, InDelivery(s.rcv), OnWire(s.wire), InWriter(s.snd))
  }

  /** Credit: the writer's counter is the cut and counted bytes that the reader has not recorded,
      plus the recorded bytes that have not come back. */
  ghost predicate CreditOk(s: State) {
    s.snd.win.done + CutSize(s.snd) + Total(s.hist.taken)
    == Total(s.hist.cuts) + Unrecorded(s.rcv) + s.rcv.win.done + ToReport(s.rcv) + ReadSum(s.acks) + InSetter(s.snd)
  }

  /** Segments past the wire that the reader has not finished. */
  ghost predicate Undrained(rcv: Receiver, taken: nat) {
    Received(rcv) > taken || Unrecorded(rcv) > 0
  }

  /** An unreported read count never outlives the last received segment. */
  ghost predicate DrainOk(rcv: Receiver, taken: nat) {
    && (rcv.win.done > 0 ==> Undrained(rcv, taken))
    && (rcv.reader.StatusChecked? && rcv.reader.remain != rcv.reader.ptrs.max ==>
          Received(rcv) > taken)
  }

  /** What has been read and what is left of the current element are the taken segments; what has
      been cut and what is left of the current write is everything written. */
  ghost predicate BytesOk(hist: History, element: seq<byte>, write: seq<byte>) {
    && hist.out + element == Bytes(hist.taken)
    && Bytes(hist.cuts) + write == hist.written
  }

  function RestOfElement(rcv: Receiver): seq<byte> {
    if rcv.off <= |rcv.elem.data| then rcv.elem.data[rcv.off..] else []
  }

  function RestOfWrite(snd: Sender): seq<byte> {
    if snd.off <= |snd.buf| then snd.buf[snd.off..] else []
  }

  /** Data frames in front of the close frame. */
  function BeforeClose(wire: seq<Frame>): nat {
    if wire == [] || wire[0].CloseFrame? then 0 else 1 + BeforeClose(wire[1..])
  }

  /** The stop reaches the queue after exactly the segments queued before the close. */
  ghost predicate CloseOk(wire: seq<Frame>, closed: bool, rq: RecvQueue.State, received: nat, closeAt: int) {
    && (CloseFrame in wire <==> closed && !rq.stopped)
    && (rq.stopped ==> closed && rq.mark == closeAt)
    && (CloseFrame in wire ==> closeAt == received + BeforeClose(wire))
    && (forall i, j :: 0 <= i < j < |wire| ==> !(wire[i].CloseFrame? && wire[j].CloseFrame?))
  }

  /** Segments that have left the wire. */
  function Received(rcv: Receiver): nat {
    |rcv.rq.pushed| + |InDelivery(rcv)|
  }

  ghost predicate Control(s: State) {
    && DelivererOk(s.rcv.deliverer, s.rcv.rq.pusher)
    && ReaderOk(s.rcv.reader, s.rcv.rq.popper, s.rcv.off, |s.rcv.elem.data|)
    && ElementOk(s.rcv.elem, s.hist.taken)
    && RecvQueue.Inv(s.rcv.rq)
    && RecvQueue.StopOk(s.rcv.rq)
  }

  ghost predicate Flow(s: State) {
    && SenderOk(s.snd, s.hist.granted)
    && CreditOk(s)
    && DrainOk(s.rcv, |s.hist.taken|)
  }

  ghost predicate Content(s: State) {
    && Pipe(s)
    && BytesOk(s.hist, RestOfElement(s.rcv), RestOfWrite(s.snd))
    && CloseOk(s.wire, s.snd.closed, s.rcv.rq, Received(s.rcv), s.hist.closeAt)
  }

  ghost predicate Inv(s: State) {
    Control(s) && Flow(s) && Content(s)
  }

  // ---- Facts about the places ----

  lemma OnWirePush(wire: seq<Frame>, f: Frame)
    ensures OnWire(wire + [f]) == OnWire(wire) + (if f.Data? then [f.seg] else [])
  {
    assert (wire + [f])[..|wire|] == wire;
  }

  lemma {:induction false} OnWirePop(wire: seq<Frame>)
    requires wire != []
    ensures OnWire(wire) == (if wire[0].Data? then [wire[0].seg] else []) + OnWire(wire[1..])
  {
    if |wire| == 1 {
      assert wire[..0] == [];
    } else {
      OnWirePop(wire[..|wire| - 1]);
      assert wire[..|wire| - 1][1..] == wire[1..][..|wire[1..]| - 1];
    }
  }

  lemma ReadSumPush(acks: seq<Ack>, a: Ack)
    ensures ReadSum(acks + [a]) == ReadSum(acks) + a.read
  {
    assert (acks + [a])[..|acks|] == acks;
  }

  lemma {:induction false} ReadSumPop(acks: seq<Ack>)
    requires acks != []
    ensures ReadSum(acks) == acks[0].read + ReadSum(acks[1..])
  {
    if |acks| == 1 {
      assert acks[..0] == [];
    } else {
      ReadSumPop(acks[..|acks| - 1]);
      assert acks[..|acks| - 1][1..] == acks[1..][..|acks[1..]| - 1];
    }
  }

  lemma {:induction false} BeforeClosePush(wire: seq<Frame>, f: Frame)
    ensures CloseFrame in wire ==> BeforeClose(wire + [f]) == BeforeClose(wire)
    ensures CloseFrame !in wire ==> BeforeClose(wire + [f]) == |OnWire(wire)| + if f.CloseFrame? then 0 else 1
  {
    if wire != [] {
      OnWirePop(wire);
      assert (wire + [f])[1..] == wire[1..] + [f];
      assert CloseFrame in wire <==> wire[0] == CloseFrame || CloseFrame in wire[1..];
      if wire[0].Data? {
        BeforeClosePush(wire[1..], f);
      }
    }
  }

  lemma BeforeClosePop(wire: seq<Frame>)
    requires wire != []
    ensures BeforeClose(wire) == if wire[0].CloseFrame? then 0 else 1 + BeforeClose(wire[1..])
  {
  }

  lemma CloseInTail(wire: seq<Frame>)
    requires wire != []
    ensures CloseFrame in wire <==> wire[0] == CloseFrame || CloseFrame in wire[1..]
  {
  }

  /** All bytes cut, place by place. */
  lemma Accounts(s: State)
    requires Pipe(s) && RecvQueue.Inv(s.rcv.rq)
    ensures
      Total(s.hist.cuts)
      == Total(s.hist.taken) + Total(InPop(s.rcv.rq)) + Total(s.rcv.rq.q) + Total(InDelivery(s.rcv))
         + Total(OnWire(s.wire)) + Total(InWriter(s.snd))
  {
    hide RecvQueue.LengthOk, RecvQueue.WakeOk;
    var rq := s.rcv.rq;
    TotalAppend(rq.pushed + InDelivery(s.rcv) + OnWire(s.wire), InWriter(s.snd));
    TotalAppend(rq.pushed + InDelivery(s.rcv), OnWire(s.wire));
    TotalAppend(rq.pushed, InDelivery(s.rcv));
    TotalAppend(rq.popped, rq.q);
    TotalAppend(s.hist.taken, InPop(rq));
  }

  /** The element at the front of delivery, or at the reader, is a cut segment. */
  lemma CutSegments(cuts: seq<Segment>, front: seq<Segment>, mid: seq<Segment>, back: seq<Segment>)
    requires cuts == front + mid + back
    requires forall i :: 0 <= i < |cuts| ==> 0 < |cuts[i].data| <= MAXIMUM_SEGMENT_SIZE
    ensures forall i :: 0 <= i < |front| ==> 0 < |front[i].data| <= MAXIMUM_SEGMENT_SIZE
    ensures forall i :: 0 <= i < |mid| ==> 0 < |mid[i].data| <= MAXIMUM_SEGMENT_SIZE
  {
    assert forall i :: 0 <= i < |front| ==> front[i] == cuts[i];
    assert forall i :: 0 <= i < |mid| ==> mid[i] == cuts[|front| + i];
  }

  lemma ReceivedSegments(s: State)
    requires Pipe(s) && RecvQueue.Inv(s.rcv.rq)
    ensures forall i :: 0 <= i < |s.rcv.rq.pushed| ==> 0 < |s.rcv.rq.pushed[i].data| <= MAXIMUM_SEGMENT_SIZE
    ensures forall i :: 0 <= i < |InDelivery(s.rcv)| ==> 0 < |InDelivery(s.rcv)[i].data| <= MAXIMUM_SEGMENT_SIZE
    ensures forall i :: 0 <= i < |InPop(s.rcv.rq)| ==> 0 < |InPop(s.rcv.rq)[i].data| <= MAXIMUM_SEGMENT_SIZE
  {
    hide RecvQueue.LengthOk, RecvQueue.WakeOk;
    var rq := s.rcv.rq;
    Assoc(rq.pushed + InDelivery(s.rcv), OnWire(s.wire), InWriter(s.snd));
    CutSegments(s.hist.cuts, rq.pushed, InDelivery(s.rcv), OnWire(s.wire) + InWriter(s.snd));
    CutSegments(rq.pushed, s.hist.taken, InPop(rq), rq.q);
  }

  /** Nothing overflows: the queue's length, the counters and the reads in flight all stay within
      the granted window. */
  lemma Bounds(s: State)
    requires Inv(s)
    ensures RecvQueue.Load(s.rcv.rq) < TWO31
    ensures s.rcv.rq.length == RecvQueue.Load(s.rcv.rq)
    ensures InSetter(s.snd) <= s.snd.win.done
    ensures s.rcv.win.done + Unrecorded(s.rcv) <= s.snd.win.done
  {
    var rq := s.rcv.rq;
    Accounts(s);
    if s.snd.writer.Cut? { TotalOne(s.snd.writer.seg); }
    if rq.pusher.Counted? { TotalOne(rq.pusher.el); }
    if rq.popper.Took? { TotalOne(rq.popper.el); }
    assert rq.length == RecvQueue.Load(rq) % TWO32;
    hide Total, Pipe, BytesOk, DrainOk, CloseOk, RecvQueue.Inv, RecvQueue.StopOk;
  }

  lemma SmallQueue(s: State)
    requires Inv(s)
    ensures RecvQueue.Small(s.rcv.rq)
  {
    Bounds(s);
    ReceivedSegments(s);
    if s.rcv.rq.pusher.Counted? {
      assert InDelivery(s.rcv)[0] == s.rcv.rq.pusher.el;
    }
    hide Pipe, BytesOk, DrainOk, CloseOk, CreditOk, RecvQueue.Inv, RecvQueue.Load;
  }

  /** What the length word accounts for has been received and not yet taken by the reader. */
  lemma LoadMeansReceived(s: State)
    requires Inv(s)
    ensures RecvQueue.Load(s.rcv.rq) > 0 ==> Received(s.rcv) > |s.hist.taken|
  {
    hide RecvQueue.LengthOk, RecvQueue.WakeOk;
    hide Total;
    if s.rcv.rq.q == [] {
      assert Total(s.rcv.rq.q) == 0 by { TotalEmpty(); }
    }
  }

  lemma TotalEmpty()
    ensures Total([]) == 0
  {
  }

  // ---- Steps of the writer's side ----

  lemma StartWriteKeeps(s: State, msg: seq<byte>, s': State)
    requires Inv(s) && StartWrite(s, msg) == Some(s')
    ensures Inv(s')
  {
    hide RecvQueue.Inv, Total, Bytes, OnWire, ReadSum, BeforeClose;
  }

  lemma WriteToKeeps(s: State, s': State)
    requires Inv(s) && WriteTo(s) == Some(s')
    ensures Inv(s')
  {
    hide RecvQueue.Inv, Total, Bytes, OnWire, ReadSum, BeforeClose;
    if s'.snd.writer.Cut? {
      var seg := s'.snd.writer.seg;
      TotalPush(s.hist.cuts, seg);
      BytesPush(s.hist.cuts, seg);
      assert RestOfWrite(s.snd) == seg.data + RestOfWrite(s'.snd);
      Assoc(Bytes(s.hist.cuts), seg.data, RestOfWrite(s'.snd));
      NilRight(s.rcv.rq.pushed + InDelivery(s.rcv) + OnWire(s.wire));
    }
  }

  lemma SentKeeps(s: State, s': State)
    requires Inv(s) && Sent(s) == Some(s')
    ensures Inv(s')
  {
    hide RecvQueue.Inv, Total, Bytes, OnWire, ReadSum, BeforeClose;
  }

  lemma SendFrameKeeps(s: State, s': State)
    requires Inv(s) && SendFrame(s) == Some(s')
    ensures Inv(s')
  {
    hide RecvQueue.Inv, Total, Bytes, OnWire, ReadSum, BeforeClose;
    var seg := s.snd.writer.seg;
    OnWirePush(s.wire, Data(seg));
    BeforeClosePush(s.wire, Data(seg));
    Assoc(s.rcv.rq.pushed + InDelivery(s.rcv), OnWire(s.wire), [seg]);
    NilRight(s'.rcv.rq.pushed + InDelivery(s'.rcv) + OnWire(s'.wire));
  }

  lemma CloseStreamKeeps(s: State, s': State)
    requires Inv(s) && CloseStream(s) == Some(s')
    ensures Inv(s')
  {
    hide RecvQueue.Inv, Total, Bytes, OnWire, ReadSum, BeforeClose;
    OnWirePush(s.wire, CloseFrame);
    BeforeClosePush(s.wire, CloseFrame);
  }

  lemma TakeAckKeeps(s: State, s': State)
    requires Inv(s) && TakeAck(s) == Some(s')
    ensures Inv(s')
  {
    hide RecvQueue.Inv, Total, Bytes, OnWire, ReadSum, BeforeClose;
    ReadSumPop(s.acks);
  }

  lemma LoadInSetSizeKeeps(s: State, s': State)
    requires Inv(s) && LoadInSetSize(s) == Some(s')
    ensures Inv(s')
  {
    hide RecvQueue.Inv, Total, Bytes, OnWire, ReadSum, BeforeClose;
    Bounds(s);
  }

  lemma SwapInSetSizeKeeps(s: State, s': State)
    requires Inv(s) && SwapInSetSize(s) == Some(s')
    ensures Inv(s')
  {
    hide RecvQueue.Inv, Total, Bytes, OnWire, ReadSum, BeforeClose;
  }

  lemma AllowKeeps(s: State, s': State)
    requires Inv(s) && Allow(s) == Some(s')
    ensures Inv(s')
  {
    hide RecvQueue.Inv, Total, Bytes, OnWire, ReadSum, BeforeClose;
  }

  // ---- Steps of delivery ----

  lemma TakeFrameKeeps(s: State, s': State)
    requires Inv(s) && TakeFrame(s) == Some(s')
    ensures Inv(s')
  {
    hide RecvQueue.Inv, Total, Bytes, OnWire, ReadSum, BeforeClose;
    OnWirePop(s.wire);
    CloseInTail(s.wire);
    assert BeforeClose(s.wire) == if s.wire[0].CloseFrame? then 0 else 1 + BeforeClose(s.wire[1..]) by {
      BeforeClosePop(s.wire);
    }
    if s.wire[0].CloseFrame? {
      SmallQueue(s);
      RecvQueue.StepKeeps(s.rcv.rq, RecvQueue.Stop, s'.rcv.rq);
      RecvQueue.StepKeepsStop(s.rcv.rq, RecvQueue.Stop, s'.rcv.rq);
    } else {
      NilRight(s.rcv.rq.pushed);
      Assoc(s.rcv.rq.pushed, [s.wire[0].seg], OnWire(s'.wire));
    }
  }

  lemma ResizeWindowKeeps(s: State, to: Option<u31>, s': State)
    requires Inv(s) && ResizeWindow(s, to) == Some(s')
    ensures Inv(s')
  {
    hide RecvQueue.Inv, Total, Bytes, OnWire, ReadSum, BeforeClose;
  }

  lemma LoadInWriteKeeps(s: State, s': State)
    requires Inv(s) && LoadInWrite(s) == Some(s')
    ensures Inv(s')
  {
    hide RecvQueue.Inv, Total, Bytes, OnWire, ReadSum, BeforeClose;
  }

  lemma CheckInWriteKeeps(s: State, s': State)
    requires Inv(s) && CheckInWrite(s) == Some(s')
    ensures Inv(s')
  {
    hide RecvQueue.Inv, Total, Bytes, OnWire, ReadSum, BeforeClose;
  }

  lemma SwapInWriteControl(s: State, s': State)
    requires Control(s) && SwapInWrite(s) == Some(s')
    ensures Control(s')
  {
    hide RecvQueue.Inv, Total, Bytes, OnWire;
    var seg := s.rcv.deliverer.seg;
    if RecvQueue.BeginPush(s.rcv.rq, seg) == Some(s'.rcv.rq) {
      RecvQueue.StepKeeps(s.rcv.rq, RecvQueue.Push(seg), s'.rcv.rq);
    }
  }

  lemma SwapInWriteFlow(s: State, s': State)
    requires Flow(s) && SwapInWrite(s) == Some(s')
    ensures Flow(s')
  {
    hide Total, ReadSum, SenderOk, Remaining;
  }

  lemma SwapInWriteKeeps(s: State, s': State)
    requires Inv(s) && SwapInWrite(s) == Some(s')
    ensures Inv(s')
  {
    hide RecvQueue.Inv, Total, Bytes, OnWire, ReadSum, BeforeClose, Control, Flow;
    SwapInWriteControl(s, s');
    SwapInWriteFlow(s, s');
  }

  lemma FinishPushKeeps(s: State, s': State)
    requires Inv(s) && FinishPush(s) == Some(s')
    ensures Inv(s')
  {
    hide RecvQueue.Inv, Total, Bytes, OnWire, ReadSum, BeforeClose;
  }

  lemma ReportInWriteKeeps(s: State, s': State)
    requires Inv(s) && ReportInWrite(s) == Some(s')
    ensures Inv(s')
  {
    hide RecvQueue.Inv, Total, Bytes, OnWire, ReadSum, BeforeClose;
    ReadSumPush(s.acks, s.rcv.deliverer.ack);
  }

  lemma QueueStepKeeps(s: State, a: RecvQueue.Action, s': State)
    requires Inv(s) && QueueStep(s, a) == Some(s')
    ensures Inv(s')
  {
    hide RecvQueue.Inv, Total, Bytes, OnWire, ReadSum, BeforeClose;
    SmallQueue(s);
    RecvQueue.StepKeeps(s.rcv.rq, a, s'.rcv.rq);
    RecvQueue.StepKeepsStop(s.rcv.rq, a, s'.rcv.rq);
    assert Pipe(s') by { QueueStepPipe(s, a, s'); }
    hide Pipe, RecvQueue.StopOk;
  }

  lemma QueueStepPipe(s: State, a: RecvQueue.Action, s': State)
    requires Pipe(s) && DelivererOk(s.rcv.deliverer, s.rcv.rq.pusher) && QueueStep(s, a) == Some(s')
    ensures Pipe(s')
  {
    hide RecvQueue.Inv, OnWire;
    var rq, rq' := s.rcv.rq, s'.rcv.rq;
    NilRight(rq'.pushed);
    NilRight(s.hist.taken);
  }

  // ---- Steps of the reader ----

  lemma StartReadKeeps(s: State, size: nat, s': State)
    requires Inv(s) && StartRead(s, size) == Some(s')
    ensures Inv(s')
  {
    hide RecvQueue.Inv, Total, Bytes, OnWire, ReadSum, BeforeClose;
    if s'.rcv.reader.Popping? {
      RecvQueue.StepKeeps(s.rcv.rq, RecvQueue.Pop, s'.rcv.rq);
    }
  }

  lemma InstallKeeps(s: State, s': State)
    requires Inv(s) && InstallElement(s) == Some(s')
    ensures Inv(s')
  {
    hide RecvQueue.Inv, Total, Bytes, OnWire, ReadSum, BeforeClose;
    var el := s.rcv.rq.popper.el;
    ReceivedSegments(s);
    assert InPop(s.rcv.rq)[0] == el;
    NilRight(s'.hist.taken);
    TotalPush(s.hist.taken, el);
    BytesPush(s.hist.taken, el);
    RecvQueue.StepKeeps(s.rcv.rq, RecvQueue.Return, s'.rcv.rq);
  }

  lemma ReturnEndKeeps(s: State, s': State)
    requires Inv(s) && ReturnEnd(s) == Some(s')
    ensures Inv(s')
  {
    hide RecvQueue.Inv, Total, Bytes, OnWire, ReadSum, BeforeClose;
  }

  lemma CopyMoves(out: seq<byte>, data: seq<byte>, off: nat, l: nat)
    requires off + l <= |data|
    ensures out + data[off..] == out + data[off..off + l] + data[off + l..]
  {
  }

  lemma CopyOutControl(s: State, s': State)
    requires Control(s) && CopyOut(s) == Some(s')
    ensures Control(s')
  {
    hide RecvQueue.Inv, RecvQueue.StopOk;
  }

  lemma CopyOutFlow(s: State, s': State)
    requires Control(s) && Flow(s) && CopyOut(s) == Some(s')
    ensures Flow(s')
  {
    hide RecvQueue.Inv, RecvQueue.StopOk, Total, ReadSum, SenderOk, DelivererOk, ElementOk;
  }

  lemma CopyOutKeeps(s: State, s': State)
    requires Inv(s) && CopyOut(s) == Some(s')
    ensures Inv(s')
  {
    hide Bytes, OnWire, Control, Flow, CloseOk, PipeOk;
    CopyMoves(s.hist.out, s.rcv.elem.data, s.rcv.off, Min(s.rcv.reader.room, |s.rcv.elem.data| - s.rcv.off));
    CopyOutControl(s, s');
    CopyOutFlow(s, s');
  }

  lemma LoadInStatusKeeps(s: State, s': State)
    requires Inv(s) && LoadInStatus(s) == Some(s')
    ensures Inv(s')
  {
    hide RecvQueue.Inv, Total, Bytes, OnWire, ReadSum, BeforeClose;
  }

  lemma CheckInStatusKeeps(s: State, s': State)
    requires Inv(s) && CheckInStatus(s) == Some(s')
    ensures Inv(s')
  {
    hide RecvQueue.Inv, Total, Bytes, OnWire, ReadSum, BeforeClose;
    Bounds(s);
    LoadMeansReceived(s);
  }

  /** Recording a finished element: raise the counter, or take it for a report. */
  lemma SwapInStatusKeeps(s: State, s': State)
    requires Inv(s) && SwapInStatus(s) == Some(s')
    ensures Inv(s')
  {
    hide RecvQueue.Inv, Total, Bytes, OnWire, ReadSum, BeforeClose;
    Bounds(s);
    var StatusChecked(room, ptrs, remain) := s.rcv.reader;
    var read := ptrs.done + |s.rcv.elem.data|;
    hide Inv;
    if s.rcv.win == ptrs && !((ptrs.wait && remain > 0) || read >= ptrs.max / 2 || remain == ptrs.max) {
      var s2 := s.(rcv := s.rcv.(win := ptrs.(done := read), reader := Reporting(room, Ack(ptrs.max, 0))));
      RecordedKeeps(s, s2);
      AfterElementKeeps(s2, room, s');
    } else {
      RecordedKeeps(s, s');
    }
  }

  lemma RecordedKeeps(s: State, s': State)
    requires Inv(s) && s.rcv.reader.StatusChecked?
    requires s' == s.(rcv := s.rcv.(win := s'.rcv.win, reader := s'.rcv.reader))
    requires
      var StatusChecked(room, ptrs, remain) := s.rcv.reader;
      || (s'.rcv.win == s.rcv.win && s'.rcv.reader == Status(room))
      || (s.rcv.win == ptrs && s'.rcv.reader.Reporting?
          && s'.rcv.win.done + s'.rcv.reader.ack.read == ptrs.done + |s.rcv.elem.data|
          && (s'.rcv.win.done == 0 || remain != ptrs.max))
    ensures Inv(s')
  {
    hide RecvQueue.Inv, Total, Bytes, OnWire, ReadSum, BeforeClose;
    assert InDelivery(s'.rcv) == InDelivery(s.rcv);
  }

  /** After an element whose reads are accounted for: fetch the next one or return. */
  lemma AfterElementKeeps(s: State, room: nat, s': State)
    requires Inv(s) && s.rcv.reader.Reporting? && s.rcv.reader.ack.read == 0
    requires AfterElement(s, room) == Some(s')
    ensures Inv(s')
  {
    hide RecvQueue.Inv, Total, Bytes, OnWire, ReadSum, BeforeClose;
    if s'.rcv.reader.Popping? {
      RecvQueue.StepKeeps(s.rcv.rq, RecvQueue.Pop, s'.rcv.rq);
    }
    assert InDelivery(s'.rcv) == InDelivery(s.rcv) && InPop(s'.rcv.rq) == InPop(s.rcv.rq);
  }

  lemma ReportInStatusKeeps(s: State, s': State)
    requires Inv(s) && ReportInStatus(s) == Some(s')
    ensures Inv(s')
  {
    hide RecvQueue.Inv, Total, Bytes, OnWire, ReadSum, BeforeClose;
    var Reporting(room, ack) := s.rcv.reader;
    ReadSumPush(s.acks, ack);
    var s2 := s.(acks := s.acks + [ack], rcv := s.rcv.(reader := Reporting(room, Ack(ack.max, 0))));
    assert Inv(s2) by {
      assert InDelivery(s2.rcv) == InDelivery(s.rcv) && Unrecorded(s2.rcv) == Unrecorded(s.rcv);
      assert ToReport(s2.rcv) + ack.read == ToReport(s.rcv);
    }
    AfterElementKeeps(s2, room, s');
  }
}
