/** One direction of one multiplexed stream as a step system: the writer goroutine inside
    `sendWindow.WriteFull`, the session reader on the writer's side inside `SetSize`, the session
    reader on the reading side inside `receiveWindow.Write`, and the reader goroutine inside
    `readFromQueue`, with the frames between them in flight in order.

    A compare-and-swap loop whose new value depends on the swapped word alone is one step, since a
    failed attempt changes nothing; a loop that also reads something else is split into its load,
    its other read and its swap. Windows are records for their packed words
    (Words.WindowRoundTrip). `hist` holds histories that no step reads. */
module Stream {
  import opened Options
  import opened Segments
  import opened Words
  import RecvQueue

  datatype Frame = Data(seg: Segment) | CloseFrame

  /** A window acknowledgement: the receiver's maximum and the bytes read since the last one. */
  datatype Ack = Ack(max: u31, read: u31)

  /** Where the writer goroutine is. `Cut`: the offset has moved, the counter has not;
      `Counted`: the counter has, the frame is not yet queued. */
  datatype Writer = Idle | Top | Parked | Cut(seg: Segment) | Counted(seg: Segment)

  /** Where the writer's side is inside `SetSize`. */
  datatype Setter =
    | Ready
    | Loop(ack: Ack, newWait: bool)
    | Loaded(ack: Ack, ptrs: Window, newWait: bool)
    | Waking

  datatype Sender = Sender(
    win: Window,
    writer: Writer,
    setter: Setter,
    buf: seq<byte>,
    off: nat,
    closed: bool)

  /** Where the reading side's session reader is inside `receiveWindow.Write`. */
  datatype Deliverer =
    | Waiting
    | Sizing(seg: Segment)
    | Deciding(seg: Segment)
    | Held(seg: Segment, ptrs: Window)
    | Checked(seg: Segment, ptrs: Window, full: bool)
    | Pushing(report: Option<Ack>)
    | Acking(ack: Ack)

  /** Where the reader goroutine is; `room` is the free space left in its buffer. */
  datatype Reader =
    | Resting
    | Popping(room: nat)
    | Copying(room: nat)
    | Status(room: nat)
    | StatusLoaded(room: nat, ptrs: Window)
    | StatusChecked(room: nat, ptrs: Window, remain: u31)
    | Reporting(room: nat, ack: Ack)
    | Ended

  datatype Receiver = Receiver(
    win: Window,
    deliverer: Deliverer,
    rq: RecvQueue.State,
    reader: Reader,
    elem: Segment,
    off: nat)

  /** A finished read: stream positions of its first byte and after its last, and its buffer size. */
  datatype ReadCall = ReadCall(start: nat, size: nat, end: nat)

  datatype History = History(
    cuts: seq<Segment>,
    written: seq<byte>,
    ends: set<nat>,
    granted: nat,
    closeAt: int,
    taken: seq<Segment>,
    out: seq<byte>,
    readStart: nat,
    readSize: nat,
    calls: seq<ReadCall>)

  datatype State = State(snd: Sender, rcv: Receiver, wire: seq<Frame>, acks: seq<Ack>, hist: History)

  datatype Action =
    | BeginWrite(msg: seq<byte>)
    | WriteNext
    | CountSent
    | QueueFrame
    | Close
    | DeliverAck
    | LoadWindow
    | SwapWindow
    | WakeWriter
    | Deliver
    | Resize(to: Option<u31>)
    | LoadForWrite
    | CheckRoom
    | SwapForWrite
    | Queue(a: RecvQueue.Action)
    | EndPush
    | SendReport
    | BeginRead(size: nat)
    | Install
    | SeeEnd
    | Copy
    | LoadForStatus
    | CheckStatus
    | SwapForStatus
    | SendStatus

  const Fresh: State := State(
    Sender(Window(INITIAL_WINDOW, 0, false), Writer.Idle, Ready, [], 0, false),
    Receiver(Window(INITIAL_WINDOW, 0, false), Waiting, RecvQueue.Fresh, Reader.Resting, Segment([], false), 0),
    [], [],
    History([], [], {}, INITIAL_WINDOW, 0, [], [], 0, 0, []))

  function Remaining(max: int, used: int): (n: u31)
    requires max < TWO31 && used >= 0
    ensures n == 0 <==> max <= used
    ensures n > 0 ==> used + n == max
  {
    if max - used > 0 then max - used else 0
  }

  function Min(a: nat, b: nat): nat {
    if a < b then a else b
  }

  // ---- The writer ----

  function StartWrite(s: State, msg: seq<byte>): Option<State> {
    if s.snd.writer.Idle? && !s.snd.closed && msg != [] then
      Some(s.(snd := s.snd.(writer := Top, buf := msg, off := 0),
              hist := s.hist.(written := s.hist.written + msg, ends := s.hist.ends + {|s.hist.written| + |msg|})))
    else None
  }

  /** One round of `WriteTo` up to the counter: return when the buffer is drained, park on a full
      window, or cut the next segment. */
  function WriteTo(s: State): Option<State> {
    if !s.snd.writer.Top? then None
    else if s.snd.off >= |s.snd.buf| then Some(s.(snd := s.snd.(writer := Writer.Idle)))
    else
      var remain := Remaining(s.snd.win.max, s.snd.win.done);
      if remain == 0 then
        Some(s.(snd := s.snd.(win := s.snd.win.(wait := true), writer := Parked)))
      else
        var rest := |s.snd.buf| - s.snd.off;
        var n := Min(Min(rest, MAXIMUM_SEGMENT_SIZE), remain);
        var seg := Segment(s.snd.buf[s.snd.off..s.snd.off + n], n < rest);
        Some(s.(snd := s.snd.(off := s.snd.off + n, writer := Cut(seg)),
                hist := s.hist.(cuts := s.hist.cuts + [seg])))
  }

  /** The counter update; an update that would wrap below the counter is retried for ever. */
  function Sent(s: State): Option<State> {
    if !s.snd.writer.Cut? then None
    else
      var total := (s.snd.win.done + |s.snd.writer.seg.data|) % TWO31;
      if total < s.snd.win.done then None
      else Some(s.(snd := s.snd.(win := s.snd.win.(done := total), writer := Counted(s.snd.writer.seg))))
  }

  function SendFrame(s: State): Option<State> {
    if s.snd.writer.Counted? then
      Some(s.(wire := s.wire + [Data(s.snd.writer.seg)], snd := s.snd.(writer := Top)))
    else None
  }

  function CloseStream(s: State): Option<State> {
    if !s.snd.closed then
      Some(s.(snd := s.snd.(closed := true), wire := s.wire + [CloseFrame],
              hist := s.hist.(closeAt := |s.hist.cuts| - |InWriter(s.snd)|)))
    else None
  }

  // ---- Acknowledgements at the writer's side ----

  function TakeAck(s: State): Option<State> {
    if s.snd.setter.Ready? && !s.snd.closed && s.acks != [] then
      Some(s.(snd := s.snd.(setter := Loop(s.acks[0], false)), acks := s.acks[1..]))
    else None
  }

  function LoadInSetSize(s: State): Option<State> {
    if s.snd.setter.Loop? then
      var Loop(ack, newWait) := s.snd.setter;
      var w := s.snd.win;
      if ack.read > w.done || (ack.read == 0 && ack.max == w.max) then
        Some(s.(snd := s.snd.(setter := Ready)))
      else
        Some(s.(snd := s.snd.(setter := Loaded(ack, w, newWait))))
    else None
  }

  function SwapInSetSize(s: State): Option<State> {
    if s.snd.setter.Loaded? && s.snd.setter.ack.read <= s.snd.setter.ptrs.done then
      var Loaded(ack, ptrs, newWait) := s.snd.setter;
      var send := ptrs.done - ack.read;
      var keep := newWait || (Remaining(ack.max, send) == 0 && ptrs.wait);
      if s.snd.win == ptrs then
        Some(s.(snd := s.snd.(win := Window(ack.max, send, keep),
                              setter := if ptrs.wait && !keep then Waking else Ready),
                hist := s.hist.(granted := if ack.max > s.hist.granted then ack.max else s.hist.granted)))
      else
        Some(s.(snd := s.snd.(setter := Loop(ack, keep))))
    else None
  }

  /** The unbuffered hand-off to the parked writer, which starts its round again. */
  function Allow(s: State): Option<State> {
    if s.snd.setter.Waking? && s.snd.writer.Parked? then
      Some(s.(snd := s.snd.(setter := Ready, writer := Top)))
    else None
  }

  // ---- Delivery at the reading side ----

  function TakeFrame(s: State): Option<State> {
    if s.rcv.deliverer.Waiting? && !s.rcv.reader.Ended? && s.wire != [] then
      match s.wire[0]
      case Data(seg) => Some(s.(wire := s.wire[1..], rcv := s.rcv.(deliverer := Sizing(seg))))
      case CloseFrame =>
        match RecvQueue.StopQueue(s.rcv.rq)
        case Some(rq) => Some(s.(wire := s.wire[1..], rcv := s.rcv.(rq := rq)))
        case None => Some(s.(wire := s.wire[1..]))
    else None
  }

  /** `calcSize`: now and then the maximum is set to any measured value. */
  function ResizeWindow(s: State, to: Option<u31>): Option<State> {
    if s.rcv.deliverer.Sizing? then
      var w := s.rcv.win;
      Some(s.(rcv := s.rcv.(win := if to.Some? then w.(max := to.value) else w,
                            deliverer := Deciding(s.rcv.deliverer.seg))))
    else None
  }

  function LoadInWrite(s: State): Option<State> {
    if s.rcv.deliverer.Deciding? then
      Some(s.(rcv := s.rcv.(deliverer := Held(s.rcv.deliverer.seg, s.rcv.win))))
    else None
  }

  function CheckInWrite(s: State): Option<State> {
    if s.rcv.deliverer.Held? then
      var Held(seg, ptrs) := s.rcv.deliverer;
      Some(s.(rcv := s.rcv.(deliverer := Checked(seg, ptrs, Remaining(ptrs.max, s.rcv.rq.length + |seg.data|) == 0))))
    else None
  }

  /** Set the wait flag when the window is full, or take the read counter for a report, or leave
      a set flag alone; then push. A failed swap starts over. */
  function SwapInWrite(s: State): Option<State> {
    if s.rcv.deliverer.Checked? then
      var Checked(seg, ptrs, full) := s.rcv.deliverer;
      if !ptrs.wait && s.rcv.win != ptrs then
        Some(s.(rcv := s.rcv.(deliverer := Deciding(seg))))
      else
        match RecvQueue.BeginPush(s.rcv.rq, seg)
        case None => None
        case Some(rq) =>
          if ptrs.wait then
            Some(s.(rcv := s.rcv.(deliverer := Pushing(None), rq := rq)))
          else if full then
            Some(s.(rcv := s.rcv.(win := ptrs.(wait := true), deliverer := Pushing(None), rq := rq)))
          else
            Some(s.(rcv := s.rcv.(win := ptrs.(done := 0), rq := rq,
                                  deliverer := Pushing(Some(Ack(ptrs.max, ptrs.done))))))
    else None
  }

  function FinishPush(s: State): Option<State> {
    if s.rcv.deliverer.Pushing? && s.rcv.rq.pusher.Idle? then
      match s.rcv.deliverer.report
      case None => Some(s.(rcv := s.rcv.(deliverer := Waiting)))
      case Some(ack) => Some(s.(rcv := s.rcv.(deliverer := Acking(ack))))
    else None
  }

  function ReportInWrite(s: State): Option<State> {
    if s.rcv.deliverer.Acking? then
      Some(s.(acks := s.acks + [s.rcv.deliverer.ack], rcv := s.rcv.(deliverer := Waiting)))
    else None
  }

  /** An operation of the receive queue by the goroutine that is inside it. */
  function QueueStep(s: State, a: RecvQueue.Action): Option<State> {
    if a.Push? || a.Stop? || a.Pop? || a.Return? then None
    else
      match RecvQueue.Step(s.rcv.rq, a)
      case Some(rq) => Some(s.(rcv := s.rcv.(rq := rq)))
      case None => None
  }

  // ---- The reader ----

  function StartRead(s: State, size: nat): Option<State> {
    if s.rcv.reader.Resting? && size > 0 then
      GoOn(s.(hist := s.hist.(readStart := |s.hist.out|, readSize := size)), size)
    else None
  }

  /** The top of the copy loop: fetch an element when the current one is used up. */
  function GoOn(s: State, room: nat): Option<State> {
    if s.rcv.off == |s.rcv.elem.data| then
      match RecvQueue.BeginPop(s.rcv.rq)
      case Some(rq) => Some(s.(rcv := s.rcv.(rq := rq, reader := Popping(room))))
      case None => None
    else
      Some(s.(rcv := s.rcv.(reader := Copying(room))))
  }

  /** The end of the copy loop: go round again for the rest of a segmented message. */
  function AfterElement(s: State, room: nat): Option<State> {
    if room > 0 && s.rcv.elem.part then GoOn(s, room)
    else
      Some(s.(rcv := s.rcv.(reader := Reader.Resting),
              hist := s.hist.(calls := s.hist.calls + [ReadCall(s.hist.readStart, s.hist.readSize, |s.hist.out|)])))
  }

  function InstallElement(s: State): Option<State> {
    if s.rcv.reader.Popping? && s.rcv.rq.popper.Done? then
      var el := s.rcv.rq.popper.el;
      Some(s.(rcv := s.rcv.(rq := s.rcv.rq.(popper := RecvQueue.Popper.Resting), reader := Copying(s.rcv.reader.room),
                            elem := el, off := 0),
              hist := s.hist.(taken := s.hist.taken + [el])))
    else None
  }

  /** The queue reports its end: this read returns what it copied so far and EOF. */
  function ReturnEnd(s: State): Option<State> {
    if s.rcv.reader.Popping? && s.rcv.rq.popper.Ended? then Some(s.(rcv := s.rcv.(reader := Reader.Ended)))
    else None
  }

  function CopyOut(s: State): Option<State> {
    if s.rcv.reader.Copying? && s.rcv.off <= |s.rcv.elem.data| then
      var rest := |s.rcv.elem.data| - s.rcv.off;
      var l := Min(s.rcv.reader.room, rest);
      var room := s.rcv.reader.room - l;
      var s1 := s.(rcv := s.rcv.(off := s.rcv.off + l),
                   hist := s.hist.(out := s.hist.out + s.rcv.elem.data[s.rcv.off..s.rcv.off + l]));
      if l == rest then Some(s1.(rcv := s1.rcv.(reader := Status(room))))
      else AfterElement(s1, room)
    else None
  }

  function LoadInStatus(s: State): Option<State> {
    if s.rcv.reader.Status? then
      Some(s.(rcv := s.rcv.(reader := StatusLoaded(s.rcv.reader.room, s.rcv.win))))
    else None
  }

  function CheckInStatus(s: State): Option<State> {
    if s.rcv.reader.StatusLoaded? then
      var StatusLoaded(room, ptrs) := s.rcv.reader;
      Some(s.(rcv := s.rcv.(reader := StatusChecked(room, ptrs, Remaining(ptrs.max, s.rcv.rq.length)))))
    else None
  }

  /** `sendStatus` once it has its word and the free space: report and reset the read counter, or
      only raise it. A failed swap starts over. */
  function SwapInStatus(s: State): Option<State> {
    if s.rcv.reader.StatusChecked? && |s.rcv.elem.data| < TWO31 then
      var StatusChecked(room, ptrs, remain) := s.rcv.reader;
      var l := |s.rcv.elem.data|;
      var read := (ptrs.done + l) % TWO31;
      if s.rcv.win != ptrs then Some(s.(rcv := s.rcv.(reader := Status(room))))
      else if ptrs.done <= read then
        if (ptrs.wait && remain > 0) || read >= ptrs.max / 2 || remain == ptrs.max then
          Some(s.(rcv := s.rcv.(win := Window(ptrs.max, 0, false), reader := Reporting(room, Ack(ptrs.max, read)))))
        else
          AfterElement(s.(rcv := s.rcv.(win := ptrs.(done := read))), room)
      else
        Some(s.(rcv := s.rcv.(win := ptrs.(done := l), reader := Reporting(room, Ack(ptrs.max, ptrs.done)))))
    else None
  }

  function ReportInStatus(s: State): Option<State> {
    if s.rcv.reader.Reporting? then
      AfterElement(s.(acks := s.acks + [s.rcv.reader.ack]), s.rcv.reader.room)
    else None
  }

  function Step(s: State, a: Action): Option<State> {
    match a
    case BeginWrite(msg) => StartWrite(s, msg)
    case WriteNext => WriteTo(s)
    case CountSent => Sent(s)
    case QueueFrame => SendFrame(s)
    case Close => CloseStream(s)
    case DeliverAck => TakeAck(s)
    case LoadWindow => LoadInSetSize(s)
    case SwapWindow => SwapInSetSize(s)
    case WakeWriter => Allow(s)
    case Deliver => TakeFrame(s)
    case Resize(to) => ResizeWindow(s, to)
    case LoadForWrite => LoadInWrite(s)
    case CheckRoom => CheckInWrite(s)
    case SwapForWrite => SwapInWrite(s)
    case Queue(qa) => QueueStep(s, qa)
    case EndPush => FinishPush(s)
    case SendReport => ReportInWrite(s)
    case BeginRead(size) => StartRead(s, size)
    case Install => InstallElement(s)
    case SeeEnd => ReturnEnd(s)
    case Copy => CopyOut(s)
    case LoadForStatus => LoadInStatus(s)
    case CheckStatus => CheckInStatus(s)
    case SwapForStatus => SwapInStatus(s)
    case SendStatus => ReportInStatus(s)
  }

  function Run(run: seq<Action>): Option<State> {
    if run == [] then Some(Fresh)
    else
      var before := Run(run[..|run| - 1]);
      if before.None? then None else Step(before.value, run[|run| - 1])
  }

  // ---- Where the segments are ----

  /** The segment a writer has cut and not yet queued as a frame. */
  function InWriter(snd: Sender): seq<Segment> {
    match snd.writer
    case Cut(seg) => [seg]
    case Counted(seg) => [seg]
    case _ => []
  }

  function OnWire(wire: seq<Frame>): seq<Segment> {
    if wire == [] then []
    else OnWire(wire[..|wire| - 1]) + (if wire[|wire| - 1].Data? then [wire[|wire| - 1].seg] else [])
  }

  /** The segment that has left the wire and is not yet in the queue. */
  function InDelivery(rcv: Receiver): seq<Segment> {
    match rcv.deliverer
    case Sizing(seg) => [seg]
    case Deciding(seg) => [seg]
    case Held(seg, _) => [seg]
    case Checked(seg, _, _) => [seg]
    case _ =>
      match rcv.rq.pusher
      case Adding(seg) => [seg]
      case Counted(seg, _) => [seg]
      case _ => []
  }

  /** The segment that has left the queue and is not yet the reader's current element. */
  function InPop(rq: RecvQueue.State): seq<Segment> {
    match rq.popper
    case Took(seg) => [seg]
    case Done(seg) => [seg]
    case _ => []
  }

  /** The current element counts as unread until its status has been recorded. */
  function Unrecorded(rcv: Receiver): nat {
    if rcv.off < |rcv.elem.data| || rcv.reader.Status? || rcv.reader.StatusLoaded? || rcv.reader.StatusChecked?
    then |rcv.elem.data| else 0
  }

  /** Read amounts in acknowledgements about to be sent. */
  function ToReport(rcv: Receiver): nat {
    (match rcv.deliverer
     case Pushing(Some(ack)) => ack.read
     case Acking(ack) => ack.read
     case _ => 0)
    + (if rcv.reader.Reporting? then rcv.reader.ack.read else 0)
  }

  function ReadSum(acks: seq<Ack>): nat {
    if acks == [] then 0 else ReadSum(acks[..|acks| - 1]) + acks[|acks| - 1].read
  }

  /** The read amount of an acknowledgement that is being applied. */
  function InSetter(snd: Sender): nat {
    match snd.setter
    case Loop(ack, _) => ack.read
    case Loaded(ack, _, _) => ack.read
    case _ => 0
  }
}
