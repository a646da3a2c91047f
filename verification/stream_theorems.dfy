/** What every run of a stream guarantees, for every interleaving of its goroutines, every window
    the receiver advertises and every split into segments. */
module StreamTheorems {
  import opened Options
  import opened Segments
  import opened Sequences
  import opened Words
  import opened Stream
  import opened StreamInvariant
  import opened StreamBoundaries
  import RecvQueue

  lemma StepInv(s: State, a: Action, s': State)
    requires Inv(s) && Step(s, a) == Some(s')
    ensures Inv(s')
  {
    hide Inv;
    match a
    case BeginWrite(msg) => StartWriteKeeps(s, msg, s');
    case WriteNext => WriteToKeeps(s, s');
    case CountSent => SentKeeps(s, s');
    case QueueFrame => SendFrameKeeps(s, s');
    case Close => CloseStreamKeeps(s, s');
    case DeliverAck => TakeAckKeeps(s, s');
    case LoadWindow => LoadInSetSizeKeeps(s, s');
    case SwapWindow => SwapInSetSizeKeeps(s, s');
    case WakeWriter => AllowKeeps(s, s');
    case Deliver => TakeFrameKeeps(s, s');
    case Resize(to) => ResizeWindowKeeps(s, to, s');
    case LoadForWrite => LoadInWriteKeeps(s, s');
    case CheckRoom => CheckInWriteKeeps(s, s');
    case SwapForWrite => SwapInWriteKeeps(s, s');
    case Queue(qa) => QueueStepKeeps(s, qa, s');
    case EndPush => FinishPushKeeps(s, s');
    case SendReport => ReportInWriteKeeps(s, s');
    case BeginRead(size) => StartReadKeeps(s, size, s');
    case Install => InstallKeeps(s, s');
    case SeeEnd => ReturnEndKeeps(s, s');
    case Copy => CopyOutKeeps(s, s');
    case LoadForStatus => LoadInStatusKeeps(s, s');
    case CheckStatus => CheckInStatusKeeps(s, s');
    case SwapForStatus => SwapInStatusKeeps(s, s');
    case SendStatus => ReportInStatusKeeps(s, s');
  }

  /** A run of at least one operation is a shorter run and one step. */
  lemma LastStep(run: seq<Action>)
    requires run != [] && Run(run).Some?
    ensures Run(run[..|run| - 1]).Some? && Step(Run(run[..|run| - 1]).value, run[|run| - 1]) == Run(run)
  {
    hide Step;
  }

  lemma {:induction false} RunInv(run: seq<Action>)
    requires Run(run).Some?
    ensures Inv(Run(run).value) && Bounded(Run(run).value)
  {
    hide Inv, Bounded, Step;
    if run == [] {
      FreshInv();
    } else {
      hide Run;
      LastStep(run);
      var s := Run(run[..|run| - 1]).value;
      RunInv(run[..|run| - 1]);
      StepInv(s, run[|run| - 1], Run(run).value);
      StepBounded(s, run[|run| - 1], Run(run).value);
    }
  }

  lemma FreshInv()
    ensures Inv(Fresh) && Bounded(Fresh)
  {
  }

  // ---- Credit ----

  /** Conservation: the writer's counter equals the bytes in the frame being queued, on the wire,
      in delivery, in the queue, being popped and in the unfinished element, plus the read count
      not yet reported, the counts being reported, those in acknowledgements in flight and the
      one being applied. */
  lemma CreditConserved(run: seq<Action>)
    requires Run(run).Some?
    ensures
      var s := Run(run).value;
      s.snd.win.done + CutSize(s.snd)
      == Total(InWriter(s.snd)) + Total(OnWire(s.wire)) + Total(InDelivery(s.rcv)) + Total(s.rcv.rq.q)
         + Total(InPop(s.rcv.rq)) + Unrecorded(s.rcv)
         + s.rcv.win.done + ToReport(s.rcv) + ReadSum(s.acks) + InSetter(s.snd)
  {
    hide RecvQueue.Inv;
    RunInv(run);
    Accounts(Run(run).value);
  }

  /** Neither the "read > send" branch of `SetSize` nor any of the 31-bit overflow branches can be
      taken. */
  lemma BadBranchesUnreachable(run: seq<Action>)
    requires Run(run).Some?
    ensures
      var s := Run(run).value;
      && (s.snd.setter.Loop? ==> s.snd.setter.ack.read <= s.snd.win.done)
      && (s.snd.writer.Cut? ==> s.snd.win.done + |s.snd.writer.seg.data| < TWO31)
      && (s.rcv.reader.StatusChecked? && s.rcv.win == s.rcv.reader.ptrs ==>
            s.rcv.win.done + |s.rcv.elem.data| < TWO31)
      && s.rcv.rq.length == RecvQueue.Load(s.rcv.rq)
  {
    hide RecvQueue.Inv;
    RunInv(run);
    Bounds(Run(run).value);
  }

  /** Window sizes that the receiver has ever set: the initial one and those of its resizes. */
  ghost predicate EverSized(run: seq<Action>, max: nat) {
    max == INITIAL_WINDOW || (max < TWO31 && Resize(Some(max)) in run)
  }

  /** Every window in the system is one the receiver has set. */
  ghost predicate SenderSized(snd: Sender, run: seq<Action>) {
    && EverSized(run, snd.win.max)
    && match snd.setter {
       case Loop(ack, _) => EverSized(run, ack.max)
       case Loaded(ack, _, _) => EverSized(run, ack.max)
       case _ => true
       }
  }

  ghost predicate DelivererSized(deliverer: Deliverer, run: seq<Action>) {
    match deliverer
    case Held(_, ptrs) => EverSized(run, ptrs.max)
    case Checked(_, ptrs, _) => EverSized(run, ptrs.max)
    case Pushing(Some(ack)) => EverSized(run, ack.max)
    case Acking(ack) => EverSized(run, ack.max)
    case _ => true
  }

  ghost predicate ReaderSized(reader: Reader, run: seq<Action>) {
    match reader
    case StatusLoaded(_, ptrs) => EverSized(run, ptrs.max)
    case StatusChecked(_, ptrs, _) => EverSized(run, ptrs.max)
    case Reporting(_, ack) => EverSized(run, ack.max)
    case _ => true
  }

  ghost predicate AllSized(s: State, run: seq<Action>) {
    && SenderSized(s.snd, run)
    && EverSized(run, s.rcv.win.max)
    && DelivererSized(s.rcv.deliverer, run)
    && ReaderSized(s.rcv.reader, run)
    && (forall i :: 0 <= i < |s.acks| ==> EverSized(run, s.acks[i].max))
    && EverSized(run, s.hist.granted)
  }

  /** The operations of the writer, the close and the acknowledgement side. */
  predicate AtSender(a: Action) {
    || a.BeginWrite? || a.WriteNext? || a.CountSent? || a.QueueFrame? || a.Close?
    || a.DeliverAck? || a.LoadWindow? || a.SwapWindow? || a.WakeWriter?
  }

  lemma SenderStepSized(s: State, a: Action, s': State, run: seq<Action>)
    requires AllSized(s, run) && AtSender(a) && Step(s, a) == Some(s')
    ensures AllSized(s', run)
  {
    hide EverSized, RecvQueue.Step, ReaderSized, DelivererSized, Remaining;
  }

  lemma DelivererStepSized(s: State, a: Action, s': State, run: seq<Action>)
    requires AllSized(s, run) && Step(s, a) == Some(s')
    requires a.Deliver? || a.Resize? || a.LoadForWrite? || a.CheckRoom? || a.SwapForWrite? || a.EndPush?
             || a.SendReport?
    requires a.Resize? && a.to.Some? ==> EverSized(run, a.to.value)
    ensures AllSized(s', run)
  {
    hide EverSized, RecvQueue.Step, ReaderSized, SenderSized, Remaining;
  }

  lemma ReaderStepSized(s: State, a: Action, s': State, run: seq<Action>)
    requires AllSized(s, run) && Step(s, a) == Some(s')
    requires a.Queue? || a.BeginRead? || a.Install? || a.SeeEnd? || a.Copy?
             || a.LoadForStatus? || a.CheckStatus? || a.SwapForStatus? || a.SendStatus?
    ensures AllSized(s', run)
  {
    hide EverSized, RecvQueue.Step, DelivererSized, SenderSized, Remaining;
  }

  lemma StepSized(s: State, a: Action, s': State, run: seq<Action>)
    requires AllSized(s, run) && Step(s, a) == Some(s')
    requires a.Resize? && a.to.Some? ==> EverSized(run, a.to.value)
    ensures AllSized(s', run)
  {
    hide AllSized, EverSized, Step;
    match a
    case Deliver => DelivererStepSized(s, a, s', run);
    case Resize(_) => DelivererStepSized(s, a, s', run);
    case LoadForWrite => DelivererStepSized(s, a, s', run);
    case CheckRoom => DelivererStepSized(s, a, s', run);
    case SwapForWrite => DelivererStepSized(s, a, s', run);
    case EndPush => DelivererStepSized(s, a, s', run);
    case SendReport => DelivererStepSized(s, a, s', run);
    case _ =>
      if AtSender(a) {
        SenderStepSized(s, a, s', run);
      } else {
        ReaderStepSized(s, a, s', run);
      }
  }

  lemma EverSizedLonger(run: seq<Action>, a: Action, max: nat)
    requires EverSized(run, max)
    ensures EverSized(run + [a], max)
  {
  }

  lemma SizedMonotone(s: State, run: seq<Action>, a: Action)
    requires AllSized(s, run)
    ensures AllSized(s, run + [a])
  {
    forall max: nat | EverSized(run, max) ensures EverSized(run + [a], max) {
      EverSizedLonger(run, a, max);
    }
    hide EverSized;
  }

  lemma SizedAfter(s: State, a: Action, s': State, before: seq<Action>)
    requires AllSized(s, before) && Step(s, a) == Some(s')
    ensures AllSized(s', before + [a])
  {
    assert a in before + [a];
    assert a.Resize? && a.to.Some? ==> EverSized(before + [a], a.to.value);
    hide AllSized, EverSized, Step;
    SizedMonotone(s, before, a);
    StepSized(s, a, s', before + [a]);
  }

  lemma {:induction false} RunSized(run: seq<Action>)
    requires Run(run).Some?
    ensures AllSized(Run(run).value, run)
  {
    hide AllSized, EverSized, Step;
    if run == [] {
      FreshSized();
    } else {
      hide Run;
      var before, a := run[..|run| - 1], run[|run| - 1];
      LastStep(run);
      RunSized(before);
      FrontAndLast(run);
      SizedAfter(Run(before).value, a, Run(run).value, before);
    }
  }

  lemma FreshSized()
    ensures AllSized(Fresh, [])
  {
  }

  /** Unacknowledged bytes, the segment being sent included, never exceed the largest window that
      has taken effect at the writer, a size the receiver has set, even when the window shrinks
      between the check and the counter update. */
  lemma OutstandingBounded(run: seq<Action>)
    requires Run(run).Some?
    ensures
      var s := Run(run).value;
      && EverSized(run, s.hist.granted)
      && s.snd.win.max <= s.hist.granted
      && s.snd.win.done + CutSize(s.snd) <= s.hist.granted
      && Total(s.hist.cuts) - Total(s.hist.taken) <= s.hist.granted
  {
    hide RecvQueue.Inv;
    RunInv(run);
    RunSized(run);
  }

  // ---- No stranded writer ----

  /** Nothing is on its way: no frame, no acknowledgement, nothing received and unread. */
  predicate Quiet(s: State) {
    && InWriter(s.snd) == [] && OnWire(s.wire) == [] && s.acks == []
    && s.snd.setter.Ready?
    && !s.rcv.deliverer.Acking? && InDelivery(s.rcv) == []
    && !(s.rcv.deliverer.Pushing? && s.rcv.deliverer.report.Some?)
    && !s.rcv.reader.Reporting? && s.rcv.rq.q == [] && InPop(s.rcv.rq) == [] && Unrecorded(s.rcv) == 0
  }

  /** In a quiet state every counter is back to zero, and the writer is parked only over a window
      of size zero. */
  lemma QuietMeansSettled(run: seq<Action>)
    requires Run(run).Some? && Quiet(Run(run).value)
    ensures
      var s := Run(run).value;
      && s.snd.win.done == 0 && s.rcv.win.done == 0 && s.rcv.rq.length == 0
      && (s.snd.writer.Parked? ==> s.snd.win.wait)
      && (s.snd.win.wait ==> s.snd.win.max == 0)
  {
    var s := Run(run).value;
    RunInv(run);
    CreditConserved(run);
    Bounds(s);
    TotalNone();
    assert ReadSum(s.acks) == 0;
    assert !Undrained(s.rcv, |s.hist.taken|) by {
      hide Total;
      assert s.rcv.rq.pushed == s.rcv.rq.popped + [] == s.hist.taken + [] + [];
    }
    hide RecvQueue.Inv, Total, ReadSum;
  }

  lemma TotalNone()
    ensures Total([]) == 0
  {
  }

  /** In a quiet state a write that has bytes left parks if and only if the writer's window is
      zero, and then the state is quiet again: a zero window is exactly what strands a writer. */
  lemma ParksIffWindowZero(run: seq<Action>)
    requires Run(run).Some? && Quiet(Run(run).value)
    requires var w := Run(run).value.snd; w.writer.Top? && w.off < |w.buf|
    ensures
      var s := Run(run).value;
      var s' := WriteTo(s).value;
      && WriteTo(s).Some?
      && (s'.snd.writer.Parked? <==> s.snd.win.max == 0)
      && (s.snd.win.max == 0 ==> Quiet(s'))
  {
    QuietMeansSettled(run);
  }

  /** No stranded writer: unless the receiver once sized its window to zero, a parked writer always
      has something on its way, so its wait never outlasts the stream's activity. */
  lemma NoStrandedWriter(run: seq<Action>)
    requires Run(run).Some? && Resize(Some(0)) !in run
    requires Run(run).value.snd.writer.Parked?
    ensures !Quiet(Run(run).value)
  {
    RunSized(run);
    if Quiet(Run(run).value) {
      QuietMeansSettled(run);
    }
  }

  // ---- Exactness ----

  /** The bytes returned so far are a prefix of the bytes written, in order. */
  lemma ReadsArePrefix(run: seq<Action>)
    requires Run(run).Some?
    ensures Run(run).value.hist.out <= Run(run).value.hist.written
  {
    var s := Run(run).value;
    RunInv(run);
    Positions(s);
    BytesPrefix(s.hist.cuts, |s.hist.taken|);
    assert s.hist.cuts[..|s.hist.taken|] == s.hist.taken;
    hide RecvQueue.Inv, Bytes, Total, OnWire;
  }

  /** In terms of segments: end of file comes only after a close, and only when every byte of every
      segment queued before that close has been returned. */
  lemma EndOnlyAfterAll(run: seq<Action>)
    requires Run(run).Some? && Run(run).value.rcv.reader.Ended?
    ensures
      var s := Run(run).value;
      && s.snd.closed
      && 0 <= s.hist.closeAt <= |s.hist.cuts|
      && Bytes(s.hist.cuts[..s.hist.closeAt]) <= s.hist.out <= s.hist.written
  {
    var s := Run(run).value;
    RunInv(run);
    Positions(s);
    ReadsArePrefix(run);
    assert s.rcv.rq.popped == s.hist.taken && s.hist.closeAt <= |s.hist.taken| by {
      NilRight(s.hist.taken);
      hide RecvQueue.ContentOk;
    }
    assert s.hist.closeAt >= 0;
    BytesPrefix(s.hist.taken, s.hist.closeAt);
    assert s.hist.cuts[..s.hist.closeAt] == s.hist.taken[..s.hist.closeAt];
    NilRight(s.hist.out);
    hide RecvQueue.Inv, Bytes, Total, OnWire;
  }

  /** The bytes of the writes that have returned. */
  function FinishedWrites(s: State): nat {
    if s.snd.writer.Idle? then |s.hist.written|
    else if |s.snd.buf| <= |s.hist.written| then |s.hist.written| - |s.snd.buf|
    else 0
  }

  /** The stream is closed, nothing was written since, and the segments queued before the close hold
      at least `floor` bytes. */
  ghost predicate ClosedWith(s: State, written: seq<byte>, floor: nat) {
    && s.snd.closed && s.hist.written == written
    && 0 <= s.hist.closeAt <= |s.hist.cuts| && Total(s.hist.cuts[..s.hist.closeAt]) >= floor
  }

  lemma CloseCoversFinished(s: State, s': State)
    requires Inv(s) && CloseStream(s) == Some(s')
    ensures ClosedWith(s', s.hist.written, FinishedWrites(s))
  {
    hide RecvQueue.Inv, DrainOk, CloseOk, CreditOk;
    var n := |s.hist.cuts| - |InWriter(s.snd)|;
    assert s.hist.cuts[..n] + InWriter(s.snd) == s.hist.cuts;
    TotalAppend(s.hist.cuts[..n], InWriter(s.snd));
    TotalIsLength(s.hist.cuts);
    assert Total(s.hist.cuts) + |RestOfWrite(s.snd)| == |s.hist.written|;
    TotalNone();
    if InWriter(s.snd) != [] {
      TotalOne(InWriter(s.snd)[0]);
    }
    hide Total, Bytes, OnWire;
  }

  lemma StepStaysClosed(s: State, a: Action, s': State, written: seq<byte>, floor: nat)
    requires ClosedWith(s, written, floor) && Step(s, a) == Some(s')
    ensures ClosedWith(s', written, floor)
  {
    hide Total, RecvQueue.Step, Remaining;
    if a.WriteNext? {
      assert s'.hist.cuts[..s.hist.closeAt] == s.hist.cuts[..s.hist.closeAt];
    } else {
      assert s'.hist.cuts == s.hist.cuts && s'.hist.closeAt == s.hist.closeAt;
    }
  }

  lemma {:induction false} ClosedAfter(run: seq<Action>, k: nat)
    requires Run(run).Some? && k < |run| && run[k] == Close
    ensures Run(run[..k]).Some?
    ensures
      var c := Run(run[..k]).value;
      ClosedWith(Run(run).value, c.hist.written, FinishedWrites(c))
    decreases |run|
  {
    var before := run[..|run| - 1];
    LastStep(run);
    hide Run, Step, ClosedWith, FinishedWrites;
    var s, s' := Run(before).value, Run(run).value;
    if k == |run| - 1 {
      RunInv(before);
      CloseIsStep(s, s');
      CloseCoversFinished(s, s');
    } else {
      ClosedAfter(before, k);
      assert before[..k] == run[..k];
      var c := Run(run[..k]).value;
      StepStaysClosed(s, run[|run| - 1], s', c.hist.written, FinishedWrites(c));
    }
  }

  lemma CloseIsStep(s: State, s': State)
    requires Step(s, Close) == Some(s')
    ensures CloseStream(s) == Some(s')
  {
  }

  /** In the caller's terms: when the reader sees end of file, every byte of every write that had
      returned when the writer closed has been read; if no write was under way then, what was read
      is exactly what was written. */
  lemma EndReturnsFinishedWrites(run: seq<Action>, k: nat)
    requires Run(run).Some? && Run(run).value.rcv.reader.Ended? && k < |run| && run[k] == Close
    ensures Run(run[..k]).Some?
    ensures
      var c, s := Run(run[..k]).value, Run(run).value;
      && FinishedWrites(c) <= |c.hist.written| && c.hist.written[..FinishedWrites(c)] <= s.hist.out
      && s.hist.written == c.hist.written
      && (c.snd.writer.Idle? ==> s.hist.out == c.hist.written)
  {
    ClosedAfter(run, k);
    EndOnlyAfterAll(run);
    var s := Run(run).value;
    hide Run, Total;
    TotalIsLength(s.hist.cuts[..s.hist.closeAt]);
    hide Bytes;
  }

  // ---- Message boundaries ----

  /** The end of the write that contains the byte after position `p`. */
  predicate NextEnd(ends: set<nat>, p: nat, e: nat) {
    e in ends && p < e && forall x :: x in ends && p < x ==> e <= x
  }

  /** A read never returns bytes of two writes, and one that starts at the end of a write (or at
      the start of the stream) with room for the next write returns exactly that write. */
  lemma ReadsKeepMessages(run: seq<Action>, i: nat, e: nat)
    requires Run(run).Some? && i < |Run(run).value.hist.calls|
    requires NextEnd(Run(run).value.hist.ends, Run(run).value.hist.calls[i].start, e)
    ensures
      var s := Run(run).value;
      var c := s.hist.calls[i];
      && c.start < c.end <= e
      && (c.end == c.start + c.size || c.end == e)
      && (e - c.start <= c.size ==> c.end == e)
  {
    RunInv(run);
    var s := Run(run).value;
    assert CallOk(s.hist.calls[i], s.hist.ends);
  }

  /** Reads follow on from each other: together they are the bytes returned, without gap. */
  ghost predicate CallsChain(s: State) {
    var calls := s.hist.calls;
    && (forall i :: 0 < i < |calls| ==> calls[i].start == calls[i - 1].end)
    && (calls != [] ==> calls[0].start == 0)
    && (if s.rcv.reader.Resting?
        then |s.hist.out| == if calls == [] then 0 else calls[|calls| - 1].end
        else s.hist.readStart == if calls == [] then 0 else calls[|calls| - 1].end)
  }

  lemma {:induction false} RunChain(run: seq<Action>)
    requires Run(run).Some?
    ensures CallsChain(Run(run).value)
  {
    if run != [] {
      hide CallsChain, Step, Run;
      LastStep(run);
      RunChain(run[..|run| - 1]);
      StepChain(Run(run[..|run| - 1]).value, run[|run| - 1], Run(run).value);
    }
  }

  lemma StepChain(s: State, a: Action, s': State)
    requires CallsChain(s) && Step(s, a) == Some(s')
    ensures CallsChain(s')
  {
    hide RecvQueue.Step, Remaining;
    match a
    case Copy => CopyChain(s, s');
    case SwapForStatus =>
    case SendStatus =>
    case BeginRead(_) =>
    case _ => assert s'.hist.calls == s.hist.calls && s'.hist.out == s.hist.out;
  }

  lemma CopyChain(s: State, s': State)
    requires CallsChain(s) && CopyOut(s) == Some(s')
    ensures CallsChain(s')
  {
  }
}
