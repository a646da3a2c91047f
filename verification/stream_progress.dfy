/** A parked writer is woken: while it waits and the stream is open, every internal step of the
    stream makes a measure smaller, and one is enabled until the writer wakes or the reader rests
    with bytes it has not read. */
module StreamProgress {
  import opened Options
  import opened Segments
  import opened Sequences
  import opened Words
  import opened Stream
  import opened StreamInvariant
  import opened StreamTheorems
  import RecvQueue

  // ---- The work left ----

  /** A goroutine that holds a loaded word has one try less ahead of it when the word has not
      changed since; `stale` is what a swap that must fail and be tried again costs. */
  function SetterWork(setter: Setter, win: Window): nat {
    match setter
    case Ready => 0
    case Waking => 1
    case Loaded(_, ptrs, _) => if ptrs == win then 2 else 4
    case Loop(_, _) => 3
  }

  function PopperWork(popper: RecvQueue.Popper): nat {
    match popper
    case Resting => 0
    case Parked => 0
    case Ended => 1
    case Spinning => 1
    case Checking => 2
    case Took(_) => 22
    case Done(_) => 21
  }

  function ReaderWork(reader: Reader, popper: RecvQueue.Popper, win: Window): nat {
    match reader
    case Resting => 0
    case Ended => 0
    case Popping(_) => PopperWork(popper)
    case Copying(_) => 20
    case Status(_) => 17
    case StatusLoaded(_, ptrs) => if ptrs == win then 16 else 19
    case StatusChecked(_, ptrs, _) => if ptrs == win then 15 else 18
    case Reporting(_, _) => 7
  }

  function PusherWork(pusher: RecvQueue.Pusher): nat {
    match pusher
    case Idle => 0
    case Waking => 3
    case Counted(_, _) => 26
    case Adding(_) => 27
  }

  function DelivererWork(deliverer: Deliverer, win: Window): nat {
    match deliverer
    case Waiting => 0
    case Acking(_) => 5
    case Pushing(report) => if report.Some? then 6 else 1
    case Checked(_, ptrs, _) => if ptrs == win then 41 else 44
    case Held(_, ptrs) => if ptrs == win then 42 else 45
    case Deciding(_) => 43
    case Sizing(_) => 51
  }

  function Work(s: State): nat {
    SetterWork(s.snd.setter, s.snd.win) + 4 * |s.acks|
    + ReaderWork(s.rcv.reader, s.rcv.rq.popper, s.rcv.win)
    + DelivererWork(s.rcv.deliverer, s.rcv.win) + PusherWork(s.rcv.rq.pusher)
    + 22 * |s.rcv.rq.q| + 52 * |s.wire|
  }

  /** What the stream does by itself: everything but the calls of its users. */
  predicate Internal(a: Action) {
    !a.BeginWrite? && !a.Close? && !a.BeginRead?
  }

  // ---- Every internal step is progress ----

  lemma SetterStepWorks(s: State, a: Action, s': State)
    requires s.snd.writer.Parked? && Step(s, a) == Some(s')
    requires a.WriteNext? || a.CountSent? || a.QueueFrame? || a.DeliverAck? || a.LoadWindow? || a.SwapWindow?
             || a.WakeWriter?
    ensures Work(s') < Work(s)
  {
    hide RecvQueue.Step, ReaderWork, DelivererWork, PusherWork, Remaining;
  }

  lemma DelivererStepWorks(s: State, a: Action, s': State)
    requires DelivererOk(s.rcv.deliverer, s.rcv.rq.pusher) && CloseFrame !in s.wire && Step(s, a) == Some(s')
    requires a.Deliver? || a.LoadForWrite? || a.CheckRoom? || a.EndPush? || a.SendReport?
    ensures Work(s') < Work(s)
  {
    hide RecvQueue.Step, ReaderWork, SetterWork, PusherWork, Remaining;
  }

  /** Changing the receiver's window costs its reader at most one more try. */
  lemma ReaderTriesAgain(reader: Reader, popper: RecvQueue.Popper, win: Window, win': Window)
    ensures ReaderWork(reader, popper, win') <= ReaderWork(reader, popper, win) + 3
  {
  }

  lemma DelivererTriesAgain(deliverer: Deliverer, win: Window, win': Window)
    ensures DelivererWork(deliverer, win') <= DelivererWork(deliverer, win) + 3
  {
  }

  lemma ResizeWorks(s: State, a: Action, s': State)
    requires a.Resize? && Step(s, a) == Some(s')
    ensures Work(s') < Work(s)
  {
    ReaderTriesAgain(s.rcv.reader, s.rcv.rq.popper, s.rcv.win, s'.rcv.win);
    hide RecvQueue.Step, ReaderWork, SetterWork, PusherWork;
  }

  lemma SwapForWriteWorks(s: State, s': State)
    requires SwapInWrite(s) == Some(s')
    ensures Work(s') < Work(s)
  {
    ReaderTriesAgain(s.rcv.reader, s.rcv.rq.popper, s.rcv.win, s'.rcv.win);
    hide ReaderWork, SetterWork;
  }

  lemma QueueWorks(s: State, a: RecvQueue.Action, s': State)
    requires ReaderOk(s.rcv.reader, s.rcv.rq.popper, s.rcv.off, |s.rcv.elem.data|)
    requires RecvQueue.WakeOk(s.rcv.rq) && !s.rcv.rq.stopped && QueueStep(s, a) == Some(s')
    ensures Work(s') < Work(s)
  {
    hide SetterWork, DelivererWork;
  }

  lemma ReaderStepWorks(s: State, a: Action, s': State)
    requires ReaderOk(s.rcv.reader, s.rcv.rq.popper, s.rcv.off, |s.rcv.elem.data|) && Step(s, a) == Some(s')
    requires a.Install? || a.SeeEnd? || a.Copy? || a.LoadForStatus? || a.CheckStatus? || a.SendStatus?
    ensures Work(s') < Work(s)
  {
    hide RecvQueue.Step, DelivererWork, SetterWork, PusherWork, Remaining;
  }

  lemma SwapForStatusWorks(s: State, s': State)
    requires ReaderOk(s.rcv.reader, s.rcv.rq.popper, s.rcv.off, |s.rcv.elem.data|) && SwapInStatus(s) == Some(s')
    ensures Work(s') < Work(s)
  {
    DelivererTriesAgain(s.rcv.deliverer, s.rcv.win, s'.rcv.win);
    hide DelivererWork, SetterWork, PusherWork;
  }

  /** In every run: while the writer is parked on an open stream, whatever the stream does next by
      itself, in any interleaving and with any new window, leaves less work. */
  lemma InternalStepWorks(run: seq<Action>, a: Action)
    requires Run(run).Some? && Run(run).value.snd.writer.Parked? && !Run(run).value.snd.closed
    requires Internal(a) && Step(Run(run).value, a).Some?
    ensures Work(Step(Run(run).value, a).value) < Work(Run(run).value)
  {
    RunInv(run);
    var s := Run(run).value;
    var s' := Step(s, a).value;
    OpenFacts(s);
    hide Run, Inv, Work, DelivererOk, ReaderOk, RecvQueue.WakeOk;
    match a
    case Deliver => DelivererStepWorks(s, a, s');
    case Resize(_) => ResizeWorks(s, a, s');
    case LoadForWrite => DelivererStepWorks(s, a, s');
    case CheckRoom => DelivererStepWorks(s, a, s');
    case SwapForWrite => SwapForWriteWorks(s, s');
    case EndPush => DelivererStepWorks(s, a, s');
    case SendReport => DelivererStepWorks(s, a, s');
    case Queue(qa) => QueueWorks(s, qa, s');
    case Install => ReaderStepWorks(s, a, s');
    case SeeEnd => ReaderStepWorks(s, a, s');
    case Copy => ReaderStepWorks(s, a, s');
    case LoadForStatus => ReaderStepWorks(s, a, s');
    case CheckStatus => ReaderStepWorks(s, a, s');
    case SwapForStatus => SwapForStatusWorks(s, s');
    case SendStatus => ReaderStepWorks(s, a, s');
    case _ => SetterStepWorks(s, a, s');
  }

  /** On an open stream no stop has been seen. */
  lemma OpenFacts(s: State)
    requires Inv(s) && !s.snd.closed
    ensures CloseFrame !in s.wire && !s.rcv.rq.stopped
    ensures DelivererOk(s.rcv.deliverer, s.rcv.rq.pusher) && RecvQueue.WakeOk(s.rcv.rq)
    ensures ReaderOk(s.rcv.reader, s.rcv.rq.popper, s.rcv.off, |s.rcv.elem.data|)
    ensures !s.rcv.reader.Ended?
  {
    hide Pipe, BytesOk, Flow, RecvQueue.ContentOk, RecvQueue.LengthOk;
  }

  // ---- Some internal step is enabled ----

  /** An internal operation of a goroutine that is not waiting for another. */
  function Next(s: State): Option<Action> {
    match s.snd.setter
    case Waking => Some(WakeWriter)
    case Loop(_, _) => Some(LoadWindow)
    case Loaded(_, _, _) => Some(SwapWindow)
    case Ready => if s.acks != [] then Some(DeliverAck) else NextAtReceiver(s)
  }

  function NextAtReceiver(s: State): Option<Action> {
    match s.rcv.deliverer
    case Sizing(_) => Some(Resize(None))
    case Deciding(_) => Some(LoadForWrite)
    case Held(_, _) => Some(CheckRoom)
    case Checked(_, _, _) => Some(SwapForWrite)
    case Pushing(_) =>
      (match s.rcv.rq.pusher
       case Adding(_) => Some(Queue(RecvQueue.Count))
       case Counted(_, _) => Some(Queue(RecvQueue.Append))
       case Waking => Some(Queue(RecvQueue.HandOver))
       case Idle => Some(EndPush))
    case Acking(_) => Some(SendReport)
    case Waiting => if s.wire != [] then Some(Deliver) else NextAtReader(s)
  }

  function NextAtReader(s: State): Option<Action> {
    match s.rcv.reader
    case Resting => None
    case Ended => None
    case Popping(_) =>
      (match s.rcv.rq.popper
       case Checking => Some(Queue(RecvQueue.Check))
       case Spinning => Some(Queue(RecvQueue.Grab))
       case Took(_) => Some(Queue(RecvQueue.Subtract))
       case Done(_) => Some(Install)
       case _ => None)
    case Copying(_) => Some(Copy)
    case Status(_) => Some(LoadForStatus)
    case StatusLoaded(_, _) => Some(CheckStatus)
    case StatusChecked(_, _, _) => Some(SwapForStatus)
    case Reporting(_, _) => Some(SendStatus)
  }

  /** The reader is between calls, and there are bytes for it. */
  predicate ReaderOwes(s: State) {
    s.rcv.reader.Resting? && (s.rcv.rq.q != [] || s.rcv.off < |s.rcv.elem.data|)
  }

  lemma SetterEnabled(s: State)
    requires Inv(s) && s.snd.writer.Parked? && !s.snd.closed && !(s.snd.setter.Ready? && s.acks == [])
    ensures Next(s).Some? && Internal(Next(s).value) && Step(s, Next(s).value).Some?
  {
    hide Content, Control, CreditOk, DrainOk, Remaining;
  }

  lemma DelivererEnabled(s: State)
    requires Inv(s) && !s.snd.closed && !(s.rcv.deliverer.Waiting? && s.wire == [])
    ensures NextAtReceiver(s).Some? && Internal(NextAtReceiver(s).value) && Step(s, NextAtReceiver(s).value).Some?
  {
    OpenFacts(s);
    hide Content, Flow, Control, Inv, Remaining, ReaderOk;
  }

  lemma PopperEnabled(s: State)
    requires Inv(s) && !s.snd.closed && s.rcv.deliverer.Waiting? && s.rcv.reader.Popping? && !s.rcv.rq.popper.Parked?
    ensures NextAtReader(s).Some? && Internal(NextAtReader(s).value) && Step(s, NextAtReader(s).value).Some?
  {
    hide Remaining, AfterElement;
    OpenFacts(s);
    SpinningHasElement(s);
    hide Inv;
  }

  /** A reader at work goes on, unless it is parked on the queue. */
  lemma ReaderEnabled(s: State)
    requires Inv(s) && !s.snd.closed && !s.rcv.reader.Resting? && !s.rcv.reader.Popping?
    ensures NextAtReader(s).Some? && Internal(NextAtReader(s).value) && Step(s, NextAtReader(s).value).Some?
  {
    hide Remaining, RecvQueue.Step;
    OpenFacts(s);
    ElementFits(s);
    hide Inv;
  }

  lemma ElementFits(s: State)
    requires Inv(s)
    ensures |s.rcv.elem.data| < TWO31
  {
    hide RecvQueue.LengthOk, RecvQueue.WakeOk, Flow, BytesOk, CloseOk, Total, Bytes, OnWire;
    if s.hist.taken != [] {
      var k := |s.hist.taken| - 1;
      assert s.rcv.rq.popped <= s.rcv.rq.pushed by {
        assert s.rcv.rq.pushed == s.rcv.rq.popped + s.rcv.rq.q;
      }
      assert s.hist.cuts[k] == s.hist.taken[k];
    }
  }

  lemma SpinningHasElement(s: State)
    requires Inv(s) && s.rcv.deliverer.Waiting?
    ensures s.rcv.rq.popper.Spinning? ==> s.rcv.rq.q != []
  {
    hide Content, Flow, RecvQueue.LengthOk, RecvQueue.WakeOk;
    TotalNone();
    hide Total;
  }

  /** With nothing enabled and nothing to read the stream is quiet. */
  lemma NothingNextIsQuiet(s: State)
    requires Inv(s) && s.snd.writer.Parked? && !s.snd.closed && Next(s).None? && !ReaderOwes(s)
    ensures Quiet(s)
  {
    hide Step;
    if !(s.snd.setter.Ready? && s.acks == []) {
      SetterEnabled(s);
    } else if !(s.rcv.deliverer.Waiting? && s.wire == []) {
      DelivererEnabled(s);
    } else if !s.rcv.reader.Resting? && !s.rcv.reader.Popping? {
      ReaderEnabled(s);
    } else if s.rcv.reader.Popping? && !s.rcv.rq.popper.Parked? {
      PopperEnabled(s);
    } else {
      OpenFacts(s);
      ReaderAtEndOfElement(s);
      if s.rcv.rq.popper.Parked? {
        ParkedReaderDrained(s);
      }
      hide Inv;
    }
  }

  lemma ReaderAtEndOfElement(s: State)
    requires Inv(s) && (s.rcv.reader.Resting? || s.rcv.reader.Popping?)
    ensures s.rcv.off <= |s.rcv.elem.data| && (s.rcv.reader.Popping? ==> s.rcv.off == |s.rcv.elem.data|)
    ensures s.rcv.reader.Resting? ==> s.rcv.rq.popper.Resting?
  {
    hide Content, Flow, RecvQueue.Inv;
  }

  lemma ParkedReaderDrained(s: State)
    requires Inv(s) && !s.snd.closed && s.rcv.deliverer.Waiting? && s.rcv.rq.popper.Parked?
    ensures s.rcv.rq.q == []
  {
    SmallQueue(s);
    OpenFacts(s);
    PusherIdle(s);
    hide Pipe, BytesOk, Flow, RecvQueue.LengthOk, RecvQueue.ContentOk, RecvQueue.Small;
    RecvQueue.ParkedMeansDrained(s.rcv.rq);
  }

  lemma PusherIdle(s: State)
    requires Inv(s) && s.rcv.deliverer.Waiting?
    ensures s.rcv.rq.pusher.Idle?
  {
    hide Content, Flow, RecvQueue.Inv;
  }

  /** In every run without a close and without a window of size zero: while the writer is parked,
      some internal step is enabled, or the reader rests and has bytes to read. */
  lemma ParkedHasNext(run: seq<Action>)
    requires Run(run).Some? && Resize(Some(0)) !in run
    requires Run(run).value.snd.writer.Parked? && !Run(run).value.snd.closed
    ensures
      var s := Run(run).value;
      && (Next(s).Some? ==> Internal(Next(s).value) && Step(s, Next(s).value).Some?)
      && (Next(s).None? ==> ReaderOwes(s))
  {
    RunInv(run);
    var s := Run(run).value;
    hide Run, Step;
    if Next(s).None? {
      if !ReaderOwes(s) {
        hide Inv, Quiet, Next;
        NothingNextIsQuiet(s);
        NoStrandedWriter(run);
      }
    } else if !(s.snd.setter.Ready? && s.acks == []) {
      SetterEnabled(s);
    } else if !(s.rcv.deliverer.Waiting? && s.wire == []) {
      DelivererEnabled(s);
    } else if s.rcv.reader.Popping? {
      PopperEnabled(s);
    } else {
      ReaderEnabled(s);
    }
  }

  /** So the wait ends: from any such state internal steps alone wake the writer or bring the reader
      to rest with bytes to read. */
  lemma {:induction false} WaitEnds(run: seq<Action>) returns (more: seq<Action>)
    requires Run(run).Some? && Resize(Some(0)) !in run
    requires Run(run).value.snd.writer.Parked? && !Run(run).value.snd.closed
    ensures Run(run + more).Some? && forall a :: a in more ==> Internal(a)
    ensures
      var s := Run(run + more).value;
      !s.snd.writer.Parked? || ReaderOwes(s)
    decreases Work(Run(run).value)
  {
    var s := Run(run).value;
    ParkedHasNext(run);
    hide Run, Step, Work, Internal, ReaderOwes;
    if Next(s).None? {
      more := [];
      NilRight(run);
    } else {
      var a := Next(s).value;
      InternalStepWorks(run, a);
      NextIsHarmless(s);
      var longer := run + [a];
      OneMore(run, a);
      StaysOpen(s, a);
      var rest: seq<Action> := [];
      if Run(longer).value.snd.writer.Parked? {
        rest := WaitEnds(longer);
      } else {
        NilRight(longer);
      }
      more := [a] + rest;
      Assoc(run, [a], rest);
    }
  }

  lemma NextIsHarmless(s: State)
    ensures Next(s) != Some(Resize(Some(0)))
  {
  }

  lemma OneMore(run: seq<Action>, a: Action)
    requires Run(run).Some? && Step(Run(run).value, a).Some?
    ensures Run(run + [a]) == Step(Run(run).value, a)
  {
    hide Step;
    assert (run + [a])[..|run|] == run;
  }

  lemma StaysOpen(s: State, a: Action)
    requires Step(s, a).Some? && Internal(a) && !s.snd.closed
    ensures !Step(s, a).value.snd.closed
  {
    hide RecvQueue.Step, Remaining;
  }
}
