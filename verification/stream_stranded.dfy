/** A run in which a window of size zero strands a writer. */
module StreamStranded {
  import opened Options
  import opened Segments
  import opened Words
  import opened Stream
  import opened StreamTheorems
  import RecvQueue

  const ONE: Segment := Segment([1], false)

  lemma Grow(run: seq<Action>, s: State, a: Action) returns (run': seq<Action>, s': State)
    requires Run(run) == Some(s) && Step(s, a).Some?
    ensures run' == run + [a] && Run(run') == Some(s') && Some(s') == Step(s, a)
  {
    run', s' := run + [a], Step(s, a).value;
    assert run'[..|run|] == run;
  }

  const WRITER: Sender := Sender(Window(INITIAL_WINDOW, 1, false), Writer.Idle, Ready, [1], 1, false)

  /** The queue and the reader while the byte is on its way through them. */
  function Held(win: Window, deliverer: Deliverer, length: u32, q: seq<Segment>, pusher: RecvQueue.Pusher): Receiver {
    Receiver(win, deliverer, RecvQueue.State(length, false, q, 0, false, 0, pusher, RecvQueue.Popper.Resting, q, []),
             Reader.Resting, Segment([], false), 0)
  }

  function Taken(win: Window, length: u32, popper: RecvQueue.Popper, reader: Reader, elem: Segment,
                 off: nat): Receiver {
    Receiver(win, Waiting, RecvQueue.State(length, false, [], 0, false, 0, RecvQueue.Idle, popper, [ONE], [ONE]),
             reader, elem, off)
  }

  /** One byte is written and queued as a frame. */
  lemma Written() returns (run: seq<Action>, s: State)
    ensures Run(run) == Some(s) && s.wire == [Data(ONE)] && s.acks == [] && s.snd == WRITER && s.rcv == Fresh.rcv
  {
    run, s := [], Fresh;
    run, s := Grow(run, s, BeginWrite([1]));
    run, s := Grow(run, s, WriteNext);
    assert s.snd.buf[0..1] == [1];
    run, s := Grow(run, s, CountSent);
    run, s := Grow(run, s, QueueFrame);
    run, s := Grow(run, s, WriteNext);
  }

  /** The receiver sets its window to zero when the frame arrives. */
  lemma Arrived() returns (run: seq<Action>, s: State)
    ensures Run(run) == Some(s) && s.wire == [] && s.acks == [] && s.snd == WRITER
    ensures s.rcv == Held(Window(0, 0, false), Deciding(ONE), 0, [], RecvQueue.Idle)
  {
    hide Run;
    run, s := Written();
    run, s := Grow(run, s, Deliver);
    run, s := Grow(run, s, Resize(Some(0)));
    assert s.wire == [];
  }

  lemma Pushed() returns (run: seq<Action>, s: State)
    ensures Run(run) == Some(s) && s.wire == [] && s.acks == [] && s.snd == WRITER
    ensures s.rcv == Held(Window(0, 0, true), Pushing(None), 0, [], RecvQueue.Adding(ONE))
  {
    hide Run;
    run, s := Arrived();
    run, s := Grow(run, s, LoadForWrite);
    run, s := Grow(run, s, CheckRoom);
    run, s := Grow(run, s, SwapForWrite);
  }

  /** The byte is in the queue. */
  lemma Queued() returns (run: seq<Action>, s: State)
    ensures Run(run) == Some(s) && s.wire == [] && s.acks == [] && s.snd == WRITER
    ensures s.rcv == Held(Window(0, 0, true), Waiting, 1, [ONE], RecvQueue.Idle)
  {
    hide Run;
    run, s := Pushed();
    run, s := Grow(run, s, Queue(RecvQueue.Count));
    run, s := Grow(run, s, Queue(RecvQueue.Append));
    run, s := Grow(run, s, EndPush);
  }

  lemma Sought() returns (run: seq<Action>, s: State)
    ensures Run(run) == Some(s) && s.wire == [] && s.acks == [] && s.snd == WRITER
    ensures
      var held := Held(Window(0, 0, true), Waiting, 1, [ONE], RecvQueue.Idle);
      s.rcv == held.(rq := held.rq.(popper := RecvQueue.Spinning), reader := Popping(1))
  {
    hide Run;
    run, s := Queued();
    run, s := Grow(run, s, BeginRead(1));
    run, s := Grow(run, s, Queue(RecvQueue.Check));
  }

  lemma Popped() returns (run: seq<Action>, s: State)
    ensures Run(run) == Some(s) && s.wire == [] && s.acks == [] && s.snd == WRITER
    ensures s.rcv == Taken(Window(0, 0, true), 0, RecvQueue.Popper.Done(ONE), Popping(1), Segment([], false), 0)
  {
    hide Run;
    run, s := Sought();
    run, s := Grow(run, s, Queue(RecvQueue.Grab));
    run, s := Grow(run, s, Queue(RecvQueue.Subtract));
  }

  /** The reader has copied the byte out. */
  lemma Copied() returns (run: seq<Action>, s: State)
    ensures Run(run) == Some(s) && s.wire == [] && s.acks == [] && s.snd == WRITER
    ensures s.rcv == Taken(Window(0, 0, true), 0, RecvQueue.Popper.Resting, Status(0), ONE, 1)
  {
    hide Run;
    run, s := Popped();
    run, s := Grow(run, s, Install);
    run, s := Grow(run, s, Copy);
  }

  lemma Checked() returns (run: seq<Action>, s: State)
    ensures Run(run) == Some(s) && s.wire == [] && s.acks == [] && s.snd == WRITER
    ensures s.rcv == Taken(Window(0, 0, true), 0, RecvQueue.Popper.Resting,
                           StatusChecked(0, Window(0, 0, true), 0), ONE, 1)
  {
    hide Run;
    run, s := Copied();
    run, s := Grow(run, s, LoadForStatus);
    run, s := Grow(run, s, CheckStatus);
  }

  /** It acknowledges the byte with the zero window. */
  lemma Acknowledged() returns (run: seq<Action>, s: State)
    ensures Run(run) == Some(s) && s.wire == [] && s.acks == [Ack(0, 1)] && s.snd == WRITER
    ensures s.rcv == Taken(Window(0, 0, false), 0, RecvQueue.Popper.Resting, Reader.Resting, ONE, 1)
  {
    hide Run;
    run, s := Checked();
    run, s := Grow(run, s, SwapForStatus);
    run, s := Grow(run, s, SendStatus);
  }

  /** The writer takes the zero window, and its next write parks with nothing on its way. */
  lemma ZeroWindowStrands() returns (run: seq<Action>)
    ensures Run(run).Some?
    ensures
      var s := Run(run).value;
      s.snd.writer.Parked? && !s.snd.closed && s.snd.win == Window(0, 0, true) && Quiet(s)
  {
    hide Run;
    var s;
    run, s := Acknowledged();
    run, s := Grow(run, s, DeliverAck);
    run, s := Grow(run, s, LoadWindow);
    run, s := Grow(run, s, SwapWindow);
    run, s := Grow(run, s, BeginWrite([2]));
    run, s := Grow(run, s, WriteNext);
  }
}
