/** What holds of every stream of a shared link, and that something on the link can always move while
    a writer waits. */
module MultiplexerTheorems {
  import opened Options
  import opened Sequences
  import opened Frames
  import opened Multiplexer
  import Link
  import PriorityQueue
  import RecvQueue
  import Stream
  import StreamInvariant
  import StreamProgress
  import StreamTheorems

  /** What each stream's reader has is a prefix of what its own writer wrote. */
  lemma ReadsArePrefix(keys: set<Key>, maxForth: int, maxBack: int, es: seq<Event>, k: Key)
    requires Run(Start(keys, maxForth, maxBack), es).Some? && k in keys
    ensures
      var n := Run(Start(keys, maxForth, maxBack), es).value;
      k in n.streams && n.streams[k].hist.out <= n.streams[k].hist.written
  {
    hide Stream.Run, NetOk, Run, Held, DataFrames, AckFrames, Trace;
    RefinesStreams(keys, maxForth, maxBack, es, k);
    StreamTheorems.ReadsArePrefix(Trace(Start(keys, maxForth, maxBack), es, k));
  }

  // ---- End of file ----

  /** The run of a stream inside an earlier part of a run of the link is a first part of its run. */
  lemma {:induction false} TraceGrows(start: Net, es: seq<Event>, k: Key, j: nat)
    requires Run(start, es).Some? && j <= |es|
    ensures Run(start, es[..j]).Some? && Trace(start, es[..j], k) <= Trace(start, es, k)
  {
    if j == |es| {
      assert es[..j] == es;
    } else {
      var front := es[..|es| - 1];
      assert front[..j] == es[..j];
      hide Step, TraceOf;
      TraceGrows(start, front, k, j);
    }
  }

  lemma TraceAt(start: Net, es: seq<Event>, k: Key, j: nat, a: Stream.Action)
    requires Run(start, es).Some? && j < |es| && es[j] == Local(k, a)
    ensures Run(start, es[..j]).Some?
    ensures
      var before, run := Trace(start, es[..j], k), Trace(start, es, k);
      |before| < |run| && run[|before|] == a && run[..|before|] == before
  {
    assert es[..j + 1][..j] == es[..j];
    hide Step;
    TraceGrows(start, es, k, j);
    TraceGrows(start, es, k, j + 1);
    assert Trace(start, es[..j + 1], k) == Trace(start, es[..j], k) + [a];
    hide Trace;
  }

  /** At end of file on a shared link everything that a finished write wrote before the close has
      been read, nothing was written since, and all of it was read if no write was under way. */
  lemma EndReturnsFinishedWrites(keys: set<Key>, maxForth: int, maxBack: int, es: seq<Event>, k: Key, j: nat)
    requires Run(Start(keys, maxForth, maxBack), es).Some? && k in keys
    requires j < |es| && es[j] == Local(k, Stream.Close)
    requires
      var n := Run(Start(keys, maxForth, maxBack), es).value;
      k in n.streams && n.streams[k].rcv.reader.Ended?
    ensures
      var before := Run(Start(keys, maxForth, maxBack), es[..j]);
      before.Some? && k in before.value.streams
    ensures
      var c := Run(Start(keys, maxForth, maxBack), es[..j]).value.streams[k];
      var s := Run(Start(keys, maxForth, maxBack), es).value.streams[k];
      var finished := StreamTheorems.FinishedWrites(c);
      && finished <= |c.hist.written| && c.hist.written[..finished] <= s.hist.out
      && s.hist.written == c.hist.written
      && (c.snd.writer.Idle? ==> s.hist.out == c.hist.written)
  {
    hide Run, Stream.Run, NetOk, Held, DataFrames, AckFrames, Trace;
    var start := Start(keys, maxForth, maxBack);
    TraceAt(start, es, k, j, Stream.Close);
    RefinesStreams(keys, maxForth, maxBack, es[..j], k);
    RefinesStreams(keys, maxForth, maxBack, es, k);
    StreamTheorems.EndReturnsFinishedWrites(Trace(start, es, k), |Trace(start, es[..j], k)|);
  }

  // ---- No stream holds up the others ----

  /** Inside stream `s`, the session reader's next step before it can do `a`. */
  function Pending(s: Stream.State, a: Stream.Action): Stream.Action {
    if a.Deliver? then
      match s.rcv.deliverer
      case Waiting => a
      case Sizing(_) => Stream.Resize(None)
      case Deciding(_) => Stream.LoadForWrite
      case Held(_, _) => Stream.CheckRoom
      case Checked(_, _, _) => Stream.SwapForWrite
      case Acking(_) => Stream.SendReport
      case Pushing(_) =>
        match s.rcv.rq.pusher
        case Idle => Stream.EndPush
        case Adding(_) => Stream.Queue(RecvQueue.Count)
        case Counted(_, _) => Stream.Queue(RecvQueue.Append)
        case Waking => Stream.Queue(if s.rcv.rq.popper.Parked? then RecvQueue.HandOver else RecvQueue.Desist)
    else
      match s.snd.setter
      case Ready => a
      case Loop(_, _) => Stream.LoadWindow
      case Loaded(_, _, _) => Stream.SwapWindow
      case Waking => Stream.WakeWriter
  }

  lemma DelivererGoesOn(s: Stream.State)
    requires StreamInvariant.Inv(s) && !s.rcv.deliverer.Waiting?
    ensures Stream.Step(s, Pending(s, Stream.Deliver)).Some?
  {
    hide StreamInvariant.Flow, StreamInvariant.Content, StreamInvariant.ReaderOk, RecvQueue.ContentOk,
         RecvQueue.LengthOk, RecvQueue.StopOk, Stream.Remaining;
  }

  lemma SetterGoesOn(s: Stream.State)
    requires StreamInvariant.Inv(s) && !s.snd.setter.Ready?
    ensures Stream.Step(s, Pending(s, Stream.DeliverAck)).Some?
  {
    hide StreamInvariant.Control, StreamInvariant.Content, StreamInvariant.CreditOk, StreamInvariant.DrainOk,
         Stream.Remaining;
  }

  /** The step is possible and emits at most one frame. */
  predicate OneFrame(s: Stream.State, a: Stream.Action) {
    && Stream.Step(s, a).Some?
    && |Stream.Step(s, a).value.wire| <= 1 && |Stream.Step(s, a).value.acks| <= 1
  }

  lemma BusyGoesOn(t: Stream.State, f: Frame, a: Stream.Action)
    requires StreamInvariant.Inv(t)
    requires if a.Deliver? then Link.Carried(f).Some? && !t.rcv.reader.Ended?
             else a.DeliverAck? && Link.CarriedAck(f).Some? && !t.snd.closed
    requires Stream.Step(Given(Ends(t), f), a).None?
    ensures
      var p := Pending(Ends(t), a);
      StreamProgress.Internal(p) && !p.Deliver? && !p.DeliverAck? && OneFrame(Ends(t), p)
  {
    hide StreamInvariant.Inv;
    if a.Deliver? {
      DelivererGoesOn(t);
    } else {
      SetterGoesOn(t);
    }
    StepApart(t, Pending(t, a));
  }

  // ---- Something moves ----

  /** An event by which the link or a stream goes on by itself: a frame is served, a frame is handed
      out, or a goroutine does an operation that is not the start of a call. */
  predicate Moves(n: Net, e: Event) {
    && Step(n, e).Some?
    && match e
       case Serve(forth) => PriorityQueue.Front(PipeOf(n, forth).log.q).Some?
       case Receive(_) => true
       case Local(_, a) => StreamProgress.Internal(a)
       case Other(_, _) => false
  }

  /** A full queue refuses a frame; there is then a frame to serve. */
  lemma RefusedMeansFull(p: Pipe, fs: seq<Frame>)
    requires PipeOk(p) && |fs| <= 1 && Enqueue(p, fs).None?
    ensures !PriorityQueue.Accepts(p.log.q) && PriorityQueue.Front(p.log.q).Some?
  {
    PriorityQueue.RefusesOnlyBusy(p.log.q);
  }

  /** A step of a stream is one of the link, unless a full write queue refuses its frame. */
  lemma StepOrServe(n: Net, k: Key, a: Stream.Action) returns (e: Event)
    requires NetOk(n) && k in n.streams && OneFrame(n.streams[k], a)
    requires StreamProgress.Internal(a) && !a.Deliver? && !a.DeliverAck?
    ensures Moves(n, e)
    ensures
      || e == Local(k, a)
      || (e.Serve? && LocalStep(n, k, a).None? && !PriorityQueue.Accepts(PipeOf(n, e.forth).log.q))
  {
    hide Stream.Step, PipeOk, StreamProgress.Internal;
    var s := Stream.Step(n.streams[k], a).value;
    if LocalStep(n, k, a).Some? {
      e := Local(k, a);
    } else if Enqueue(PipeOf(n, k.forth), DataFrames(k.id, s.wire)).None? {
      RefusedMeansFull(PipeOf(n, k.forth), DataFrames(k.id, s.wire));
      e := Serve(k.forth);
    } else {
      RefusedMeansFull(PipeOf(n, !k.forth), AckFrames(k.id, s.acks));
      e := Serve(!k.forth);
    }
  }

  /** When the session reader cannot hand out a frame yet, it is inside the stream that the frame is
      for, and its own next step there is enabled, or waits only for a full write queue that can
      serve: a stream whose reader or writer rests never holds up the frames of the others. */
  lemma NeverHeldUp(keys: set<Key>, maxForth: int, maxBack: int, es: seq<Event>, forth: bool) returns (e: Event)
    requires Run(Start(keys, maxForth, maxBack), es).Some?
    requires
      var n := Run(Start(keys, maxForth, maxBack), es).value;
      Head(PipeOf(n, forth)).Some? && Step(n, Receive(forth)).None?
    ensures
      var n := Run(Start(keys, maxForth, maxBack), es).value;
      var taker := Taker(n, forth, Head(PipeOf(n, forth)).value);
      && Moves(n, e)
      && taker.Some?
      && var (k, a) := taker.value;
         || e == Local(k, Pending(n.streams[k], a))
         || (e.Serve? && LocalStep(n, k, Pending(n.streams[k], a)).None?
             && !PriorityQueue.Accepts(PipeOf(n, e.forth).log.q))
  {
    var start := Start(keys, maxForth, maxBack);
    var n := Run(start, es).value;
    var f := Head(PipeOf(n, forth)).value;
    var (k, a) := Taker(n, forth, f).value;
    RunSimulates(keys, maxForth, maxBack, es);
    hide Run, Stream.Step, Stream.Run, Pending, Given, Head, NetOk, Held, DataFrames, AckFrames, Trace, Advance;
    hide OneFrame, Moves, StreamProgress.Internal;
    RefinesStreams(keys, maxForth, maxBack, es, k);
    var run := Trace(start, es, k);
    StreamTheorems.RunInv(run);
    BusyGoesOn(Stream.Run(run).value, f, a);
    e := StepOrServe(n, k, Pending(n.streams[k], a));
  }

  /** A direction with a frame queued or on its way moves. */
  lemma PipeMoves(keys: set<Key>, maxForth: int, maxBack: int, es: seq<Event>, forth: bool) returns (e: Event)
    requires Run(Start(keys, maxForth, maxBack), es).Some?
    requires
      var p := PipeOf(Run(Start(keys, maxForth, maxBack), es).value, forth);
      Head(p).Some? || PriorityQueue.Front(p.log.q).Some?
    ensures Moves(Run(Start(keys, maxForth, maxBack), es).value, e)
  {
    hide Run, Head, ReceiveStep, Taker;
    var n := Run(Start(keys, maxForth, maxBack), es).value;
    if Head(PipeOf(n, forth)).None? {
      e := Serve(forth);
    } else if Step(n, Receive(forth)).Some? {
      e := Receive(forth);
    } else {
      e := NeverHeldUp(keys, maxForth, maxBack, es, forth);
    }
  }

  lemma HeldMeansBusy(p: Pipe, id: i32, acks: bool)
    requires PipeOk(p) && Held(p, id, acks) != []
    ensures Head(p).Some? || PriorityQueue.Front(p.log.q).Some?
  {
    HeadIsNext(p);
    hide Head, Wanted;
    PriorityQueue.NilIffEmpty(p.log.q);
  }

  lemma {:induction false} OnlyLocal(start: Net, es: seq<Event>, k: Key, a: Stream.Action)
    requires Local(k, a) !in es && !a.Deliver? && !a.DeliverAck?
    ensures a !in Trace(start, es, k)
  {
    if es != [] && Run(start, es[..|es| - 1]).Some? {
      hide Run, Taker, Head;
      OnlyLocal(start, es[..|es| - 1], k, a);
      NotNow(Run(start, es[..|es| - 1]).value, es[|es| - 1], k, a);
    }
  }

  lemma NotNow(n: Net, e: Event, k: Key, a: Stream.Action)
    requires Local(k, a) != e && !a.Deliver? && !a.DeliverAck?
    ensures a !in TraceOf(n, e, k)
  {
    hide Head;
  }

  /** While the writer of an open stream is parked, and its receiver never set the window to zero,
      some event of the link moves, or the stream's reader rests on bytes it has not read. */
  lemma ParkedHasEvent(keys: set<Key>, maxForth: int, maxBack: int, es: seq<Event>, k: Key)
    returns (e: Option<Event>)
    requires Run(Start(keys, maxForth, maxBack), es).Some? && k in keys
    requires Local(k, Stream.Resize(Some(0))) !in es
    requires
      var n := Run(Start(keys, maxForth, maxBack), es).value;
      k in n.streams && n.streams[k].snd.writer.Parked? && !n.streams[k].snd.closed
    ensures
      var n := Run(Start(keys, maxForth, maxBack), es).value;
      match e
      case Some(event) => Moves(n, event)
      case None => StreamProgress.ReaderOwes(n.streams[k])
  {
    hide Run, Stream.Run, Stream.Step, Trace, Head, Moves, Held, OneFrame, StreamProgress.Next, NetOk;
    var start := Start(keys, maxForth, maxBack);
    var n, run := Run(start, es).value, Trace(start, es, k);
    RefinesStreams(keys, maxForth, maxBack, es, k);
    OnlyLocal(start, es, k, Stream.Resize(Some(0)));
    StreamProgress.ParkedHasNext(run);
    var t := Stream.Run(run).value;
    if StreamProgress.Next(t).None? {
      e := None;
    } else {
      var event := NextMoves(keys, maxForth, maxBack, es, k, t, StreamProgress.Next(t).value);
      e := Some(event);
    }
  }

  lemma NextMoves(keys: set<Key>, maxForth: int, maxBack: int, es: seq<Event>, k: Key, t: Stream.State,
                  a: Stream.Action) returns (e: Event)
    requires Run(Start(keys, maxForth, maxBack), es).Some?
    requires
      var n := Run(Start(keys, maxForth, maxBack), es).value;
      NetOk(n) && Related(n, k, t)
    requires StreamProgress.Internal(a) && Stream.Step(t, a).Some? && !t.snd.closed
    ensures Moves(Run(Start(keys, maxForth, maxBack), es).value, e)
  {
    hide Run, Head, Moves, Held, PipeOk;
    var n := Run(Start(keys, maxForth, maxBack), es).value;
    if a.Deliver? {
      HeldMeansBusy(PipeOf(n, k.forth), k.id, false);
      e := PipeMoves(keys, maxForth, maxBack, es, k.forth);
    } else if a.DeliverAck? {
      HeldMeansBusy(PipeOf(n, !k.forth), k.id, true);
      e := PipeMoves(keys, maxForth, maxBack, es, !k.forth);
    } else {
      StepApart(t, a);
      hide Stream.Step;
      e := StepOrServe(n, k, a);
    }
  }
}
