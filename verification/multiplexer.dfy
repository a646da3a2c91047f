/** Many streams over one link. What a stream sends goes through the write queue of its side and the
    codec, and the session reader at the other side hands each frame to the stream it names. Every
    stream then does a run of the stream model, whose ordered wire is what the link holds of it. */
module Multiplexer {
  import opened Options
  import opened Sequences
  import opened Frames
  import Link
  import PriorityQueue
  import RecvQueue
  import Stream
  import StreamTheorems

  /** A stream: the direction of its data and its id. */
  datatype Key = Key(forth: bool, id: i32)

  /** One direction of the link: its write queue, and how many of the frames that were written the
      session reader at the other side has handed out. */
  datatype Pipe = Pipe(log: PriorityQueue.Log, handed: nat)

  /** Each stream is kept without its wire and acknowledgements: those are inside the pipes. */
  datatype Net = Net(streams: map<Key, Stream.State>, forth: Pipe, back: Pipe)

  /** `Local`: a step of a stream other than taking a frame; `Other`: a frame of no stream, such as a
      ping, is queued; `Serve`: the write loop takes a frame; `Receive`: the session reader reads one
      and hands it out. */
  datatype Event =
    | Local(k: Key, a: Stream.Action)
    | Other(forth: bool, f: Frame)
    | Serve(forth: bool)
    | Receive(forth: bool)

  function PipeOf(n: Net, forth: bool): Pipe {
    if forth then n.forth else n.back
  }

  function WithPipe(n: Net, forth: bool, p: Pipe): Net {
    if forth then n.(forth := p) else n.(back := p)
  }

  /** The two ends of a stream, without what is between them. */
  function Ends(s: Stream.State): Stream.State {
    s.(wire := [], acks := [])
  }

  function DataFrames(id: i32, wire: seq<Stream.Frame>): seq<Frame> {
    seq(|wire|, i requires 0 <= i < |wire| => Link.Carrier(id, wire[i]))
  }

  function AckFrames(id: i32, acks: seq<Stream.Ack>): seq<Frame> {
    seq(|acks|, i requires 0 <= i < |acks| => Link.AckCarrier(id, acks[i]))
  }

  function Arrived(p: Pipe, f: Frame): Pipe {
    p.(log := PriorityQueue.After(p.log, PriorityQueue.Arrive(f)))
  }

  function Served(p: Pipe): Pipe {
    p.(log := PriorityQueue.After(p.log, PriorityQueue.Serve))
  }

  /** A refused frame closes the link. */
  function Enqueue(p: Pipe, fs: seq<Frame>): Option<Pipe>
    decreases |fs|
  {
    if fs == [] then Some(p)
    else if PriorityQueue.Accepts(p.log.q) then Enqueue(Arrived(p, fs[0]), fs[1..])
    else None
  }

  /** The next frame that the session reader decodes from the bytes of a direction. */
  function Head(p: Pipe): Option<Frame> {
    var frames := DecodeAll(EncodeAll(p.log.served)).frames;
    if p.handed < |frames| then Some(frames[p.handed]) else None
  }

  /** The stream that takes a frame, and the step by which it does; none if the stream is unknown,
      was closed or has been read to its end. */
  function Taker(n: Net, forth: bool, f: Frame): (t: Option<(Key, Stream.Action)>)
    ensures t.Some? ==> t.value.0 in n.streams
  {
    var data, ack := Key(forth, f.id), Key(!forth, f.id);
    if Link.Carried(f).Some? && data in n.streams && !n.streams[data].rcv.reader.Ended? then
      Some((data, Stream.Deliver))
    else if Link.CarriedAck(f).Some? && ack in n.streams && !n.streams[ack].snd.closed then
      Some((ack, Stream.DeliverAck))
    else None
  }

  /** A stream that is about to take what a frame carries. */
  function Given(s: Stream.State, f: Frame): Stream.State {
    if Link.Carried(f).Some? then s.(wire := [Link.Carried(f).value])
    else if Link.CarriedAck(f).Some? then s.(acks := [Link.CarriedAck(f).value])
    else s
  }

  function Advance(n: Net, k: Key, s: Stream.State): Option<Net> {
    match Enqueue(PipeOf(n, k.forth), DataFrames(k.id, s.wire))
    case None => None
    case Some(there) =>
      match Enqueue(PipeOf(n, !k.forth), AckFrames(k.id, s.acks))
      case None => None
      case Some(here) =>
        Some(WithPipe(WithPipe(n.(streams := n.streams[k := Ends(s)]), k.forth, there), !k.forth, here))
  }

  function LocalStep(n: Net, k: Key, a: Stream.Action): Option<Net> {
    if k !in n.streams || a.Deliver? || a.DeliverAck? then None
    else
      match Stream.Step(n.streams[k], a)
      case None => None
      case Some(s) => Advance(n, k, s)
  }

  function HandOut(n: Net, forth: bool): Net {
    WithPipe(n, forth, PipeOf(n, forth).(handed := PipeOf(n, forth).handed + 1))
  }

  /** The session reader waits while the stream is still busy with an earlier frame. */
  function ReceiveStep(n: Net, forth: bool): Option<Net> {
    match Head(PipeOf(n, forth))
    case None => None
    case Some(f) =>
      match Taker(n, forth, f)
      case None => Some(HandOut(n, forth))
      case Some(t) =>
        match Stream.Step(Given(n.streams[t.0], f), t.1)
        case None => None
        case Some(s) => Some(HandOut(n, forth).(streams := n.streams[t.0 := Ends(s)]))
  }

  function Step(n: Net, e: Event): Option<Net> {
    match e
    case Local(k, a) => LocalStep(n, k, a)
    case Other(forth, f) =>
      if WellFormed(f) && Link.Carried(f).None? && Link.CarriedAck(f).None? then
        match Enqueue(PipeOf(n, forth), [f])
        case None => None
        case Some(p) => Some(WithPipe(n, forth, p))
      else None
    case Serve(forth) => Some(WithPipe(n, forth, Served(PipeOf(n, forth))))
    case Receive(forth) => ReceiveStep(n, forth)
  }

  function Start(keys: set<Key>, maxForth: int, maxBack: int): Net {
    Net(map k | k in keys :: Stream.Fresh, Pipe(PriorityQueue.Fresh(maxForth), 0),
        Pipe(PriorityQueue.Fresh(maxBack), 0))
  }

  function Run(start: Net, es: seq<Event>): Option<Net> {
    if es == [] then Some(start)
    else
      match Run(start, es[..|es| - 1])
      case None => None
      case Some(n) => Step(n, es[|es| - 1])
  }

  // ---- The run of one stream inside a run of the link ----

  function TraceOf(n: Net, e: Event, k: Key): seq<Stream.Action> {
    match e
    case Local(k', a) => if k' == k then [a] else []
    case Receive(forth) =>
      (match Head(PipeOf(n, forth))
       case None => []
       case Some(f) =>
         match Taker(n, forth, f)
         case None => []
         case Some(t) => if t.0 == k then [t.1] else [])
    case _ => []
  }

  function Trace(start: Net, es: seq<Event>, k: Key): seq<Stream.Action> {
    if es == [] || Run(start, es[..|es| - 1]).None? then []
    else Trace(start, es[..|es| - 1], k) + TraceOf(Run(start, es[..|es| - 1]).value, es[|es| - 1], k)
  }

  // ---- What a pipe holds ----

  predicate Wanted(f: Frame, id: i32, acks: bool) {
    f.id == id && if acks then Link.CarriedAck(f).Some? else Link.Carried(f).Some?
  }

  /** The frames that carry data of stream `id`, or its acknowledgements. */
  function Part(fs: seq<Frame>, id: i32, acks: bool): seq<Frame> {
    if fs == [] then []
    else
      var f := fs[|fs| - 1];
      Part(fs[..|fs| - 1], id, acks) + if Wanted(f, id, acks) then [f] else []
  }

  lemma PartOne(f: Frame, id: i32, acks: bool)
    ensures Part([f], id, acks) == if Wanted(f, id, acks) then [f] else []
  {
    assert [f][..0] == [];
  }

  lemma {:induction false} PartSplits(fs: seq<Frame>, gs: seq<Frame>, id: i32, acks: bool)
    ensures Part(fs + gs, id, acks) == Part(fs, id, acks) + Part(gs, id, acks)
  {
    hide Wanted;
    if gs == [] {
      NilRight(fs);
      NilRight(Part(fs, id, acks));
    } else {
      var front, g := gs[..|gs| - 1], gs[|gs| - 1];
      PartSplits(fs, front, id, acks);
      assert (fs + gs)[..|fs + gs| - 1] == fs + front;
      Assoc(Part(fs, id, acks), Part(front, id, acks), if Wanted(g, id, acks) then [g] else []);
    }
  }

  ghost predicate PipeOk(p: Pipe) {
    && p.handed <= |p.log.served|
    && Link.AllWellFormed(p.log.served)
    && (forall c :: Link.AllWellFormed(PriorityQueue.Waiting(p.log.q, c)))
    && PriorityQueue.Sorted(p.log.q)
    && PriorityQueue.CountOk(p.log.q)
  }

  /** What of a stream's frames is queued or on its way. */
  function Held(p: Pipe, id: i32, acks: bool): seq<Frame>
    requires p.handed <= |p.log.served|
  {
    Part(p.log.served[p.handed..] + p.log.q.low, id, acks)
  }

  lemma OnlyLowWanted(f: Frame, id: i32, acks: bool)
    ensures Wanted(f, id, acks) ==> PriorityQueue.ClassOf(f).Low?
  {
  }

  lemma ArriveAdds(p: Pipe, f: Frame, id: i32, acks: bool)
    requires PipeOk(p) && WellFormed(f) && PriorityQueue.Accepts(p.log.q)
    ensures PipeOk(Arrived(p, f))
    ensures Held(Arrived(p, f), id, acks) == Held(p, id, acks) + Part([f], id, acks)
  {
    hide WellFormed, Wanted;
    var p' := Arrived(p, f);
    PriorityQueue.EventKeepsSorted(p.log, PriorityQueue.Arrive(f));
    PriorityQueue.EventCounts(p.log, PriorityQueue.Arrive(f));
    hide PriorityQueue.CountOk;
    forall c ensures Link.AllWellFormed(PriorityQueue.Waiting(p'.log.q, c)) {
      assert Link.AllWellFormed(PriorityQueue.Waiting(p.log.q, c));
      hide PriorityQueue.ClassOf;
    }
    OnlyLowWanted(f, id, acks);
    PartOne(f, id, acks);
    var unread := p.log.served[p.handed..];
    if PriorityQueue.ClassOf(f).Low? {
      hide PriorityQueue.ClassOf;
      Assoc(unread, p.log.q.low, [f]);
      PartSplits(unread + p.log.q.low, [f], id, acks);
    } else {
      hide PriorityQueue.ClassOf;
      NilRight(Held(p, id, acks));
    }
  }

  lemma {:induction false} EnqueueAdds(p: Pipe, fs: seq<Frame>, id: i32, acks: bool)
    requires PipeOk(p) && Link.AllWellFormed(fs) && Enqueue(p, fs).Some?
    ensures
      var p' := Enqueue(p, fs).value;
      PipeOk(p') && Held(p', id, acks) == Held(p, id, acks) + Part(fs, id, acks)
    decreases |fs|
  {
    if fs == [] {
      NilRight(Held(p, id, acks));
    } else {
      var q, head, rest := Arrived(p, fs[0]), [fs[0]], fs[1..];
      ArriveAdds(p, fs[0], id, acks);
      hide PipeOk, Held, Part, Arrived;
      EnqueueAdds(q, rest, id, acks);
      assert fs == head + rest;
      PartSplits(head, rest, id, acks);
      Assoc(Held(p, id, acks), Part(head, id, acks), Part(rest, id, acks));
    }
  }

  lemma ServeHolds(p: Pipe, id: i32, acks: bool)
    requires PipeOk(p)
    ensures PipeOk(Served(p)) && Held(Served(p), id, acks) == Held(p, id, acks)
  {
    hide WellFormed, Wanted;
    var q, p' := p.log.q, Served(p);
    PriorityQueue.EventKeepsSorted(p.log, PriorityQueue.Serve);
    PriorityQueue.EventCounts(p.log, PriorityQueue.Serve);
    hide PriorityQueue.CountOk;
    if PriorityQueue.Next(q).Some? {
      var c := PriorityQueue.Next(q).value;
      var f := PriorityQueue.Waiting(q, c)[0];
      assert Link.AllWellFormed(PriorityQueue.Waiting(q, c));
      forall d ensures Link.AllWellFormed(PriorityQueue.Waiting(p'.log.q, d)) {
        assert Link.AllWellFormed(PriorityQueue.Waiting(q, d));
      }
      assert PriorityQueue.ClassOf(f) == c;
      hide PriorityQueue.ClassOf, PipeOk;
      ServedHolds(p, f, id, acks);
    }
  }

  lemma ServedHolds(p: Pipe, f: Frame, id: i32, acks: bool)
    requires p.handed <= |p.log.served| && PriorityQueue.Front(p.log.q) == Some(f)
    requires PriorityQueue.Next(p.log.q) == Some(PriorityQueue.ClassOf(f))
    ensures Held(Served(p), id, acks) == Held(p, id, acks)
  {
    hide Wanted;
    var low, unread := p.log.q.low, p.log.served[p.handed..];
    var p' := Served(p);
    assert p'.log.served[p.handed..] == unread + [f];
    if PriorityQueue.ClassOf(f).Low? {
      hide PriorityQueue.ClassOf;
      assert low == [f] + low[1..];
      Assoc(unread, [f], low[1..]);
    } else {
      OnlyLowWanted(f, id, acks);
      hide PriorityQueue.ClassOf;
      PartOne(f, id, acks);
      PartSplits(unread, [f], id, acks);
      NilRight(Part(unread, id, acks));
      PartSplits(unread + [f], low, id, acks);
      PartSplits(unread, low, id, acks);
    }
  }

  /** The bytes of a direction decode to the frames that were written. */
  lemma HeadIsNext(p: Pipe)
    requires PipeOk(p)
    ensures Head(p) == if p.handed < |p.log.served| then Some(p.log.served[p.handed]) else None
  {
    AllFramesSurvive(p.log.served);
    hide EncodeAll, DecodeAll;
  }

  lemma HandTakes(p: Pipe, id: i32, acks: bool)
    requires PipeOk(p) && Head(p).Some?
    ensures
      var p' := p.(handed := p.handed + 1);
      PipeOk(p') && Held(p, id, acks) == Part([Head(p).value], id, acks) + Held(p', id, acks)
  {
    HeadIsNext(p);
    hide Head, WellFormed, Wanted;
    var served, low := p.log.served, p.log.q.low;
    var f := served[p.handed];
    var rest := served[p.handed + 1..];
    assert served[p.handed..] == [f] + rest;
    Assoc([f], rest, low);
    PartSplits([f], rest + low, id, acks);
  }

  // ---- Steps of a stream do not depend on what is between its ends ----

  predicate Appended(t: Stream.State, t': Stream.State, s': Stream.State) {
    && t'.wire == t.wire + s'.wire && t'.acks == t.acks + s'.acks && Ends(t') == Ends(s')
    && |s'.wire| <= 1 && |s'.acks| <= 1
    && (t.rcv.reader.Ended? ==> t'.rcv.reader.Ended?) && (t.snd.closed ==> t'.snd.closed)
  }

  predicate StepsApart(t: Stream.State, a: Stream.Action) {
    && (Stream.Step(t, a).Some? <==> Stream.Step(Ends(t), a).Some?)
    && (Stream.Step(t, a).Some? ==> Appended(t, Stream.Step(t, a).value, Stream.Step(Ends(t), a).value))
  }

  predicate Reporting(a: Stream.Action) {
    a.LoadForStatus? || a.CheckStatus? || a.SwapForStatus? || a.SendStatus?
  }

  predicate Reading(a: Stream.Action) {
    a.Queue? || a.BeginRead? || a.Install? || a.SeeEnd? || a.Copy?
  }

  lemma SenderApart(t: Stream.State, a: Stream.Action)
    requires StreamTheorems.AtSender(a) && !a.DeliverAck?
    ensures StepsApart(t, a)
  {
    hide Stream.Remaining;
  }

  lemma ReportingApart(t: Stream.State, a: Stream.Action)
    requires Reporting(a)
    ensures StepsApart(t, a)
  {
    hide RecvQueue.BeginPop, Stream.Remaining;
  }

  lemma ReadingApart(t: Stream.State, a: Stream.Action)
    requires Reading(a)
    ensures StepsApart(t, a)
  {
    hide RecvQueue.Step, RecvQueue.BeginPop;
  }

  lemma DelivererApart(t: Stream.State, a: Stream.Action)
    requires !StreamTheorems.AtSender(a) && !Reporting(a) && !Reading(a) && !a.Deliver?
    ensures StepsApart(t, a)
  {
    hide RecvQueue.BeginPush, Stream.Remaining;
  }

  lemma StepApart(t: Stream.State, a: Stream.Action)
    requires !a.Deliver? && !a.DeliverAck?
    ensures StepsApart(t, a)
  {
    hide StepsApart;
    if StreamTheorems.AtSender(a) {
      SenderApart(t, a);
    } else if Reporting(a) {
      ReportingApart(t, a);
    } else if Reading(a) {
      ReadingApart(t, a);
    } else {
      DelivererApart(t, a);
    }
  }

  lemma DeliverApart(t: Stream.State)
    requires t.wire != []
    ensures
      var s := Ends(t).(wire := [t.wire[0]]);
      && (Stream.Step(t, Stream.Deliver).Some? <==> Stream.Step(s, Stream.Deliver).Some?)
      && (Stream.Step(t, Stream.Deliver).Some? ==>
            var t', s' := Stream.Step(t, Stream.Deliver).value, Stream.Step(s, Stream.Deliver).value;
            && t'.wire == t.wire[1..] && t'.acks == t.acks && Ends(t') == Ends(s')
            && t'.snd.closed == t.snd.closed)
  {
    hide RecvQueue.StopQueue;
  }

  lemma DeliverAckApart(t: Stream.State)
    requires t.acks != []
    ensures
      var s := Ends(t).(acks := [t.acks[0]]);
      && (Stream.Step(t, Stream.DeliverAck).Some? <==> Stream.Step(s, Stream.DeliverAck).Some?)
      && (Stream.Step(t, Stream.DeliverAck).Some? ==>
            var t', s' := Stream.Step(t, Stream.DeliverAck).value, Stream.Step(s, Stream.DeliverAck).value;
            && t'.acks == t.acks[1..] && t'.wire == t.wire && Ends(t') == Ends(s')
            && t'.rcv.reader == t.rcv.reader)
  {
  }

  // ---- The link simulates its streams ----

  ghost predicate NetOk(n: Net) {
    PipeOk(n.forth) && PipeOk(n.back)
  }

  /** The stream state `t` has the ends of stream `k`, and between them what the link holds: its data
      until it has been read to its end, its acknowledgements until it is closed. */
  ghost predicate Related(n: Net, k: Key, t: Stream.State)
    requires NetOk(n)
  {
    && k in n.streams && n.streams[k] == Ends(t)
    && (!t.rcv.reader.Ended? ==> Held(PipeOf(n, k.forth), k.id, false) == DataFrames(k.id, t.wire))
    && (!t.snd.closed ==> Held(PipeOf(n, !k.forth), k.id, true) == AckFrames(k.id, t.acks))
  }

  lemma PartOfData(id: i32, wire: seq<Stream.Frame>, id': i32, acks: bool)
    requires |wire| <= 1
    ensures Part(DataFrames(id, wire), id', acks) == if id == id' && !acks then DataFrames(id, wire) else []
  {
    if wire != [] {
      assert DataFrames(id, wire) == [Link.Carrier(id, wire[0])];
      PartOne(Link.Carrier(id, wire[0]), id', acks);
    }
  }

  lemma PartOfAcks(id: i32, as': seq<Stream.Ack>, id': i32, acks: bool)
    requires |as'| <= 1
    ensures Part(AckFrames(id, as'), id', acks) == if id == id' && acks then AckFrames(id, as') else []
  {
    if as' != [] {
      assert AckFrames(id, as') == [Link.AckCarrier(id, as'[0])];
      PartOne(Link.AckCarrier(id, as'[0]), id', acks);
    }
  }

  lemma DataFramesAppend(id: i32, w: seq<Stream.Frame>, v: seq<Stream.Frame>)
    ensures DataFrames(id, w + v) == DataFrames(id, w) + DataFrames(id, v)
  {
  }

  lemma AckFramesAppend(id: i32, w: seq<Stream.Ack>, v: seq<Stream.Ack>)
    ensures AckFrames(id, w + v) == AckFrames(id, w) + AckFrames(id, v)
  {
  }

  lemma AcksWellFormed(id: i32, acks: seq<Stream.Ack>)
    ensures Link.AllWellFormed(AckFrames(id, acks))
  {
  }

  /** What a stream's step puts on one direction of the link. */
  function Emitted(k: Key, s: Stream.State, forth: bool): seq<Frame> {
    if forth == k.forth then DataFrames(k.id, s.wire) else AckFrames(k.id, s.acks)
  }

  lemma AdvanceHolds(n: Net, k: Key, s: Stream.State, forth: bool, id: i32, acks: bool)
    requires NetOk(n) && Advance(n, k, s).Some? && Link.AllWellFormed(DataFrames(k.id, s.wire))
    ensures
      var p, p' := PipeOf(n, forth), PipeOf(Advance(n, k, s).value, forth);
      PipeOk(p') && Held(p', id, acks) == Held(p, id, acks) + Part(Emitted(k, s, forth), id, acks)
  {
    AcksWellFormed(k.id, s.acks);
    EnqueueAdds(PipeOf(n, forth), Emitted(k, s, forth), id, acks);
    hide PipeOk, Held, Part, DataFrames, AckFrames, Enqueue, Link.AllWellFormed;
  }

  /** The frames that a step emits fit the link. */
  lemma EmitsWellFormed(run: seq<Stream.Action>, k: Key, a: Stream.Action, s: Stream.State)
    requires Stream.Run(run).Some? && !a.Deliver? && !a.DeliverAck?
    requires Stream.Step(Ends(Stream.Run(run).value), a) == Some(s)
    ensures Link.AllWellFormed(DataFrames(k.id, s.wire))
  {
    var t := Stream.Run(run).value;
    StepApart(t, a);
    OneMore(run, a);
    hide Stream.Run, Stream.Step, WellFormed;
    if s.wire != [] {
      Link.CarriersAreExact(run + [a], k.id, |t.wire|);
      assert DataFrames(k.id, s.wire) == [Link.Carrier(k.id, s.wire[0])];
    }
  }

  lemma OneMore(run: seq<Stream.Action>, a: Stream.Action)
    requires Stream.Run(run).Some?
    ensures Stream.Run(run + [a]) == Stream.Step(Stream.Run(run).value, a)
  {
    assert (run + [a])[..|run|] == run;
  }

  /** What a step emits is added to its own stream's part of the link. */
  lemma OwnLanes(n: Net, k: Key, s: Stream.State)
    requires NetOk(n) && Advance(n, k, s).Some? && Link.AllWellFormed(DataFrames(k.id, s.wire))
    requires |s.wire| <= 1 && |s.acks| <= 1
    ensures
      var n' := Advance(n, k, s).value;
      && NetOk(n') && n'.streams == n.streams[k := Ends(s)]
      && Held(PipeOf(n', k.forth), k.id, false) == Held(PipeOf(n, k.forth), k.id, false) + DataFrames(k.id, s.wire)
      && Held(PipeOf(n', !k.forth), k.id, true) == Held(PipeOf(n, !k.forth), k.id, true) + AckFrames(k.id, s.acks)
  {
    AdvanceHolds(n, k, s, k.forth, k.id, false);
    AdvanceHolds(n, k, s, !k.forth, k.id, true);
    PartOfData(k.id, s.wire, k.id, false);
    PartOfAcks(k.id, s.acks, k.id, true);
    hide PipeOk, Held, Part, DataFrames, AckFrames, Enqueue, Link.AllWellFormed;
  }

  /** And to no other's. */
  lemma OtherLanes(n: Net, k: Key, s: Stream.State, k': Key)
    requires NetOk(n) && Advance(n, k, s).Some? && Link.AllWellFormed(DataFrames(k.id, s.wire))
    requires |s.wire| <= 1 && |s.acks| <= 1 && k' != k
    ensures
      var n' := Advance(n, k, s).value;
      && NetOk(n') && n'.streams == n.streams[k := Ends(s)]
      && Held(PipeOf(n', k'.forth), k'.id, false) == Held(PipeOf(n, k'.forth), k'.id, false)
      && Held(PipeOf(n', !k'.forth), k'.id, true) == Held(PipeOf(n, !k'.forth), k'.id, true)
  {
    AdvanceHolds(n, k, s, k'.forth, k'.id, false);
    AdvanceHolds(n, k, s, !k'.forth, k'.id, true);
    PartOfData(k.id, s.wire, k'.id, false);
    PartOfData(k.id, s.wire, k'.id, true);
    PartOfAcks(k.id, s.acks, k'.id, false);
    PartOfAcks(k.id, s.acks, k'.id, true);
    NilRight(Held(PipeOf(n, k'.forth), k'.id, false));
    NilRight(Held(PipeOf(n, !k'.forth), k'.id, true));
    hide PipeOk, Held, Part, DataFrames, AckFrames, Enqueue, Link.AllWellFormed;
  }

  /** A step of stream `k` is that step of the state it is related to. */
  lemma OwnStep(n: Net, k: Key, a: Stream.Action, t: Stream.State)
    requires NetOk(n) && LocalStep(n, k, a).Some? && Related(n, k, t)
    requires Link.AllWellFormed(DataFrames(k.id, Stream.Step(Ends(t), a).value.wire))
    ensures NetOk(LocalStep(n, k, a).value) && Stream.Step(t, a).Some?
    ensures Related(LocalStep(n, k, a).value, k, Stream.Step(t, a).value)
  {
    hide Stream.Step, Advance, NetOk, DataFrames, AckFrames, Held, PipeOf, Link.AllWellFormed;
    StepApart(t, a);
    var s := Stream.Step(Ends(t), a).value;
    OwnLanes(n, k, s);
    DataFramesAppend(k.id, t.wire, s.wire);
    AckFramesAppend(k.id, t.acks, s.acks);
  }

  /** It does not touch any other stream. */
  lemma OtherStep(n: Net, k: Key, a: Stream.Action, k': Key, t: Stream.State)
    requires NetOk(n) && LocalStep(n, k, a).Some? && Related(n, k', t) && k' != k
    requires Link.AllWellFormed(DataFrames(k.id, Stream.Step(n.streams[k], a).value.wire))
    requires |Stream.Step(n.streams[k], a).value.wire| <= 1 && |Stream.Step(n.streams[k], a).value.acks| <= 1
    ensures NetOk(LocalStep(n, k, a).value) && Related(LocalStep(n, k, a).value, k', t)
  {
    hide Stream.Step, Advance, NetOk, DataFrames, AckFrames, Held, PipeOf, Link.AllWellFormed;
    OtherLanes(n, k, Stream.Step(n.streams[k], a).value, k');
  }

  lemma OtherFrame(n: Net, forth: bool, f: Frame, k: Key, t: Stream.State)
    requires NetOk(n) && Step(n, Other(forth, f)).Some? && Related(n, k, t)
    ensures NetOk(Step(n, Other(forth, f)).value) && Related(Step(n, Other(forth, f)).value, k, t)
  {
    var p := PipeOf(n, forth);
    EnqueueAdds(p, [f], k.id, false);
    EnqueueAdds(p, [f], k.id, true);
    PartOne(f, k.id, false);
    PartOne(f, k.id, true);
    NilRight(Held(p, k.id, false));
    NilRight(Held(p, k.id, true));
    hide PipeOk, Held, Part, DataFrames, AckFrames, Enqueue, WellFormed;
  }

  lemma ServeStep(n: Net, forth: bool, k: Key, t: Stream.State)
    requires NetOk(n) && Related(n, k, t)
    ensures NetOk(Step(n, Serve(forth)).value) && Related(Step(n, Serve(forth)).value, k, t)
  {
    ServeHolds(PipeOf(n, forth), k.id, false);
    ServeHolds(PipeOf(n, forth), k.id, true);
    hide PipeOk, Held, Served, DataFrames, AckFrames;
  }

  lemma HandHolds(n: Net, forth: bool, dir: bool, id: i32, acks: bool)
    requires NetOk(n) && Head(PipeOf(n, forth)).Some?
    ensures
      var n', f := HandOut(n, forth), Head(PipeOf(n, forth)).value;
      && NetOk(n')
      && Held(PipeOf(n, dir), id, acks)
         == (if dir == forth && Wanted(f, id, acks) then [f] else []) + Held(PipeOf(n', dir), id, acks)
  {
    hide PipeOk, Held, Head, Wanted, Part;
    HandTakes(PipeOf(n, forth), id, acks);
    PartOne(Head(PipeOf(n, forth)).value, id, acks);
  }

  lemma FirstData(id: i32, wire: seq<Stream.Frame>, f: Frame, rest: seq<Frame>)
    requires DataFrames(id, wire) == [f] + rest
    ensures wire != [] && Link.Carried(f) == Some(wire[0]) && DataFrames(id, wire[1..]) == rest
  {
    assert |DataFrames(id, wire)| == 1 + |rest|;
    assert DataFrames(id, wire)[0] == f;
    forall i | 0 <= i < |rest| ensures DataFrames(id, wire[1..])[i] == rest[i] {
      assert rest[i] == DataFrames(id, wire)[i + 1];
    }
  }

  lemma FirstAck(id: i32, acks: seq<Stream.Ack>, f: Frame, rest: seq<Frame>)
    requires AckFrames(id, acks) == [f] + rest
    ensures acks != [] && Link.CarriedAck(f) == Some(acks[0]) && AckFrames(id, acks[1..]) == rest
  {
    assert |AckFrames(id, acks)| == 1 + |rest|;
    assert AckFrames(id, acks)[0] == f;
    Link.AckCarrierExact(id, acks[0]);
    forall i | 0 <= i < |rest| ensures AckFrames(id, acks[1..])[i] == rest[i] {
      assert rest[i] == AckFrames(id, acks)[i + 1];
    }
  }

  /** A frame of stream `k` that is handed out is the first on its wire: the stream delivers it. */
  lemma TakesData(n: Net, forth: bool, k: Key, t: Stream.State)
    requires NetOk(n) && Related(n, k, t) && ReceiveStep(n, forth).Some?
    requires Taker(n, forth, Head(PipeOf(n, forth)).value) == Some((k, Stream.Deliver))
    ensures NetOk(ReceiveStep(n, forth).value) && Stream.Step(t, Stream.Deliver).Some?
    ensures Related(ReceiveStep(n, forth).value, k, Stream.Step(t, Stream.Deliver).value)
  {
    hide Held, Head, DataFrames, AckFrames, Stream.Step, Link.AllWellFormed, Link.Carried, Link.CarriedAck,
         PriorityQueue.Sorted, PriorityQueue.CountOk;
    var f := Head(PipeOf(n, forth)).value;
    HandHolds(n, forth, k.forth, k.id, false);
    HandHolds(n, forth, !k.forth, k.id, true);
    FirstData(k.id, t.wire, f, Held(PipeOf(HandOut(n, forth), forth), k.id, false));
    DeliverApart(t);
  }

  /** The same for its acknowledgements. */
  lemma TakesAck(n: Net, forth: bool, k: Key, t: Stream.State)
    requires NetOk(n) && Related(n, k, t) && ReceiveStep(n, forth).Some?
    requires Taker(n, forth, Head(PipeOf(n, forth)).value) == Some((k, Stream.DeliverAck))
    ensures NetOk(ReceiveStep(n, forth).value) && Stream.Step(t, Stream.DeliverAck).Some?
    ensures Related(ReceiveStep(n, forth).value, k, Stream.Step(t, Stream.DeliverAck).value)
  {
    hide Held, Head, DataFrames, AckFrames, Stream.Step, Link.AllWellFormed,
         PriorityQueue.Sorted, PriorityQueue.CountOk;
    var f := Head(PipeOf(n, forth)).value;
    HandHolds(n, forth, k.forth, k.id, false);
    HandHolds(n, forth, !k.forth, k.id, true);
    FirstAck(k.id, t.acks, f, Held(PipeOf(HandOut(n, forth), forth), k.id, true));
    DeliverAckApart(t);
  }

  /** Any other frame passes stream `k` by. */
  lemma PassesBy(n: Net, forth: bool, k: Key, t: Stream.State)
    requires NetOk(n) && Related(n, k, t) && ReceiveStep(n, forth).Some?
    requires
      var taker := Taker(n, forth, Head(PipeOf(n, forth)).value);
      taker.None? || taker.value.0 != k
    ensures NetOk(ReceiveStep(n, forth).value) && Related(ReceiveStep(n, forth).value, k, t)
  {
    var f := Head(PipeOf(n, forth)).value;
    HandHolds(n, forth, k.forth, k.id, false);
    HandHolds(n, forth, !k.forth, k.id, true);
    hide PipeOk, Held, Head, DataFrames, AckFrames, Stream.Step, Given;
  }

  // ---- Every run ----

  ghost predicate Simulates(start: Net, es: seq<Event>, n: Net, k: Key)
    requires NetOk(n)
  {
    var run := Trace(start, es, k);
    Stream.Run(run).Some? && Related(n, k, Stream.Run(run).value)
  }

  lemma StepSimulates(n: Net, e: Event, k: Key, run: seq<Stream.Action>)
    requires NetOk(n) && Step(n, e).Some? && Stream.Run(run).Some? && Related(n, k, Stream.Run(run).value)
    requires e.Local? ==> |Stream.Step(n.streams[e.k], e.a).value.wire| <= 1
                          && |Stream.Step(n.streams[e.k], e.a).value.acks| <= 1
                          && Link.AllWellFormed(DataFrames(e.k.id, Stream.Step(n.streams[e.k], e.a).value.wire))
    ensures NetOk(Step(n, e).value)
    ensures
      var more := run + TraceOf(n, e, k);
      Stream.Run(more).Some? && Related(Step(n, e).value, k, Stream.Run(more).value)
  {
    hide PipeOk, Related, Advance, Stream.Step, Head, Taker, NetOk;
    var t := Stream.Run(run).value;
    NilRight(run);
    match e
    case Local(k', a) =>
      if k' == k {
        EndsAre(n, k, t);
        OwnStep(n, k, a, t);
        OneMore(run, a);
      } else {
        OtherStep(n, k', a, k, t);
      }
    case Other(forth, f) => OtherFrame(n, forth, f, k, t);
    case Serve(forth) => ServeStep(n, forth, k, t);
    case Receive(forth) =>
      var taker := Taker(n, forth, Head(PipeOf(n, forth)).value);
      if taker.Some? && taker.value.0 == k {
        OneMore(run, taker.value.1);
        TakerIs(n, forth, Head(PipeOf(n, forth)).value);
        if taker.value.1.Deliver? {
          TakesData(n, forth, k, t);
        } else {
          TakesAck(n, forth, k, t);
        }
      } else {
        PassesBy(n, forth, k, t);
      }
  }

  lemma EndsAre(n: Net, k: Key, t: Stream.State)
    requires NetOk(n) && Related(n, k, t)
    ensures k in n.streams && n.streams[k] == Ends(t)
  {
  }

  lemma TakerIs(n: Net, forth: bool, f: Frame)
    ensures
      var t := Taker(n, forth, f);
      t.Some? ==> t.value.1 == Stream.Deliver || t.value.1 == Stream.DeliverAck
  {
  }

  ghost predicate AllSimulated(start: Net, es: seq<Event>, keys: set<Key>) {
    && Run(start, es).Some?
    && NetOk(Run(start, es).value)
    && Run(start, es).value.streams.Keys == keys
    && forall k :: k in keys ==> Simulates(start, es, Run(start, es).value, k)
  }

  lemma StartSimulates(keys: set<Key>, maxForth: int, maxBack: int)
    ensures AllSimulated(Start(keys, maxForth, maxBack), [], keys)
  {
    var start := Start(keys, maxForth, maxBack);
    hide WellFormed;
    forall k | k in keys ensures Simulates(start, [], start, k) {
    }
  }

  lemma StepKeepsKeys(n: Net, e: Event)
    requires Step(n, e).Some?
    ensures Step(n, e).value.streams.Keys == n.streams.Keys
  {
    hide Stream.Step, Enqueue, Head, Given;
  }

  lemma StepKeepsOk(n: Net, e: Event)
    requires NetOk(n) && Step(n, e).Some?
    requires e.Local? ==> Link.AllWellFormed(DataFrames(e.k.id, Stream.Step(n.streams[e.k], e.a).value.wire))
    ensures NetOk(Step(n, e).value)
  {
    hide PipeOk, Held, Stream.Step, Head, WellFormed;
    match e
    case Local(k, a) =>
      AdvanceHolds(n, k, Stream.Step(n.streams[k], a).value, true, 0, false);
      AdvanceHolds(n, k, Stream.Step(n.streams[k], a).value, false, 0, false);
      hide Advance;
    case Other(forth, f) => EnqueueAdds(PipeOf(n, forth), [f], 0, false);
    case Serve(forth) => ServeHolds(PipeOf(n, forth), 0, false);
    case Receive(forth) => HandHolds(n, forth, forth, 0, false);
  }

  lemma EmittedOk(n: Net, e: Event, run: seq<Stream.Action>)
    requires e.Local? && Step(n, e).Some? && Stream.Run(run).Some? && n.streams[e.k] == Ends(Stream.Run(run).value)
    ensures |Stream.Step(n.streams[e.k], e.a).value.wire| <= 1
    ensures |Stream.Step(n.streams[e.k], e.a).value.acks| <= 1
    ensures Link.AllWellFormed(DataFrames(e.k.id, Stream.Step(n.streams[e.k], e.a).value.wire))
  {
    StepApart(Stream.Run(run).value, e.a);
    hide Stream.Step, Stream.Run;
    EmitsWellFormed(run, e.k, e.a, Stream.Step(n.streams[e.k], e.a).value);
  }

  lemma {:induction false} RunSimulates(keys: set<Key>, maxForth: int, maxBack: int, es: seq<Event>)
    requires Run(Start(keys, maxForth, maxBack), es).Some?
    ensures AllSimulated(Start(keys, maxForth, maxBack), es, keys)
  {
    var start := Start(keys, maxForth, maxBack);
    if es == [] {
      StartSimulates(keys, maxForth, maxBack);
    } else {
      var before, e := es[..|es| - 1], es[|es| - 1];
      RunSimulates(keys, maxForth, maxBack, before);
      LastEvent(start, es, keys);
    }
  }

  lemma LastEvent(start: Net, es: seq<Event>, keys: set<Key>)
    requires es != [] && Run(start, es).Some? && AllSimulated(start, es[..|es| - 1], keys)
    ensures AllSimulated(start, es, keys)
  {
    hide Stream.Run, Stream.Step, PipeOk, TraceOf;
    var before, e := es[..|es| - 1], es[|es| - 1];
    var n, n' := Run(start, before).value, Run(start, es).value;
    StepKeepsKeys(n, e);
    if e.Local? {
      assert Simulates(start, before, n, e.k);
      EmittedOk(n, e, Trace(start, before, e.k));
    }
    StepKeepsOk(n, e);
    hide Step, Related;
    forall k | k in keys ensures Simulates(start, es, n', k) {
      assert Simulates(start, before, n, k);
      StepSimulates(n, e, k, Trace(start, before, k));
    }
  }

  /** In any run of the link, whatever its other streams do and whatever else it carries, every
      stream is where one run of the stream model of its own takes it, and what the link holds of it
      is that model's wire, until it is read to its end, and its acknowledgements, until it is
      closed. */
  lemma RefinesStreams(keys: set<Key>, maxForth: int, maxBack: int, es: seq<Event>, k: Key)
    requires Run(Start(keys, maxForth, maxBack), es).Some? && k in keys
    ensures
      var start := Start(keys, maxForth, maxBack);
      var n, run := Run(start, es).value, Trace(start, es, k);
      && NetOk(n) && k in n.streams && Stream.Run(run).Some?
      && var t := Stream.Run(run).value;
         && n.streams[k] == Ends(t)
         && (!t.rcv.reader.Ended? ==> Held(PipeOf(n, k.forth), k.id, false) == DataFrames(k.id, t.wire))
         && (!t.snd.closed ==> Held(PipeOf(n, !k.forth), k.id, true) == AckFrames(k.id, t.acks))
  {
    hide Stream.Run, NetOk;
    RunSimulates(keys, maxForth, maxBack, es);
    assert Simulates(Start(keys, maxForth, maxBack), es, Run(Start(keys, maxForth, maxBack), es).value, k);
  }
}
