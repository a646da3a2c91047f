/** `priorityQueue`: three FIFO chains and a counter that keeps the lowest class from starving.
    Each chain is a FIFO of frames (module Chain). */
module PriorityQueue {
  import opened Options
  import opened Sequences
  import opened Frames

  const MAX_STARVING: nat := 8

  type u8 = n: int | 0 <= n < 256

  datatype Class = High | Middle | Low

  function ClassOf(p: Frame): Class {
    if Flag(p) == PING || Flag(p) == PING_RETURN then High
    else if Flag(p) == NEW_CONN || Flag(p) == NEW_CONN_OK || Flag(p) == NEW_CONN_FAIL then Middle
    else Low
  }

  datatype Queues = Queues(
    high: seq<Frame>,
    middle: seq<Frame>,
    low: seq<Frame>,
    starving: u8,
    length: int,
    maxLength: int)

  function Waiting(q: Queues, c: Class): seq<Frame> {
    match c
    case High => q.high
    case Middle => q.middle
    case Low => q.low
  }

  function WithWaiting(q: Queues, c: Class, ps: seq<Frame>): Queues {
    match c
    case High => q.(high := ps)
    case Middle => q.(middle := ps)
    case Low => q.(low := ps)
  }

  predicate Accepts(q: Queues) {
    q.maxLength <= 0 || q.length < q.maxLength
  }

  function Pushed(q: Queues, p: Frame): Queues {
    if !Accepts(q) then q
    else
      var q1 := if q.maxLength > 0 then q.(length := q.length + 1) else q;
      WithWaiting(q1, ClassOf(p), Waiting(q1, ClassOf(p)) + [p])
  }

  /** The class the next pop serves. */
  function Next(q: Queues): Option<Class> {
    if q.high != [] then Some(High)
    else if q.middle != [] && (q.starving < MAX_STARVING || q.low == []) then Some(Middle)
    else if q.low != [] then Some(Low)
    else None
  }

  function Popped(q: Queues): Queues {
    match Next(q)
    case None => q
    case Some(c) =>
      var q1 := WithWaiting(q, c, Waiting(q, c)[1..]).(length := q.length - 1);
      match c
      case High => q1
      case Middle => q1.(starving := (q.starving + 1) % 256)
      case Low => q1.(starving := q.starving / 2)
  }

  function Front(q: Queues): Option<Frame> {
    match Next(q)
    case None => None
    case Some(c) => Some(Waiting(q, c)[0])
  }

  class Queue {
    var highestChain: seq<Frame>
    var middleChain: seq<Frame>
    var lowestChain: seq<Frame>
    var starving: u8
    var length: int
    var maxLength: int

    ghost function View(): Queues
      reads this
    {
      Queues(highestChain, middleChain, lowestChain, starving, length, maxLength)
    }

    constructor (writeQueueMax: int)
      ensures View() == Queues([], [], [], 0, 0, writeQueueMax)
    {
      highestChain, middleChain, lowestChain := [], [], [];
      starving, length, maxLength := 0, 0, writeQueueMax;
    }

    method SetMaxLength(max: int)
      modifies this`maxLength
      ensures View() == if max >= 0 then old(View()).(maxLength := max) else old(View())
    {
      if max >= 0 {
        maxLength := max;
      }
    }

    /** Returns whether the frame was refused because the queue is at its limit. */
    method Push(packager: Frame) returns (overflow: bool)
      modifies this
      ensures overflow <==> !Accepts(old(View()))
      ensures View() == Pushed(old(View()), packager)
    {
      if maxLength > 0 {
        var cur := length;
        if cur >= maxLength {
          return true;
        }
        length := cur + 1;
      }
      if Flag(packager) == PING || Flag(packager) == PING_RETURN {
        highestChain := highestChain + [packager];
      } else if Flag(packager) == NEW_CONN || Flag(packager) == NEW_CONN_OK || Flag(packager) == NEW_CONN_FAIL {
        middleChain := middleChain + [packager];
      } else {
        lowestChain := lowestChain + [packager];
      }
      return false;
    }

    method TryPop() returns (packager: Option<Frame>)
      modifies this
      ensures packager == Front(old(View()))
      ensures View() == Popped(old(View()))
    {
      if highestChain != [] {
        length := length - 1;
        packager, highestChain := Some(highestChain[0]), highestChain[1..];
        return;
      }
      if starving < MAX_STARVING {
        if middleChain != [] {
          length := length - 1;
          packager, middleChain := Some(middleChain[0]), middleChain[1..];
          starving := (starving + 1) % 256;
          return;
        }
      }
      if lowestChain != [] {
        length := length - 1;
        packager, lowestChain := Some(lowestChain[0]), lowestChain[1..];
        if starving > 0 {
          starving := starving / 2;
        }
        return;
      }
      if starving > 0 {
        if middleChain != [] {
          length := length - 1;
          packager, middleChain := Some(middleChain[0]), middleChain[1..];
          starving := (starving + 1) % 256;
          return;
        }
      }
      packager := None;
    }
  }

  // ---- Runs of pushes and pops ----

  datatype Event = Arrive(p: Frame) | Serve

  /** A queue with the frames it has accepted and served so far. */
  datatype Log = Log(q: Queues, accepted: seq<Frame>, served: seq<Frame>)

  function After(l: Log, e: Event): Log {
    match e
    case Arrive(p) => Log(Pushed(l.q, p), if Accepts(l.q) then l.accepted + [p] else l.accepted, l.served)
    case Serve => Log(Popped(l.q), l.accepted, if Front(l.q).Some? then l.served + [Front(l.q).value] else l.served)
  }

  function Run(l: Log, es: seq<Event>): Log {
    if es == [] then l else After(Run(l, es[..|es| - 1]), es[|es| - 1])
  }

  function OfClass(ps: seq<Frame>, c: Class): seq<Frame> {
    if ps == [] then []
    else OfClass(ps[..|ps| - 1], c) + (if ClassOf(ps[|ps| - 1]) == c then [ps[|ps| - 1]] else [])
  }

  function Fresh(maxLength: int): Log {
    Log(Queues([], [], [], 0, 0, maxLength), [], [])
  }

  ghost predicate Sorted(q: Queues) {
    forall c, i :: 0 <= i < |Waiting(q, c)| ==> ClassOf(Waiting(q, c)[i]) == c
  }

  lemma OfClassPush(ps: seq<Frame>, p: Frame, c: Class)
    ensures OfClass(ps + [p], c) == OfClass(ps, c) + (if ClassOf(p) == c then [p] else [])
  {
    assert (ps + [p])[..|ps|] == ps;
  }

  /** Nothing is served exactly when all three classes are empty, whatever the counter holds. */
  lemma NilIffEmpty(q: Queues)
    ensures Front(q).None? <==> q.high == [] && q.middle == [] && q.low == []
  {
  }

  /** What of class `c` was served, then what of it waits, is what of it was accepted. */
  ghost predicate Fifo(l: Log, c: Class) {
    OfClass(l.served, c) + Waiting(l.q, c) == OfClass(l.accepted, c)
  }

  lemma ArriveKeepsFifo(l: Log, p: Frame, c: Class)
    requires Fifo(l, c)
    ensures Fifo(After(l, Arrive(p)), c)
  {
    OfClassPush(l.accepted, p, c);
    hide OfClass;
    hide ClassOf;
    if Accepts(l.q) {
      Assoc(OfClass(l.served, c), Waiting(l.q, c), [p]);
      NilRight(OfClass(l.accepted, c));
    }
  }

  lemma ServeKeepsFifo(l: Log, c: Class)
    requires Sorted(l.q) && Fifo(l, c)
    ensures Fifo(After(l, Serve), c)
  {
    hide OfClass;
    hide ClassOf;
    hide Flag;
    if Next(l.q).Some? {
      var d := Next(l.q).value;
      var p := Waiting(l.q, d)[0];
      OfClassPush(l.served, p, c);
      assert ClassOf(p) == d;
      if c == d {
        assert Waiting(l.q, c) == [p] + Waiting(l.q, c)[1..];
        Assoc(OfClass(l.served, c), [p], Waiting(l.q, c)[1..]);
      } else {
        NilRight(OfClass(l.served, c));
      }
    }
  }

  lemma EventKeepsSorted(l: Log, e: Event)
    requires Sorted(l.q)
    ensures Sorted(After(l, e).q)
  {
    var q' := After(l, e).q;
    forall c, i | 0 <= i < |Waiting(q', c)| ensures ClassOf(Waiting(q', c)[i]) == c {
      if e.Serve? && Next(l.q) == Some(c) {
        assert Waiting(q', c)[i] == Waiting(l.q, c)[i + 1];
      } else if i < |Waiting(l.q, c)| {
        assert Waiting(q', c)[i] == Waiting(l.q, c)[i];
      }
    }
  }

  /** Each class is served in arrival order: what was served of it and what waits is what was
      accepted of it. */
  lemma {:induction false} EachClassFifo(maxLength: int, es: seq<Event>, c: Class)
    ensures
      var l := Run(Fresh(maxLength), es);
      OfClass(l.served, c) + Waiting(l.q, c) == OfClass(l.accepted, c)
  {
    RunFifo(maxLength, es);
    assert Fifo(Run(Fresh(maxLength), es), c);
  }

  lemma {:induction false} RunFifo(maxLength: int, es: seq<Event>)
    ensures
      var l := Run(Fresh(maxLength), es);
      Sorted(l.q) && forall c :: Fifo(l, c)
  {
    if es != [] {
      RunFifo(maxLength, es[..|es| - 1]);
      var l, e := Run(Fresh(maxLength), es[..|es| - 1]), es[|es| - 1];
      hide Run;
      hide OfClass;
      forall c ensures Fifo(After(l, e), c) {
        if e.Arrive? {
          ArriveKeepsFifo(l, e.p, c);
        } else {
          ServeKeepsFifo(l, c);
        }
      }
      EventKeepsSorted(l, e);
    }
  }

  function Queued(q: Queues): nat {
    |q.high| + |q.middle| + |q.low|
  }

  /** A limited queue counts its frames and keeps its limit. */
  predicate CountOk(q: Queues) {
    q.maxLength > 0 ==> q.length == Queued(q) <= q.maxLength
  }

  lemma EventCounts(l: Log, e: Event)
    requires CountOk(l.q)
    ensures CountOk(After(l, e).q) && After(l, e).q.maxLength == l.q.maxLength
  {
    hide ClassOf;
  }

  /** A queue that refuses a frame has one to serve. */
  lemma RefusesOnlyBusy(q: Queues)
    requires CountOk(q) && !Accepts(q)
    ensures Front(q).Some?
  {
  }

  /** With a positive limit the counter is the number of queued frames, never exceeds the limit,
      and a push is refused exactly on a full queue. */
  lemma {:induction false} LengthExact(maxLength: int, es: seq<Event>)
    requires maxLength > 0
    ensures
      var q := Run(Fresh(maxLength), es).q;
      && q.maxLength == maxLength
      && q.length == Queued(q) <= maxLength
      && (Accepts(q) <==> Queued(q) < maxLength)
  {
    if es != [] {
      LengthExact(maxLength, es[..|es| - 1]);
      var l, e := Run(Fresh(maxLength), es[..|es| - 1]), es[|es| - 1];
      assert Run(Fresh(maxLength), es) == After(l, e);
      hide Run, ClassOf;
      EventCounts(l, e);
    }
  }

  // ---- No starvation ----

  /** A serve that passes over waiting low frames for a middle one. */
  predicate PassesOver(q: Queues) {
    q.high == [] && q.low != [] && Next(q) == Some(Middle)
  }

  function Serves(es: seq<Event>): nat {
    if es == [] then 0 else Serves(es[..|es| - 1]) + if es[|es| - 1].Serve? then 1 else 0
  }

  lemma PassOverCounts(l: Log, e: Event)
    requires e.Serve? ==> PassesOver(l.q)
    ensures After(l, e).q.starving == l.q.starving + if e.Serve? then 1 else 0
    ensures e.Serve? ==> l.q.starving < MAX_STARVING
  {
  }

  /** While a low frame waits and no high one does, at most 8 middle frames in a row go before
      it, from any state and with any arrivals in between. */
  lemma {:induction false} AtMostEightPassOver(l: Log, es: seq<Event>)
    requires forall i :: 0 <= i < |es| && es[i].Serve? ==> PassesOver(Run(l, es[..i]).q)
    ensures Serves(es) <= MAX_STARVING
    ensures Serves(es) > 0 ==> Run(l, es).q.starving == l.q.starving + Serves(es) <= MAX_STARVING
    ensures Serves(es) == 0 ==> Run(l, es).q.starving == l.q.starving
  {
    hide Run, Serves, After, PassesOver, LowServes, ServesLow;
    if es == [] {
      NoEvents(l);
    } else {
      var before, e := es[..|es| - 1], es[|es| - 1];
      forall i | 0 <= i < |before| && before[i].Serve? ensures PassesOver(Run(l, before[..i]).q) {
        assert before[..i] == es[..i];
      }
      AtMostEightPassOver(l, before);
      LastEvent(l, es);
      PassOverCounts(Run(l, before), e);
    }
  }

  /** How many serves, at most, until the low frame with `ahead` low frames in front is served. */
  function Patience(starving: u8, ahead: nat): nat {
    (if starving < MAX_STARVING then MAX_STARVING - starving else 0) + 5 * ahead + 1
  }

  /** Every serve without a high frame serves a low one or brings the waiting ones nearer. */
  lemma ServeAdvances(q: Queues, ahead: nat)
    requires q.high == [] && ahead < |q.low|
    ensures
      || (Next(q) == Some(Low) && Popped(q).low == q.low[1..] && Front(q) == Some(q.low[0])
          && (ahead > 0 ==> Patience(Popped(q).starving, ahead - 1) < Patience(q.starving, ahead)))
      || (Next(q) == Some(Middle) && Popped(q).low == q.low
          && Patience(Popped(q).starving, ahead) < Patience(q.starving, ahead))
  {
  }

  predicate ServesLow(q: Queues, e: Event) {
    e.Serve? && Next(q) == Some(Low)
  }

  /** How many of the serves of a run serve a low frame. */
  function LowServes(l: Log, es: seq<Event>): nat {
    if es == [] then 0
    else LowServes(l, es[..|es| - 1]) + if ServesLow(Run(l, es[..|es| - 1]).q, es[|es| - 1]) then 1 else 0
  }

  /** A run of at least one event is a shorter run and one event. */
  lemma LastEvent(l: Log, es: seq<Event>)
    requires es != []
    ensures
      var before, e := es[..|es| - 1], es[|es| - 1];
      var m := Run(l, before);
      && Run(l, es) == After(m, e)
      && LowServes(l, es) == LowServes(l, before) + (if ServesLow(m.q, e) then 1 else 0)
      && Serves(es) == Serves(before) + (if e.Serve? then 1 else 0)
  {
    hide After, ServesLow;
  }

  lemma NoEvents(l: Log)
    ensures Run(l, []) == l && LowServes(l, []) == 0 && Serves([]) == 0
  {
  }

  lemma EventBringsNearer(q: Queues, m: Log, ahead: nat, low: nat, serves: nat, e: Event)
    requires ahead < |q.low| <= |m.q.low| + low
    requires low <= ahead ==> Patience(m.q.starving, ahead - low) + serves <= Patience(q.starving, ahead)
    requires e.Serve? ==> m.q.high == []
    ensures
      var m' := After(m, e);
      var low' := low + if ServesLow(m.q, e) then 1 else 0;
      && |q.low| <= |m'.q.low| + low'
      && (low' <= ahead ==>
            Patience(m'.q.starving, ahead - low') + serves + (if e.Serve? then 1 else 0) <= Patience(q.starving, ahead))
  {
    if e.Serve? {
      if low <= ahead {
        ServeAdvances(m.q, ahead - low);
      }
    } else {
      hide Patience;
    }
  }

  /** While at most `ahead` low frames have been served, the patience left covers the serves made. */
  lemma {:induction false} LowComesNearer(l: Log, es: seq<Event>, ahead: nat)
    requires ahead < |l.q.low|
    requires forall i :: 0 <= i < |es| && es[i].Serve? ==> Run(l, es[..i]).q.high == []
    ensures
      var m, low := Run(l, es), LowServes(l, es);
      && |l.q.low| <= |m.q.low| + low
      && (low <= ahead ==> Patience(m.q.starving, ahead - low) + Serves(es) <= Patience(l.q.starving, ahead))
  {
    hide Run, LowServes, Serves, Patience, After, ServesLow;
    if es == [] {
      NoEvents(l);
    } else {
      var before, e := es[..|es| - 1], es[|es| - 1];
      forall i | 0 <= i < |before| && before[i].Serve? ensures Run(l, before[..i]).q.high == [] {
        assert before[..i] == es[..i];
      }
      LowComesNearer(l, before, ahead);
      LastEvent(l, es);
      EventBringsNearer(l.q, Run(l, before), ahead, LowServes(l, before), Serves(before), e);
    }
  }

  /** What a run takes from the low queue: as many frames as it has low serves, in queue order. */
  ghost predicate LowTaken(l: Log, m: Log, low: nat, taken: seq<Frame>, arrived: seq<Frame>) {
    && |taken| == low
    && OfClass(m.served, Low) == OfClass(l.served, Low) + taken
    && taken + m.q.low == l.q.low + arrived
  }

  lemma EventTakes(l: Log, m: Log, low: nat, taken: seq<Frame>, arrived: seq<Frame>, e: Event)
    returns (taken': seq<Frame>, arrived': seq<Frame>)
    requires Sorted(m.q) && LowTaken(l, m, low, taken, arrived)
    ensures LowTaken(l, After(m, e), low + (if ServesLow(m.q, e) then 1 else 0), taken', arrived')
  {
    hide OfClass, ClassOf, Flag;
    taken', arrived' := taken, arrived;
    if e.Arrive? {
      if Accepts(m.q) && ClassOf(e.p) == Low {
        arrived' := arrived + [e.p];
        Assoc(taken, m.q.low, [e.p]);
        Assoc(l.q.low, arrived, [e.p]);
      }
    } else if Next(m.q).Some? {
      var c := Next(m.q).value;
      var p := Waiting(m.q, c)[0];
      assert ClassOf(p) == c;
      OfClassPush(m.served, p, Low);
      if c == Low {
        taken' := taken + [p];
        assert m.q.low == [p] + m.q.low[1..];
        Assoc(taken, [p], m.q.low[1..]);
        Assoc(OfClass(l.served, Low), taken, [p]);
      } else {
        NilRight(OfClass(m.served, Low));
      }
    }
  }

  lemma {:induction false} LowInOrder(l: Log, es: seq<Event>) returns (taken: seq<Frame>, arrived: seq<Frame>)
    requires Sorted(l.q)
    ensures Sorted(Run(l, es).q) && LowTaken(l, Run(l, es), LowServes(l, es), taken, arrived)
  {
    hide Run, LowServes, Serves, After, Sorted, OfClass, ServesLow;
    if es == [] {
      taken, arrived := [], [];
      NoEvents(l);
      NilRight(OfClass(l.served, Low));
      NilRight(l.q.low);
    } else {
      hide LowTaken;
      var before, e := es[..|es| - 1], es[|es| - 1];
      taken, arrived := LowInOrder(l, before);
      LastEvent(l, es);
      EventKeepsSorted(Run(l, before), e);
      taken, arrived := EventTakes(l, Run(l, before), LowServes(l, before), taken, arrived, e);
    }
  }

  /** No low frame starves: over any run with 9 + 5 * ahead serves, none of which meets a high
      frame, more than `ahead` low frames are served, whatever arrives meanwhile, and so the frames
      at places 0 to `ahead` of the low queue are the next low frames to have gone out. */
  lemma LowServedInTime(l: Log, es: seq<Event>, ahead: nat)
    requires Sorted(l.q) && ahead < |l.q.low|
    requires forall i :: 0 <= i < |es| && es[i].Serve? ==> Run(l, es[..i]).q.high == []
    requires Serves(es) >= 9 + 5 * ahead
    ensures LowServes(l, es) > ahead
    ensures OfClass(l.served, Low) + l.q.low[..ahead + 1] <= OfClass(Run(l, es).served, Low)
  {
    hide Run, OfClass, LowServes, Serves, ClassOf, Sorted;
    LowComesNearer(l, es, ahead);
    var taken, arrived := LowInOrder(l, es);
    var m := Run(l, es);
    assert (taken + m.q.low)[..ahead + 1] == taken[..ahead + 1];
    assert (l.q.low + arrived)[..ahead + 1] == l.q.low[..ahead + 1];
  }
}
