/** `bufChain`: a growing chain of rings with one producer and one consumer, at the granularity
    of its atomic operations. The rings are numbered in creation order; `linked` of them can be
    reached through next pointers. `pushed` and `got` are histories: the values of finished
    pushes in call order, and the values that pops have returned. */
module Chain {
  import opened Options
  import opened Sequences
  import opened Words
  import Ring

  /** Where the producer is inside `pushHead`. */
  datatype Producer<V> =
    | Idle
    | Gate(val: V)
    | InRing(d: nat, val: V)
    | Growing(d: nat, val: V)
    | Made(d: nat, val: V)
    | Headed(d: nat, val: V)
    | Linked(val: V)

  /** Where the consumer is inside `popTail`. `sawNext` is the next pointer it loaded before
      popping; `wasEmpty` records whether the queue was empty when it loaded it. */
  datatype Consumer =
    | Resting
    | On(d: nat)
    | Popping(d: nat, sawNext: bool, wasEmpty: bool)
    | Dry(d: nat, sawNext: bool, wasEmpty: bool)

  datatype State<V> = State(
    rings: seq<Ring.State<V>>,
    head: nat,
    tail: nat,
    linked: nat,
    newChain: bool,
    prod: Producer<V>,
    cons: Consumer,
    pushed: seq<V>,
    got: seq<V>)

  datatype Action<V> =
    | Push(val: V)
    | LoadHead
    | RingPush(a: Ring.Action<V>)
    | Grow
    | StoreHead
    | StoreNext
    | Unlock
    | Pop
    | LoadNext
    | RingPop(a: Ring.Action<V>)
    | Settle

  function Fresh<V>(n: nat): State<V> {
    State([Ring.Fresh(n, 1)], 0, 0, 1, false, Idle, Resting, [], [])
  }

  function Doubled(n: nat): nat {
    if 2 * n >= Ring.RING_LIMIT then Ring.RING_LIMIT else 2 * n
  }

  /** A private ring after its builder has pushed one value into it (FilledIsPush). */
  function Filled<V>(n: nat, val: V): Ring.State<V> {
    Ring.State(PackPair(1, 0), seq(n, i => if i == 0 then Some(val) else None),
               [Ring.Producer.Idle], Ring.Consumer.Resting, [val], [])
  }

  // ---- One function an atomic operation; None when the goroutine is not at it ----

  function BeginPush<V>(s: State<V>, val: V): Option<State<V>> {
    if s.prod.Idle? then Some(s.(prod := Gate(val))) else None
  }

  function LoadHeadRing<V(==)>(s: State<V>): Option<State<V>> {
    if s.prod.Gate? && !s.newChain && s.head < |s.rings| then
      match Ring.Step(s.rings[s.head], Ring.Begin(0, s.prod.val))
      case Some(r) => Some(s.(rings := s.rings[s.head := r], prod := InRing(s.head, s.prod.val)))
      case None => None
    else None
  }

  function RingPushStep<V(==)>(s: State<V>, ra: Ring.Action<V>): Option<State<V>> {
    if s.prod.InRing? && s.prod.d < |s.rings| && 
      (ra == Ring.Load(0) || ra == Ring.Claim(0) || ra == Ring.Publish(0)) then
      match Ring.Step(s.rings[s.prod.d], ra)
      case None => None
      case Some(r) =>
        var s1 := s.(rings := s.rings[s.prod.d := r]);
        if ra.Publish? then Some(s1.(prod := Idle, pushed := s.pushed + [s.prod.val]))
        else if |r.prods| > 0 && r.prods[0].Idle? then Some(s1.(prod := Growing(s.prod.d, s.prod.val)))
        else Some(s1)
    else None
  }

  /** Take the flag; the new ring and the push into it are private until it is published. */
  function GrowChain<V>(s: State<V>): Option<State<V>> {
    if s.prod.Growing? && s.prod.d < |s.rings| then
      if s.newChain then Some(s.(prod := Gate(s.prod.val)))
      else
        Some(s.(newChain := true, prod := Made(s.prod.d, s.prod.val),
                rings := s.rings + [Filled(Doubled(|s.rings[s.prod.d].vals|), s.prod.val)]))
    else None
  }

  function PublishHead<V>(s: State<V>): Option<State<V>> {
    if s.prod.Made? && |s.rings| > 0 then
      Some(s.(head := |s.rings| - 1, prod := Headed(s.prod.d, s.prod.val)))
    else None
  }

  function PublishNext<V>(s: State<V>): Option<State<V>> {
    if s.prod.Headed? then Some(s.(linked := s.prod.d + 2, prod := Linked(s.prod.val))) else None
  }

  function EndGrow<V>(s: State<V>): Option<State<V>> {
    if s.prod.Linked? then
      Some(s.(newChain := false, prod := Idle, pushed := s.pushed + [s.prod.val]))
    else None
  }

  function BeginPop<V>(s: State<V>): Option<State<V>> {
    if s.cons.Resting? then Some(s.(cons := On(s.tail))) else None
  }

  /** Load the next pointer before popping, then enter the ring's pop. */
  function LoadNextPointer<V(==)>(s: State<V>): Option<State<V>> {
    if s.cons.On? && s.cons.d < |s.rings| then
      match Ring.Step(s.rings[s.cons.d], Ring.StartPop)
      case Some(r) =>
        Some(s.(rings := s.rings[s.cons.d := r],
                cons := Popping(s.cons.d, s.cons.d + 1 < s.linked, Empty(s))))
      case None => None
    else None
  }

  function RingPopStep<V(==)>(s: State<V>, ra: Ring.Action<V>): Option<State<V>> {
    if s.cons.Popping? && s.cons.d < |s.rings| && (ra.Poll? || ra.Look? || ra.Take? || ra.Advance?) then
      var before := s.rings[s.cons.d];
      match Ring.Step(before, ra)
      case None => None
      case Some(r) =>
        var s1 := s.(rings := s.rings[s.cons.d := r]);
        if ra.Advance? && before.cons.Taken? then Some(s1.(cons := Resting, got := s.got + [before.cons.val]))
        else if ra.Poll? && r.cons.Resting? then Some(s1.(cons := Dry(s.cons.d, s.cons.sawNext, s.cons.wasEmpty)))
        else Some(s1)
    else None
  }

  /** Return nothing, or drop the drained ring and go on to the next one. */
  function LeaveDryRing<V>(s: State<V>): Option<State<V>> {
    if s.cons.Dry? then
      if s.cons.sawNext then
        Some(s.(cons := On(s.cons.d + 1), tail := if s.tail == s.cons.d then s.cons.d + 1 else s.tail))
      else
        Some(s.(cons := Resting))
    else None
  }

  function Step<V(==)>(s: State<V>, a: Action<V>): Option<State<V>> {
    match a
    case Push(val) => BeginPush(s, val)
    case LoadHead => LoadHeadRing(s)
    case RingPush(ra) => RingPushStep(s, ra)
    case Grow => GrowChain(s)
    case StoreHead => PublishHead(s)
    case StoreNext => PublishNext(s)
    case Unlock => EndGrow(s)
    case Pop => BeginPop(s)
    case LoadNext => LoadNextPointer(s)
    case RingPop(ra) => RingPopStep(s, ra)
    case Settle => LeaveDryRing(s)
  }

  function Run<V(==)>(n: nat, run: seq<Action<V>>): Option<State<V>> {
    if run == [] then Some(Fresh(n))
    else
      var before := Run(n, run[..|run| - 1]);
      if before.None? then None else Step(before.value, run[|run| - 1])
  }

  // ---- The abstract queue ----

  /** The values claimed in the first `k` rings, in order. */
  function Claims<V>(rings: seq<Ring.State<V>>, k: nat): seq<V>
    requires k <= |rings|
  {
    if k == 0 then [] else Claims(rings, k - 1) + rings[k - 1].claimed
  }

  /** Every value that has entered the queue: claimed in a ring that next pointers reach. */
  function Entered<V>(s: State<V>): seq<V> {
    if s.linked <= |s.rings| then Claims(s.rings, s.linked) else []
  }

  /** Every value that has left it: all of the rings before the tail, and the tail ring's pops. */
  function Left<V>(s: State<V>): seq<V> {
    if s.tail < |s.rings| then Claims(s.rings, s.tail) + s.rings[s.tail].popped else []
  }

  predicate Empty<V>(s: State<V>) {
    |Left(s)| >= |Entered(s)|
  }

  function Queue<V>(s: State<V>): seq<V> {
    if Empty(s) then [] else Entered(s)[|Left(s)|..]
  }

  /** The value of a push that has taken effect but not returned. */
  function Pending<V>(s: State<V>): seq<V> {
    match s.prod
    case InRing(d, val) =>
      if d < |s.rings| && |s.rings[d].prods| > 0 && s.rings[d].prods[0].Claimed? then [val] else []
    case Linked(val) => [val]
    case _ => []
  }

  /** The value of a pop that has taken effect but not returned. */
  function InHand<V>(s: State<V>): seq<V> {
    if s.cons.Popping? && s.cons.d < |s.rings| && s.rings[s.cons.d].cons.Taken?
    then [s.rings[s.cons.d].cons.val] else []
  }

  // ---- Invariant ----

  ghost predicate RingOk<V>(r: Ring.State<V>) {
    Ring.Inv(r) && |r.prods| == 1
  }

  ghost predicate LinksOk<V>(s: State<V>) {
    && s.tail < s.linked <= |s.rings|
    && (forall i :: 0 <= i < |s.rings| ==> RingOk(s.rings[i]))
    && (s.newChain <==> s.prod.Made? || s.prod.Headed? || s.prod.Linked?)
    && |s.rings| == s.linked + (if s.prod.Made? || s.prod.Headed? then 1 else 0)
    && s.head == s.linked - (if s.prod.Headed? then 0 else 1)
  }

  ghost predicate ProducerOk<V>(s: State<V>)
    requires LinksOk(s)
  {
    && (forall i :: 0 <= i < |s.rings| && !(s.prod.InRing? && s.prod.d == i) ==> s.rings[i].prods[0].Idle?)
    && match s.prod
       case InRing(d, val) =>
         && d == s.head
         && match s.rings[d].prods[0] {
            case Idle => false
            case Want(v) => v == val
            case Loaded(v, _) => v == val
            case Claimed(v, _, _) => v == val
            }
       case Growing(d, _) => d == s.head
       case Made(d, val) => d == s.linked - 1 && s.rings[s.linked].claimed == [val]
       case Headed(d, val) => d == s.linked - 1 && s.rings[s.linked].claimed == [val]
       case _ => true
  }

  ghost predicate ConsumerOk<V>(s: State<V>)
    requires LinksOk(s)
  {
    && (forall i :: 0 <= i < s.tail ==> s.rings[i].popped == s.rings[i].claimed)
    && (forall i :: s.tail < i < |s.rings| ==> s.rings[i].popped == [])
    && (forall i :: 0 <= i < |s.rings| && !(s.cons.Popping? && s.tail == i) ==> s.rings[i].cons.Resting?)
    && match s.cons
       case Resting => true
       case On(d) => d == s.tail
       case Popping(d, sawNext, wasEmpty) =>
         && d == s.tail && !s.rings[d].cons.Resting?
         && (if sawNext then d + 1 < s.linked
             else wasEmpty || Ring.Advanced(s.rings[d]) < |s.rings[d].claimed|)
       case Dry(d, sawNext, wasEmpty) =>
         && d == s.tail
         && (if sawNext then d + 1 < s.linked && s.rings[d].popped == s.rings[d].claimed else wasEmpty)
  }

  ghost predicate HistoryOk<V>(s: State<V>) {
    && Entered(s) == s.pushed + Pending(s)
    && Left(s) == s.got + InHand(s)
  }

  ghost predicate Inv<V>(s: State<V>) {
    LinksOk(s) && ProducerOk(s) && ConsumerOk(s) && HistoryOk(s)
  }

  // ---- Facts about claims ----

  lemma {:induction false} ClaimsSame<V>(rs: seq<Ring.State<V>>, rs': seq<Ring.State<V>>, k: nat)
    requires k <= |rs| && k <= |rs'|
    requires forall i :: 0 <= i < k ==> rs'[i].claimed == rs[i].claimed
    ensures Claims(rs', k) == Claims(rs, k)
  {
    if k > 0 {
      ClaimsSame(rs, rs', k - 1);
    }
  }

  lemma {:induction false} ClaimsGrow<V>(rs: seq<Ring.State<V>>, j: nat, k: nat)
    requires j <= k <= |rs|
    ensures Claims(rs, j) <= Claims(rs, k)
    decreases k
  {
    if j < k {
      ClaimsGrow(rs, j, k - 1);
    }
  }

  lemma ClaimsAfter<V>(rs: seq<Ring.State<V>>, d: nat, r: Ring.State<V>, v: seq<V>)
    requires d < |rs| && r.claimed == rs[d].claimed + v
    ensures Claims(rs[d := r], d + 1) == Claims(rs, d + 1) + v
  {
    ClaimsSame(rs, rs[d := r], d);
    Assoc(Claims(rs, d), rs[d].claimed, v);
  }

  /** What has left is a prefix of what has entered. */
  lemma LeftIsPrefix<V>(s: State<V>)
    requires LinksOk(s)
    ensures Left(s) <= Entered(s)
    ensures s.tail + 1 == s.linked ==>
              (Empty(s) <==> s.rings[s.tail].popped == s.rings[s.tail].claimed)
  {
    hide Ring.Inv;
    assert RingOk(s.rings[s.tail]);
    Ring.InvFacts(s.rings[s.tail]);
    ClaimsGrow(s.rings, s.tail + 1, s.linked);
    assert Claims(s.rings, s.tail + 1) == Claims(s.rings, s.tail) + s.rings[s.tail].claimed;
  }

  /** The builder's private push, step by step. */
  lemma FilledIsPush<V>(n: nat, val: V)
    requires Ring.ValidSize(n)
    ensures
      var r0 := Ring.Fresh<V>(n, 1);
      var r1 := Ring.Step(r0, Ring.Begin(0, val));
      var r2 := if r1.Some? then Ring.Step(r1.value, Ring.Load(0)) else None;
      var r3 := if r2.Some? then Ring.Step(r2.value, Ring.Claim(0)) else None;
      var r4 := if r3.Some? then Ring.Step(r3.value, Ring.Publish(0)) else None;
      r1.Some? && r2.Some? && r3.Some? && r4 == Some(Filled(n, val))
  {
    var r0 := Ring.Fresh<V>(n, 1);
    var w: Ring.Producer<V>, l: Ring.Producer<V>, c: Ring.Producer<V> :=
      Ring.Want(val), Ring.Loaded(val, 0), Ring.Claimed(val, 0, 0);
    assert r0.prods[0 := w] == [w] && [w][0 := l] == [l] && [l][0 := c] == [c]
        && [c][0 := Ring.Producer<V>.Idle] == [Ring.Producer<V>.Idle];
    assert |r0.vals| == n;
    assert Ring.Step(r0, Ring.Begin(0, val)) == Some(r0.(prods := [w]));
    assert Ring.Step(r0.(prods := [w]), Ring.Load(0)) == Some(r0.(prods := [l]));
    assert r0.claimed + [val] == [val];
    var r3 := r0.(word := PackPair(1, 0), prods := [c], claimed := [val]);
    assert Ring.Step(r0.(prods := [l]), Ring.Claim(0)) == Some(r3);
    assert r0.vals[0 := Some(val)] == Filled(n, val).vals;
    assert Ring.Step(r3, Ring.Publish(0)) == Some(Filled(n, val));
  }

  lemma FilledOk<V>(n: nat, val: V)
    requires Ring.ValidSize(n)
    ensures RingOk(Filled(n, val))
  {
    Ring.FreshInv<V>(n, 1);
    FilledIsPush(n, val);
    hide Ring.Inv, Ring.Step, Ring.Fresh;
    var r0 := Ring.Fresh<V>(n, 1);
    var r1 := Ring.Step(r0, Ring.Begin(0, val)).value;
    var r2 := Ring.Step(r1, Ring.Load(0)).value;
    var r3 := Ring.Step(r2, Ring.Claim(0)).value;
    Ring.StepKeeps(r0, Ring.Begin(0, val), r1);
    Ring.StepKeeps(r1, Ring.Load(0), r2);
    Ring.StepKeeps(r2, Ring.Claim(0), r3);
    Ring.StepKeeps(r3, Ring.Publish(0), Filled(n, val));
  }

  lemma LimitIsPower()
    ensures Ring.PowerOfTwo(Ring.RING_LIMIT)
  {
    Ring.IndexRangeIsPower();
    assert Ring.PowerOfTwo(TWO32 / 2);
  }

  lemma DoubledOk(n: nat)
    requires Ring.ValidSize(n)
    ensures Ring.ValidSize(Doubled(n))
  {
    LimitIsPower();
    assert Ring.PowerOfTwo(2 * n);
  }

  /** A step leaves the histories alone, or enters the value of the push it is part of, or takes
      out the value of the pop it is part of. */
  ghost predicate Delta<V>(s: State<V>, s': State<V>) {
    || (Entered(s') == Entered(s) && Left(s') == Left(s))
    || (Left(s') == Left(s) && Pending(s) == [] && |Pending(s')| == 1 && Entered(s') == Entered(s) + Pending(s'))
    || (Entered(s') == Entered(s) && InHand(s) == [] && |InHand(s')| == 1 && Left(s') == Left(s) + InHand(s'))
  }

  // ---- Each step keeps the invariant ----

  lemma LoadHeadKeeps<V>(s: State<V>, s': State<V>)
    requires Inv(s) && LoadHeadRing(s) == Some(s')
    ensures Inv(s') && Delta(s, s')
  {
    hide Ring.Inv, Ring.Step, HistoryOk, Delta;
    assert RingOk(s.rings[s.head]);
    Ring.StepEffect(s.rings[s.head], Ring.Begin(0, s.prod.val), s'.rings[s.head]);
    assert HistoryOk(s') && Delta(s, s') by {
      HeadRingHistory(s, s'.rings[s.head], s');
    }
  }

  lemma RingPushKeeps<V>(s: State<V>, ra: Ring.Action<V>, s': State<V>)
    requires Inv(s) && RingPushStep(s, ra) == Some(s')
    ensures Inv(s') && Delta(s, s')
  {
    hide Ring.Inv, Ring.Step, HistoryOk, Delta;
    var d := s.head;
    assert RingOk(s.rings[d]);
    Ring.StepEffect(s.rings[d], ra, s'.rings[d]);
    RingPushHistory(s, ra, s');
  }

  lemma RingPushHistory<V>(s: State<V>, ra: Ring.Action<V>, s': State<V>)
    requires Inv(s) && RingPushStep(s, ra) == Some(s')
    ensures HistoryOk(s') && Delta(s, s')
  {
    hide Ring.Inv, Ring.Step, HistoryOk, Delta, ConsumerOk;
    var d := s.head;
    assert RingOk(s.rings[d]);
    Ring.StepEffect(s.rings[d], ra, s'.rings[d]);
    HeadRingHistory(s, s'.rings[d], s');
  }

  lemma HeadRingHistory<V>(s: State<V>, r: Ring.State<V>, s': State<V>)
    requires HistoryOk(s) && s.tail < s.linked <= |s.rings|
    requires s' == s.(rings := s.rings[s.linked - 1 := r], prod := s'.prod, pushed := s'.pushed)
    requires r.popped == s.rings[s.linked - 1].popped && r.cons == s.rings[s.linked - 1].cons
    requires
      var claimed := s.rings[s.linked - 1].claimed;
      || (r.claimed == claimed && Pending(s') == Pending(s) && s'.pushed == s.pushed)
      || (Pending(s) == [] && |Pending(s')| == 1 && r.claimed == claimed + Pending(s') && s'.pushed == s.pushed)
      || (r.claimed == claimed && s'.pushed == s.pushed + Pending(s) && Pending(s') == [])
    ensures HistoryOk(s') && Delta(s, s')
  {
    var d := s.linked - 1;
    var grown := if r.claimed == s.rings[d].claimed then [] else Pending(s');
    NilRight(s.rings[d].claimed);
    ClaimsAfter(s.rings, d, r, grown);
    ClaimsSame(s.rings, s'.rings, s.tail);
    NilRight(s.pushed);
    NilRight(s'.pushed);
    NilRight(Entered(s));
    assert InHand(s') == InHand(s);
    hide Claims, Pending, InHand;
  }

  lemma NewRingOk<V>(s: State<V>)
    requires LinksOk(s) && s.prod.Growing? && s.prod.d < |s.rings|
    ensures
      var r := Filled(Doubled(|s.rings[s.prod.d].vals|), s.prod.val);
      RingOk(r) && r.claimed == [s.prod.val] && r.popped == [] && r.cons.Resting? && r.prods == [Ring.Producer.Idle]
  {
    var n := |s.rings[s.prod.d].vals|;
    assert RingOk(s.rings[s.prod.d]);
    Ring.InvFacts(s.rings[s.prod.d]);
    DoubledOk(n);
    FilledOk(Doubled(n), s.prod.val);
  }

  lemma GrowKeeps<V>(s: State<V>, s': State<V>)
    requires Inv(s) && GrowChain(s) == Some(s')
    ensures Inv(s') && Delta(s, s')
  {
    hide Ring.Inv, Ring.Step, Filled, Doubled, Claims;
    if !s.newChain {
      NewRingOk(s);
    }
    ClaimsSame(s.rings, s'.rings, s.tail);
    ClaimsSame(s.rings, s'.rings, s.linked);
  }

  lemma PublishHeadKeeps<V>(s: State<V>, s': State<V>)
    requires Inv(s) && PublishHead(s) == Some(s')
    ensures Inv(s') && Delta(s, s')
  {
    hide Ring.Inv, Claims;
  }

  lemma PublishNextKeeps<V>(s: State<V>, s': State<V>)
    requires Inv(s) && PublishNext(s) == Some(s')
    ensures Inv(s') && Delta(s, s')
  {
    NilRight(s.pushed);
    assert Entered(s') == Entered(s) + s.rings[s.linked].claimed;
    hide Ring.Inv, Claims;
  }

  lemma EndGrowKeeps<V>(s: State<V>, s': State<V>)
    requires Inv(s) && EndGrow(s) == Some(s')
    ensures Inv(s') && Delta(s, s')
  {
    hide Ring.Inv, Claims;
    NilRight(s'.pushed);
  }

  lemma LoadNextKeeps<V>(s: State<V>, s': State<V>)
    requires Inv(s) && LoadNextPointer(s) == Some(s')
    ensures Inv(s') && Delta(s, s')
  {
    assert RingOk(s.rings[s.tail]);
    hide Ring.Inv, Ring.Step, HistoryOk, Delta, Empty;
    Ring.StepEffect(s.rings[s.tail], Ring.StartPop, s'.rings[s.tail]);
    assert LinksOk(s') && ProducerOk(s');
    assert ConsumerOk(s') by {
      StartedPopOk(s, s'.rings[s.tail], s');
    }
    assert HistoryOk(s') && Delta(s, s') by {
      TailRingHistory(s, s'.rings[s.tail], s');
    }
  }

  /** If no next pointer was seen, the queue was empty at that instant or the ring holds a claim. */
  lemma StartedPopOk<V>(s: State<V>, r: Ring.State<V>, s': State<V>)
    requires LinksOk(s) && ConsumerOk(s) && s.cons.On? && LinksOk(s')
    requires Ring.ConsumerEffect(s.rings[s.tail], Ring.StartPop, r)
    requires s' == s.(rings := s.rings[s.tail := r], cons := Popping(s.tail, s.tail + 1 < s.linked, Empty(s)))
    ensures ConsumerOk(s')
  {
    assert RingOk(s.rings[s.tail]);
    Ring.InvFacts(s.rings[s.tail]);
    LeftIsPrefix(s);
    hide Ring.Inv, Empty;
  }

  /** A consumer's step in the tail ring leaves the links and the producer alone. */
  lemma TailRingLinks<V>(s: State<V>, r: Ring.State<V>, s': State<V>)
    requires LinksOk(s) && ProducerOk(s) && RingOk(r)
    requires s' == s.(rings := s.rings[s.tail := r], cons := s'.cons, got := s'.got)
    requires r.claimed == s.rings[s.tail].claimed && r.prods == s.rings[s.tail].prods
    ensures LinksOk(s') && ProducerOk(s')
  {
    hide RingOk;
  }

  lemma PoppedOk<V>(s: State<V>, ra: Ring.Action<V>, s': State<V>)
    requires LinksOk(s) && ConsumerOk(s) && LinksOk(s') && RingPopStep(s, ra) == Some(s')
    requires Ring.ConsumerEffect(s.rings[s.tail], ra, s'.rings[s.tail])
    ensures ConsumerOk(s')
  {
    hide RingOk, Ring.Step;
  }

  lemma RingPopKeeps<V>(s: State<V>, ra: Ring.Action<V>, s': State<V>)
    requires Inv(s) && RingPopStep(s, ra) == Some(s')
    ensures Inv(s') && Delta(s, s')
  {
    hide Ring.Inv, Ring.Step, HistoryOk, Delta, ProducerOk;
    assert RingOk(s.rings[s.tail]);
    Ring.StepEffect(s.rings[s.tail], ra, s'.rings[s.tail]);
    TailRingLinks(s, s'.rings[s.tail], s');
    PoppedOk(s, ra, s');
    hide ConsumerOk, LinksOk;
    TailRingHistory(s, s'.rings[s.tail], s');
  }

  lemma TailRingHistory<V>(s: State<V>, r: Ring.State<V>, s': State<V>)
    requires HistoryOk(s) && s.tail < s.linked <= |s.rings|
    requires s' == s.(rings := s.rings[s.tail := r], cons := s'.cons, got := s'.got)
    requires r.claimed == s.rings[s.tail].claimed && r.prods == s.rings[s.tail].prods
    requires
      var popped := s.rings[s.tail].popped;
      || (r.popped == popped && InHand(s') == InHand(s) && s'.got == s.got)
      || (InHand(s) == [] && |InHand(s')| == 1 && r.popped == popped + InHand(s') && s'.got == s.got)
      || (r.popped == popped && s'.got == s.got + InHand(s) && InHand(s') == [])
    ensures HistoryOk(s') && Delta(s, s')
  {
    ClaimsSame(s.rings, s'.rings, s.tail);
    ClaimsSame(s.rings, s'.rings, s.linked);
    Assoc(Claims(s.rings, s.tail), s.rings[s.tail].popped, InHand(s'));
    NilRight(s.got);
    NilRight(s'.got);
    assert Pending(s') == Pending(s);
    hide Claims, Pending, InHand;
  }

  lemma SettleKeeps<V>(s: State<V>, s': State<V>)
    requires Inv(s) && LeaveDryRing(s) == Some(s')
    ensures Inv(s') && Delta(s, s')
  {
    hide Ring.Inv, Claims, HistoryOk, Delta;
    assert HistoryOk(s') && Delta(s, s') by {
      if s.cons.sawNext {
        DropRingHistory(s, s');
      } else {
        assert HistoryOk(s') && Delta(s, s') by { SameHistory(s, s'); }
      }
    }
  }

  lemma SameHistory<V>(s: State<V>, s': State<V>)
    requires HistoryOk(s) && s' == s.(cons := s'.cons) && InHand(s') == InHand(s)
    ensures HistoryOk(s') && Delta(s, s')
  {
  }

  lemma DropRingHistory<V>(s: State<V>, s': State<V>)
    requires HistoryOk(s) && s.tail + 1 < s.linked <= |s.rings| && s' == s.(cons := s'.cons, tail := s.tail + 1)
    requires InHand(s') == InHand(s)
    requires s.rings[s.tail].popped == s.rings[s.tail].claimed && s.rings[s.tail + 1].popped == []
    ensures HistoryOk(s') && Delta(s, s')
  {
    NilRight(Claims(s.rings, s.tail + 1));
  }

  lemma StepKeeps<V>(s: State<V>, a: Action<V>, s': State<V>)
    requires Inv(s) && Step(s, a) == Some(s')
    ensures Inv(s') && Delta(s, s')
  {
    match a
    case Push(_) =>
    case Pop =>
    case LoadHead => LoadHeadKeeps(s, s');
    case RingPush(ra) => RingPushKeeps(s, ra, s');
    case Grow => GrowKeeps(s, s');
    case LoadNext => LoadNextKeeps(s, s');
    case RingPop(ra) => RingPopKeeps(s, ra, s');
    case Settle => SettleKeeps(s, s');
    case StoreHead => PublishHeadKeeps(s, s');
    case StoreNext => PublishNextKeeps(s, s');
    case Unlock => EndGrowKeeps(s, s');
  }

  lemma {:induction false} RunInv<V>(n: nat, run: seq<Action<V>>)
    requires Ring.ValidSize(n) && Run(n, run).Some?
    ensures Inv(Run(n, run).value)
  {
    if run == [] {
      Ring.FreshInv<V>(n, 1);
      assert Claims([Ring.Fresh<V>(n, 1)], 1) == [];
    } else {
      RunInv(n, run[..|run| - 1]);
      StepKeeps(Run(n, run[..|run| - 1]).value, run[|run| - 1], Run(n, run).value);
    }
  }

  // ---- What every run guarantees ----

  /** In every interleaving: the values returned by pops, the one in a pop's hand and the queue,
      in this order, are the values of the finished pushes and of the push that has taken effect.
      Nothing is lost, duplicated or reordered. */
  lemma FifoConserved<V>(n: nat, run: seq<Action<V>>)
    requires Ring.ValidSize(n) && Run(n, run).Some?
    ensures
      var s := Run(n, run).value;
      s.got + InHand(s) + Queue(s) == s.pushed + Pending(s)
  {
    RunInv(n, run);
    LeftIsPrefix(Run(n, run).value);
  }

  /** A pop that returns nothing saw the queue empty at an instant during its own call. */
  lemma NilMeansEmpty<V>(n: nat, run: seq<Action<V>>)
    requires Ring.ValidSize(n) && Run(n, run).Some?
    requires var c := Run(n, run).value.cons; c.Dry? && !c.sawNext
    ensures Run(n, run).value.cons.wasEmpty
  {
    RunInv(n, run);
  }

  ghost predicate Enqueues<V>(s: State<V>, s': State<V>) {
    Pending(s) == [] && |Pending(s')| == 1 && Queue(s') == Queue(s) + Pending(s')
  }

  ghost predicate Dequeues<V>(s: State<V>, s': State<V>) {
    InHand(s) == [] && |InHand(s')| == 1 && InHand(s') + Queue(s') == Queue(s)
  }

  /** Refinement: every atomic step of the chain is one enqueue of the pushed value, one dequeue
      of the front value, or leaves the abstract queue alone. */
  lemma StepRefines<V>(n: nat, run: seq<Action<V>>, a: Action<V>)
    requires Ring.ValidSize(n) && Run(n, run).Some? && Step(Run(n, run).value, a).Some?
    ensures
      var s := Run(n, run).value;
      var s' := Step(s, a).value;
      Queue(s') == Queue(s) || Enqueues(s, s') || Dequeues(s, s')
  {
    var s := Run(n, run).value;
    var s' := Step(s, a).value;
    RunInv(n, run);
    StepKeeps(s, a, s');
    LeftIsPrefix(s);
    LeftIsPrefix(s');
    QueueDelta(s, s');
  }

  lemma QueueDelta<V>(s: State<V>, s': State<V>)
    requires Delta(s, s') && Left(s) <= Entered(s) && Left(s') <= Entered(s')
    ensures Queue(s') == Queue(s) || Enqueues(s, s') || Dequeues(s, s')
  {
    hide Entered, Left, Pending, InHand;
    if Left(s') == Left(s) && Entered(s') == Entered(s) + Pending(s') {
      assert Entered(s')[|Left(s)|..] == Entered(s)[|Left(s)|..] + Pending(s');
    } else if Entered(s') == Entered(s) && Left(s') == Left(s) + InHand(s') {
      assert Entered(s)[|Left(s)|..] == InHand(s') + Entered(s)[|Left(s')|..];
    }
  }
}
