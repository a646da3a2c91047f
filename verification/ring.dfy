/** `bufDequeue`: a fixed-size lock-free ring with any number of producers and one consumer, at
    the granularity of its atomic operations. `claimed` and `popped` are histories: the values
    in the order in which their slots were claimed, and the values taken out so far. */
module Ring {
  import opened Options
  import opened Words

  const RING_LIMIT: nat := TWO32 / 4

  /** Where a producer goroutine is inside `pushHead`. */
  datatype Producer<V> =
    | Idle
    | Want(val: V)
    | Loaded(val: V, ptrs: u64)
    | Claimed(val: V, slot: nat, ticket: nat)

  /** Where the consumer is inside `popTail`. */
  datatype Consumer<V> =
    | Resting
    | Polling
    | Peeked(at: u32)
    | Seen(at: u32, val: V)
    | Taken(at: u32, val: V)

  datatype State<V> = State(
    word: u64,
    vals: seq<Option<V>>,
    prods: seq<Producer<V>>,
    cons: Consumer<V>,
    claimed: seq<V>,
    popped: seq<V>)

  datatype Action<V> =
    | Begin(p: nat, val: V)
    | Load(p: nat)
    | Claim(p: nat)
    | Publish(p: nat)
    | StartPop
    | Poll
    | Look
    | Take
    | Advance

  predicate PowerOfTwo(n: nat) {
    n == 1 || (0 < n && n % 2 == 0 && PowerOfTwo(n / 2))
  }

  predicate ValidSize(n: nat) {
    n <= RING_LIMIT && PowerOfTwo(n)
  }

  function Fresh<V>(n: nat, producers: nat): State<V> {
    State(0, seq(n, _ => None), seq(producers, _ => Idle), Resting, [], [])
  }

  predicate Full(w: u64, n: nat) {
    (PairTail(w) + n) % TWO32 == PairHead(w)
  }

  /** The slot of index `i` in a ring of `n`: masking by `n - 1` for the powers of two that ring
      sizes are. Written by repeated subtraction, equal to the remainder (SlotIsRemainder). */
  function SlotOf(i: nat, n: nat): (k: nat)
    requires 0 < n
    ensures k < n
  {
    if i < n then i else SlotOf(i - n, n)
  }

  /** One atomic operation; None when that goroutine is not at that operation. */
  function Step<V(==)>(s: State<V>, a: Action<V>): Option<State<V>> {
    var n := |s.vals|;
    if n == 0 then None else
    match a
    case Begin(p, val) =>
      if p < |s.prods| && s.prods[p].Idle? then
        Some(s.(prods := s.prods[p := Want(val)]))
      else None
    case Load(p) =>
      if p < |s.prods| && s.prods[p].Want? then
        Some(s.(prods := s.prods[p := if Full(s.word, n) then Idle else Loaded(s.prods[p].val, s.word)]))
      else None
    case Claim(p) =>
      if p < |s.prods| && s.prods[p].Loaded? then
        var Loaded(val, ptrs) := s.prods[p];
        if s.word == ptrs then
          var head := PairHead(ptrs);
          Some(s.(word := PackPair((head + 1) % TWO32, PairTail(ptrs)),
                  prods := s.prods[p := Claimed(val, SlotOf(head, n), |s.claimed|)],
                  claimed := s.claimed + [val]))
        else
          Some(s.(prods := s.prods[p := Want(val)]))
      else None
    case Publish(p) =>
      if p < |s.prods| && s.prods[p].Claimed? && s.prods[p].slot < n then
        Some(s.(vals := s.vals[s.prods[p].slot := Some(s.prods[p].val)], prods := s.prods[p := Idle]))
      else None
    case StartPop =>
      if s.cons.Resting? then Some(s.(cons := Polling)) else None
    case Poll =>
      if s.cons.Polling? then
        Some(s.(cons := if PairHead(s.word) == PairTail(s.word) then Resting else Peeked(PairTail(s.word))))
      else None
    case Look =>
      if s.cons.Peeked? then
        var v := s.vals[SlotOf(s.cons.at, n)];
        Some(s.(cons := if v.None? then Polling else Seen(s.cons.at, v.value)))
      else None
    case Take =>
      if s.cons.Seen? then
        var k := SlotOf(s.cons.at, n);
        if s.vals[k] == Some(s.cons.val) then
          Some(s.(vals := s.vals[k := None], cons := Taken(s.cons.at, s.cons.val), popped := s.popped + [s.cons.val]))
        else
          Some(s.(cons := Polling))
      else None
    case Advance =>
      if s.cons.Taken? then
        Some(s.(word := AdvanceTail(s.word, s.cons.at), cons := Resting))
      else None
  }

  /** The state after a run from a fresh ring; None if some action of it was not enabled. */
  function Run<V(==)>(n: nat, producers: nat, run: seq<Action<V>>): Option<State<V>> {
    if run == [] then Some(Fresh(n, producers))
    else
      var before := Run(n, producers, run[..|run| - 1]);
      if before.None? then None else Step(before.value, run[|run| - 1])
  }

  /** Number of pops whose tail advance has been done. */
  function Advanced<V>(s: State<V>): int {
    |s.popped| - (if s.cons.Taken? then 1 else 0)
  }

  predicate Owns<V>(s: State<V>, p: nat, i: nat) {
    p < |s.prods| && s.prods[p].Claimed? && s.prods[p].ticket == i
  }

  /** The slot of ticket `i`, for the tickets whose turn it is in the ring. */
  function At<V>(s: State<V>, i: nat): Option<V>
    requires 0 < |s.vals|
  {
    s.vals[SlotOf(i, |s.vals|)]
  }

  /** Indices are the counts modulo 2^32, the ring holds at most its size, and what was taken
      out is what was claimed, in claim order. */
  ghost predicate CountsOk<V>(s: State<V>) {
    && ValidSize(|s.vals|)
    && 0 <= Advanced(s) <= |s.popped| <= |s.claimed| <= Advanced(s) + |s.vals|
    && s.word == PackPair(|s.claimed| % TWO32, Advanced(s) % TWO32)
    && s.popped == s.claimed[..|s.popped|]
  }

  /** A claimed, untaken ticket has its value in its slot, or a producer about to store it into
      a nil slot; every slot without such a ticket is nil. */
  ghost predicate TicketOk<V>(s: State<V>, i: nat)
    requires 0 < |s.vals|
  {
    if i < |s.claimed| then
      At(s, i) == Some(s.claimed[i]) || (At(s, i).None? && exists p :: Owns(s, p, i))
    else
      At(s, i).None?
  }

  ghost predicate SlotsOk<V>(s: State<V>)
    requires CountsOk(s)
  {
    forall i :: |s.popped| <= i < |s.popped| + |s.vals| ==> TicketOk(s, i)
  }

  ghost predicate ProducersOk<V>(s: State<V>)
    requires CountsOk(s)
  {
    && (forall p :: 0 <= p < |s.prods| ==>
          match s.prods[p]
          case Claimed(val, slot, ticket) =>
            && |s.popped| <= ticket < |s.claimed|
            && s.claimed[ticket] == val
            && slot == SlotOf(ticket, |s.vals|)
            && At(s, ticket).None?
          case Loaded(_, ptrs) => !Full(ptrs, |s.vals|)
          case _ => true)
    && (forall p, q :: 0 <= p < q < |s.prods| && s.prods[p].Claimed? && s.prods[q].Claimed? ==>
          s.prods[p].ticket != s.prods[q].ticket)
  }

  ghost predicate ConsumerOk<V>(s: State<V>)
    requires CountsOk(s)
  {
    match s.cons
    case Peeked(at) => at == Advanced(s) % TWO32 && |s.popped| < |s.claimed|
    case Seen(at, val) => at == Advanced(s) % TWO32 && |s.popped| < |s.claimed| && At(s, |s.popped|) == Some(val)
    case Taken(at, val) => at == Advanced(s) % TWO32 && val == s.claimed[Advanced(s)]
    case _ => true
  }

  ghost predicate Inv<V>(s: State<V>) {
    CountsOk(s) && SlotsOk(s) && ProducersOk(s) && ConsumerOk(s)
  }

  // ---- Modular facts ----

  lemma {:induction false} SlotIsRemainder(i: nat, n: nat) returns (q: nat)
    requires 0 < n
    ensures i == q * n + SlotOf(i, n)
  {
    q := 0;
    if n <= i {
      var r := SlotIsRemainder(i - n, n);
      q := r + 1;
    }
  }

  lemma {:induction false} PowersNest(n: nat, m: nat)
    requires PowerOfTwo(n) && PowerOfTwo(m) && n < m
    ensures 2 * n <= m
  {
    if n > 1 {
      PowersNest(n / 2, m / 2);
    }
  }

  lemma {:induction false} SlotAfterPower(i: nat, n: nat, m: nat)
    requires PowerOfTwo(n) && PowerOfTwo(m) && n <= m
    ensures SlotOf(i + m, n) == SlotOf(i, n)
    decreases m
  {
    if n < m {
      PowersNest(n, m);
      SlotAfterPower(i + m / 2, n, m / 2);
      SlotAfterPower(i, n, m / 2);
      assert i + m / 2 + m / 2 == i + m;
    }
  }

  function Pow2(k: nat): nat {
    if k == 0 then 1 else 2 * Pow2(k - 1)
  }

  lemma {:induction false} Pow2IsPower(k: nat)
    ensures PowerOfTwo(Pow2(k))
  {
    if k > 0 {
      Pow2IsPower(k - 1);
    }
  }

  lemma IndexRangeIsPower()
    ensures PowerOfTwo(TWO32)
  {
    Pow2IsPower(32);
    assert Pow2(8) == 0x100;
    assert Pow2(16) == 0x1_0000;
    assert Pow2(24) == 0x100_0000;
    assert Pow2(32) == 0x1_0000_0000;
  }

  lemma WrapStep(i: nat)
    requires TWO32 <= i
    ensures (i - TWO32) % TWO32 == i % TWO32
  {
  }

  /** A slot index computed from a wrapped 32-bit index is the slot of the unwrapped count. */
  lemma {:induction false} WrappedSlot(i: nat, n: nat)
    requires ValidSize(n)
    ensures SlotOf(i % TWO32, n) == SlotOf(i, n)
  {
    if TWO32 <= i {
      WrapStep(i);
      WrappedSlot(i - TWO32, n);
      IndexRangeIsPower();
      SlotAfterPower(i - TWO32, n, TWO32);
    }
  }

  /** Tickets less than one ring apart sit in different slots. */
  lemma {:induction false} SlotsDistinct(i: nat, j: nat, n: nat)
    requires 0 < n && i < j < i + n
    ensures SlotOf(i, n) != SlotOf(j, n)
  {
    if n <= i {
      SlotsDistinct(i - n, j - n, n);
    }
  }

  lemma SlotsDistinctFrom(i: nat, lo: nat, n: nat)
    requires 0 < n && lo <= i < lo + n
    ensures forall j {:trigger SlotOf(j, n)} :: lo <= j < lo + n && j != i ==> SlotOf(j, n) != SlotOf(i, n)
  {
    forall j {:trigger SlotOf(j, n)} | lo <= j < lo + n && j != i ensures SlotOf(j, n) != SlotOf(i, n) {
      if i < j { SlotsDistinct(i, j, n); } else { SlotsDistinct(j, i, n); }
    }
  }

  lemma SlotOneRingLater(i: nat, n: nat)
    requires 0 < n
    ensures SlotOf(i + n, n) == SlotOf(i, n)
  {
  }

  /** Fullness read off the wrapped indices is fullness of the counts. */
  lemma FullExact<V>(s: State<V>)
    requires CountsOk(s)
    ensures Full(s.word, |s.vals|) <==> |s.claimed| == Advanced(s) + |s.vals|
    ensures PairHead(s.word) == PairTail(s.word) <==> |s.claimed| == Advanced(s)
  {
    var h, t, n := |s.claimed|, Advanced(s), |s.vals|;
    PairRoundTrip(h % TWO32, t % TWO32);
    WrapExact(h, t + n);
    WrapExact(h, t);
    PlusWrapped(t, n);
    hide PackPair, PairHead, PairTail, PowerOfTwo;
  }

  /** What a claim computes from the word, and what the final addition makes of it. */
  lemma ClaimWord<V>(s: State<V>)
    requires CountsOk(s)
    ensures
      PackPair((PairHead(s.word) + 1) % TWO32, PairTail(s.word))
      == PackPair((|s.claimed| + 1) % TWO32, Advanced(s) % TWO32)
    ensures SlotOf(PairHead(s.word), |s.vals|) == SlotOf(|s.claimed|, |s.vals|)
    ensures PairTail(s.word) == Advanced(s) % TWO32
  {
    PairRoundTrip(|s.claimed| % TWO32, Advanced(s) % TWO32);
    WrappedSlot(|s.claimed|, |s.vals|);
    PlusWrapped(|s.claimed|, 1);
  }

  lemma TailWord<V>(s: State<V>)
    requires CountsOk(s)
    ensures AdvanceTail(s.word, PairTail(s.word)) == PackPair(PairHead(s.word), (Advanced(s) + 1) % TWO32)
    ensures PairHead(s.word) == |s.claimed| % TWO32 && PairTail(s.word) == Advanced(s) % TWO32
  {
    PairRoundTrip(|s.claimed| % TWO32, Advanced(s) % TWO32);
    AdvanceTailKeepsHead(s.word, PairTail(s.word));
    PlusWrapped(Advanced(s), 1);
  }

  lemma WrapExact(x: nat, y: nat)
    requires x - y < TWO32 && y - x < TWO32
    ensures x % TWO32 == y % TWO32 <==> x == y
  {
    assert x == x / TWO32 * TWO32 + x % TWO32 && y == y / TWO32 * TWO32 + y % TWO32;
  }

  // ---- Each atomic step keeps the invariant ----

  lemma FreshInv<V>(n: nat, producers: nat)
    requires ValidSize(n)
    ensures Inv(Fresh<V>(n, producers))
  {
  }

  /** A ticket keeps its state in a step that changes neither its slot nor its owner. */
  lemma TicketUnmoved<V>(s: State<V>, s': State<V>, i: nat)
    requires 0 < |s.vals| == |s'.vals| && TicketOk(s, i)
    requires At(s', i) == At(s, i) && s.claimed <= s'.claimed
    requires i < |s'.claimed| ==> i < |s.claimed|
    requires forall p :: Owns(s, p, i) ==> Owns(s', p, i)
    ensures TicketOk(s', i)
  {
    if i < |s.claimed| && At(s, i).None? {
      var p :| Owns(s, p, i);
      assert Owns(s', p, i);
    }
  }

  lemma ClaimKeeps<V>(s: State<V>, p: nat, s': State<V>)
    requires Inv(s) && Step(s, Claim(p)) == Some(s')
    ensures Inv(s')
  {
    hide PowerOfTwo, SlotOf, PackPair, PairHead, PairTail;
    var n, c := |s.vals|, |s.claimed|;
    if s.word == s.prods[p].ptrs {
      FullExact(s);
      ClaimWord(s);
      assert TicketOk(s, c);
      assert Owns(s', p, c);
      forall i | |s'.popped| <= i < |s'.popped| + n ensures TicketOk(s', i) {
        assert TicketOk(s, i);
        if i != c { TicketUnmoved(s, s', i); }
      }
    } else {
      forall i | |s'.popped| <= i < |s'.popped| + n ensures TicketOk(s', i) {
        TicketUnmoved(s, s', i);
      }
    }
  }

  lemma PublishKeeps<V>(s: State<V>, p: nat, s': State<V>)
    requires Inv(s) && Step(s, Publish(p)) == Some(s')
    ensures Inv(s')
  {
    var n, t := |s.vals|, s.prods[p].ticket;
    SlotsDistinctFrom(t, |s.popped|, n);
    forall i | |s.popped| <= i < |s.popped| + n ensures TicketOk(s', i) {
      if i != t {
        assert SlotOf(i, n) != SlotOf(t, n);
        TicketUnmoved(s, s', i);
      }
    }
  }

  lemma TakeKeeps<V>(s: State<V>, s': State<V>)
    requires Inv(s) && Step(s, Take) == Some(s')
    ensures Inv(s')
  {
    var n, t := |s.vals|, |s.popped|;
    WrappedSlot(t, n);
    SlotsDistinctFrom(t, t, n);
    SlotOneRingLater(t, n);
    assert TicketOk(s, t);
    assert s'.popped == s.claimed[..t + 1];
    forall i | |s'.popped| <= i < |s'.popped| + n ensures TicketOk(s', i) {
      if i < t + n {
        assert SlotOf(i, n) != SlotOf(t, n);
        TicketUnmoved(s, s', i);
      }
    }
  }

  lemma AdvanceKeeps<V>(s: State<V>, s': State<V>)
    requires Inv(s) && Step(s, Advance) == Some(s')
    ensures Inv(s')
  {
    TailWord(s);
    forall i | |s'.popped| <= i < |s'.popped| + |s.vals| ensures TicketOk(s', i) {
      TicketUnmoved(s, s', i);
    }
  }

  lemma BeginOrLoadKeeps<V>(s: State<V>, a: Action<V>, s': State<V>)
    requires Inv(s) && Step(s, a) == Some(s')
    requires a.Begin? || a.Load?
    ensures Inv(s')
  {
    FullExact(s);
    forall i | |s'.popped| <= i < |s'.popped| + |s.vals| ensures TicketOk(s', i) {
      TicketUnmoved(s, s', i);
    }
    hide TicketOk;
  }

  lemma PollOrLookKeeps<V>(s: State<V>, a: Action<V>, s': State<V>)
    requires Inv(s) && Step(s, a) == Some(s')
    requires a.StartPop? || a.Poll? || a.Look?
    ensures Inv(s')
  {
    PairRoundTrip(|s.claimed| % TWO32, Advanced(s) % TWO32);
    WrappedSlot(|s.popped|, |s.vals|);
    forall i | |s'.popped| <= i < |s'.popped| + |s.vals| ensures TicketOk(s', i) {
      TicketUnmoved(s, s', i);
    }
    if a.Look? {
      assert TicketOk(s, |s.popped|);
    }
  }

  lemma StepKeeps<V>(s: State<V>, a: Action<V>, s': State<V>)
    requires Inv(s) && Step(s, a) == Some(s')
    ensures Inv(s')
  {
    match a
    case Claim(p) => ClaimKeeps(s, p, s');
    case Publish(p) => PublishKeeps(s, p, s');
    case Take => TakeKeeps(s, s');
    case Advance => AdvanceKeeps(s, s');
    case Begin(_, _) => BeginOrLoadKeeps(s, a, s');
    case Load(_) => BeginOrLoadKeeps(s, a, s');
    case _ => PollOrLookKeeps(s, a, s');
  }

  /** What a producer's step changes, seen from outside the ring. */
  ghost predicate ProducerEffect<V>(s: State<V>, a: Action<V>, s': State<V>)
    requires |s.prods| == |s'.prods| == 1
  {
    && s'.popped == s.popped && s'.cons == s.cons
    && match (s.prods[0], a)
       case (Idle, Begin(_, v)) => s'.prods[0] == Want(v) && s'.claimed == s.claimed
       case (Want(v), Load(_)) =>
         (s'.prods[0].Idle? || (s'.prods[0].Loaded? && s'.prods[0].val == v)) && s'.claimed == s.claimed
       case (Loaded(v, _), Claim(_)) =>
         || (s'.prods[0] == Want(v) && s'.claimed == s.claimed)
         || (s'.prods[0].Claimed? && s'.prods[0].val == v && s'.claimed == s.claimed + [v])
       case (Claimed(v, _, _), Publish(_)) => s'.prods[0].Idle? && s'.claimed == s.claimed
       case _ => false
  }

  /** What the consumer's step changes, seen from outside the ring. */
  ghost predicate ConsumerEffect<V>(s: State<V>, a: Action<V>, s': State<V>) {
    && s'.claimed == s.claimed && s'.prods == s.prods
    && match (s.cons, a)
       case (Resting, StartPop) => s'.cons.Polling? && s'.popped == s.popped
       case (Polling, Poll) => (s'.cons.Peeked? || (s'.cons.Resting? && s.popped == s.claimed)) && s'.popped == s.popped
       case (Peeked(_), Look) => (s'.cons.Seen? || s'.cons.Polling?) && s'.popped == s.popped
       case (Seen(_, v), Take) => s'.cons.Taken? && s'.cons.val == v && s'.popped == s.popped + [v]
       case (Taken(_, _), Advance) => s'.cons.Resting? && s'.popped == s.popped
       case _ => false
  }

  lemma StepEffect<V>(s: State<V>, a: Action<V>, s': State<V>)
    requires Inv(s) && |s.prods| == 1 && Step(s, a) == Some(s')
    requires a.Load? || a.Claim? || a.Publish? || a.Begin? ==> a.p == 0
    ensures Inv(s') && |s'.prods| == 1
    ensures if a.Load? || a.Claim? || a.Publish? || a.Begin? then ProducerEffect(s, a, s') else ConsumerEffect(s, a, s')
  {
    StepKeeps(s, a, s');
    InvRefusals(s);
    WrappedSlot(|s.popped|, |s.vals|);
  }

  lemma InvFacts<V>(s: State<V>)
    requires Inv(s)
    ensures s.popped <= s.claimed && ValidSize(|s.vals|)
    ensures s.popped == s.claimed || |s.popped| < |s.claimed|
  {
  }

  lemma InvRefusals<V>(s: State<V>)
    requires Inv(s)
    ensures Full(s.word, |s.vals|) <==> |s.claimed| - Advanced(s) == |s.vals|
    ensures PairHead(s.word) == PairTail(s.word) <==> |s.claimed| == Advanced(s)
    ensures s.cons.Taken? ==>
              AdvanceTail(s.word, s.cons.at) == PackPair(PairHead(s.word), |s.popped| % TWO32)
  {
    FullExact(s);
    TailWord(s);
  }

  // ---- What every run guarantees ----

  lemma {:induction false} RunInv<V>(n: nat, producers: nat, run: seq<Action<V>>)
    requires ValidSize(n) && Run(n, producers, run).Some?
    ensures Inv(Run(n, producers, run).value)
    ensures |Run(n, producers, run).value.vals| == n
    ensures |Run(n, producers, run).value.prods| == producers
  {
    if run == [] {
      FreshInv<V>(n, producers);
    } else {
      RunInv(n, producers, run[..|run| - 1]);
      StepKeeps(Run(n, producers, run[..|run| - 1]).value, run[|run| - 1], Run(n, producers, run).value);
    }
  }

  ghost predicate StoresIntoNil<V>(s: State<V>, p: nat) {
    p < |s.prods| && s.prods[p].Claimed? ==> s.prods[p].slot < |s.vals| && s.vals[s.prods[p].slot].None?
  }

  ghost predicate SlotsDisjoint<V>(s: State<V>, p: nat, q: nat) {
    p < q < |s.prods| && s.prods[p].Claimed? && s.prods[q].Claimed? ==> s.prods[p].slot != s.prods[q].slot
  }

  /** In every run of any number of producers and one consumer: a store goes into a nil slot,
      two producers never hold the same slot, values come out exactly once and in claim order,
      and never more than the ring's size of them are inside. */
  lemma RingSafety<V>(n: nat, producers: nat, run: seq<Action<V>>)
    requires ValidSize(n) && Run(n, producers, run).Some?
    ensures
      var s := Run(n, producers, run).value;
      && s.popped <= s.claimed
      && |s.claimed| - |s.popped| <= n
      && (forall p: nat :: StoresIntoNil(s, p))
      && (forall p: nat, q: nat :: SlotsDisjoint(s, p, q))
  {
    RunInv(n, producers, run);
    var s := Run(n, producers, run).value;
    forall p: nat, q: nat ensures SlotsDisjoint(s, p, q) {
      if p < q < |s.prods| && s.prods[p].Claimed? && s.prods[q].Claimed? {
        SlotsDistinctFrom(s.prods[p].ticket, |s.popped|, n);
      }
    }
  }

  /** Nothing is lost: once every producer has returned, the ring's slots hold exactly the
      claimed values that have not come out, each in the slot of its ticket. */
  lemma NothingLost<V>(n: nat, producers: nat, run: seq<Action<V>>)
    requires ValidSize(n) && Run(n, producers, run).Some?
    requires
      var s := Run(n, producers, run).value;
      forall p :: 0 <= p < |s.prods| ==> !s.prods[p].Claimed?
    ensures
      var s := Run(n, producers, run).value;
      && |s.vals| == n
      && forall i :: |s.popped| <= i < |s.popped| + n ==>
           s.vals[SlotOf(i, n)] == (if i < |s.claimed| then Some(s.claimed[i]) else None)
  {
    RunInv(n, producers, run);
    var s := Run(n, producers, run).value;
    forall i | |s.popped| <= i < |s.popped| + n
      ensures s.vals[SlotOf(i, n)] == (if i < |s.claimed| then Some(s.claimed[i]) else None)
    {
      assert TicketOk(s, i);
    }
  }

  /** A push is refused only on a truly full ring and a pop finds nothing only on a truly empty
      one, in spite of the wrap-around; a finished pop moves the tail on and leaves the head. */
  lemma RefusalsExact<V>(n: nat, producers: nat, run: seq<Action<V>>)
    requires ValidSize(n) && Run(n, producers, run).Some?
    ensures
      var s := Run(n, producers, run).value;
      && (Full(s.word, n) <==> |s.claimed| - Advanced(s) == n)
      && (PairHead(s.word) == PairTail(s.word) <==> |s.claimed| == Advanced(s))
      && (s.cons.Taken? ==>
            AdvanceTail(s.word, s.cons.at) == PackPair(PairHead(s.word), |s.popped| % TWO32))
  {
    RunInv(n, producers, run);
    InvRefusals(Run(n, producers, run).value);
  }
}
