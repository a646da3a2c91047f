/** `receiveWindowQueue`: the blocking queue between the session reader, which pushes, and a
    stream's reader, which pops. The length and the wait flag share one atomic word; the chain
    of rings under it is a FIFO (module Chain). `pushed` and `popped` are histories; `mark` is
    the number of segments pushed when the queue was stopped. */
module RecvQueue {
  import opened Options
  import opened Segments
  import opened Sequences
  import opened Words

  /** Where the pusher is inside `Push`. */
  datatype Pusher =
    | Idle
    | Adding(el: Segment)
    | Counted(el: Segment, wake: bool)
    | Waking

  /** Where the popper is inside `Pop`. */
  datatype Popper =
    | Resting
    | Checking
    | Parked
    | Spinning
    | Took(el: Segment)
    | Done(el: Segment)
    | Ended

  datatype State = State(
    length: u32,
    wait: bool,
    q: seq<Segment>,
    tokens: nat,
    stopped: bool,
    mark: nat,
    pusher: Pusher,
    popper: Popper,
    pushed: seq<Segment>,
    popped: seq<Segment>)

  datatype Action =
    | Push(el: Segment) | Count | Append | HandOver | Desist
    | Stop
    | Pop | Check | TakeStop | Grab | Subtract | Return

  const Fresh: State := State(0, false, [], 0, false, 0, Idle, Resting, [], [])

  // ---- One function an atomic operation; None when the goroutine is not at it ----

  function BeginPush(s: State, el: Segment): Option<State> {
    if s.pusher.Idle? then Some(s.(pusher := Adding(el))) else None
  }

  /** Add to the length, clear the wait flag, remember whether it was set. */
  function CountLength(s: State): Option<State> {
    if s.pusher.Adding? then
      Some(s.(length := (s.length + |s.pusher.el.data|) % TWO32, wait := false,
              pusher := Counted(s.pusher.el, s.wait)))
    else None
  }

  function AppendToChain(s: State): Option<State> {
    if s.pusher.Counted? then
      Some(s.(q := s.q + [s.pusher.el], pushed := s.pushed + [s.pusher.el],
              pusher := if s.pusher.wake then Waking else Idle))
    else None
  }

  /** The unbuffered hand-off: a waking pusher meets a parked popper. */
  function Meet(s: State): Option<State> {
    if s.pusher.Waking? && s.popper.Parked? then Some(s.(pusher := Idle, popper := Checking)) else None
  }

  /** The waking pusher takes a stop token instead. */
  function PusherStopped(s: State): Option<State> {
    if s.pusher.Waking? && s.tokens > 0 then Some(s.(pusher := Idle, tokens := s.tokens - 1)) else None
  }

  function StopQueue(s: State): Option<State> {
    if !s.stopped then Some(s.(stopped := true, tokens := s.tokens + 2, mark := |s.pushed|)) else None
  }

  function BeginPop(s: State): Option<State> {
    if s.popper.Resting? then Some(s.(popper := Checking)) else None
  }

  /** Park on length zero, setting the wait flag; otherwise go and get an element. */
  function CheckLength(s: State): Option<State> {
    if s.popper.Checking? then
      Some(if s.length == 0 then s.(wait := true, popper := Parked) else s.(popper := Spinning))
    else None
  }

  function PopperStopped(s: State): Option<State> {
    if s.popper.Parked? && s.tokens > 0 then Some(s.(popper := Ended, tokens := s.tokens - 1)) else None
  }

  function GrabFromChain(s: State): Option<State> {
    if s.popper.Spinning? && s.q != [] then
      Some(s.(q := s.q[1..], popped := s.popped + [s.q[0]], popper := Took(s.q[0])))
    else None
  }

  function SubtractFromLength(s: State): Option<State> {
    if s.popper.Took? then
      Some(s.(length := (s.length - |s.popper.el.data|) % TWO32, popper := Done(s.popper.el)))
    else None
  }

  function ReturnElement(s: State): Option<State> {
    if s.popper.Done? then Some(s.(popper := Resting)) else None
  }

  function Step(s: State, a: Action): Option<State> {
    match a
    case Push(el) => BeginPush(s, el)
    case Count => CountLength(s)
    case Append => AppendToChain(s)
    case HandOver => Meet(s)
    case Desist => PusherStopped(s)
    case Stop => StopQueue(s)
    case Pop => BeginPop(s)
    case Check => CheckLength(s)
    case TakeStop => PopperStopped(s)
    case Grab => GrabFromChain(s)
    case Subtract => SubtractFromLength(s)
    case Return => ReturnElement(s)
  }

  function Run(run: seq<Action>): Option<State> {
    if run == [] then Some(Fresh)
    else
      var before := Run(run[..|run| - 1]);
      if before.None? then None else Step(before.value, run[|run| - 1])
  }

  // ---- Invariant ----

  /** Bytes that the length word accounts for. */
  function Load(s: State): nat {
    Total(s.q)
    + (if s.pusher.Counted? then |s.pusher.el.data| else 0)
    + (if s.popper.Took? then |s.popper.el.data| else 0)
  }

  /** The pusher has cleared the wait flag and will wake the popper. */
  predicate Committed(s: State) {
    s.pusher.Waking? || (s.pusher.Counted? && s.pusher.wake)
  }

  ghost predicate ContentOk(s: State) {
    && s.pushed == s.popped + s.q
    && s.mark <= |s.pushed|
    && (s.popper.Spinning? ==> Load(s) > 0)
  }

  ghost predicate WakeOk(s: State) {
    && !(s.wait && Committed(s))
    && (s.wait ==> s.length == 0)
    && (s.wait ==> s.popper.Parked? || s.popper.Ended?)
    && (Committed(s) ==> s.popper.Parked? || s.popper.Ended?)
    && (s.popper.Parked? && !s.stopped ==> s.wait || Committed(s))
    && (s.popper.Ended? ==> s.stopped)
    && (!s.stopped ==> s.tokens == 0)
    && (s.stopped && s.popper.Parked? ==> s.tokens >= if s.wait || Committed(s) then 2 else 1)
    && (s.stopped && s.popper.Ended? && (s.wait || Committed(s)) ==> s.tokens >= 1)
    && (s.stopped && !s.popper.Parked? && !s.popper.Ended? ==> s.tokens == 2)
    && s.tokens <= 2
  }

  ghost predicate LengthOk(s: State) {
    s.length == Load(s) % TWO32
  }

  ghost predicate Inv(s: State) {
    ContentOk(s) && LengthOk(s) && WakeOk(s)
  }

  /** How a step changes the number of queued bytes. */
  function Change(s: State, a: Action): int {
    if a.Count? && s.pusher.Adding? then |s.pusher.el.data|
    else if a.Subtract? && s.popper.Took? then -|s.popper.el.data|
    else 0
  }

  lemma CountChangesLoad(s: State, s': State)
    requires CountLength(s) == Some(s')
    ensures s.pusher.Adding? && Load(s') == Load(s) + |s.pusher.el.data|
  {
    hide Total;
  }

  lemma SubtractChangesLoad(s: State, s': State)
    requires SubtractFromLength(s) == Some(s')
    ensures s.popper.Took? && Load(s') == Load(s) - |s.popper.el.data|
  {
    hide Total;
  }

  lemma StepChangesLoad(s: State, a: Action, s': State)
    requires Step(s, a) == Some(s')
    ensures Load(s') == Load(s) + Change(s, a)
  {
    hide Total, CountLength, SubtractFromLength;
    match a
    case Count => CountChangesLoad(s, s');
    case Subtract => SubtractChangesLoad(s, s');
    case Append => TotalPush(s.q, s.pusher.el);
    case Grab => TotalPop(s.q);
    case _ =>
  }

  lemma LengthMeansLoad(s: State)
    requires LengthOk(s)
    ensures s.length != 0 ==> Load(s) > 0
  {
  }

  lemma StepKeepsContent(s: State, a: Action, s': State)
    requires ContentOk(s) && LengthOk(s) && Step(s, a) == Some(s')
    ensures ContentOk(s')
  {
    hide LengthOk;
    StepChangesLoad(s, a, s');
    LengthMeansLoad(s);
    hide Load, Total;
    if a.Append? {
      Assoc(s.popped, s.q, [s.pusher.el]);
    } else if a.Grab? {
      assert s.q == [s.q[0]] + s.q[1..];
      Assoc(s.popped, [s.q[0]], s.q[1..]);
    }
  }

  lemma StepKeepsLength(s: State, a: Action, s': State)
    requires LengthOk(s) && Step(s, a) == Some(s')
    ensures LengthOk(s')
  {
    StepChangesLoad(s, a, s');
    PlusWrapped(Load(s), Change(s, a));
    hide Load, Total;
  }

  lemma StepKeepsWake(s: State, a: Action, s': State)
    requires WakeOk(s) && Step(s, a) == Some(s')
    ensures WakeOk(s')
  {
  }

  lemma StepKeeps(s: State, a: Action, s': State)
    requires Inv(s) && Step(s, a) == Some(s')
    ensures Inv(s')
  {
    StepKeepsContent(s, a, s');
    StepKeepsLength(s, a, s');
    StepKeepsWake(s, a, s');
    hide ContentOk, LengthOk, WakeOk, Step;
  }

  lemma {:induction false} RunInv(run: seq<Action>)
    requires Run(run).Some?
    ensures Inv(Run(run).value)
  {
    if run != [] {
      RunInv(run[..|run| - 1]);
      StepKeeps(Run(run[..|run| - 1]).value, run[|run| - 1], Run(run).value);
    }
  }

  // ---- What every run guarantees ----

  /** No wake-up is lost. While the queue has not been stopped, a parked popper faces a queue with
      nothing accounted for and the wait flag set, or a pusher that will wake it; and a pusher
      that is going to wake someone always has a parked popper in front of it. A popper that
      did not park always has an element to take, or one about to be appended. */
  lemma NoLostWakeUp(run: seq<Action>)
    requires Run(run).Some? && !Run(run).value.stopped
    ensures
      var s := Run(run).value;
      && (s.popper.Parked? ==> (s.wait && Load(s) % TWO32 == 0) || Committed(s))
      && (Committed(s) ==> s.popper.Parked?)
      && (s.popper.Spinning? ==> s.q != [] || s.pusher.Counted?)
  {
    RunInv(run);
  }

  /** Once stopped, neither side can stay blocked: a parked popper or a waking pusher always has
      a partner or a stop token. */
  lemma StopUnblocks(run: seq<Action>)
    requires Run(run).Some? && Run(run).value.stopped
    ensures
      var s := Run(run).value;
      && (s.popper.Parked? ==> Step(s, TakeStop).Some?)
      && (s.pusher.Waking? ==> Step(s, HandOver).Some? || Step(s, Desist).Some?)
  {
    RunInv(run);
  }

  /** The queue is a FIFO and its length word, between operations, is the queued byte count. */
  lemma LengthExact(run: seq<Action>)
    requires Run(run).Some?
    ensures
      var s := Run(run).value;
      && s.pushed == s.popped + s.q
      && (!s.pusher.Counted? && !s.popper.Took? ==> s.length == Total(s.q) % TWO32)
  {
    RunInv(run);
  }

  /** Segments are never empty on the sending side, and flow control keeps the load below 2^32. */
  ghost predicate Small(s: State) {
    && Load(s) < TWO32
    && (forall i :: 0 <= i < |s.pushed| ==> s.pushed[i].data != [])
    && (s.pusher.Counted? ==> s.pusher.el.data != [])
  }

  /** Then a popper that parks, or that ends, has taken everything pushed before the stop. */
  ghost predicate StopOk(s: State) {
    s.stopped && (s.popper.Parked? || s.popper.Ended?) ==> |s.popped| >= s.mark
  }

  lemma ParkedMeansDrained(s: State)
    requires Inv(s) && Small(s) && s.length == 0
    requires !s.popper.Took?
    ensures s.q == [] && !s.pusher.Counted? && s.pushed == s.popped
  {
    assert forall i :: 0 <= i < |s.q| ==> s.q[i] == s.pushed[|s.popped| + i];
    TotalPositive(s.q);
  }

  lemma StepKeepsStop(s: State, a: Action, s': State)
    requires Inv(s) && Small(s) && StopOk(s) && Step(s, a) == Some(s')
    requires a.Stop? ==> s.pusher.Idle?
    ensures StopOk(s')
  {
    if a.Stop? && s.popper.Parked? {
      ParkedMeansDrained(s);
    }
    if a.Check? && s.length == 0 {
      ParkedMeansDrained(s);
    }
  }

  /** The stream's use of the queue: small loads, and a stop by the goroutine that pushes. */
  ghost predicate Orderly(run: seq<Action>) {
    forall j :: 0 <= j <= |run| ==>
      && Run(run[..j]).Some? && Small(Run(run[..j]).value)
      && (j < |run| && run[j].Stop? ==> Run(run[..j]).value.pusher.Idle?)
  }

  /** In such a run a popper that parks or ends after a stop has taken everything pushed before it. */
  lemma {:induction false} StopLosesNothing(run: seq<Action>)
    requires Orderly(run) && Run(run).Some?
    ensures StopOk(Run(run).value)
  {
    if run != [] {
      var before, a := run[..|run| - 1], run[|run| - 1];
      forall j | 0 <= j <= |before|
        ensures Run(before[..j]).Some? && Small(Run(before[..j]).value)
        ensures j < |before| && before[j].Stop? ==> Run(before[..j]).value.pusher.Idle?
      {
        assert before[..j] == run[..j];
      }
      assert before[..|before|] == before;
      var s := Run(before).value;
      assert Step(s, a) == Run(run);
      hide Run, Small, StopOk;
      StopLosesNothing(before);
      RunInv(before);
      StepKeepsStop(s, a, Run(run).value);
    }
  }

  lemma {:induction false} NoBytesMeansEmpty(es: seq<Segment>)
    requires Total(es) == 0
    ensures forall i :: 0 <= i < |es| ==> es[i].data == []
  {
    if es != [] {
      NoBytesMeansEmpty(es[..|es| - 1]);
      assert forall i :: 0 <= i < |es| - 1 ==> es[..|es| - 1][i] == es[i];
    }
  }

  /** In every run in which fewer than 2^32 bytes are queued, whatever lies in the queue beside a
      parked popper whose wait flag is set is an empty element. */
  lemma ParkedBesideEmptyOnly(run: seq<Action>)
    requires Run(run).Some? && Load(Run(run).value) < TWO32
    requires Run(run).value.popper.Parked? && Run(run).value.wait
    ensures
      var s := Run(run).value;
      forall i :: 0 <= i < |s.q| ==> s.q[i].data == []
  {
    RunInv(run);
    NoBytesMeansEmpty(Run(run).value.q);
  }

  /** The states through which a push to a parked popper goes. */
  lemma HandOff(s: State, el: Segment) returns (s1: State, s2: State, s3: State, s4: State, s5: State)
    requires s.popper.Parked? && s.wait && s.length == 0 && s.pusher.Idle? && |el.data| < 0x1_0000
    ensures Step(s, Push(el)) == Some(s1) && Step(s1, Count) == Some(s2) && Step(s2, Append) == Some(s3)
    ensures Step(s3, HandOver) == Some(s4) && Step(s4, Check) == Some(s5)
    ensures s5.q == s.q + [el] && (s5.popper.Parked? && s5.wait && s5.pusher.Idle? <==> el.data == [])
  {
    s1 := s.(pusher := Adding(el));
    s2 := s1.(length := |el.data|, wait := false, pusher := Counted(el, true));
    s3 := s2.(q := s.q + [el], pushed := s.pushed + [el], pusher := Waking);
    s4 := s3.(pusher := Idle, popper := Checking);
    s5 := if el.data == [] then s4.(wait := true, popper := Parked) else s4.(popper := Spinning);
  }

  /** A push that meets a parked popper, from any state that a run reaches: once the hand-off is
      done and the popper has looked again, it is parked beside the element if and only if the
      element is empty. */
  lemma PushStrandsIffEmpty(run: seq<Action>, el: Segment) returns (more: seq<Action>)
    requires Run(run).Some? && |el.data| < 0x1_0000
    requires
      var s := Run(run).value;
      s.popper.Parked? && s.wait && s.pusher.Idle?
    ensures more == run + [Push(el)] + [Count] + [Append] + [HandOver] + [Check]
    ensures
      var s := Run(more);
      && s.Some? && s.value.q == Run(run).value.q + [el]
      && (s.value.popper.Parked? && s.value.wait && s.value.pusher.Idle? <==> el.data == [])
  {
    RunInv(run);
    hide Run, Step;
    var s := Run(run).value;
    var s1, s2, s3, s4, s5 := HandOff(s, el);
    hide Inv;
    more := RunOne(run, s, Push(el), s1);
    more := RunOne(more, s1, Count, s2);
    more := RunOne(more, s2, Append, s3);
    more := RunOne(more, s3, HandOver, s4);
    more := RunOne(more, s4, Check, s5);
  }

  /** A zero-length element defeats the hand-off: the popper is woken, sees length zero and parks
      again over a queue that is not empty. */
  lemma EmptyElementStrands() returns (run: seq<Action>)
    ensures Run(run).Some?
    ensures
      var s := Run(run).value;
      s.popper.Parked? && s.wait && s.pusher.Idle? && !s.stopped && s.q == [Segment([], false)]
  {
    var e := Segment([], false);
    var s1 := Fresh.(popper := Checking);
    var s2 := s1.(wait := true, popper := Parked);
    var s3 := s2.(pusher := Adding(e));
    var s4 := s3.(wait := false, pusher := Counted(e, true));
    var s5 := s4.(q := [] + [e], pushed := [] + [e], pusher := Waking);
    var s6 := s5.(pusher := Idle, popper := Checking);
    run := RunOne([], Fresh, Pop, s1);
    run := RunOne(run, s1, Check, s2);
    run := RunOne(run, s2, Push(e), s3);
    run := RunOne(run, s3, Count, s4);
    run := RunOne(run, s4, Append, s5);
    run := RunOne(run, s5, HandOver, s6);
    run := RunOne(run, s6, Check, s6.(wait := true, popper := Parked));
  }

  lemma RunOne(run: seq<Action>, s: State, a: Action, s': State) returns (longer: seq<Action>)
    requires Run(run) == Some(s) && Step(s, a) == Some(s')
    ensures longer == run + [a] && Run(longer) == Some(s')
  {
    longer := run + [a];
    assert longer[..|run|] == run;
  }
}
