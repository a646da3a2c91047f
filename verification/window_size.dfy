/** The loop of `receiveWindow.calcSize`: how a measured size becomes the new window, and when the
    window of a stream becomes zero. Ratios and bandwidths are real numbers. */
module WindowSize {
  import opened Options
  import opened Segments
  import opened Words
  import RecvQueue
  import Stream
  import StreamProgress
  import StreamTheorems

  const MAXIMUM_WINDOW_SIZE: nat := 0x800_0000

  /** The share of the largest window that goes with the stream's share of the bandwidth. */
  function Limit(connBw: real, muxBw: real): (limit: nat)
    requires connBw > 0.0 && muxBw > 0.0
    ensures limit <= MAXIMUM_WINDOW_SIZE
  {
    (MAXIMUM_WINDOW_SIZE as real * (connBw / (muxBw + connBw))).Floor
  }

  /** One attempt at the compare-and-swap: the free part of the window then, and the result `wide`
      of converting a number beyond 32 bits, which the language leaves open. */
  datatype Attempt = Attempt(rem: u31, wide: u32)

  /** What one call goes by: the size from latency and bandwidth, never below the initial one, the
      attempts that failed, each of which hands its size on, the last one, and the bandwidths. */
  datatype Measure = Measure(n: u32, failed: seq<Attempt>, last: Attempt, connBw: real, muxBw: real)

  predicate Possible(m: Measure) {
    m.n >= INITIAL_WINDOW && m.connBw >= 0.0 && m.muxBw >= 0.0
  }

  /** The gain for a window that is little used: it applies from a free part above 0.8. */
  function Gain(n: real, ra: real): real {
    if ra > 0.8 then n * 1.5625 * ra * ra else n
  }

  /** The free part; of an empty window it is not a number, which is not above anything. */
  function FreePart(rem: u31, size: u31): real {
    if size == 0 then 0.0 else rem as real / size as real
  }

  function Gained(n: u32, t: Attempt, size: u31): u32 {
    GainNeverLowers(n as real, FreePart(t.rem, size));
    var g := Gain(n as real, FreePart(t.rem, size)).Floor;
    if g < TWO32 then g else t.wide
  }

  lemma Product(n: real, d: real)
    requires n >= 0.0 && d >= 0.0
    ensures n * d >= 0.0
  {
  }

  /** The gain never makes a size smaller. */
  lemma GainNeverLowers(n: real, ra: real)
    requires n >= 0.0
    ensures Gain(n, ra) >= n
  {
    if ra > 0.8 {
      var square := ra * ra;
      assert (ra - 0.8) * (ra + 0.8) > 0.0;
      assert square > 0.64;
      var f := 1.5625 * square;
      Product(n, f - 1.0);
      assert n * (f - 1.0) == n * f - n;
      assert n * 1.5625 * ra * ra == n * f;
    }
  }

  /** At least half the old size and, except from the initial size, at most twice. */
  function Paced(n: u32, size: u31): u32 {
    var n1: nat := if n < size / 2 then size / 2 else n;
    if n1 > 2 * size then
      if size == INITIAL_WINDOW then (if n1 > size * 6 then size * 6 else n1) else 2 * size
    else n1
  }

  function Clamped(n: u32, size: u31, connBw: real, muxBw: real): u32
    requires connBw >= 0.0 && muxBw >= 0.0
  {
    var share := if connBw > muxBw then muxBw else connBw;
    var paced := Paced(n, size);
    if share > 0.0 && paced > Limit(share, muxBw) then Limit(share, muxBw) else paced
  }

  /** The new window, as its word keeps it. */
  function NewSize(n: u32, size: u31, connBw: real, muxBw: real): u31
    requires connBw >= 0.0 && muxBw >= 0.0
  {
    Clamped(n, size, connBw, muxBw) % TWO31
  }

  lemma BelowOne(x: real, total: real, part: real)
    requires total > 0.0 && x * total == part
    ensures x < 1.0 <==> part < total
  {
    if x < 1.0 {
      assert (1.0 - x) * total > 0.0;
    } else {
      assert (x - 1.0) * total >= 0.0;
    }
  }

  lemma Scaled(big: real, share: real, part: real, total: real)
    requires share * total == part
    ensures big * share * total == big * part
  {
    assert big * share * total == big * (share * total);
  }

  lemma LimitZeroIff(connBw: real, muxBw: real)
    requires connBw > 0.0 && muxBw > 0.0
    ensures Limit(connBw, muxBw) == 0 <==> MAXIMUM_WINDOW_SIZE as real * connBw < muxBw + connBw
  {
    var big, total := MAXIMUM_WINDOW_SIZE as real, muxBw + connBw;
    var share := connBw / total;
    assert share * total == connBw;
    Scaled(big, share, connBw, total);
    BelowOne(big * share, total, big * connBw);
    assert Limit(connBw, muxBw) == (big * share).Floor;
  }

  /** The pacing alone gives zero only from a window of at most one byte, and 2^31, which the 31 bits
      of the word keep as zero, only from a window of at least half of that. */
  lemma PacedZeroIff(n: u32, size: u31)
    ensures Paced(n, size) == 0 <==> size == 0 || (size == 1 && n == 0)
    ensures Paced(n, size) == TWO31 <==> if size == TWO31 / 2 then n >= TWO31 else size > TWO31 / 2 && n == TWO31
  {
  }

  /** When a receiver sets its window to zero: from zero, so no measurement opens it again; from
      one byte on a size of zero; when the stream's measured bandwidth is less than one 2^27th of
      its sum with the link's; or, without measured bandwidths, when the size reaches 2^31. */
  lemma ZeroIff(n: u32, size: u31, connBw: real, muxBw: real)
    requires connBw >= 0.0 && muxBw >= 0.0
    ensures
      var limited := connBw > 0.0 && muxBw > 0.0;
      NewSize(n, size, connBw, muxBw) == 0 <==>
        || size == 0
        || (size == 1 && n == 0)
        || (limited && MAXIMUM_WINDOW_SIZE as real * connBw < muxBw + connBw)
        || (!limited && (if size == TWO31 / 2 then n >= TWO31 else size > TWO31 / 2 && n == TWO31))
  {
    PacedZeroIff(n, size);
    hide Paced;
    if connBw > 0.0 && muxBw > 0.0 {
      LimitZeroIff(if connBw > muxBw then muxBw else connBw, muxBw);
    }
    hide Limit;
  }

  // ---- The size that one call sets ----

  /** The size after some failed attempts. The maximum itself does not change meanwhile. */
  function Carried(m: Measure, failed: seq<Attempt>, size: u31): u32
    requires Possible(m)
  {
    if failed == [] then m.n
    else
      var n := Carried(m, failed[..|failed| - 1], size);
      Clamped(Gained(n, failed[|failed| - 1], size), size, m.connBw, m.muxBw)
  }

  /** The size of the last attempt before it is paced and limited. */
  function Final(m: Measure, size: u31): u32
    requires Possible(m)
  {
    Gained(Carried(m, m.failed, size), m.last, size)
  }

  function Resized(m: Measure, size: u31): u31
    requires Possible(m)
  {
    NewSize(Final(m, size), size, m.connBw, m.muxBw)
  }

  predicate Limited(m: Measure) {
    m.connBw > 0.0 && m.muxBw > 0.0
  }

  predicate SmallShare(m: Measure) {
    Limited(m) && MAXIMUM_WINDOW_SIZE as real * m.connBw < m.muxBw + m.connBw
  }

  /** The gain takes a size beyond 32 bits, and the conversion gives zero. */
  predicate Overflows(n: u32, t: Attempt, size: u31) {
    Gain(n as real, FreePart(t.rem, size)) >= TWO32 as real && t.wide == 0
  }

  predicate AnyOverflows(m: Measure, failed: seq<Attempt>, size: u31)
    requires Possible(m)
  {
    failed != []
    && (AnyOverflows(m, failed[..|failed| - 1], size)
        || Overflows(Carried(m, failed[..|failed| - 1], size), failed[|failed| - 1], size))
  }

  /** A call that closes an open window: the stream's measured bandwidth is less than one 2^27th of
      its sum with the link's; or, without measured bandwidths, the size reaches the 2^31 that the
      word keeps as zero; or an attempt for a window of one byte overflows to zero. */
  predicate Zeroes(m: Measure, size: u31)
    requires Possible(m)
  {
    || SmallShare(m)
    || (!Limited(m)
        && if size == TWO31 / 2 then Final(m, size) >= TWO31 else size > TWO31 / 2 && Final(m, size) == TWO31)
    || (size == 1 && AnyOverflows(m, m.failed + [m.last], size))
  }

  lemma FloorBelow(x: real)
    requires x >= 1.0
    ensures x.Floor >= 1 && (x.Floor < TWO32 <==> x < TWO32 as real)
  {
  }

  lemma GainedZeroIff(n: u32, t: Attempt, size: u31)
    ensures Gained(n, t, size) == 0 <==> n == 0 || Overflows(n, t, size)
  {
    GainNeverLowers(n as real, FreePart(t.rem, size));
    if n > 0 {
      FloorBelow(Gain(n as real, FreePart(t.rem, size)));
      hide Gain, FreePart;
    }
  }

  /** Without a small share an attempt hands on zero only for a window of at most one byte. */
  lemma ClampedZeroIff(n: u32, size: u31, m: Measure)
    requires Possible(m) && !SmallShare(m) && size > 0
    ensures Clamped(n, size, m.connBw, m.muxBw) == 0 <==> size == 1 && n == 0
  {
    PacedZeroIff(n, size);
    hide Paced;
    if Limited(m) {
      LimitZeroIff(if m.connBw > m.muxBw then m.muxBw else m.connBw, m.muxBw);
    }
    hide Limit;
  }

  lemma {:induction false} CarriedZeroIff(m: Measure, failed: seq<Attempt>)
    requires Possible(m) && !SmallShare(m)
    ensures Carried(m, failed, 1) == 0 <==> AnyOverflows(m, failed, 1)
  {
    if failed != [] {
      hide Clamped, Gained, Overflows, SmallShare;
      var front, t := failed[..|failed| - 1], failed[|failed| - 1];
      CarriedZeroIff(m, front);
      GainedZeroIff(Carried(m, front, 1), t, 1);
      ClampedZeroIff(Gained(Carried(m, front, 1), t, 1), 1, m);
    }
  }

  lemma FinalZeroIff(m: Measure)
    requires Possible(m) && !SmallShare(m)
    ensures Final(m, 1) == 0 <==> AnyOverflows(m, m.failed + [m.last], 1)
  {
    hide Gained, Clamped, Overflows, SmallShare;
    assert (m.failed + [m.last])[..|m.failed|] == m.failed;
    CarriedZeroIff(m, m.failed);
    GainedZeroIff(Carried(m, m.failed, 1), m.last, 1);
  }

  lemma ResizedZeroIff(m: Measure, size: u31)
    requires Possible(m)
    ensures Resized(m, size) == 0 <==> size == 0 || Zeroes(m, size)
  {
    hide NewSize, Final, AnyOverflows;
    if size == 1 && !SmallShare(m) {
      FinalZeroIff(m);
    }
    ZeroIff(Final(m, size), size, m.connBw, m.muxBw);
  }

  // ---- The window of a stream ----

  /** Every resize of the run is what a call of `calcSize` makes of the window at that moment. */
  ghost predicate Calculated(run: seq<Stream.Action>, ms: seq<Measure>) {
    |ms| == |run| && forall j :: 0 <= j < |run| ==> CalculatedAt(run, ms[j], j)
  }

  predicate Resizes(a: Stream.Action) {
    a.Resize? && a.to.Some?
  }

  ghost predicate CalculatedAt(run: seq<Stream.Action>, m: Measure, j: nat)
    requires j < |run|
  {
    Resizes(run[j]) ==>
      && Stream.Run(run[..j]).Some?
      && var size := Stream.Run(run[..j]).value.rcv.win.max;
         Possible(m) && run[j].to.value == Resized(m, size)
  }

  ghost predicate ZeroesAt(run: seq<Stream.Action>, m: Measure, j: nat) {
    && j < |run| && Resizes(run[j]) && Stream.Run(run[..j]).Some? && Possible(m)
    && Zeroes(m, Stream.Run(run[..j]).value.rcv.win.max)
  }

  ghost predicate EverZeroes(run: seq<Stream.Action>, ms: seq<Measure>) {
    exists j: nat :: j < |ms| && ZeroesAt(run, ms[j], j)
  }

  /** Only a resize changes the maximum. */
  lemma OnlyResizesChange(s: Stream.State, a: Stream.Action, s': Stream.State)
    requires Stream.Step(s, a) == Some(s')
    ensures s'.rcv.win.max == if Resizes(a) then a.to.value else s.rcv.win.max
  {
    hide RecvQueue.Step, RecvQueue.BeginPop, RecvQueue.BeginPush, RecvQueue.StopQueue, Stream.Remaining;
  }

  lemma EverZeroesLonger(run: seq<Stream.Action>, ms: seq<Measure>, a: Stream.Action, m: Measure)
    requires |ms| == |run|
    ensures EverZeroes(run + [a], ms + [m]) <==> EverZeroes(run, ms) || ZeroesAt(run + [a], m, |run|)
  {
    hide Stream.Run, Zeroes;
    forall j: nat ensures j < |run| ==> (ZeroesAt(run + [a], ms[j], j) <==> ZeroesAt(run, ms[j], j)) {
      if j < |run| {
        assert (run + [a])[..j] == run[..j];
      }
    }
    assert (ms + [m])[|run|] == m;
    forall j: nat ensures j < |ms| ==> (ms + [m])[j] == ms[j] {
    }
    hide ZeroesAt;
  }

  lemma CalculatedBefore(run: seq<Stream.Action>, ms: seq<Measure>, k: nat)
    requires Calculated(run, ms) && k <= |run|
    ensures Calculated(run[..k], ms[..k])
  {
    hide Stream.Run, Resized;
    forall j | 0 <= j < k ensures CalculatedAt(run[..k], ms[..k][j], j) {
      assert CalculatedAt(run, ms[j], j);
      assert run[..k][..j] == run[..j];
    }
  }

  /** In any run the receiver's window is zero exactly from the first such call on: nothing else
      closes it, and nothing opens it again. */
  lemma {:induction false} ZeroIffReached(run: seq<Stream.Action>, ms: seq<Measure>)
    requires Stream.Run(run).Some? && Calculated(run, ms)
    ensures Stream.Run(run).value.rcv.win.max == 0 <==> EverZeroes(run, ms)
  {
    if run != [] {
      var n := |run| - 1;
      var before, a, front, m := run[..n], run[n], ms[..n], ms[n];
      assert run == before + [a] && ms == front + [m];
      StreamTheorems.LastStep(run);
      CalculatedBefore(run, ms, n);
      assert CalculatedAt(run, m, n);
      hide Stream.Run, Stream.Step, Resized, Zeroes, EverZeroes;
      ZeroIffReached(before, front);
      EverZeroesLonger(before, front, a, m);
      var s := Stream.Run(before).value;
      OnlyResizesChange(s, a, Stream.Run(run).value);
      if Resizes(a) {
        ResizedZeroIff(m, s.rcv.win.max);
      }
    }
  }

  lemma ZeroResizeMeans(run: seq<Stream.Action>, ms: seq<Measure>, j: nat)
    requires Calculated(run, ms) && j < |run| && run[j] == Stream.Resize(Some(0))
    ensures EverZeroes(run, ms)
  {
    hide Stream.Run, Resized, Zeroes;
    assert CalculatedAt(run, ms[j], j);
    var size := Stream.Run(run[..j]).value.rcv.win.max;
    ResizedZeroIff(ms[j], size);
    if size == 0 {
      CalculatedBefore(run, ms, j);
      ZeroIffReached(run[..j], ms[..j]);
      var i: nat :| i < |ms[..j]| && ZeroesAt(run[..j], ms[..j][i], i);
      assert run[..j][..i] == run[..i];
      assert ZeroesAt(run, ms[i], i);
    } else {
      assert ZeroesAt(run, ms[j], j);
    }
  }

  /** So unless such a call occurs, a parked writer is never stranded. */
  lemma NeverStranded(run: seq<Stream.Action>, ms: seq<Measure>)
    requires Stream.Run(run).Some? && Calculated(run, ms) && !EverZeroes(run, ms)
    requires Stream.Run(run).value.snd.writer.Parked? && !Stream.Run(run).value.snd.closed
    ensures
      var s := Stream.Run(run).value;
      && (StreamProgress.Next(s).Some? ==> Stream.Step(s, StreamProgress.Next(s).value).Some?)
      && (StreamProgress.Next(s).None? ==> StreamProgress.ReaderOwes(s))
  {
    hide Stream.Run, Stream.Step, Calculated, EverZeroes;
    forall j | 0 <= j < |run| ensures run[j] != Stream.Resize(Some(0)) {
      if run[j] == Stream.Resize(Some(0)) {
        ZeroResizeMeans(run, ms, j);
      }
    }
    StreamProgress.ParkedHasNext(run);
  }
}
