/** When one session's removal or failure takes another session's entry out of the map: stated on
    the schedule, that is on the run and the order of its operations. */
module UdpEviction {
  import opened Options
  import opened UdpSession

  /** A builder's operation that fails and runs `failBuild`. */
  predicate FailsBuild(s: State, a: Action) {
    match a
    case Acquire(sid, flowExceeded) =>
      && sid < |s.sessions| && s.sessions[sid].phase == Placed
      && (flowExceeded || (s.maxConn != 0 && s.nowConn >= s.maxConn))
    case Link(sid, linked) => sid < |s.sessions| && s.sessions[sid].phase == Slotted && !linked
    case _ => false
  }

  /** The second half of a removal, or a failing build: an operation that deletes a key, and the
      session on whose behalf it does. */
  datatype Deletion = Deletion(key: Key, owner: nat)

  function DeletionOf(s: State, a: Action): Option<Deletion> {
    if a.RemoverDelete? && a.r < |s.removers| && s.removers[a.r].phase.Deleting? then
      Some(Deletion(s.removers[a.r].key, s.removers[a.r].sid))
    else if FailsBuild(s, a) then Some(Deletion(s.sessions[a.sid].key, a.sid))
    else None
  }

  /** The session that an operation on the map acts for. */
  function Acting(s: State, a: Action): Option<nat> {
    match a
    case RemoverDelete(r) => if r < |s.removers| then Some(s.removers[r].sid) else None
    case Acquire(sid, _) => Some(sid)
    case Link(sid, _) => Some(sid)
    case _ => None
  }

  /** An entry disappears that is not the acting session's own. */
  ghost predicate Evicts(s: State, a: Action, s': State) {
    exists k :: k in s.addrMap && k !in s'.addrMap && Acting(s, a) != Some(s.addrMap[k])
  }

  ghost predicate EvictsAt(maxConn: int, run: seq<Action>, j: nat) {
    && j < |run| && Run(maxConn, run[..j]).Some? && Run(maxConn, run[..j + 1]).Some?
    && Evicts(Run(maxConn, run[..j]).value, run[j], Run(maxConn, run[..j + 1]).value)
  }

  /** Some operation of the run evicts. */
  ghost predicate Evicted(maxConn: int, run: seq<Action>) {
    exists j: nat :: EvictsAt(maxConn, run, j)
  }

  predicate DeletedAt(maxConn: int, run: seq<Action>, r: nat, key: Key, j: nat) {
    && j < |run| && RemoverLoad(r) in run[..j] && Run(maxConn, run[..j]).Some?
    && var d := DeletionOf(Run(maxConn, run[..j]).value, run[j]); d.Some? && d.value.key == key
  }

  /** Somebody has deleted the key since remover `r` looked. */
  ghost predicate Overtaken(maxConn: int, run: seq<Action>, r: nat, key: Key) {
    exists j: nat :: DeletedAt(maxConn, run, r, key, j)
  }

  predicate LostAt(maxConn: int, run: seq<Action>, sid: nat, key: Key, j: nat) {
    && j < |run| && Run(maxConn, run[..j]).Some? && sid < |Run(maxConn, run[..j]).value.sessions|
    && var d := DeletionOf(Run(maxConn, run[..j]).value, run[j]); d.Some? && d.value.key == key
  }

  /** Somebody has deleted the key since session `sid` was placed. */
  ghost predicate Lost(maxConn: int, run: seq<Action>, sid: nat, key: Key) {
    exists j: nat :: LostAt(maxConn, run, sid, key, j)
  }

  // ---- What a step does to the map and to the removers ----

  lemma MapAfter(s: State, a: Action, s': State)
    requires Step(s, a) == Some(s')
    ensures
      var d := DeletionOf(s, a);
      if d.Some? then
        && s'.addrMap == s.addrMap - {d.value.key} && Acting(s, a) == Some(d.value.owner)
        && s'.evicted == (s.evicted || (d.value.key in s.addrMap && s.addrMap[d.value.key] != d.value.owner))
      else
        && (forall k :: k in s.addrMap ==> k in s'.addrMap && s'.addrMap[k] == s.addrMap[k])
        && (!a.Place? ==> s'.addrMap == s.addrMap)
        && s'.evicted == s.evicted
  {
  }

  lemma EvictsFlag(s: State, a: Action, s': State)
    requires Step(s, a) == Some(s')
    ensures Evicts(s, a, s') <==>
            var d := DeletionOf(s, a); d.Some? && d.value.key in s.addrMap && s.addrMap[d.value.key] != d.value.owner
    ensures s'.evicted <==> s.evicted || Evicts(s, a, s')
  {
    MapAfter(s, a, s');
    hide Step, DeletionOf, Acting;
  }

  /** How remover `r` stands after a step it was there for. */
  function RemoverAfter(s: State, a: Action, r: nat): Remover
    requires r < |s.removers|
  {
    var x := s.removers[r];
    if a == RemoverLoad(r) then
      x.(phase := if x.key in s.addrMap && s.addrMap[x.key] == x.sid then Deleting(false) else Checking)
    else if a == RemoverDelete(r) then x.(phase := Checking)
    else if a == RemoverCheck(r) then x.(phase := Done)
    else if x.phase.Deleting? && DeletionOf(s, a).Some? && DeletionOf(s, a).value.key == x.key then
      x.(phase := Deleting(true))
    else x
  }

  /** A remover's own operations are possible only at their places. */
  predicate InPlace(x: Remover, a: Action, r: nat) {
    && (a == RemoverLoad(r) ==> x.phase.Loading?)
    && (a == RemoverDelete(r) ==> x.phase.Deleting?)
    && (a == RemoverCheck(r) ==> x.phase.Checking?)
  }

  lemma RemoversAfter(s: State, a: Action, s': State, r: nat)
    requires Step(s, a) == Some(s') && r < |s'.removers|
    ensures r < |s.removers| ==> InPlace(s.removers[r], a, r) && s'.removers[r] == RemoverAfter(s, a, r)
    ensures r >= |s.removers| ==> s'.removers[r].phase.Loading? && a != RemoverLoad(r)
  {
    if DeletionOf(s, a).Some? {
      DeletionMarks(s, a, s', r);
    } else if a.RemoverLoad? || a.RemoverCheck? {
      OwnMarks(s, a, s', r);
    } else {
      OtherMarks(s, a, s', r);
    }
  }

  lemma OwnMarks(s: State, a: Action, s': State, r: nat)
    requires Step(s, a) == Some(s') && r < |s'.removers| && (a.RemoverLoad? || a.RemoverCheck?)
    ensures r < |s.removers| && InPlace(s.removers[r], a, r) && s'.removers[r] == RemoverAfter(s, a, r)
  {
  }

  lemma OtherMarks(s: State, a: Action, s': State, r: nat)
    requires Step(s, a) == Some(s') && r < |s'.removers|
    requires DeletionOf(s, a).None? && !a.RemoverLoad? && !a.RemoverCheck?
    ensures r < |s.removers| ==> s'.removers[r] == s.removers[r]
    ensures r >= |s.removers| ==> s'.removers[r].phase.Loading?
    ensures !a.RemoverDelete?
  {
    hide Delete;
  }

  lemma DeletionMarks(s: State, a: Action, s': State, r: nat)
    requires Step(s, a) == Some(s') && r < |s'.removers| && DeletionOf(s, a).Some?
    ensures r < |s.removers| && InPlace(s.removers[r], a, r) && s'.removers[r] == RemoverAfter(s, a, r)
  {
    if a.RemoverDelete? {
      hide FailBuild;
    } else {
      hide RemoverDeleteStep;
    }
  }

  lemma RemoversStay(s: State, a: Action, s': State)
    requires Step(s, a) == Some(s')
    ensures |s.removers| <= |s'.removers|
    ensures a.RemoverLoad? ==> a.r < |s.removers|
  {
  }

  // ---- The recorded history is the history of the run ----

  lemma DeletedAtLonger(maxConn: int, run: seq<Action>, a: Action, r: nat, key: Key, j: nat)
    ensures
      DeletedAt(maxConn, run + [a], r, key, j) <==>
      if j == |run| then
        && RemoverLoad(r) in run && Run(maxConn, run).Some?
        && var d := DeletionOf(Run(maxConn, run).value, a); d.Some? && d.value.key == key
      else DeletedAt(maxConn, run, r, key, j)
  {
    var longer := run + [a];
    if j < |run| {
      assert longer[..j] == run[..j];
    } else if j == |run| {
      assert longer[..j] == run;
    }
    hide Run, DeletionOf;
  }

  lemma OvertakenLonger(maxConn: int, run: seq<Action>, a: Action, r: nat, key: Key)
    requires Run(maxConn, run).Some?
    ensures
      Overtaken(maxConn, run + [a], r, key) <==>
      || Overtaken(maxConn, run, r, key)
      || (RemoverLoad(r) in run
          && var d := DeletionOf(Run(maxConn, run).value, a); d.Some? && d.value.key == key)
  {
    forall j: nat
      ensures DeletedAt(maxConn, run + [a], r, key, j) <==>
              if j == |run| then
                RemoverLoad(r) in run
                && var d := DeletionOf(Run(maxConn, run).value, a); d.Some? && d.value.key == key
              else DeletedAt(maxConn, run, r, key, j)
    {
      DeletedAtLonger(maxConn, run, a, r, key, j);
    }
    hide DeletedAt, DeletionOf, Run;
    assert !(|run| < |run|);
    NotPast(maxConn, run, r, key);
  }

  lemma NotPast(maxConn: int, run: seq<Action>, r: nat, key: Key)
    ensures !DeletedAt(maxConn, run, r, key, |run|)
  {
  }

  /** A remover has looked when it is past looking, and while it is between looking and deleting
      its mark says whether it was overtaken. */
  ghost predicate MarkOk(maxConn: int, run: seq<Action>, x: Remover, r: nat) {
    && (x.phase.Loading? <==> RemoverLoad(r) !in run)
    && (x.phase.Deleting? ==> (x.phase.overtaken <==> Overtaken(maxConn, run, r, x.key)))
  }

  ghost predicate MarksOk(maxConn: int, run: seq<Action>, s: State) {
    && (forall r: nat :: r < |s.removers| ==> MarkOk(maxConn, run, s.removers[r], r))
    && (forall r: nat :: RemoverLoad(r) in run ==> r < |s.removers|)
  }

  lemma {:induction false} MarksAreHistory(maxConn: int, run: seq<Action>)
    requires Run(maxConn, run).Some?
    ensures MarksOk(maxConn, run, Run(maxConn, run).value)
  {
    if run != [] {
      var before, a := run[..|run| - 1], run[|run| - 1];
      assert run == before + [a];
      MarksAreHistory(maxConn, before);
      var s, s' := Run(maxConn, before).value, Run(maxConn, run).value;
      assert Step(s, a) == Some(s');
      StepMarks(maxConn, before, a, s, s');
    }
  }

  lemma StepMarks(maxConn: int, before: seq<Action>, a: Action, s: State, s': State)
    requires Run(maxConn, before) == Some(s) && Step(s, a) == Some(s') && MarksOk(maxConn, before, s)
    ensures MarksOk(maxConn, before + [a], s')
  {
    hide Run, Step, DeletionOf, MarkOk;
    RemoversStay(s, a, s');
    forall r: nat | r < |s'.removers| ensures MarkOk(maxConn, before + [a], s'.removers[r], r) {
      RemoversAfter(s, a, s', r);
      if r < |s.removers| {
        assert MarkOk(maxConn, before, s.removers[r], r);
        OldMark(maxConn, before, a, s, r);
      } else {
        assert RemoverLoad(r) !in before;
        NewMark(maxConn, before + [a], s'.removers[r], r);
      }
    }
  }

  lemma NewMark(maxConn: int, run: seq<Action>, x: Remover, r: nat)
    requires x.phase.Loading? && RemoverLoad(r) !in run
    ensures MarkOk(maxConn, run, x, r)
  {
  }

  lemma OldMark(maxConn: int, before: seq<Action>, a: Action, s: State, r: nat)
    requires Run(maxConn, before) == Some(s) && r < |s.removers| && MarkOk(maxConn, before, s.removers[r], r)
    requires InPlace(s.removers[r], a, r)
    ensures MarkOk(maxConn, before + [a], RemoverAfter(s, a, r), r)
  {
    var x := s.removers[r];
    OvertakenLonger(maxConn, before, a, r, x.key);
    if RemoverLoad(r) !in before {
      NotOvertakenBefore(maxConn, before, r, x.key);
    }
    hide Run, DeletionOf, Overtaken;
  }

  lemma NotOvertakenBefore(maxConn: int, run: seq<Action>, r: nat, key: Key)
    requires RemoverLoad(r) !in run
    ensures !Overtaken(maxConn, run, r, key)
  {
    hide Run, DeletionOf;
    forall j: nat ensures !DeletedAt(maxConn, run, r, key, j) {
      assert j <= |run| ==> forall x :: x in run[..j] ==> x in run;
    }
  }

  // ---- A session has its entry until somebody deletes the key ----

  lemma LostLonger(maxConn: int, run: seq<Action>, a: Action, sid: nat, key: Key)
    requires Run(maxConn, run).Some?
    ensures
      var s := Run(maxConn, run).value;
      var d := DeletionOf(s, a);
      Lost(maxConn, run + [a], sid, key) <==>
      Lost(maxConn, run, sid, key) || (sid < |s.sessions| && d.Some? && d.value.key == key)
  {
    hide Run, DeletionOf;
    var longer := run + [a];
    forall j: nat
      ensures LostAt(maxConn, longer, sid, key, j) <==>
              if j == |run| then
                sid < |Run(maxConn, run).value.sessions|
                && var d := DeletionOf(Run(maxConn, run).value, a); d.Some? && d.value.key == key
              else LostAt(maxConn, run, sid, key, j)
    {
      if j < |run| {
        assert longer[..j] == run[..j];
      } else if j == |run| {
        assert longer[..j] == run;
      }
    }
    assert !LostAt(maxConn, run, sid, key, |run|);
    hide LostAt;
  }

  predicate HasEntry(s: State, sid: nat)
    requires sid < |s.sessions|
  {
    s.sessions[sid].key in s.addrMap && s.addrMap[s.sessions[sid].key] == sid
  }

  lemma KeyStays(s: State, a: Action, s': State, i: nat)
    requires Step(s, a) == Some(s') && i < |s.sessions|
    ensures i < |s'.sessions| && s'.sessions[i].key == s.sessions[i].key
  {
  }

  lemma NoneAppended(s: State, a: Action, s': State)
    requires Step(s, a) == Some(s') && !a.Place?
    ensures |s'.sessions| == |s.sessions|
  {
  }

  /** Only placing a session adds an entry, and that is its own. */
  lemma EntriesAfter(s: State, a: Action, s': State)
    requires Step(s, a) == Some(s')
    ensures |s.sessions| <= |s'.sessions| <= |s.sessions| + 1
    ensures
      if |s'.sessions| == |s.sessions| then
        var d := DeletionOf(s, a);
        s'.addrMap == if d.Some? then s.addrMap - {d.value.key} else s.addrMap
      else
        var key := s'.sessions[|s.sessions|].key;
        DeletionOf(s, a).None? && key !in s.addrMap && s'.addrMap == s.addrMap[key := |s.sessions|]
  {
    if !a.Place? {
      hide Step, DeletionOf;
      NoneAppended(s, a, s');
      MapAfter(s, a, s');
    }
  }

  ghost predicate EntryOk(maxConn: int, run: seq<Action>, s: State, sid: nat)
    requires sid < |s.sessions|
  {
    HasEntry(s, sid) <==> !Lost(maxConn, run, sid, s.sessions[sid].key)
  }

  ghost predicate EntriesOk(maxConn: int, run: seq<Action>, s: State) {
    && (forall sid: nat :: sid < |s.sessions| ==> EntryOk(maxConn, run, s, sid))
    && (forall sid: nat, key :: sid >= |s.sessions| ==> !Lost(maxConn, run, sid, key))
  }

  lemma StepEntries(maxConn: int, before: seq<Action>, a: Action, s: State, s': State)
    requires Run(maxConn, before) == Some(s) && Step(s, a) == Some(s') && EntriesOk(maxConn, before, s)
    ensures EntriesOk(maxConn, before + [a], s')
  {
    hide Run, Step, DeletionOf, Lost;
    EntriesAfter(s, a, s');
    forall sid: nat | sid < |s'.sessions| ensures EntryOk(maxConn, before + [a], s', sid) {
      LostLonger(maxConn, before, a, sid, s'.sessions[sid].key);
      if sid < |s.sessions| {
        KeyStays(s, a, s', sid);
        assert EntryOk(maxConn, before, s, sid);
      }
    }
    forall sid: nat, key | sid >= |s'.sessions| ensures !Lost(maxConn, before + [a], sid, key) {
      LostLonger(maxConn, before, a, sid, key);
    }
  }

  /** In every run, a session's key maps to it exactly until somebody deletes the key. */
  lemma {:induction false} EntriesAreHistory(maxConn: int, run: seq<Action>)
    requires Run(maxConn, run).Some?
    ensures EntriesOk(maxConn, run, Run(maxConn, run).value)
  {
    if run != [] {
      var before, a := run[..|run| - 1], run[|run| - 1];
      assert run == before + [a];
      hide EntriesOk;
      EntriesAreHistory(maxConn, before);
      var s, s' := Run(maxConn, before).value, Run(maxConn, run).value;
      assert Step(s, a) == Some(s');
      StepEntries(maxConn, before, a, s, s');
    }
  }

  // ---- Eviction, step by step ----

  /** A remover that is about to delete takes another session's entry exactly when somebody has
      deleted the key since it looked and the key has been placed again. */
  lemma EvictsIffOvertaken(maxConn: int, run: seq<Action>, r: nat)
    requires Run(maxConn, run).Some? && r < |Run(maxConn, run).value.removers|
    requires Run(maxConn, run).value.removers[r].phase.Deleting?
    ensures
      var s := Run(maxConn, run).value;
      var key := s.removers[r].key;
      && Step(s, RemoverDelete(r)).Some?
      && (Evicts(s, RemoverDelete(r), Step(s, RemoverDelete(r)).value) <==>
            Overtaken(maxConn, run, r, key) && key in s.addrMap)
  {
    var s, a := Run(maxConn, run).value, RemoverDelete(r);
    RunInv(maxConn, run);
    MarksAreHistory(maxConn, run);
    assert MarkOk(maxConn, run, s.removers[r], r);
    assert RemoverOk(s.removers[r], s.addrMap, s.sessions, s.closing);
    hide Inv, Run, Evicts, Overtaken, MarksOk;
    EvictsFlag(s, a, Step(s, a).value);
  }

  /** In every run, closed or open, evicted or not, exactly two kinds of operations take another
      session's entry: a remover's delete when the key has been deleted since it looked and placed
      again, and a failing build when the key has been deleted since the session was placed and
      placed again. */
  lemma StepEvictsIff(maxConn: int, run: seq<Action>, a: Action)
    requires Run(maxConn, run).Some? && Step(Run(maxConn, run).value, a).Some?
    ensures
      var s := Run(maxConn, run).value;
      Evicts(s, a, Step(s, a).value) <==>
      || (a.RemoverDelete? && a.r < |s.removers| && s.removers[a.r].key in s.addrMap
          && Overtaken(maxConn, run, a.r, s.removers[a.r].key))
      || (FailsBuild(s, a) && s.sessions[a.sid].key in s.addrMap
          && Lost(maxConn, run, a.sid, s.sessions[a.sid].key))
  {
    var s := Run(maxConn, run).value;
    if a.RemoverDelete? {
      EvictsIffOvertaken(maxConn, run, a.r);
    } else {
      hide Run, Evicts, Overtaken, Lost, Step;
      EvictsFlag(s, a, Step(s, a).value);
      EntriesAreHistory(maxConn, run);
      if FailsBuild(s, a) {
        assert EntryOk(maxConn, run, s, a.sid);
      }
    }
  }

  lemma EvictedLonger(maxConn: int, run: seq<Action>, a: Action)
    requires Run(maxConn, run + [a]).Some? && Run(maxConn, run).Some?
    ensures Evicted(maxConn, run + [a]) <==>
            Evicted(maxConn, run) || Evicts(Run(maxConn, run).value, a, Run(maxConn, run + [a]).value)
  {
    hide Run, Evicts;
    var longer := run + [a];
    forall j: nat
      ensures EvictsAt(maxConn, longer, j) <==>
              if j == |run| then Evicts(Run(maxConn, run).value, a, Run(maxConn, longer).value)
              else EvictsAt(maxConn, run, j)
    {
      if j < |run| {
        assert longer[..j] == run[..j] && longer[..j + 1] == run[..j + 1];
      } else if j == |run| {
        assert longer[..j] == run && longer[..j + 1] == longer;
      }
    }
    assert !EvictsAt(maxConn, run, |run|);
    hide EvictsAt;
  }

  lemma {:induction false} FlagMeansEvicted(maxConn: int, run: seq<Action>)
    requires Run(maxConn, run).Some?
    ensures Run(maxConn, run).value.evicted <==> Evicted(maxConn, run)
  {
    if run != [] {
      var before, a := run[..|run| - 1], run[|run| - 1];
      assert run == before + [a];
      FlagMeansEvicted(maxConn, before);
      assert Step(Run(maxConn, before).value, a) == Run(maxConn, run);
      hide Run, Step, Evicts, Evicted;
      EvictsFlag(Run(maxConn, before).value, a, Run(maxConn, run).value);
      EvictedLonger(maxConn, before, a);
    }
  }

  // ---- Eviction and overlapping removals ----

  predicate Overlap(s: State, p: nat, q: nat) {
    && p < |s.removers| && q < |s.removers| && p != q
    && s.removers[p].phase.Deleting? && s.removers[q].phase.Deleting? && s.removers[p].key == s.removers[q].key
  }

  /** Two removers of one key are both between looking and deleting. */
  ghost predicate Overlapping(s: State) {
    exists p: nat, q: nat :: Overlap(s, p, q)
  }

  /** That never happens in the run. */
  ghost predicate Sequential(maxConn: int, run: seq<Action>) {
    forall j :: 0 <= j <= |run| ==> Run(maxConn, run[..j]).Some? && !Overlapping(Run(maxConn, run[..j]).value)
  }

  ghost predicate NoneOvertaken(rs: seq<Remover>) {
    forall r :: 0 <= r < |rs| ==> rs[r].phase != Deleting(true)
  }

  /** A remover that was not overtaken stands before its own entry, so an operation that deletes
      the key of another remover between looking and deleting overlaps it. */
  lemma DeletionIsOwn(s: State, a: Action, s': State)
    requires Inv(s) && Step(s, a) == Some(s') && !s.closing && !s.evicted && NoneOvertaken(s.removers)
    ensures
      var d := DeletionOf(s, a);
      d.Some? ==> d.value.key in s.addrMap && s.addrMap[d.value.key] == d.value.owner
  {
    hide SlotsHeld, SessionsOk, MapOk, SlotsOk, ThreadsOk, Step;
    if a.RemoverDelete? && a.r < |s.removers| {
      assert RemoverOk(s.removers[a.r], s.addrMap, s.sessions, s.closing);
    }
  }

  lemma StepSequential(s: State, a: Action, s': State)
    requires Inv(s) && Step(s, a) == Some(s') && !s.closing && !s.evicted
    requires NoneOvertaken(s.removers) && !Overlapping(s)
    ensures !s'.evicted && NoneOvertaken(s'.removers)
  {
    DeletionIsOwn(s, a, s');
    MapAfter(s, a, s');
    var d := DeletionOf(s, a);
    forall r | 0 <= r < |s'.removers| ensures s'.removers[r].phase != Deleting(true) {
      RemoversAfter(s, a, s', r);
      if r < |s.removers| && s.removers[r].phase.Deleting? && d.Some? && d.value.key == s.removers[r].key {
        OnlyItself(s, a, r);
      }
    }
  }

  /** The only remover of a deleted key that is between looking and deleting is the one that deletes. */
  lemma OnlyItself(s: State, a: Action, r: nat)
    requires Inv(s) && !s.closing && NoneOvertaken(s.removers) && !Overlapping(s) && !s.evicted
    requires r < |s.removers| && s.removers[r].phase.Deleting?
    requires DeletionOf(s, a).Some? && DeletionOf(s, a).value.key == s.removers[r].key
    ensures a == RemoverDelete(r)
  {
    hide Inv, Overlapping;
    if a.RemoverDelete? {
      if a.r != r {
        OverlapShows(s, a.r, r);
      }
    } else {
      FailingIsUnready(s, a);
      DeletingIsReady(s, r);
    }
  }

  lemma OverlapShows(s: State, p: nat, q: nat)
    requires Overlap(s, p, q)
    ensures Overlapping(s)
  {
  }

  lemma FailingIsUnready(s: State, a: Action)
    requires Inv(s) && !s.closing && !s.evicted && FailsBuild(s, a)
    ensures
      var key := s.sessions[a.sid].key;
      key in s.addrMap && s.addrMap[key] == a.sid && s.sessions[a.sid].closes == 0
  {
    assert SessionOk(s.sessions[a.sid]);
    hide SlotsHeld, ThreadsOk, RemoversOk;
  }

  lemma DeletingIsReady(s: State, r: nat)
    requires Inv(s) && !s.closing && r < |s.removers| && s.removers[r].phase == Deleting(false)
    ensures
      var x := s.removers[r];
      && x.key in s.addrMap && s.addrMap[x.key] == x.sid
      && x.sid < |s.sessions| && s.sessions[x.sid].closes > 0
  {
    assert RemoverOk(s.removers[r], s.addrMap, s.sessions, s.closing);
    hide SlotsHeld, ThreadsOk;
  }

  lemma ClosingStays(s: State, a: Action, s': State)
    requires Step(s, a) == Some(s')
    ensures s.closing ==> s'.closing
  {
  }

  lemma OpenBuilders(s: State)
    requires Inv(s) && !s.closing && !s.evicted
    ensures BuildersMapped(s.addrMap, s.sessions)
  {
    hide SlotsHeld, SessionsOk, MapOk, ThreadsOk, RemoversOk, BuildersMapped;
  }

  lemma NothingYet(maxConn: int)
    ensures Run(maxConn, []).Some?
    ensures
      var s := Run(maxConn, []).value;
      !s.evicted && NoneOvertaken(s.removers) && BuildersMapped(s.addrMap, s.sessions)
  {
  }

  /** While the server is open and no two removers of one key are between looking and deleting at
      the same time, nothing is ever evicted: every session being built is the one its key maps
      to, so each key has at most one. */
  lemma {:induction false} SequentialNeverEvicts(maxConn: int, run: seq<Action>)
    requires Sequential(maxConn, run) && Run(maxConn, run).Some? && !Run(maxConn, run).value.closing
    ensures !Run(maxConn, run).value.evicted && !Evicted(maxConn, run)
    ensures NoneOvertaken(Run(maxConn, run).value.removers)
    ensures BuildersMapped(Run(maxConn, run).value.addrMap, Run(maxConn, run).value.sessions)
  {
    hide Step, Overlapping, Inv, NoneOvertaken, BuildersMapped;
    if run == [] {
      NothingYet(maxConn);
    } else {
      var before, a := run[..|run| - 1], run[|run| - 1];
      forall j | 0 <= j <= |before|
        ensures Run(maxConn, before[..j]).Some? && !Overlapping(Run(maxConn, before[..j]).value)
      {
        assert before[..j] == run[..j];
      }
      var s, s' := Run(maxConn, before).value, Run(maxConn, run).value;
      assert Step(s, a) == Some(s');
      assert before[..|before|] == before;
      assert !Overlapping(s);
      hide Run;
      ClosingStays(s, a, s');
      RunInv(maxConn, before);
      SequentialNeverEvicts(maxConn, before);
      StepSequential(s, a, s');
    }
    FlagMeansEvicted(maxConn, run);
    RunInv(maxConn, run);
    OpenBuilders(Run(maxConn, run).value);
  }

  /** From any state that a run reaches while the server is open with two removers of one key
      between looking and deleting, four more operations evict a session that is being built. */
  lemma OverlapEvicts(maxConn: int, run: seq<Action>, p: nat, q: nat) returns (more: seq<Action>)
    requires Run(maxConn, run).Some? && !Run(maxConn, run).value.closing && Overlap(Run(maxConn, run).value, p, q)
    ensures
      var s := Run(maxConn, run).value;
      more == run + [RemoverDelete(p), Arrive(s.removers[p].key), Place(|s.threads|)]
    ensures
      var s := Run(maxConn, more);
      && s.Some? && !s.value.closing && Step(s.value, RemoverDelete(q)).Some?
      && Evicts(s.value, RemoverDelete(q), Step(s.value, RemoverDelete(q)).value)
      && var key := s.value.removers[q].key;
         key in s.value.addrMap && s.value.addrMap[key] < |s.value.sessions|
         && Building(s.value.sessions[s.value.addrMap[key]].phase)
  {
    RunInv(maxConn, run);
    var s := Run(maxConn, run).value;
    var key := s.removers[p].key;
    assert RemoverOk(s.removers[q], s.addrMap, s.sessions, s.closing);
    var s1 := Step(s, RemoverDelete(p)).value;
    var s2 := Step(s1, Arrive(key)).value;
    var s3 := Step(s2, Place(|s.threads|)).value;
    more := Extend(maxConn, run, s, RemoverDelete(p));
    more := Extend(maxConn, more, s1, Arrive(key));
    more := Extend(maxConn, more, s2, Place(|s.threads|));
    hide Run;
    assert s3.addrMap[key] == |s.sessions| != s3.removers[q].sid;
    EvictsFlag(s3, RemoverDelete(q), Step(s3, RemoverDelete(q)).value);
  }

  lemma Extend(maxConn: int, run: seq<Action>, s: State, a: Action) returns (longer: seq<Action>)
    requires Run(maxConn, run) == Some(s) && Step(s, a).Some?
    ensures longer == run + [a] && Run(maxConn, longer) == Step(s, a)
  {
    longer := run + [a];
    assert longer[..|run|] == run;
  }

  // ---- Two runs that evict ----

  lemma OpenSession() returns (run: seq<Action>, s: State)
    ensures Run(0, run) == Some(s)
    ensures s == State(map[7 := 0], [Session(7, Running, 1, false, true, 0)], [Over], [], 1, 0, 0, false, false)
  {
    run, s := [], Fresh(0);
    run, s := Grow(run, s, Arrive(7));
    run, s := Grow(run, s, Place(0));
    run, s := Grow(run, s, Acquire(0, false));
    run, s := Grow(run, s, Link(0, true));
    run, s := Grow(run, s, Open(0));
  }

  lemma LookTogether() returns (run: seq<Action>, s: State)
    ensures Run(0, run) == Some(s)
    ensures s == State(map[7 := 0], [Session(7, Removing(0), 1, false, true, 0)], [Over],
                       [Remover(7, 0, Deleting(false)), Remover(7, 0, Deleting(false))], 1, 0, 0, false, false)
  {
    hide Run;
    run, s := OpenSession();
    run, s := Grow(run, s, End(0));
    run, s := Grow(run, s, Sweep(0));
    run, s := Grow(run, s, RemoverLoad(0));
    run, s := Grow(run, s, RemoverLoad(1));
  }

  lemma Grow(run: seq<Action>, s: State, a: Action) returns (run': seq<Action>, s': State)
    requires Run(0, run) == Some(s) && Step(s, a).Some?
    ensures Run(0, run') == Some(s') && Some(s') == Step(s, a) && run' == run + [a]
  {
    run' := Extend(0, run, s, a);
    s' := Step(s, a).value;
  }

  lemma SecondPlaced() returns (run: seq<Action>, s: State)
    ensures Run(0, run) == Some(s)
    ensures s == State(map[7 := 1], [Session(7, Removing(0), 1, false, true, 0), NewSession(7)], [Over, Over],
                       [Remover(7, 0, Checking), Remover(7, 0, Deleting(true))], 1, 0, 0, false, false)
  {
    hide Run;
    run, s := LookTogether();
    run, s := Grow(run, s, RemoverDelete(0));
    run, s := Grow(run, s, Arrive(7));
    run, s := Grow(run, s, Place(1));
  }

  /** Removal can evict a newer session, here one that is still being built: the session's own
      builder and the sweeper look together, one deletes, a packet places a new session, the other
      deletes that; the next packet then places a third session beside the second. */
  lemma EvictionHappens() returns (run: seq<Action>, s: State)
    ensures Run(0, run) == Some(s) && !s.closing && Evicted(0, run)
    ensures s == State(map[7 := 2],
                       [Session(7, Removing(0), 1, false, true, 0), NewSession(7), NewSession(7)],
                       [Over, Over, Over],
                       [Remover(7, 0, Checking), Remover(7, 0, Checking)], 1, 0, 0, false, true)
  {
    hide Run;
    run, s := SecondPlaced();
    run, s := Grow(run, s, RemoverDelete(1));
    run, s := Grow(run, s, Arrive(7));
    run, s := Grow(run, s, Place(2));
    FlagMeansEvicted(0, run);
  }

  /** After that a failing build evicts as well: the second session, which has lost its entry, fails
      and deletes the entry of the third, which goes on being built where no packet finds it. */
  lemma FailedBuildEvicts() returns (run: seq<Action>, s: State)
    ensures Run(0, run) == Some(s) && !s.closing
    ensures FailsBuild(s, Acquire(1, true)) && Step(s, Acquire(1, true)).Some?
    ensures
      var s' := Step(s, Acquire(1, true)).value;
      && Evicts(s, Acquire(1, true), s')
      && |s'.sessions| == 3 && Building(s'.sessions[2].phase) && s'.sessions[2].key !in s'.addrMap
  {
    run, s := EvictionHappens();
    hide Run;
    EvictsFlag(s, Acquire(1, true), Step(s, Acquire(1, true)).value);
  }
}
