/** UDP sessions as a concurrent protocol: packet goroutines that look up or place a session,
    builders inside `runSession`, goroutines inside `removeSession`, and the rest of the server,
    which takes and returns quota slots of the same client. Sessions are numbered in the order
    they are placed. `closes`, `targetCloses`, `overtaken` and `evicted` are histories; module
    UdpEviction says what the last two mean in terms of the run. */
module UdpSession {
  import opened Options

  type Key = nat

  /** Where the builder of a session is inside `runSession`. */
  datatype Phase =
    | Placed
    | Slotted
    | Linked
    | Running
    | Removing(r: nat)
    | Releasing
    | Finished

  /** `closes` counts closings of the ready channel, `targetCloses` those of the target; `target`
      says whether the target is set. */
  datatype Session = Session(
    key: Key,
    phase: Phase,
    closes: nat,
    failed: bool,
    target: bool,
    targetCloses: nat)

  /** A goroutine that handles one packet. */
  datatype Thread = Looking(key: Key) | Waiting(sid: nat) | Writing(sid: nat) | Over

  /** A goroutine inside `removeSession`: before its Load, between Load and Delete, before looking
      at the ready channel, done. `overtaken` records that the key was deleted since its Load. */
  datatype RemoverPhase = Loading | Deleting(overtaken: bool) | Checking | Done

  datatype Remover = Remover(key: Key, sid: nat, phase: RemoverPhase)

  datatype State = State(
    addrMap: map<Key, nat>,
    sessions: seq<Session>,
    threads: seq<Thread>,
    removers: seq<Remover>,
    nowConn: int,
    others: int,
    maxConn: int,
    closing: bool,
    evicted: bool)

  datatype Action =
    | Arrive(key: Key)
    | Place(t: nat)
    | Acquire(sid: nat, flowExceeded: bool)
    | Link(sid: nat, linked: bool)
    | Open(sid: nat)
    | End(sid: nat)
    | Release(sid: nat)
    | Wake(t: nat)
    | GiveUp(t: nat)
    | Write(t: nat, last: bool)
    | Sweep(sid: nat)
    | CloseServer
    | CloseOne(sid: nat)
    | RemoverLoad(r: nat)
    | RemoverDelete(r: nat)
    | RemoverCheck(r: nat)
    | OtherTakes(checked: bool)
    | OtherReleases

  function Fresh(maxConn: int): State {
    State(map[], [], [], [], 0, 0, maxConn, false, false)
  }

  // ---- Packets ----

  /** The fast path: a session is there, or the goroutine goes on to place one. */
  function ArriveStep(s: State, key: Key): Option<State> {
    Some(s.(threads := s.threads + [if key in s.addrMap then Waiting(s.addrMap[key]) else Looking(key)]))
  }

  function NewSession(key: Key): Session {
    Session(key, Placed, 0, false, false, 0)
  }

  /** `LoadOrStore` of a placeholder. */
  function PlaceStep(s: State, t: nat): Option<State> {
    if t < |s.threads| && s.threads[t].Looking? then
      var key := s.threads[t].key;
      if key in s.addrMap then Some(s.(threads := s.threads[t := Waiting(s.addrMap[key])]))
      else
        Some(s.(threads := s.threads[t := Over],
                addrMap := s.addrMap[key := |s.sessions|],
                sessions := s.sessions + [NewSession(key)]))
    else None
  }

  function WakeStep(s: State, t: nat): Option<State> {
    if t < |s.threads| && s.threads[t].Waiting? && s.threads[t].sid < |s.sessions| then
      var x := s.sessions[s.threads[t].sid];
      if x.closes == 0 then None
      else Some(s.(threads := s.threads[t := if x.failed then Over else Writing(s.threads[t].sid)]))
    else None
  }

  function GiveUpStep(s: State, t: nat): Option<State> {
    if t < |s.threads| && s.threads[t].Waiting? then Some(s.(threads := s.threads[t := Over])) else None
  }

  /** A write to the target; after a failed one or one over the flow limit the session goes. */
  function WriteStep(s: State, t: nat, last: bool): Option<State> {
    if t < |s.threads| && s.threads[t].Writing? && s.threads[t].sid < |s.sessions| then
      var s1 := s.(threads := s.threads[t := Over]);
      Some(if last then Remove(s1, s.threads[t].sid) else s1)
    else None
  }

  // ---- Builders ----

  /** `failBuild`: mark, wake the waiting, delete whatever the key holds. */
  function FailBuild(s: State, sid: nat, next: Phase): State
    requires sid < |s.sessions|
  {
    var x := s.sessions[sid];
    Delete(s.(sessions := s.sessions[sid := x.(phase := next, failed := true, closes := x.closes + 1)]), x.key, sid)
  }

  function AcquireStep(s: State, sid: nat, flowExceeded: bool): Option<State> {
    if sid < |s.sessions| && s.sessions[sid].phase == Placed then
      if flowExceeded || (s.maxConn != 0 && s.nowConn >= s.maxConn) then Some(FailBuild(s, sid, Finished))
      else Some(s.(nowConn := s.nowConn + 1, sessions := s.sessions[sid := s.sessions[sid].(phase := Slotted)]))
    else None
  }

  function LinkStep(s: State, sid: nat, linked: bool): Option<State> {
    if sid < |s.sessions| && s.sessions[sid].phase == Slotted then
      if !linked then Some(FailBuild(s, sid, Releasing))
      else Some(s.(sessions := s.sessions[sid := s.sessions[sid].(phase := Linked, target := true)]))
    else None
  }

  function OpenStep(s: State, sid: nat): Option<State> {
    if sid < |s.sessions| && s.sessions[sid].phase == Linked then
      var x := s.sessions[sid];
      Some(s.(sessions := s.sessions[sid := x.(phase := Running, closes := x.closes + 1)]))
    else None
  }

  /** The read loop ends for any reason; the deferred removal starts. */
  function EndStep(s: State, sid: nat): Option<State> {
    if sid < |s.sessions| && s.sessions[sid].phase == Running then
      var s1 := s.(sessions := s.sessions[sid := s.sessions[sid].(phase := Removing(|s.removers|))]);
      Some(Remove(s1, sid))
    else None
  }

  /** The deferred `AddConn`, after the removal or after a failed build. */
  function ReleaseStep(s: State, sid: nat): Option<State> {
    if sid < |s.sessions| && MayRelease(s, s.sessions[sid].phase) then
      Some(s.(nowConn := s.nowConn - 1, sessions := s.sessions[sid := s.sessions[sid].(phase := Finished)]))
    else None
  }

  predicate MayRelease(s: State, p: Phase) {
    p.Releasing? || (p.Removing? && p.r < |s.removers| && s.removers[p.r].phase.Done?)
  }

  // ---- Removal ----

  /** A goroutine enters `removeSession`. */
  function Remove(s: State, sid: nat): State
    requires sid < |s.sessions|
  {
    s.(removers := s.removers + [Remover(s.sessions[sid].key, sid, Loading)])
  }

  function Overtake(r: Remover, key: Key): Remover {
    if r.phase.Deleting? && r.key == key then r.(phase := Deleting(true)) else r
  }

  /** The map's Delete on behalf of session `sid`. */
  function Delete(s: State, key: Key, sid: nat): State {
    s.(addrMap := s.addrMap - {key},
       removers := seq(|s.removers|, i requires 0 <= i < |s.removers| => Overtake(s.removers[i], key)),
       evicted := s.evicted || (key in s.addrMap && s.addrMap[key] != sid))
  }

  function RemoverLoadStep(s: State, r: nat): Option<State> {
    if r < |s.removers| && s.removers[r].phase.Loading? then
      var x := s.removers[r];
      var matches := x.key in s.addrMap && s.addrMap[x.key] == x.sid;
      Some(s.(removers := s.removers[r := x.(phase := if matches then Deleting(false) else Checking)]))
    else None
  }

  function RemoverDeleteStep(s: State, r: nat): Option<State> {
    if r < |s.removers| && s.removers[r].phase.Deleting? then
      var x := s.removers[r];
      Some(Delete(s.(removers := s.removers[r := x.(phase := Checking)]), x.key, x.sid))
    else None
  }

  function TargetClosed(x: Session): Session {
    x.(targetCloses := x.targetCloses + 1)
  }

  /** Closes the target if the session is ready and has one. */
  function RemoverCheckStep(s: State, r: nat): Option<State> {
    if r < |s.removers| && s.removers[r].phase.Checking? then
      var s1 := s.(removers := s.removers[r := s.removers[r].(phase := Done)]);
      var sid := s.removers[r].sid;
      if sid < |s.sessions| && s.sessions[sid].closes > 0 && s.sessions[sid].target then
        Some(s1.(sessions := s.sessions[sid := TargetClosed(s.sessions[sid])]))
      else Some(s1)
    else None
  }

  /** The sweeper removes idle sessions that are ready. */
  function SweepStep(s: State, sid: nat): Option<State> {
    if sid < |s.sessions| && s.sessions[sid].closes > 0 then Some(Remove(s, sid)) else None
  }

  /** `Close` removes every session, also those being built. */
  function CloseOneStep(s: State, sid: nat): Option<State> {
    if s.closing && sid < |s.sessions| then Some(Remove(s, sid)) else None
  }

  // ---- The rest of the server ----

  /** Another connection of the client: through `GetConn`, or through `CutConn`, which does not
      look at the limit. */
  function OtherTakesStep(s: State, checked: bool): Option<State> {
    if checked && s.maxConn != 0 && s.nowConn >= s.maxConn then None
    else Some(s.(nowConn := s.nowConn + 1, others := s.others + 1))
  }

  function OtherReleasesStep(s: State): Option<State> {
    if s.others > 0 then Some(s.(nowConn := s.nowConn - 1, others := s.others - 1)) else None
  }

  function Step(s: State, a: Action): Option<State> {
    match a
    case Arrive(key) => ArriveStep(s, key)
    case Place(t) => PlaceStep(s, t)
    case Acquire(sid, flowExceeded) => AcquireStep(s, sid, flowExceeded)
    case Link(sid, linked) => LinkStep(s, sid, linked)
    case Open(sid) => OpenStep(s, sid)
    case End(sid) => EndStep(s, sid)
    case Release(sid) => ReleaseStep(s, sid)
    case Wake(t) => WakeStep(s, t)
    case GiveUp(t) => GiveUpStep(s, t)
    case Write(t, last) => WriteStep(s, t, last)
    case Sweep(sid) => SweepStep(s, sid)
    case CloseServer => Some(s.(closing := true))
    case CloseOne(sid) => CloseOneStep(s, sid)
    case RemoverLoad(r) => RemoverLoadStep(s, r)
    case RemoverDelete(r) => RemoverDeleteStep(s, r)
    case RemoverCheck(r) => RemoverCheckStep(s, r)
    case OtherTakes(checked) => OtherTakesStep(s, checked)
    case OtherReleases => OtherReleasesStep(s)
  }

  function Run(maxConn: int, run: seq<Action>): Option<State> {
    if run == [] then Some(Fresh(maxConn))
    else
      var before := Run(maxConn, run[..|run| - 1]);
      if before.None? then None else Step(before.value, run[|run| - 1])
  }

  // ---- The invariant ----

  predicate HoldsSlot(p: Phase) {
    !p.Placed? && !p.Finished?
  }

  predicate Building(p: Phase) {
    p.Placed? || p.Slotted? || p.Linked?
  }

  /** Builders between taking their slot and returning it. */
  function SlotsHeld(xs: seq<Session>): nat {
    if xs == [] then 0 else SlotsHeld(xs[..|xs| - 1]) + if HoldsSlot(xs[|xs| - 1].phase) then 1 else 0
  }

  ghost predicate SessionOk(x: Session) {
    && x.closes == (if Building(x.phase) then 0 else 1)
    && (x.failed ==> x.phase.Releasing? || x.phase.Finished?)
    && (x.phase.Releasing? ==> x.failed)
    && (x.target <==> !x.failed && !x.phase.Placed? && !x.phase.Slotted?)
    && (x.targetCloses > 0 ==> Usable(x))
  }

  /** Safe to use the target: ready, built without error, target set. */
  predicate Usable(x: Session) {
    x.closes > 0 && !x.failed && x.target
  }

  ghost predicate SessionsOk(xs: seq<Session>) {
    forall i :: 0 <= i < |xs| ==> SessionOk(xs[i])
  }

  ghost predicate MapOk(m: map<Key, nat>, xs: seq<Session>) {
    forall k :: k in m ==> m[k] < |xs| && xs[m[k]].key == k
  }

  ghost predicate SlotsOk(s: State) {
    && s.others >= 0
    && s.nowConn == SlotsHeld(s.sessions) + s.others
    && (s.maxConn != 0 ==> SlotsHeld(s.sessions) == 0 || SlotsHeld(s.sessions) <= s.maxConn)
  }

  ghost predicate ThreadOk(t: Thread, xs: seq<Session>) {
    match t
    case Looking(_) => true
    case Waiting(sid) => sid < |xs|
    case Writing(sid) => sid < |xs| && Usable(xs[sid])
    case Over => true
  }

  ghost predicate ThreadsOk(ts: seq<Thread>, xs: seq<Session>) {
    forall i :: 0 <= i < |ts| ==> ThreadOk(ts[i], xs)
  }

  /** A remover between Load and Delete has been overtaken exactly when its session is no longer
      the one in the map; before Close only ready sessions are removed. */
  ghost predicate RemoverOk(r: Remover, m: map<Key, nat>, xs: seq<Session>, closing: bool) {
    && r.sid < |xs| && r.key == xs[r.sid].key
    && (r.phase.Deleting? ==> (r.phase.overtaken <==> !(r.key in m && m[r.key] == r.sid)))
    && (!closing ==> xs[r.sid].closes > 0)
  }

  ghost predicate RemoversOk(rs: seq<Remover>, m: map<Key, nat>, xs: seq<Session>, closing: bool) {
    forall i :: 0 <= i < |rs| ==> RemoverOk(rs[i], m, xs, closing)
  }

  /** A session being built is the one its key maps to. */
  ghost predicate BuildersMapped(m: map<Key, nat>, xs: seq<Session>) {
    forall i :: 0 <= i < |xs| && Building(xs[i].phase) ==> xs[i].key in m && m[xs[i].key] == i
  }

  ghost predicate Inv(s: State) {
    && SessionsOk(s.sessions)
    && MapOk(s.addrMap, s.sessions)
    && SlotsOk(s)
    && ThreadsOk(s.threads, s.sessions)
    && RemoversOk(s.removers, s.addrMap, s.sessions, s.closing)
    && (!s.closing && !s.evicted ==> BuildersMapped(s.addrMap, s.sessions))
  }

  lemma {:induction false} SlotsUpdate(xs: seq<Session>, i: nat, x: Session)
    requires i < |xs|
    ensures SlotsHeld(xs[i := x]) == SlotsHeld(xs) - (if HoldsSlot(xs[i].phase) then 1 else 0)
                                     + (if HoldsSlot(x.phase) then 1 else 0)
    decreases |xs|
  {
    var n := |xs| - 1;
    if i < n {
      SlotsUpdate(xs[..n], i, x);
      assert xs[i := x][..n] == xs[..n][i := x];
    } else {
      assert xs[i := x][..n] == xs[..n];
    }
  }

  lemma SlotsAppend(xs: seq<Session>, x: Session)
    ensures SlotsHeld(xs + [x]) == SlotsHeld(xs) + if HoldsSlot(x.phase) then 1 else 0
  {
    assert (xs + [x])[..|xs|] == xs;
  }

  // ---- Every step keeps the invariant ----

  /** A session may become ready or usable but never stops being so, and never starts over. */
  predicate Advances(x: Session, y: Session) {
    && y.key == x.key
    && (Usable(x) ==> Usable(y))
    && y.closes >= x.closes
    && (Building(y.phase) ==> Building(x.phase))
  }

  lemma UpdateKeeps(s: State, i: nat, y: Session)
    requires Inv(s) && i < |s.sessions| && SessionOk(y) && Advances(s.sessions[i], y)
    ensures
      var xs := s.sessions[i := y];
      && SessionsOk(xs) && MapOk(s.addrMap, xs) && ThreadsOk(s.threads, xs)
      && RemoversOk(s.removers, s.addrMap, xs, s.closing)
      && (BuildersMapped(s.addrMap, s.sessions) ==> BuildersMapped(s.addrMap, xs))
  {
    var xs := s.sessions[i := y];
    hide SessionOk, SlotsHeld, SlotsOk, Usable;
    forall j | 0 <= j < |s.threads| ensures ThreadOk(s.threads[j], xs) {
      assert ThreadOk(s.threads[j], s.sessions);
    }
    forall j | 0 <= j < |s.removers| ensures RemoverOk(s.removers[j], s.addrMap, xs, s.closing) {
      assert RemoverOk(s.removers[j], s.addrMap, s.sessions, s.closing);
    }
    hide ThreadOk, RemoverOk;
  }

  /** The same with the quota word moved along with the session. */
  lemma SlotKeeps(s: State, i: nat, y: Session, nowConn: int)
    requires Inv(s) && i < |s.sessions| && SessionOk(y) && Advances(s.sessions[i], y)
    requires nowConn - s.nowConn
             == (if HoldsSlot(y.phase) then 1 else 0) - (if HoldsSlot(s.sessions[i].phase) then 1 else 0)
    requires nowConn > s.nowConn ==> s.maxConn == 0 || s.nowConn < s.maxConn
    ensures Inv(s.(nowConn := nowConn, sessions := s.sessions[i := y]))
  {
    hide SlotsHeld, SessionsOk, MapOk, ThreadsOk, RemoversOk, BuildersMapped;
    UpdateKeeps(s, i, y);
    SlotsUpdate(s.sessions, i, y);
  }

  lemma PlaceKeeps(s: State, t: nat, s': State)
    requires Inv(s) && PlaceStep(s, t) == Some(s')
    ensures Inv(s')
  {
    var key := s.threads[t].key;
    if key in s.addrMap {
      ThreadKeeps(s, t, Waiting(s.addrMap[key]));
    } else {
      ThreadKeeps(s, t, Over);
      NewSessionKeeps(s.(threads := s'.threads), key);
    }
  }

  lemma NewSessionKeeps(s: State, key: Key)
    requires Inv(s) && key !in s.addrMap
    ensures Inv(s.(addrMap := s.addrMap[key := |s.sessions|],
                   sessions := s.sessions + [NewSession(key)]))
  {
    hide SlotsHeld, SessionsOk, MapOk, ThreadsOk, RemoversOk, BuildersMapped;
    var x := NewSession(key);
    SlotsAppend(s.sessions, x);
    NewSessionListed(s.addrMap, s.sessions, key);
    NewSessionThreads(s.threads, s.sessions, x);
    NewSessionRemovers(s.removers, s.addrMap, s.sessions, s.closing, key);
  }

  lemma NewSessionListed(m: map<Key, nat>, xs: seq<Session>, key: Key)
    requires SessionsOk(xs) && MapOk(m, xs) && key !in m
    ensures
      var xs' := xs + [NewSession(key)];
      && SessionsOk(xs') && MapOk(m[key := |xs|], xs')
      && (BuildersMapped(m, xs) ==> BuildersMapped(m[key := |xs|], xs'))
  {
    assert SessionOk(NewSession(key));
    hide SessionOk;
  }

  lemma NewSessionThreads(ts: seq<Thread>, xs: seq<Session>, x: Session)
    requires ThreadsOk(ts, xs)
    ensures ThreadsOk(ts, xs + [x])
  {
    hide Usable;
    forall j | 0 <= j < |ts| ensures ThreadOk(ts[j], xs + [x]) {
      assert ThreadOk(ts[j], xs);
    }
    hide ThreadOk;
  }

  lemma NewSessionRemovers(rs: seq<Remover>, m: map<Key, nat>, xs: seq<Session>, closing: bool, key: Key)
    requires RemoversOk(rs, m, xs, closing) && key !in m
    ensures RemoversOk(rs, m[key := |xs|], xs + [NewSession(key)], closing)
  {
    forall j | 0 <= j < |rs| ensures RemoverOk(rs[j], m[key := |xs|], xs + [NewSession(key)], closing) {
      assert RemoverOk(rs[j], m, xs, closing);
    }
    hide RemoverOk;
  }

  lemma DeleteKeeps(s: State, key: Key, sid: nat)
    requires MapOk(s.addrMap, s.sessions) && RemoversOk(s.removers, s.addrMap, s.sessions, s.closing)
    ensures
      var s' := Delete(s, key, sid);
      MapOk(s'.addrMap, s.sessions) && RemoversOk(s'.removers, s'.addrMap, s.sessions, s.closing)
  {
    var s' := Delete(s, key, sid);
    forall j | 0 <= j < |s'.removers| ensures RemoverOk(s'.removers[j], s'.addrMap, s.sessions, s.closing) {
      assert RemoverOk(s.removers[j], s.addrMap, s.sessions, s.closing);
    }
  }

  /** Deleting the entry of a session that is not being built keeps every builder mapped, unless
      the entry was another session's. */
  lemma DeleteKeepsBuilders(s: State, key: Key, sid: nat)
    requires BuildersMapped(s.addrMap, s.sessions)
    requires sid < |s.sessions| && !Building(s.sessions[sid].phase)
    requires key in s.addrMap ==> s.addrMap[key] == sid
    ensures BuildersMapped(Delete(s, key, sid).addrMap, s.sessions)
  {
  }

  lemma DeleteInv(s: State, key: Key, sid: nat)
    requires Inv(s) && sid < |s.sessions| && (s.closing || !Building(s.sessions[sid].phase))
    ensures Inv(Delete(s, key, sid))
  {
    hide SlotsHeld, ThreadsOk, SessionsOk, RemoverOk;
    DeleteKeeps(s, key, sid);
    if !s.closing && !Delete(s, key, sid).evicted {
      DeleteKeepsBuilders(s, key, sid);
    }
  }

  lemma FailedOk(x: Session, next: Phase)
    requires SessionOk(x) && Building(x.phase) && !x.target
    requires next == if x.phase.Placed? then Finished else Releasing
    ensures
      var y := x.(phase := next, failed := true, closes := x.closes + 1);
      SessionOk(y) && Advances(x, y) && !Building(y.phase) && HoldsSlot(y.phase) == HoldsSlot(x.phase)
  {
  }

  lemma FailBuildKeeps(s: State, sid: nat, next: Phase)
    requires Inv(s) && sid < |s.sessions| && Building(s.sessions[sid].phase) && !s.sessions[sid].target
    requires next == if s.sessions[sid].phase.Placed? then Finished else Releasing
    ensures Inv(FailBuild(s, sid, next))
  {
    hide SlotsHeld, MapOk, ThreadsOk, RemoversOk, BuildersMapped, SlotsOk, Delete;
    var x := s.sessions[sid];
    var y := x.(phase := next, failed := true, closes := x.closes + 1);
    assert SessionOk(x);
    hide Inv, SessionsOk;
    FailedOk(x, next);
    hide SessionOk, Advances, Usable;
    SlotKeeps(s, sid, y, s.nowConn);
    DeleteInv(s.(sessions := s.sessions[sid := y]), x.key, sid);
  }

  /** A goroutine may enter `removeSession` for a ready session, or for any while closing. */
  lemma RemoveKeeps(s: State, sid: nat)
    requires Inv(s) && sid < |s.sessions| && (s.closing || s.sessions[sid].closes > 0)
    ensures Inv(Remove(s, sid))
  {
    hide SlotsHeld, SessionOk, ThreadOk;
  }

  lemma ThreadKeeps(s: State, t: nat, x: Thread)
    requires Inv(s) && t < |s.threads| && ThreadOk(x, s.sessions)
    ensures Inv(s.(threads := s.threads[t := x]))
  {
    hide SlotsHeld, SessionOk, RemoverOk;
  }

  lemma ArriveKeeps(s: State, key: Key, s': State)
    requires Inv(s) && ArriveStep(s, key) == Some(s')
    ensures Inv(s')
  {
    hide SlotsHeld, SessionOk, RemoverOk;
  }

  lemma RemoverDeleteKeeps(s: State, r: nat, s': State)
    requires Inv(s) && RemoverDeleteStep(s, r) == Some(s')
    ensures Inv(s')
  {
    var x := s.removers[r];
    assert RemoverOk(x, s.addrMap, s.sessions, s.closing);
    assert SessionOk(s.sessions[x.sid]);
    RemoverMoves(s, r, Checking);
    hide Inv, Delete;
    DeleteInv(s.(removers := s.removers[r := x.(phase := Checking)]), x.key, x.sid);
  }

  lemma RemoverMoves(s: State, r: nat, p: RemoverPhase)
    requires Inv(s) && r < |s.removers|
    requires
      var x := s.removers[r];
      p.Deleting? ==> !p.overtaken && x.key in s.addrMap && s.addrMap[x.key] == x.sid
    ensures Inv(s.(removers := s.removers[r := s.removers[r].(phase := p)]))
  {
    hide SlotsHeld, SessionOk, ThreadOk;
  }

  lemma RemoverCheckKeeps(s: State, r: nat, s': State)
    requires Inv(s) && RemoverCheckStep(s, r) == Some(s')
    ensures Inv(s')
  {
    assert RemoverOk(s.removers[r], s.addrMap, s.sessions, s.closing);
    var sid := s.removers[r].sid;
    assert SessionOk(s.sessions[sid]);
    hide Inv;
    RemoverMoves(s, r, Done);
    if s'.sessions != s.sessions {
      SlotKeeps(s.(removers := s'.removers), sid, TargetClosed(s.sessions[sid]), s.nowConn);
    }
  }

  lemma CloseKeeps(s: State)
    requires Inv(s)
    ensures Inv(s.(closing := true))
  {
    hide SlotsHeld, SessionOk, ThreadOk;
    forall j | 0 <= j < |s.removers| ensures RemoverOk(s.removers[j], s.addrMap, s.sessions, true) {
      assert RemoverOk(s.removers[j], s.addrMap, s.sessions, s.closing);
    }
  }

  lemma StepInv(s: State, a: Action, s': State)
    requires Inv(s) && Step(s, a) == Some(s')
    ensures Inv(s')
  {
    hide Inv, SlotsHeld, Delete;
    match a
    case Arrive(key) => ArriveKeeps(s, key, s');
    case Place(t) => PlaceKeeps(s, t, s');
    case Acquire(sid, flowExceeded) => AcquireKeeps(s, sid, flowExceeded, s');
    case Link(sid, linked) => LinkKeeps(s, sid, linked, s');
    case Open(sid) => OpenKeeps(s, sid, s');
    case End(sid) => EndKeeps(s, sid, s');
    case Release(sid) => ReleaseKeeps(s, sid, s');
    case Wake(t) => WakeKeeps(s, t, s');
    case GiveUp(t) => ThreadKeeps(s, t, Over);
    case Write(t, last) => WriteKeeps(s, t, last, s');
    case Sweep(sid) => RemoveKeeps(s, sid);
    case CloseServer => CloseKeeps(s);
    case CloseOne(sid) => RemoveKeeps(s, sid);
    case RemoverLoad(r) => RemoverMoves(s, r, s'.removers[r].phase);
    case RemoverDelete(r) => RemoverDeleteKeeps(s, r, s');
    case RemoverCheck(r) => RemoverCheckKeeps(s, r, s');
    case OtherTakes(checked) => OthersKeep(s, a, s');
    case OtherReleases => OthersKeep(s, a, s');
  }

  lemma OthersKeep(s: State, a: Action, s': State)
    requires Inv(s) && (a.OtherTakes? || a.OtherReleases?) && Step(s, a) == Some(s')
    ensures Inv(s')
  {
    hide SlotsHeld, SessionsOk, MapOk, ThreadsOk, RemoversOk, BuildersMapped;
  }

  lemma AcquireKeeps(s: State, sid: nat, flowExceeded: bool, s': State)
    requires Inv(s) && AcquireStep(s, sid, flowExceeded) == Some(s')
    ensures Inv(s')
  {
    assert SessionOk(s.sessions[sid]);
    hide Inv;
    if s'.nowConn == s.nowConn {
      FailBuildKeeps(s, sid, Finished);
    } else {
      SlotKeeps(s, sid, s.sessions[sid].(phase := Slotted), s.nowConn + 1);
    }
  }

  lemma LinkKeeps(s: State, sid: nat, linked: bool, s': State)
    requires Inv(s) && LinkStep(s, sid, linked) == Some(s')
    ensures Inv(s')
  {
    assert SessionOk(s.sessions[sid]);
    hide Inv;
    if linked {
      SlotKeeps(s, sid, s.sessions[sid].(phase := Linked, target := true), s.nowConn);
    } else {
      FailBuildKeeps(s, sid, Releasing);
    }
  }

  lemma OpenKeeps(s: State, sid: nat, s': State)
    requires Inv(s) && OpenStep(s, sid) == Some(s')
    ensures Inv(s')
  {
    assert SessionOk(s.sessions[sid]);
    hide Inv;
    SlotKeeps(s, sid, s'.sessions[sid], s.nowConn);
  }

  lemma EndKeeps(s: State, sid: nat, s': State)
    requires Inv(s) && EndStep(s, sid) == Some(s')
    ensures Inv(s')
  {
    assert SessionOk(s.sessions[sid]);
    hide Inv;
    SlotKeeps(s, sid, s'.sessions[sid], s.nowConn);
    RemoveKeeps(s.(sessions := s'.sessions), sid);
  }

  lemma ReleaseKeeps(s: State, sid: nat, s': State)
    requires Inv(s) && ReleaseStep(s, sid) == Some(s')
    ensures Inv(s')
  {
    assert SessionOk(s.sessions[sid]);
    hide Inv;
    SlotKeeps(s, sid, s'.sessions[sid], s.nowConn - 1);
  }

  lemma WakeKeeps(s: State, t: nat, s': State)
    requires Inv(s) && WakeStep(s, t) == Some(s')
    ensures Inv(s')
  {
    assert SessionOk(s.sessions[s.threads[t].sid]);
    hide Inv;
    ThreadKeeps(s, t, s'.threads[t]);
  }

  lemma WriteKeeps(s: State, t: nat, last: bool, s': State)
    requires Inv(s) && WriteStep(s, t, last) == Some(s')
    ensures Inv(s')
  {
    assert ThreadOk(s.threads[t], s.sessions);
    hide Inv;
    ThreadKeeps(s, t, Over);
    if last {
      RemoveKeeps(s.(threads := s'.threads), s.threads[t].sid);
    }
  }

  lemma {:induction false} RunInv(maxConn: int, run: seq<Action>)
    requires Run(maxConn, run).Some?
    ensures Inv(Run(maxConn, run).value) && Run(maxConn, run).value.maxConn == maxConn
  {
    if run == [] {
      FreshInv(maxConn);
    } else {
      hide Inv, Step;
      RunInv(maxConn, run[..|run| - 1]);
      var s := Run(maxConn, run[..|run| - 1]).value;
      var s' := Run(maxConn, run).value;
      assert Step(s, run[|run| - 1]) == Some(s');
      hide Run;
      StepInv(s, run[|run| - 1], s');
      StepKeepsLimit(s, run[|run| - 1], s');
    }
  }

  lemma FreshInv(maxConn: int)
    ensures Inv(Fresh(maxConn))
  {
  }

  lemma StepKeepsLimit(s: State, a: Action, s': State)
    requires Step(s, a) == Some(s')
    ensures s'.maxConn == s.maxConn
  {
  }

  // ---- What every run guarantees ----

  /** Quota: the slots of the UDP server are the builders between taking and returning one; with
      the slots of others they make up the client's count, and they never exceed the limit. */
  lemma SlotsExact(maxConn: int, run: seq<Action>)
    requires Run(maxConn, run).Some?
    ensures
      var s := Run(maxConn, run).value;
      && s.nowConn == SlotsHeld(s.sessions) + s.others
      && (maxConn > 0 ==> SlotsHeld(s.sessions) <= maxConn)
      && (maxConn < 0 ==> SlotsHeld(s.sessions) == 0)
  {
    RunInv(maxConn, run);
  }

  /** When every builder is done, every slot is back. */
  lemma AllSlotsReturn(maxConn: int, run: seq<Action>)
    requires Run(maxConn, run).Some?
    requires forall x :: x in Run(maxConn, run).value.sessions ==> x.phase.Finished?
    ensures Run(maxConn, run).value.nowConn == Run(maxConn, run).value.others
  {
    RunInv(maxConn, run);
    NoneHeld(Run(maxConn, run).value.sessions);
  }

  lemma {:induction false} NoneHeld(xs: seq<Session>)
    requires forall x :: x in xs ==> x.phase.Finished?
    ensures SlotsHeld(xs) == 0
  {
    if xs != [] {
      NoneHeld(xs[..|xs| - 1]);
    }
  }

  /** The ready channel is closed at most once, and exactly when the session is no longer being
      built, so no second close can panic. */
  lemma ReadyClosedOnce(maxConn: int, run: seq<Action>, sid: nat)
    requires Run(maxConn, run).Some? && sid < |Run(maxConn, run).value.sessions|
    ensures
      var x := Run(maxConn, run).value.sessions[sid];
      x.closes == if Building(x.phase) then 0 else 1
  {
    RunInv(maxConn, run);
    assert SessionOk(Run(maxConn, run).value.sessions[sid]);
  }

  /** The builder's next operation when nothing goes wrong. */
  function BuilderStep(sid: nat, p: Phase): Option<Action> {
    match p
    case Placed => Some(Acquire(sid, false))
    case Slotted => Some(Link(sid, true))
    case Linked => Some(Open(sid))
    case _ => None
  }

  /** How many operations a session is from being ready. */
  function ToReady(p: Phase): nat {
    match p
    case Placed => 3
    case Slotted => 2
    case Linked => 1
    case _ => 0
  }

  /** No packet waits for ever on a builder that goes on: a goroutine that waits for a session can
      wake up, or the session's builder has its next operation open, and whatever its outcome it
      brings the session nearer to being ready. */
  lemma WaitersProgress(maxConn: int, run: seq<Action>, t: nat)
    requires Run(maxConn, run).Some? && t < |Run(maxConn, run).value.threads|
    requires Run(maxConn, run).value.threads[t].Waiting?
    ensures
      var s := Run(maxConn, run).value;
      var sid := s.threads[t].sid;
      && sid < |s.sessions|
      && (ToReady(s.sessions[sid].phase) == 0 ==> Step(s, Wake(t)).Some?)
      && (ToReady(s.sessions[sid].phase) > 0 ==>
            var a := BuilderStep(sid, s.sessions[sid].phase);
            && a.Some? && Step(s, a.value).Some? && sid < |Step(s, a.value).value.sessions|
            && ToReady(Step(s, a.value).value.sessions[sid].phase) < ToReady(s.sessions[sid].phase))
  {
    RunInv(maxConn, run);
    var s := Run(maxConn, run).value;
    assert ThreadOk(s.threads[t], s.sessions);
    assert SessionOk(s.sessions[s.threads[t].sid]);
    hide Run, SlotsHeld;
  }

  /** A goroutine that is about to use a target holds a ready session that was built without error
      and whose target is set; and only such a session ever has its target closed by a removal. */
  lemma TargetGuarded(maxConn: int, run: seq<Action>, t: nat, sid: nat)
    requires Run(maxConn, run).Some?
    ensures
      var s := Run(maxConn, run).value;
      && (t < |s.threads| && s.threads[t].Writing? ==>
            s.threads[t].sid < |s.sessions| && Usable(s.sessions[s.threads[t].sid]))
      && (sid < |s.sessions| && s.sessions[sid].targetCloses > 0 ==> Usable(s.sessions[sid]))
  {
    RunInv(maxConn, run);
    var s := Run(maxConn, run).value;
    if t < |s.threads| {
      assert ThreadOk(s.threads[t], s.sessions);
    }
    if sid < |s.sessions| {
      assert SessionOk(s.sessions[sid]);
    }
  }

  /** No step sets or clears the target of a ready session: whoever has seen the ready channel
      closed reads a target that nobody writes. */
  lemma TargetSettled(maxConn: int, run: seq<Action>, a: Action, sid: nat)
    requires Run(maxConn, run).Some? && Step(Run(maxConn, run).value, a).Some?
    requires sid < |Run(maxConn, run).value.sessions| && Run(maxConn, run).value.sessions[sid].closes > 0
    ensures
      var s := Run(maxConn, run).value;
      var s' := Step(s, a).value;
      sid < |s'.sessions| && s'.sessions[sid].closes > 0 && s'.sessions[sid].target == s.sessions[sid].target
  {
    RunInv(maxConn, run);
    var s := Run(maxConn, run).value;
    assert SessionOk(s.sessions[sid]);
    hide Run, Inv, Step;
    StepKeepsTarget(s, a, Step(s, a).value, sid);
  }

  lemma StepKeepsTarget(s: State, a: Action, s': State, sid: nat)
    requires Step(s, a) == Some(s') && sid < |s.sessions| && SessionOk(s.sessions[sid]) && s.sessions[sid].closes > 0
    ensures sid < |s'.sessions| && s'.sessions[sid].closes > 0 && s'.sessions[sid].target == s.sessions[sid].target
  {
    if a.Acquire? || a.Link? || a.Open? || a.End? || a.Release? || a.RemoverCheck? {
      hide Usable;
    } else {
      hide SessionOk;
    }
  }

  /** Before the server closes and while nothing was evicted, no key has two sessions being built,
      and the one being built is the one that packets find. */
  lemma OneBuilderPerKey(maxConn: int, run: seq<Action>, i: nat, j: nat)
    requires Run(maxConn, run).Some?
    requires !Run(maxConn, run).value.closing && !Run(maxConn, run).value.evicted
    requires i < |Run(maxConn, run).value.sessions| && j < |Run(maxConn, run).value.sessions|
    requires
      var xs := Run(maxConn, run).value.sessions;
      Building(xs[i].phase) && Building(xs[j].phase) && xs[i].key == xs[j].key
    ensures i == j
    ensures
      var s := Run(maxConn, run).value;
      s.sessions[i].key in s.addrMap && s.addrMap[s.sessions[i].key] == i
  {
    RunInv(maxConn, run);
  }
}
