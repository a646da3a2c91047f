/** The least-recently-used cache: a list of entries, front first, and an index into it. The list
    elements are objects that both refer to. */
module Lru {
  import opened Options
  import opened Sequences

  /** Any keys that can be compared, any values. */
  type Key(==)
  type Value

  datatype Pair = Pair(key: Key, value: Value)

  // ---- A recency-ordered association list ----

  /** The position of a key, or the length. */
  function Find(s: seq<Pair>, k: Key): (i: nat)
    ensures i <= |s| && (i < |s| ==> s[i].key == k) && forall j :: 0 <= j < i ==> s[j].key != k
  {
    if s == [] || s[0].key == k then 0 else 1 + Find(s[1..], k)
  }

  function Without<T>(s: seq<T>, i: nat): seq<T>
    requires i < |s|
  {
    s[..i] + s[i + 1..]
  }

  function Removed(s: seq<Pair>, k: Key): seq<Pair> {
    if Find(s, k) < |s| then Without(s, Find(s, k)) else s
  }

  function Truncated(s: seq<Pair>, max: int): seq<Pair> {
    if max != 0 && |s| > max && s != [] then s[..|s| - 1] else s
  }

  function Added(s: seq<Pair>, max: int, k: Key, v: Value): seq<Pair> {
    if Find(s, k) < |s| then [Pair(k, v)] + Removed(s, k) else Truncated([Pair(k, v)] + s, max)
  }

  function Hit(s: seq<Pair>, k: Key): Option<Value> {
    if Find(s, k) < |s| then Some(s[Find(s, k)].value) else None
  }

  function Touched(s: seq<Pair>, k: Key): seq<Pair> {
    match Hit(s, k)
    case None => s
    case Some(v) => [Pair(k, v)] + Removed(s, k)
  }

  function WithoutOldest(s: seq<Pair>): seq<Pair> {
    if s == [] then s else s[..|s| - 1]
  }

  // ---- The cache ----

  class Entry {
    const key: Key
    var value: Value

    constructor (key: Key, value: Value)
      ensures this.key == key && this.value == value
    {
      this.key, this.value := key, value;
    }
  }

  ghost predicate DistinctKeys(s: seq<Pair>) {
    forall i, j :: 0 <= i < j < |s| ==> s[i].key != s[j].key
  }

  /** The index maps exactly the keys of `s` to the entries at their places. */
  ghost predicate Indexes(m: map<Key, Entry>, s: seq<Pair>, ll: seq<Entry>) {
    && |s| == |ll|
    && (forall i :: 0 <= i < |s| ==> s[i].key in m && m[s[i].key] == ll[i])
    && (forall k :: k in m ==> Find(s, k) < |s|)
  }

  ghost predicate Holds(s: seq<Pair>, ll: seq<Entry>)
    reads ll
  {
    |s| == |ll| && forall i :: 0 <= i < |ll| ==> s[i] == Pair(ll[i].key, ll[i].value)
  }

  lemma FoundAt(s: seq<Pair>, k: Key, i: nat)
    requires i < |s| && s[i].key == k
    ensures Find(s, k) <= i
  {
  }

  lemma OnlyPlace(s: seq<Pair>, i: nat)
    requires DistinctKeys(s) && i < |s|
    ensures Find(s, s[i].key) == i
  {
    FoundAt(s, s[i].key, i);
  }

  lemma DropKeepsDistinct(s: seq<Pair>, i: nat)
    requires DistinctKeys(s) && i < |s|
    ensures DistinctKeys(Without(s, i)) && forall j :: 0 <= j < |s| - 1 ==> Without(s, i)[j].key != s[i].key
  {
    var t := Without(s, i);
    forall a, b | 0 <= a < b < |t| ensures t[a].key != t[b].key {
      assert t[a] == s[if a < i then a else a + 1] && t[b] == s[if b < i then b else b + 1];
    }
    forall j | 0 <= j < |t| ensures t[j].key != s[i].key {
      assert t[j] == s[if j < i then j else j + 1];
    }
  }

  lemma FoundAfterDrop(s: seq<Pair>, i: nat, k: Key)
    requires i < |s| && s[i].key != k && Find(s, k) < |s|
    ensures Find(Without(s, i), k) < |s| - 1
  {
    hide Find;
    var j, t := Find(s, k), Without(s, i);
    var j' := if j < i then j else j - 1;
    assert t[j'] == s[j];
    FoundAt(t, k, j');
  }

  lemma DropKeepsIndex(m: map<Key, Entry>, s: seq<Pair>, ll: seq<Entry>, i: nat)
    requires DistinctKeys(s) && Indexes(m, s, ll) && i < |s|
    ensures Indexes(m - {s[i].key}, Without(s, i), Without(ll, i))
  {
    DropKeepsDistinct(s, i);
    var t, m' := Without(s, i), m - {s[i].key};
    forall j | 0 <= j < |t| ensures t[j].key in m' && m'[t[j].key] == Without(ll, i)[j] {
      assert t[j] == s[if j < i then j else j + 1];
    }
    forall k | k in m' ensures Find(t, k) < |t| {
      FoundAfterDrop(s, i, k);
    }
  }

  lemma FindBehind(p: Pair, s: seq<Pair>, k: Key)
    ensures Find([p] + s, k) == if p.key == k then 0 else 1 + Find(s, k)
  {
    assert ([p] + s)[1..] == s;
  }

  lemma PushKeeps(m: map<Key, Entry>, s: seq<Pair>, ll: seq<Entry>, p: Pair, e: Entry)
    requires DistinctKeys(s) && Indexes(m, s, ll) && p.key !in m
    ensures DistinctKeys([p] + s) && Indexes(m[p.key := e], [p] + s, [e] + ll)
  {
    hide Find;
    var t := [p] + s;
    forall a, b | 0 <= a < b < |t| ensures t[a].key != t[b].key {
      if a > 0 {
        assert t[a] == s[a - 1] && t[b] == s[b - 1];
      }
    }
    forall k | k in m[p.key := e] ensures Find(t, k) < |t| {
      FindBehind(p, s, k);
    }
  }

  lemma FrontKeeps(m: map<Key, Entry>, s: seq<Pair>, ll: seq<Entry>, i: nat)
    requires DistinctKeys(s) && Indexes(m, s, ll) && i < |s|
    ensures DistinctKeys([s[i]] + Without(s, i)) && Indexes(m, [s[i]] + Without(s, i), [ll[i]] + Without(ll, i))
  {
    DropKeepsDistinct(s, i);
    DropKeepsIndex(m, s, ll, i);
    PushKeeps(m - {s[i].key}, Without(s, i), Without(ll, i), s[i], ll[i]);
    assert (m - {s[i].key})[s[i].key := ll[i]] == m;
  }

  lemma SameKeysKeep(m: map<Key, Entry>, s: seq<Pair>, t: seq<Pair>, ll: seq<Entry>)
    requires DistinctKeys(s) && Indexes(m, s, ll)
    requires |t| == |s| && forall i :: 0 <= i < |s| ==> t[i].key == s[i].key
    ensures DistinctKeys(t) && Indexes(m, t, ll)
  {
    forall k | k in m ensures Find(t, k) < |t| {
      FoundAt(t, k, Find(s, k));
    }
  }

  lemma FrontHolds(s: seq<Pair>, ll: seq<Entry>, i: nat)
    requires Holds(s, ll) && i < |s|
    ensures Holds([s[i]] + Without(s, i), [ll[i]] + Without(ll, i))
  {
    var t, l := [s[i]] + Without(s, i), [ll[i]] + Without(ll, i);
    forall j | 0 <= j < |l| ensures t[j] == Pair(l[j].key, l[j].value) {
      var k := if j == 0 then i else if j - 1 < i then j - 1 else j;
      assert t[j] == s[k] && l[j] == ll[k];
    }
  }

  lemma DropHolds(s: seq<Pair>, ll: seq<Entry>, i: nat)
    requires Holds(s, ll) && i < |s|
    ensures Holds(Without(s, i), Without(ll, i))
  {
  }

  lemma DropElement(ll: seq<Entry>, i: nat)
    requires i < |ll| && forall j :: 0 <= j < |ll| && ll[j] == ll[i] ==> j == i
    ensures forall x :: x in Without(ll, i) <==> x in ll && x != ll[i]
  {
    forall x | x in ll && x != ll[i] ensures x in Without(ll, i) {
      var j :| 0 <= j < |ll| && ll[j] == x;
      assert x == Without(ll, i)[if j < i then j else j - 1];
    }
  }

  /** Entries with different keys are different objects. */
  lemma FrontIsAlone(s: seq<Pair>, ll: seq<Entry>)
    requires Holds(s, ll) && DistinctKeys(s) && s != []
    ensures forall i :: 0 < i < |ll| ==> ll[i] != ll[0]
  {
    forall i | 0 < i < |ll| ensures ll[i] != ll[0] {
      assert s[0].key != s[i].key;
    }
  }

  lemma FoundIffIndexed(m: map<Key, Entry>, s: seq<Pair>, ll: seq<Entry>, k: Key)
    requires Indexes(m, s, ll)
    ensures k in m <==> Find(s, k) < |s|
  {
  }

  lemma SameElements(ll: seq<Entry>, i: nat)
    requires i < |ll|
    ensures forall x :: x in [ll[i]] + Without(ll, i) <==> x in ll
  {
    var t := [ll[i]] + Without(ll, i);
    forall x | x in ll ensures x in t {
      var j :| 0 <= j < |ll| && ll[j] == x;
      assert x == t[if j == i then 0 else if j < i then j + 1 else j];
    }
  }

  class Cache {
    const maxEntries: int
    var ll: seq<Entry>
    var cache: map<Key, Entry>
    ghost var contents: seq<Pair>

    /** The list and the index hold the same entries, one for each key. */
    ghost predicate Valid()
      reads this, ll
    {
      DistinctKeys(contents) && Indexes(cache, contents, ll) && Holds(contents, ll)
    }

    constructor (maxEntries: int)
      ensures Valid() && contents == [] && this.maxEntries == maxEntries
    {
      this.maxEntries, ll, cache, contents := maxEntries, [], map[], [];
    }

    /** `ll.Remove` and the index entry with it. */
    method RemoveElement(e: Entry)
      requires Valid() && e.key in cache && cache[e.key] == e
      modifies this`ll, this`contents, this`cache
      ensures Valid() && contents == Removed(old(contents), e.key)
      ensures forall x :: x in ll <==> x in old(ll) && x != e
      ensures cache == old(cache) - {e.key}
    {
      var i := Place(e);
      DropKeepsDistinct(contents, i);
      DropKeepsIndex(cache, contents, ll, i);
      DropHolds(contents, ll, i);
      DropElement(ll, i);
      hide DistinctKeys, Indexes, Holds, Find;
      assert contents[i].key == e.key;
      ll := Without(ll, i);
      contents := Without(contents, i);
      cache := cache - {e.key};
    }

    /** Where a list element is. */
    method Place(e: Entry) returns (i: nat)
      requires Valid() && e.key in cache && cache[e.key] == e
      ensures i < |ll| && ll[i] == e && i == Find(contents, e.key)
      ensures forall j :: 0 <= j < |ll| && ll[j] == e ==> j == i
    {
      assert ll[Find(contents, e.key)] == e;
      i := 0;
      while ll[i] != e
        invariant i <= Find(contents, e.key)
        decreases |ll| - i
      {
        i := i + 1;
      }
    }

    /** `ll.MoveToFront`. */
    method MoveToFront(e: Entry)
      requires Valid() && e.key in cache && cache[e.key] == e
      modifies this`ll, this`contents
      ensures Valid() && contents == Touched(old(contents), e.key)
      ensures ll != [] && ll[0] == e && forall x :: x in ll <==> x in old(ll)
    {
      var i := Place(e);
      FrontKeeps(cache, contents, ll, i);
      FrontHolds(contents, ll, i);
      SameElements(ll, i);
      hide DistinctKeys, Indexes, Holds, Find;
      assert contents[i] == Pair(e.key, Hit(contents, e.key).value);
      ll := [e] + Without(ll, i);
      contents := [contents[i]] + Without(contents, i);
    }

    /** Gives the front entry a new value. */
    method SetFront(value: Value)
      requires Valid() && ll != []
      modifies this`contents, ll[0]
      ensures Valid() && contents == [Pair(old(contents)[0].key, value)] + old(contents)[1..]
    {
      var e := ll[0];
      ghost var t := [Pair(contents[0].key, value)] + contents[1..];
      SameKeysKeep(cache, contents, t, ll);
      FrontIsAlone(contents, ll);
      hide DistinctKeys, Indexes;
      e.value := value;
      contents := t;
    }

    /** Moves an entry to the front and gives it a new value. */
    method Refresh(e: Entry, value: Value)
      requires Valid() && e.key in cache && cache[e.key] == e
      modifies this`ll, this`contents, e
      ensures Valid() && contents == [Pair(e.key, value)] + Removed(old(contents), e.key)
      ensures forall x :: x in ll <==> x in old(ll)
    {
      MoveToFront(e);
      hide DistinctKeys, Indexes, Removed;
      SetFront(value);
    }

    method PushFront(key: Key, value: Value)
      requires Valid() && key !in cache
      modifies this`ll, this`contents, this`cache
      ensures Valid() && contents == [Pair(key, value)] + old(contents)
      ensures ll != [] && fresh(ll[0]) && ll[1..] == old(ll)
    {
      var ele := new Entry(key, value);
      PushKeeps(cache, contents, ll, Pair(key, value), ele);
      hide DistinctKeys, Indexes;
      ll := [ele] + ll;
      cache := cache[key := ele];
      contents := [Pair(key, value)] + contents;
    }

    method Add(key: Key, value: Value)
      requires Valid()
      modifies this`ll, this`contents, this`cache, ll
      ensures Valid() && contents == Added(old(contents), maxEntries, key, value)
      ensures forall x :: x in ll ==> x in old(ll) || fresh(x)
    {
      FoundIffIndexed(cache, contents, ll, key);
      if key in cache {
        Refresh(cache[key], value);
        return;
      }
      PushFront(key, value);
      if maxEntries != 0 && |ll| > maxEntries {
        RemoveOldest();
      }
    }

    method Get(key: Key) returns (value: Option<Value>)
      requires Valid()
      modifies this`ll, this`contents
      ensures Valid() && value == Hit(old(contents), key) && contents == Touched(old(contents), key)
      ensures forall x :: x in ll <==> x in old(ll)
    {
      if key in cache {
        var ele := cache[key];
        MoveToFront(ele);
        return Some(ele.value);
      }
      return None;
    }

    method Remove(key: Key)
      requires Valid()
      modifies this`ll, this`contents, this`cache
      ensures Valid() && contents == Removed(old(contents), key)
      ensures forall x :: x in ll ==> x in old(ll)
    {
      if key in cache {
        RemoveElement(cache[key]);
      }
    }

    method RemoveOldest()
      requires Valid()
      modifies this`ll, this`contents, this`cache
      ensures Valid() && contents == WithoutOldest(old(contents))
      ensures forall x :: x in ll ==> x in old(ll)
    {
      if |ll| > 0 {
        OnlyPlace(contents, |ll| - 1);
        RemoveElement(ll[|ll| - 1]);
      }
    }

    method Len() returns (n: nat)
      requires Valid()
      ensures n == |contents|
    {
      return |ll|;
    }

    method Clear()
      requires Valid()
      modifies this`ll, this`contents, this`cache
      ensures Valid() && contents == []
    {
      ll, cache, contents := [], map[], [];
    }
  }

  // ---- What a lookup then finds ----

  lemma HitAt(s: seq<Pair>, i: nat)
    requires DistinctKeys(s) && i < |s|
    ensures Hit(s, s[i].key) == Some(s[i].value)
  {
    OnlyPlace(s, i);
  }

  lemma AbsentAfterDrop(s: seq<Pair>, i: nat, x: Key)
    requires DistinctKeys(s) && i < |s| && (x == s[i].key || Find(s, x) == |s|)
    ensures Find(Without(s, i), x) == |s| - 1
  {
    var t := Without(s, i);
    forall j | 0 <= j < |t| ensures t[j].key != x {
      assert t[j] == s[if j < i then j else j + 1];
    }
  }

  /** A removed key is not found, and every other key as before. */
  lemma RemoveForgets(s: seq<Pair>, k: Key, x: Key)
    requires DistinctKeys(s)
    ensures Hit(Removed(s, k), x) == if x == k then None else Hit(s, x)
  {
    var i := Find(s, k);
    if i < |s| {
      DropKeepsDistinct(s, i);
      if x != k && Find(s, x) < |s| {
        var j := Find(s, x);
        HitAt(Without(s, i), if j < i then j else j - 1);
      } else {
        AbsentAfterDrop(s, i, x);
      }
    }
  }

  lemma HitBehind(p: Pair, s: seq<Pair>, x: Key)
    ensures Hit([p] + s, x) == if x == p.key then Some(p.value) else Hit(s, x)
  {
    assert ([p] + s)[1..] == s;
  }

  /** A lookup changes no value. */
  lemma TouchKeepsValues(s: seq<Pair>, k: Key, x: Key)
    requires DistinctKeys(s)
    ensures Hit(Touched(s, k), x) == Hit(s, x)
  {
    if Hit(s, k).Some? {
      RemoveForgets(s, k, x);
      HitBehind(Pair(k, Hit(s, k).value), Removed(s, k), x);
    }
  }

  /** An added key is found with its value exactly when the limit is not negative. */
  lemma AddFinds(max: int, ops: seq<Op>, k: Key, v: Value)
    ensures Hit(Added(Run(max, ops), max, k, v), k) == if max >= 0 then Some(v) else None
  {
    RunBounded(max, ops);
    var s := Run(max, ops);
    hide Run;
    HitBehind(Pair(k, v), Removed(s, k), k);
    var t := [Pair(k, v)] + s;
    if max > 0 && |t| > max {
      HitBehind(Pair(k, v), s[..|s| - 1], k);
      assert t[..|t| - 1] == [Pair(k, v)] + s[..|s| - 1];
    } else if max == 0 {
      HitBehind(Pair(k, v), s, k);
    }
  }

  // ---- Runs ----

  datatype Op = AddOp(key: Key, value: Value) | GetOp(key: Key) | RemoveOp(key: Key) | RemoveOldestOp | ClearOp

  function After(s: seq<Pair>, max: int, op: Op): seq<Pair> {
    match op
    case AddOp(k, v) => Added(s, max, k, v)
    case GetOp(k) => Touched(s, k)
    case RemoveOp(k) => Removed(s, k)
    case RemoveOldestOp => WithoutOldest(s)
    case ClearOp => []
  }

  function Run(max: int, ops: seq<Op>): seq<Pair> {
    if ops == [] then [] else After(Run(max, ops[..|ops| - 1]), max, ops[|ops| - 1])
  }

  /** After any operations no key is there twice, a positive limit is never exceeded, and a cache
      with a negative limit stays empty. */
  lemma {:induction false} RunBounded(max: int, ops: seq<Op>)
    ensures
      var s := Run(max, ops);
      DistinctKeys(s) && (max > 0 ==> |s| <= max) && (max < 0 ==> s == [])
  {
    if ops != [] {
      RunBounded(max, ops[..|ops| - 1]);
      hide Run;
      var s, op := Run(max, ops[..|ops| - 1]), ops[|ops| - 1];
      match op
      case AddOp(k, v) => AddKeepsDistinct(s, max, k, v);
      case GetOp(k) => if Find(s, k) < |s| { TouchKeepsDistinct(s, k, s[Find(s, k)].value); }
      case RemoveOp(k) => if Find(s, k) < |s| { DropKeepsDistinct(s, Find(s, k)); }
      case RemoveOldestOp =>
      case ClearOp =>
    }
  }

  lemma TouchKeepsDistinct(s: seq<Pair>, k: Key, v: Value)
    requires DistinctKeys(s) && Find(s, k) < |s|
    ensures DistinctKeys([Pair(k, v)] + Removed(s, k)) && |Removed(s, k)| == |s| - 1
  {
    DropKeepsDistinct(s, Find(s, k));
  }

  lemma AddKeepsDistinct(s: seq<Pair>, max: int, k: Key, v: Value)
    requires DistinctKeys(s) && (max > 0 ==> |s| <= max) && (max < 0 ==> s == [])
    ensures
      var t := Added(s, max, k, v);
      DistinctKeys(t) && (max > 0 ==> |t| <= max) && (max < 0 ==> t == [])
  {
    if Find(s, k) < |s| {
      TouchKeepsDistinct(s, k, v);
    } else {
      assert DistinctKeys([Pair(k, v)] + s);
    }
  }

  // ---- The most recently used keys ----

  /** Every key that occurs, with its last value, most recent first. */
  function Recent(uses: seq<Pair>): seq<Pair> {
    if uses == [] then []
    else
      var last := uses[|uses| - 1];
      [last] + Removed(Recent(uses[..|uses| - 1]), last.key)
  }

  /** What an operation uses: an addition its pair, a lookup the pair it finds. */
  function UseOf(s: seq<Pair>, op: Op): seq<Pair> {
    match op
    case AddOp(k, v) => [Pair(k, v)]
    case GetOp(k) => if Hit(s, k).Some? then [Pair(k, Hit(s, k).value)] else []
    case _ => []
  }

  function Uses(max: int, ops: seq<Op>): seq<Pair> {
    if ops == [] then []
    else Uses(max, ops[..|ops| - 1]) + UseOf(Run(max, ops[..|ops| - 1]), ops[|ops| - 1])
  }

  function Take(s: seq<Pair>, max: int): (t: seq<Pair>)
    requires max > 0
  {
    if |s| > max then s[..max] else s
  }

  lemma {:induction false} FindInFront(s: seq<Pair>, max: int, k: Key)
    requires max > 0
    ensures Find(Take(s, max), k) == if Find(s, k) < |Take(s, max)| then Find(s, k) else |Take(s, max)|
  {
    var t, i := Take(s, max), Find(s, k);
    if i < |t| {
      FoundAt(t, k, i);
    } else if Find(t, k) < |t| {
      FoundAt(s, k, Find(t, k));
    }
  }

  lemma UseInside(s: seq<Pair>, max: int, p: Pair, i: nat)
    requires max > 0 && i < |Take(s, max)|
    ensures [p] + Without(Take(s, max), i) == Take([p] + Without(s, i), max)
  {
  }

  lemma UseOutside(s: seq<Pair>, max: int, p: Pair, i: nat)
    requires max > 0 && |Take(s, max)| <= i
    ensures Truncated([p] + Take(s, max), max) == Take([p] + (if i < |s| then Without(s, i) else s), max)
  {
  }

  /** Using a key of the front part, or a new one, keeps the front part the front part. */
  lemma UseKeepsFront(s: seq<Pair>, max: int, p: Pair)
    requires max > 0
    ensures
      var r := [p] + Removed(s, p.key);
      && (Find(Take(s, max), p.key) < |Take(s, max)| ==> [p] + Removed(Take(s, max), p.key) == Take(r, max))
      && (Find(Take(s, max), p.key) >= |Take(s, max)| ==> Truncated([p] + Take(s, max), max) == Take(r, max))
  {
    hide Find, Truncated, Without;
    FindInFront(s, max, p.key);
    var i := Find(s, p.key);
    if i < |Take(s, max)| {
      UseInside(s, max, p, i);
    } else {
      UseOutside(s, max, p, i);
    }
  }

  lemma RecentUse(uses: seq<Pair>, p: Pair)
    ensures Recent(uses + [p]) == [p] + Removed(Recent(uses), p.key)
  {
    assert (uses + [p])[..|uses|] == uses;
  }

  lemma StepKeepsMostRecent(uses: seq<Pair>, max: int, op: Op)
    requires max > 0 && (op.AddOp? || op.GetOp?)
    ensures
      var s := Take(Recent(uses), max);
      After(s, max, op) == Take(Recent(uses + UseOf(s, op)), max)
  {
    hide Recent, Removed, Truncated, Find;
    var s := Take(Recent(uses), max);
    NilRight(uses);
    if UseOf(s, op) != [] {
      var p := UseOf(s, op)[0];
      assert UseOf(s, op) == [p];
      UseKeepsFront(Recent(uses), max, p);
      RecentUse(uses, p);
    }
  }

  /** With a positive limit and no removals, the cache holds exactly the `max` most recently used
      keys with their last values. */
  lemma {:induction false} HoldsMostRecent(max: int, ops: seq<Op>)
    requires max > 0
    requires forall op :: op in ops ==> op.AddOp? || op.GetOp?
    ensures Run(max, ops) == Take(Recent(Uses(max, ops)), max)
  {
    if ops != [] {
      hide After, Recent, Take, UseOf;
      var before, op := ops[..|ops| - 1], ops[|ops| - 1];
      HoldsMostRecent(max, before);
      StepKeepsMostRecent(Uses(max, before), max, op);
    } else {
      assert Recent([]) == [];
    }
  }
}
