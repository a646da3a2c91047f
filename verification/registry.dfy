/** The client registry: a map from ids to client records that a Range visits in any order. */
module Registry {
  import opened Options

  /** The fields of a client record that the registry looks at. */
  datatype Client = Client(
    id: int,
    verifyKey: string,
    addr: string,
    status: bool,
    noStore: bool,
    webUserName: string,
    webPassword: string)

  type Clients = map<int, Client>

  datatype Error = QuotaReached | HashFailed | NameDuplicate | KeyDuplicate | SaveFailed

  datatype Outcome = Stored(clients: Clients, id: int) | Refused(error: Error)

  /** `order` is an order in which a Range may visit the keys: each of them once. */
  ghost predicate Visits(order: seq<int>, keys: set<int>) {
    if order == [] then keys == {} else order[0] in keys && Visits(order[1..], keys - {order[0]})
  }

  // ---- What the checks look for ----

  /** The clients that count towards the quota. */
  function Quota(m: Clients): set<int> {
    set i | i in m && !m[i].noStore
  }

  /** No other client has the key. */
  predicate KeyFree(m: Clients, key: string, id: int) {
    forall i :: i in m && m[i].verifyKey == key ==> m[i].id == id
  }

  predicate NameFree(m: Clients, name: string, id: int) {
    forall i :: i in m && m[i].webUserName == name ==> m[i].id == id
  }

  function IdsOf(m: Clients, keys: set<int>): set<int>
    requires keys <= m.Keys
  {
    set i | i in keys :: m[i].id
  }

  function Ids(m: Clients): set<int> {
    IdsOf(m, m.Keys)
  }

  /** The smallest number from `n` on that is not in the set. */
  function FreeFrom(used: set<int>, n: int): (r: int)
    ensures r >= n && r !in used && forall k :: n <= k < r ==> k in used
    decreases set k | k in used && k >= n
  {
    if n !in used then n
    else
      var above := set k | k in used && k >= n;
      assert n in above && (set k | k in used && k >= n + 1) == above - {n};
      FreeFrom(used, n + 1)
  }

  predicate Hashed(password: string) {
    "$2" <= password
  }

  function StoredPassword(password: string, hash: Option<string>): Option<string> {
    if password == "" || Hashed(password) then Some(password) else hash
  }

  /** The first generated key that no other client has. */
  function FirstFree(m: Clients, keys: seq<string>, id: int): Option<string> {
    if keys == [] then None
    else if KeyFree(m, keys[0], id) then Some(keys[0])
    else FirstFree(m, keys[1..], id)
  }

  function KeyFor(m: Clients, c: Client, keys: seq<string>): Option<string> {
    if c.verifyKey == "" then FirstFree(m, keys, c.id)
    else if KeyFree(m, c.verifyKey, c.id) then Some(c.verifyKey)
    else None
  }

  /** A registration: `keys` are the keys that would be generated, `hash` the hash of the password. */
  function Register(m: Clients, maxClients: int, c: Client, keys: seq<string>, hash: Option<string>): Outcome {
    if maxClients > 0 && !c.noStore && |Quota(m)| >= maxClients then Refused(QuotaReached)
    else if StoredPassword(c.webPassword, hash).None? then Refused(HashFailed)
    else if c.webUserName != "" && !NameFree(m, c.webUserName, c.id) then Refused(NameDuplicate)
    else if KeyFor(m, c, keys).None? then Refused(KeyDuplicate)
    else
      var id := if c.id == 0 then FreeFrom(Ids(m), 1) else c.id;
      Stored(m[id := c.(id := id, verifyKey := KeyFor(m, c, keys).value,
                        webPassword := StoredPassword(c.webPassword, hash).value)], id)
  }

  // ---- The registry as an object ----

  class DbUtils {
    var clients: Clients
    var clientIncreaseId: int
    const maxClients: int

    constructor (maxClients: int)
      ensures clients == map[] && this.maxClients == maxClients
    {
      clients, clientIncreaseId, this.maxClients := map[], 0, maxClients;
    }

    method GetClientCount(order: seq<int>) returns (cnt: nat)
      requires Visits(order, clients.Keys)
      ensures cnt == |Quota(clients)|
    {
      cnt := 0;
      ghost var quota, rest := Quota(clients), clients.Keys;
      assert rest * quota == quota;
      for k := 0 to |order|
        invariant rest <= clients.Keys && Visits(order[k..], rest)
        invariant cnt + |rest * quota| == |quota|
      {
        var i := order[k];
        if !clients[i].noStore {
          cnt := cnt + 1;
          assert rest * quota == (rest - {i}) * quota + {i};
        } else {
          assert rest * quota == (rest - {i}) * quota;
        }
        rest := rest - {i};
      }
    }

    method VerifyVkey(vkey: string, id: int, order: seq<int>) returns (res: bool)
      requires Visits(order, clients.Keys)
      ensures res <==> KeyFree(clients, vkey, id)
    {
      ghost var rest := clients.Keys;
      for k := 0 to |order|
        invariant rest <= clients.Keys && Visits(order[k..], rest)
        invariant forall j :: j in clients && j !in rest && clients[j].verifyKey == vkey ==> clients[j].id == id
      {
        var i := order[k];
        if clients[i].verifyKey == vkey && clients[i].id != id {
          return false;
        }
        rest := rest - {i};
      }
      return true;
    }

    method VerifyUserName(username: string, id: int, order: seq<int>) returns (res: bool)
      requires Visits(order, clients.Keys)
      ensures res <==> NameFree(clients, username, id)
    {
      ghost var rest := clients.Keys;
      for k := 0 to |order|
        invariant rest <= clients.Keys && Visits(order[k..], rest)
        invariant forall j :: j in clients && j !in rest && clients[j].webUserName == username ==> clients[j].id == id
      {
        var i := order[k];
        if clients[i].webUserName == username && clients[i].id != id {
          return false;
        }
        rest := rest - {i};
      }
      return true;
    }

    /** The search ends: the ids tried so far are all in use, so there are no more of them than ids. */
    method NextClientId(order: seq<int>) returns (id: int)
      requires Visits(order, clients.Keys)
      modifies this`clientIncreaseId
      ensures id == FreeFrom(Ids(clients), 1) && clientIncreaseId == id
    {
      var used: set<int> := {};
      ghost var rest := clients.Keys;
      for k := 0 to |order|
        invariant rest <= clients.Keys && Visits(order[k..], rest)
        invariant used == IdsOf(clients, clients.Keys - rest)
      {
        var i := order[k];
        used := used + {clients[i].id};
        assert clients.Keys - (rest - {i}) == (clients.Keys - rest) + {i};
        rest := rest - {i};
      }
      assert clients.Keys - rest == clients.Keys;
      var i := 1;
      while i in used
        invariant i >= 1 && forall k :: 1 <= k < i ==> k in used
        decreases |used| + 1 - i
      {
        AllUsed(used, i + 1);
        i := i + 1;
      }
      clientIncreaseId := i;
      return i;
    }

    /** The key given, if no other client has it, or else, when none is given, generated keys until
        one is free. */
    method ChooseKey(c: Client, keys: seq<string>, order: seq<int>) returns (key: Option<string>)
      requires Visits(order, clients.Keys)
      requires c.verifyKey == "" ==> FirstFree(clients, keys, c.id).Some?
      ensures key == KeyFor(clients, c, keys)
    {
      if c.verifyKey != "" {
        var ok := VerifyVkey(c.verifyKey, c.id, order);
        return if ok then Some(c.verifyKey) else None;
      }
      var left := keys;
      while true
        invariant FirstFree(clients, left, c.id).Some?
        invariant FirstFree(clients, left, c.id) == FirstFree(clients, keys, c.id)
        decreases |left|
      {
        var ok := VerifyVkey(left[0], c.id, order);
        if ok {
          return Some(left[0]);
        }
        left := left[1..];
      }
    }

    /** `saved` tells whether writing the file succeeds; the record is stored either way. */
    method NewClient(c: Client, keys: seq<string>, hash: Option<string>, saved: bool, order: seq<int>)
      returns (err: Option<Error>)
      requires Visits(order, clients.Keys)
      requires c.verifyKey == "" ==> FirstFree(clients, keys, c.id).Some?
      modifies this
      ensures
        match Register(old(clients), maxClients, c, keys, hash)
        case Refused(e) => err == Some(e) && clients == old(clients)
        case Stored(m, id) => err == (if saved then None else Some(SaveFailed)) && clients == m
    {
      hide Quota, KeyFor, KeyFree, NameFree, FirstFree, FreeFrom, Ids, Visits, Hashed;
      if maxClients > 0 && !c.noStore {
        var cnt := GetClientCount(order);
        if cnt >= maxClients {
          return Some(QuotaReached);
        }
      }
      var record := c;
      if c.webPassword != "" && !Hashed(c.webPassword) {
        if hash.None? {
          return Some(HashFailed);
        }
        record := record.(webPassword := hash.value);
      }
      if c.webUserName != "" {
        var free := VerifyUserName(c.webUserName, c.id, order);
        if !free {
          return Some(NameDuplicate);
        }
      }
      var key := ChooseKey(c, keys, order);
      if key.None? {
        return Some(KeyDuplicate);
      }
      record := record.(verifyKey := key.value);
      if c.id == 0 {
        var id := NextClientId(order);
        record := record.(id := id);
      }
      clients := clients[record.id := record];
      return if saved then None else Some(SaveFailed);
    }

    method DelClient(id: int, saved: bool) returns (err: Option<Error>)
      modifies this`clients
      ensures clients == old(clients) - {id} && err == if saved then None else Some(SaveFailed)
    {
      clients := clients - {id};
      return if saved then None else Some(SaveFailed);
    }

    /** Visits the clients until an enabled one has the hashed key, and notes its address. */
    method GetIdByVerifyKey(vKey: string, addr: string, hash: string -> string, order: seq<int>)
      returns (id: Option<int>)
      requires Visits(order, clients.Keys)
      modifies this`clients
      ensures
        match Lookup(old(clients), order, hash, vKey)
        case None => id == None && clients == old(clients)
        case Some(i) =>
          && i in old(clients) && id == Some(old(clients)[i].id)
          && clients == old(clients)[i := old(clients)[i].(addr := addr)]
    {
      ghost var rest := clients.Keys;
      for k := 0 to |order|
        invariant rest <= clients.Keys && Visits(order[k..], rest)
        invariant Lookup(clients, order, hash, vKey) == Lookup(clients, order[k..], hash, vKey)
        invariant clients == old(clients)
      {
        var i := order[k];
        if Matches(clients[i], hash, vKey) {
          clients := clients[i := clients[i].(addr := addr)];
          return Some(clients[i].id);
        }
        rest := rest - {i};
      }
      return None;
    }
  }

  /** A client that a login with the hashed key `vKey` may be. */
  predicate Matches(c: Client, hash: string -> string, vKey: string) {
    hash(c.verifyKey) == vKey && c.status
  }

  /** The first match in visiting order. */
  function Lookup(m: Clients, order: seq<int>, hash: string -> string, vKey: string): Option<int> {
    if order == [] then None
    else if order[0] in m && Matches(m[order[0]], hash, vKey) then Some(order[0])
    else Lookup(m, order[1..], hash, vKey)
  }

  // ---- Smallest free id ----

  /** Pigeonhole. */
  lemma {:induction false} AllUsed(used: set<int>, n: int)
    requires n >= 1 && forall k :: 1 <= k < n ==> k in used
    ensures n - 1 <= |used|
  {
    if n > 1 {
      AllUsed(used - {n - 1}, n - 1);
    }
  }

  lemma IdsAreKeys(m: Clients)
    requires forall i :: i in m ==> m[i].id == i
    ensures Ids(m) == m.Keys
  {
    forall i | i in m.Keys ensures i in Ids(m) {
      assert m[i].id == i;
    }
    assert m.Keys <= Ids(m);
    assert Ids(m) <= m.Keys;
  }

  /** The id given to a new client is positive, free, at most one more than the number of clients,
      and no smaller one is free. */
  lemma SmallestFree(m: Clients)
    requires forall i :: i in m ==> m[i].id == i
    ensures
      var id := FreeFrom(Ids(m), 1);
      && 1 <= id <= |m| + 1
      && id !in m
      && (forall k :: 1 <= k < id ==> k in m)
  {
    IdsAreKeys(m);
    AllUsed(m.Keys, FreeFrom(Ids(m), 1));
  }

  // ---- What every run keeps ----

  ghost predicate Inv(m: Clients, maxClients: int) {
    && (forall i :: i in m ==> i > 0 && m[i].id == i)
    && (forall i, j :: i in m && j in m && m[i].verifyKey == m[j].verifyKey ==> i == j)
    && (forall i, j :: i in m && j in m && m[i].webUserName == m[j].webUserName != "" ==> i == j)
    && (forall i :: i in m ==> m[i].webPassword == "" || Hashed(m[i].webPassword))
    && (maxClients > 0 ==> |Quota(m)| <= maxClients)
  }

  lemma StoreKeepsQuota(m: Clients, maxClients: int, id: int, c: Client)
    requires maxClients > 0 ==> |Quota(m)| <= maxClients && (c.noStore || |Quota(m)| < maxClients)
    ensures maxClients > 0 ==> |Quota(m[id := c])| <= maxClients
  {
    assert Quota(m[id := c]) == if c.noStore then Quota(m) - {id} else Quota(m) + {id};
  }

  lemma StoreKeeps(m: Clients, maxClients: int, id: int, c: Client)
    requires Inv(m, maxClients) && c.id == id > 0
    requires forall i :: i in m && m[i].verifyKey == c.verifyKey ==> i == id
    requires c.webUserName != "" ==> forall i :: i in m && m[i].webUserName == c.webUserName ==> i == id
    requires c.webPassword == "" || Hashed(c.webPassword)
    requires maxClients > 0 ==> c.noStore || |Quota(m)| < maxClients
    ensures Inv(m[id := c], maxClients)
  {
    hide Quota, Hashed;
    StoreKeepsQuota(m, maxClients, id, c);
  }

  lemma RegisterKeeps(m: Clients, maxClients: int, c: Client, keys: seq<string>, hash: Option<string>)
    requires Inv(m, maxClients) && c.id >= 0 && Register(m, maxClients, c, keys, hash).Stored?
    requires hash.Some? ==> Hashed(hash.value)
    ensures Inv(Register(m, maxClients, c, keys, hash).clients, maxClients)
  {
    hide Quota, KeyFor, Ids;
    var Stored(m', id) := Register(m, maxClients, c, keys, hash);
    KeyForFree(m, c, keys);
    if c.id == 0 {
      SmallestFree(m);
    }
    hide FreeFrom;
    StoreKeeps(m, maxClients, id, m'[id]);
    hide Inv;
  }

  /** A registration keeps every id positive exactly when the given id is not negative: a negative
      one is stored under itself. */
  lemma PositiveIffNotNegative(m: Clients, maxClients: int, c: Client, keys: seq<string>, hash: Option<string>)
    requires Inv(m, maxClients) && Register(m, maxClients, c, keys, hash).Stored?
    ensures
      var m' := Register(m, maxClients, c, keys, hash).clients;
      (forall i :: i in m' ==> i > 0 && m'[i].id == i) <==> c.id >= 0
  {
    hide Quota, KeyFor;
    var Stored(m', id) := Register(m, maxClients, c, keys, hash);
    assert id in m' && m'[id].id == id;
    if c.id == 0 {
      SmallestFree(m);
    }
    hide FreeFrom, Ids;
  }

  lemma {:induction false} FirstFreeIsFree(m: Clients, keys: seq<string>, id: int)
    requires FirstFree(m, keys, id).Some?
    ensures KeyFree(m, FirstFree(m, keys, id).value, id)
  {
    if !KeyFree(m, keys[0], id) {
      FirstFreeIsFree(m, keys[1..], id);
    }
  }

  lemma KeyForFree(m: Clients, c: Client, keys: seq<string>)
    requires KeyFor(m, c, keys).Some?
    ensures KeyFree(m, KeyFor(m, c, keys).value, c.id)
  {
    if c.verifyKey == "" {
      FirstFreeIsFree(m, keys, c.id);
    }
  }

  datatype Op = New(c: Client, keys: seq<string>, hash: Option<string>) | Del(id: int)

  function After(m: Clients, maxClients: int, op: Op): Clients {
    match op
    case New(c, keys, hash) =>
      var o := Register(m, maxClients, c, keys, hash);
      if o.Stored? then o.clients else m
    case Del(id) => m - {id}
  }

  function Run(maxClients: int, ops: seq<Op>): Clients {
    if ops == [] then map[] else After(Run(maxClients, ops[..|ops| - 1]), maxClients, ops[|ops| - 1])
  }

  /** A run that stores one: the first client of a registry comes with id -1. */
  lemma NegativeIdStored() returns (ops: seq<Op>)
    ensures
      var m := Run(0, ops);
      -1 in m && m[-1].id == -1
  {
    ops := [New(Client(-1, "key", "", true, false, "", ""), [], None)];
    assert ops[..0] == [];
    assert Run(0, ops[..0]) == map[];
  }

  predicate Sane(op: Op) {
    op.New? ==> op.c.id >= 0 && (op.hash.Some? ==> Hashed(op.hash.value))
  }

  /** After any sequence of registrations and deletions: records are keyed by their own positive
      id, keys and non-empty user names are distinct, no password is stored in the clear, and the
      clients that count never exceed a positive limit. */
  lemma {:induction false} RunInv(maxClients: int, ops: seq<Op>)
    requires forall op :: op in ops ==> Sane(op)
    ensures Inv(Run(maxClients, ops), maxClients)
  {
    if ops == [] {
      assert Quota(map[]) == {};
    } else {
      RunInv(maxClients, ops[..|ops| - 1]);
      var m, op := Run(maxClients, ops[..|ops| - 1]), ops[|ops| - 1];
      assert Sane(op);
      if op.Del? {
        DeleteKeeps(m, maxClients, op.id);
      } else if Register(m, maxClients, op.c, op.keys, op.hash).Stored? {
        RegisterKeeps(m, maxClients, op.c, op.keys, op.hash);
      }
    }
  }

  lemma DeleteKeeps(m: Clients, maxClients: int, id: int)
    requires Inv(m, maxClients)
    ensures Inv(m - {id}, maxClients)
  {
    assert Quota(m - {id}) == Quota(m) - {id};
  }

  // ---- Lookup ----

  ghost predicate Injective(hash: string -> string) {
    forall a, b :: hash(a) == hash(b) ==> a == b
  }

  lemma {:induction false} LookupFinds(m: Clients, order: seq<int>, keys: set<int>, hash: string -> string,
                                           vKey: string)
    requires keys <= m.Keys && Visits(order, keys)
    ensures
      match Lookup(m, order, hash, vKey)
      case None => forall i :: i in keys ==> !Matches(m[i], hash, vKey)
      case Some(i) => i in keys && Matches(m[i], hash, vKey)
  {
    if order != [] {
      LookupFinds(m, order[1..], keys - {order[0]}, hash, vKey);
    }
  }

  /** In any reachable registry a login key has at most one owner, so the lookup finds it whatever
      the order in which the clients are visited. */
  lemma LookupIgnoresOrder(maxClients: int, ops: seq<Op>, order: seq<int>, order': seq<int>, hash: string -> string,
                           vKey: string)
    requires forall op :: op in ops ==> Sane(op)
    requires Injective(hash)
    requires Visits(order, Run(maxClients, ops).Keys) && Visits(order', Run(maxClients, ops).Keys)
    ensures
      var m := Run(maxClients, ops);
      && Lookup(m, order, hash, vKey) == Lookup(m, order', hash, vKey)
      && (Lookup(m, order, hash, vKey).Some? <==> exists i :: i in m && Matches(m[i], hash, vKey))
  {
    var m := Run(maxClients, ops);
    RunInv(maxClients, ops);
    LookupFinds(m, order, m.Keys, hash, vKey);
    LookupFinds(m, order', m.Keys, hash, vKey);
    hide Run;
    var a, b := Lookup(m, order, hash, vKey), Lookup(m, order', hash, vKey);
    if a.Some? && b.Some? {
      assert hash(m[a.value].verifyKey) == hash(m[b.value].verifyKey);
    }
  }

  lemma OneOwner(m: Clients, maxClients: int, order: seq<int>, hash: string -> string, id: int)
    requires Inv(m, maxClients) && Injective(hash) && Visits(order, m.Keys) && id in m && m[id].status
    ensures Lookup(m, order, hash, hash(m[id].verifyKey)) == Some(id)
  {
    var vKey := hash(m[id].verifyKey);
    LookupFinds(m, order, m.Keys, hash, vKey);
    assert Matches(m[id], hash, vKey);
    var found := Lookup(m, order, hash, vKey).value;
    assert hash(m[found].verifyKey) == hash(m[id].verifyKey);
  }

  /** A client that registers can log in with its key and gets its own id, until it is deleted. */
  lemma RegisteredLogsIn(m: Clients, maxClients: int, c: Client, keys: seq<string>, pass: Option<string>,
                         hash: string -> string, order: seq<int>, order': seq<int>)
    requires Inv(m, maxClients) && Register(m, maxClients, c, keys, pass).Stored?
    requires c.id >= 0 && c.status && (pass.Some? ==> Hashed(pass.value)) && Injective(hash)
    requires
      var Stored(m', id) := Register(m, maxClients, c, keys, pass);
      Visits(order, m'.Keys) && Visits(order', (m' - {id}).Keys)
    ensures
      var Stored(m', id) := Register(m, maxClients, c, keys, pass);
      && id in m'
      && Lookup(m', order, hash, hash(m'[id].verifyKey)) == Some(id)
      && Lookup(m' - {id}, order', hash, hash(m'[id].verifyKey)) == None
  {
    RegisterKeeps(m, maxClients, c, keys, pass);
    var Stored(m', id) := Register(m, maxClients, c, keys, pass);
    assert id in m' && m'[id].status;
    hide Register;
    OneOwner(m', maxClients, order, hash, id);
    var vKey := hash(m'[id].verifyKey);
    LookupFinds(m' - {id}, order', (m' - {id}).Keys, hash, vKey);
    forall i | i in m' - {id} ensures !Matches((m' - {id})[i], hash, vKey) {
      if hash(m'[i].verifyKey) == hash(m'[id].verifyKey) {
        assert m'[i].verifyKey == m'[id].verifyKey;
      }
    }
  }
}
