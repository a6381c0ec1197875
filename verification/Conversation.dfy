/** The conversation store: histories under a size budget, evicted in the order of a list that
    expiry does not tidy. */
module Conversation {
  import opened KeyLists
  import opened Options

  type Time = int
  type Bytes = string

  /** `content` is the compressed text. */
  datatype Turn = Turn(role: string, content: Bytes, tokens: nat, model: string)

  datatype History = History(turns: seq<Turn>, lastModel: string, updatedAt: Time)

  datatype Store = Store(convos: map<Key, History>, order: seq<Key>, size: int)

  const DEFAULT_MAX_SIZE := 52_428_800
  const DEFAULT_TTL := 7_200_000_000_000

  // ----- Sizes -----

  function SizeOf(turns: seq<Turn>): nat {
    if turns == [] then 0 else SizeOf(turns[..|turns| - 1]) + |turns[|turns| - 1].content|
  }

  function Sizes(convos: map<Key, History>): map<Key, nat> {
    map k | k in convos :: SizeOf(convos[k].turns)
  }

  /** The sum of the values of a map. */
  ghost function Sum<K>(m: map<K, nat>): nat
    decreases |m|
  {
    if m == map[] then 0
    else
      var k :| k in m;
      m[k] + Sum(m - {k})
  }

  lemma {:induction false} SumWithout<K>(m: map<K, nat>, k: K)
    requires k in m
    ensures Sum(m) == m[k] + Sum(m - {k})
    decreases |m|
  {
    var j :| j in m && Sum(m) == m[j] + Sum(m - {j});
    if j != k {
      SumWithout(m - {j}, k);
      SumWithout(m - {k}, j);
      assert m - {j} - {k} == m - {k} - {j};
    }
  }

  ghost function Total(convos: map<Key, History>): nat {
    Sum(Sizes(convos))
  }

  lemma TotalWithout(convos: map<Key, History>, k: Key)
    requires k in convos
    ensures Total(convos) == SizeOf(convos[k].turns) + Total(convos - {k})
  {
    SumWithout(Sizes(convos), k);
    assert Sizes(convos - {k}) == Sizes(convos) - {k};
  }

  lemma TotalWith(convos: map<Key, History>, k: Key, h: History)
    ensures k !in convos ==> Total(convos[k := h]) == Total(convos) + SizeOf(h.turns)
    ensures k in convos ==> Total(convos[k := h]) == Total(convos) - SizeOf(convos[k].turns) + SizeOf(h.turns)
  {
    TotalWithout(convos[k := h], k);
    if k in convos {
      TotalWithout(convos, k);
      assert convos[k := h] - {k} == convos - {k};
    } else {
      assert convos[k := h] - {k} == convos;
    }
  }

  // ----- Specification -----

  function RemoveKey(s: Store, k: Key): Store {
    if k in s.convos then Store(s.convos - {k}, s.order, s.size - SizeOf(s.convos[k].turns)) else s
  }

  function EvictOldest(s: Store): Store {
    if s.order == [] then s else RemoveKey(Store(s.convos, s.order[1..], s.size), s.order[0])
  }

  /** Evicts until `more` bytes fit or no key is left. */
  function MakeRoom(s: Store, maxSize: int, more: nat): Store
    decreases |s.order|
  {
    if s.size + more <= maxSize || s.order == [] then s else MakeRoom(EvictOldest(s), maxSize, more)
  }

  /** The store with a history, possibly empty, for k. */
  function Opened(s: Store, maxSize: int, k: Key, more: nat): Store {
    if k in s.convos then s
    else
      var room := MakeRoom(s, maxSize, more);
      Store(room.convos[k := History([], "", 0)], room.order + [k], room.size)
  }

  function Extended(h: History, t: Turn, now: Time): History {
    History(h.turns + [t], if t.model != "" then t.model else h.lastModel, now)
  }

  function AfterAdd(s: Store, maxSize: int, k: Key, t: Turn, now: Time): Store {
    var o := Opened(s, maxSize, k, |t.content|);
    if k in o.convos then
      Store(o.convos[k := Extended(o.convos[k], t, now)], Without(o.order, k) + [k], o.size + |t.content|)
    else o
  }

  predicate Expired(h: History, ttl: int, now: Time) {
    now - h.updatedAt > ttl
  }

  function AfterGet(s: Store, ttl: int, k: Key, now: Time): Store {
    if k in s.convos && Expired(s.convos[k], ttl, now) then RemoveKey(s, k) else s
  }

  function Found(s: Store, ttl: int, k: Key, now: Time): Option<History> {
    if k in s.convos && !Expired(s.convos[k], ttl, now) then Some(s.convos[k]) else None
  }

  // ----- What every call keeps -----

  /** The size is the sum of all stored turns, and every stored key is in the list. */
  ghost predicate Accounted(s: Store) {
    s.size == Total(s.convos) && forall k :: k in s.convos ==> k in s.order
  }

  lemma RemoveKeyAccounts(s: Store, k: Key)
    requires s.size == Total(s.convos)
    ensures RemoveKey(s, k).size == Total(RemoveKey(s, k).convos)
  {
    if k in s.convos {
      TotalWithout(s.convos, k);
    }
  }

  lemma EvictAccounts(s: Store)
    requires Accounted(s)
    ensures Accounted(EvictOldest(s))
  {
    if s.order != [] {
      var oldest := s.order[0];
      assert s.order == [oldest] + s.order[1..];
      RemoveKeyAccounts(Store(s.convos, s.order[1..], s.size), oldest);
    }
  }

  lemma NoKeysNoSize(s: Store)
    requires Accounted(s) && s.order == []
    ensures s.convos == map[] && s.size == 0
  {
    assert forall k: Key :: k !in s.convos;
    assert s.convos == map[] && Sizes(s.convos) == map[];
  }

  /** Eviction ends with the turn fitting, or with nothing left to evict. */
  lemma {:induction false} RoomAccounts(s: Store, maxSize: int, more: nat)
    requires Accounted(s)
    ensures var room := MakeRoom(s, maxSize, more);
      Accounted(room) && (room.size + more <= maxSize || (room.convos == map[] && room.size == 0))
    ensures forall k :: k in MakeRoom(s, maxSize, more).convos ==> k in s.convos
    decreases |s.order|
  {
    if s.size + more <= maxSize {
    } else if s.order == [] {
      NoKeysNoSize(s);
    } else {
      EvictAccounts(s);
      RoomAccounts(EvictOldest(s), maxSize, more);
    }
  }

  /** Removing one occurrence and appending the key keeps every key in the list. */
  lemma {:induction false} TouchKeepsKeys(order: seq<Key>, k: Key)
    ensures forall x :: x in Without(order, k) + [k] <==> x in order || x == k
  {
    if order != [] {
      assert order == [order[0]] + order[1..];
      TouchKeepsKeys(order[1..], k);
      forall x ensures x in Without(order, k) + [k] <==> x in order || x == k {
        assert x in Without(order[1..], k) + [k] <==> x in order[1..] || x == k;
      }
    }
  }

  /** Adding a turn keeps the accounts; a new conversation leaves the size within the budget or,
      if the turn alone is larger, at that turn; an old one grows by the turn. */
  lemma AddAccounts(s: Store, maxSize: int, k: Key, t: Turn, now: Time)
    requires Accounted(s)
    ensures Accounted(AfterAdd(s, maxSize, k, t, now))
    ensures k !in s.convos ==>
      AfterAdd(s, maxSize, k, t, now).size <= maxSize || AfterAdd(s, maxSize, k, t, now).size == |t.content|
    ensures k in s.convos ==> AfterAdd(s, maxSize, k, t, now).size == s.size + |t.content|
  {
    var more := |t.content|;
    var o := Opened(s, maxSize, k, more);
    if k !in s.convos {
      RoomAccounts(s, maxSize, more);
      var room := MakeRoom(s, maxSize, more);
      TotalWith(room.convos, k, History([], "", 0));
    }
    var h := o.convos[k];
    assert (h.turns + [t])[..|h.turns|] == h.turns;
    TotalWith(o.convos, k, Extended(h, t, now));
    TouchKeepsKeys(o.order, k);
  }

  lemma GetAccounts(s: Store, ttl: int, k: Key, now: Time)
    requires Accounted(s)
    ensures Accounted(AfterGet(s, ttl, k, now))
  {
    RemoveKeyAccounts(s, k);
  }

  // ----- Runs -----

  datatype Op =
    | Add(key: Key, turn: Turn, at: Time)
    | Get(key: Key, at: Time)

  function After(s: Store, maxSize: int, ttl: int, op: Op): Store {
    match op
    case Add(k, t, at) => AfterAdd(s, maxSize, k, t, at)
    case Get(k, at) => AfterGet(s, ttl, k, at)
  }

  function Run(ops: seq<Op>, maxSize: int, ttl: int): Store {
    if ops == [] then Store(map[], [], 0)
    else After(Run(ops[..|ops| - 1], maxSize, ttl), maxSize, ttl, ops[|ops| - 1])
  }

  /** In every run the size is exactly what is stored, and no stored conversation is out of
      eviction's reach. */
  lemma {:induction false} RunAccounts(ops: seq<Op>, maxSize: int, ttl: int)
    ensures Accounted(Run(ops, maxSize, ttl))
  {
    if ops == [] {
      assert Sizes(map[]) == map[];
    } else {
      var n := |ops| - 1;
      RunAccounts(ops[..n], maxSize, ttl);
      var s := Run(ops[..n], maxSize, ttl);
      match ops[n]
      case Add(k, t, at) => AddAccounts(s, maxSize, k, t, at);
      case Get(k, at) => GetAccounts(s, ttl, k, at);
    }
  }

  // ----- The store -----

  class ConversationStore {
    var convos: map<Key, History>
    var order: seq<Key>
    var curSize: int
    const maxSize: int
    const ttl: int

    ghost function State(): Store
      reads this
    {
      Store(convos, order, curSize)
    }

    constructor ()
      ensures State() == Run([], maxSize, ttl)
      ensures maxSize == 52_428_800 && ttl == 7_200_000_000_000
    {
      convos, order, curSize, maxSize, ttl := map[], [], 0, DEFAULT_MAX_SIZE, DEFAULT_TTL;
    }

    method Remove(key: Key)
      modifies this`convos, this`curSize
      ensures State() == RemoveKey(old(State()), key)
    {
      if key in convos {
        var turns := convos[key].turns;
        for i := 0 to |turns|
          invariant convos == old(convos)
          invariant curSize == old(curSize) - SizeOf(turns[..i])
        {
          assert turns[..i + 1][..i] == turns[..i];
          curSize := curSize - |turns[i].content|;
        }
        assert turns[..|turns|] == turns;
        convos := convos - {key};
      }
    }

    method Evict()
      modifies this`convos, this`order, this`curSize
      ensures State() == EvictOldest(old(State()))
    {
      if |order| == 0 {
        return;
      }
      var oldest := order[0];
      order := order[1..];
      Remove(oldest);
    }

    method TouchLRU(key: Key)
      modifies this`order
      ensures order == Without(old(order), key) + [key]
    {
      var i := 0;
      while i < |order| && order[i] != key
        invariant 0 <= i <= |order| && order == old(order) && key !in order[..i]
      {
        assert order[..i + 1] == order[..i] + [order[i]];
        i := i + 1;
      }
      WithoutAt(order, key, i);
      if i < |order| {
        order := order[..i] + order[i + 1..];
      }
      order := order + [key];
    }

    method Fit(more: nat)
      modifies this`convos, this`order, this`curSize
      ensures State() == MakeRoom(old(State()), maxSize, more)
    {
      while curSize + more > maxSize && |order| > 0
        invariant MakeRoom(State(), maxSize, more) == MakeRoom(old(State()), maxSize, more)
        decreases |order|
      {
        Evict();
      }
    }

    /** `compressed` is the content as gzip left it, `length` its length before that. */
    method AddTurn(key: Key, role: string, length: nat, compressed: Bytes, model: string, now: Time)
      modifies this`convos, this`order, this`curSize
      ensures State() == AfterAdd(old(State()), maxSize, key, Turn(role, compressed, (length + 3) / 4, model), now)
    {
      if key !in convos {
        Fit(|compressed|);
        convos := convos[key := History([], "", 0)];
        order := order + [key];
      }
      var h := convos[key];
      var turns := h.turns + [Turn(role, compressed, (length + 3) / 4, model)];
      convos := convos[key := History(turns, if model != "" then model else h.lastModel, now)];
      curSize := curSize + |compressed|;
      TouchLRU(key);
    }

    method GetHistory(key: Key, now: Time) returns (r: Option<History>)
      modifies this`convos, this`curSize
      ensures r == Found(old(State()), ttl, key, now)
      ensures State() == AfterGet(old(State()), ttl, key, now)
    {
      if key !in convos {
        return None;
      }
      var h := convos[key];
      if now - h.updatedAt > ttl {
        Remove(key);
        return None;
      }
      r := Some(h);
    }
  }
}
