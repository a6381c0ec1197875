/** The session cache: a map and a list of its keys. */
module Session {
  import opened KeyLists
  import opened Options

  // The list has the key set longest ago first. `Cache` is the state as a value, `Op` a call, and
  // `Run` the state after a list of calls.

  type Time = int

  datatype Entry = Entry(provider: string, model: string, lastUsed: Time, turns: nat)

  datatype Cache = Cache(items: map<Key, Entry>, order: seq<Key>)

  const DEFAULT_TTL := 7_200_000_000_000
  const DEFAULT_MAX: nat := 10_000

  // ----- Specification -----

  function EvictOldest(c: Cache): Cache {
    if c.order == [] then c else Cache(c.items - {c.order[0]}, c.order[1..])
  }

  /** Evicts until there is room. */
  function MakeRoom(c: Cache, max: nat): Cache
    decreases |c.order|
  {
    if |c.items| < max || c.order == [] then c else MakeRoom(EvictOldest(c), max)
  }

  function AfterSet(c: Cache, max: nat, k: Key, provider: string, model: string, now: Time): Cache {
    if k in c.items then
      Cache(c.items[k := Entry(provider, model, now, c.items[k].turns + 1)], Without(c.order, k) + [k])
    else
      var room := MakeRoom(c, max);
      Cache(room.items[k := Entry(provider, model, now, 1)], room.order + [k])
  }

  predicate Expired(e: Entry, ttl: int, now: Time) {
    now - e.lastUsed > ttl
  }

  function AfterGet(c: Cache, ttl: int, k: Key, now: Time): Cache {
    if k in c.items && Expired(c.items[k], ttl, now) then Cache(c.items - {k}, Without(c.order, k)) else c
  }

  function Found(c: Cache, ttl: int, k: Key, now: Time): Option<Entry> {
    if k in c.items && !Expired(c.items[k], ttl, now) then Some(c.items[k]) else None
  }

  // ----- The list and the map agree -----

  ghost predicate Sound(c: Cache, max: nat) {
    && Distinct(c.order)
    && (forall k :: k in c.order <==> k in c.items)
    && |c.items| <= max
  }

  lemma SoundCount(c: Cache, max: nat)
    requires Sound(c, max)
    ensures |c.order| == |c.items|
  {
    assert forall k :: k in c.items <==> k in c.items.Keys;
    DistinctCount(c.order, c.items.Keys);
  }

  lemma EvictStaysSound(c: Cache, max: nat)
    requires Sound(c, max) && c.order != []
    ensures Sound(EvictOldest(c), max) && |EvictOldest(c).items| == |c.items| - 1
  {
    var oldest, rest := c.order[0], c.order[1..];
    assert c.order == [oldest] + rest;
    assert oldest in c.order && oldest in c.items;
    var evicted := EvictOldest(c);
    assert evicted.items.Keys == c.items.Keys - {oldest};
    assert |evicted.items.Keys| == |c.items.Keys| - 1;
  }

  /** A sound cache makes room in at most one eviction. */
  lemma RoomIs(c: Cache, max: nat)
    requires max >= 1 && Sound(c, max)
    ensures MakeRoom(c, max) == if |c.items| < max then c else EvictOldest(c)
    ensures |c.items| >= max ==> c.order != []
    ensures Sound(MakeRoom(c, max), max) && |MakeRoom(c, max).items| < max
  {
    if |c.items| >= max {
      SoundCount(c, max);
      EvictStaysSound(c, max);
    }
  }

  lemma {:induction false} SetStaysSound(c: Cache, max: nat, k: Key, provider: string, model: string, now: Time)
    requires max >= 1 && Sound(c, max)
    ensures Sound(AfterSet(c, max, k, provider, model, now), max)
  {
    var after := AfterSet(c, max, k, provider, model, now);
    if k in c.items {
      WithoutIs(c.order, k);
      assert after.items.Keys == c.items.Keys;
      assert |after.items.Keys| == |c.items.Keys|;
    } else {
      RoomIs(c, max);
      var room := MakeRoom(c, max);
      assert k !in room.items;
      assert after.items.Keys == room.items.Keys + {k};
      assert |after.items.Keys| == |room.items.Keys| + 1;
    }
  }

  lemma GetStaysSound(c: Cache, max: nat, ttl: int, k: Key, now: Time)
    requires Sound(c, max)
    ensures Sound(AfterGet(c, ttl, k, now), max)
  {
    var after := AfterGet(c, ttl, k, now);
    if after != c {
      WithoutIs(c.order, k);
      assert after.items.Keys == c.items.Keys - {k};
      assert |after.items.Keys| <= |c.items.Keys|;
    }
  }

  // ----- Runs -----

  datatype Op =
    | Set(key: Key, provider: string, model: string, at: Time)
    | Get(key: Key, at: Time)

  function After(c: Cache, max: nat, ttl: int, op: Op): Cache {
    match op
    case Set(k, provider, model, at) => AfterSet(c, max, k, provider, model, at)
    case Get(k, at) => AfterGet(c, ttl, k, at)
  }

  function Run(ops: seq<Op>, max: nat, ttl: int): Cache {
    if ops == [] then Cache(map[], [])
    else After(Run(ops[..|ops| - 1], max, ttl), max, ttl, ops[|ops| - 1])
  }

  /** Times never go back. */
  ghost predicate Ordered(ops: seq<Op>) {
    forall i, j :: 0 <= i < j < |ops| ==> ops[i].at <= ops[j].at
  }

  /** The last Set of k. */
  function LastSet(ops: seq<Op>, k: Key): (r: Option<Op>)
    ensures r.Some? ==> r.value.Set? && r.value.key == k && r.value in ops
  {
    if ops == [] then None
    else
      var last := ops[|ops| - 1];
      if last.Set? && last.key == k then Some(last) else LastSet(ops[..|ops| - 1], k)
  }

  /** The other keys set since the last Set of k. */
  function SetSince(ops: seq<Op>, k: Key): set<Key> {
    if ops == [] then {}
    else
      var last := ops[|ops| - 1];
      var before := SetSince(ops[..|ops| - 1], k);
      if last.Get? then before
      else if last.key == k then {}
      else before + {last.key}
  }

  /** A key that was set and is no longer held was set too long ago, or max others followed. */
  ghost predicate Explained(ops: seq<Op>, max: nat, ttl: int, clock: Time, k: Key) {
    match LastSet(ops, k)
    case None => true
    case Some(s) => clock - s.at > ttl || |SetSince(ops, k)| >= max
  }

  /** A held entry is what its last Set made it. */
  ghost predicate Faithful(ops: seq<Op>, k: Key, e: Entry) {
    match LastSet(ops, k)
    case None => false
    case Some(s) => e.provider == s.provider && e.model == s.model && e.lastUsed == s.at
  }

  ghost predicate AllSetSince(ops: seq<Op>, k: Key, later: seq<Key>) {
    forall x :: x in later ==> x in SetSince(ops, k)
  }

  /** Every key was set since those before it in the list were. */
  ghost predicate Recent(ops: seq<Op>, order: seq<Key>) {
    order == [] || (AllSetSince(ops, order[0], order[1..]) && Recent(ops, order[1..]))
  }

  ghost predicate Inv(ops: seq<Op>, max: nat, ttl: int, clock: Time, c: Cache) {
    && Sound(c, max)
    && Recent(ops, c.order)
    && (forall k :: k in c.items ==> Faithful(ops, k, c.items[k]))
    && (forall k :: k !in c.items ==> Explained(ops, max, ttl, clock, k))
  }

  lemma GetIsExplained(ops: seq<Op>, max: nat, ttl: int, clock: Time, c: Cache, op: Op, k: Key)
    requires op.Get? && op.at >= clock && Inv(ops, max, ttl, clock, c)
    requires k !in AfterGet(c, ttl, op.key, op.at).items
    ensures Explained(ops + [op], max, ttl, op.at, k)
  {
    HistoryIgnoresGet(ops, op, k);
    if k in c.items {
      assert Faithful(ops, k, c.items[k]);
    } else {
      assert Explained(ops, max, ttl, clock, k);
    }
  }

  lemma {:induction false} GetKeepsInv(ops: seq<Op>, max: nat, ttl: int, clock: Time, c: Cache, op: Op)
    requires op.Get? && op.at >= clock && Inv(ops, max, ttl, clock, c)
    ensures Inv(ops + [op], max, ttl, op.at, AfterGet(c, ttl, op.key, op.at))
  {
    var after := AfterGet(c, ttl, op.key, op.at);
    GetStaysSound(c, max, ttl, op.key, op.at);
    WithoutKeepsRecent(ops, c.order, op.key);
    GetKeepsRecent(ops, op, after.order);
    forall k | k in after.items ensures Faithful(ops + [op], k, after.items[k]) {
      HistoryIgnoresGet(ops, op, k);
      assert Faithful(ops, k, c.items[k]);
    }
    forall k | k !in after.items ensures Explained(ops + [op], max, ttl, op.at, k) {
      GetIsExplained(ops, max, ttl, clock, c, op, k);
    }
  }

  lemma {:induction false} WithoutKeepsRecent(ops: seq<Op>, order: seq<Key>, k: Key)
    requires Recent(ops, order)
    ensures Recent(ops, Without(order, k))
  {
    if order != [] && order[0] != k {
      var rest, less := order[1..], Without(order[1..], k);
      WithoutKeepsRecent(ops, rest, k);
      forall x | x in less ensures x in SetSince(ops, order[0]) {
        WithoutShrinks(rest, k, x);
      }
      assert Without(order, k)[1..] == less;
    }
  }

  /** A Set that follows moves its key behind every other one. */
  lemma {:induction false} SetAppendsRecent(ops: seq<Op>, order: seq<Key>, op: Op)
    requires op.Set? && op.key !in order && Recent(ops, order)
    ensures Recent(ops + [op], order + [op.key])
  {
    var more := order + [op.key];
    if order == [] {
      assert more[1..] == [];
    } else {
      var rest := order[1..];
      assert more[1..] == rest + [op.key] && order[0] in order;
      assert forall x :: x in rest ==> x in order;
      SetAppendsRecent(ops, rest, op);
      SetHistory(ops, op, order[0]);
    }
  }

  lemma HistoryIgnoresGet(ops: seq<Op>, op: Op, k: Key)
    requires op.Get?
    ensures LastSet(ops + [op], k) == LastSet(ops, k) && SetSince(ops + [op], k) == SetSince(ops, k)
  {
    assert (ops + [op])[..|ops|] == ops;
  }

  lemma {:induction false} GetKeepsRecent(ops: seq<Op>, op: Op, order: seq<Key>)
    requires op.Get? && Recent(ops, order)
    ensures Recent(ops + [op], order)
  {
    if order != [] {
      HistoryIgnoresGet(ops, op, order[0]);
      GetKeepsRecent(ops, op, order[1..]);
    }
  }

  lemma SetHistory(ops: seq<Op>, op: Op, k: Key)
    requires op.Set?
    ensures k == op.key ==> LastSet(ops + [op], k) == Some(op)
    ensures k != op.key ==> LastSet(ops + [op], k) == LastSet(ops, k)
    ensures k != op.key ==> SetSince(ops + [op], k) == SetSince(ops, k) + {op.key}
  {
    assert (ops + [op])[..|ops|] == ops;
  }

  lemma StaysExplained(ops: seq<Op>, max: nat, ttl: int, clock: Time, op: Op, k: Key)
    requires op.Set? && k != op.key && op.at >= clock && Explained(ops, max, ttl, clock, k)
    ensures Explained(ops + [op], max, ttl, op.at, k)
  {
    SetHistory(ops, op, k);
    SubsetCount(SetSince(ops, k), SetSince(ops + [op], k));
  }

  /** The key evicted by a Set of a new key had max others set after it. */
  lemma EvictedIsExplained(ops: seq<Op>, max: nat, ttl: int, clock: Time, c: Cache, op: Op)
    requires max >= 1 && Inv(ops, max, ttl, clock, c)
    requires op.Set? && op.key !in c.items && |c.items| >= max && c.order != []
    ensures Explained(ops + [op], max, ttl, op.at, c.order[0])
  {
    var k := c.order[0];
    var rest := c.order[1..];
    var held := KeySet(rest) + {op.key};
    assert k in c.order && op.key !in c.order;
    SetHistory(ops, op, k);
    assert AllSetSince(ops, k, rest);
    assert held <= SetSince(ops + [op], k);
    SubsetCount(held, SetSince(ops + [op], k));
    assert forall x :: x in rest <==> x in KeySet(rest);
    DistinctCount(rest, KeySet(rest));
    SoundCount(c, max);
    assert op.key !in KeySet(rest);
  }

  lemma {:induction false} RefreshKeepsInv(ops: seq<Op>, max: nat, ttl: int, clock: Time, c: Cache, op: Op)
    requires max >= 1 && op.Set? && op.at >= clock && Inv(ops, max, ttl, clock, c) && op.key in c.items
    ensures Inv(ops + [op], max, ttl, op.at, AfterSet(c, max, op.key, op.provider, op.model, op.at))
  {
    var after := AfterSet(c, max, op.key, op.provider, op.model, op.at);
    SetStaysSound(c, max, op.key, op.provider, op.model, op.at);
    WithoutIs(c.order, op.key);
    WithoutKeepsRecent(ops, c.order, op.key);
    SetAppendsRecent(ops, Without(c.order, op.key), op);
    forall k | k in after.items ensures Faithful(ops + [op], k, after.items[k]) {
      SetHistory(ops, op, k);
      assert k in c.items && (k != op.key ==> Faithful(ops, k, c.items[k]));
    }
    forall k | k !in after.items ensures Explained(ops + [op], max, ttl, op.at, k) {
      StaysExplained(ops, max, ttl, clock, op, k);
    }
  }

  lemma InsertIsFaithful(ops: seq<Op>, max: nat, ttl: int, clock: Time, c: Cache, op: Op, k: Key)
    requires max >= 1 && op.Set? && Inv(ops, max, ttl, clock, c) && op.key !in c.items
    requires k in AfterSet(c, max, op.key, op.provider, op.model, op.at).items
    ensures Faithful(ops + [op], k, AfterSet(c, max, op.key, op.provider, op.model, op.at).items[k])
  {
    RoomIs(c, max);
    SetHistory(ops, op, k);
    if k != op.key {
      assert k in c.items && Faithful(ops, k, c.items[k]);
    }
  }

  lemma InsertIsExplained(ops: seq<Op>, max: nat, ttl: int, clock: Time, c: Cache, op: Op, k: Key)
    requires max >= 1 && op.Set? && op.at >= clock && Inv(ops, max, ttl, clock, c) && op.key !in c.items
    requires k !in AfterSet(c, max, op.key, op.provider, op.model, op.at).items
    ensures Explained(ops + [op], max, ttl, op.at, k)
  {
    RoomIs(c, max);
    if k in c.items {
      EvictedIsExplained(ops, max, ttl, clock, c, op);
    } else {
      assert Explained(ops, max, ttl, clock, k);
      StaysExplained(ops, max, ttl, clock, op, k);
    }
  }

  lemma InsertIsRecent(ops: seq<Op>, max: nat, ttl: int, clock: Time, c: Cache, op: Op)
    requires max >= 1 && op.Set? && Inv(ops, max, ttl, clock, c) && op.key !in c.items
    ensures Recent(ops + [op], AfterSet(c, max, op.key, op.provider, op.model, op.at).order)
  {
    RoomIs(c, max);
    var room := MakeRoom(c, max);
    assert Recent(ops, room.order) && op.key !in room.order;
    SetAppendsRecent(ops, room.order, op);
  }

  lemma {:induction false} InsertKeepsInv(ops: seq<Op>, max: nat, ttl: int, clock: Time, c: Cache, op: Op)
    requires max >= 1 && op.Set? && op.at >= clock && Inv(ops, max, ttl, clock, c) && op.key !in c.items
    ensures Inv(ops + [op], max, ttl, op.at, AfterSet(c, max, op.key, op.provider, op.model, op.at))
  {
    var after := AfterSet(c, max, op.key, op.provider, op.model, op.at);
    SetStaysSound(c, max, op.key, op.provider, op.model, op.at);
    InsertIsRecent(ops, max, ttl, clock, c, op);
    forall k | k in after.items ensures Faithful(ops + [op], k, after.items[k]) {
      InsertIsFaithful(ops, max, ttl, clock, c, op, k);
    }
    forall k | k !in after.items ensures Explained(ops + [op], max, ttl, op.at, k) {
      InsertIsExplained(ops, max, ttl, clock, c, op, k);
    }
  }

  function Clock(ops: seq<Op>): Time
    requires ops != []
  {
    ops[|ops| - 1].at
  }

  lemma {:induction false} RunKeepsInv(ops: seq<Op>, max: nat, ttl: int)
    requires max >= 1 && ops != [] && Ordered(ops)
    ensures Inv(ops, max, ttl, Clock(ops), Run(ops, max, ttl))
  {
    var n := |ops| - 1;
    var init, op := ops[..n], ops[n];
    assert ops == init + [op];
    var clock := op.at;
    if init == [] {
      assert Inv(init, max, ttl, clock, Cache(map[], []));
    } else {
      RunKeepsInv(init, max, ttl);
      clock := Clock(init);
      assert clock <= op.at;
    }
    var c := Run(init, max, ttl);
    if op.Get? {
      GetKeepsInv(init, max, ttl, clock, c, op);
    } else if op.key in c.items {
      RefreshKeepsInv(init, max, ttl, clock, c, op);
    } else {
      InsertKeepsInv(init, max, ttl, clock, c, op);
    }
  }

  /** In every run the list holds each key of the map once and no other, and the map never
      outgrows its bound. */
  lemma {:induction false} RunStaysSound(ops: seq<Op>, max: nat, ttl: int)
    requires max >= 1 && Ordered(ops)
    ensures Sound(Run(ops, max, ttl), max)
  {
    if ops != [] {
      RunKeepsInv(ops, max, ttl);
    }
  }

  /** What Get answers after any run: a key whose last Set is within the TTL is found unless max
      other keys were set since, and what is found is that last Set. */
  lemma GetAnswers(ops: seq<Op>, max: nat, ttl: int, k: Key, now: Time)
    requires max >= 1 && ops != [] && Ordered(ops) && now >= Clock(ops)
    ensures var found := Found(Run(ops, max, ttl), ttl, k, now);
      && (found.None? ==> LastSet(ops, k).None? || now - LastSet(ops, k).value.at > ttl
                          || |SetSince(ops, k)| >= max)
      && (found.Some? ==> LastSet(ops, k).Some? && Faithful(ops, k, found.value)
                          && now - LastSet(ops, k).value.at <= ttl)
  {
    RunKeepsInv(ops, max, ttl);
    var c := Run(ops, max, ttl);
    if k in c.items {
      assert Faithful(ops, k, c.items[k]);
    } else {
      assert Explained(ops, max, ttl, Clock(ops), k);
    }
  }

  // ----- The cache -----

  class SessionCache {
    var items: map<Key, Entry>
    var order: seq<Key>
    const ttl: int
    const max: nat

    function State(): Cache
      reads this
    {
      Cache(items, order)
    }

    ghost predicate Valid()
      reads this
    {
      max >= 1 && Sound(State(), max)
    }

    constructor ()
      ensures Valid() && State() == Run([], max, ttl)
      ensures ttl == 7_200_000_000_000 && max == 10_000
    {
      items, order, ttl, max := map[], [], DEFAULT_TTL, DEFAULT_MAX;
    }

    method RemoveLRU(key: Key)
      modifies this`order
      ensures order == Without(old(order), key)
    {
      for i := 0 to |order|
        invariant order == old(order) && key !in order[..i]
      {
        if order[i] == key {
          WithoutAt(order, key, i);
          order := order[..i] + order[i + 1..];
          return;
        }
        assert order[..i + 1] == order[..i] + [order[i]];
      }
      WithoutAt(order, key, |order|);
    }

    method TouchLRU(key: Key)
      modifies this`order
      ensures order == Without(old(order), key) + [key]
    {
      RemoveLRU(key);
      order := order + [key];
    }

    method Evict()
      modifies this`items, this`order
      ensures State() == EvictOldest(old(State()))
    {
      if |order| == 0 {
        return;
      }
      var oldest := order[0];
      order := order[1..];
      items := items - {oldest};
    }

    /** The eviction loop ends because a cache with no room has a key to evict. */
    method EvictToFit()
      requires Valid()
      modifies this`items, this`order
      ensures Valid() && State() == MakeRoom(old(State()), max)
    {
      RoomIs(State(), max);
      while |items| >= max
        invariant Valid()
        invariant MakeRoom(State(), max) == MakeRoom(old(State()), max)
        decreases |order|
      {
        RoomIs(State(), max);
        Evict();
      }
    }

    method Get(key: Key, now: Time) returns (r: Option<Entry>)
      requires Valid()
      modifies this`items, this`order
      ensures Valid()
      ensures r == Found(old(State()), ttl, key, now)
      ensures State() == AfterGet(old(State()), ttl, key, now)
    {
      GetStaysSound(State(), max, ttl, key, now);
      if key !in items {
        return None;
      }
      var entry := items[key];
      if now - entry.lastUsed > ttl {
        items := items - {key};
        RemoveLRU(key);
        return None;
      }
      r := Some(entry);
    }

    method Set(key: Key, provider: string, model: string, now: Time)
      requires Valid()
      modifies this`items, this`order
      ensures Valid()
      ensures State() == AfterSet(old(State()), max, key, provider, model, now)
    {
      SetStaysSound(State(), max, key, provider, model, now);
      if key in items {
        items := items[key := Entry(provider, model, now, items[key].turns + 1)];
        TouchLRU(key);
        return;
      }
      EvictToFit();
      items := items[key := Entry(provider, model, now, 1)];
      order := order + [key];
    }
  }
}
