/** How many turns a session counts. */
module SessionTurns {
  import opened KeyLists
  import opened Options
  import opened Session

  /** How often a key was set. */
  function Sets(ops: seq<Op>, k: Key): nat {
    if ops == [] then 0
    else Sets(ops[..|ops| - 1], k) + if ops[|ops| - 1].Set? && ops[|ops| - 1].key == k then 1 else 0
  }

  lemma {:induction false} RoomKeepsItems(c: Cache, max: nat)
    ensures forall k :: k in MakeRoom(c, max).items ==> k in c.items && MakeRoom(c, max).items[k] == c.items[k]
    decreases |c.order|
  {
    if |c.items| >= max && c.order != [] {
      RoomKeepsItems(EvictOldest(c), max);
    }
  }

  /** A Set counts one more turn of its own session, or the first, and none of any other. */
  lemma SetCounts(c: Cache, max: nat, k: Key, provider: string, model: string, now: Time)
    ensures var a := AfterSet(c, max, k, provider, model, now);
      && k in a.items && a.items[k].turns == (if k in c.items then c.items[k].turns else 0) + 1
      && a.items[k].provider == provider && a.items[k].model == model && a.items[k].lastUsed == now
      && forall j :: j in a.items && j != k ==> j in c.items && a.items[j] == c.items[j]
  {
    RoomKeepsItems(c, max);
  }

  /** In every run a session counts at most the Sets of its key, and at least one. */
  lemma {:induction false} TurnsAreSets(ops: seq<Op>, max: nat, ttl: int, k: Key)
    requires k in Run(ops, max, ttl).items
    ensures 1 <= Run(ops, max, ttl).items[k].turns <= Sets(ops, k)
  {
    var init, op := ops[..|ops| - 1], ops[|ops| - 1];
    var c := Run(init, max, ttl);
    if k in c.items {
      TurnsAreSets(init, max, ttl, k);
    }
    if op.Set? {
      SetCounts(c, max, op.key, op.provider, op.model, op.at);
    }
  }

  /** The session is there from its first Set on. */
  ghost predicate StaysCached(ops: seq<Op>, max: nat, ttl: int, k: Key) {
    ops == []
    || (StaysCached(ops[..|ops| - 1], max, ttl, k) && (Sets(ops, k) > 0 ==> k in Run(ops, max, ttl).items))
  }

  /** A session that is never evicted and never found expired counts every Set. */
  lemma {:induction false} StayingCountsAll(ops: seq<Op>, max: nat, ttl: int, k: Key)
    requires StaysCached(ops, max, ttl, k) && Sets(ops, k) > 0
    ensures k in Run(ops, max, ttl).items && Run(ops, max, ttl).items[k].turns == Sets(ops, k)
  {
    var init, op := ops[..|ops| - 1], ops[|ops| - 1];
    var c := Run(init, max, ttl);
    if Sets(init, k) > 0 {
      StayingCountsAll(init, max, ttl, k);
    } else if k in c.items {
      TurnsAreSets(init, max, ttl, k);
    }
    if op.Set? {
      SetCounts(c, max, op.key, op.provider, op.model, op.at);
    }
  }
}
