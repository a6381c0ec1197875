/** What a lookup in the conversation store answers, after any run. */
module Histories {
  import opened Conversation
  import opened KeyLists
  import opened Options

  /** The turns added to a conversation, in order. */
  function Added(ops: seq<Op>, k: Key): seq<Turn> {
    if ops == [] then []
    else
      var init, op := ops[..|ops| - 1], ops[|ops| - 1];
      Added(init, k) + (if op.Add? && op.key == k then [op.turn] else [])
  }

  /** When the last of them was. */
  function LastAdded(ops: seq<Op>, k: Key): Option<Time> {
    if ops == [] then None
    else
      var init, op := ops[..|ops| - 1], ops[|ops| - 1];
      if op.Add? && op.key == k then Some(op.at) else LastAdded(init, k)
  }

  /** The last model that a turn names. */
  function ModelOf(turns: seq<Turn>): string {
    if turns == [] then ""
    else if turns[|turns| - 1].model != "" then turns[|turns| - 1].model
    else ModelOf(turns[..|turns| - 1])
  }

  /** The history holds the last turns added, all of them since some moment, the model they named last
      and the time of the last one. */
  ghost predicate Tells(ops: seq<Op>, k: Key, h: History) {
    && h.turns != []
    && (exists older :: Added(ops, k) == older + h.turns)
    && h.lastModel == ModelOf(h.turns)
    && LastAdded(ops, k) == Some(h.updatedAt)
  }

  lemma {:induction false} RoomKeepsHistories(s: Store, maxSize: int, more: nat)
    ensures var room := MakeRoom(s, maxSize, more);
      forall k :: k in room.convos ==> k in s.convos && room.convos[k] == s.convos[k]
    decreases |s.order|
  {
    if s.size + more > maxSize && s.order != [] {
      RoomKeepsHistories(EvictOldest(s), maxSize, more);
    }
  }

  /** Adding a turn extends its own history, or begins it, and changes no other one that is kept. */
  lemma AddExtends(s: Store, maxSize: int, k: Key, t: Turn, now: Time)
    ensures var a := AfterAdd(s, maxSize, k, t, now);
      && k in a.convos
      && a.convos[k].turns == (if k in s.convos then s.convos[k].turns else []) + [t]
      && a.convos[k].updatedAt == now
      && a.convos[k].lastModel == (if t.model != "" then t.model else if k in s.convos then s.convos[k].lastModel else "")
      && forall j :: j in a.convos && j != k ==> j in s.convos && a.convos[j] == s.convos[j]
  {
    RoomKeepsHistories(s, maxSize, |t.content|);
  }

  lemma AddTells(ops: seq<Op>, k: Key, before: Option<History>, t: Turn, now: Time, after: History)
    requires before.Some? ==> Tells(ops, k, before.value)
    requires after.turns == (if before.Some? then before.value.turns else []) + [t] && after.updatedAt == now
    requires after.lastModel == if t.model != "" then t.model else if before.Some? then before.value.lastModel else ""
    ensures Tells(ops + [Add(k, t, now)], k, after)
  {
    var all := ops + [Add(k, t, now)];
    assert all[..|all| - 1] == ops;
    var turns := after.turns;
    assert turns[..|turns| - 1] == if before.Some? then before.value.turns else [];
    if before.Some? {
      var older :| Added(ops, k) == older + before.value.turns;
      assert Added(all, k) == older + turns;
    } else {
      assert Added(all, k) == Added(ops, k) + turns;
    }
  }

  lemma OtherTells(ops: seq<Op>, k: Key, h: History, op: Op)
    requires Tells(ops, k, h) && !(op.Add? && op.key == k)
    ensures Tells(ops + [op], k, h)
  {
    var all := ops + [op];
    assert all[..|all| - 1] == ops;
    var older :| Added(ops, k) == older + h.turns;
    assert Added(all, k) == older + h.turns;
  }

  /** In every run each stored history tells what was added. */
  lemma {:induction false} StoredTells(ops: seq<Op>, maxSize: int, ttl: int, k: Key)
    requires k in Run(ops, maxSize, ttl).convos
    ensures Tells(ops, k, Run(ops, maxSize, ttl).convos[k])
  {
    var init, op := ops[..|ops| - 1], ops[|ops| - 1];
    var s := Run(init, maxSize, ttl);
    assert ops == init + [op];
    if k in s.convos {
      StoredTells(init, maxSize, ttl, k);
    }
    if op.Add? {
      AddExtends(s, maxSize, op.key, op.turn, op.at);
      if op.key == k {
        AddTells(init, k, if k in s.convos then Some(s.convos[k]) else None, op.turn, op.at,
                 Run(ops, maxSize, ttl).convos[k]);
      } else {
        OtherTells(init, k, s.convos[k], op);
      }
    } else {
      OtherTells(init, k, s.convos[k], op);
    }
  }

  /** What a lookup finds is what was added, the last turn not longer ago than the TTL; it finds
      nothing exactly when the conversation is not stored or its last turn is older than that. */
  lemma LookupTells(ops: seq<Op>, maxSize: int, ttl: int, k: Key, now: Time)
    ensures var s, found := Run(ops, maxSize, ttl), Found(Run(ops, maxSize, ttl), ttl, k, now);
      && (found.Some? ==> Tells(ops, k, found.value) && now - found.value.updatedAt <= ttl)
      && (found.None? <==> k !in s.convos || LastAdded(ops, k).None? || now - LastAdded(ops, k).value > ttl)
  {
    if k in Run(ops, maxSize, ttl).convos {
      StoredTells(ops, maxSize, ttl, k);
    }
  }

  /** A conversation that stays stored keeps all its turns: none of the run's adds leaves it out, and no
      lookup finds it expired. */
  ghost predicate StaysStored(ops: seq<Op>, maxSize: int, ttl: int, k: Key) {
    ops == []
    || (StaysStored(ops[..|ops| - 1], maxSize, ttl, k)
        && (Added(ops, k) != [] ==> k in Run(ops, maxSize, ttl).convos))
  }

  lemma {:induction false} StoredTellsAll(ops: seq<Op>, maxSize: int, ttl: int, k: Key)
    requires StaysStored(ops, maxSize, ttl, k) && Added(ops, k) != []
    ensures k in Run(ops, maxSize, ttl).convos && Run(ops, maxSize, ttl).convos[k].turns == Added(ops, k)
  {
    var init, op := ops[..|ops| - 1], ops[|ops| - 1];
    var s := Run(init, maxSize, ttl);
    if Added(init, k) != [] {
      StoredTellsAll(init, maxSize, ttl, k);
    } else if k in s.convos {
      StoredTells(init, maxSize, ttl, k);
    }
    if op.Add? {
      AddExtends(s, maxSize, op.key, op.turn, op.at);
    }
  }
}
