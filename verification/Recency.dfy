/** When the conversation store evicts what was used longest ago. */
module Recency {
  import opened Conversation
  import opened KeyLists

  // It does while every key is listed once, which the continuation of an expired conversation ends.

  // ----- The list and the map -----

  /** The list holds each stored key once and nothing else. */
  ghost predicate Tidy(s: Store) {
    Distinct(s.order) && forall k :: k in s.order <==> k in s.convos
  }

  lemma EvictKeepsTidy(s: Store)
    requires Tidy(s)
    ensures Tidy(EvictOldest(s))
  {
    if s.order != [] {
      var oldest, rest := s.order[0], s.order[1..];
      assert s.order == [oldest] + rest;
      assert oldest in s.order && oldest !in rest;
    }
  }

  lemma {:induction false} RoomKeepsTidy(s: Store, maxSize: int, more: nat)
    requires Tidy(s)
    ensures Tidy(MakeRoom(s, maxSize, more))
    decreases |s.order|
  {
    if s.size + more > maxSize && s.order != [] {
      EvictKeepsTidy(s);
      RoomKeepsTidy(EvictOldest(s), maxSize, more);
    }
  }

  lemma {:induction false} RoomKeepsOut(s: Store, maxSize: int, more: nat, k: Key)
    requires k !in s.convos
    ensures k !in MakeRoom(s, maxSize, more).convos
    decreases |s.order|
  {
    if s.size + more > maxSize && s.order != [] {
      RoomKeepsOut(EvictOldest(s), maxSize, more, k);
    }
  }

  /** Adding turns keeps the list tidy. */
  lemma AddKeepsTidy(s: Store, maxSize: int, k: Key, t: Turn, now: Time)
    requires Tidy(s)
    ensures Tidy(AfterAdd(s, maxSize, k, t, now))
  {
    var o := Opened(s, maxSize, k, |t.content|);
    if k !in s.convos {
      RoomKeepsTidy(s, maxSize, |t.content|);
      RoomKeepsOut(s, maxSize, |t.content|, k);
    }
    WithoutIs(o.order, k);
  }

  /** Looking a conversation up keeps the list tidy exactly when it is not found expired. */
  lemma GetKeepsTidyExactlyWhen(s: Store, ttl: int, k: Key, now: Time)
    requires Tidy(s)
    ensures Tidy(AfterGet(s, ttl, k, now)) <==> k !in s.convos || !Expired(s.convos[k], ttl, now)
  {
    if k in s.convos && Expired(s.convos[k], ttl, now) {
      assert k in s.order;
    }
  }

  // ----- The order of the list -----

  /** The last listing of b comes after every listing of a. */
  predicate UsedBefore(order: seq<Key>, a: Key, b: Key) {
    order != [] && (UsedBefore(order[1..], a, b) || (order[0] == b && a !in order))
  }

  lemma {:induction false} UnlistedIsFirst(order: seq<Key>, a: Key, b: Key)
    requires b in order && a !in order
    ensures UsedBefore(order, a, b)
  {
    if order[0] != b {
      assert order == [order[0]] + order[1..];
      UnlistedIsFirst(order[1..], a, b);
    }
  }

  lemma {:induction false} OneIsUsedBefore(order: seq<Key>, a: Key, b: Key)
    requires a != b && a in order && b in order
    ensures UsedBefore(order, a, b) || UsedBefore(order, b, a)
  {
    var rest := order[1..];
    assert order == [order[0]] + rest;
    if a !in rest {
      UnlistedIsFirst(rest, a, b);
    } else if b !in rest {
      UnlistedIsFirst(rest, b, a);
    } else {
      OneIsUsedBefore(rest, a, b);
    }
  }

  lemma {:induction false} LastListed(order: seq<Key>, k: Key, b: Key)
    ensures !UsedBefore(order + [k], k, b)
  {
    if order == [] {
      assert [k][1..] == [];
    } else {
      assert (order + [k])[1..] == order[1..] + [k];
      LastListed(order[1..], k, b);
      assert (order + [k])[|order|] == k;
    }
  }

  lemma {:induction false} AppendKeepsUse(order: seq<Key>, k: Key, a: Key, b: Key)
    requires a != k && b != k
    ensures UsedBefore(order + [k], a, b) <==> UsedBefore(order, a, b)
  {
    if order == [] {
      assert [k][1..] == [];
    } else {
      assert (order + [k])[1..] == order[1..] + [k];
      AppendKeepsUse(order[1..], k, a, b);
    }
  }

  lemma {:induction false} WithoutKeepsUse(order: seq<Key>, k: Key, a: Key, b: Key)
    requires a != k && b != k
    ensures UsedBefore(Without(order, k), a, b) <==> UsedBefore(order, a, b)
  {
    if order != [] && order[0] != k {
      assert Without(order, k)[1..] == Without(order[1..], k);
      WithoutKeepsUse(order[1..], k, a, b);
      TouchKeepsKeys(order, k);
      assert a in Without(order, k) + [k] <==> a in order;
    }
  }

  /** Of two stored conversations the one listed last later was updated later, by `gap`. */
  ghost predicate UsesInOrder(s: Store, gap: nat) {
    forall a, b :: a in s.convos && b in s.convos && UsedBefore(s.order, a, b) ==>
                s.convos[a].updatedAt + gap <= s.convos[b].updatedAt
  }

  ghost predicate UpdatedBy(s: Store, now: Time) {
    forall k :: k in s.convos ==> s.convos[k].updatedAt <= now
  }

  lemma {:induction false} RoomKeepsUse(s: Store, maxSize: int, more: nat, gap: nat)
    requires UsesInOrder(s, gap)
    ensures var room := MakeRoom(s, maxSize, more);
      UsesInOrder(room, gap) && forall k :: k in room.convos ==> k in s.convos && room.convos[k] == s.convos[k]
    decreases |s.order|
  {
    if s.size + more > maxSize && s.order != [] {
      RoomKeepsUse(EvictOldest(s), maxSize, more, gap);
    }
  }

  lemma TouchUsesLast(order: seq<Key>, k: Key, a: Key, b: Key)
    requires UsedBefore(Without(order, k) + [k], a, b)
    ensures a != k && (b != k ==> UsedBefore(order, a, b))
  {
    LastListed(Without(order, k), k, b);
    if b != k {
      AppendKeepsUse(Without(order, k), k, a, b);
      WithoutKeepsUse(order, k, a, b);
    }
  }

  lemma OpenedKeepsUse(s: Store, maxSize: int, k: Key, more: nat, gap: nat, a: Key, b: Key)
    requires UsesInOrder(s, gap) && a != k && b != k
    ensures var o := Opened(s, maxSize, k, more);
      && (a in o.convos ==> a in s.convos && o.convos[a] == s.convos[a])
      && (a in o.convos && b in o.convos && UsedBefore(o.order, a, b) ==>
            o.convos[a].updatedAt + gap <= o.convos[b].updatedAt)
  {
    if k !in s.convos {
      RoomKeepsUse(s, maxSize, more, gap);
      AppendKeepsUse(MakeRoom(s, maxSize, more).order, k, a, b);
    }
  }

  lemma AddKeepsUse(s: Store, maxSize: int, k: Key, t: Turn, now: Time, gap: nat)
    requires UsesInOrder(s, gap) && UpdatedBy(s, now - gap)
    ensures UsesInOrder(AfterAdd(s, maxSize, k, t, now), gap) && UpdatedBy(AfterAdd(s, maxSize, k, t, now), now)
  {
    var more := |t.content|;
    var o, n := Opened(s, maxSize, k, more), AfterAdd(s, maxSize, k, t, now);
    forall a | a in n.convos
      ensures n.convos[a].updatedAt <= now && (a != k ==> n.convos[a].updatedAt <= now - gap)
    {
      if a != k {
        OpenedKeepsUse(s, maxSize, k, more, gap, a, a);
      }
    }
    forall a, b | a in n.convos && b in n.convos && UsedBefore(n.order, a, b)
      ensures n.convos[a].updatedAt + gap <= n.convos[b].updatedAt
    {
      TouchUsesLast(o.order, k, a, b);
      if b != k {
        OpenedKeepsUse(s, maxSize, k, more, gap, a, b);
      }
    }
  }

  /** Clock readings do not go back, and are `gap` apart. */
  ghost predicate Clocked(ops: seq<Op>, gap: nat) {
    forall i, j :: 0 <= i < j < |ops| ==> ops[i].at + gap <= ops[j].at
  }

  /** In every run, expiries or not, the last listings are in the order of the last updates. */
  lemma {:induction false} RunUsesInOrder(ops: seq<Op>, maxSize: int, ttl: int, gap: nat)
    requires Clocked(ops, gap)
    ensures UsesInOrder(Run(ops, maxSize, ttl), gap)
    ensures ops != [] ==> UpdatedBy(Run(ops, maxSize, ttl), ops[|ops| - 1].at)
  {
    if ops != [] {
      var n := |ops| - 1;
      var init, op := ops[..n], ops[n];
      RunUsesInOrder(init, maxSize, ttl, gap);
      var s := Run(init, maxSize, ttl);
      assert UpdatedBy(s, op.at - gap) by {
        assert init != [] ==> init[n - 1] == ops[n - 1];
      }
      if op.Add? {
        AddKeepsUse(s, maxSize, op.key, op.turn, op.at, gap);
      }
    }
  }

  /** No stored conversation was updated before that of k. */
  ghost predicate IsLeastRecent(s: Store, k: Key) {
    k in s.convos && forall j :: j in s.convos ==> s.convos[k].updatedAt <= s.convos[j].updatedAt
  }

  /** What eviction takes is what was used longest ago exactly when no stored conversation has its
      last listing before the last listing of the first key. */
  lemma EvictsLeastRecentExactlyWhen(ops: seq<Op>, maxSize: int, ttl: int)
    requires Clocked(ops, 1)
    requires Run(ops, maxSize, ttl).order != []
    requires Run(ops, maxSize, ttl).order[0] in Run(ops, maxSize, ttl).convos
    ensures var s := Run(ops, maxSize, ttl);
      IsLeastRecent(s, s.order[0]) <==> forall k :: k in s.convos ==> !UsedBefore(s.order, k, s.order[0])
  {
    var s := Run(ops, maxSize, ttl);
    RunUsesInOrder(ops, maxSize, ttl, 1);
    RunAccounts(ops, maxSize, ttl);
    forall k | k in s.convos && k != s.order[0]
      ensures UsedBefore(s.order, k, s.order[0]) || UsedBefore(s.order, s.order[0], k)
    {
      OneIsUsedBefore(s.order, k, s.order[0]);
    }
  }

  lemma {:induction false} ListedOnceInOrder(order: seq<Key>, i: nat, j: nat)
    requires Distinct(order) && i < j < |order|
    ensures UsedBefore(order, order[i], order[j])
  {
    var rest := order[1..];
    if i > 0 {
      ListedOnceInOrder(rest, i - 1, j - 1);
    } else {
      assert rest[j - 1] == order[j];
      UnlistedIsFirst(rest, order[0], order[j]);
    }
  }

  /** Conversations listed once are listed in the order of their updates. */
  lemma ListedOnceIsSorted(s: Store, i: nat, j: nat)
    requires UsesInOrder(s, 0) && Distinct(s.order)
    requires i <= j < |s.order| && s.order[i] in s.convos && s.order[j] in s.convos
    ensures s.convos[s.order[i]].updatedAt <= s.convos[s.order[j]].updatedAt
  {
    if i < j {
      ListedOnceInOrder(s.order, i, j);
    }
  }

  lemma FirstIsLeastRecent(s: Store)
    requires UsesInOrder(s, 0) && Distinct(s.order) && forall k :: k in s.convos ==> k in s.order
    requires s.order != [] && s.order[0] in s.convos
    ensures IsLeastRecent(s, s.order[0])
  {
    forall k | k in s.convos
      ensures s.convos[s.order[0]].updatedAt <= s.convos[k].updatedAt
    {
      var j :| 0 <= j < |s.order| && s.order[j] == k;
      ListedOnceIsSorted(s, 0, j);
    }
  }

  lemma EvictKeepsUse(s: Store)
    requires UsesInOrder(s, 0) && Distinct(s.order)
    ensures UsesInOrder(EvictOldest(s), 0) && Distinct(EvictOldest(s).order)
    ensures forall k :: k in EvictOldest(s).convos ==> k in s.convos && EvictOldest(s).convos[k] == s.convos[k]
    ensures forall k :: k in s.convos && k !in EvictOldest(s).convos ==> s.order != [] && k == s.order[0]
  {
  }

  /** While no key is listed twice, making room takes the conversations used longest ago: none
      that is kept was updated before one that goes. */
  lemma {:induction false} RoomEvictsLeastRecent(s: Store, maxSize: int, more: nat, gone: Key, kept: Key)
    requires UsesInOrder(s, 0) && Accounted(s) && Distinct(s.order)
    requires gone in s.convos && gone !in MakeRoom(s, maxSize, more).convos
    requires kept in MakeRoom(s, maxSize, more).convos
    ensures kept in s.convos && s.convos[gone].updatedAt <= s.convos[kept].updatedAt
    decreases |s.order|
  {
    assert !(s.size + more <= maxSize || s.order == []);
    EvictKeepsUse(s);
    EvictAccounts(s);
    if gone !in EvictOldest(s).convos {
      RoomAccounts(EvictOldest(s), maxSize, more);
      FirstIsLeastRecent(s);
    } else {
      RoomEvictsLeastRecent(EvictOldest(s), maxSize, more, gone, kept);
    }
  }

  /** A turn of a conversation that is not stored any more, but still listed once there is room. */
  predicate Reopens(s: Store, maxSize: int, op: Op) {
    op.Add? && op.key !in s.convos && op.key in MakeRoom(s, maxSize, |op.turn.content|).order
  }

  lemma {:induction false} RoomKeepsDistinct(s: Store, maxSize: int, more: nat)
    requires Distinct(s.order)
    ensures Distinct(MakeRoom(s, maxSize, more).order)
    decreases |s.order|
  {
    if s.size + more > maxSize && s.order != [] {
      RoomKeepsDistinct(EvictOldest(s), maxSize, more);
    }
  }

  lemma {:induction false} WithoutAppended(order: seq<Key>, k: Key)
    requires k in order
    ensures Without(order + [k], k) == Without(order, k) + [k]
  {
    if order[0] == k {
      assert (order + [k])[1..] == order[1..] + [k];
    } else {
      assert order == [order[0]] + order[1..];
      assert (order + [k])[1..] == order[1..] + [k];
      WithoutAppended(order[1..], k);
    }
  }

  /** A call leaves every key listed once exactly when it does not reopen a conversation. */
  lemma StepKeepsDistinctExactlyWhen(s: Store, maxSize: int, ttl: int, op: Op)
    requires Distinct(s.order)
    ensures Distinct(After(s, maxSize, ttl, op).order) <==> !Reopens(s, maxSize, op)
  {
    if op.Add? {
      var k, more := op.key, |op.turn.content|;
      var room := MakeRoom(s, maxSize, more);
      RoomKeepsDistinct(s, maxSize, more);
      var n := After(s, maxSize, ttl, op);
      if k in s.convos {
        WithoutIs(s.order, k);
      } else if k in room.order {
        WithoutAppended(room.order, k);
        var m := |Without(room.order, k)|;
        assert n.order[m] == k && n.order[m + 1] == k;
      } else {
        WithoutIs(room.order + [k], k);
      }
    }
  }

  /** Throughout a run, no conversation is ever reopened. */
  predicate NeverReopens(ops: seq<Op>, maxSize: int, ttl: int) {
    ops == []
    || (var n := |ops| - 1;
        NeverReopens(ops[..n], maxSize, ttl) && !Reopens(Run(ops[..n], maxSize, ttl), maxSize, ops[n]))
  }

  ghost predicate AlwaysListedOnce(ops: seq<Op>, maxSize: int, ttl: int) {
    Distinct(Run(ops, maxSize, ttl).order) && (ops == [] || AlwaysListedOnce(ops[..|ops| - 1], maxSize, ttl))
  }

  /** Throughout a run every key is listed once exactly when no conversation is ever reopened. */
  lemma {:induction false} ListedOnceExactlyWhen(ops: seq<Op>, maxSize: int, ttl: int)
    ensures AlwaysListedOnce(ops, maxSize, ttl) <==> NeverReopens(ops, maxSize, ttl)
  {
    if ops != [] {
      var n := |ops| - 1;
      ListedOnceExactlyWhen(ops[..n], maxSize, ttl);
      var s := Run(ops[..n], maxSize, ttl);
      if Distinct(s.order) {
        StepKeepsDistinctExactlyWhen(s, maxSize, ttl, ops[n]);
      }
    }
  }

  /** In a run that reopens no conversation, expiries or not, no conversation kept was updated before
      one that goes to make room. */
  lemma RunEvictsLeastRecent(ops: seq<Op>, maxSize: int, ttl: int, more: nat, gone: Key, kept: Key)
    requires Clocked(ops, 0) && NeverReopens(ops, maxSize, ttl)
    requires gone in Run(ops, maxSize, ttl).convos
    requires gone !in MakeRoom(Run(ops, maxSize, ttl), maxSize, more).convos
    requires kept in MakeRoom(Run(ops, maxSize, ttl), maxSize, more).convos
    ensures var s := Run(ops, maxSize, ttl);
      kept in s.convos && s.convos[gone].updatedAt <= s.convos[kept].updatedAt
  {
    RunUsesInOrder(ops, maxSize, ttl, 0);
    RunAccounts(ops, maxSize, ttl);
    ListedOnceExactlyWhen(ops, maxSize, ttl);
    RoomEvictsLeastRecent(Run(ops, maxSize, ttl), maxSize, more, gone, kept);
  }

  /** The lookup finds its conversation expired. */
  predicate FindsExpired(s: Store, ttl: int, op: Op) {
    op.Get? && op.key in s.convos && Expired(s.convos[op.key], ttl, op.at)
  }

  predicate NeverFindsExpired(ops: seq<Op>, maxSize: int, ttl: int) {
    ops == []
    || (var n := |ops| - 1;
        NeverFindsExpired(ops[..n], maxSize, ttl) && !FindsExpired(Run(ops[..n], maxSize, ttl), ttl, ops[n]))
  }

  /** The list is that of the stored conversations in the order of their updates. */
  ghost predicate IsByRecency(s: Store) {
    && Tidy(s)
    && forall i, j :: 0 <= i <= j < |s.order| ==>
         && s.order[i] in s.convos && s.order[j] in s.convos
         && s.convos[s.order[i]].updatedAt <= s.convos[s.order[j]].updatedAt
  }

  /** Where no lookup finds an expired conversation, the list is in the order of the updates, and
      eviction takes the least recently updated conversation. */
  lemma {:induction false} WithoutExpiryIsLeastRecentlyUsed(ops: seq<Op>, maxSize: int, ttl: int)
    requires Clocked(ops, 0) && NeverFindsExpired(ops, maxSize, ttl)
    ensures var s := Run(ops, maxSize, ttl);
      && IsByRecency(s)
      && (s.convos != map[] ==>
            s.order != [] && IsLeastRecent(s, s.order[0]) && EvictOldest(s).convos == s.convos - {s.order[0]})
  {
    var s := Run(ops, maxSize, ttl);
    WithoutExpiryIsTidy(ops, maxSize, ttl);
    RunUsesInOrder(ops, maxSize, ttl, 0);
    forall i, j | 0 <= i <= j < |s.order|
      ensures s.order[i] in s.convos && s.order[j] in s.convos
      ensures s.convos[s.order[i]].updatedAt <= s.convos[s.order[j]].updatedAt
    {
      assert s.order[i] in s.order && s.order[j] in s.order;
      ListedOnceIsSorted(s, i, j);
    }
    if s.order != [] {
      FirstIsLeastRecent(s);
    } else {
      assert forall k: Key :: k !in s.convos;
    }
  }

  lemma {:induction false} WithoutExpiryIsTidy(ops: seq<Op>, maxSize: int, ttl: int)
    requires NeverFindsExpired(ops, maxSize, ttl)
    ensures Tidy(Run(ops, maxSize, ttl))
  {
    if ops != [] {
      var n := |ops| - 1;
      WithoutExpiryIsTidy(ops[..n], maxSize, ttl);
      var s := Run(ops[..n], maxSize, ttl);
      match ops[n]
      case Add(k, t, at) => AddKeepsTidy(s, maxSize, k, t, at);
      case Get(k, at) => GetKeepsTidyExactlyWhen(s, ttl, k, at);
    }
  }

  // ----- A conversation used last that goes first -----

  /** A turn of which three fit the budget, and four do not. */
  function Bulky(): (t: Turn)
    ensures |t.content| == 17_000_000
  {
    Turn("user", seq(17_000_000, _ => 'x'), 1, "")
  }

  /** Two conversations, the first of which expires, is looked up, and is continued twice; then a
      third one. */
  function ContinuedAfterExpiry(): seq<Op> {
    var late := DEFAULT_TTL + 1;
    [Add(1, Bulky(), 0), Get(1, late), Add(1, Bulky(), late), Add(2, Bulky(), late + 1), Add(1, Bulky(), late + 2),
     Add(3, Bulky(), late + 3)]
  }

  function Stored(i: nat): Store
    requires i <= 6
  {
    Run(ContinuedAfterExpiry()[..i], DEFAULT_MAX_SIZE, DEFAULT_TTL)
  }

  lemma StoredNext(i: nat)
    requires i < 6
    ensures Stored(i + 1) == After(Stored(i), DEFAULT_MAX_SIZE, DEFAULT_TTL, ContinuedAfterExpiry()[i])
  {
    var ops := ContinuedAfterExpiry();
    assert ops[..i + 1][..i] == ops[..i];
  }

  lemma AddsThatFits(i: nat, k: Key, now: Time)
    requires i < 6 && ContinuedAfterExpiry()[i] == Add(k, Bulky(), now)
    requires Stored(i).size + |Bulky().content| <= DEFAULT_MAX_SIZE
    ensures var s, a := Stored(i), Stored(i + 1);
      && a.size == s.size + |Bulky().content|
      && k in a.convos && a.convos == s.convos[k := a.convos[k]] && a.convos[k].updatedAt == now
      && a.convos[k].turns == (if k in s.convos then s.convos[k].turns else []) + [Bulky()]
      && a.order == Without(if k in s.convos then s.order else s.order + [k], k) + [k]
  {
    StoredNext(i);
  }

  lemma SizeOfBulky(turns: seq<Turn>)
    requires turns == [Bulky()] || turns == [Bulky(), Bulky()]
    ensures SizeOf(turns) == |turns| * |Bulky().content|
  {
    assert [Bulky()][..0] == [] && [Bulky(), Bulky()][..1] == [Bulky()];
  }

  lemma ExpiredIsListed()
    ensures Stored(2) == Store(map[], [1], 0)
  {
    AddsThatFits(0, 1, 0);
    SizeOfBulky(Stored(1).convos[1].turns);
    StoredNext(1);
    assert Stored(1).order == [1];
  }

  lemma ReopenedIsListedTwice()
    ensures var s := Stored(3);
      && s.convos.Keys == {1} && s.order == [1, 1] && s.size == |Bulky().content| && s.convos[1].turns == [Bulky()]
  {
    ExpiredIsListed();
    AddsThatFits(2, 1, DEFAULT_TTL + 1);
  }

  lemma SecondIsStored()
    ensures var s := Stored(4);
      && s.convos.Keys == {1, 2} && s.order == [1, 1, 2] && s.size == 2 * |Bulky().content|
      && s.convos[1].turns == [Bulky()] && s.convos[2].turns == [Bulky()] && s.convos[2].updatedAt == DEFAULT_TTL + 2
  {
    ReopenedIsListedTwice();
    AddsThatFits(3, 2, DEFAULT_TTL + 2);
    assert Without([1, 1, 2], 2) == [1, 1] by {
      assert [1, 1, 2][1..] == [1, 2] && [1, 2][1..] == [2] && [2][1..] == [];
    }
  }

  /** What is stored before the third conversation comes. */
  lemma TwoStored()
    ensures var s := Stored(5);
      && s.convos.Keys == {1, 2} && s.order == [1, 2, 1] && s.size == 3 * |Bulky().content|
      && s.convos[1].turns == [Bulky(), Bulky()] && s.convos[1].updatedAt == DEFAULT_TTL + 3
      && s.convos[2].turns == [Bulky()] && s.convos[2].updatedAt == DEFAULT_TTL + 2
  {
    SecondIsStored();
    AddsThatFits(4, 1, DEFAULT_TTL + 3);
  }

  /** Eviction takes the conversation updated last and keeps one not updated since before. */
  lemma EvictionIsNotLeastRecentlyUsed()
    ensures var before, after := Stored(5), Stored(6);
      && before.convos.Keys == {1, 2} && before.convos[2].updatedAt < before.convos[1].updatedAt
      && after.convos.Keys == {2, 3}
  {
    TwoStored();
    StoredNext(5);
    var before := Stored(5);
    SizeOfBulky(before.convos[1].turns);
    var room := EvictOldest(before);
    assert room.convos.Keys == {2} && room.size == |Bulky().content|;
    assert MakeRoom(before, DEFAULT_MAX_SIZE, |Bulky().content|) == room;
  }
}
