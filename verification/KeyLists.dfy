/** Lists of keys in order of use, as the session cache and the conversation store keep beside their
    maps. Touching a key takes its first occurrence out and appends it, so a list that holds a key
    twice keeps one of the two where it was; the lemmas say what taking a key out leaves, for any
    list and for one in which every key occurs once. */
module KeyLists {
  /** A hash of the first user message. */
  type Key = int

  /** The list without the first occurrence of k. */
  function Without(order: seq<Key>, k: Key): seq<Key> {
    if order == [] then []
    else if order[0] == k then order[1..]
    else [order[0]] + Without(order[1..], k)
  }

  /** Removing the first occurrence is cutting the list there. */
  lemma {:induction false} WithoutAt(order: seq<Key>, k: Key, i: nat)
    requires i <= |order| && k !in order[..i] && (i < |order| ==> order[i] == k)
    ensures Without(order, k) == if i < |order| then order[..i] + order[i + 1..] else order
  {
    if i == 0 {
      if order != [] {
        assert order[..0] + order[1..] == order[1..];
      }
    } else {
      var rest := order[1..];
      assert order[0] == order[..i][0];
      assert order[..i][1..] == rest[..i - 1];
      assert k !in rest[..i - 1] by {
        assert forall x :: x in order[..i][1..] ==> x in order[..i];
      }
      WithoutAt(rest, k, i - 1);
      if i < |order| {
        assert order[..i] + order[i + 1..] == [order[0]] + (rest[..i - 1] + rest[i..]);
      } else {
        assert order == [order[0]] + rest;
      }
    }
  }

  ghost predicate Distinct(order: seq<Key>) {
    forall i, j :: 0 <= i < j < |order| ==> order[i] != order[j]
  }

  function KeySet(order: seq<Key>): (r: set<Key>) {
    set i | 0 <= i < |order| :: order[i]
  }

  lemma {:induction false} DistinctCount(order: seq<Key>, s: set<Key>)
    requires Distinct(order) && forall k :: k in order <==> k in s
    ensures |order| == |s|
  {
    if order == [] {
      assert forall k: Key :: k !in s;
    } else {
      var rest := order[1..];
      assert forall k :: k in rest ==> k in order && k != order[0];
      assert forall k :: k in s - {order[0]} ==> k in rest;
      DistinctCount(rest, s - {order[0]});
    }
  }

  lemma {:induction false} WithoutIs(order: seq<Key>, k: Key)
    requires Distinct(order)
    ensures Distinct(Without(order, k)) && k !in Without(order, k)
    ensures forall x :: x in Without(order, k) <==> x in order && x != k
  {
    if order != [] {
      var rest := order[1..];
      assert order == [order[0]] + rest;
      if order[0] != k {
        WithoutIs(rest, k);
        assert order[0] !in rest;
      }
    }
  }

  lemma {:induction false} WithoutShrinks(order: seq<Key>, k: Key, x: Key)
    requires x in Without(order, k)
    ensures x in order
  {
    if order[0] != k && x != order[0] {
      assert Without(order, k)[1..] == Without(order[1..], k);
      WithoutShrinks(order[1..], k, x);
    }
  }

  lemma SubsetCount<T>(a: set<T>, b: set<T>)
    requires a <= b
    ensures |a| <= |b|
  {
    assert b == a + (b - a);
  }
}
