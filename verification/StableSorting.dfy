/** A stable sort of positions `0 .. n` under a comparator, as a function and in place. Sorting by a
    weak order arranges the positions: none comes before one that precedes it, and of two that
    the comparator does not tell apart the one given first stays first, which fixes the result.
    The library's own algorithm is not modelled; any stable sort gives this list. */
module StableSorting {

  type Comparator = (nat, nat) -> bool

  predicate Within(s: seq<nat>, n: nat) {
    forall x :: x in s ==> x < n
  }

  /** `lt` is a strict weak order on the positions below `n`. */
  ghost predicate WeakOrder(lt: Comparator, n: nat) {
    && (forall a: nat :: a < n ==> !lt(a, a))
    && (forall a: nat, b: nat, c: nat :: a < n && b < n && c < n && lt(a, b) && lt(b, c) ==> lt(a, c))
    && (forall a: nat, b: nat, c: nat :: a < n && b < n && c < n && !lt(a, b) && !lt(b, c) ==> !lt(a, c))
  }

  /** The comparator with ties broken by position: a strict total order. */
  predicate Precedes(lt: Comparator, p: nat, q: nat) {
    lt(p, q) || (!lt(q, p) && p < q)
  }

  ghost predicate Arranged(lt: Comparator, s: seq<nat>) {
    forall i, j :: 0 <= i < j < |s| ==> Precedes(lt, s[i], s[j])
  }

  ghost predicate Ascending(s: seq<nat>) {
    forall i, j :: 0 <= i < j < |s| ==> s[i] < s[j]
  }

  /** Inserts `p` from the right: it passes exactly the elements it is less than. */
  function InsertLast(lt: Comparator, s: seq<nat>, p: nat): seq<nat> {
    if s == [] || !lt(p, s[|s| - 1]) then s + [p]
    else InsertLast(lt, s[..|s| - 1], p) + [s[|s| - 1]]
  }

  function StableSort(lt: Comparator, s: seq<nat>): seq<nat> {
    if s == [] then [] else InsertLast(lt, StableSort(lt, s[..|s| - 1]), s[|s| - 1])
  }

  lemma {:induction false} InsertLastCounts(lt: Comparator, s: seq<nat>, p: nat)
    ensures multiset(InsertLast(lt, s, p)) == multiset(s) + multiset{p}
  {
    if s != [] && lt(p, s[|s| - 1]) {
      assert s == s[..|s| - 1] + [s[|s| - 1]];
      InsertLastCounts(lt, s[..|s| - 1], p);
    }
  }

  lemma {:induction false} StableSortCounts(lt: Comparator, s: seq<nat>)
    ensures multiset(StableSort(lt, s)) == multiset(s)
  {
    if s != [] {
      assert s == s[..|s| - 1] + [s[|s| - 1]];
      StableSortCounts(lt, s[..|s| - 1]);
      InsertLastCounts(lt, StableSort(lt, s[..|s| - 1]), s[|s| - 1]);
    }
  }

  lemma SameElements(r: seq<nat>, s: seq<nat>)
    requires multiset(r) == multiset(s)
    ensures |r| == |s| && forall x :: x in r <==> x in s
  {
    assert |multiset(r)| == |r| && |multiset(s)| == |s|;
    forall x
      ensures x in r <==> x in s
    {
      assert x in multiset(r) <==> x in multiset(s);
    }
  }

  lemma AppendArranged(lt: Comparator, s: seq<nat>, p: nat)
    requires Arranged(lt, s) && forall x :: x in s ==> Precedes(lt, x, p)
    ensures Arranged(lt, s + [p])
  {
  }

  lemma {:induction false} InsertLastArranged(lt: Comparator, n: nat, s: seq<nat>, p: nat)
    requires WeakOrder(lt, n) && Within(s, n) && p < n
    requires Arranged(lt, s) && forall x :: x in s ==> x < p
    ensures Arranged(lt, InsertLast(lt, s, p))
  {
    if s == [] {
    } else if lt(p, s[|s| - 1]) {
      var front, last := s[..|s| - 1], s[|s| - 1];
      assert forall x :: x in front ==> x in s;
      InsertLastArranged(lt, n, front, p);
      InsertLastCounts(lt, front, p);
      SameElements(InsertLast(lt, front, p), front + [p]);
      forall x | x in front + [p]
        ensures Precedes(lt, x, last)
      {
        if x != p {
          var i :| 0 <= i < |front| && front[i] == x;
          assert Precedes(lt, s[i], last);
        }
        assert last in s;
      }
      AppendArranged(lt, InsertLast(lt, front, p), last);
    } else {
      forall x | x in s
        ensures Precedes(lt, x, p)
      {
        var i :| 0 <= i < |s| && s[i] == x;
        assert i < |s| - 1 ==> Precedes(lt, s[i], s[|s| - 1]);
        assert s[|s| - 1] in s && !lt(p, x);
      }
      AppendArranged(lt, s, p);
    }
  }

  /** Sorting positions taken in ascending order arranges them by the comparator, ties in
      ascending order, and neither loses nor invents one. */
  lemma {:induction false} StableSortArranges(lt: Comparator, n: nat, s: seq<nat>)
    requires WeakOrder(lt, n) && Within(s, n) && Ascending(s)
    ensures Arranged(lt, StableSort(lt, s)) && multiset(StableSort(lt, s)) == multiset(s)
  {
    StableSortCounts(lt, s);
    if s != [] {
      var front, last := s[..|s| - 1], s[|s| - 1];
      FrontBelowLast(s, front, last, n);
      StableSortArranges(lt, n, front);
      SameElements(StableSort(lt, front), front);
      InsertLastArranged(lt, n, StableSort(lt, front), last);
    }
  }

  lemma FrontBelowLast(s: seq<nat>, front: seq<nat>, last: nat, n: nat)
    requires s == front + [last] && Within(s, n) && Ascending(s)
    ensures Within(front, n) && Ascending(front) && last < n
    ensures forall x :: x in front ==> x < last
  {
    assert s[|s| - 1] == last && last in s;
    assert forall i :: 0 <= i < |front| ==> front[i] == s[i];
    forall x | x in front
      ensures x in s && x < last
    {
      var i :| 0 <= i < |front| && front[i] == x;
      assert s[i] == x;
    }
  }

  /** An element greater than `p` ends up behind it. */
  lemma InsertPasses(lt: Comparator, s: seq<nat>, p: nat, k: nat)
    requires 0 < k <= |s| && lt(p, s[k - 1])
    ensures InsertLast(lt, s[..k], p) + s[k..] == InsertLast(lt, s[..k - 1], p) + s[k - 1..]
  {
    assert s[..k][..k - 1] == s[..k - 1] && s[..k][k - 1] == s[k - 1];
    var front := InsertLast(lt, s[..k - 1], p);
    assert InsertLast(lt, s[..k], p) == front + [s[k - 1]];
    assert (front + [s[k - 1]]) + s[k..] == front + ([s[k - 1]] + s[k..]);
    assert [s[k - 1]] + s[k..] == s[k - 1..];
  }

  lemma Spliced(b: seq<nat>, s: seq<nat>, k: nat, p: nat)
    requires |b| == |s| + 1 && k <= |s| && b[k] == p
    requires forall m :: 0 <= m < k ==> b[m] == s[m]
    requires forall m :: k < m < |b| ==> b[m] == s[m - 1]
    ensures b == s[..k] + [p] + s[k..]
  {
  }

  /** Moves a[n] left past every element it is less than. */
  method InsertInPlace(a: array<nat>, n: nat, lt: Comparator)
    requires n < a.Length
    modifies a
    ensures a[..n + 1] == InsertLast(lt, old(a[..n]), old(a[n]))
    ensures a[n + 1..] == old(a[n + 1..])
  {
    ghost var was := a[..n];
    var p := a[n];
    var k := n;
    ghost var sorted := InsertLast(lt, was, p);
    assert sorted == InsertLast(lt, was[..n], p) + was[n..] by {
      assert was[..n] == was && was[n..] == [];
    }
    while k > 0 && lt(p, a[k - 1])
      invariant 0 <= k <= n
      invariant forall m :: 0 <= m < k ==> a[m] == was[m]
      invariant forall m :: k < m <= n ==> a[m] == was[m - 1]
      invariant a[n + 1..] == old(a[n + 1..])
      invariant sorted == InsertLast(lt, was[..k], p) + was[k..]
    {
      InsertPasses(lt, was, p, k);
      a[k] := a[k - 1];
      k := k - 1;
    }
    assert InsertLast(lt, was[..k], p) == was[..k] + [p];
    a[k] := p;
    Spliced(a[..n + 1], was, k, p);
  }

  method SliceStable(a: array<nat>, lt: Comparator)
    modifies a
    ensures a[..] == StableSort(lt, old(a[..]))
  {
    ghost var was := a[..];
    var n := 0;
    while n < a.Length
      invariant 0 <= n <= a.Length == |was|
      invariant a[..n] == StableSort(lt, was[..n])
      invariant a[n..] == was[n..]
    {
      assert a[n] == a[n..][0] && was[..n + 1][..n] == was[..n];
      InsertInPlace(a, n, lt);
      assert a[n + 1..] == was[n..][1..] == was[n + 1..];
      n := n + 1;
    }
    assert was[..n] == was && a[..n] == a[..];
  }
}
