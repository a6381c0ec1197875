/** The three orderings of the selector's candidates. */
module Ordering {
  import opened Facets
  import opened Connections
  import opened Options
  import opened StableSorting

  // A candidate is its position in the provider's registration order.

  datatype Strategy = SelectDefault | SelectP2C | SelectResetAware

  /** What the selector can see of one connection, `permitted` for the model asked for. */
  datatype View = View(id: string, priority: int, permitted: bool, health: Health)

  function SelectionRank(v: View): int {
    if v.health.breaker.BreakerClosed? then 0 else 1
  }

  predicate DefaultLess(a: View, b: View) {
    if SelectionRank(a) != SelectionRank(b) then SelectionRank(a) < SelectionRank(b)
    else if a.priority != b.priority then a.priority < b.priority
    else a.health.uses < b.health.uses
  }

  predicate ResetAwareLess(a: View, b: View) {
    var za, zb := a.health.quota.resetAt == ZERO_TIME, b.health.quota.resetAt == ZERO_TIME;
    if za != zb then zb
    else if !za && a.health.quota.resetAt != b.health.quota.resetAt then a.health.quota.resetAt < b.health.quota.resetAt
    else DefaultLess(a, b)
  }

  /** Power-of-two-choices sorts by the default comparator before it samples. */
  predicate Less(strategy: Strategy, a: View, b: View) {
    if strategy.SelectResetAware? then ResetAwareLess(a, b) else DefaultLess(a, b)
  }

  lemma LessIsStrictWeakOrder(strategy: Strategy, a: View, b: View, c: View)
    ensures !Less(strategy, a, a)
    ensures Less(strategy, a, b) && Less(strategy, b, c) ==> Less(strategy, a, c)
    ensures !Less(strategy, a, b) && !Less(strategy, b, c) ==> !Less(strategy, a, c)
  {
  }

  /** The strategy as a comparator of positions in `views`. */
  function Comparing(views: seq<View>, strategy: Strategy): Comparator {
    (p: nat, q: nat) => p < |views| && q < |views| && Less(strategy, views[p], views[q])
  }

  lemma ComparingIsWeakOrder(views: seq<View>, strategy: Strategy)
    ensures WeakOrder(Comparing(views, strategy), |views|)
  {
    var lt := Comparing(views, strategy);
    forall a: nat, b: nat, c: nat | a < |views| && b < |views| && c < |views|
      ensures !lt(a, a)
      ensures lt(a, b) && lt(b, c) ==> lt(a, c)
      ensures !lt(a, b) && !lt(b, c) ==> !lt(a, c)
    {
      LessIsStrictWeakOrder(strategy, views[a], views[b], views[c]);
    }
  }

  // ----- Power of two choices -----

  /** `s` without positions `i` and `j`, order kept. */
  function Without(s: seq<nat>, i: nat, j: nat): seq<nat> {
    if s == [] then []
    else
      var front := Without(s[..|s| - 1], i, j);
      if |s| - 1 == i || |s| - 1 == j then front else front + [s[|s| - 1]]
  }

  /** The two sampled candidates lead, the less recently used one first. */
  function P2cArranged(lastUsed: seq<Time>, s: seq<nat>, i: nat, j: nat): seq<nat>
    requires Within(s, |lastUsed|) && i < |s| && j < |s|
  {
    assert s[i] in s && s[j] in s;
    var colder := lastUsed[s[j]] < lastUsed[s[i]];
    (if colder then [s[j], s[i]] else [s[i], s[j]]) + Without(s, i, j)
  }

  lemma {:induction false} WithoutCounts(s: seq<nat>, i: nat, j: nat)
    requires i != j
    ensures multiset(s) == multiset(Without(s, i, j)) + (if i < |s| then multiset{s[i]} else multiset{})
                           + (if j < |s| then multiset{s[j]} else multiset{})
  {
    if s != [] {
      assert s == s[..|s| - 1] + [s[|s| - 1]];
      WithoutCounts(s[..|s| - 1], i, j);
    }
  }

  /** Sampling only reorders the candidates. */
  lemma P2cPermutes(lastUsed: seq<Time>, s: seq<nat>, i: nat, j: nat)
    requires Within(s, |lastUsed|) && i < |s| && j < |s| && i != j
    ensures multiset(P2cArranged(lastUsed, s, i, j)) == multiset(s)
    ensures |Without(s, i, j)| == |s| - 2
  {
    WithoutCounts(s, i, j);
    assert |multiset(s)| == |s| && |multiset(Without(s, i, j))| == |Without(s, i, j)|;
  }

  /** Samples two distinct positions from the draws `x < n` and `y < n - 1` and rebuilds
      the array in place; `candidates` is already in default order. */
  method P2cOrder(candidates: array<nat>, lastUsed: seq<Time>, x: nat, y: nat)
    requires Within(candidates[..], |lastUsed|)
    requires candidates.Length > 1 ==> x < candidates.Length && y < candidates.Length - 1
    modifies candidates
    ensures candidates[..] == if candidates.Length <= 1 then old(candidates[..])
                              else P2cArranged(lastUsed, old(candidates[..]), x, if y >= x then y + 1 else y)
  {
    var n := candidates.Length;
    if n <= 1 {
      return;
    }
    var i := x;
    var j := y;
    if j >= i {
      j := j + 1;
    }
    ghost var was := candidates[..];
    assert was[i] in was && was[j] in was;
    var a, b := candidates[i], candidates[j];
    if lastUsed[b] < lastUsed[a] {
      a, b := b, a;
    }
    var rest := TheOthers(candidates, i, j);
    assert |rest| == n - 2 by {
      P2cPermutes(lastUsed, was, i, j);
    }
    Refill(candidates, [a, b] + rest);
  }

  method Refill(candidates: array<nat>, s: seq<nat>)
    requires |s| == candidates.Length
    modifies candidates
    ensures candidates[..] == s
  {
    forall m | 0 <= m < candidates.Length {
      candidates[m] := s[m];
    }
  }

  method TheOthers(candidates: array<nat>, i: nat, j: nat) returns (rest: seq<nat>)
    ensures rest == Without(candidates[..], i, j)
  {
    rest := [];
    var k := 0;
    while k < candidates.Length
      invariant 0 <= k <= candidates.Length && rest == Without(candidates[..k], i, j)
    {
      assert candidates[..k + 1][..k] == candidates[..k];
      if k != i && k != j {
        rest := rest + [candidates[k]];
      }
      k := k + 1;
    }
    assert candidates[..k] == candidates[..];
  }
}
