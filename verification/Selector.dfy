/** Connection selection: filter, order, claim. */
module Selectors {
  import opened Facets
  import opened Connections
  import opened Options
  import opened StableSorting
  import opened Ordering

  datatype Selection =
    | NoConnections
    | Unavailable(allRateLimited: bool, earliestRetry: Time)
    | Selected(index: nat)

  /** One selection request; `x` and `y` are the random draws of power-of-two-choices. */
  datatype Query = Query(excluded: set<string>, model: string, strategy: Strategy, x: nat, y: nat, now: Time)

  predicate IsCandidate(v: View, q: Query) {
    v.id !in q.excluded && Selectable(v.health, q.model, v.permitted, q.now)
  }

  /** Could be handed the request: not excluded, selectable, trial slot free if needed. */
  predicate IsAvailable(v: View, q: Query) {
    v.id !in q.excluded && Claimable(v.health, q.model, v.permitted, q.now)
  }

  function Candidates(views: seq<View>, q: Query): seq<nat> {
    if views == [] then []
    else
      var front := Candidates(views[..|views| - 1], q);
      if IsCandidate(views[|views| - 1], q) then front + [|views| - 1] else front
  }

  lemma {:induction false} CandidatesExactly(views: seq<View>, q: Query)
    ensures forall p: nat :: p in Candidates(views, q) <==> p < |views| && IsCandidate(views[p], q)
    ensures Ascending(Candidates(views, q)) && Within(Candidates(views, q), |views|)
  {
    if views != [] {
      var front := Candidates(views[..|views| - 1], q);
      CandidatesExactly(views[..|views| - 1], q);
      assert forall i :: 0 <= i < |front| ==> front[i] in front;
    }
  }

  function LastUsed(views: seq<View>): (r: seq<Time>)
    ensures |r| == |views| && forall i :: 0 <= i < |r| ==> r[i] == views[i].health.lastUsedAt
  {
    if views == [] then [] else LastUsed(views[..|views| - 1]) + [views[|views| - 1].health.lastUsedAt]
  }

  function Sorted(views: seq<View>, q: Query): seq<nat> {
    StableSort(Comparing(views, q.strategy), Candidates(views, q))
  }

  lemma SortedKeepsCandidates(views: seq<View>, q: Query)
    ensures |Sorted(views, q)| == |Candidates(views, q)| && Within(Sorted(views, q), |views|)
    ensures forall p: nat :: p in Sorted(views, q) <==> p < |views| && IsCandidate(views[p], q)
  {
    CandidatesExactly(views, q);
    StableSortCounts(Comparing(views, q.strategy), Candidates(views, q));
    SameElements(Sorted(views, q), Candidates(views, q));
  }

  /** A value drawn from `0 .. n`: every one of them is some `x`. */
  function Draw(x: nat, n: nat): (r: nat)
    requires n > 0
    ensures r < n && (x < n ==> r == x)
  {
    if x < n then x else n - 1
  }

  function FirstDraw(q: Query, n: nat): nat
    requires n > 1
  {
    Draw(q.x, n)
  }

  function SecondDraw(q: Query, n: nat): nat
    requires n > 1
  {
    var j := Draw(q.y, n - 1);
    if j >= FirstDraw(q, n) then j + 1 else j
  }

  function WalkOrder(views: seq<View>, q: Query): seq<nat> {
    var s := Sorted(views, q);
    SortedKeepsCandidates(views, q);
    if q.strategy.SelectP2C? && |s| > 1 then P2cArranged(LastUsed(views), s, FirstDraw(q, |s|), SecondDraw(q, |s|))
    else s
  }

  lemma WalkOrderIs(views: seq<View>, q: Query, s: seq<nat>)
    requires s == Sorted(views, q)
    ensures Within(s, |LastUsed(views)|)
    ensures !(q.strategy.SelectP2C? && |s| > 1) ==> WalkOrder(views, q) == s
    ensures q.strategy.SelectP2C? && |s| > 1 ==>
              var x, y := Draw(q.x, |s|), Draw(q.y, |s| - 1);
              WalkOrder(views, q) == P2cArranged(LastUsed(views), s, x, if y >= x then y + 1 else y)
  {
    SortedKeepsCandidates(views, q);
  }

  lemma WalkVisitsCandidates(views: seq<View>, q: Query)
    ensures Within(WalkOrder(views, q), |views|)
    ensures forall p: nat :: p in WalkOrder(views, q) <==> p < |views| && IsCandidate(views[p], q)
  {
    var s := Sorted(views, q);
    SortedKeepsCandidates(views, q);
    if q.strategy.SelectP2C? && |s| > 1 {
      P2cPermutes(LastUsed(views), s, FirstDraw(q, |s|), SecondDraw(q, |s|));
      SameElements(WalkOrder(views, q), s);
    }
  }

  /** The first position of the walk that can be claimed. */
  function FirstClaimable(views: seq<View>, q: Query, walk: seq<nat>): (r: Option<nat>)
    requires Within(walk, |views|)
    ensures r.None? <==> forall p :: p in walk ==> !IsAvailable(views[p], q)
    ensures r.Some? ==> r.value in walk && IsAvailable(views[r.value], q)
  {
    if walk == [] then None
    else
      var rest := walk[1..];
      assert walk == [walk[0]] + rest && walk[0] in walk;
      assert forall p :: p in rest ==> p in walk;
      if IsAvailable(views[walk[0]], q) then Some(walk[0]) else FirstClaimable(views, q, rest)
  }

  function Choice(views: seq<View>, q: Query): (r: Option<nat>)
    ensures r.Some? ==> r.value < |views| && IsAvailable(views[r.value], q)
  {
    WalkVisitsCandidates(views, q);
    FirstClaimable(views, q, WalkOrder(views, q))
  }

  // ----- What is chosen -----

  /** Under every strategy selection fails exactly when no connection is available. */
  lemma FailsExactlyWhenNoneAvailable(views: seq<View>, q: Query)
    ensures Choice(views, q).None? <==> forall p :: 0 <= p < |views| ==> !IsAvailable(views[p], q)
  {
    WalkVisitsCandidates(views, q);
    forall p | 0 <= p < |views| && IsAvailable(views[p], q)
      ensures p in WalkOrder(views, q)
    {
    }
  }

  /** `k` is available and comes before every other available connection by the
      strategy's comparator, ties in registration order. */
  ghost predicate IsBest(views: seq<View>, q: Query, k: nat) {
    && k < |views| && IsAvailable(views[k], q)
    && forall m: nat :: m < |views| && m != k && IsAvailable(views[m], q) ==>
         Precedes(Comparing(views, q.strategy), k, m)
  }

  lemma {:induction false} FirstOfArranged(views: seq<View>, q: Query, walk: seq<nat>)
    requires Within(walk, |views|) && Arranged(Comparing(views, q.strategy), walk)
    ensures var r := FirstClaimable(views, q, walk);
            r.Some? ==> forall m :: m in walk && m != r.value && IsAvailable(views[m], q) ==>
                          Precedes(Comparing(views, q.strategy), r.value, m)
  {
    if walk != [] {
      var rest := walk[1..];
      assert walk == [walk[0]] + rest && walk[0] in walk;
      assert forall p :: p in rest ==> p in walk;
      if IsAvailable(views[walk[0]], q) {
        forall m | m in walk && m != walk[0]
          ensures Precedes(Comparing(views, q.strategy), walk[0], m)
        {
          var i :| 0 <= i < |walk| && walk[i] == m;
        }
      } else {
        FirstOfArranged(views, q, rest);
      }
    }
  }

  /** Under the default and the reset-aware strategy the choice is the unique best
      available connection. */
  lemma ChoosesTheBest(views: seq<View>, q: Query, k: nat)
    requires !q.strategy.SelectP2C?
    ensures Choice(views, q) == Some(k) <==> IsBest(views, q, k)
  {
    var lt := Comparing(views, q.strategy);
    var walk := WalkOrder(views, q);
    WalkVisitsCandidates(views, q);
    ComparingIsWeakOrder(views, q.strategy);
    CandidatesExactly(views, q);
    StableSortArranges(lt, |views|, Candidates(views, q));
    FirstOfArranged(views, q, walk);
    if IsBest(views, q, k) {
      assert k in walk;
      var c := Choice(views, q).value;
      assert c != k ==> Precedes(lt, c, k) && Precedes(lt, k, c);
    }
  }

  /** By the fields: a CLOSED breaker goes before any other, then the lower priority number, then the
      fewer consecutive uses, then the earlier registration. */
  ghost predicate GoesFirst(views: seq<View>, k: nat, m: nat)
    requires k < |views| && m < |views|
  {
    var a, b := views[k].health, views[m].health;
    && (b.breaker.BreakerClosed? ==> a.breaker.BreakerClosed?)
    && ((a.breaker.BreakerClosed? <==> b.breaker.BreakerClosed?) ==>
          && views[k].priority <= views[m].priority
          && (views[k].priority == views[m].priority ==> a.uses <= b.uses && (a.uses == b.uses ==> k < m)))
  }

  /** By the fields: a known quota reset goes before an unknown one, and the earlier before the later;
      only between equal ones does the rest count. */
  ghost predicate ResetsFirst(views: seq<View>, k: nat, m: nat)
    requires k < |views| && m < |views|
  {
    var a, b := views[k].health.quota.resetAt, views[m].health.quota.resetAt;
    && (b != ZERO_TIME ==> a != ZERO_TIME && a <= b)
    && (a == b ==> GoesFirst(views, k, m))
  }

  /** Under the default strategy the choice is the available connection that goes before every other
      available one, by breaker, priority, uses and registration. */
  lemma DefaultChoiceIs(views: seq<View>, q: Query, k: nat)
    requires q.strategy.SelectDefault?
    ensures Choice(views, q) == Some(k) <==>
            && AvailableAt(views, q, k)
            && forall m: nat :: AvailableAt(views, q, m) && m != k ==> GoesFirst(views, k, m)
  {
    ChoosesTheBest(views, q, k);
    if AvailableAt(views, q, k) {
      forall m: nat | AvailableAt(views, q, m) && m != k
        ensures GoesFirst(views, k, m) <==> Precedes(Comparing(views, q.strategy), k, m)
      {
      }
    }
  }

  /** Under the reset-aware strategy the quota reset counts before all that. */
  lemma ResetAwareChoiceIs(views: seq<View>, q: Query, k: nat)
    requires q.strategy.SelectResetAware?
    ensures Choice(views, q) == Some(k) <==>
            && AvailableAt(views, q, k)
            && forall m: nat :: AvailableAt(views, q, m) && m != k ==> ResetsFirst(views, k, m)
  {
    ChoosesTheBest(views, q, k);
    if AvailableAt(views, q, k) {
      forall m: nat | AvailableAt(views, q, m) && m != k
        ensures ResetsFirst(views, k, m) <==> Precedes(Comparing(views, q.strategy), k, m)
      {
      }
    }
  }

  /** With no known quota reset the reset-aware strategy chooses as the default does. */
  lemma {:induction false} ResetAwareDegrades(views: seq<View>, q: Query)
    requires forall p :: 0 <= p < |views| ==> views[p].health.quota.resetAt == ZERO_TIME
    requires q.strategy.SelectResetAware?
    ensures Choice(views, q) == Choice(views, q.(strategy := SelectDefault))
  {
    var d := q.(strategy := SelectDefault);
    var r := Choice(views, q);
    if r.Some? {
      ChoosesTheBest(views, q, r.value);
      BestWithoutResets(views, q, d, r.value);
      ChoosesTheBest(views, d, r.value);
    } else {
      FailsExactlyWhenNoneAvailable(views, q);
      SameAvailability(views, q, d);
      FailsExactlyWhenNoneAvailable(views, d);
    }
  }

  lemma BestWithoutResets(views: seq<View>, q: Query, d: Query, k: nat)
    requires forall p :: 0 <= p < |views| ==> views[p].health.quota.resetAt == ZERO_TIME
    requires q.strategy.SelectResetAware? && d == q.(strategy := SelectDefault) && IsBest(views, q, k)
    ensures IsBest(views, d, k)
  {
    SameAvailability(views, q, d);
    forall m: nat | m < |views| && m != k && IsAvailable(views[m], d)
      ensures Precedes(Comparing(views, d.strategy), k, m)
    {
      assert Precedes(Comparing(views, q.strategy), k, m);
      ResetUnknown(views[k], views[m]);
    }
  }

  lemma ResetUnknown(a: View, b: View)
    requires a.health.quota.resetAt == b.health.quota.resetAt == ZERO_TIME
    ensures ResetAwareLess(a, b) == DefaultLess(a, b) && ResetAwareLess(b, a) == DefaultLess(b, a)
  {
  }

  lemma SameAvailability(views: seq<View>, q: Query, d: Query)
    requires d == q.(strategy := d.strategy)
    ensures forall p :: 0 <= p < |views| ==> IsAvailable(views[p], q) == IsAvailable(views[p], d)
  {
  }

  predicate AvailableAt(views: seq<View>, q: Query, p: nat) {
    p < |views| && IsAvailable(views[p], q)
  }

  /** Power of two choices: of the two sampled candidates the less recently used one is
      chosen if it can be claimed, otherwise the other one if that can. */
  lemma {:induction false} P2cPrefersColderSample(views: seq<View>, q: Query)
    requires q.strategy.SelectP2C? && |Sorted(views, q)| > 1
    ensures var s, n := Sorted(views, q), |Sorted(views, q)|;
            var first, second := s[FirstDraw(q, n)], s[SecondDraw(q, n)];
            var colder := if IsColder(views, second, first) then second else first;
            var other := if IsColder(views, second, first) then first else second;
            && !IsColder(views, other, colder)
            && (AvailableAt(views, q, colder) ==> Choice(views, q) == Some(colder))
            && (!AvailableAt(views, q, colder) && AvailableAt(views, q, other) ==> Choice(views, q) == Some(other))
  {
    var s, n := Sorted(views, q), |Sorted(views, q)|;
    SortedKeepsCandidates(views, q);
    var i, j := FirstDraw(q, n), SecondDraw(q, n);
    assert s[i] in s && s[j] in s;
    WalkVisitsCandidates(views, q);
    FirstTwoDecide(views, q, WalkOrder(views, q));
  }

  lemma FirstTwoDecide(views: seq<View>, q: Query, walk: seq<nat>)
    requires Within(walk, |views|) && |walk| >= 2
    ensures walk[0] in walk && walk[1] in walk
    ensures IsAvailable(views[walk[0]], q) ==> FirstClaimable(views, q, walk) == Some(walk[0])
    ensures !IsAvailable(views[walk[0]], q) && IsAvailable(views[walk[1]], q) ==>
              FirstClaimable(views, q, walk) == Some(walk[1])
  {
    assert walk[0] in walk && walk[1] in walk;
    assert walk[1..][0] == walk[1];
  }

  predicate IsColder(views: seq<View>, p: nat, r: nat) {
    p < |views| && r < |views| && views[p].health.lastUsedAt < views[r].health.lastUsedAt
  }

  // ----- The failure report -----

  /** Cooling down after an upstream 429. */
  predicate IsRateLimited(v: View) {
    v.health.breaker.BreakerOpen? && v.health.failure == Some(RateLimit)
  }

  predicate Counts(v: View, q: Query) {
    v.id !in q.excluded && IsRateLimited(v)
  }

  function RateLimitedCount(views: seq<View>, q: Query): nat {
    if views == [] then 0
    else RateLimitedCount(views[..|views| - 1], q) + if Counts(views[|views| - 1], q) then 1 else 0
  }

  /** The earlier retry time, as the scan updates it. */
  function Earlier(best: Time, v: View, q: Query): Time {
    var at := v.health.cooldownUntil;
    if Counts(v, q) && (best == ZERO_TIME || (at != ZERO_TIME && at < best)) then at else best
  }

  function EarliestRetry(views: seq<View>, q: Query): Time {
    if views == [] then ZERO_TIME
    else Earlier(EarliestRetry(views[..|views| - 1], q), views[|views| - 1], q)
  }

  function AllRateLimited(views: seq<View>, q: Query): bool {
    var n := RateLimitedCount(views, q);
    n > 0 && n == |views| - |q.excluded|
  }

  ghost predicate DistinctIds(views: seq<View>) {
    forall i, j :: 0 <= i < j < |views| ==> views[i].id != views[j].id
  }

  function Ids(views: seq<View>): (r: set<string>)
    ensures forall p :: 0 <= p < |views| ==> views[p].id in r
    ensures forall id :: id in r ==> exists p :: 0 <= p < |views| && views[p].id == id
  {
    if views == [] then {}
    else
      assert views == views[..|views| - 1] + [views[|views| - 1]];
      Ids(views[..|views| - 1]) + {views[|views| - 1].id}
  }

  function IncludedCount(views: seq<View>, q: Query): nat {
    if views == [] then 0
    else IncludedCount(views[..|views| - 1], q) + if views[|views| - 1].id !in q.excluded then 1 else 0
  }

  lemma IdsNext(views: seq<View>, n: nat)
    requires |views| == n + 1 && DistinctIds(views)
    ensures DistinctIds(views[..n]) && views[n].id !in Ids(views[..n])
    ensures Ids(views) == Ids(views[..n]) + {views[n].id}
  {
    assert forall p :: 0 <= p < n ==> views[..n][p] == views[p];
    forall id | id in Ids(views) ensures id in Ids(views[..n]) + {views[n].id} {
      var p :| 0 <= p < |views| && views[p].id == id;
      assert p < n ==> views[..n][p].id == id;
    }
    forall id | id in Ids(views[..n]) ensures id in Ids(views) && id != views[n].id {
      var p :| 0 <= p < n && views[..n][p].id == id;
      assert views[p].id == id;
    }
  }

  lemma ExcludedAmong(excluded: set<string>, ids: set<string>, id: string)
    requires id !in ids
    ensures |excluded * (ids + {id})| == |excluded * ids| + (if id in excluded then 1 else 0)
  {
    if id in excluded {
      assert excluded * (ids + {id}) == excluded * ids + {id};
    } else {
      assert excluded * (ids + {id}) == excluded * ids;
    }
  }

  lemma {:induction false} IncludedIsTheRest(views: seq<View>, q: Query)
    requires DistinctIds(views)
    ensures IncludedCount(views, q) == |views| - |q.excluded * Ids(views)|
  {
    if views != [] {
      var n := |views| - 1;
      IdsNext(views, n);
      IncludedIsTheRest(views[..n], q);
      ExcludedAmong(q.excluded, Ids(views[..n]), views[n].id);
    } else {
      assert q.excluded * Ids(views) == {};
    }
  }

  /** The connections considered that are not rate-limited. */
  function UnlimitedCount(views: seq<View>, q: Query): nat {
    if views == [] then 0
    else
      var last := views[|views| - 1];
      UnlimitedCount(views[..|views| - 1], q) + if last.id !in q.excluded && !IsRateLimited(last) then 1 else 0
  }

  lemma {:induction false} IncludedAreCounted(views: seq<View>, q: Query)
    ensures IncludedCount(views, q) == RateLimitedCount(views, q) + UnlimitedCount(views, q)
    ensures RateLimitedCount(views, q) > 0 <==> exists p :: 0 <= p < |views| && Counts(views[p], q)
    ensures UnlimitedCount(views, q) > 0 <==>
            exists p :: 0 <= p < |views| && views[p].id !in q.excluded && !IsRateLimited(views[p])
  {
    if views != [] {
      var front, last := views[..|views| - 1], views[|views| - 1];
      IncludedAreCounted(front, q);
      assert views == front + [last];
      assert views[|views| - 1] == last;
      assert forall p :: 0 <= p < |front| ==> views[p] == front[p];
    }
  }

  /** The flag is raised exactly when some connection considered is rate-limited and those that are
      not are as many as the excluded IDs that are not registered. */
  lemma {:induction false} AllRateLimitedExactlyWhen(views: seq<View>, q: Query)
    requires DistinctIds(views)
    ensures AllRateLimited(views, q) <==>
            && (exists p :: 0 <= p < |views| && Counts(views[p], q))
            && UnlimitedCount(views, q) == |q.excluded - Ids(views)|
  {
    IncludedAreCounted(views, q);
    IncludedIsTheRest(views, q);
    assert q.excluded == q.excluded * Ids(views) + (q.excluded - Ids(views));
  }

  /** When every excluded ID is registered, the flag means what it says. */
  lemma {:induction false} AllRateLimitedMeaning(views: seq<View>, q: Query)
    requires DistinctIds(views) && q.excluded <= Ids(views)
    ensures AllRateLimited(views, q) <==>
            && (exists p :: 0 <= p < |views| && views[p].id !in q.excluded)
            && (forall p :: 0 <= p < |views| && views[p].id !in q.excluded ==> IsRateLimited(views[p]))
  {
    AllRateLimitedExactlyWhen(views, q);
    IncludedAreCounted(views, q);
    assert q.excluded - Ids(views) == {};
    assert forall p :: 0 <= p < |views| && views[p].id !in q.excluded && IsRateLimited(views[p]) ==> Counts(views[p], q);
  }

  /** With every non-excluded connection rate-limited, the flag is raised exactly when all
      excluded IDs are registered: one foreign ID hides the situation from the caller. */
  lemma {:induction false} AllRateLimitedNeedsKnownExclusions(views: seq<View>, q: Query)
    requires DistinctIds(views)
    requires exists p :: 0 <= p < |views| && views[p].id !in q.excluded
    requires forall p :: 0 <= p < |views| && views[p].id !in q.excluded ==> IsRateLimited(views[p])
    ensures AllRateLimited(views, q) <==> q.excluded <= Ids(views)
  {
    AllRateLimitedExactlyWhen(views, q);
    IncludedAreCounted(views, q);
    assert forall p :: 0 <= p < |views| && views[p].id !in q.excluded ==> Counts(views[p], q);
    assert q.excluded <= Ids(views) <==> q.excluded - Ids(views) == {};
  }

  /** Two connections of which only the first is rate-limited: an excluded ID that is not
      registered makes the flag say that all are. */
  lemma ForeignExclusionRaisesFlag(limited: View, other: View, q: Query, foreign: string)
    requires IsRateLimited(limited) && !IsRateLimited(other) && limited.id != other.id
    requires q.excluded == {foreign} && foreign != limited.id && foreign != other.id
    ensures AllRateLimited([limited, other], q)
  {
    var views := [limited, other];
    assert views[..1] == [limited] && [limited][..0] == [];
    assert Counts(views[0], q) && views[1] == other;
    assert UnlimitedCount([limited], q) == 0;
    assert UnlimitedCount(views, q) == 1;
    assert q.excluded - Ids(views) == {foreign};
    AllRateLimitedExactlyWhen(views, q);
  }

  /** The reported retry time is the earliest cooldown end among the rate-limited
      connections considered, provided OPEN breakers carry one. */
  lemma {:induction false} EarliestRetryIsMinimum(views: seq<View>, q: Query)
    requires forall p :: 0 <= p < |views| && IsRateLimited(views[p]) ==> views[p].health.cooldownUntil > 0
    ensures EarliestRetry(views, q) == ZERO_TIME <==>
            forall p :: 0 <= p < |views| && views[p].id !in q.excluded ==> !IsRateLimited(views[p])
    ensures EarliestRetry(views, q) != ZERO_TIME ==>
              && (exists p :: 0 <= p < |views| && views[p].id !in q.excluded && IsRateLimited(views[p])
                              && views[p].health.cooldownUntil == EarliestRetry(views, q))
              && (forall p :: 0 <= p < |views| && views[p].id !in q.excluded && IsRateLimited(views[p]) ==>
                                EarliestRetry(views, q) <= views[p].health.cooldownUntil)
  {
    if views != [] {
      var front, last := views[..|views| - 1], views[|views| - 1];
      assert forall p :: 0 <= p < |front| ==> front[p] == views[p];
      EarliestRetryIsMinimum(front, q);
      var best := EarliestRetry(front, q);
      if best != ZERO_TIME {
        var p :| 0 <= p < |front| && front[p].id !in q.excluded && IsRateLimited(front[p]) && front[p].health.cooldownUntil == best;
        assert views[p] == front[p];
      }
      assert views[|views| - 1] == last;
    }
  }

  // ----- The selector object -----

  function ViewOf(c: Connection, model: string): View
    reads c
  {
    View(c.id, c.priority, c.allowlist(model), c.State())
  }

  /** The snapshot of what the selector can see of each connection. */
  function ViewsOf(conns: seq<Connection>, model: string): seq<View>
    reads conns
  {
    if conns == [] then [] else ViewsOf(conns[..|conns| - 1], model) + [ViewOf(conns[|conns| - 1], model)]
  }

  lemma {:induction false} ViewsOfEach(conns: seq<Connection>, model: string)
    ensures |ViewsOf(conns, model)| == |conns|
    ensures forall p :: 0 <= p < |conns| ==> ViewsOf(conns, model)[p] == ViewOf(conns[p], model)
  {
    if conns != [] {
      ViewsOfEach(conns[..|conns| - 1], model);
    }
  }

  /** The views are what can be seen of the connections now. */
  ghost predicate IsSnapshot(views: seq<View>, conns: seq<Connection>, model: string)
    reads conns
  {
    |views| == |conns| && forall p :: 0 <= p < |conns| ==> ViewOf(conns[p], model) == views[p]
  }

  lemma SnapshotIs(views: seq<View>, conns: seq<Connection>, model: string)
    ensures IsSnapshot(views, conns, model) <==> views == ViewsOf(conns, model)
  {
    ViewsOfEach(conns, model);
  }

  /** The views once position k has been claimed. */
  function Claimed(views: seq<View>, k: nat): seq<View> {
    if k < |views| then views[k := views[k].(health := WithTrial(views[k].health))] else views
  }

  /** The whole answer of a selection. */
  function Outcome(views: seq<View>, q: Query): Selection {
    if views == [] then NoConnections
    else if Candidates(views, q) == [] then Unavailable(AllRateLimited(views, q), EarliestRetry(views, q))
    else
      var choice := Choice(views, q);
      if choice.Some? then Selected(choice.value) else Unavailable(false, ZERO_TIME)
  }

  /** What the filter has found among the views so far. */
  ghost predicate Scanned(views: seq<View>, q: Query, candidates: seq<nat>, limited: nat, earliest: Time) {
    && candidates == Candidates(views, q)
    && limited == RateLimitedCount(views, q)
    && earliest == EarliestRetry(views, q)
  }

  lemma ScanNext(views: seq<View>, v: View, q: Query, found: seq<nat>, count: nat, best: Time)
    requires Scanned(views, q, found, count, best)
    ensures Scanned(views + [v], q, if IsCandidate(v, q) then found + [|views|] else found,
                    count + (if Counts(v, q) then 1 else 0), Earlier(best, v, q))
  {
    assert (views + [v])[..|views|] == views;
  }

  lemma WalkOutcome(views: seq<View>, q: Query, walk: seq<nat>)
    requires views != [] && Candidates(views, q) != [] && walk == WalkOrder(views, q)
    ensures Within(walk, |views|)
    ensures Outcome(views, q) == var choice := FirstClaimable(views, q, walk);
      if choice.Some? then Selected(choice.value) else Unavailable(false, ZERO_TIME)
  {
    WalkVisitsCandidates(views, q);
  }

  /** Nothing before position m of the walk can be claimed. */
  ghost predicate StillToWalk(views: seq<View>, q: Query, walk: seq<nat>, m: nat) {
    && m <= |walk|
    && Within(walk, |views|) && Within(walk[m..], |views|)
    && FirstClaimable(views, q, walk) == FirstClaimable(views, q, walk[m..])
  }

  lemma WalkStep(views: seq<View>, q: Query, walk: seq<nat>, m: nat)
    requires m < |walk| && StillToWalk(views, q, walk, m)
    ensures walk[m] in walk && walk[m] < |views|
    ensures IsAvailable(views[walk[m]], q) ==> FirstClaimable(views, q, walk) == Some(walk[m])
    ensures !IsAvailable(views[walk[m]], q) ==> StillToWalk(views, q, walk, m + 1)
  {
    var rest := walk[m..];
    var later := walk[m + 1..];
    assert rest[0] == walk[m] && rest[1..] == later;
    forall p | p in later ensures p < |views| {
      var i :| 0 <= i < |later| && later[i] == p;
      assert walk[m + 1 + i] == p && p in walk;
    }
  }

  class Selector {
    var conns: seq<Connection>

    /** Registered connections are distinct objects. */
    ghost predicate Valid()
      reads this
    {
      forall i, j :: 0 <= i < j < |conns| ==> conns[i] != conns[j]
    }

    constructor ()
      ensures Valid() && conns == []
    {
      conns := [];
    }

    method SortCandidates(candidates: array<nat>, views: seq<View>, q: Query)
      requires candidates[..] == Candidates(views, q)
      modifies candidates
      ensures candidates[..] == Sorted(views, q)
    {
      SliceStable(candidates, Comparing(views, q.strategy));
    }

    /** Orders the candidates in place as the strategy prefers. */
    method OrderCandidates(candidates: array<nat>, views: seq<View>, q: Query)
      requires candidates[..] == Candidates(views, q)
      modifies candidates
      ensures candidates[..] == WalkOrder(views, q)
    {
      SortCandidates(candidates, views, q);
      WalkOrderIs(views, q, candidates[..]);
      if q.strategy.SelectP2C? && candidates.Length > 1 {
        var x, y := Draw(q.x, candidates.Length), Draw(q.y, candidates.Length - 1);
        P2cOrder(candidates, LastUsed(views), x, y);
      }
    }

    method Arrange(candidates: seq<nat>, views: seq<View>, q: Query) returns (walk: seq<nat>)
      requires candidates == Candidates(views, q)
      ensures walk == WalkOrder(views, q)
    {
      var a := new nat[|candidates|](i requires 0 <= i < |candidates| => candidates[i]);
      assert a[..] == candidates;
      OrderCandidates(a, views, q);
      return a[..];
    }

    /** The pass that filters and keeps the report: no connection is changed. */
    method Filter(snapshot: seq<Connection>, q: Query)
      returns (views: seq<View>, candidates: seq<nat>, limited: nat, earliest: Time)
      ensures IsSnapshot(views, snapshot, q.model) && Scanned(views, q, candidates, limited, earliest)
    {
      views, candidates, limited, earliest := [], [], 0, ZERO_TIME;
      for k := 0 to |snapshot|
        invariant IsSnapshot(views, snapshot[..k], q.model) && Scanned(views, q, candidates, limited, earliest)
      {
        views, candidates, limited, earliest := FilterNext(snapshot, k, q, views, candidates, limited, earliest);
      }
      assert snapshot[..|snapshot|] == snapshot;
    }

    method FilterNext(snapshot: seq<Connection>, k: nat, q: Query, before: seq<View>, found: seq<nat>, count: nat,
                      best: Time)
      returns (views: seq<View>, candidates: seq<nat>, limited: nat, earliest: Time)
      requires k < |snapshot| && IsSnapshot(before, snapshot[..k], q.model) && Scanned(before, q, found, count, best)
      ensures IsSnapshot(views, snapshot[..k + 1], q.model) && Scanned(views, q, candidates, limited, earliest)
    {
      ScanNext(before, ViewOf(snapshot[k], q.model), q, found, count, best);
      var v;
      v, candidates, limited, earliest := Inspect(snapshot[k], k, q, found, count, best);
      views := before + [v];
    }

    /** One iteration of the filter. */
    method Inspect(c: Connection, k: nat, q: Query, found: seq<nat>, count: nat, best: Time)
      returns (v: View, candidates: seq<nat>, limited: nat, earliest: Time)
      ensures v == ViewOf(c, q.model)
      ensures candidates == if IsCandidate(v, q) then found + [k] else found
      ensures limited == count + (if Counts(v, q) then 1 else 0) && earliest == Earlier(best, v, q)
    {
      v, candidates, limited, earliest := ViewOf(c, q.model), found, count, best;
      if c.id in q.excluded {
        return;
      }
      var selectable := c.IsSelectable(q.model, q.now);
      if selectable {
        candidates := candidates + [k];
        return;
      }
      if c.breaker == BreakerOpen && c.failureKind == Some(RateLimit) {
        limited := limited + 1;
        if earliest == ZERO_TIME || (c.cooldownUntil != ZERO_TIME && c.cooldownUntil < earliest) {
          earliest := c.cooldownUntil;
        }
      }
    }

    /** Tries to claim one candidate; a failed claim changes nothing. */
    method ClaimOne(snapshot: seq<Connection>, ghost views: seq<View>, q: Query, k: nat) returns (claimed: bool)
      requires forall i, j :: 0 <= i < j < |snapshot| ==> snapshot[i] != snapshot[j]
      requires IsSnapshot(views, snapshot, q.model) && k < |snapshot| && views[k].id !in q.excluded
      modifies snapshot[k]
      ensures claimed == IsAvailable(views[k], q)
      ensures IsSnapshot(if claimed then Claimed(views, k) else views, snapshot, q.model)
    {
      assert ViewOf(snapshot[k], q.model) == views[k];
      claimed := snapshot[k].TryClaimHalfOpenTrial(q.model, q.now);
    }

    /** Claims the first candidate of the walk that can be claimed. */
    method ClaimWalk(snapshot: seq<Connection>, ghost views: seq<View>, q: Query, walk: seq<nat>) returns (r: Option<nat>)
      requires forall i, j :: 0 <= i < j < |snapshot| ==> snapshot[i] != snapshot[j]
      requires IsSnapshot(views, snapshot, q.model)
      requires Within(walk, |views|) && forall p :: p in walk ==> views[p].id !in q.excluded
      modifies snapshot
      ensures r == FirstClaimable(views, q, walk)
      ensures IsSnapshot(if r.Some? then Claimed(views, r.value) else views, snapshot, q.model)
    {
      assert walk[0..] == walk;
      for m := 0 to |walk|
        invariant StillToWalk(views, q, walk, m) && IsSnapshot(views, snapshot, q.model)
      {
        WalkStep(views, q, walk, m);
        var claimed := ClaimOne(snapshot, views, q, walk[m]);
        if claimed {
          return Some(walk[m]);
        }
      }
      return None;
    }

    /** Filter, order, and claim the first claimable candidate. Only the winner changes,
        and only by its claim. */
    method Select(q: Query) returns (r: Selection)
      requires Valid()
      modifies conns
      ensures r == Outcome(old(ViewsOf(conns, q.model)), q)
      ensures r.Selected? ==> r.index < |conns| && conns[r.index].id !in q.excluded
      ensures ViewsOf(conns, q.model)
           == var before := old(ViewsOf(conns, q.model)); if r.Selected? then Claimed(before, r.index) else before
    {
      if conns == [] {
        return NoConnections;
      }
      var views, candidates, limited, earliest := Filter(conns, q);
      SnapshotIs(views, conns, q.model);
      if candidates == [] {
        return Unavailable(limited > 0 && limited == |conns| - |q.excluded|, earliest);
      }
      r := Claim(views, candidates, q);
      SnapshotIs(if r.Selected? then Claimed(views, r.index) else views, conns, q.model);
    }

    /** The second half of a selection that has candidates. */
    method Claim(views: seq<View>, candidates: seq<nat>, q: Query) returns (r: Selection)
      requires Valid() && IsSnapshot(views, conns, q.model)
      requires candidates != [] && candidates == Candidates(views, q)
      modifies conns
      ensures r == Outcome(views, q) && (r.Selected? ==> r.index < |conns| && conns[r.index].id !in q.excluded)
      ensures IsSnapshot(if r.Selected? then Claimed(views, r.index) else views, conns, q.model)
    {
      var walk := Arrange(candidates, views, q);
      WalkOutcome(views, q, walk);
      WalkVisitsCandidates(views, q);
      assert forall p :: 0 <= p < |conns| ==> ViewOf(conns[p], q.model) == views[p];
      var winner := ClaimWalk(conns, views, q, walk);
      return if winner.Some? then Selected(winner.value) else Unavailable(false, ZERO_TIME);
    }
  }
}
