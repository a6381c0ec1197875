/** The credential refresh loop, one connection at a time. */
module RefreshLoop {
  import opened Facets
  import opened Cooldown
  import opened Options
  import opened Connections

  // What one refresh does to a connection, and what a run of them leads to when nothing else acts
  // on it.

  /** What the upstream refresh returned. */
  datatype Outcome = Fresh | Failed(cause: string, revoked: bool)

  /** What one sweep meets at one connection: when, whether a credential is stored, whether it is
      about to expire, what refreshing it gives, and whether the two counter updates succeed. */
  datatype Sight = Sight(at: Time, stored: bool, expiring: bool, outcome: Outcome, bumped: bool, reset: bool)

  const DISABLE_AFTER: nat := 3

  // ----- Specification -----

  /** Refresh an expired connection, and a healthy one whose credential is about to expire. */
  predicate WantsRefresh(h: Health, s: Sight) {
    s.stored
    && (h.auth.AuthExpired?
        || (h.auth.AuthValid? && h.breaker.BreakerClosed? && !h.lifecycle.LifecycleDisabled? && s.expiring))
  }

  function Count(n: nat, s: Sight): nat {
    match s.outcome
    case Fresh => if s.reset then 0 else n
    case Failed(_, _) => if s.bumped then n + 1 else n
  }

  /** Whether a failed refresh, after counting it, gives up on the connection. */
  predicate GivesUp(n: nat, s: Sight, disableAfter: nat) {
    s.outcome.Failed? && (s.outcome.revoked || (s.bumped && Count(n, s) >= disableAfter))
  }

  /** The state and the failure count after one refresh. */
  function Refreshed(h: Health, n: nat, s: Sight, disableAfter: nat): (Health, nat) {
    if !WantsRefresh(h, s) then (h, n)
    else
      var now := s.at;
      var expired := h.auth.AuthExpired?;
      var started := if expired then After(h, MarkRefreshing, now) else h;
      match s.outcome
      case Fresh => (if expired then After(started, MarkRefreshSuccess, now) else started, Count(n, s))
      case Failed(cause, revoked) =>
        var failed := if expired then After(started, MarkRefreshFailure(cause), now) else started;
        (if GivesUp(n, s, disableAfter) then After(failed, Disable, now) else failed, Count(n, s))
  }

  function Run(h: Health, n: nat, sights: seq<Sight>, disableAfter: nat): (Health, nat) {
    if sights == [] then (h, n)
    else
      var before := Run(h, n, sights[..|sights| - 1], disableAfter);
      Refreshed(before.0, before.1, sights[|sights| - 1], disableAfter)
  }

  // ----- What a run leads to -----

  /** Refreshing leaves alone everything but the auth facet, the lifecycle, the last error and,
      on recovery, the backoff level; and it never leaves a refresh unfinished. */
  ghost predicate OnlyRefreshed(h: Health, r: Health) {
    && r == h.(auth := r.auth, lifecycle := r.lifecycle, lastError := r.lastError, backoff := r.backoff)
    && (r.lifecycle == h.lifecycle || r.lifecycle.LifecycleDisabled?)
    && (r.backoff == h.backoff || r.backoff == 0)
    && (h.auth.AuthRefreshing? <==> r.auth.AuthRefreshing?)
  }

  lemma RefreshedOnly(h: Health, n: nat, s: Sight, disableAfter: nat)
    ensures OnlyRefreshed(h, Refreshed(h, n, s, disableAfter).0)
  {
  }

  lemma {:induction false} RunRefreshesOnly(h: Health, n: nat, sights: seq<Sight>, disableAfter: nat)
    ensures OnlyRefreshed(h, Run(h, n, sights, disableAfter).0)
  {
    if sights != [] {
      var init, last := sights[..|sights| - 1], sights[|sights| - 1];
      RunRefreshesOnly(h, n, init, disableAfter);
      var before := Run(h, n, init, disableAfter);
      RefreshedOnly(before.0, before.1, last, disableAfter);
    }
  }

  ghost predicate AllCountedFailures(sights: seq<Sight>) {
    forall i :: 0 <= i < |sights| ==> sights[i].stored && sights[i].outcome.Failed? && sights[i].bumped
  }

  ghost predicate SomeRevoked(sights: seq<Sight>) {
    exists i :: 0 <= i < |sights| && sights[i].outcome.Failed? && sights[i].outcome.revoked
  }

  /** A sweep has a reason to refresh: the credential is expired, or it is about to be and the
      connection is in good health. */
  predicate NeedsRefresh(h: Health, s: Sight) {
    match h.auth
    case AuthExpired => s.stored
    case AuthRefreshing => false
    case AuthValid => s.stored && s.expiring && h.breaker.BreakerClosed? && !h.lifecycle.LifecycleDisabled?
  }

  /** Without a reason a sweep changes nothing and counts nothing; with one, a failure that can be
      counted raises the count by one, and a success that can be written clears it. */
  lemma SweepsExactlyWhen(h: Health, n: nat, s: Sight, disableAfter: nat)
    ensures !NeedsRefresh(h, s) ==> Refreshed(h, n, s, disableAfter) == (h, n)
    ensures s.outcome.Failed? && s.bumped ==>
              (Refreshed(h, n, s, disableAfter).1 == n + 1 <==> NeedsRefresh(h, s))
    ensures NeedsRefresh(h, s) && s.outcome.Fresh? ==>
              var r := Refreshed(h, n, s, disableAfter);
              r.0.auth.AuthValid? && r.1 == (if s.reset then 0 else n) && r.0.lifecycle == h.lifecycle
  {
  }

  /** A valid credential that is never about to expire survives any run of sweeps untouched, and so
      does one whose breaker is not CLOSED or whose connection is disabled. */
  lemma {:induction false} HealthyIsLeftAlone(h: Health, n: nat, sights: seq<Sight>, disableAfter: nat)
    requires h.auth.AuthValid?
    requires h.breaker.BreakerClosed? && !h.lifecycle.LifecycleDisabled? ==>
               forall i :: 0 <= i < |sights| ==> !sights[i].stored || !sights[i].expiring
    ensures Run(h, n, sights, disableAfter) == (h, n)
  {
    if sights != [] {
      HealthyIsLeftAlone(h, n, sights[..|sights| - 1], disableAfter);
      SweepsExactlyWhen(h, n, sights[|sights| - 1], disableAfter);
    }
  }

  lemma FailedAgain(h: Health, n: nat, s: Sight, disableAfter: nat)
    requires h.auth.AuthExpired? && s.stored && s.outcome.Failed? && s.bumped
    ensures var r := Refreshed(h, n, s, disableAfter);
      && r.0.auth.AuthExpired? && r.1 == n + 1
      && (r.0.lifecycle.LifecycleDisabled? <==>
            h.lifecycle.LifecycleDisabled? || s.outcome.revoked || n + 1 >= disableAfter)
  {
  }

  /** An expired connection whose refreshes keep failing is retried every time, and is disabled
      exactly when one failure said the token was revoked or the failures, those counted before
      included, reached the threshold. */
  lemma {:induction false} FailingRunDisablesExactlyWhen(h: Health, n: nat, sights: seq<Sight>, disableAfter: nat)
    requires h.auth.AuthExpired? && !h.lifecycle.LifecycleDisabled? && AllCountedFailures(sights)
    ensures var r := Run(h, n, sights, disableAfter);
      && r.0.auth.AuthExpired?
      && r.1 == n + |sights|
      && (r.0.lifecycle.LifecycleDisabled? <==> SomeRevoked(sights) || (sights != [] && n + |sights| >= disableAfter))
  {
    if sights != [] {
      var init, last := sights[..|sights| - 1], sights[|sights| - 1];
      assert sights == init + [last];
      FailingRunDisablesExactlyWhen(h, n, init, disableAfter);
      RevokedTogether(init, last);
      var before := Run(h, n, init, disableAfter);
      FailedAgain(before.0, before.1, last, disableAfter);
    }
  }

  lemma PreemptedAgain(h: Health, n: nat, s: Sight, disableAfter: nat)
    requires h.auth.AuthValid? && h.breaker.BreakerClosed?
    requires s.stored && s.outcome.Failed? && s.bumped && s.expiring
    ensures Refreshed(h, n, s, disableAfter)
         == if h.lifecycle.LifecycleDisabled? then (h, n)
            else (if GivesUp(n, s, disableAfter) then h.(lifecycle := LifecycleDisabled) else h, n + 1)
  {
  }

  /** A credential still valid but about to expire whose refreshes keep failing: each failure is
      counted but leaves the connection as it is, until the first that says revoked or reaches the
      threshold disables it; after that it is not refreshed. It is disabled exactly when there was
      such a failure. */
  lemma {:induction false} FailingPreemptionDisablesExactlyWhen(h: Health, n: nat, sights: seq<Sight>, disableAfter: nat)
    requires h.auth.AuthValid? && h.breaker.BreakerClosed? && !h.lifecycle.LifecycleDisabled?
    requires AllCountedFailures(sights) && forall i :: 0 <= i < |sights| ==> sights[i].expiring
    ensures var r := Run(h, n, sights, disableAfter);
      && (r.0.lifecycle.LifecycleDisabled? <==> SomeRevoked(sights) || (sights != [] && n + |sights| >= disableAfter))
      && (!r.0.lifecycle.LifecycleDisabled? ==> r == (h, n + |sights|))
      && (r.0.lifecycle.LifecycleDisabled? ==>
            && r.0 == h.(lifecycle := LifecycleDisabled)
            && exists k :: 0 < k <= |sights| && IsFirstGivingUp(n, sights, k, disableAfter) && r.1 == n + k)
  {
    if sights != [] {
      var init, last := sights[..|sights| - 1], sights[|sights| - 1];
      assert sights == init + [last];
      FailingPreemptionDisablesExactlyWhen(h, n, init, disableAfter);
      RevokedTogether(init, last);
      var before := Run(h, n, init, disableAfter);
      PreemptedAgain(before.0, before.1, last, disableAfter);
      if before.0.lifecycle.LifecycleDisabled? {
        var k :| 0 < k <= |init| && IsFirstGivingUp(n, init, k, disableAfter) && before.1 == n + k;
        FirstStaysFirst(n, init, last, k, disableAfter);
      } else if GivesUp(n + |init|, last, disableAfter) {
        assert IsFirstGivingUp(n, init + [last], |init| + 1, disableAfter);
      }
    }
  }

  /** The k-th failure is the first that gives up on the connection. */
  ghost predicate IsFirstGivingUp(n: nat, sights: seq<Sight>, k: nat, disableAfter: nat) {
    && 0 < k <= |sights|
    && GivesUp(n + k - 1, sights[k - 1], disableAfter)
    && !SomeRevoked(sights[..k - 1]) && (k > 1 ==> n + k - 1 < disableAfter)
  }

  lemma FirstStaysFirst(n: nat, init: seq<Sight>, last: Sight, k: nat, disableAfter: nat)
    requires IsFirstGivingUp(n, init, k, disableAfter)
    ensures IsFirstGivingUp(n, init + [last], k, disableAfter)
  {
    assert (init + [last])[..k - 1] == init[..k - 1];
  }

  lemma RevokedTogether(init: seq<Sight>, last: Sight)
    ensures SomeRevoked(init + [last]) <==> SomeRevoked(init) || (last.outcome.Failed? && last.outcome.revoked)
  {
    var all := init + [last];
    assert all[|init|] == last;
    if SomeRevoked(init) {
      var i :| 0 <= i < |init| && init[i].outcome.Failed? && init[i].outcome.revoked;
      assert all[i] == init[i];
    }
  }

  /** A refresh that succeeds after any run of failures makes the credential valid and, unless the
      counter cannot be written, forgets them; but it does not bring back a connection that the
      failures disabled. */
  lemma FreshRecovers(h: Health, n: nat, failures: seq<Sight>, s: Sight, disableAfter: nat)
    requires h.auth.AuthExpired? && !h.lifecycle.LifecycleDisabled? && AllCountedFailures(failures)
    requires s.stored && s.outcome.Fresh?
    ensures var before := Run(h, n, failures, disableAfter);
      var r := Run(h, n, failures + [s], disableAfter);
      r.0.auth.AuthValid? && r.1 == (if s.reset then 0 else before.1) && r.0.lifecycle == before.0.lifecycle
  {
    FailingRunDisablesExactlyWhen(h, n, failures, disableAfter);
    var all := failures + [s];
    assert all[..|all| - 1] == failures && all[|all| - 1] == s;
  }

  // ----- The loop -----

  class Loop {
    const disableAfter: nat
    /** The stored failure counter of each connection. */
    var failures: map<string, nat>

    constructor ()
      ensures disableAfter == 3 && failures == map[]
    {
      disableAfter, failures := DISABLE_AFTER, map[];
    }

    function FailuresOf(id: string): nat
      reads this
    {
      if id in failures then failures[id] else 0
    }

    /** Handles a failed refresh: counts it, marks it, and gives up at the threshold. */
    method HandleFailure(c: Connection, expired: bool, cause: string, revoked: bool, bumped: bool, now: Time)
      modifies c, this`failures
      ensures FailuresOf(c.id) == if bumped then old(FailuresOf(c.id)) + 1 else old(FailuresOf(c.id))
      ensures forall id :: id != c.id ==> FailuresOf(id) == old(FailuresOf(id))
      ensures var failed := if expired then After(old(c.State()), MarkRefreshFailure(cause), now) else old(c.State());
        c.State() == if revoked || (bumped && FailuresOf(c.id) >= disableAfter) then After(failed, Disable, now) else failed
    {
      if bumped {
        failures := failures[c.id := FailuresOf(c.id) + 1];
      }
      if expired {
        var marked := c.MarkRefreshFailure(cause, now);
      }
      if revoked || (bumped && FailuresOf(c.id) >= disableAfter) {
        var disabled := c.Disable(now);
      }
    }

    method RefreshOne(c: Connection, s: Sight)
      modifies c, this`failures
      ensures (c.State(), FailuresOf(c.id))
           == Refreshed(old(c.State()), old(FailuresOf(c.id)), s, disableAfter)
      ensures forall id :: id != c.id ==> FailuresOf(id) == old(FailuresOf(id))
    {
      if !s.stored {
        return;
      }
      var now := s.at;
      var expired := c.auth == AuthExpired;
      if !expired {
        if c.auth != AuthValid || c.breaker != BreakerClosed || c.lifecycle == LifecycleDisabled {
          return;
        }
        if !s.expiring {
          return;
        }
      }
      if expired {
        var started := c.MarkRefreshing(now);
        if !started {
          return;
        }
      }
      match s.outcome {
        case Failed(cause, revoked) =>
          HandleFailure(c, expired, cause, revoked, s.bumped, now);
        case Fresh =>
          if s.reset {
            failures := failures[c.id := 0];
          }
          if expired {
            var recovered := c.MarkRefreshSuccess(now);
          }
      }
    }
  }
}
