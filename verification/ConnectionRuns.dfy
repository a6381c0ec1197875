/** Properties of every sequence of method calls on one connection. */
module ConnectionRuns {
  import opened Facets
  import opened Cooldown
  import opened Options
  import opened Connections

  /** One call, with the clock reading it made. */
  datatype Event = Event(op: Op, at: Time)

  function Run(h: Health, events: seq<Event>): Health
    decreases |events|
  {
    if events == [] then h else Run(After(h, events[0].op, events[0].at), events[1..])
  }

  /** Clock readings are positive and never go back, and a health check may act on a
      reading made before it reached this connection, but never on a later one. */
  predicate Clocked(start: Time, events: seq<Event>)
    decreases |events|
  {
    && 0 < start
    && (events != [] ==>
          && start <= events[0].at
          && (events[0].op.CollectLocks? ==> events[0].op.reading <= events[0].at)
          && Clocked(events[0].at, events[1..]))
  }

  function EndOf(start: Time, events: seq<Event>): Time
    decreases |events|
  {
    if events == [] then start else EndOf(events[0].at, events[1..])
  }

  lemma {:induction false} EndOfClocked(start: Time, events: seq<Event>)
    requires Clocked(start, events)
    ensures start <= EndOf(start, events)
    decreases |events|
  {
    if events != [] {
      EndOfClocked(events[0].at, events[1..]);
    }
  }

  // ----- The state invariant and recovery -----

  predicate Sane(h: Health) {
    && (h.trial ==> h.breaker.BreakerHalfOpen?)
    && (h.breaker.BreakerClosed? <==> h.failure.None?)
    && (!h.breaker.BreakerClosed? ==> h.cooldownUntil > 0)
    && 0 <= h.backoff <= MAX_BACKOFF_LEVEL
  }

  lemma StepKeepsSane(h: Health, op: Op, now: Time)
    requires Sane(h) && now > 0
    ensures Sane(After(h, op, now))
  {
    if op.OpenBreaker? {
      CooldownExact(op.kind, After(h, op, now).backoff, op.retryAfter);
    }
  }

  /** The facets and counters stay consistent over every run. */
  lemma {:induction false} RunKeepsSane(h: Health, start: Time, events: seq<Event>)
    requires Sane(h) && Clocked(start, events)
    ensures Sane(Run(h, events))
    decreases |events|
  {
    if events != [] {
      StepKeepsSane(h, events[0].op, events[0].at);
      RunKeepsSane(After(h, events[0].op, events[0].at), events[0].at, events[1..]);
    }
  }

  /** No retry hint in the run exceeds `limit`. */
  predicate HintsWithin(events: seq<Event>, limit: int) {
    forall i :: 0 <= i < |events| && events[i].op.OpenBreaker? ==> events[i].op.retryAfter <= limit
  }

  lemma {:induction false} CooldownWithinHorizon(h: Health, start: Time, events: seq<Event>, limit: int)
    requires Clocked(start, events) && HintsWithin(events, limit) && limit >= QUOTA_FALLBACK
    requires h.cooldownUntil <= start + limit
    ensures Run(h, events).cooldownUntil <= EndOf(start, events) + limit
    decreases |events|
  {
    if events != [] {
      var op, at := events[0].op, events[0].at;
      if op.OpenBreaker? {
        CooldownExact(op.kind, After(h, op, at).backoff, op.retryAfter);
      }
      CooldownWithinHorizon(After(h, op, at), at, events[1..], limit);
    }
  }

  /** No breaker stays OPEN past its cooldown: after any run of a new connection, a health
      check later than the cooldown moves an OPEN breaker to HALF_OPEN with a free trial
      slot, and that time is at most the longest hint (or one hour) after the last call. */
  lemma RecoversAfterCooldown(start: Time, events: seq<Event>, limit: int, now: Time)
    requires Clocked(start, events) && HintsWithin(events, limit) && limit >= QUOTA_FALLBACK
    ensures var h := Run(FRESH, events);
            && (h.breaker.BreakerOpen? ==>
                  (Checked(h, now).breaker.BreakerHalfOpen? <==> now > h.cooldownUntil)
                  && (now <= h.cooldownUntil ==> Checked(h, now).breaker.BreakerOpen?))
            && (now > EndOf(start, events) + limit ==> !Checked(h, now).breaker.BreakerOpen?)
            && (h.breaker.BreakerOpen? && Checked(h, now).breaker.BreakerHalfOpen? ==> !Checked(h, now).trial)
            && (!h.breaker.BreakerOpen? ==> Checked(h, now) == h.(locks := Unexpired(h.locks, now)))
  {
    RunKeepsSane(FRESH, start, events);
    CooldownWithinHorizon(FRESH, start, events, limit);
  }

  // ----- Transition tables -----

  /** Every call moves every facet along an edge of its table or not at all; the one
      exception is the breaker under the operator's two resets. */
  lemma MovesFollowTables(h: Health, op: Op, now: Time)
    ensures var k := After(h, op, now);
            && (k.auth != h.auth ==> CanTransitionAuth(h.auth, k.auth))
            && (k.lifecycle != h.lifecycle ==> CanTransitionLifecycle(h.lifecycle, k.lifecycle))
            && (k.breaker != h.breaker ==>
                  CanTransitionBreaker(h.breaker, k.breaker) || ((op.ResetCooldown? || op.Enable?) && k.breaker.BreakerClosed?))
  {
  }

  // ----- Backoff escalation -----

  /** The calls that forget the failures so far. */
  predicate ResetsBackoff(op: Op) {
    op.MarkSuccess? || op.MarkRefreshSuccess? || op.ResetCooldown? || op.Enable?
  }

  /** The calls in a run that opened the breaker. */
  function Openings(h: Health, events: seq<Event>): seq<Event>
    decreases |events|
  {
    if events == [] then []
    else
      var op, at := events[0].op, events[0].at;
      (if op.OpenBreaker? && Accepts(h, op, at) then [events[0]] else []) + Openings(After(h, op, at), events[1..])
  }

  /** How long a breaker opened at a backoff level waits. */
  function Wait(op: Op, level: nat): int
    requires op.OpenBreaker?
  {
    if (op.kind.RateLimit? || op.kind.Quota?) && op.retryAfter > 0 then op.retryAfter
    else Min(BaseOf(op.kind) * Pow2(level), CapOf(op.kind))
  }

  lemma OnlyOpeningsRaise(h: Health, op: Op, now: Time)
    requires Sane(h) && !ResetsBackoff(op)
    ensures var k := After(h, op, now);
      if op.OpenBreaker? && Accepts(h, op, now) then
        && k.backoff == Min(h.backoff + 1, MAX_BACKOFF_LEVEL)
        && k.cooldownUntil == now + Wait(op, k.backoff)
      else k.backoff == h.backoff && k.cooldownUntil == h.cooldownUntil
  {
    if op.OpenBreaker? {
      CooldownExact(op.kind, After(h, op, now).backoff, op.retryAfter);
    }
  }

  /** Over any run that forgets no failure, whatever else happens in it: every opening raises the
      backoff level by one up to 15, and the cooldown is that of the last opening at that level,
      base * 2^level, capped, unless it brought a hint. */
  lemma {:induction false} BackoffCountsOpenings(h: Health, start: Time, events: seq<Event>)
    requires Sane(h) && Clocked(start, events)
    requires forall i :: 0 <= i < |events| ==> !ResetsBackoff(events[i].op)
    ensures var k, trips := Run(h, events), Openings(h, events);
            && k.backoff == Min(h.backoff + |trips|, MAX_BACKOFF_LEVEL)
            && (trips == [] ==> k.cooldownUntil == h.cooldownUntil)
            && (trips != [] ==>
                  var last := trips[|trips| - 1];
                  last.op.OpenBreaker? && k.cooldownUntil == last.at + Wait(last.op, k.backoff))
    decreases |events|
  {
    if events != [] {
      var op, at := events[0].op, events[0].at;
      assert !ResetsBackoff(op);
      StepKeepsSane(h, op, at);
      OnlyOpeningsRaise(h, op, at);
      BackoffCountsOpenings(After(h, op, at), at, events[1..]);
    }
  }

  // ----- Success -----

  /** A success that is accepted leaves no breaker HALF_OPEN: one that was is CLOSED, with no failure
      kind; any other is as it was. The connection is Idle and its failures in a row are forgotten. */
  lemma SuccessSettles(h: Health, now: Time)
    requires Accepts(h, MarkSuccess, now)
    ensures var k := After(h, MarkSuccess, now);
            && !k.breaker.BreakerHalfOpen?
            && (h.breaker.BreakerHalfOpen? ==> k.breaker.BreakerClosed? && k.failure.None?)
            && (!h.breaker.BreakerHalfOpen? ==> k.breaker == h.breaker && k.failure == h.failure)
            && k.lifecycle.LifecycleIdle? && !k.trial && k.backoff == 0 && k.uses == 0 && k.lastError.None?
            && k.auth == h.auth && k.denylist == h.denylist && k.quota == h.quota && k.lastUsedAt == h.lastUsedAt
            && k.cooldownUntil == h.cooldownUntil
  {
  }

  /** Wherever it comes in a run: the last success that was accepted has left the breaker settled. */
  lemma RunSuccessSettles(h: Health, events: seq<Event>, now: Time)
    requires Accepts(Run(h, events), MarkSuccess, now)
    ensures var k := Run(h, events + [Event(MarkSuccess, now)]);
            && !k.breaker.BreakerHalfOpen? && k.lifecycle.LifecycleIdle? && k.backoff == 0
            && (Run(h, events).breaker.BreakerHalfOpen? ==> k.breaker.BreakerClosed? && k.failure.None?)
  {
    RunAppend(h, events, [Event(MarkSuccess, now)]);
    var m := Run(h, events);
    assert [Event(MarkSuccess, now)][1..] == [];
    assert Run(m, [Event(MarkSuccess, now)]) == Run(After(m, MarkSuccess, now), []);
    SuccessSettles(m, now);
  }

  lemma {:induction false} RunAppend(h: Health, first: seq<Event>, second: seq<Event>)
    ensures Run(h, first + second) == Run(Run(h, first), second)
    decreases |first|
  {
    if first == [] {
      assert first + second == second;
    } else {
      assert (first + second)[1..] == first[1..] + second;
      RunAppend(After(h, first[0].op, first[0].at), first[1..], second);
    }
  }

  /** The first failure after a success waits twice the base, capped, or its hint. */
  lemma FirstFailureAfterSuccess(h: Health, op: Op, now: Time, later: Time)
    requires Accepts(h, MarkSuccess, now) && !h.breaker.BreakerOpen? && op.OpenBreaker?
    ensures var k := After(After(h, MarkSuccess, now), op, later);
            && k.breaker.BreakerOpen? && k.backoff == 1
            && k.cooldownUntil == later + (if (op.kind.RateLimit? || op.kind.Quota?) && op.retryAfter > 0 then op.retryAfter
                                           else Min(2 * BaseOf(op.kind), CapOf(op.kind)))
  {
    CooldownExact(op.kind, 1, op.retryAfter);
    assert Pow2(1) == 2;
  }

  /** The way back: an OPEN breaker whose cooldown is over is half-opened by a health check, a request
      claims the trial, uses the connection and succeeds, and it is CLOSED, Idle and claimable. */
  lemma TrialCloses(h: Health, model: string, check: Time, claim: Time, use: Time, done: Time)
    requires Sane(h) && h.breaker.BreakerOpen? && h.auth.AuthValid? && h.lifecycle.LifecycleIdle?
    requires h.cooldownUntil < check && claim <= done
    requires !Live(h.locks, model, claim) && !Live(h.denylist, model, claim)
    ensures var half := Checked(h, check);
            var claimed := After(half, TryClaim(model, true), claim);
            var used := After(claimed, MarkUsed, use);
            var k := After(used, MarkSuccess, done);
            && Accepts(half, TryClaim(model, true), claim) && claimed.trial
            && !Claimable(claimed, model, true, claim)
            && Accepts(claimed, MarkUsed, use) && Accepts(used, MarkSuccess, done)
            && k.breaker.BreakerClosed? && k.failure.None? && k.lifecycle.LifecycleIdle? && !k.trial && k.backoff == 0
            && Claimable(k, model, true, done)
  {
    var half := Checked(h, check);
    assert half.breaker.BreakerHalfOpen? && !half.trial;
    assert !Live(half.locks, model, claim);
    var used := After(After(half, TryClaim(model, true), claim), MarkUsed, use);
    SuccessSettles(used, done);
    assert !Live(Unexpired(used.locks, done), model, done);
  }

  // ----- The single trial slot -----

  predicate FreesTrial(op: Op) {
    op.ReleaseTrial? || op.OpenBreaker? || op.MarkSuccess? || op.ToHalfOpen? || op.ResetCooldown? || op.Enable?
  }

  /** The number of claims in the run that succeed on a HALF_OPEN breaker. */
  function TrialsWon(h: Health, events: seq<Event>): nat
    decreases |events|
  {
    if events == [] then 0
    else
      var won := events[0].op.TryClaim? && h.breaker.BreakerHalfOpen? && Accepts(h, events[0].op, events[0].at);
      (if won then 1 else 0) + TrialsWon(After(h, events[0].op, events[0].at), events[1..])
  }

  /** Between two moments that free the slot, at most one claim wins a trial, and none
      does while a trial is already held. */
  lemma {:induction false} AtMostOneTrial(h: Health, events: seq<Event>)
    requires forall i :: 0 <= i < |events| ==> !FreesTrial(events[i].op)
    ensures TrialsWon(h, events) <= if h.trial then 0 else 1
    decreases |events|
  {
    if events != [] {
      var k := After(h, events[0].op, events[0].at);
      assert !FreesTrial(events[0].op);
      AtMostOneTrial(k, events[1..]);
    }
  }

  // ----- Lock collection is invisible -----

  /** The same methods on a connection that never deletes an expired lock. */
  function AfterKeeping(h: Health, op: Op, now: Time): Health {
    match op
    case CollectLocks(_) => h
    case MarkSuccess => After(h, op, now).(locks := h.locks)
    case _ => After(h, op, now)
  }

  function RunKeeping(h: Health, events: seq<Event>): Health
    decreases |events|
  {
    if events == [] then h else RunKeeping(AfterKeeping(h, events[0].op, events[0].at), events[1..])
  }

  /** Equal but for locks, and the locks block the same models from `now` on. */
  ghost predicate Indistinguishable(a: Health, b: Health, now: Time) {
    && b == a.(locks := b.locks)
    && forall m, t :: t >= now ==> (Live(a.locks, m, t) <==> Live(b.locks, m, t))
  }

  lemma AcceptedAlike(a: Health, b: Health, op: Op, now: Time)
    requires Indistinguishable(a, b, now)
    ensures Accepts(a, op, now) == Accepts(b, op, now)
  {
    if op.TryClaim? {
      assert Live(a.locks, op.wanted, now) <==> Live(b.locks, op.wanted, now);
    }
  }

  /** Only three calls touch the locks; each leaves them blocking the same models. */
  lemma LocksStayAlike(a: Health, b: Health, e: Event, model: string, t: Time)
    requires Accepts(a, e.op, e.at) == Accepts(b, e.op, e.at)
    requires b == a.(locks := b.locks) && t >= e.at
    requires e.op.CollectLocks? ==> e.op.reading <= e.at
    requires Live(a.locks, model, t) <==> Live(b.locks, model, t)
    ensures Live(After(a, e.op, e.at).locks, model, t) <==> Live(AfterKeeping(b, e.op, e.at).locks, model, t)
  {
    match e.op
    case OpenBreaker(_, _, _) =>
    case MarkSuccess =>
    case CollectLocks(_) =>
    case _ =>
      assert After(a, e.op, e.at).locks == a.locks && After(b, e.op, e.at).locks == b.locks;
  }

  lemma RestStaysEqual(a: Health, b: Health, op: Op, now: Time)
    requires Accepts(a, op, now) == Accepts(b, op, now)
    requires b == a.(locks := b.locks)
    ensures AfterKeeping(b, op, now) == After(a, op, now).(locks := AfterKeeping(b, op, now).locks)
  {
    if Accepts(a, op, now) {
      match op
      case MarkUsed =>
      case MarkSuccess =>
      case MarkAuthExpired =>
      case MarkRefreshing =>
      case MarkRefreshSuccess =>
      case MarkRefreshFailure(_) =>
      case OpenBreaker(_, _, _) =>
      case ToHalfOpen =>
      case TryClaim(_, _) =>
      case ReleaseTrial =>
      case ResetCooldown =>
      case Disable =>
      case Enable =>
      case RecordModelRejection(_) =>
      case SetLastError(_) =>
      case SetQuotaWindow(_) =>
      case CollectLocks(_) =>
    }
  }

  lemma StepIndistinguishable(a: Health, b: Health, start: Time, e: Event)
    requires Indistinguishable(a, b, start) && start <= e.at
    requires e.op.CollectLocks? ==> e.op.reading <= e.at
    ensures Accepts(a, e.op, e.at) == Accepts(b, e.op, e.at)
    ensures Indistinguishable(After(a, e.op, e.at), AfterKeeping(b, e.op, e.at), e.at)
  {
    AcceptedAlike(a, b, e.op, e.at);
    RestStaysEqual(a, b, e.op, e.at);
    forall m, t | t >= e.at
      ensures Live(After(a, e.op, e.at).locks, m, t) <==> Live(AfterKeeping(b, e.op, e.at).locks, m, t)
    {
      LocksStayAlike(a, b, e, m, t);
    }
  }

  /** Whatever the run, a connection that collects expired locks and one that never does
      accept the same calls and answer Selectable alike at every later time. */
  lemma {:induction false} CollectionInvisible(a: Health, b: Health, start: Time, events: seq<Event>)
    requires Indistinguishable(a, b, start) && Clocked(start, events)
    ensures Indistinguishable(Run(a, events), RunKeeping(b, events), EndOf(start, events))
    ensures forall model, permitted, t :: t >= EndOf(start, events) ==>
              Selectable(Run(a, events), model, permitted, t) == Selectable(RunKeeping(b, events), model, permitted, t)
    decreases |events|
  {
    if events != [] {
      StepIndistinguishable(a, b, start, events[0]);
      CollectionInvisible(After(a, events[0].op, events[0].at), AfterKeeping(b, events[0].op, events[0].at),
                          events[0].at, events[1..]);
    }
  }
}
