/** What a reply does to the connection it came over. */
module Replies {
  import opened Facets
  import opened Cooldown
  import opened Options
  import opened Connections
  import opened Fallback
  import opened Ordering
  import opened Selectors

  // Stated on the fields of the state a reply leaves, with the numbers of the source: a
  // rate limit waits 60 s doubled per failure in a row, at most 15 min; a transient failure 1 s
  // doubled, at most 2 min; a model that was rejected is denied for an hour.

  const MINUTES := 60 * 1_000_000_000

  function AtMost(a: int, limit: int): int {
    if a <= limit then a else limit
  }

  /** One more failure in a row; the sixteenth and later ones count as the fifteenth. */
  function Raised(level: int): int {
    if level < 15 then level + 1 else level
  }

  /** The breaker is OPEN, with a failure of this kind, until then; the credential, the denylist and
      the quota view are as before, and no request is in flight. */
  ghost predicate IsTripped(h: Health, k: Health, kind: FailureKind, until: Time, model: string) {
    && k.breaker.BreakerOpen? && k.failure == Some(kind) && k.cooldownUntil == until
    && k.backoff == Raised(h.backoff) && !k.trial && k.lifecycle.LifecycleIdle?
    && k.auth == h.auth && k.denylist == h.denylist && k.quota == h.quota && k.uses == h.uses
    && (forall m :: m in k.locks <==> m in h.locks || (m == model && m != ""))
    && (forall m :: m in k.locks ==> k.locks[m] == if m == model && m != "" then until else h.locks[m])
  }

  /** No request can claim the connection, and no health check up to then changes that. */
  ghost predicate IsOutUntil(k: Health, until: Time) {
    && (forall m, permitted, t :: !Claimable(k, m, permitted, t))
    && (forall t :: t <= until ==> Checked(k, t).breaker.BreakerOpen?)
    && (forall t :: t > until && until != ZERO_TIME ==> Checked(k, t).breaker.BreakerHalfOpen?)
  }

  lemma OpeningTrips(h: Health, kind: FailureKind, retryAfter: int, model: string, now: Time)
    requires h.lifecycle.LifecycleActive? && !h.breaker.BreakerOpen?
    ensures var k, until := After(h, OpenBreaker(kind, retryAfter, model), now),
                            now + CooldownFor(kind, Raised(h.backoff), retryAfter);
      IsTripped(h, k, kind, until, model) && IsOutUntil(k, until) && k.lastError == h.lastError
  {
  }

  /** 429: the breaker opens as rate-limited for the hint or, without one, for the doubled minute;
      the credential is not touched. On a breaker already OPEN nothing changes. */
  lemma RateLimitReply(h: Health, retryAfter: int, rejected: bool, model: string, now: Time)
    requires h.lifecycle.LifecycleActive? && 0 <= h.backoff <= 15
    ensures var k := Marked(h, Http(429, retryAfter, rejected), model, now);
      var until := now + if retryAfter > 0 then retryAfter else AtMost(1 * MINUTES * Pow2(Raised(h.backoff)), 15 * MINUTES);
      && (!h.breaker.BreakerOpen? ==> IsTripped(h, k, RateLimit, until, model) && IsOutUntil(k, until)
                                      && k.lastError == h.lastError)
      && (h.breaker.BreakerOpen? ==> k == h)
  {
    CooldownExact(RateLimit, Raised(h.backoff), retryAfter);
    if !h.breaker.BreakerOpen? {
      OpeningTrips(h, RateLimit, retryAfter, model, now);
    }
  }

  lemma TransientMark(h: Health, reply: Reply, model: string, now: Time) returns (noted: Health, hint: int)
    requires reply.Transport? || (reply.Http? && reply.status >= 500)
    ensures noted == h.(lastError := noted.lastError) && noted.lastError.Some?
    ensures Marked(h, reply, model, now) == After(noted, OpenBreaker(Transient, hint, model), now)
  {
    noted := h.(lastError := Some(if reply.Transport? then "transport error" else "upstream error"));
    hint := if reply.Http? then reply.retryAfter else 0;
  }

  /** A transport error or a 5xx: the same as a transient failure, which takes no hint. */
  lemma TransientReply(h: Health, reply: Reply, model: string, now: Time)
    requires h.lifecycle.LifecycleActive? && 0 <= h.backoff <= 15
    requires reply.Transport? || (reply.Http? && reply.status >= 500)
    ensures var k := Marked(h, reply, model, now);
      var until := now + AtMost(1_000_000_000 * Pow2(Raised(h.backoff)), 2 * MINUTES);
      && k.lastError.Some?
      && (!h.breaker.BreakerOpen? ==> IsTripped(h, k, Transient, until, model) && IsOutUntil(k, until))
      && (h.breaker.BreakerOpen? ==> k == h.(lastError := k.lastError))
  {
    var noted, hint := TransientMark(h, reply, model, now);
    CooldownExact(Transient, Raised(h.backoff), hint);
    if !h.breaker.BreakerOpen? {
      OpeningTrips(noted, Transient, hint, model, now);
    }
  }

  /** 401, 403 that is not about the model, and a failed preflight: the credential is expired, for
      the refresh loop to see; breaker, cooldown, locks and denylist are not touched. Active is
      left exactly if the credential was not expired already. */
  lemma CredentialReply(h: Health, reply: Reply, model: string, now: Time)
    requires h.lifecycle.LifecycleActive?
    requires reply.Preflight? || (reply.Http? && (reply.status == 401
                                  || (reply.status == 403 && !(model != "" && reply.modelRejected))))
    ensures var k := Marked(h, reply, model, now);
      && k.auth.AuthExpired?
      && k == h.(auth := AuthExpired, lifecycle := k.lifecycle, lastError := k.lastError)
      && k.lifecycle == (if h.auth.AuthExpired? then LifecycleActive else LifecycleIdle)
      && (reply.Preflight? ==> k.lastError.Some?) && (reply.Http? ==> k.lastError == h.lastError)
      && forall m, permitted, t :: !Claimable(k, m, permitted, t)
  {
  }

  /** The connection is free and its failures are forgotten; a HALF_OPEN breaker has closed, and
      expired locks are gone. */
  ghost predicate IsSettled(h: Health, k: Health, now: Time) {
    && k.lifecycle.LifecycleIdle? && !k.trial && k.backoff == 0 && k.uses == 0 && k.lastError.None?
    && k.breaker == (if h.breaker.BreakerHalfOpen? then BreakerClosed else h.breaker)
    && k.failure == (if h.breaker.BreakerHalfOpen? then None else h.failure)
    && k.auth == h.auth && k.quota == h.quota && k.cooldownUntil == h.cooldownUntil && k.lastUsedAt == h.lastUsedAt
    && (forall m :: m in k.locks <==> m in h.locks && now <= h.locks[m])
    && (forall m :: m in k.locks ==> k.locks[m] == h.locks[m])
  }

  /** 403 about the model: the connection is as after a success, and the model, no other, is denied
      for an hour. */
  lemma ModelRejectedReply(h: Health, retryAfter: int, model: string, now: Time)
    requires h.lifecycle.LifecycleActive? && model != ""
    ensures var k := Marked(h, Http(403, retryAfter, true), model, now);
      && IsSettled(h, k, now)
      && (forall m :: m in k.denylist <==> m in h.denylist || m == model)
      && (forall m :: m in k.denylist ==> k.denylist[m] == if m == model then now + 60 * MINUTES else h.denylist[m])
      && (forall permitted, t :: t < now + 60 * MINUTES ==> !Claimable(k, model, permitted, t))
  {
  }

  /** Every other answer, a success or an error of the request itself, settles the connection. */
  lemma OtherReply(h: Health, reply: Reply, model: string, now: Time)
    requires h.lifecycle.LifecycleActive?
    requires reply.Http? && reply.status < 500 && reply.status !in {401, 403, 429}
    ensures var k := Marked(h, reply, model, now);
      IsSettled(h, k, now) && k.denylist == h.denylist
  {
  }

  /** The selector reports a connection as rate-limited after a 429 on a breaker that was not OPEN, and
      after no other reply unless it was so before. */
  lemma OnlyRateLimitIsReported(v: View, reply: Reply, model: string, now: Time)
    requires v.health.lifecycle.LifecycleActive? && 0 <= v.health.backoff <= 15
    ensures var after := v.(health := Marked(v.health, reply, model, now));
      IsRateLimited(after) <==>
        IsRateLimited(v) || (reply.Http? && reply.status == 429 && !v.health.breaker.BreakerOpen?)
  {
    if reply.Transport? || (reply.Http? && reply.status >= 500) {
      TransientReply(v.health, reply, model, now);
    }
  }

  /** A reply falls through exactly when the connection, the credential or the upstream is to
      blame, not the request. */
  lemma FallsThroughExactlyWhen(reply: Reply)
    ensures FallsThrough(reply) <==>
      !reply.Http? || reply.status in {401, 403, 429} || reply.status == 500 || 502 <= reply.status <= 504
  {
  }

  /** What the caller is told is what the last reply was. */
  lemma ResultTells(reply: Reply)
    ensures ResultOf(reply) ==
      if reply.Http? then Response(reply.status) else if reply.Transport? then TransportError else PreflightError
  {
  }

  /** A reply that sends the request on leaves its connection unfit for the model, so no later
      selection at that moment gives it back, whether or not it was excluded. */
  lemma FallThroughShutsOut(h: Health, reply: Reply, model: string, now: Time)
    requires h.lifecycle.LifecycleActive? && FallsThrough(reply)
    ensures forall permitted :: !Selectable(Marked(h, reply, model, now), model, permitted, now)
  {
  }

  /** One that does not, short of a 5xx, leaves a healthy connection fit for it. */
  lemma FinalReplyKeepsFit(h: Health, reply: Reply, model: string, now: Time)
    requires h.lifecycle.LifecycleActive? && !FallsThrough(reply) && reply.status < 500
    requires !h.breaker.BreakerOpen? && h.auth.AuthValid?
    requires !Live(h.locks, model, now) && !Live(h.denylist, model, now)
    ensures Claimable(Marked(h, reply, model, now), model, true, now)
  {
  }
}
