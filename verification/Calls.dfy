/** The calls on a connection, field by field: which call changes what, and to what. The facets and the
    cooldown are given by their values, apart from the tables and the transition function. */
module Calls {
  import opened Facets
  import opened Cooldown
  import opened Options
  import opened Connections

  /** Which calls are accepted, by the state they meet. */
  lemma AcceptedExactlyWhen(h: Health, op: Op, now: Time)
    ensures Accepts(h, op, now) <==>
      match op
      case MarkUsed => h.lifecycle == LifecycleIdle
      case MarkSuccess => h.lifecycle != LifecycleIdle
      case MarkAuthExpired => h.auth != AuthExpired
      case MarkRefreshing => h.auth == AuthExpired
      case MarkRefreshSuccess => h.auth != AuthValid
      case MarkRefreshFailure(_) => h.auth != AuthExpired
      case OpenBreaker(_, _, _) => h.breaker != BreakerOpen
      case ToHalfOpen => h.breaker == BreakerOpen
      case TryClaim(model, permitted) =>
        && h.auth == AuthValid && h.lifecycle == LifecycleIdle
        && (h.breaker == BreakerClosed || (h.breaker == BreakerHalfOpen && !h.trial))
        && (model == "" || (permitted && (model !in h.locks || h.locks[model] <= now)
                                      && (model !in h.denylist || h.denylist[model] <= now)))
      case Disable => h.lifecycle != LifecycleDisabled
      case Enable => h.lifecycle != LifecycleIdle
      case _ => true
  {
  }

  /** The breaker opens on a failure, half-opens for a trial, closes when the trial succeeds, and is
      closed by the operator; no other call moves it. The failure kind goes with it. */
  lemma BreakerMoves(h: Health, op: Op, now: Time)
    requires Accepts(h, op, now)
    ensures var k := After(h, op, now);
      match op
      case OpenBreaker(kind, _, _) => k.breaker == BreakerOpen && k.failure == Some(kind)
      case ToHalfOpen => k.breaker == BreakerHalfOpen && k.failure == h.failure
      case ResetCooldown => k.breaker == BreakerClosed && k.failure == None
      case Enable => k.breaker == BreakerClosed && k.failure == None
      case MarkSuccess =>
        if h.breaker == BreakerHalfOpen then k.breaker == BreakerClosed && k.failure == None
        else k.breaker == h.breaker && k.failure == h.failure
      case _ => k.breaker == h.breaker && k.failure == h.failure
  {
  }

  /** The trial slot is taken by a claim on a HALF_OPEN breaker and given back by a release, a success,
      and every call that moves the breaker. */
  lemma TrialMoves(h: Health, op: Op, now: Time)
    requires Accepts(h, op, now)
    ensures After(h, op, now).trial ==
      if op.TryClaim? then h.trial || h.breaker == BreakerHalfOpen
      else if op in {ReleaseTrial, MarkSuccess, ToHalfOpen, ResetCooldown, Enable} || op.OpenBreaker? then false
      else h.trial
  {
  }

  lemma CooldownMoves(h: Health, op: Op, now: Time)
    requires Accepts(h, op, now)
    ensures var k := After(h, op, now);
      && k.cooldownUntil == (if op.OpenBreaker? then now + CooldownFor(op.kind, k.backoff, op.retryAfter)
                             else if op in {ResetCooldown, Enable} then 0 else h.cooldownUntil)
      && k.backoff == (if op.OpenBreaker? then (if h.backoff < 15 then h.backoff + 1 else h.backoff)
                       else if op in {MarkSuccess, MarkRefreshSuccess, ResetCooldown, Enable} then 0 else h.backoff)
  {
  }

  lemma AuthMoves(h: Health, op: Op, now: Time)
    requires Accepts(h, op, now)
    ensures After(h, op, now).auth ==
      if op == MarkAuthExpired || op.MarkRefreshFailure? then AuthExpired
      else if op == MarkRefreshing then AuthRefreshing
      else if op == MarkRefreshSuccess then AuthValid
      else h.auth
  {
  }

  /** A request begins with MarkUsed and ends with a success or a failure; a failure does not bring a
      disabled connection back. */
  lemma LifecycleMoves(h: Health, op: Op, now: Time)
    requires Accepts(h, op, now)
    ensures After(h, op, now).lifecycle ==
      if op == MarkUsed then LifecycleActive
      else if op == Disable then LifecycleDisabled
      else if op in {MarkSuccess, Enable} then LifecycleIdle
      else if (op.OpenBreaker? || op == MarkAuthExpired) && h.lifecycle == LifecycleActive then LifecycleIdle
      else h.lifecycle
  {
  }

  lemma UseMoves(h: Health, op: Op, now: Time)
    requires Accepts(h, op, now)
    ensures var k := After(h, op, now);
      && k.lastUsedAt == (if op == MarkUsed then now else h.lastUsedAt)
      && k.uses == (if op == MarkUsed then h.uses + 1 else if op == MarkSuccess then 0 else h.uses)
      && k.quota == (if op.SetQuotaWindow? then op.window else h.quota)
  {
  }

  /** The error is noted by a failed refresh, even one that is rejected, and when it is set; success of
      any kind and the operator's resets forget it. */
  lemma ErrorMoves(h: Health, op: Op, now: Time)
    ensures After(h, op, now).lastError ==
      if op.MarkRefreshFailure? then Some(op.cause)
      else if op.SetLastError? then Some(op.error)
      else if Accepts(h, op, now) && op in {MarkSuccess, MarkRefreshSuccess, ResetCooldown, Enable} then None
      else h.lastError
  {
  }

  /** A model is locked by a failure that names it, until the cooldown ends; locks that have expired are
      dropped by a success and by the health checker, and no other call lifts one: not even the
      operator's. */
  lemma LockMoves(h: Health, op: Op, now: Time, model: string)
    requires Accepts(h, op, now)
    ensures var k := After(h, op, now);
      if op.OpenBreaker? && op.model == model && model != "" then
        model in k.locks && k.locks[model] == k.cooldownUntil
      else
        var swept := if op == MarkSuccess then Some(now) else if op.CollectLocks? then Some(op.reading) else None;
        && (model in k.locks <==> model in h.locks && (swept.Some? ==> swept.value <= h.locks[model]))
        && (model in k.locks ==> k.locks[model] == h.locks[model])
  {
  }

  /** A model is denied for an hour by a rejection that names it; nothing takes the entry out. */
  lemma DenialMoves(h: Health, op: Op, now: Time, model: string)
    requires Accepts(h, op, now)
    ensures var k := After(h, op, now);
      if op == RecordModelRejection(model) && model != "" then
        model in k.denylist && k.denylist[model] == now + 3_600_000_000_000
      else
        (model in k.denylist <==> model in h.denylist) && (model in k.denylist ==> k.denylist[model] == h.denylist[model])
  {
  }

  /** A call that is rejected changes nothing, but for the error of a failed refresh. */
  lemma RejectedChangesNothing(h: Health, op: Op, now: Time)
    requires !Accepts(h, op, now)
    ensures After(h, op, now) == h.(lastError := After(h, op, now).lastError)
    ensures !op.MarkRefreshFailure? ==> After(h, op, now) == h
  {
  }

  /** A whole health check drops the locks that expired before it and, once the cooldown of an OPEN
      breaker is over, half-opens it with a free slot. */
  lemma CheckMoves(h: Health, now: Time)
    ensures var k := Checked(h, now);
      && k == h.(locks := k.locks, breaker := k.breaker, trial := k.trial)
      && (forall m :: m in k.locks <==> m in h.locks && now <= h.locks[m])
      && (forall m :: m in k.locks ==> k.locks[m] == h.locks[m])
      && (if h.breaker == BreakerOpen && h.cooldownUntil != 0 && h.cooldownUntil < now then
            k.breaker == BreakerHalfOpen && !k.trial
          else k.breaker == h.breaker && k.trial == h.trial)
  {
  }
}
