/** One upstream connection, as a value and as a class. */
module Connections {
  import opened Facets
  import opened Cooldown
  import opened Options

  // `Health` is the mutable part of a connection as a value, `Op` names its atomic methods, and
  // `Accepts` and `After` say when a method succeeds and what state it leaves. The class performs
  // the same methods field by field.

  /** A clock reading in nanoseconds; 0 is the zero time, which no clock shows. */
  type Time = int

  const ZERO_TIME: Time := 0
  const DENYLIST_TTL := 3600 * SECOND

  /** The upstream's own view of its quota; -1 left means that it did not say. */
  datatype QuotaWindow = QuotaWindow(remaining: int, resetAt: Time, known: bool)

  const NO_QUOTA := QuotaWindow(0, ZERO_TIME, false)

  datatype Health = Health(
    breaker: BreakerState,
    auth: AuthState,
    lifecycle: LifecycleState,
    failure: Option<FailureKind>,
    trial: bool,
    lastUsedAt: Time,
    uses: nat,
    locks: map<string, Time>,
    cooldownUntil: Time,
    backoff: int,
    lastError: Option<string>,
    denylist: map<string, Time>,
    quota: QuotaWindow)

  const FRESH := Health(BreakerClosed, AuthValid, LifecycleIdle, None, false, ZERO_TIME, 0,
                        map[], ZERO_TIME, 0, None, map[], NO_QUOTA)

  datatype Op =
    | MarkUsed
    | MarkSuccess
    | MarkAuthExpired
    | MarkRefreshing
    | MarkRefreshSuccess
    | MarkRefreshFailure(cause: string)
    | OpenBreaker(kind: FailureKind, retryAfter: int, model: string)
    | ToHalfOpen
    | TryClaim(wanted: string, permitted: bool)
    | ReleaseTrial
    | ResetCooldown
    | Disable
    | Enable
    | RecordModelRejection(rejected: string)
    | SetLastError(error: string)
    | SetQuotaWindow(window: QuotaWindow)
    | CollectLocks(reading: Time)

  /** A rate-limit lock or denylist entry that still blocks `model` at time `now`. */
  predicate Live(entries: map<string, Time>, model: string, now: Time) {
    model in entries && now < entries[model]
  }

  /** `permitted` is the subscription allowlist's answer for this connection and model. */
  predicate Selectable(h: Health, model: string, permitted: bool, now: Time) {
    && !h.breaker.BreakerOpen?
    && h.auth.AuthValid?
    && h.lifecycle.LifecycleIdle?
    && (model != "" ==>
          && !Live(h.locks, model, now)
          && !Live(h.denylist, model, now)
          && permitted)
  }

  /** Selectable, and no other request holds the single HALF_OPEN trial slot. */
  predicate Claimable(h: Health, model: string, permitted: bool, now: Time) {
    Selectable(h, model, permitted, now) && !(h.breaker.BreakerHalfOpen? && h.trial)
  }

  /** Locks that have expired before `now` are dropped; a lock expiring at `now` stays. */
  function Unexpired(locks: map<string, Time>, now: Time): map<string, Time> {
    map m | m in locks && now <= locks[m] :: locks[m]
  }

  predicate Accepts(h: Health, op: Op, now: Time) {
    match op
    case MarkUsed => CanTransitionLifecycle(h.lifecycle, LifecycleActive)
    case MarkSuccess => CanTransitionLifecycle(h.lifecycle, LifecycleIdle)
    case MarkAuthExpired => CanTransitionAuth(h.auth, AuthExpired)
    case MarkRefreshing => h.auth.AuthExpired?
    case MarkRefreshSuccess => CanTransitionAuth(h.auth, AuthValid)
    case MarkRefreshFailure(_) => CanTransitionAuth(h.auth, AuthExpired)
    case OpenBreaker(_, _, _) => CanTransitionBreaker(h.breaker, BreakerOpen)
    case ToHalfOpen => CanTransitionBreaker(h.breaker, BreakerHalfOpen)
    case TryClaim(model, permitted) => Claimable(h, model, permitted, now)
    case Disable => CanTransitionLifecycle(h.lifecycle, LifecycleDisabled)
    case Enable => CanTransitionLifecycle(h.lifecycle, LifecycleIdle)
    case _ => true
  }

  /** An Active connection returns to Idle; any other lifecycle is kept. */
  function Settle(l: LifecycleState): LifecycleState {
    if l.LifecycleActive? then LifecycleIdle else l
  }

  function NextLevel(level: int): int {
    if level < MAX_BACKOFF_LEVEL then level + 1 else level
  }

  /** A blank model takes no lock. */
  function WithLock(locks: map<string, Time>, model: string, until: Time): map<string, Time> {
    if model != "" then locks[model := until] else locks
  }

  function Opened(h: Health, kind: FailureKind, retryAfter: int, model: string, now: Time): Health {
    var level := NextLevel(h.backoff);
    var until := now + CooldownFor(kind, level, retryAfter);
    h.(breaker := BreakerOpen, failure := Some(kind), backoff := level, cooldownUntil := until,
       locks := WithLock(h.locks, model, until),
       lifecycle := Settle(h.lifecycle), trial := false)
  }

  /** A claim takes the trial slot of a HALF_OPEN breaker and nothing of a CLOSED one. */
  function WithTrial(h: Health): Health {
    h.(trial := h.trial || h.breaker.BreakerHalfOpen?)
  }

  function Reset(h: Health): Health {
    h.(breaker := BreakerClosed, failure := None, cooldownUntil := ZERO_TIME, backoff := 0,
       lastError := None, trial := false)
  }

  function Succeeded(h: Health): Health {
    var closing := h.breaker.BreakerHalfOpen?;
    h.(lifecycle := LifecycleIdle,
       breaker := if closing then BreakerClosed else h.breaker,
       failure := if closing then None else h.failure,
       trial := false, backoff := 0, lastError := None, uses := 0)
  }

  function After(h: Health, op: Op, now: Time): Health {
    if !Accepts(h, op, now) then
      if op.MarkRefreshFailure? then h.(lastError := Some(op.cause)) else h
    else
      match op
      case MarkUsed => h.(lifecycle := LifecycleActive, lastUsedAt := now, uses := h.uses + 1)
      case MarkSuccess => Succeeded(h).(locks := Unexpired(h.locks, now))
      case MarkAuthExpired => h.(auth := AuthExpired, lifecycle := Settle(h.lifecycle))
      case MarkRefreshing => h.(auth := AuthRefreshing)
      case MarkRefreshSuccess => h.(auth := AuthValid, backoff := 0, lastError := None)
      case MarkRefreshFailure(cause) => h.(auth := AuthExpired, lastError := Some(cause))
      case OpenBreaker(kind, retryAfter, model) => Opened(h, kind, retryAfter, model, now)
      case ToHalfOpen => h.(breaker := BreakerHalfOpen, trial := false)
      case TryClaim(_, _) => WithTrial(h)
      case ReleaseTrial => h.(trial := false)
      case ResetCooldown => Reset(h)
      case Disable => h.(lifecycle := LifecycleDisabled)
      case Enable => Reset(h).(lifecycle := LifecycleIdle)
      case RecordModelRejection(model) =>
        if model == "" then h else h.(denylist := h.denylist[model := now + DENYLIST_TTL])
      case SetLastError(error) => h.(lastError := Some(error))
      case SetQuotaWindow(window) => h.(quota := window)
      case CollectLocks(reading) => h.(locks := Unexpired(h.locks, reading))
  }

  /** The timer-driven recovery test of the health checker. */
  predicate CooldownElapsed(h: Health, now: Time) {
    h.breaker.BreakerOpen? && h.cooldownUntil != ZERO_TIME && now > h.cooldownUntil
  }

  /** A whole health check with nothing else running in between. */
  function Checked(h: Health, now: Time): Health {
    var swept := After(h, CollectLocks(now), now);
    if CooldownElapsed(h, now) then After(swept, ToHalfOpen, now) else swept
  }

  class Connection {
    const id: string
    const priority: int
    const allowlist: string -> bool
    var breaker: BreakerState
    var auth: AuthState
    var lifecycle: LifecycleState
    var failureKind: Option<FailureKind>
    var halfOpenInFlight: bool
    var lastUsedAt: Time
    var consecutiveUses: nat
    var modelLocks: map<string, Time>
    var cooldownUntil: Time
    var backoffLevel: int
    var lastError: Option<string>
    var modelDenylist: map<string, Time>
    var quotaWindow: QuotaWindow

    function State(): Health
      reads this
    {
      Health(breaker, auth, lifecycle, failureKind, halfOpenInFlight, lastUsedAt, consecutiveUses,
             modelLocks, cooldownUntil, backoffLevel, lastError, modelDenylist, quotaWindow)
    }

    constructor (id: string, priority: int, allowlist: string -> bool)
      ensures State() == FRESH
      ensures this.id == id && this.priority == priority && this.allowlist == allowlist
    {
      this.id, this.priority, this.allowlist := id, priority, allowlist;
      breaker, auth, lifecycle := BreakerClosed, AuthValid, LifecycleIdle;
      failureKind, halfOpenInFlight := None, false;
      lastUsedAt, consecutiveUses, cooldownUntil, backoffLevel := ZERO_TIME, 0, ZERO_TIME, 0;
      lastError, quotaWindow := None, NO_QUOTA;
      modelLocks, modelDenylist := map[], map[];
    }

    /** What any number of calls by other actors may amount to. */
    method Become(h: Health)
      modifies this
      ensures State() == h
    {
      breaker, auth, lifecycle, failureKind, halfOpenInFlight := h.breaker, h.auth, h.lifecycle, h.failure, h.trial;
      lastUsedAt, consecutiveUses, modelLocks := h.lastUsedAt, h.uses, h.locks;
      cooldownUntil, backoffLevel, lastError := h.cooldownUntil, h.backoff, h.lastError;
      modelDenylist, quotaWindow := h.denylist, h.quota;
    }

    method IsSelectable(model: string, now: Time) returns (r: bool)
      ensures r == Selectable(State(), model, allowlist(model), now)
    {
      if breaker != BreakerClosed && breaker != BreakerHalfOpen {
        return false;
      }
      if auth != AuthValid {
        return false;
      }
      if lifecycle != LifecycleIdle {
        return false;
      }
      if model == "" {
        return true;
      }
      if model in modelLocks && now < modelLocks[model] {
        return false;
      }
      if model in modelDenylist && now < modelDenylist[model] {
        return false;
      }
      return allowlist(model);
    }

    method TryClaimHalfOpenTrial(model: string, now: Time) returns (ok: bool)
      modifies this
      ensures ok == Claimable(old(State()), model, allowlist(model), now)
      ensures State() == if ok then WithTrial(old(State())) else old(State())
    {
      var selectable := IsSelectable(model, now);
      if !selectable {
        return false;
      }
      if breaker == BreakerHalfOpen {
        if halfOpenInFlight {
          return false;
        }
        halfOpenInFlight := true;
      }
      return true;
    }

    method ReleaseHalfOpenTrial(now: Time)
      modifies this
      ensures State() == After(old(State()), ReleaseTrial, now)
    {
      halfOpenInFlight := false;
    }

    method MarkUsed(now: Time) returns (ok: bool)
      modifies this
      ensures ok == Accepts(old(State()), Op.MarkUsed, now)
      ensures State() == After(old(State()), Op.MarkUsed, now)
    {
      if !CanTransitionLifecycle(lifecycle, LifecycleActive) {
        return false;
      }
      lifecycle := LifecycleActive;
      lastUsedAt := now;
      consecutiveUses := consecutiveUses + 1;
      return true;
    }

    /** Drops every lock that expired before `now`. */
    method CollectExpiredLocks(now: Time)
      modifies this
      ensures State() == old(State()).(locks := Unexpired(old(modelLocks), now))
    {
      var pending := modelLocks.Keys;
      while pending != {}
        invariant pending <= modelLocks.Keys <= old(modelLocks).Keys
        invariant forall m :: m in old(modelLocks) ==>
                                (m in modelLocks <==> m in pending || now <= old(modelLocks)[m])
        invariant forall m :: m in modelLocks ==> modelLocks[m] == old(modelLocks)[m]
        invariant State().(locks := old(modelLocks)) == old(State())
        decreases pending
      {
        var m :| m in pending;
        pending := pending - {m};
        if now > modelLocks[m] {
          modelLocks := modelLocks - {m};
        }
      }
      assert modelLocks == Unexpired(old(modelLocks), now);
    }

    method MarkSuccess(now: Time) returns (ok: bool)
      modifies this
      ensures ok == Accepts(old(State()), Op.MarkSuccess, now)
      ensures State() == After(old(State()), Op.MarkSuccess, now)
    {
      if !CanTransitionLifecycle(lifecycle, LifecycleIdle) {
        return false;
      }
      lifecycle := LifecycleIdle;
      if breaker == BreakerHalfOpen {
        breaker := BreakerClosed;
        failureKind := None;
      }
      halfOpenInFlight := false;
      backoffLevel := 0;
      lastError := None;
      consecutiveUses := 0;
      assert State() == Succeeded(old(State()));
      CollectExpiredLocks(now);
      return true;
    }

    /** The request that was in flight, if any, is over. */
    method ReturnToIdle()
      modifies `lifecycle
      ensures lifecycle == Settle(old(lifecycle))
    {
      if lifecycle == LifecycleActive {
        lifecycle := LifecycleIdle;
      }
    }

    method MarkAuthExpired(now: Time) returns (ok: bool)
      modifies this
      ensures ok == Accepts(old(State()), Op.MarkAuthExpired, now)
      ensures State() == After(old(State()), Op.MarkAuthExpired, now)
    {
      if !CanTransitionAuth(auth, AuthExpired) {
        return false;
      }
      auth := AuthExpired;
      ReturnToIdle();
      return true;
    }

    method MarkRefreshing(now: Time) returns (ok: bool)
      modifies this
      ensures ok == Accepts(old(State()), Op.MarkRefreshing, now)
      ensures State() == After(old(State()), Op.MarkRefreshing, now)
    {
      if auth != AuthExpired {
        return false;
      }
      auth := AuthRefreshing;
      return true;
    }

    method MarkRefreshSuccess(now: Time) returns (ok: bool)
      modifies this
      ensures ok == Accepts(old(State()), Op.MarkRefreshSuccess, now)
      ensures State() == After(old(State()), Op.MarkRefreshSuccess, now)
    {
      if !CanTransitionAuth(auth, AuthValid) {
        return false;
      }
      auth := AuthValid;
      backoffLevel := 0;
      lastError := None;
      return true;
    }

    method MarkRefreshFailure(cause: string, now: Time) returns (ok: bool)
      modifies this
      ensures ok == Accepts(old(State()), Op.MarkRefreshFailure(cause), now)
      ensures State() == After(old(State()), Op.MarkRefreshFailure(cause), now)
    {
      lastError := Some(cause);
      if !CanTransitionAuth(auth, AuthExpired) {
        return false;
      }
      auth := AuthExpired;
      return true;
    }

    method Trip(kind: FailureKind, retryAfter: int, now: Time)
      modifies `breaker, `failureKind, `backoffLevel, `cooldownUntil
      ensures breaker.BreakerOpen? && failureKind == Some(kind) && backoffLevel == NextLevel(old(backoffLevel))
      ensures cooldownUntil == now + CooldownFor(kind, backoffLevel, retryAfter)
    {
      breaker := BreakerOpen;
      failureKind := Some(kind);
      if backoffLevel < MAX_BACKOFF_LEVEL {
        backoffLevel := backoffLevel + 1;
      }
      cooldownUntil := now + CooldownFor(kind, backoffLevel, retryAfter);
    }

    method LockModel(model: string, until: Time)
      modifies `modelLocks
      ensures modelLocks == WithLock(old(modelLocks), model, until)
    {
      if model != "" {
        modelLocks := modelLocks[model := until];
      }
    }

    method OpenBreaker(kind: FailureKind, retryAfter: int, model: string, now: Time) returns (ok: bool)
      modifies this
      ensures ok == Accepts(old(State()), Op.OpenBreaker(kind, retryAfter, model), now)
      ensures State() == After(old(State()), Op.OpenBreaker(kind, retryAfter, model), now)
    {
      if !CanTransitionBreaker(breaker, BreakerOpen) {
        return false;
      }
      Trip(kind, retryAfter, now);
      LockModel(model, cooldownUntil);
      halfOpenInFlight := false;
      ReturnToIdle();
      return true;
    }

    method ToHalfOpen(now: Time) returns (ok: bool)
      modifies this
      ensures ok == Accepts(old(State()), Op.ToHalfOpen, now)
      ensures State() == After(old(State()), Op.ToHalfOpen, now)
    {
      if !CanTransitionBreaker(breaker, BreakerHalfOpen) {
        return false;
      }
      breaker := BreakerHalfOpen;
      halfOpenInFlight := false;
      return true;
    }

    method ResetCooldown(now: Time)
      modifies this
      ensures State() == After(old(State()), Op.ResetCooldown, now)
    {
      breaker := BreakerClosed;
      failureKind := None;
      cooldownUntil := ZERO_TIME;
      backoffLevel := 0;
      lastError := None;
      halfOpenInFlight := false;
    }

    method Disable(now: Time) returns (ok: bool)
      modifies this
      ensures ok == Accepts(old(State()), Op.Disable, now)
      ensures State() == After(old(State()), Op.Disable, now)
    {
      if !CanTransitionLifecycle(lifecycle, LifecycleDisabled) {
        return false;
      }
      lifecycle := LifecycleDisabled;
      return true;
    }

    method Enable(now: Time) returns (ok: bool)
      modifies this
      ensures ok == Accepts(old(State()), Op.Enable, now)
      ensures State() == After(old(State()), Op.Enable, now)
    {
      if !CanTransitionLifecycle(lifecycle, LifecycleIdle) {
        return false;
      }
      lifecycle := LifecycleIdle;
      ResetCooldown(now);
      return true;
    }

    method RecordModelRejection(model: string, now: Time)
      modifies this
      ensures State() == After(old(State()), Op.RecordModelRejection(model), now)
    {
      if model == "" {
        return;
      }
      modelDenylist := modelDenylist[model := now + DENYLIST_TTL];
    }

    method SetLastError(error: string, now: Time)
      modifies this
      ensures State() == After(old(State()), Op.SetLastError(error), now)
    {
      lastError := Some(error);
    }

    method SetQuotaWindow(window: QuotaWindow, now: Time)
      modifies this
      ensures State() == After(old(State()), Op.SetQuotaWindow(window), now)
    {
      quotaWindow := window;
    }

    /** The health checker's work on one connection, run without interference: lock
        collection in one critical section, then the OPEN to HALF_OPEN step. */
    method CheckConnection(now: Time)
      modifies this
      ensures State() == Checked(old(State()), now)
    {
      var seen := breaker;
      var cooldownElapsed := cooldownUntil != ZERO_TIME && now > cooldownUntil;
      CollectExpiredLocks(now);
      if seen == BreakerOpen && cooldownElapsed {
        var _ := ToHalfOpen(now);
      }
    }
  }
}
