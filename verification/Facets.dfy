/** The three-facet connection-health model: transient health (breaker), credential
    validity (auth) and request lifecycle, each with its own table of legal moves. */
module Facets {

  datatype BreakerState = BreakerClosed | BreakerOpen | BreakerHalfOpen

  datatype AuthState = AuthValid | AuthExpired | AuthRefreshing

  datatype LifecycleState = LifecycleIdle | LifecycleActive | LifecycleDisabled

  datatype FailureKind = RateLimit | Quota | Transient | Errored

  /** The breaker's table: a self-loop is not a transition. */
  predicate CanTransitionBreaker(from: BreakerState, to: BreakerState) {
    match from
    case BreakerClosed => to == BreakerOpen
    case BreakerOpen => to == BreakerHalfOpen
    case BreakerHalfOpen => to == BreakerClosed || to == BreakerOpen
  }

  predicate CanTransitionAuth(from: AuthState, to: AuthState) {
    match from
    case AuthValid => to == AuthExpired || to == AuthRefreshing
    case AuthExpired => to == AuthRefreshing || to == AuthValid
    case AuthRefreshing => to == AuthValid || to == AuthExpired
  }

  predicate CanTransitionLifecycle(from: LifecycleState, to: LifecycleState) {
    match from
    case LifecycleIdle => to == LifecycleActive || to == LifecycleDisabled
    case LifecycleActive => to == LifecycleIdle || to == LifecycleDisabled
    case LifecycleDisabled => to == LifecycleIdle
  }
}
