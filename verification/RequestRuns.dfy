/** One request among all others: it tries no connection twice, and it ends. */
module RequestRuns {
  import opened Facets
  import opened Connections
  import opened KeyLists
  import opened Options
  import opened Protocol

  /** What holds of one request: it never tries a connection twice. */
  ghost predicate Orderly(th: Thread) {
    && (forall i, j :: 0 <= i < j < |th.attempted| ==> th.attempted[i] != th.attempted[j])
    && (forall i :: 0 <= i < |th.attempted| ==>
          th.attempted[i] in th.excluded || th.phase == InFlight(th.attempted[i]) || th.phase.Done?)
    && (th.phase.Claimed? ==> th.phase.at !in th.excluded + th.skipped)
    && (th.phase.InFlight? ==> th.phase.on !in th.excluded && th.skipped == {})
  }

  ghost predicate AllOrderly(s: System) {
    forall t :: t in s.threads ==> Orderly(s.threads[t])
  }

  lemma StepKeepsOrderly(s: System, step: Step)
    requires AllOrderly(s)
    ensures AllOrderly(Next(s, step))
  {
    var n := Next(s, step);
    forall t | t in n.threads
      ensures Orderly(n.threads[t])
    {
      if t in s.threads {
        assert Orderly(s.threads[t]);
      }
    }
  }

  /** Whatever the others do, a request makes at most one attempt per connection. */
  lemma {:induction false} OneAttemptPerConnection(s: System, steps: seq<Step>)
    requires Initial(s) || AllOrderly(s)
    ensures AllOrderly(Run(s, steps))
    decreases |steps|
  {
    if steps != [] {
      StepKeepsOrderly(s, steps[0]);
      OneAttemptPerConnection(Next(s, steps[0]), steps[1..]);
    }
  }

  /** `e` rounds of at most `3 * n + 4` steps each. */
  function Rounds(e: nat, n: nat): nat {
    if e == 0 then 0 else Rounds(e - 1, n) + 3 * n + 4
  }

  /** What is left for a request to do, as one number. */
  function Rank(ids: set<Id>, th: Thread): nat {
    var rounds, k := Rounds(|ids - th.excluded|, |ids|), |ids - th.excluded - th.skipped|;
    match th.phase
    case Choosing => rounds + 3 * k + 3
    case Claimed(_) => rounds + 3 * k + 2
    case Dropping(_) => rounds + 3 * k + 4
    case InFlight(_) => rounds
    case Done => 0
  }

  /** A step of request `t` other than being started and its deferred releases. */
  ghost predicate IsMoveOf(s: System, step: Step, t: Tid) {
    && Enabled(s, step.action, step.at) && ActorOf(step.action) == Some(t)
    && !step.action.Release? && !step.action.Spawn?
  }

  ghost function MovesOf(s: System, t: Tid, steps: seq<Step>): nat
    decreases |steps|
  {
    if steps == [] then 0
    else (if IsMoveOf(s, steps[0], t) then 1 else 0) + MovesOf(Next(s, steps[0]), t, steps[1..])
  }

  lemma {:induction false} RoundsMonotone(a: nat, b: nat, n: nat)
    requires a <= b
    ensures Rounds(a, n) <= Rounds(b, n)
    decreases b
  {
    if a < b {
      RoundsMonotone(a, b - 1, n);
    }
  }

  lemma RemovedOne<T>(whole: set<T>, gone: set<T>, x: T)
    requires x in whole && x !in gone
    ensures |whole - (gone + {x})| == |whole - gone| - 1
  {
    assert whole - (gone + {x}) == (whole - gone) - {x};
  }

  /** The request is in a phase from which it makes this move. */
  predicate CanMove(ids: set<Id>, p: Phase, a: Action) {
    match a
    case Spawn(_) => false
    case Release(_, _) => false
    case Background(_, _) => false
    case Claim(_, _, _, _) => p.Choosing?
    case Use(_) => p.Claimed? && p.at in ids
    case Drop(_) => p.Dropping?
    case GiveUp(_) => p.Choosing?
    case _ => p.InFlight? && p.on in ids
  }

  lemma RankDrops(ids: set<Id>, th: Thread, a: Action, accepted: bool)
    requires Orderly(th) && CanMove(ids, th.phase, a)
    ensures Rank(ids, Moved(th, a, accepted)) < Rank(ids, th)
  {
    match a {
      case Use(_) =>
        RemovedOne(ids - th.excluded, th.skipped, th.phase.at);
      case Mark(_, _, _) =>
        RemovedOne(ids, th.excluded, th.phase.on);
        SubsetCount(ids - (th.excluded + {th.phase.on}) - th.skipped, ids);
      case Abandon(_) =>
        RemovedOne(ids, th.excluded, th.phase.on);
      case _ =>
    }
  }

  /** The bound on the moves of a request not yet finished, `n` connections registered. */
  function Budget(s: System, t: Tid): nat {
    if t in s.threads then Rank(s.conns.Keys, s.threads[t]) else Rank(s.conns.Keys, NEW_THREAD)
  }

  lemma MoveSpendsBudget(s: System, t: Tid, step: Step)
    requires AllOrderly(s) && OwnedIsBusy(s) && IsMoveOf(s, step, t)
    ensures Budget(Next(s, step), t) < Budget(s, t)
  {
    var th := s.threads[t];
    assert Orderly(th);
    assert th.phase.InFlight? ==> Owns(s, t, th.phase.on);
    var accepted := CallAccepted(s, step.action, step.at);
    RankDrops(s.conns.Keys, th, step.action, accepted);
    assert Next(s, step).threads[t] == Moved(th, step.action, accepted);
  }

  /** No step of another actor, and no deferred release, changes where a request stands. */
  lemma OtherStepKeepsThread(s: System, t: Tid, step: Step)
    requires !IsMoveOf(s, step, t) && Enabled(s, step.action, step.at)
    ensures var n := Next(s, step);
      && (t in s.threads ==> t in n.threads && n.threads[t] == s.threads[t].(owed := n.threads[t].owed))
      && (t !in s.threads && t in n.threads ==> n.threads[t] == NEW_THREAD)
  {
  }

  lemma {:induction false} OtherStepKeepsBudget(s: System, t: Tid, step: Step)
    requires !IsMoveOf(s, step, t)
    ensures Budget(Next(s, step), t) == Budget(s, t)
  {
    if Enabled(s, step.action, step.at) {
      var n := Next(s, step);
      OtherStepKeepsThread(s, t, step);
      assert n.conns.Keys == s.conns.Keys;
      if t in s.threads {
        OwingNothing(s.conns.Keys, s.threads[t], n.threads[t].owed);
      }
    }
  }

  lemma OwingNothing(ids: set<Id>, th: Thread, owed: set<Id>)
    ensures Rank(ids, th.(owed := owed)) == Rank(ids, th)
  {
  }

  /** Whatever the others do, a request is over after a bounded number of moves: about
      3n^2 for `n` registered connections. No interference makes it retry forever. */
  lemma {:induction false} RequestTerminates(s: System, t: Tid, steps: seq<Step>)
    requires Exclusive(s) && AllOrderly(s) && OwnedIsBusy(s)
    ensures MovesOf(s, t, steps) + Budget(Run(s, steps), t) <= Budget(s, t)
    decreases |steps|
  {
    if steps != [] {
      StepKeepsOrderly(s, steps[0]);
      StepKeepsExclusion(s, steps[0]);
      if IsMoveOf(s, steps[0], t) {
        MoveSpendsBudget(s, t, steps[0]);
      } else {
        OtherStepKeepsBudget(s, t, steps[0]);
      }
      RequestTerminates(Next(s, steps[0]), t, steps[1..]);
    }
  }

  /** The bound spelt out for a request that has not started. */
  lemma NewRequestBudget(s: System, t: Tid)
    requires t !in s.threads
    ensures var n := |s.conns.Keys|; Budget(s, t) == 3 * n * n + 7 * n + 3
  {
    var n := |s.conns.Keys|;
    assert s.conns.Keys - {} == s.conns.Keys && s.conns.Keys - {} - {} == s.conns.Keys;
    RoundsClosed(n, n);
  }

  lemma {:induction false} RoundsClosed(e: nat, n: nat)
    ensures Rounds(e, n) == e * (3 * n + 4)
  {
    if e > 0 {
      RoundsClosed(e - 1, n);
    }
  }
}
