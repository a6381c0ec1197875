/** What a terminal mark settles, and how a connection is stranded. */
module Stranding {
  import opened Facets
  import opened Connections
  import opened Options
  import opened Protocol

  /** An attempt's terminal mark leaves the connection Idle exactly when it succeeded, or
      when it failed on a connection still Active whose facet could still move. */
  lemma MarkSettlesExactlyWhen(h: Health, outcome: Op, at: Time)
    requires IsTerminal(outcome) && !h.lifecycle.LifecycleIdle?
    ensures After(h, outcome, at).lifecycle.LifecycleIdle? <==>
            outcome.MarkSuccess?
            || (h.lifecycle.LifecycleActive? && outcome.OpenBreaker? && !h.breaker.BreakerOpen?)
            || (h.lifecycle.LifecycleActive? && outcome.MarkAuthExpired? && !h.auth.AuthExpired?)
  {
  }

  ghost predicate Stranded(s: System, c: Id) {
    c in s.conns && !s.conns[c].lifecycle.LifecycleIdle? && forall t :: !Owns(s, t, c)
  }

  lemma StepKeepsStranded(s: System, c: Id, step: Step)
    requires Stranded(s, c)
    ensures step.action != Background(c, Enable) ==> Stranded(Next(s, step), c)
    ensures step.action == Background(c, Enable) ==> Next(s, step).conns[c].lifecycle.LifecycleIdle?
    ensures step.action.Claim? && step.action.c == c ==> Next(s, step) == s
  {
    var n := Next(s, step);
    if Enabled(s, step.action, step.at) {
      var call := CallOf(s, step.action, step.at);
      if call.Some? {
        BusyUntilMarked(s.conns[call.value.0], call.value.1, step.at);
      }
      if step.action.Mark? {
        assert !Owns(s, step.action.t, c);
      }
    }
    forall t
      ensures !Owns(n, t, c)
    {
      assert !Owns(s, t, c);
    }
  }

  /** A busy connection without an owner never serves another request in any continuation in which
      the operator does not enable it. */
  lemma {:induction false} StrandedForever(s: System, c: Id, steps: seq<Step>)
    requires Stranded(s, c) && forall i :: 0 <= i < |steps| ==> steps[i].action != Background(c, Enable)
    ensures Stranded(Run(s, steps), c)
    decreases |steps|
  {
    if steps != [] {
      assert steps[0].action != Background(c, Enable);
      StepKeepsStranded(s, c, steps[0]);
      StrandedForever(Next(s, steps[0]), c, steps[1..]);
    }
  }

  /** The operator's Enable, possible at any time, makes it Idle again. */
  lemma OperatorRescues(s: System, c: Id, at: Time)
    requires Stranded(s, c)
    ensures Enabled(s, Background(c, Enable), at)
    ensures Next(s, Step(Background(c, Enable), at)).conns[c].lifecycle.LifecycleIdle?
  {
    assert !IsOwned(s, c);
    StepKeepsStranded(s, c, Step(Background(c, Enable), at));
  }

  lemma RunFour(s: System, a: Step, b: Step, c: Step, d: Step)
    ensures Run(s, [a, b, c, d]) == Next(Next(Next(Next(s, a), b), c), d)
  {
    assert [a, b, c, d][1..] == [b, c, d] && [b, c, d][1..] == [c, d];
    RunTwo(Next(Next(s, a), b), c, d);
  }

  /** The terminal marks of a failed attempt. */
  predicate IsFailure(op: Op) {
    op.OpenBreaker? || op.MarkAuthExpired?
  }

  /** The facet the failure moves cannot move any more. */
  predicate IsStuck(h: Health, failure: Op) {
    if failure.OpenBreaker? then h.breaker.BreakerOpen? else h.auth.AuthExpired?
  }

  lemma UseMakesOwner(s: System, c: Id, u: Tid, at: Time)
    requires Exclusive(s) && OwnedIsBusy(s) && Claims(s, u, c) && s.conns[c].lifecycle.LifecycleIdle?
    ensures var used := Next(s, Step(Use(u), at));
      && Exclusive(used) && OwnedIsBusy(used) && Owns(used, u, c)
      && used.conns.Keys == s.conns.Keys && used.conns[c] == After(s.conns[c], MarkUsed, at)
      && used.threads.Keys == s.threads.Keys
      && forall v :: v != u && v in s.threads ==> used.threads[v] == s.threads[v]
  {
    StepKeepsExclusion(s, Step(Use(u), at));
  }

  predicate Claims(s: System, t: Tid, c: Id) {
    t in s.threads && c in s.conns && s.threads[t].phase == Claimed(c)
  }

  /** A request holding a claim is sent whatever the breaker and the credential have become, for
      MarkUsed looks at neither; if it fails, the connection is stranded exactly when the facet its
      mark moves cannot move, and otherwise Idle. */
  lemma FailedUseStrandsExactlyWhen(s: System, c: Id, u: Tid, failure: Op, used: Time, marked: Time)
    requires Exclusive(s) && OwnedIsBusy(s) && Claims(s, u, c) && s.conns[c].lifecycle.LifecycleIdle?
    requires IsFailure(failure)
    ensures var n := Next(Next(s, Step(Use(u), used)), Step(Mark(u, failure, false), marked));
      && Exclusive(n) && OwnedIsBusy(n) && n.conns.Keys == s.conns.Keys
      && (Stranded(n, c) <==> IsStuck(s.conns[c], failure))
      && (n.conns[c].lifecycle.LifecycleIdle? <==> !IsStuck(s.conns[c], failure))
      && (n.conns[c].auth.AuthExpired? <==> s.conns[c].auth.AuthExpired? || failure.MarkAuthExpired?)
      && (n.conns[c].breaker.BreakerOpen? <==> s.conns[c].breaker.BreakerOpen? || failure.OpenBreaker?)
      && (forall v :: v != u && v in s.threads ==> v in n.threads && n.threads[v] == s.threads[v])
  {
    UseMakesOwner(s, c, u, used);
    var m := Next(s, Step(Use(u), used));
    var mark := Step(Mark(u, failure, false), marked);
    StepKeepsExclusion(m, mark);
    MarkSettlesExactlyWhen(m.conns[c], failure, marked);
    var n := Next(m, mark);
    forall v
      ensures !Owns(n, v, c)
    {
      assert Owns(n, v, c) ==> Owns(m, v, c);
    }
  }

  /** A healthy connection claimed by two requests at once, whose attempts both fail, whenever and
      with whatever hints: it is left Active with no owner exactly when both failures are of the
      same facet. */
  lemma RaceStrandsExactlyWhen(s: System, c: Id, t: Tid, u: Tid, first: Op, second: Op, times: seq<Time>)
    requires Exclusive(s) && OwnedIsBusy(s) && t != u && Claims(s, t, c) && Claims(s, u, c) && |times| == 4
    requires s.conns[c].lifecycle.LifecycleIdle? && !s.conns[c].breaker.BreakerOpen? && !s.conns[c].auth.AuthExpired?
    requires IsFailure(first) && IsFailure(second)
    ensures var n := Run(s, [Step(Use(t), times[0]), Step(Mark(t, first, false), times[1]),
                             Step(Use(u), times[2]), Step(Mark(u, second, false), times[3])]);
      && c in n.conns
      && (Stranded(n, c) <==> (first.OpenBreaker? <==> second.OpenBreaker?))
      && (n.conns[c].lifecycle.LifecycleIdle? <==> !Stranded(n, c))
  {
    var failed := Next(Next(s, Step(Use(t), times[0])), Step(Mark(t, first, false), times[1]));
    FailedUseStrandsExactlyWhen(s, c, t, first, times[0], times[1]);
    FailedUseStrandsExactlyWhen(failed, c, u, second, times[2], times[3]);
    RunFour(s, Step(Use(t), times[0]), Step(Mark(t, first, false), times[1]),
            Step(Use(u), times[2]), Step(Mark(u, second, false), times[3]));
  }

  /** Claims on a CLOSED breaker do not exclude each other. */
  lemma BothCanClaim(s: System, c: Id, t: Tid, u: Tid, at: Time)
    requires t != u && t in s.threads && u in s.threads && c in s.conns
    requires s.threads[t].phase.Choosing? && c !in s.threads[t].excluded + s.threads[t].skipped
    requires s.threads[u].phase.Choosing? && c !in s.threads[u].excluded + s.threads[u].skipped
    requires s.conns[c].breaker.BreakerClosed? && Claimable(s.conns[c], "", true, at)
    ensures var n := Next(Next(s, Step(Claim(t, c, "", true), at)), Step(Claim(u, c, "", true), at));
            n.threads[t].phase == n.threads[u].phase == Claimed(c) && n.conns == s.conns
  {
  }
}
