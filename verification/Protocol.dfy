/** Every interleaving of request threads with all other actors. */
module Protocol {
  import opened Facets
  import opened Connections
  import opened Options

  // The other actors are the health checker, the refresh loop and the operator. Each step is one
  // atomic method call on one connection; a request is a sequence of such steps, and any other
  // actor may run between two of them.

  type Id = string
  type Tid = nat

  /** Where a request is. `Dropping` is the moment between losing the race for a claimed
      connection and giving its trial slot back. */
  datatype Phase = Choosing | Claimed(at: Id) | Dropping(lost: Id) | InFlight(on: Id) | Done

  /** `excluded` are the connections this request already tried, `skipped` the ones lost in
      the selection under way, `owed` those whose deferred release has not fired yet. */
  datatype Thread = Thread(phase: Phase, excluded: set<Id>, skipped: set<Id>, attempted: seq<Id>, owed: set<Id>)

  datatype System = System(conns: map<Id, Health>, threads: map<Tid, Thread>)

  datatype Action =
    | Spawn(t: Tid)
    | Claim(t: Tid, c: Id, model: string, permitted: bool)
    | Use(t: Tid)
    | Drop(t: Tid)
    | GiveUp(t: Tid)
    | Mark(t: Tid, outcome: Op, again: bool)
    | Abandon(t: Tid)
    | Release(t: Tid, c: Id)
    | Background(c: Id, op: Op)

  datatype Step = Step(action: Action, at: Time)

  const NEW_THREAD := Thread(Choosing, {}, {}, [], {})

  /** The transitions that end an attempt: success (also after a model rejection or a
      failed store lookup), a breaker failure, or an authentication failure. */
  predicate IsTerminal(op: Op) {
    op.MarkSuccess? || op.OpenBreaker? || op.MarkAuthExpired?
  }

  /** What the other actors may call: everything but the request path's own transitions. */
  predicate IsBackground(op: Op) {
    !IsTerminal(op) && !op.MarkUsed? && !op.TryClaim?
  }

  /** A request is in flight on the connection. */
  predicate Owns(s: System, t: Tid, c: Id) {
    t in s.threads && s.threads[t].phase == InFlight(c)
  }

  ghost predicate IsOwned(s: System, c: Id) {
    exists t :: Owns(s, t, c)
  }

  /** Which steps are possible. The operator enables a connection only while no request is in
      flight on it; `EnableIsSafeExactlyWhen` says why. */
  ghost predicate Enabled(s: System, a: Action, at: Time) {
    match a
    case Spawn(t) => t !in s.threads
    case Claim(t, c, model, permitted) =>
      && t in s.threads && s.threads[t].phase.Choosing? && c in s.conns
      && c !in s.threads[t].excluded + s.threads[t].skipped
      && Accepts(s.conns[c], TryClaim(model, permitted), at)
    case Use(t) => t in s.threads && s.threads[t].phase.Claimed? && s.threads[t].phase.at in s.conns
    case Drop(t) => t in s.threads && s.threads[t].phase.Dropping? && s.threads[t].phase.lost in s.conns
    case GiveUp(t) => t in s.threads && s.threads[t].phase.Choosing?
    case Mark(t, outcome, _) =>
      t in s.threads && s.threads[t].phase.InFlight? && s.threads[t].phase.on in s.conns && IsTerminal(outcome)
    case Abandon(t) => t in s.threads && s.threads[t].phase.InFlight?
    case Release(t, c) => t in s.threads && c in s.threads[t].owed && c in s.conns
    case Background(c, op) => c in s.conns && IsBackground(op) && (op.Enable? ==> !IsOwned(s, c))
  }

  function Call(s: System, c: Id, op: Op, at: Time): System
    requires c in s.conns
  {
    s.(conns := s.conns[c := After(s.conns[c], op, at)])
  }

  /** The one call a step makes, if any; a failed MarkUsed is a call too. */
  ghost function CallOf(s: System, a: Action, at: Time): (r: Option<(Id, Op)>)
    requires Enabled(s, a, at)
    ensures r.Some? ==> r.value.0 in s.conns
  {
    match a
    case Claim(t, c, model, permitted) => Some((c, TryClaim(model, permitted)))
    case Use(t) => Some((s.threads[t].phase.at, MarkUsed))
    case Drop(t) => Some((s.threads[t].phase.lost, ReleaseTrial))
    case Mark(t, outcome, _) => Some((s.threads[t].phase.on, outcome))
    case Release(t, c) => Some((c, ReleaseTrial))
    case Background(c, op) => Some((c, op))
    case _ => None
  }

  /** The request a step belongs to. */
  function ActorOf(a: Action): Option<Tid> {
    match a
    case Spawn(t) => Some(t)
    case Claim(t, _, _, _) => Some(t)
    case Use(t) => Some(t)
    case Drop(t) => Some(t)
    case GiveUp(t) => Some(t)
    case Mark(t, _, _) => Some(t)
    case Abandon(t) => Some(t)
    case Release(t, _) => Some(t)
    case Background(_, _) => None
  }

  /** What the step does to its request, given whether the call was accepted. */
  function Moved(th: Thread, a: Action, accepted: bool): Thread {
    match a
    case Claim(_, c, _, _) => th.(phase := Claimed(c))
    case Use(_) =>
      if !th.phase.Claimed? then th
      else if accepted then
        th.(phase := InFlight(th.phase.at), skipped := {}, attempted := th.attempted + [th.phase.at],
            owed := th.owed + {th.phase.at})
      else th.(phase := Dropping(th.phase.at), skipped := th.skipped + {th.phase.at})
    case Drop(_) => th.(phase := Choosing)
    case Mark(_, _, again) =>
      if !th.phase.InFlight? then th
      else th.(phase := if again then Choosing else Done, excluded := th.excluded + {th.phase.on})
    case Release(_, c) => th.(owed := th.owed - {c})
    case GiveUp(_) => th.(phase := Done)
    case Abandon(_) => th.(phase := Done)
    case _ => th
  }

  ghost predicate CallAccepted(s: System, a: Action, at: Time)
    requires Enabled(s, a, at)
  {
    var call := CallOf(s, a, at);
    call.Some? ==> Accepts(s.conns[call.value.0], call.value.1, at)
  }

  ghost function ConnsAfter(s: System, a: Action, at: Time): (r: map<Id, Health>)
    requires Enabled(s, a, at)
    ensures r.Keys == s.conns.Keys
  {
    var call := CallOf(s, a, at);
    if call.None? then s.conns else s.conns[call.value.0 := After(s.conns[call.value.0], call.value.1, at)]
  }

  ghost function ThreadsAfter(s: System, a: Action, at: Time): map<Tid, Thread>
    requires Enabled(s, a, at)
  {
    match ActorOf(a)
    case None => s.threads
    case Some(t) =>
      s.threads[t := if a.Spawn? then NEW_THREAD else Moved(s.threads[t], a, CallAccepted(s, a, at))]
  }

  /** One atomic step; a step that is not possible leaves the system as it is. */
  ghost function Next(s: System, step: Step): System {
    if !Enabled(s, step.action, step.at) then s
    else System(ConnsAfter(s, step.action, step.at), ThreadsAfter(s, step.action, step.at))
  }

  ghost function Run(s: System, steps: seq<Step>): System
    decreases |steps|
  {
    if steps == [] then s else Run(Next(s, steps[0]), steps[1..])
  }

  /** No requests yet, and no connection already serving one. */
  predicate Initial(s: System) {
    s.threads == map[] && forall c :: c in s.conns ==> !s.conns[c].lifecycle.LifecycleActive?
  }

  // ----- Mutual exclusion -----

  ghost predicate Exclusive(s: System) {
    forall c, t, u :: Owns(s, t, c) && Owns(s, u, c) ==> t == u
  }

  /** The inductive core: an Idle connection has no owner. */
  ghost predicate OwnedIsBusy(s: System) {
    forall t, c :: Owns(s, t, c) ==> c in s.conns && !s.conns[c].lifecycle.LifecycleIdle?
  }

  /** Only a terminal mark or Enable can make a busy connection Idle. */
  lemma BusyUntilMarked(h: Health, op: Op, at: Time)
    ensures !h.lifecycle.LifecycleIdle? && After(h, op, at).lifecycle.LifecycleIdle? ==> IsTerminal(op) || op.Enable?
  {
  }

  lemma StepKeepsExclusion(s: System, step: Step)
    requires Exclusive(s) && OwnedIsBusy(s)
    ensures Exclusive(Next(s, step)) && OwnedIsBusy(Next(s, step))
  {
    var n := Next(s, step);
    if !Enabled(s, step.action, step.at) {
      return;
    }
    var call := CallOf(s, step.action, step.at);
    forall t, c | Owns(n, t, c)
      ensures Owns(s, t, c) || (step.action == Use(t) && s.conns[c].lifecycle.LifecycleIdle?)
      ensures c in n.conns && !n.conns[c].lifecycle.LifecycleIdle?
    {
      if call.Some? {
        BusyUntilMarked(s.conns[call.value.0], call.value.1, step.at);
      }
      if step.action.Mark? {
        assert Owns(s, step.action.t, s.threads[step.action.t].phase.on);
      }
      if step.action.Background? {
        assert Owns(s, t, c) && IsOwned(s, c);
      }
    }
  }

  /** In every interleaving at most one request is in flight on a connection. */
  lemma {:induction false} AtMostOneInFlight(s: System, steps: seq<Step>)
    requires Initial(s) || (Exclusive(s) && OwnedIsBusy(s))
    ensures Exclusive(Run(s, steps)) && OwnedIsBusy(Run(s, steps))
    decreases |steps|
  {
    if steps != [] {
      StepKeepsExclusion(s, steps[0]);
      AtMostOneInFlight(Next(s, steps[0]), steps[1..]);
    }
  }

  lemma RunTwo(s: System, a: Step, b: Step)
    ensures Run(s, [a, b]) == Next(Next(s, a), b)
  {
    assert [a, b][1..] == [b] && [b][1..] == [];
    assert Run(Next(s, a), [b]) == Run(Next(Next(s, a), b), []);
  }

  /** An Enable that is accepted keeps the inductive core exactly when no request is in flight on
      the connection. */
  lemma EnableIsSafeExactlyWhen(s: System, c: Id, at: Time)
    requires c in s.conns && OwnedIsBusy(s) && Accepts(s.conns[c], Enable, at)
    ensures OwnedIsBusy(Call(s, c, Enable, at)) <==> !IsOwned(s, c)
  {
    var n := Call(s, c, Enable, at);
    forall t, d
      ensures Owns(n, t, d) <==> Owns(s, t, d)
    {
    }
    if t :| Owns(s, t, c) {
      assert Owns(n, t, c) && n.conns[c].lifecycle.LifecycleIdle?;
    }
  }

  /** Called on a connection in flight, Enable lets a second request in, whatever the state and
      whoever the owner. */
  lemma EnableAdmitsSecondRequest(s: System, t: Tid, u: Tid, c: Id, at: Time)
    requires Owns(s, t, c) && OwnedIsBusy(s) && s.conns[c].auth.AuthValid?
    requires t != u && u in s.threads && s.threads[u].phase.Choosing?
    requires c !in s.threads[u].excluded + s.threads[u].skipped
    ensures var enabled := Call(s, c, Enable, at);
            var n := Run(enabled, [Step(Claim(u, c, "", true), at), Step(Use(u), at)]);
            Owns(n, t, c) && Owns(n, u, c) && !Exclusive(n)
  {
    var enabled := Call(s, c, Enable, at);
    var claim, use := Step(Claim(u, c, "", true), at), Step(Use(u), at);
    var claimed := Next(enabled, claim);
    assert claimed.threads[u].phase == Claimed(c);
    var n := Next(claimed, use);
    RunTwo(enabled, claim, use);
    assert Owns(n, t, c) && Owns(n, u, c);
  }
}
