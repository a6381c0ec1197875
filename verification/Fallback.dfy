/** The request path: connection-level fallback for one model. */
module Fallback {
  import opened Facets
  import opened Connections
  import opened Options
  import opened Ordering
  import opened Selectors

  // Upstream replies, cancellation, lookups, random draws and what every other actor does in
  // between are inputs, so each contract holds for all of them.

  /** What one upstream attempt produced. `modelRejected` is the body scan of a 403. */
  datatype Reply =
    | Preflight
    | Transport
    | Http(status: int, retryAfter: int, modelRejected: bool)

  datatype Attempt = Attempt(conn: string, reply: Reply)

  datatype Result =
    | Response(status: int)
    | Cancelled
    | NoExecutor
    | PreflightError
    | TransportError

  /** Everything outside the request: the k-th reply, whether the k-th check finds the
      request cancelled, whether the k-th lookup of a stored connection or of an executor
      succeeds, and the state in which other actors leave a connection in the k-th gap between
      two calls. */
  datatype World = World(
    reply: nat -> Reply,
    cancelled: nat -> bool,
    stored: nat -> bool,
    others: (nat, string) -> Option<Health>,
    draw: nat -> (nat, nat),
    clock: nat -> Time,
    executorFound: nat -> bool)

  predicate IsFallbackEligible(status: int) {
    status in {401, 403, 429, 500, 502, 503, 504}
  }

  /** The reply sends the request on to another connection if there is one. */
  predicate FallsThrough(r: Reply) {
    match r
    case Http(status, _, _) => status >= 400 && IsFallbackEligible(status)
    case _ => true
  }

  predicate IsSuccess(r: Reply) {
    r.Http? && r.status < 400
  }

  /** The result a reply leads to when it is the last one. */
  function ResultOf(r: Reply): Result {
    match r
    case Preflight => PreflightError
    case Transport => TransportError
    case Http(status, _, _) => Response(status)
  }

  /** The transition that classifies a reply on its connection. */
  function MarkFor(r: Reply, model: string): Op {
    match r
    case Preflight => MarkAuthExpired
    case Transport => OpenBreaker(Transient, 0, model)
    case Http(status, retryAfter, rejected) =>
      if status == 429 then OpenBreaker(RateLimit, retryAfter, model)
      else if status == 403 && model != "" && rejected then MarkSuccess
      else if status == 401 || status == 403 then MarkAuthExpired
      else if status >= 500 then OpenBreaker(Transient, retryAfter, model)
      else MarkSuccess
  }

  /** How a selection ends: `lost` are connections another request took first. */
  datatype Pick = Picked(conn: Connection) | NoneAvailable(lost: set<string>) | StoreMiss

  /** In some gap from `from` on and before `to`, other actors left the connection in a state
      in which no request can start on it. */
  ghost predicate Taken(w: World, id: string, from: nat, to: nat) {
    exists k :: from <= k < to && LeavesBusy(w, k, id)
  }

  predicate LeavesBusy(w: World, k: nat, id: string) {
    var left := w.others(k, id);
    left.Some? && !left.value.lifecycle.LifecycleIdle?
  }

  /** A selection begun at `from` and over at `to` has a reason to end as it does: what it
      lost was taken by others, and a missing stored connection was looked up. */
  ghost predicate Warranted(p: Pick, w: World, from: nat, to: nat) {
    match p
    case Picked(_) => w.stored(to)
    case NoneAvailable(lost) => forall id :: id in lost ==> Taken(w, id, from, to)
    case StoreMiss => !w.stored(to)
  }

  lemma WarrantedSince(p: Pick, w: World, from: nat, mid: nat, to: nat)
    requires from <= mid && Warranted(p, w, mid, to)
    ensures Warranted(p, w, from, to)
  {
    if p.NoneAvailable? {
      forall id | id in p.lost
        ensures Taken(w, id, from, to)
      {
        assert Taken(w, id, mid, to);
      }
    }
  }

  lemma LostOneMore(lost: set<string>, id: string, w: World, from: nat, mid: nat, to: nat)
    requires from < mid <= to && LeavesBusy(w, from, id) && Warranted(NoneAvailable(lost), w, mid, to)
    ensures Warranted(NoneAvailable(lost + {id}), w, from, to)
  {
    WarrantedSince(NoneAvailable(lost), w, from, mid, to);
    assert Taken(w, id, from, to);
  }

  /** No other actor touches a connection, and every stored connection is found. */
  ghost predicate Undisturbed(w: World) {
    (forall k, id :: w.others(k, id).None?) && forall k :: w.stored(k)
  }

  lemma UndisturbedLosesNone(p: Pick, w: World, from: nat, to: nat)
    requires Undisturbed(w) && Warranted(p, w, from, to) && !p.Picked?
    ensures p == NoneAvailable({})
  {
    assert w.stored(to);
    assert forall id :: !Taken(w, id, from, to);
    assert forall id :: id !in p.lost;
  }

  /** Sorted facts about the attempts of one request. */
  ghost predicate DistinctConns(log: seq<Attempt>) {
    forall i, j :: 0 <= i < j < |log| ==> log[i].conn != log[j].conn
  }

  function ConnsOf(log: seq<Attempt>): set<string> {
    set a | a in log :: a.conn
  }

  lemma LogGrows(log: seq<Attempt>, a: Attempt)
    requires DistinctConns(log) && a.conn !in ConnsOf(log)
    ensures DistinctConns(log + [a]) && ConnsOf(log + [a]) == ConnsOf(log) + {a.conn}
  {
    forall i, j | 0 <= i < j < |log + [a]| ensures (log + [a])[i].conn != (log + [a])[j].conn {
      assert log[i] in log && log[i].conn in ConnsOf(log);
    }
  }

  lemma NoOutcome(views: seq<View>, q: Query)
    ensures Outcome(views, q).Selected? ==> Outcome(views, q).index < |views|
                                            && IsAvailable(views[Outcome(views, q).index], q)
    ensures !Outcome(views, q).Selected? ==> forall p :: 0 <= p < |views| ==> !IsAvailable(views[p], q)
  {
    CandidatesExactly(views, q);
    FailsExactlyWhenNoneAvailable(views, q);
    assert Candidates(views, q) == [] ==> forall p: nat :: p !in Candidates(views, q);
    forall p | 0 <= p < |views| && IsAvailable(views[p], q)
      ensures p in Candidates(views, q)
    {
    }
  }

  lemma Unclaimable(conns: seq<Connection>, views: seq<View>, q: Query)
    requires IsSnapshot(views, conns, q.model)
    requires forall p :: 0 <= p < |views| ==> !IsAvailable(views[p], q)
    ensures forall c :: c in conns && c.id !in q.excluded ==> !Claimable(c.State(), q.model, c.allowlist(q.model), q.now)
  {
    forall c | c in conns && c.id !in q.excluded
      ensures !Claimable(c.State(), q.model, c.allowlist(q.model), q.now)
    {
      var p :| 0 <= p < |conns| && conns[p] == c;
      assert ViewOf(conns[p], q.model) == views[p];
      assert !IsAvailable(views[p], q);
    }
  }

  lemma ExcludedKeepsView(before: seq<View>, q: Query, p: nat)
    requires p < |before| && before[p].id in q.excluded
    ensures Afterwards(before, q)[p] == before[p]
  {
    NoOutcome(before, q);
  }

  /** The views once a selection is over. */
  function Afterwards(before: seq<View>, q: Query): (r: seq<View>)
    ensures |r| == |before|
  {
    var outcome := Outcome(before, q);
    if outcome.Selected? then Claimed(before, outcome.index) else before
  }

  /** A selection that fails leaves nothing to claim. */
  lemma NothingLeft(conns: seq<Connection>, before: seq<View>, q: Query)
    requires IsSnapshot(Afterwards(before, q), conns, q.model) && !Outcome(before, q).Selected?
    ensures forall c :: c in conns && c.id !in q.excluded ==> !Claimable(c.State(), q.model, c.allowlist(q.model), q.now)
  {
    NoOutcome(before, q);
    Unclaimable(conns, before, q);
  }

  /** What was claimed is not in use. */
  lemma SelectedIsIdle(conns: seq<Connection>, before: seq<View>, q: Query)
    requires IsSnapshot(Afterwards(before, q), conns, q.model) && Outcome(before, q).Selected?
    ensures Outcome(before, q).index < |conns| && conns[Outcome(before, q).index].lifecycle.LifecycleIdle?
  {
    var k := Outcome(before, q).index;
    NoOutcome(before, q);
    assert ViewOf(conns[k], q.model) == Afterwards(before, q)[k];
  }

  /** Where the fallback loop stands: it is about to try `current`, and every attempt so far fell
      through. */
  ghost predicate OnTheWay(log: seq<Attempt>, held: seq<Connection>, current: Connection, reply: nat -> Reply,
                           start: nat, conns: seq<Connection>)
  {
    && |held| == |log| + 1 && held[|log|] == current
    && HeldFor(held, log) && Answered(log, reply, start)
    && DistinctConns(log) && AllFallThrough(log) && current.id !in ConnsOf(log)
    && forall c :: c in held ==> c in conns
  }

  lemma Onward(log: seq<Attempt>, held: seq<Connection>, current: Connection, reply: nat -> Reply, start: nat,
               conns: seq<Connection>, next: Connection)
    requires OnTheWay(log, held, current, reply, start, conns)
    requires FallsThrough(reply(start + |log|)) && next in conns && next.id !in ConnsOf(log) && next.id != current.id
    ensures OnTheWay(log + [Attempt(current.id, reply(start + |log|))], held + [next], next, reply, start, conns)
  {
    LogGrows(log, Attempt(current.id, reply(start + |log|)));
  }

  /** The last attempt ends the loop. */
  lemma Ended(log: seq<Attempt>, held: seq<Connection>, current: Connection, reply: nat -> Reply, start: nat,
              conns: seq<Connection>, refusal: Option<Pick>)
    requires OnTheWay(log, held, current, reply, start, conns)
    requires refusal.Some? <==> FallsThrough(reply(start + |log|))
    requires refusal.Some? ==> !refusal.value.Picked?
    ensures var all := log + [Attempt(current.id, reply(start + |log|))];
      && Concluded(ResultOf(reply(start + |log|)), all, refusal)
      && Answered(all, reply, start) && HeldFor(held, all)
  {
    LogGrows(log, Attempt(current.id, reply(start + |log|)));
  }

  function Left(h: Health, others: Option<Health>): Health {
    if others.Some? then others.value else h
  }

  class Server {
    const selector: Selector
    const world: World
    var step: nat
    var replies: nat

    constructor (selector: Selector, world: World)
      ensures this.selector == selector && this.world == world && step == 0 && replies == 0
    {
      this.selector, this.world := selector, world;
      step, replies := 0, 0;
    }

    function Registered(): set<string>
      reads selector
    {
      set c | c in selector.conns :: c.id
    }

    /** The other actors' turn: each connection may change to any state. */
    method Interfere()
      modifies this`step, selector.conns
      ensures step == old(step) + 1
      ensures forall c :: c in selector.conns ==> c.State() == Left(old(c.State()), world.others(old(step), c.id))
    {
      var k := 0;
      while k < |selector.conns|
        invariant step == old(step) && 0 <= k <= |selector.conns|
        invariant forall i :: 0 <= i < k ==>
                    var c := selector.conns[i]; c.State() == Left(old(c.State()), world.others(step, c.id))
        invariant forall c :: c in selector.conns && c !in selector.conns[..k] ==> c.State() == old(c.State())
      {
        var state := world.others(step, selector.conns[k].id);
        if state.Some? {
          selector.conns[k].Become(state.value);
        }
        k := k + 1;
      }
      step := step + 1;
    }

    /** No connection outside `excluded` can be claimed. */
    ghost predicate NoneClaimable(excluded: set<string>, model: string, now: Time)
      reads selector, selector.conns
    {
      forall c :: c in selector.conns && c.id !in excluded ==> !Claimable(c.State(), model, c.allowlist(model), now)
    }

    /** Asks the selector; `before` is what can be seen of the connections. */
    method Ask(q: Query, ghost before: seq<View>) returns (r: Selection)
      requires selector.Valid() && IsSnapshot(before, selector.conns, q.model)
      modifies selector.conns
      ensures r == Outcome(before, q) && (r.Selected? ==> r.index < |selector.conns|)
      ensures r.Selected? ==> selector.conns[r.index].id !in q.excluded
      ensures IsSnapshot(Afterwards(before, q), selector.conns, q.model)
    {
      SnapshotIs(before, selector.conns, q.model);
      r := selector.Select(q);
      SnapshotIs(Afterwards(before, q), selector.conns, q.model);
    }

    /** Whatever the answer, no connection that was to be left out is changed. */
    method AskKeeping(q: Query, ghost before: seq<View>) returns (r: Selection)
      requires selector.Valid() && IsSnapshot(before, selector.conns, q.model)
      modifies selector.conns
      ensures r == Outcome(before, q) && (r.Selected? ==> r.index < |selector.conns|)
      ensures r.Selected? ==> selector.conns[r.index].id !in q.excluded
      ensures IsSnapshot(Afterwards(before, q), selector.conns, q.model)
      ensures forall c :: c in selector.conns && c.id in q.excluded ==> c.State() == old(c.State())
    {
      assert forall p :: 0 <= p < |before| ==> old(ViewOf(selector.conns[p], q.model)) == before[p];
      r := Ask(q, before);
      forall p: nat | p < |before| && before[p].id in q.excluded
        ensures ViewOf(selector.conns[p], q.model) == before[p]
      {
        ExcludedKeepsView(before, q, p);
      }
    }

    /** One run of the selector. */
    method Select(model: string, excluded: set<string>, strategy: Strategy) returns (r: Option<Connection>)
      requires selector.Valid()
      modifies selector.conns
      ensures r.Some? ==> r.value in selector.conns && r.value.id !in excluded && r.value.lifecycle.LifecycleIdle?
      ensures r.None? ==> NoneClaimable(excluded, model, world.clock(step))
      ensures forall c :: c in selector.conns && c.id in excluded ==> c.State() == old(c.State())
    {
      var (x, y) := world.draw(step);
      var q := Query(excluded, model, strategy, x, y, world.clock(step));
      ghost var before := ViewsOf(selector.conns, model);
      SnapshotIs(before, selector.conns, model);
      var picked := AskKeeping(q, before);
      if picked.Selected? {
        SelectedIsIdle(selector.conns, before, q);
        return Some(selector.conns[picked.index]);
      }
      NothingLeft(selector.conns, before, q);
      return None;
    }

    /** MarkUsed on a claimed connection and the lookup of its stored form; None if another request
        took it first, and then its trial slot is given back. */
    method Use(conn: Connection) returns (r: Option<Pick>)
      requires conn in selector.conns && conn.lifecycle.LifecycleIdle?
      modifies this`step, selector.conns
      ensures step > old(step)
      ensures r.None? ==> LeavesBusy(world, old(step), conn.id)
      ensures r.Some? ==> !r.value.NoneAvailable? && Warranted(r.value, world, old(step), step)
      ensures r.Some? && r.value.Picked? ==>
                r.value.conn == conn && (world.others(step - 1, conn.id).None? ==> conn.lifecycle.LifecycleActive?)
      ensures Undisturbed(world) ==> forall c :: c in selector.conns && c != conn ==> c.State() == old(c.State())
    {
      Interfere();
      var used := conn.MarkUsed(world.clock(step));
      if !used {
        conn.ReleaseHalfOpenTrial(world.clock(step));
        Interfere();
        return None;
      }
      Interfere();
      if !world.stored(step) {
        var _ := conn.MarkSuccess(world.clock(step));
        return Some(StoreMiss);
      }
      return Some(Picked(conn));
    }

    /** Select, then MarkUsed; a connection lost to another request is released, excluded
        and the selection starts over. A stored connection is handed out Active, unless it
        changes in the very last gap. */
    method SelectConnection(model: string, excluded: set<string>, strategy: Strategy) returns (r: Pick)
      requires selector.Valid()
      modifies this`step, selector.conns
      ensures r.Picked? ==> r.conn in selector.conns && r.conn.id !in excluded
      ensures r.Picked? ==> step > 0 && (world.others(step - 1, r.conn.id).None? ==> r.conn.lifecycle.LifecycleActive?)
      ensures r.NoneAvailable? ==> r.lost !! excluded && NoneClaimable(excluded + r.lost, model, world.clock(step))
      ensures step >= old(step) && Warranted(r, world, old(step), step)
      ensures Undisturbed(world) ==> forall c :: c in selector.conns && c.id in excluded ==> c.State() == old(c.State())
      decreases Registered() - excluded
    {
      var picked := Select(model, excluded, strategy);
      if picked.None? {
        assert excluded + {} == excluded;
        return NoneAvailable({});
      }
      var conn := picked.value;
      var use := Use(conn);
      if use.Some? {
        return use.value;
      }
      ghost var mid := step;
      r := SelectConnection(model, excluded + {conn.id}, strategy);
      if r.NoneAvailable? {
        LostOneMore(r.lost, conn.id, world, old(step), mid, step);
        assert excluded + {conn.id} + r.lost == excluded + (r.lost + {conn.id});
        return NoneAvailable(r.lost + {conn.id});
      }
    }

    /** Records the outcome of an attempt on its connection. */
    method MarkConnectionResult(conn: Connection, model: string, reply: Reply)
      modifies conn
      ensures conn.State() == Marked(old(conn.State()), reply, model, world.clock(step))
    {
      var now := world.clock(step);
      match reply {
        case Transport =>
          conn.SetLastError("transport error", now);
          var _ := conn.OpenBreaker(Transient, 0, model, now);
        case Preflight =>
          var _ := conn.MarkAuthExpired(now);
          conn.SetLastError("preflight error", now);
        case Http(status, retryAfter, rejected) =>
          if status == 429 {
            var _ := conn.OpenBreaker(RateLimit, retryAfter, model, now);
          } else if status == 401 || status == 403 {
            if status == 403 && model != "" && rejected {
              conn.RecordModelRejection(model, now);
              var _ := conn.MarkSuccess(now);
            } else {
              var _ := conn.MarkAuthExpired(now);
            }
          } else if status >= 500 {
            conn.SetLastError("upstream error", now);
            var _ := conn.OpenBreaker(Transient, retryAfter, model, now);
          } else {
            var _ := conn.MarkSuccess(now);
          }
      }
    }

    /** The deferred releases: every trial slot the request may hold is given back. */
    method ReleaseAll(held: seq<Connection>)
      requires forall c :: c in held ==> c in selector.conns
      modifies selector.conns
      ensures forall c :: c in held ==> !c.halfOpenInFlight
      ensures forall c :: c in selector.conns && c !in held ==> c.State() == old(c.State())
    {
      var k := |held|;
      while k > 0
        invariant 0 <= k <= |held|
        invariant forall i :: k <= i < |held| ==> !held[i].halfOpenInFlight
        invariant forall c :: c in selector.conns && c !in held ==> c.State() == old(c.State())
      {
        k := k - 1;
        assert held[k] in held;
        held[k].ReleaseHalfOpenTrial(world.clock(step));
      }
    }

    /** One attempt: the upstream call, its mark, and the next connection if the reply
        falls through. A success is marked later, after the response is forwarded. */
    method TryConnection(conn: Connection, model: string, strategy: Strategy, excluded: set<string>)
      returns (reply: Reply, next: Option<Pick>)
      requires selector.Valid() && conn in selector.conns
      modifies this, selector.conns
      ensures reply == world.reply(old(replies)) && replies == old(replies) + 1
      ensures next.Some? <==> FallsThrough(reply)
      ensures next.Some? && next.value.Picked? ==>
                next.value.conn in selector.conns && next.value.conn.id !in excluded + {conn.id}
      ensures next.Some? && next.value.NoneAvailable? ==>
                NoneClaimable(excluded + {conn.id} + next.value.lost, model, world.clock(step))
      ensures step >= old(step) && (next.Some? ==> Warranted(next.value, world, old(step), step))
      ensures Undisturbed(world) && !IsSuccess(reply) ==>
                conn.State() == Marked(old(conn.State()), reply, model, world.clock(old(step) + 1))
    {
      reply := world.reply(replies);
      replies := replies + 1;
      Interfere();
      if IsSuccess(reply) {
        return reply, None;
      }
      MarkConnectionResult(conn, model, reply);
      if !FallsThrough(reply) {
        return reply, None;
      }
      Interfere();
      ghost var from := step;
      var pick := SelectConnection(model, excluded + {conn.id}, strategy);
      WarrantedSince(pick, world, old(step), from, step);
      return reply, Some(pick);
    }

    /** The fallback loop: one connection after another until a reply is final, the request
        is cancelled, or no further connection can be selected. */
    method Attempts(first: Connection, model: string, strategy: Strategy)
      returns (r: Result, log: seq<Attempt>, refusal: Option<Pick>, held: seq<Connection>)
      requires selector.Valid() && first in selector.conns
      modifies this, selector.conns
      ensures Concluded(r, log, refusal) && Answered(log, world.reply, old(replies)) && ConnsOf(log) <= Registered()
      ensures HeldFor(held, log) && first in held && forall c :: c in held ==> c in selector.conns
      ensures step >= old(step) && HasReason(r, refusal, world, old(step), step)
      ensures refusal.Some? ==> |held| == |log|
      ensures refusal.Some? && refusal.value.NoneAvailable? ==>
                NoneClaimable(ConnsOf(log) + refusal.value.lost, model, world.clock(step))
    {
      log, held, refusal := [], [first], None;
      var current := first;
      ghost var start := replies;
      while true
        invariant selector.conns == old(selector.conns) && refusal == None && first in held
        invariant OnTheWay(log, held, current, world.reply, start, selector.conns)
        invariant replies == start + |log| && ConnsOf(log) <= Registered() && step >= old(step)
        decreases Registered() - ConnsOf(log)
      {
        if world.cancelled(step) {
          return Cancelled, log, None, held;
        }
        if !world.executorFound(step) {
          return NoExecutor, log, None, held;
        }
        ghost var from := step;
        var reply, next := TryConnection(current, model, strategy, ConnsOf(log));
        var attempt := Attempt(current.id, reply);
        LogGrows(log, attempt);
        if next.None? || !next.value.Picked? {
          Ended(log, held, current, world.reply, start, selector.conns, next);
          if next.Some? {
            WarrantedSince(next.value, world, old(step), from, step);
          }
          return ResultOf(reply), log + [attempt], next, held;
        }
        Onward(log, held, current, world.reply, start, selector.conns, next.value.conn);
        log := log + [attempt];
        current := next.value.conn;
        held := held + [current];
      }
    }

    /** The whole request: the fallback loop, then the deferred releases. `log` lists the
        attempts in order, `held` the connections the request was given. A reply that could fall
        through is the last selectable connection's, but for those others took; undisturbed,
        without exception. */
    method ExecuteRequest(first: Connection, model: string, strategy: Strategy)
      returns (r: Result, log: seq<Attempt>, refusal: Option<Pick>, held: seq<Connection>)
      requires selector.Valid() && first in selector.conns
      modifies this, selector.conns
      ensures Concluded(r, log, refusal) && Answered(log, world.reply, old(replies)) && ConnsOf(log) <= Registered()
      ensures HeldFor(held, log) && first in held && forall c :: c in held ==> !c.halfOpenInFlight
      ensures HasReason(r, refusal, world, old(step), step)
      ensures refusal.Some? && refusal.value.NoneAvailable? ==>
                NoneClaimable(ConnsOf(log) + refusal.value.lost, model, world.clock(step))
      ensures Undisturbed(world) && log != [] && FallsThrough(log[|log| - 1].reply)
              && r == ResultOf(log[|log| - 1].reply) ==>
                NoneClaimable(ConnsOf(log), model, world.clock(step))
    {
      r, log, refusal, held := Attempts(first, model, strategy);
      if refusal.Some? {
        HeldAreTried(held, log);
      }
      ReleaseAll(held);
      if Undisturbed(world) && refusal.Some? {
        UndisturbedLosesNone(refusal.value, world, old(step), step);
        assert ConnsOf(log) + {} == ConnsOf(log);
      }
    }
  }

  /** A request that ends without a final reply does so because it was cancelled, no executor was
      found, or the selection had a reason to fail. */
  ghost predicate HasReason(r: Result, refusal: Option<Pick>, w: World, from: nat, to: nat) {
    && (r.Cancelled? ==> w.cancelled(to))
    && (r.NoExecutor? ==> !w.executorFound(to))
    && (refusal.Some? ==> Warranted(refusal.value, w, from, to))
  }

  ghost predicate AllFallThrough(log: seq<Attempt>) {
    forall i :: 0 <= i < |log| ==> FallsThrough(log[i].reply)
  }

  /** The i-th attempt of the request got the i-th reply. */
  ghost predicate Answered(log: seq<Attempt>, reply: nat -> Reply, from: nat) {
    forall i :: 0 <= i < |log| ==> log[i].reply == reply(from + i)
  }

  /** The i-th attempt was made on the i-th connection held; one more may be held. */
  ghost predicate HeldFor(held: seq<Connection>, log: seq<Attempt>) {
    |log| <= |held| <= |log| + 1 && forall i :: 0 <= i < |log| ==> held[i].id == log[i].conn
  }

  lemma HeldAreTried(held: seq<Connection>, log: seq<Attempt>)
    requires HeldFor(held, log) && |held| == |log|
    ensures forall c :: c in held ==> c.id in ConnsOf(log)
  {
    forall c | c in held
      ensures c.id in ConnsOf(log)
    {
      var i :| 0 <= i < |held| && held[i] == c;
      assert log[i] in log;
    }
  }

  /** How a request ends: each connection is tried at most once, every attempt but the last
      fell through, and a result that could have fallen through is returned only because
      no further connection was handed out. */
  ghost predicate Concluded(r: Result, log: seq<Attempt>, refusal: Option<Pick>) {
    && DistinctConns(log)
    && (forall i :: 0 <= i < |log| - 1 ==> FallsThrough(log[i].reply))
    && (refusal.Some? ==> !refusal.value.Picked?)
    && (if r.Cancelled? || r.NoExecutor? then AllFallThrough(log) && refusal.None?
        else log != [] && r == ResultOf(log[|log| - 1].reply) && (refusal.Some? <==> FallsThrough(log[|log| - 1].reply)))
  }

  /** The state a reply leaves its connection in. */
  function Marked(h: Health, reply: Reply, model: string, now: Time): Health {
    var op := MarkFor(reply, model);
    match reply
    case Transport => After(h.(lastError := Some("transport error")), op, now)
    case Preflight => After(h, op, now).(lastError := Some("preflight error"))
    case Http(status, _, rejected) =>
      if op.OpenBreaker? && status >= 500 then After(h.(lastError := Some("upstream error")), op, now)
      else if op.MarkSuccess? && status == 403 then After(After(h, RecordModelRejection(model), now), op, now)
      else After(h, op, now)
  }

  lemma {:induction false} DistinctCount(log: seq<Attempt>)
    requires DistinctConns(log)
    ensures |ConnsOf(log)| == |log|
  {
    if log != [] {
      var front, last := log[..|log| - 1], log[|log| - 1];
      assert log == front + [last];
      DistinctCount(front);
      forall a | a in front
        ensures a.conn != last.conn
      {
        var i :| 0 <= i < |front| && front[i] == a;
        assert log[i].conn != log[|log| - 1].conn;
      }
      assert ConnsOf(log) == ConnsOf(front) + {last.conn};
    }
  }

  /** A request makes no more attempts than there are registered connections. */
  lemma AttemptsBounded(log: seq<Attempt>, registered: set<string>)
    requires DistinctConns(log) && ConnsOf(log) <= registered
    ensures |log| <= |registered|
  {
    DistinctCount(log);
    assert registered == ConnsOf(log) + (registered - ConnsOf(log));
  }
}
