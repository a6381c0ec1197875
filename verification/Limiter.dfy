/** The sliding-window rate limiter against the rule over the full history of admissions. */
module Limiter {
  type Time = int
  type Windows = map<string, seq<Time>>

  const MINUTE := 60_000_000_000

  // ----- The limiter's state, call by call -----

  /** Drops the leading times before the cutoff. */
  function Pruned(window: seq<Time>, cutoff: Time): seq<Time> {
    if window != [] && window[0] < cutoff then Pruned(window[1..], cutoff) else window
  }

  function WindowOf(w: Windows, key: string): seq<Time> {
    if key in w then w[key] else []
  }

  function Allows(w: Windows, key: string, rpm: int, now: Time): bool {
    rpm <= 0 || |Pruned(WindowOf(w, key), now - MINUTE)| < rpm
  }

  function AfterAllow(w: Windows, key: string, rpm: int, now: Time): Windows {
    if rpm <= 0 then w
    else
      var window := Pruned(WindowOf(w, key), now - MINUTE);
      w[key := if |window| >= rpm then window else window + [now]]
  }

  function AfterCleanup(w: Windows, now: Time): Windows {
    map key | key in w && Pruned(w[key], now - MINUTE) != [] :: Pruned(w[key], now - MINUTE)
  }

  datatype Op =
    | Allow(key: string, rpm: int, at: Time)
    | Cleanup(at: Time)

  function After(w: Windows, op: Op): Windows {
    match op
    case Allow(key, rpm, at) => AfterAllow(w, key, rpm, at)
    case Cleanup(at) => AfterCleanup(w, at)
  }

  function Run(ops: seq<Op>): Windows {
    if ops == [] then map[] else After(Run(ops[..|ops| - 1]), ops[|ops| - 1])
  }

  // ----- The rule over the full history -----

  /** How many of the times are at or after `from`. */
  function CountFrom(times: seq<Time>, from: Time): nat {
    if times == [] then 0
    else CountFrom(times[..|times| - 1], from) + (if times[|times| - 1] >= from then 1 else 0)
  }

  function Admits(admitted: seq<Time>, rpm: int, now: Time): bool {
    rpm <= 0 || CountFrom(admitted, now - MINUTE) < rpm
  }

  /** Every admission of a key under the rule; calls with no limit are not recorded. */
  function Admitted(ops: seq<Op>, key: string): seq<Time> {
    if ops == [] then []
    else
      var before, op := Admitted(ops[..|ops| - 1], key), ops[|ops| - 1];
      if op.Allow? && op.key == key && op.rpm > 0 && Admits(before, op.rpm, op.at) then before + [op.at] else before
  }

  // ----- Refinement -----

  ghost predicate Sorted(times: seq<Time>) {
    forall i, j :: 0 <= i < j < |times| ==> times[i] <= times[j]
  }

  ghost predicate Ordered(ops: seq<Op>) {
    forall i, j :: 0 <= i < j < |ops| ==> ops[i].at <= ops[j].at
  }

  ghost predicate AllBefore(times: seq<Time>, cutoff: Time) {
    forall i :: 0 <= i < |times| ==> times[i] < cutoff
  }

  ghost predicate NoneBefore(times: seq<Time>, cutoff: Time) {
    forall i :: 0 <= i < |times| ==> times[i] >= cutoff
  }

  /** A window is the history without some admissions older than the last minute. */
  ghost predicate IsTail(window: seq<Time>, all: seq<Time>, clock: Time) {
    exists older :: all == older + window && AllBefore(older, clock - MINUTE)
  }

  lemma {:induction false} PrunedIs(window: seq<Time>, cutoff: Time) returns (dropped: seq<Time>)
    requires Sorted(window)
    ensures window == dropped + Pruned(window, cutoff)
    ensures AllBefore(dropped, cutoff) && NoneBefore(Pruned(window, cutoff), cutoff)
  {
    if window != [] && window[0] < cutoff {
      var rest := PrunedIs(window[1..], cutoff);
      dropped := [window[0]] + rest;
    } else {
      dropped := [];
      if window != [] {
        assert forall i :: 0 < i < |window| ==> window[0] <= window[i];
      }
    }
  }

  lemma {:induction false} CountOfSplit(dropped: seq<Time>, kept: seq<Time>, from: Time)
    requires AllBefore(dropped, from) && NoneBefore(kept, from)
    ensures CountFrom(dropped + kept, from) == |kept|
    decreases |kept|
  {
    var all := dropped + kept;
    if kept != [] {
      assert all[..|all| - 1] == dropped + kept[..|kept| - 1];
      CountOfSplit(dropped, kept[..|kept| - 1], from);
    } else {
      assert all == dropped;
      CountOfOld(dropped, from);
    }
  }

  lemma {:induction false} CountOfOld(times: seq<Time>, from: Time)
    requires AllBefore(times, from)
    ensures CountFrom(times, from) == 0
  {
    if times != [] {
      CountOfOld(times[..|times| - 1], from);
    }
  }

  lemma SortedTail(older: seq<Time>, window: seq<Time>)
    requires Sorted(older + window)
    ensures Sorted(window)
  {
    var all := older + window;
    forall i, j | 0 <= i < j < |window| ensures window[i] <= window[j] {
      assert window[i] == all[|older| + i] && window[j] == all[|older| + j];
    }
  }

  lemma Regroup(older: seq<Time>, dropped: seq<Time>, kept: seq<Time>, before: Time, cutoff: Time)
    requires AllBefore(older, before) && AllBefore(dropped, cutoff) && before <= cutoff
    ensures older + (dropped + kept) == (older + dropped) + kept
    ensures AllBefore(older + dropped, cutoff)
  {
  }

  /** Pruning a tail of the history at a later time leaves a tail, as long as the rule's count. */
  lemma PruneTail(window: seq<Time>, all: seq<Time>, clock: Time, now: Time)
    requires Sorted(all) && IsTail(window, all, clock) && clock <= now
    ensures IsTail(Pruned(window, now - MINUTE), all, now)
    ensures |Pruned(window, now - MINUTE)| == CountFrom(all, now - MINUTE)
  {
    var older :| all == older + window && AllBefore(older, clock - MINUTE);
    SortedTail(older, window);
    var dropped := PrunedIs(window, now - MINUTE);
    Regroup(older, dropped, Pruned(window, now - MINUTE), clock - MINUTE, now - MINUTE);
    CountOfSplit(older + dropped, Pruned(window, now - MINUTE), now - MINUTE);
  }

  /** What a run keeps for every key. */
  ghost predicate Refined(w: Windows, ops: seq<Op>, key: string, clock: Time) {
    && Sorted(Admitted(ops, key))
    && IsTail(WindowOf(w, key), Admitted(ops, key), clock)
    && forall t :: t in Admitted(ops, key) ==> t <= clock
  }

  lemma TailAppend(window: seq<Time>, all: seq<Time>, now: Time)
    requires IsTail(window, all, now)
    ensures IsTail(window + [now], all + [now], now)
  {
    var older :| all == older + window && AllBefore(older, now - MINUTE);
    assert all + [now] == older + (window + [now]);
  }

  lemma TailLater(window: seq<Time>, all: seq<Time>, clock: Time, now: Time)
    requires IsTail(window, all, clock) && clock <= now
    ensures IsTail(window, all, now)
  {
    var older :| all == older + window && AllBefore(older, clock - MINUTE);
    assert AllBefore(older, now - MINUTE);
  }

  lemma SortedAppend(all: seq<Time>, clock: Time, now: Time)
    requires Sorted(all) && clock <= now && forall t :: t in all ==> t <= clock
    ensures Sorted(all + [now])
    ensures forall t :: t in all + [now] ==> t <= now
  {
    assert forall i :: 0 <= i < |all| ==> all[i] in all;
  }

  /** A call for another key leaves this key's window and history as they are. */
  lemma OtherKeyRefines(w: Windows, ops: seq<Op>, key: string, clock: Time, op: Op)
    requires op.Allow? && op.key != key && clock <= op.at && Refined(w, ops, key, clock)
    ensures Refined(AfterAllow(w, op.key, op.rpm, op.at), ops + [op], key, op.at)
  {
    assert Admitted(ops + [op], key) == Admitted(ops, key) by {
      assert (ops + [op])[..|ops|] == ops;
    }
    TailLater(WindowOf(w, key), Admitted(ops, key), clock, op.at);
    assert WindowOf(AfterAllow(w, op.key, op.rpm, op.at), key) == WindowOf(w, key);
  }

  lemma AllowRefines(w: Windows, ops: seq<Op>, clock: Time, op: Op)
    requires op.Allow? && clock <= op.at && Refined(w, ops, op.key, clock)
    ensures Refined(AfterAllow(w, op.key, op.rpm, op.at), ops + [op], op.key, op.at)
  {
    var all := Admitted(ops, op.key);
    var window := WindowOf(w, op.key);
    assert (ops + [op])[..|ops|] == ops;
    if op.rpm <= 0 {
      TailLater(window, all, clock, op.at);
    } else {
      PruneTail(window, all, clock, op.at);
      var kept := Pruned(window, op.at - MINUTE);
      if |kept| < op.rpm {
        SortedAppend(all, clock, op.at);
        TailAppend(kept, all, op.at);
      }
    }
  }

  lemma CleanupRefines(w: Windows, ops: seq<Op>, key: string, clock: Time, op: Op)
    requires op.Cleanup? && clock <= op.at && Refined(w, ops, key, clock)
    ensures Refined(AfterCleanup(w, op.at), ops + [op], key, op.at)
  {
    var all := Admitted(ops, key);
    assert Admitted(ops + [op], key) == all by {
      assert (ops + [op])[..|ops|] == ops;
    }
    PruneTail(WindowOf(w, key), all, clock, op.at);
    assert WindowOf(AfterCleanup(w, op.at), key) == Pruned(WindowOf(w, key), op.at - MINUTE) by {
      assert Pruned([], op.at - MINUTE) == [];
    }
  }

  lemma StepRefines(w: Windows, ops: seq<Op>, key: string, clock: Time, op: Op)
    requires clock <= op.at && Refined(w, ops, key, clock)
    ensures Refined(After(w, op), ops + [op], key, op.at)
  {
    if op.Cleanup? {
      CleanupRefines(w, ops, key, clock, op);
    } else if op.key == key {
      AllowRefines(w, ops, clock, op);
    } else {
      OtherKeyRefines(w, ops, key, clock, op);
    }
  }

  lemma NothingRefined(key: string, clock: Time)
    ensures Refined(Run([]), [], key, clock)
  {
    assert [] == [] + WindowOf(Run([]), key) && AllBefore([], clock - MINUTE);
  }

  lemma RefinedLater(w: Windows, ops: seq<Op>, key: string, clock: Time, now: Time)
    requires clock <= now && Refined(w, ops, key, clock)
    ensures Refined(w, ops, key, now)
  {
    TailLater(WindowOf(w, key), Admitted(ops, key), clock, now);
  }

  lemma {:induction false} RunRefines(ops: seq<Op>, key: string, clock: Time)
    requires Ordered(ops) && (ops != [] ==> ops[|ops| - 1].at <= clock)
    ensures Refined(Run(ops), ops, key, clock)
  {
    if ops == [] {
      NothingRefined(key, clock);
    } else {
      var n := |ops| - 1;
      var init, op := ops[..n], ops[n];
      assert ops == init + [op];
      assert init != [] ==> init[n - 1] == ops[n - 1];
      RunRefines(init, key, op.at);
      StepRefines(Run(init), init, key, op.at, op);
      RefinedLater(Run(ops), ops, key, op.at, clock);
    }
  }

  /** After any run, cleanups included, the pruned windows answer as the full history does. */
  lemma AnswersAsHistory(ops: seq<Op>, key: string, rpm: int, now: Time)
    requires Ordered(ops) && (ops != [] ==> ops[|ops| - 1].at <= now)
    ensures Allows(Run(ops), key, rpm, now) == Admits(Admitted(ops, key), rpm, now)
  {
    RunRefines(ops, key, now);
    PruneTail(WindowOf(Run(ops), key), Admitted(ops, key), now, now);
  }

  function WithoutCleanups(ops: seq<Op>): seq<Op> {
    if ops == [] then []
    else
      var last := ops[|ops| - 1];
      WithoutCleanups(ops[..|ops| - 1]) + (if last.Cleanup? then [] else [last])
  }

  lemma {:induction false} HistoryIgnoresCleanups(ops: seq<Op>, key: string)
    ensures Admitted(WithoutCleanups(ops), key) == Admitted(ops, key)
  {
    if ops != [] {
      var init, last := ops[..|ops| - 1], ops[|ops| - 1];
      HistoryIgnoresCleanups(init, key);
      if last.Allow? {
        var less := WithoutCleanups(init);
        assert (less + [last])[..|less|] == less;
      } else {
        assert WithoutCleanups(ops) == WithoutCleanups(init);
      }
    }
  }

  lemma {:induction false} WithoutCleanupsOrdered(ops: seq<Op>, clock: Time)
    requires Ordered(ops) && forall i :: 0 <= i < |ops| ==> ops[i].at <= clock
    ensures Ordered(WithoutCleanups(ops))
    ensures forall i :: 0 <= i < |WithoutCleanups(ops)| ==> WithoutCleanups(ops)[i].at <= clock
  {
    if ops != [] {
      var last := ops[|ops| - 1];
      WithoutCleanupsOrdered(ops[..|ops| - 1], last.at);
    }
  }

  /** Cleanup calls, wherever they fall in a run, never change an answer. */
  lemma {:induction false} CleanupIsInvisible(ops: seq<Op>, key: string, rpm: int, now: Time)
    requires Ordered(ops) && forall i :: 0 <= i < |ops| ==> ops[i].at <= now
    ensures Allows(Run(WithoutCleanups(ops)), key, rpm, now) == Allows(Run(ops), key, rpm, now)
  {
    WithoutCleanupsOrdered(ops, now);
    AnswersAsHistory(ops, key, rpm, now);
    AnswersAsHistory(WithoutCleanups(ops), key, rpm, now);
    HistoryIgnoresCleanups(ops, key);
  }

  // ----- The rate -----

  /** The key's limit was positive and never above `limit`. */
  ghost predicate LimitedTo(ops: seq<Op>, key: string, limit: int) {
    forall op :: op in ops && op.Allow? && op.key == key ==> 0 < op.rpm <= limit
  }

  /** Admissions that are `limit` places apart are more than a minute apart. */
  ghost predicate Spaced(times: seq<Time>, limit: int) {
    forall i, j :: 0 <= i < j < |times| && j - i >= limit ==> times[j] - times[i] > MINUTE
  }

  lemma {:induction false} CountAtLeast(all: seq<Time>, from: Time, i: nat)
    requires Sorted(all) && i < |all| && all[i] >= from
    ensures CountFrom(all, from) >= |all| - i
  {
    if i < |all| - 1 {
      assert all[i] <= all[|all| - 1];
      CountAtLeast(all[..|all| - 1], from, i);
    }
  }

  lemma SpacedGrows(all: seq<Time>, limit: int, rpm: int, now: Time)
    requires Sorted(all) && Spaced(all, limit) && 0 < rpm <= limit && Admits(all, rpm, now)
    ensures Spaced(all + [now], limit)
  {
    var more := all + [now];
    forall i, j | 0 <= i < j < |more| && j - i >= limit ensures more[j] - more[i] > MINUTE {
      if j == |all| && all[i] >= now - MINUTE {
        CountAtLeast(all, now - MINUTE, i);
      }
    }
  }

  lemma {:induction false} AdmissionsAreSpaced(ops: seq<Op>, key: string, limit: int)
    requires Ordered(ops) && LimitedTo(ops, key, limit)
    ensures Spaced(Admitted(ops, key), limit)
  {
    if ops != [] {
      var n := |ops| - 1;
      var init, op := ops[..n], ops[n];
      assert ops == init + [op];
      assert init != [] ==> init[n - 1] == ops[n - 1];
      AdmissionsAreSpaced(init, key, limit);
      RunRefines(init, key, op.at);
      if op.Allow? && op.key == key && Admits(Admitted(init, key), op.rpm, op.at) {
        SpacedGrows(Admitted(init, key), limit, op.rpm, op.at);
      }
    }
  }

  /** How many of the times lie in the closed interval. */
  function CountWithin(times: seq<Time>, from: Time, to: Time): nat {
    if times == [] then 0
    else
      CountWithin(times[..|times| - 1], from, to)
      + (if from <= times[|times| - 1] <= to then 1 else 0)
  }

  lemma {:induction false} CountIsAtMost(times: seq<Time>, from: Time, to: Time, n: nat)
    requires n <= |times| && AllBefore(times[..n], from)
    ensures CountWithin(times, from, to) <= |times| - n
  {
    if times != [] {
      var last := |times| - 1;
      if n == |times| {
        assert times[..n][last] == times[last];
        assert times[..last] == times[..n][..last];
        CountIsAtMost(times[..last], from, to, last);
      } else {
        assert times[..last][..n] == times[..n];
        CountIsAtMost(times[..last], from, to, n);
      }
    }
  }

  /** Those that lie in one minute are the last `limit` at most: any earlier one is more than a
      minute before the last. */
  lemma {:induction false} SpacedCount(times: seq<Time>, limit: int, from: Time)
    requires limit > 0 && Spaced(times, limit)
    ensures CountWithin(times, from, from + MINUTE) <= limit
  {
    if times != [] {
      var n := |times| - 1;
      if from <= times[n] <= from + MINUTE {
        var first := if |times| <= limit then 0 else |times| - limit;
        assert AllBefore(times[..first], from);
        CountIsAtMost(times, from, from + MINUTE, first);
      } else {
        SpacedCount(times[..n], limit, from);
      }
    }
  }

  /** For a key whose limit is always positive and never above `limit`, no closed one-minute
      interval of any run holds more than `limit` admissions. */
  lemma NeverOverTheLimit(ops: seq<Op>, key: string, limit: int, from: Time)
    requires limit > 0 && Ordered(ops) && LimitedTo(ops, key, limit)
    ensures CountWithin(Admitted(ops, key), from, from + 60_000_000_000) <= limit
  {
    AdmissionsAreSpaced(ops, key, limit);
    RunRefines(ops, key, if ops == [] then 0 else ops[|ops| - 1].at);
    SpacedCount(Admitted(ops, key), limit, from);
  }

  // ----- The limiter -----

  class Limiter {
    var windows: Windows

    constructor ()
      ensures windows == Run([])
    {
      windows := map[];
    }

    method Prune(window: seq<Time>, cutoff: Time) returns (kept: seq<Time>)
      ensures kept == Pruned(window, cutoff)
    {
      var start := 0;
      while start < |window| && window[start] < cutoff
        invariant 0 <= start <= |window|
        invariant Pruned(window[start..], cutoff) == Pruned(window, cutoff)
      {
        start := start + 1;
      }
      kept := window[start..];
    }

    method Allow(key: string, rpm: int, now: Time) returns (allowed: bool)
      modifies this
      ensures allowed == Allows(old(windows), key, rpm, now)
      ensures windows == AfterAllow(old(windows), key, rpm, now)
    {
      if rpm <= 0 {
        return true;
      }
      var window := Prune(WindowOf(windows, key), now - MINUTE);
      if |window| >= rpm {
        windows := windows[key := window];
        return false;
      }
      windows := windows[key := window + [now]];
      allowed := true;
    }

    /** Goes through the keys in any order. */
    method Cleanup(now: Time)
      modifies this
      ensures windows == AfterCleanup(old(windows), now)
    {
      var todo := windows.Keys;
      var cutoff := now - MINUTE;
      while todo != {}
        invariant todo <= old(windows).Keys
        invariant forall key :: key in todo ==> key in windows && windows[key] == old(windows)[key]
        invariant forall key :: key in windows && key !in todo ==>
          key in old(windows) && windows[key] == Pruned(old(windows)[key], cutoff) && windows[key] != []
        invariant forall key :: key in old(windows) && key !in todo ==>
          (Pruned(old(windows)[key], cutoff) != [] ==> key in windows)
        decreases |todo|
      {
        var key: string :| key in todo;
        var window := Prune(windows[key], cutoff);
        if window == [] {
          windows := windows - {key};
        } else {
          windows := windows[key := window];
        }
        todo := todo - {key};
      }
    }
  }
}
