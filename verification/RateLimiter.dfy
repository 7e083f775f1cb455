/** enforceSessionCreateRateLimit: a sliding window over the times of accepted session creations. */
module RateLimiter {

  const WINDOW := 10_000_000_000 // ten seconds, in nanoseconds
  const LIMIT := 120

  /** The times after `now - WINDOW`, in order. */
  function Recent(times: seq<int>, now: int): (r: seq<int>)
    ensures forall t :: t in r ==> t in times && t > now - WINDOW
  {
    if times == [] then []
    else if times[|times| - 1] > now - WINDOW then Recent(times[..|times| - 1], now) + [times[|times| - 1]]
    else Recent(times[..|times| - 1], now)
  }

  predicate Sorted(s: seq<int>) {
    forall i, j :: 0 <= i < j < |s| ==> s[i] <= s[j]
  }

  /** Of a sorted log the recent times are a suffix. */
  lemma {:induction false} RecentIsSuffix(times: seq<int>, now: int)
    requires Sorted(times)
    ensures var k := |times| - |Recent(times, now)|;
            && k >= 0 && Recent(times, now) == times[k..]
            && (forall i :: 0 <= i < k ==> times[i] <= now - WINDOW)
            && (forall i :: k <= i < |times| ==> times[i] > now - WINDOW)
  {
    if times != [] {
      var pre := times[..|times| - 1];
      forall i | 0 <= i < |pre| ensures pre[i] == times[i] <= times[|pre|] {}
      RecentIsSuffix(pre, now);
      var k := |pre| - |Recent(pre, now)|;
      if times[|pre|] > now - WINDOW { assert times[k..] == pre[k..] + [times[|pre|]]; } else { assert k == |pre|; }
    }
  }

  lemma {:induction false} RecentSnoc(times: seq<int>, now: int, t: int)
    ensures Recent(times + [t], now) == if t > now - WINDOW then Recent(times, now) + [t] else Recent(times, now)
  {
    assert (times + [t])[..|times|] == times;
  }

  /** Any acceptance comes at least a window after the 120th acceptance before it. */
  ghost predicate Spread(times: seq<int>) {
    forall i :: 0 <= i && i + LIMIT < |times| ==> times[i + LIMIT] - times[i] >= WINDOW
  }

  /** The limiter's log, and (for the specification only) every acceptance so far. */
  datatype Log = Log(created: seq<int>, accepted: seq<int>)

  /** One call, on values. */
  function Step(l: Log, now: int): Log {
    var kept := Recent(l.created, now);
    if |kept| >= LIMIT then Log(kept, l.accepted) else Log(kept + [now], l.accepted + [now])
  }

  /** The acceptances are sorted and spread out, and the log keeps the recent ones. */
  ghost predicate Consistent(l: Log, at: int) {
    && Sorted(l.accepted) && Spread(l.accepted)
    && (l.accepted != [] ==> l.accepted[|l.accepted| - 1] <= at)
    && l.created == Recent(l.accepted, at)
  }

  class Limiter {
    const log: array<int>
    var count: nat
    ghost var accepted: seq<int>
    ghost var lastNow: int

    /** The logged times are the first `count` of the array. */
    ghost function Created(): seq<int>
      reads this, log
      requires count <= log.Length
    {
      log[..count]
    }

    ghost predicate Valid() reads this, log {
      log.Length == LIMIT && count <= LIMIT && Consistent(Log(log[..count], accepted), lastNow)
    }

    constructor ()
      ensures Valid() && accepted == [] && fresh(log)
    {
      log := new int[LIMIT];
      count, accepted, lastNow := 0, [], 0;
      new;
      assert log[..0] == [];
    }

    /** Refuses exactly when 120 acceptances lie in the window ending now; otherwise logs the call. */
    method Enforce(now: int) returns (refused: bool)
      requires Valid() && (accepted != [] ==> now >= lastNow)
      modifies this, log
      ensures Valid() && lastNow == now
      ensures Log(Created(), accepted) == Step(old(Log(Created(), accepted)), now)
      ensures refused <==> |Recent(old(accepted), now)| >= 120
      ensures accepted == if refused then old(accepted) else old(accepted) + [now]
      ensures Sorted(Created())
    {
      hide Recent, Consistent;
      StepKeeps(Log(Created(), accepted), lastNow, now);
      LogIsBounded(Step(Log(Created(), accepted), now), now);
      FilterRecent(now);
      lastNow := now;
      if count >= LIMIT { return true; }
      log[count] := now;
      count := count + 1;
      accepted := accepted + [now];
      assert log[..count] == old(Step(Log(Created(), accepted), now)).created;
      return false;
    }

    /** The in-place filter of the log. */
    method FilterRecent(now: int)
      requires count <= log.Length
      modifies this`count, log
      ensures count <= old(count) && Created() == Recent(old(Created()), now)
    {
      hide Recent;
      ghost var was := log[..count];
      assert Recent([], now) == [] by { RecentOfNone(now); }
      assert was[..0] == [] && log[..0] == [];
      var kept := 0;
      for i := 0 to count
        invariant count == |was| && kept <= i && log[..kept] == Recent(was[..i], now)
        invariant forall k :: i <= k < count ==> log[k] == was[k]
      {
        RecentSnoc(was[..i], now, was[i]);
        assert was[..i + 1] == was[..i] + [was[i]];
        if log[i] > now - WINDOW {
          log[kept] := log[i];
          kept := kept + 1;
          assert log[..kept] == log[..kept - 1] + [was[i]];
        }
      }
      assert was[..|was|] == was;
      count := kept;
    }
  }

  lemma StepKeeps(l: Log, at: int, now: int)
    requires Consistent(l, at) && (l.accepted != [] ==> at <= now)
    ensures Consistent(Step(l, now), now)
    ensures Recent(l.created, now) == Recent(l.accepted, now)
  {
    hide Recent, Sorted, Spread;
    assert Recent(l.created, now) == Recent(l.accepted, now) by {
      if l.accepted != [] { RecentTwice(l.accepted, at, now); } else { RecentOfNone(at); RecentOfNone(now); }
    }
    if |Recent(l.accepted, now)| < LIMIT {
      AcceptKeepsSpread(l.accepted, now);
      RecentSnoc(l.accepted, now, now);
    }
  }

  lemma RecentOfNone(now: int)
    ensures Recent([], now) == []
  {
  }

  lemma LogIsBounded(l: Log, at: int)
    requires Consistent(l, at)
    ensures Sorted(l.created) && |l.created| <= LIMIT
  {
    hide Recent;
    RecentIsSuffix(l.accepted, at);
    RecentNeverExceeds(l.accepted, at);
  }

  /** Filtering an already filtered log at a later time is filtering the whole log. */
  lemma {:induction false} RecentTwice(times: seq<int>, earlier: int, later: int)
    requires earlier <= later
    ensures Recent(Recent(times, earlier), later) == Recent(times, later)
  {
    if times != [] {
      var pre, t := times[..|times| - 1], times[|times| - 1];
      RecentTwice(pre, earlier, later);
      if t > earlier - WINDOW { RecentSnoc(Recent(pre, earlier), later, t); }
    }
  }

  lemma AcceptKeepsSpread(times: seq<int>, now: int)
    requires Sorted(times) && Spread(times) && (times != [] ==> times[|times| - 1] <= now)
    requires |Recent(times, now)| < LIMIT
    ensures Sorted(times + [now]) && Spread(times + [now])
  {
    hide Recent;
    RecentIsSuffix(times, now);
    var all := times + [now];
    forall i | 0 <= i && i + LIMIT < |all| ensures all[i + LIMIT] - all[i] >= WINDOW {
      if i + LIMIT == |times| { assert i < |times| - |Recent(times, now)|; }
    }
  }

  lemma RecentNeverExceeds(times: seq<int>, now: int)
    requires Sorted(times) && Spread(times) && (times != [] ==> times[|times| - 1] <= now)
    ensures |Recent(times, now)| <= LIMIT
  {
    hide Recent;
    var k := |times| - |Recent(times, now)|;
    if 0 <= k && k + LIMIT < |times| { SpreadAt(times, now, k); }
    RecentIsSuffix(times, now);
  }

  lemma SpreadAt(times: seq<int>, now: int, i: nat)
    requires Sorted(times) && Spread(times) && (times != [] ==> times[|times| - 1] <= now)
    requires i + LIMIT < |times|
    ensures times[i] <= now - WINDOW
  {
    assert times[i + LIMIT] - times[i] >= WINDOW;
  }

  // ---- Whole runs ----

  function Run(calls: seq<int>): Log {
    if calls == [] then Log([], []) else Step(Run(calls[..|calls| - 1]), calls[|calls| - 1])
  }

  /** With a clock that never runs backwards, every run leaves a consistent log. */
  lemma {:induction false} RunIsConsistent(calls: seq<int>)
    requires Sorted(calls)
    ensures Consistent(Run(calls), if calls == [] then 0 else calls[|calls| - 1])
    ensures calls == [] ==> Run(calls) == Log([], [])
  {
    hide Recent, Step, Consistent, Sorted;
    if calls == [] {
      NothingIsConsistent();
    } else {
      var pre, now := calls[..|calls| - 1], calls[|calls| - 1];
      SortedPrefix(calls);
      RunIsConsistent(pre);
      StepKeeps(Run(pre), if pre == [] then now else pre[|pre| - 1], now) by {
        NothingIsConsistentAt(now);
      }
    }
  }

  lemma SortedPrefix(s: seq<int>)
    requires Sorted(s) && s != []
    ensures Sorted(s[..|s| - 1]) && (|s| > 1 ==> s[|s| - 2] <= s[|s| - 1])
  {
  }

  lemma NothingIsConsistent()
    ensures Consistent(Log([], []), 0)
  {
  }

  lemma NothingIsConsistentAt(at: int)
    ensures Consistent(Log([], []), at)
  {
  }

  /** How many of the times lie in a half-open window of ten seconds: after `from`, up to and including its end. */
  function InWindow(times: seq<int>, from: int): nat {
    if times == [] then 0
    else (if from < times[0] <= from + 10_000_000_000 then 1 else 0) + InWindow(times[1..], from)
  }

  lemma {:induction false} InWindowBound(times: seq<int>, from: int)
    requires Sorted(times)
    ensures InWindow(times, from) <= |times|
    ensures times != [] && times[0] > from + WINDOW ==> InWindow(times, from) == 0
  {
    if times != [] { InWindowBound(times[1..], from); }
  }

  lemma {:induction false} InWindowCapped(times: seq<int>, from: int, m: nat)
    requires Sorted(times) && m <= |times|
    requires m < |times| ==> times[m] > from + WINDOW
    ensures InWindow(times, from) <= m
  {
    if m == 0 {
      InWindowBound(times, from);
    } else {
      InWindowCapped(times[1..], from, m - 1);
    }
  }

  lemma {:induction false} SpreadBoundsWindow(times: seq<int>, from: int)
    requires Sorted(times) && Spread(times)
    ensures InWindow(times, from) <= LIMIT
  {
    if times != [] {
      if times[0] <= from {
        assert Spread(times[1..]) by {
          forall i | 0 <= i && i + LIMIT < |times[1..]| ensures times[1..][i + LIMIT] - times[1..][i] >= WINDOW {
            assert times[i + 1 + LIMIT] - times[i + 1] >= WINDOW;
          }
        }
        SpreadBoundsWindow(times[1..], from);
      } else if |times| > LIMIT {
        assert times[0 + LIMIT] - times[0] >= WINDOW;
        InWindowCapped(times, from, LIMIT);
      } else {
        InWindowBound(times, from);
      }
    }
  }

  /** Over any run, no half-open ten-second window holds more than 120 accepted creations. */
  lemma AtMostLimitPerWindow(calls: seq<int>, from: int)
    requires Sorted(calls)
    ensures InWindow(Run(calls).accepted, from) <= 120
  {
    hide Recent, Run;
    RunIsConsistent(calls);
    SpreadBoundsWindow(Run(calls).accepted, from);
  }

  lemma {:induction false} AllInWindow(times: seq<int>, from: int)
    requires forall i :: 0 <= i < |times| ==> from < times[i] <= from + WINDOW
    ensures InWindow(times, from) == |times|
  {
    if times != [] { AllInWindow(times[1..], from); }
  }

  lemma {:induction false} InWindowConcat(a: seq<int>, b: seq<int>, from: int)
    ensures InWindow(a + b, from) == InWindow(a, from) + InWindow(b, from)
  {
    if a == [] {
      assert a + b == b;
    } else {
      assert (a + b)[1..] == a[1..] + b;
      InWindowConcat(a[1..], b, from);
    }
  }

  lemma {:induction false} NoneInWindow(times: seq<int>, from: int)
    requires forall i :: 0 <= i < |times| ==> times[i] <= from
    ensures InWindow(times, from) == 0
  {
    if times != [] { NoneInWindow(times[1..], from); }
  }

  /** The entries of a consistent log are exactly the acceptances of the window ending now. */
  lemma RecentCountsWindow(times: seq<int>, now: int)
    requires Sorted(times) && (times != [] ==> times[|times| - 1] <= now)
    ensures InWindow(times, now - WINDOW) == |Recent(times, now)|
  {
    hide Recent, InWindow;
    RecentIsSuffix(times, now);
    var k := |times| - |Recent(times, now)|;
    assert times[..k] + times[k..] == times;
    forall i | 0 <= i < |times[k..]| ensures now - WINDOW < times[k..][i] <= now {
      assert times[k..][i] == times[k + i];
      if k + i < |times| - 1 { assert times[k + i] <= times[|times| - 1]; }
    }
    InWindowConcat(times[..k], times[k..], now - WINDOW);
    NoneInWindow(times[..k], now - WINDOW);
    AllInWindow(times[k..], now - WINDOW);
  }

  /** A call is refused exactly when the window ending now already holds 120 acceptances. */
  lemma RefusedIffWindowFull(calls: seq<int>, now: int)
    requires Sorted(calls + [now])
    ensures Run(calls + [now]).accepted == Run(calls).accepted
       <==> InWindow(Run(calls).accepted, now - 10_000_000_000) == 120
  {
    hide Recent, InWindow;
    var all := calls + [now];
    assert all[..|calls|] == calls && all[|calls|] == now;
    SortedPrefix(all);
    RunIsConsistent(calls);
    var before, at := Run(calls), if calls == [] then now else calls[|calls| - 1];
    NothingIsConsistentAt(now);
    StepKeeps(before, at, now);
    RecentNeverExceeds(before.accepted, now);
    RecentCountsWindow(before.accepted, now);
    assert Run(all) == Step(before, now);
  }
}
