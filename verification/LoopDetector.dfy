/** The no-progress detectors of the tool loop, and why a bounded window of rounds is enough for them. */
module LoopDetector {

  type Fingerprint = string

  const DEFAULT_WARNING := 10
  const DEFAULT_CRITICAL := 30

  function NormalizeWarning(value: int): (w: nat)
    ensures w > 0 && (value > 0 ==> w == value) && (value <= 0 ==> w == 10)
  {
    if value <= 0 then DEFAULT_WARNING else value
  }

  function NormalizeCritical(value: int, warning: nat): (c: nat)
    ensures c > warning
    ensures value > warning ==> c == value
    ensures value <= 0 && warning < 30 ==> c == 30
  {
    var v := if value <= 0 then DEFAULT_CRITICAL else value;
    if v <= warning then warning + 1 else v
  }

  // ---- Streaks: suffixes that repeat with period 1 (identical) or 2 (ping-pong) ----

  /** The last k rounds repeat with period p. */
  predicate Repeats(h: seq<Fingerprint>, p: nat, k: nat) {
    k <= |h| && forall i :: |h| - k <= i < |h| - p ==> h[i] == h[i + p]
  }

  /** Length of the longest suffix with period p. */
  function Streak(h: seq<Fingerprint>, p: nat): (k: nat)
    requires p > 0
    ensures k <= |h| && (|h| >= p ==> k >= p) && (|h| < p ==> k == |h|)
  {
    if |h| <= p then |h|
    else if h[|h| - 1] == h[|h| - 1 - p] then 1 + Streak(h[..|h| - 1], p)
    else p
  }

  lemma {:induction false} StreakIsLongest(h: seq<Fingerprint>, p: nat, k: nat)
    requires p > 0 && k <= |h|
    ensures Repeats(h, p, k) <==> k <= Streak(h, p)
  {
    if |h| > p && k > p {
      var pre := h[..|h| - 1];
      StreakIsLongest(pre, p, k - 1);
      if Repeats(h, p, k) {
        assert h[|h| - 1 - p] == h[|h| - 1 - p + p];
        assert Repeats(pre, p, k - 1) by {
          forall i | |pre| - (k - 1) <= i < |pre| - p ensures pre[i] == pre[i + p] {
            assert h[i] == h[i + p];
          }
        }
      }
      if h[|h| - 1] == h[|h| - 1 - p] && Repeats(pre, p, k - 1) {
        forall i | |h| - k <= i < |h| - p ensures h[i] == h[i + p] {
          if i < |pre| - p { assert pre[i] == pre[i + p]; }
        }
      }
    }
  }

  function IdenticalRounds(h: seq<Fingerprint>): nat {
    Streak(h, 1)
  }

  /** Alternation between two different rounds counts from four rounds on. */
  function PingPongRounds(h: seq<Fingerprint>): nat {
    if |h| < 4 || h[|h| - 1] == h[|h| - 2] || Streak(h, 2) < 4 then 0 else Streak(h, 2)
  }

  method CountTrailingIdenticalRounds(history: seq<Fingerprint>) returns (count: nat)
    ensures count == IdenticalRounds(history)
  {
    if |history| == 0 { return 0; }
    var last := history[|history| - 1];
    count := 0;
    var index := |history| - 1;
    while index >= 0
      invariant -1 <= index < |history| && count == |history| - 1 - index
      invariant forall i :: index < i < |history| ==> history[i] == last
    {
      if history[index] != last { break; }
      count := count + 1;
      index := index - 1;
    }
    StreakIsLongest(history, 1, count);
    if count < |history| {
      StreakIsLongest(history, 1, count + 1);
      assert !Repeats(history, 1, count + 1) by { assert history[index] != history[index + 1]; }
    }
  }

  method CountTrailingPingPongRounds(history: seq<Fingerprint>) returns (count: nat)
    ensures count == PingPongRounds(history)
  {
    var n := |history|;
    if n < 4 { return 0; }
    var last, previous := history[n - 1], history[n - 2];
    if last == previous { return 0; }
    count := 2;
    var index := n - 3;
    while index >= 0
      invariant -1 <= index <= n - 3 && count == n - 1 - index
      invariant Repeats(history, 2, count)
      invariant history[index + 2] == if count % 2 == 0 then last else previous
      invariant history[index + 1] == if count % 2 == 0 then previous else last
    {
      var expected := if count % 2 == 0 then last else previous;
      if history[index] != expected { break; }
      count := count + 1;
      index := index - 1;
    }
    StreakIsLongest(history, 2, count);
    if count < n {
      StreakIsLongest(history, 2, count + 1);
      assert !Repeats(history, 2, count + 1) by { assert history[index] != history[index + 2]; }
    }
    if count < 4 { return 0; }
  }

  // ---- Cutting the history to the last c rounds loses nothing ----

  function Window(h: seq<Fingerprint>, c: nat): (w: seq<Fingerprint>)
    ensures |w| == if |h| > c then c else |h|
  {
    if |h| > c then h[|h| - c..] else h
  }

  function Min(a: nat, b: nat): nat {
    if a < b then a else b
  }

  lemma {:induction false} StreakOfWindow(h: seq<Fingerprint>, c: nat, p: nat)
    requires 0 < p <= c
    ensures Streak(Window(h, c), p) == Min(c, Streak(h, p))
  {
    if |h| > c {
      var w := Window(h, c);
      forall k | 0 <= k <= c ensures Repeats(w, p, k) <==> Repeats(h, p, k) { RepeatsInWindow(h, c, p, k); }
      StreakIsLongest(w, p, Streak(w, p));
      StreakIsLongest(h, p, Streak(w, p));
      var m := Min(c, Streak(h, p));
      StreakIsLongest(w, p, m);
      StreakIsLongest(h, p, m);
    }
  }

  lemma RepeatsInWindow(h: seq<Fingerprint>, c: nat, p: nat, k: nat)
    requires k <= c < |h|
    ensures Repeats(Window(h, c), p, k) <==> Repeats(h, p, k)
  {
    var w, off := Window(h, c), |h| - c;
    if Repeats(w, p, k) {
      forall i | |h| - k <= i < |h| - p ensures h[i] == h[i + p] {
        assert w[i - off] == w[i - off + p];
      }
    }
  }

  /** For a window of at least four rounds both counters are the full ones, capped at the window. */
  lemma WindowLosesNothing(h: seq<Fingerprint>, c: nat)
    requires c >= 4
    ensures IdenticalRounds(Window(h, c)) == Min(c, IdenticalRounds(h))
    ensures PingPongRounds(Window(h, c)) == Min(c, PingPongRounds(h))
  {
    StreakOfWindow(h, c, 1);
    StreakOfWindow(h, c, 2);
  }

  /** A shorter window hides every alternation. */
  lemma ShortWindowHidesPingPong(h: seq<Fingerprint>, c: nat)
    requires c < 4
    ensures PingPongRounds(Window(h, c)) == 0
  {
  }

  /** Sliding the window round by round is the same as cutting the full history. */
  lemma WindowSlides(h: seq<Fingerprint>, c: nat, f: Fingerprint)
    requires c > 0
    ensures Window(Window(h, c) + [f], c) == Window(h + [f], c)
  {
  }

  // ---- One verdict per round ----

  datatype Warning = WarnIdentical(count: nat) | WarnPingPong(count: nat)

  datatype Verdict = Continue | StopIdentical(count: nat) | StopPingPong(count: nat)

  /** What the loop reports after a round, given the two counters. */
  function WarningsFor(identical: nat, pingPong: nat, w: nat, c: nat): seq<Warning> {
    (if identical == w then [WarnIdentical(identical)] else [])
    + (if identical < c && pingPong == w then [WarnPingPong(pingPong)] else [])
  }

  function VerdictFor(identical: nat, pingPong: nat, c: nat): Verdict {
    if identical >= c then StopIdentical(identical)
    else if pingPong >= c then StopPingPong(pingPong)
    else Continue
  }

  /** The alternation the loop can see at all: none when its window is shorter than four rounds. */
  function VisiblePingPong(h: seq<Fingerprint>, c: nat): nat {
    if c < 4 then 0 else PingPongRounds(h)
  }

  /** The verdict of a detector that remembers every round. */
  function FullVerdict(h: seq<Fingerprint>, c: nat): Verdict {
    VerdictFor(IdenticalRounds(h), VisiblePingPong(h, c), c)
  }

  function FullWarnings(h: seq<Fingerprint>, w: nat, c: nat): seq<Warning> {
    WarningsFor(IdenticalRounds(h), VisiblePingPong(h, c), w, c)
  }

  /** One more round lengthens a streak by at most one. */
  lemma StreakGrowsByOne(h: seq<Fingerprint>, f: Fingerprint, p: nat)
    requires p > 0
    ensures Streak(h + [f], p) <= Streak(h, p) + 1
  {
    assert (h + [f])[..|h|] == h;
  }

  /** A loop that has not stopped yet sees exactly the counters of the detector that remembers everything. */
  lemma WindowedCountersAreFull(h: seq<Fingerprint>, f: Fingerprint, w: nat, c: nat)
    requires 0 < w < c && FullVerdict(h, c) == Continue
    ensures
      var all := h + [f];
      && IdenticalRounds(Window(all, c)) == IdenticalRounds(all)
      && PingPongRounds(Window(all, c)) == VisiblePingPong(all, c)
  {
    var all := h + [f];
    StreakGrowsByOne(h, f, 1);
    StreakOfWindow(all, c, 1);
    if c < 4 {
      ShortWindowHidesPingPong(all, c);
    } else {
      WindowLosesNothing(all, c);
      if PingPongRounds(all) > 0 { PingPongGrowsByOne(h, f); }
    }
  }

  lemma PingPongGrowsByOne(h: seq<Fingerprint>, f: Fingerprint)
    requires PingPongRounds(h + [f]) > 0
    ensures PingPongRounds(h + [f]) == 4 || PingPongRounds(h + [f]) == PingPongRounds(h) + 1
  {
    var all := h + [f];
    assert all[..|h|] == h;
    assert all[|h|] == all[|h| - 2];
    assert all[|h| - 1] == h[|h| - 1] && all[|h| - 2] == h[|h| - 2];
  }

  // ---- Whole runs ----

  /** The first number of rounds after which the detector stops the loop; 0 when it never does. */
  function StopRound(fps: seq<Fingerprint>, c: nat): (n: nat)
    ensures n <= |fps|
  {
    if fps == [] then 0
    else
      var before := StopRound(fps[..|fps| - 1], c);
      if before > 0 then before else if FullVerdict(fps, c) != Continue then |fps| else 0
  }

  /** The warnings of the rounds after the first `from`. */
  function WarningsFrom(h: seq<Fingerprint>, from: nat, w: nat, c: nat): seq<Warning>
    requires from <= |h|
    decreases |h|
  {
    if from == |h| then [] else WarningsFrom(h[..|h| - 1], from, w, c) + FullWarnings(h, w, c)
  }

  /** A warning that exactly one of the rounds gives is there exactly once; one that none gives, not at all. */
  lemma {:induction false} WarningsCount(h: seq<Fingerprint>, from: nat, w: nat, c: nat, x: Warning, at: nat)
    requires from <= |h|
    requires forall m :: from < m <= |h| ==> (x in FullWarnings(h[..m], w, c) <==> m == at)
    ensures multiset(WarningsFrom(h, from, w, c))[x] == if from < at <= |h| then 1 else 0
    decreases |h|
  {
    hide IdenticalRounds, VisiblePingPong;
    if from < |h| {
      var pre := h[..|h| - 1];
      forall m | from < m <= |pre| ensures pre[..m] == h[..m] {}
      assert h[..|h|] == h;
      WarningsCount(pre, from, w, c, x, at);
    }
  }

  lemma {:induction false} WarningsSplit(h: seq<Fingerprint>, from: nat, mid: nat, w: nat, c: nat)
    requires from <= mid <= |h|
    ensures WarningsFrom(h, from, w, c) == WarningsFrom(h[..mid], from, w, c) + WarningsFrom(h, mid, w, c)
    decreases |h|
  {
    hide FullWarnings;
    if mid == |h| {
      assert h[..mid] == h;
    } else {
      var pre := h[..|h| - 1];
      WarningsSplit(pre, from, mid, w, c);
      assert pre[..mid] == h[..mid];
    }
  }

  lemma {:induction false} StopRoundIsFirst(fps: seq<Fingerprint>, c: nat)
    ensures var n := StopRound(fps, c);
            && (forall m :: 0 < m <= |fps| && (n == 0 || m < n) ==> FullVerdict(fps[..m], c) == Continue)
            && (n > 0 ==> FullVerdict(fps[..n], c) != Continue)
  {
    hide FullVerdict;
    if fps != [] {
      var pre := fps[..|fps| - 1];
      StopRoundIsFirst(pre, c);
      forall m | 0 < m <= |pre| ensures fps[..m] == pre[..m] {}
      assert fps[..|fps|] == fps;
    }
  }

  lemma {:induction false} StopRoundOfPrefix(fps: seq<Fingerprint>, c: nat, m: nat)
    requires m <= |fps|
    ensures StopRound(fps[..m], c) == if StopRound(fps, c) <= m then StopRound(fps, c) else 0
  {
    hide FullVerdict;
    if m == |fps| {
      assert fps[..m] == fps;
    } else {
      StopRoundOfPrefix(fps[..|fps| - 1], c, m);
      assert fps[..|fps| - 1][..m] == fps[..m];
    }
  }

  lemma {:induction false} StreakOfPrefix(h: seq<Fingerprint>, p: nat, m: nat)
    requires p > 0 && |h| - Streak(h, p) + p <= m <= |h|
    ensures Streak(h[..m], p) == m - (|h| - Streak(h, p))
  {
    if m == |h| {
      assert h[..m] == h;
    } else {
      var pre := h[..|h| - 1];
      StreakOfPrefix(pre, p, m);
      assert pre[..m] == h[..m];
    }
  }

  /** A stop for identical rounds comes at a streak of exactly c, warned of once: at its w-th round. */
  lemma IdenticalStopWarnedOnce(fps: seq<Fingerprint>, w: nat, c: nat, m: nat)
    requires 0 < w < c && FullVerdict(fps, c).StopIdentical? && fps != []
    requires FullVerdict(fps[..|fps| - 1], c) == Continue
    ensures IdenticalRounds(fps) == c
    ensures |fps| - c < m <= |fps| ==>
              ((WarnIdentical(w) in FullWarnings(fps[..m], w, c)) <==> m == |fps| - c + w)
  {
    var pre := fps[..|fps| - 1];
    assert fps == pre + [fps[|fps| - 1]];
    StreakGrowsByOne(pre, fps[|fps| - 1], 1);
    if |fps| - c < m <= |fps| { StreakOfPrefix(fps, 1, m); }
  }

  /**
   A stop for alternation comes at exactly c rounds. Among the rounds in which it is under way (from its second
   on: the first may still end an earlier alternation) it was warned of, once, if and only if w is at least 4.
   */
  lemma PingPongStopWarnedOnce(fps: seq<Fingerprint>, w: nat, c: nat, m: nat)
    requires 0 < w < c && FullVerdict(fps, c).StopPingPong? && fps != []
    requires FullVerdict(fps[..|fps| - 1], c) == Continue
    ensures PingPongRounds(fps) == c && c >= 4
    ensures |fps| - c + 1 < m <= |fps| ==>
              ((WarnPingPong(w) in FullWarnings(fps[..m], w, c)) <==> w >= 4 && m == |fps| - c + w)
  {
    var pre, last := fps[..|fps| - 1], fps[|fps| - 1];
    assert fps == pre + [last];
    PingPongGrowsByOne(pre, last);
    if |fps| - c + 1 < m <= |fps| { AlternationPrefix(fps, c, w, m); }
  }

  /** Inside an alternating streak of length c no two neighbours are equal and the counter is the position. */
  lemma AlternationPrefix(fps: seq<Fingerprint>, c: nat, w: nat, m: nat)
    requires PingPongRounds(fps) == c >= 4 && 0 < w < c && |fps| - c + 1 < m <= |fps|
    ensures WarnPingPong(w) in FullWarnings(fps[..m], w, c) <==> w >= 4 && m == |fps| - c + w
  {
    var h := fps[..m];
    StreakOfPrefix(fps, 2, m);
    NeighboursDiffer(fps, c, m);
    assert h[m - 1] != h[m - 2];
  }

  lemma {:induction false} NeighboursDiffer(fps: seq<Fingerprint>, c: nat, m: nat)
    requires PingPongRounds(fps) == c >= 4 && |fps| - c + 2 <= m <= |fps|
    ensures fps[m - 1] != fps[m - 2]
    decreases |fps| - m
  {
    if m < |fps| {
      NeighboursDiffer(fps, c, m + 1);
      StreakIsLongest(fps, 2, c);
      assert fps[m - 2] == fps[m - 2 + 2];
    }
  }

  /** Rounds from `from` on repeat with period p. */
  predicate RepeatsFrom(fps: seq<Fingerprint>, from: nat, p: nat) {
    forall i :: from <= i < |fps| - p ==> fps[i] == fps[i + p]
  }

  /** A run that becomes constant stops within c rounds. */
  lemma EventuallyConstantStops(fps: seq<Fingerprint>, from: nat, c: nat)
    requires c > 0 && from + c <= |fps| && RepeatsFrom(fps, from, 1)
    ensures 0 < StopRound(fps, c) <= from + c
  {
    var h := fps[..from + c];
    assert Repeats(h, 1, c);
    StreakIsLongest(h, 1, c);
    assert FullVerdict(h, c) != Continue;
    StopRoundIsFirst(fps, c);
  }

  /** A run that starts to alternate between two rounds stops within c rounds, if c is at least 4. */
  lemma EventuallyAlternatingStops(fps: seq<Fingerprint>, from: nat, c: nat)
    requires c >= 4 && from + c <= |fps| && RepeatsFrom(fps, from, 2) && fps[from] != fps[from + 1]
    ensures 0 < StopRound(fps, c) <= from + c
  {
    var h := fps[..from + c];
    assert Repeats(h, 2, c);
    StreakIsLongest(h, 2, c);
    AlternatingNeighbours(fps, from, from + c - 2);
    assert h[|h| - 1] != h[|h| - 2];
    assert FullVerdict(h, c) != Continue;
    StopRoundIsFirst(fps, c);
  }

  lemma {:induction false} AlternatingNeighbours(fps: seq<Fingerprint>, from: nat, i: nat)
    requires RepeatsFrom(fps, from, 2) && from <= i && i + 1 < |fps| && fps[from] != fps[from + 1]
    ensures fps[i] != fps[i + 1]
  {
    if i > from {
      AlternatingNeighbours(fps, from, i - 1);
      assert fps[i - 1] == fps[i - 1 + 2];
    }
  }

  /** Alternation is stopped exactly when the critical threshold leaves room for four rounds. */
  lemma AlternationStopsIffWindowFits(fps: seq<Fingerprint>, c: nat)
    requires 1 < c <= |fps| && RepeatsFrom(fps, 0, 2) && fps[0] != fps[1]
    ensures StopRound(fps, c) > 0 <==> c >= 4
  {
    if c >= 4 {
      EventuallyAlternatingStops(fps, 0, c);
    } else {
      StopRoundIsFirst(fps, c);
      if StopRound(fps, c) > 0 { AlternationGoesOn(fps, c, StopRound(fps, c)); }
    }
  }

  lemma AlternationGoesOn(fps: seq<Fingerprint>, c: nat, n: nat)
    requires 1 < c < 4 && 0 < n <= |fps| && |fps| > 1 && RepeatsFrom(fps, 0, 2) && fps[0] != fps[1]
    ensures FullVerdict(fps[..n], c) == Continue
  {
    if n > 1 { AlternatingNeighbours(fps, 0, n - 2); }
  }
}
