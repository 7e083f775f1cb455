/**
 Layers 4 to 7 on a list in two parts: where the turn limit cuts, told from the list before turns are merged.
 Merging works on the two sides of the cut separately, so what the limit keeps is made from the recent part alone.
 */
module TurnCuts {
  import opened Text
  import opened Messages
  import opened HistoryFilters
  import opened HistoryTurns
  import HistoryPipeline

  type Policy = HistoryPipeline.Policy

  // ---- The cut, before turns are merged ----

  /** User messages, or for `merged` runs of them; `after`: the message before is a user message. */
  function UserTurns(ms: seq<Message>, after: bool, merged: bool): nat {
    if ms == [] then 0
    else (if ms[0].role == User && !(merged && after) then 1 else 0) + UserTurns(ms[1..], ms[0].role == User, merged)
  }

  /** The shortest front without which at most `limit` user turns are left. */
  function Cut(ms: seq<Message>, limit: nat, merged: bool): (cut: nat)
    ensures cut <= |ms|
  {
    if ms == [] || UserTurns(ms, false, merged) <= limit then 0 else 1 + Cut(ms[1..], limit, merged)
  }

  lemma AfterMatters(ms: seq<Message>, merged: bool)
    ensures UserTurns(ms, false, merged)
         == UserTurns(ms, true, merged) + if merged && ms != [] && ms[0].role == User then 1 else 0
  {
  }

  /** A cut that drops anything comes right after a turn of the user and keeps exactly `limit` turns. */
  lemma {:induction false} CutIsAfterTurn(ms: seq<Message>, limit: nat, merged: bool)
    ensures
      var k := Cut(ms, limit, merged);
      if k == 0 then UserTurns(ms, false, merged) <= limit
      else
        && ms[k - 1].role == User && UserTurns(ms[k..], false, merged) == limit
        && (merged && k < |ms| ==> ms[k].role != User)
  {
    if ms != [] && UserTurns(ms, false, merged) > limit {
      var rest := ms[1..];
      CutIsAfterTurn(rest, limit, merged);
      AfterMatters(rest, merged);
      var k := Cut(rest, limit, merged);
      assert ms[k + 1..] == rest[k..];
      assert k > 0 ==> ms[k] == rest[k - 1];
      assert k < |rest| ==> ms[k + 1] == rest[k];
    }
  }

  predicate SameRoles(a: seq<Message>, b: seq<Message>) {
    |a| == |b| && forall i :: 0 <= i < |a| ==> a[i].role == b[i].role
  }

  lemma {:induction false} TurnsOfRoles(a: seq<Message>, b: seq<Message>, after: bool, merged: bool)
    requires SameRoles(a, b)
    ensures UserTurns(a, after, merged) == UserTurns(b, after, merged)
    decreases |a|
  {
    if a != [] {
      forall i | 0 <= i < |a[1..]| ensures a[1..][i].role == b[1..][i].role { assert a[i + 1].role == b[i + 1].role; }
      TurnsOfRoles(a[1..], b[1..], a[0].role == User, merged);
    }
  }

  // ---- Counting user messages through the merges ----

  lemma {:induction false} UserCountConcat(a: seq<Message>, b: seq<Message>)
    ensures UserCount(a + b) == UserCount(a) + UserCount(b)
  {
    if b == [] {
      assert a + b == a;
    } else {
      assert (a + b)[..|a + b| - 1] == a + b[..|b| - 1];
      UserCountConcat(a, b[..|b| - 1]);
    }
  }

  lemma UserCountOne(m: Message)
    ensures UserCount([m]) == if m.role == User then 1 else 0
  {
    assert [m][..0] == [];
  }

  lemma {:induction false} UserCountIsTurns(ms: seq<Message>, after: bool)
    ensures UserCount(ms) == UserTurns(ms, after, false)
  {
    hide UserCount;
    if ms == [] {
      assert UserCount([]) == 0 by { NoUsers(); }
    } else {
      assert ms == [ms[0]] + ms[1..];
      UserCountConcat([ms[0]], ms[1..]);
      UserCountOne(ms[0]);
      UserCountIsTurns(ms[1..], ms[0].role == User);
    }
  }

  lemma NoUsers()
    ensures UserCount([]) == 0
  {
  }

  predicate EndsWith(ms: seq<Message>, role: Role) {
    ms != [] && ms[|ms| - 1].role == role
  }

  lemma MergeOneUsers(acc: seq<Message>, m: Message, target: Role)
    ensures
      var next := MergeOne(acc, m, target);
      && next != [] && next[|next| - 1].role == m.role
      && UserCount(next) == UserCount(acc)
                         + if m.role == User && !(target == User && EndsWith(acc, User)) then 1 else 0
  {
    hide Trim, MergedText, UserCount;
    if m.role == target && EndsWith(acc, target) {
      var pre, last := acc[..|acc| - 1], acc[|acc| - 1];
      assert acc == pre + [last];
      UserCountConcat(pre, [last]);
      UserCountConcat(pre, [MergePair(last, m)]);
      UserCountOne(last);
      UserCountOne(MergePair(last, m));
    } else {
      UserCountConcat(acc, [m]);
      UserCountOne(m);
    }
  }

  /** Merging user messages leaves one for each run of them, and merging others leaves all of them. */
  lemma {:induction false} MergeUsers(ms: seq<Message>, acc: seq<Message>, target: Role)
    ensures UserCount(Merge(ms, acc, target))
         == UserCount(acc) + UserTurns(ms, EndsWith(acc, User), target == User)
    decreases |ms|
  {
    hide MergeOne, UserCount;
    if ms != [] {
      MergeOneUsers(acc, ms[0], target);
      MergeUsers(ms[1..], MergeOne(acc, ms[0], target), target);
    }
  }

  // ---- Merging in two parts ----

  /** No turn of this role reaches from one part into the other. */
  predicate Separate(a: seq<Message>, b: seq<Message>, target: Role) {
    a == [] || b == [] || a[|a| - 1].role != target || b[0].role != target
  }

  lemma {:induction false} MergeAfter(pre: seq<Message>, acc: seq<Message>, ms: seq<Message>, target: Role)
    requires acc == [] ==> Separate(pre, ms, target)
    ensures Merge(ms, pre + acc, target) == pre + Merge(ms, acc, target)
    decreases |ms|
  {
    hide Trim, MergePair;
    if ms != [] {
      var next := MergeOne(acc, ms[0], target);
      assert MergeOne(pre + acc, ms[0], target) == pre + next by {
        if acc != [] { assert (pre + acc)[..|pre + acc| - 1] == pre + acc[..|acc| - 1]; }
      }
      MergeAfter(pre, next, ms[1..], target);
    }
  }

  lemma {:induction false} MergeFirst(a: seq<Message>, b: seq<Message>, acc: seq<Message>, target: Role)
    ensures Merge(a + b, acc, target) == Merge(b, Merge(a, acc, target), target)
    decreases |a|
  {
    hide MergeOne;
    if a == [] {
      assert a + b == b;
    } else {
      assert (a + b)[1..] == a[1..] + b;
      MergeFirst(a[1..], b, MergeOne(acc, a[0], target), target);
    }
  }

  /** The roles at both ends. */
  predicate SameEnds(a: seq<Message>, b: seq<Message>) {
    if a == [] then b == [] else b != [] && a[0].role == b[0].role && a[|a| - 1].role == b[|b| - 1].role
  }

  lemma MergeOneEnds(acc: seq<Message>, m: Message, target: Role)
    ensures SameEnds(acc + [m], MergeOne(acc, m, target))
  {
    hide Trim, MergedText;
  }

  lemma {:induction false} MergeEnds(ms: seq<Message>, acc: seq<Message>, target: Role)
    ensures SameEnds(acc + ms, Merge(ms, acc, target))
    decreases |ms|
  {
    hide MergeOne;
    if ms != [] {
      var next := MergeOne(acc, ms[0], target);
      MergeOneEnds(acc, ms[0], target);
      MergeEnds(ms[1..], next, target);
      assert (acc + ms)[|acc + ms| - 1] == ms[|ms| - 1];
    }
  }

  lemma MergeConcat(a: seq<Message>, b: seq<Message>, target: Role)
    requires Separate(a, b, target)
    ensures Merge(a + b, [], target) == Merge(a, [], target) + Merge(b, [], target)
  {
    hide Merge;
    var first := Merge(a, [], target);
    MergeFirst(a, b, [], target);
    MergeEnds(a, [], target);
    assert [] + a == a;
    MergeAfter(first, [], b, target);
    assert first + [] == first;
  }

  // ---- The layers before the limit in two parts ----

  /** Layers 4 to 6. */
  function Turned(ms: seq<Message>, p: Policy): seq<Message> {
    HistoryPipeline.Middle(ms, p.(turnLimit := 0))
  }

  lemma MiddleIsLimited(ms: seq<Message>, p: Policy)
    ensures HistoryPipeline.Middle(ms, p) == LimitTurns(Turned(ms, p), p.turnLimit)
  {
    hide Truncate, Strip, Merge, CutIndex;
  }

  lemma {:induction false} RunIdsConcat(a: seq<Message>, b: seq<Message>)
    requires b == [] || b[0].role != Tool
    ensures RunIds(a + b) == RunIds(a)
  {
    hide Trim;
    if a == [] {
      assert a + b == b;
    } else {
      assert (a + b)[1..] == a[1..] + b;
      RunIdsConcat(a[1..], b);
    }
  }

  lemma {:induction false} StripConcat(a: seq<Message>, b: seq<Message>)
    requires b == [] || b[0].role != Tool
    ensures Strip(a + b) == Strip(a) + Strip(b)
  {
    hide StripOne, RunIds;
    if a == [] {
      assert a + b == b;
    } else {
      assert (a + b)[1..] == a[1..] + b;
      RunIdsConcat(a[1..], b);
      StripConcat(a[1..], b);
    }
  }

  lemma TruncateConcat(a: seq<Message>, b: seq<Message>, maxLen: int)
    ensures Truncate(a + b, maxLen) == Truncate(a, maxLen) + Truncate(b, maxLen)
  {
    hide TruncateIn;
  }

  lemma {:induction false} StripRoles(ms: seq<Message>)
    ensures SameRoles(ms, Strip(ms))
  {
    hide KeepAnswered, RunIds, Trim;
    if ms != [] { StripRoles(ms[1..]); }
  }

  /** What the user merge of layer 5 starts from. */
  function Start(ms: seq<Message>, p: Policy): seq<Message> {
    var truncated := Truncate(ms, MAX_TOOL_RESULT);
    if p.anthropicTurns then Strip(truncated) else truncated
  }

  lemma StartRoles(ms: seq<Message>, p: Policy)
    ensures SameRoles(ms, Start(ms, p))
  {
    hide Strip;
    StripRoles(Truncate(ms, MAX_TOOL_RESULT));
  }

  lemma StartConcat(a: seq<Message>, b: seq<Message>, p: Policy)
    requires b == [] || b[0].role != Tool
    ensures Start(a + b, p) == Start(a, p) + Start(b, p)
  {
    hide Strip;
    TruncateConcat(a, b, MAX_TOOL_RESULT);
    StripConcat(Truncate(a, MAX_TOOL_RESULT), Truncate(b, MAX_TOOL_RESULT));
  }

  function UserMerged(ms: seq<Message>, p: Policy): seq<Message> {
    if p.anthropicTurns then Merge(Start(ms, p), [], User) else Start(ms, p)
  }

  lemma TurnedIs(ms: seq<Message>, p: Policy)
    ensures Turned(ms, p) == if p.geminiTurns then Merge(UserMerged(ms, p), [], Assistant) else UserMerged(ms, p)
  {
    hide Truncate, Strip, Merge;
  }

  lemma UserMergedEnds(ms: seq<Message>, p: Policy)
    ensures SameEnds(ms, UserMerged(ms, p))
  {
    hide Start, Merge;
    StartRoles(ms, p);
    MergeEnds(Start(ms, p), [], User);
    assert [] + Start(ms, p) == Start(ms, p);
  }

  lemma TurnedEnds(ms: seq<Message>, p: Policy)
    ensures SameEnds(ms, Turned(ms, p))
  {
    hide UserMerged, Merge, Turned;
    UserMergedEnds(ms, p);
    TurnedIs(ms, p);
    MergeEnds(UserMerged(ms, p), [], Assistant);
    assert [] + UserMerged(ms, p) == UserMerged(ms, p);
  }

  /** The two parts can be treated by themselves: the first ends with a whole turn of the user or the system. */
  predicate Splits(a: seq<Message>, b: seq<Message>, p: Policy) {
    && a != [] && (a[|a| - 1].role == User || a[|a| - 1].role == System)
    && (b == [] || (b[0].role != Tool && !(p.anthropicTurns && a[|a| - 1].role == User && b[0].role == User)))
  }

  lemma UserMergedConcat(a: seq<Message>, b: seq<Message>, p: Policy)
    requires Splits(a, b, p)
    ensures UserMerged(a + b, p) == UserMerged(a, p) + UserMerged(b, p)
  {
    hide Start, Merge;
    StartConcat(a, b, p);
    StartRoles(a, p);
    StartRoles(b, p);
    if p.anthropicTurns { MergeConcat(Start(a, p), Start(b, p), User); }
  }

  lemma TurnedConcat(a: seq<Message>, b: seq<Message>, p: Policy)
    requires Splits(a, b, p)
    ensures Turned(a + b, p) == Turned(a, p) + Turned(b, p)
  {
    hide Turned, UserMerged, Merge;
    TurnedIs(a + b, p);
    TurnedIs(a, p);
    TurnedIs(b, p);
    UserMergedConcat(a, b, p);
    UserMergedEnds(a, p);
    if p.geminiTurns { MergeConcat(UserMerged(a, p), UserMerged(b, p), Assistant); }
  }

  lemma TurnedNothing(p: Policy)
    ensures Turned([], p) == []
  {
    assert Truncate([], MAX_TOOL_RESULT) == [];
  }

  lemma TurnedSystem(m: Message, p: Policy)
    requires m.role == System
    ensures Turned([m], p) == [m]
  {
    hide Trim, RunIds;
    var truncated := Truncate([m], MAX_TOOL_RESULT);
    assert truncated == [m] && [m][1..] == [];
    assert Strip([]) == [] && Strip([m]) == [m];
    assert Merge([], [m], User) == [m] && Merge([], [m], Assistant) == [m];
    assert [] + [m] == [m];
  }

  /** As many user messages as turns of the user before merging. */
  lemma TurnedUsers(ms: seq<Message>, p: Policy)
    ensures UserCount(Turned(ms, p)) == UserTurns(ms, false, p.anthropicTurns)
  {
    hide Turned, Start, Merge, UserCount, UserTurns;
    TurnedIs(ms, p);
    StartRoles(ms, p);
    NoUsers();
    var start, merged := Start(ms, p), UserMerged(ms, p);
    TurnsOfRoles(ms, start, false, p.anthropicTurns);
    MergeUsers(start, [], User);
    UserCountIsTurns(start, false);
    MergeUsers(merged, [], Assistant);
    UserCountIsTurns(merged, false);
  }

  // ---- The limit in two parts ----

  lemma {:induction false} CutIndexAtLeast(x: seq<Message>, y: seq<Message>, limit: nat)
    requires UserCount(y) <= limit
    ensures CutIndex(x + y, limit) == CutIndex(x, limit - UserCount(y))
    decreases |y|
  {
    if y == [] {
      assert x + y == x;
    } else {
      var all := x + y;
      assert all[..|all| - 1] == x + y[..|y| - 1];
      CutIndexAtLeast(x, y[..|y| - 1], if y[|y| - 1].role == User then limit - 1 else limit);
    }
  }

  /** The limit cuts right before the last `limit` user messages and what comes between them. */
  lemma CutIndexIs(x: seq<Message>, y: seq<Message>, limit: nat)
    requires if x == [] then UserCount(y) <= limit else EndsWith(x, User) && UserCount(y) == limit
    ensures CutIndex(x + y, limit) == |x|
  {
    hide UserCount;
    CutIndexAtLeast(x, y, limit);
  }

  lemma LimitBehindSystem(m: Message, rest: seq<Message>, limit: nat)
    requires limit > 0 && m.role == System
    ensures LimitTurns([m] + rest, limit) == [m] + rest[CutIndex(rest, limit)..]
  {
    hide CutIndex;
    assert ([m] + rest)[1..] == rest;
  }

  lemma LimitInParts(head: seq<Message>, x: seq<Message>, y: seq<Message>, limit: nat)
    requires limit > 0
    requires if head == [] then x + y == [] || (x + y)[0].role != System else |head| == 1 && head[0].role == System
    requires if x == [] then UserCount(y) <= limit else EndsWith(x, User) && UserCount(y) == limit
    ensures LimitTurns(head + (x + y), limit) == head + y
  {
    hide UserCount, CutIndex, EndsWith;
    CutIndexIs(x, y, limit);
    var rest := x + y;
    assert rest[|x|..] == y;
    if head == [] {
      assert head + rest == rest && head + y == y;
    } else {
      hide LimitTurns;
      assert head == [head[0]];
      LimitBehindSystem(head[0], rest, limit);
    }
  }

  /** Where no turns are merged, this is the cut of the limit. */
  lemma CutIsCutIndex(ms: seq<Message>, limit: nat)
    ensures Cut(ms, limit, false) == CutIndex(ms, limit)
  {
    hide UserCount, UserTurns, CutIndex, Cut;
    CutIsAfterTurn(ms, limit, false);
    var k := Cut(ms, limit, false);
    var x, y := ms[..k], ms[k..];
    assert ms == x + y;
    UserCountIsTurns(y, false);
    assert k == 0 ==> y == ms;
    CutIndexIs(x, y, limit);
  }
}
