/**
 When the pipeline keeps block form, exactly. Its input is always in block form with clean ids; what matters is
 which ids are called twice, because layer 3 answers an id only once.
 */
module PipelineConditions {
  import opened Text
  import opened Messages
  import opened HistoryFilters
  import opened Repair
  import opened ToolCallIds
  import opened Sets
  import opened DistinctIds
  import opened Deduplication
  import opened HistoryPipeline
  import Turns = HistoryTurns
  import Cuts = TurnCuts
  import RepairTheorems
  import Meaning = HistoryMeaning

  // ---- Layers 1 and 2 need no distinct ids, only clean ones ----

  lemma FilterKeepsClean(ms: seq<Message>, allowed: set<string>)
    requires BlockForm(ms) && CleanCallIds(ms)
    ensures BlockForm(FilterTools(ms, allowed)) && CleanCallIds(FilterTools(ms, allowed))
  {
    hide Trim, Run, RemovedIds, KeepMessages;
    var removed := RemovedIds(ms, allowed);
    forall i | 0 <= i < |ms| ensures AgreeIn(Calls(ms[i]), removed) && CleanIn(ms[i]) {
      assert CleanCalls(Calls(ms[i]));
    }
    KeepMessagesRun([], ms, removed);
    KeepClean(ms, removed);
    forall i | 0 <= i < |KeepMessages(ms, removed)| ensures CleanCalls(Calls(KeepMessages(ms, removed)[i])) {
      assert CleanIn(KeepMessages(ms, removed)[i]);
    }
  }

  lemma FrontKeepsClean(ms: seq<Message>, p: Policy, allowed: set<string>, strip: string -> string)
    requires BlockForm(ms) && CleanCallIds(ms)
    ensures BlockForm(Front(ms, p, allowed, strip)) && CleanCallIds(Front(ms, p, allowed, strip))
  {
    hide Run, CleanCallIds, DropThinking, FilterTools;
    DropThinkingSkeleton(ms, strip);
    SkeletonRun(Some([]), ms, DropThinking(ms, strip));
    SkeletonClean(ms, DropThinking(ms, strip));
    FilterKeepsClean(if p.dropThinkingBlocks then DropThinking(ms, strip) else ms, allowed);
  }

  // ---- The later layers ----

  lemma {:induction false} ToolIdsConcat(a: seq<Message>, b: seq<Message>)
    ensures ToolIds(a + b) == ToolIds(a) + ToolIds(b)
  {
    hide Trim;
    if a == [] {
      assert a + b == b;
    } else {
      assert (a + b)[1..] == a[1..] + b;
      ToolIdsConcat(a[1..], b);
    }
  }

  lemma {:induction false} SkeletonTools(a: seq<Message>, b: seq<Message>)
    requires SameSkeleton(a, b)
    ensures ToolIds(a) == ToolIds(b)
    decreases |a|
  {
    hide Trim;
    if a != [] {
      assert SameHead(a[0], b[0]);
      forall i | 0 <= i < |a[1..]| ensures SameHead(a[1..][i], b[1..][i]) { assert SameHead(a[i + 1], b[i + 1]); }
      SkeletonTools(a[1..], b[1..]);
    }
  }

  lemma MergeOneTools(acc: seq<Message>, m: Message, target: Role)
    requires target == User || target == Assistant
    ensures ToolIds(Turns.MergeOne(acc, m, target)) == ToolIds(acc) + ToolIds([m])
  {
    hide Trim, ToolIds;
    if m.role != target || acc == [] || acc[|acc| - 1].role != target {
      ToolIdsConcat(acc, [m]);
    } else {
      var pre, last := acc[..|acc| - 1], acc[|acc| - 1];
      assert acc == pre + [last];
      ToolIdsConcat(pre, [last]);
      ToolIdsConcat(pre, [Turns.MergePair(last, m)]);
      NoToolIds(last);
      NoToolIds(Turns.MergePair(last, m));
      NoToolIds(m);
    }
  }

  lemma NoToolIds(m: Message)
    requires m.role != Tool
    ensures ToolIds([m]) == []
  {
    assert [m][1..] == [];
  }

  lemma {:induction false} MergeKeepsTools(ms: seq<Message>, acc: seq<Message>, target: Role)
    requires target == User || target == Assistant
    ensures ToolIds(Turns.Merge(ms, acc, target)) == ToolIds(acc) + ToolIds(ms)
    decreases |ms|
  {
    hide Turns.MergeOne, Trim;
    if ms != [] {
      MergeOneTools(acc, ms[0], target);
      MergeKeepsTools(ms[1..], Turns.MergeOne(acc, ms[0], target), target);
      ToolIdsConcat([ms[0]], ms[1..]);
      assert [ms[0]] + ms[1..] == ms;
    }
  }

  lemma {:induction false} RenameKeepsToolCount(ms: seq<Message>, ids: map<string, string>)
    ensures |ToolIds(Rename(ms, ids))| == |ToolIds(ms)|
  {
    hide Trim, NewId;
    if ms != [] {
      assert Rename(ms, ids)[1..] == Rename(ms[1..], ids);
      RenameKeepsToolCount(ms[1..], ids);
    }
  }

  /** As many results as calls. */
  predicate Balanced(ms: seq<Message>) {
    |ToolIds(ms)| == |AllCalls(ms)|
  }

  lemma BlockFormIsBalanced(ms: seq<Message>)
    requires BlockForm(ms)
    ensures Balanced(ms)
  {
    AsManyResultsAsCalls([], ms);
  }

  lemma BackKeepsBalance(ms: seq<Message>, p: Policy, rand: Randomness)
    ensures Balanced(Back(ms, p, rand)) <==> Balanced(ms)
  {
    hide AllCalls, ToolIds, Unchanging, IdMap, Rename;
    RenameKeepsToolCount(ms, IdMap(ms, p.idMode, rand));
    Meaning.BackKeepsWork(ms, p, rand);
  }

  lemma StripOneHead(a: Message, b: Message, ids: set<string>)
    requires SameHead(a, b)
    ensures SameHead(Turns.StripOne(a, ids), Turns.StripOne(b, ids))
  {
    hide Trim, Turns.KeepAnswered;
  }

  lemma {:induction false} StripSkeleton(a: seq<Message>, b: seq<Message>)
    requires SameSkeleton(a, b)
    ensures SameSkeleton(Turns.Strip(a), Turns.Strip(b))
    decreases |a|
  {
    hide Turns.StripOne, Turns.RunIds, SameHead;
    if a != [] {
      forall i | 0 <= i < |a[1..]| ensures SameHead(a[1..][i], b[1..][i]) { assert SameHead(a[i + 1], b[i + 1]); }
      RunIdsSkeleton(a[1..], b[1..]);
      StripOneHead(a[0], b[0], Turns.RunIds(a[1..]));
      StripSkeleton(a[1..], b[1..]);
    }
  }

  lemma {:induction false} RunIdsSkeleton(a: seq<Message>, b: seq<Message>)
    requires SameSkeleton(a, b)
    ensures Turns.RunIds(a) == Turns.RunIds(b)
    decreases |a|
  {
    hide Trim;
    if a != [] {
      assert SameHead(a[0], b[0]);
      forall i | 0 <= i < |a[1..]| ensures SameHead(a[1..][i], b[1..][i]) { assert SameHead(a[i + 1], b[i + 1]); }
      RunIdsSkeleton(a[1..], b[1..]);
    }
  }

  /** Layers 4 to 6 after a first half `mid`: `base` is what layer 5 makes of it, up to texts. */
  lemma TurnsKeep(mid: seq<Message>, p: Policy, base: seq<Message>)
    requires SameSkeleton(base, if p.anthropicTurns then Turns.Strip(mid) else mid)
    ensures BlockForm(base) ==> BlockForm(Cuts.Turned(mid, p))
    ensures Balanced(Cuts.Turned(mid, p)) <==> Balanced(base)
  {
    hide Run, Trim, ToolIds, AllCalls, TruncateIn, Turns.Merge, Turns.Strip, Cuts.Turned;
    var truncated := Truncate(mid, MAX_TOOL_RESULT);
    TruncateSkeleton(mid, MAX_TOOL_RESULT);
    StripSkeleton(mid, truncated);
    SkeletonThrough(base, if p.anthropicTurns then Turns.Strip(mid) else mid, Cuts.Start(mid, p));
    Cuts.TurnedIs(mid, p);
    MergesKeep(mid, p);
  }

  lemma SkeletonThrough(a: seq<Message>, b: seq<Message>, c: seq<Message>)
    requires SameSkeleton(a, b) && SameSkeleton(b, c)
    ensures (BlockForm(a) <==> BlockForm(c)) && (Balanced(a) <==> Balanced(c))
  {
    hide Run, ToolIds, AllCalls;
    forall i | 0 <= i < |a| ensures SameHead(a[i], c[i]) { assert SameHead(a[i], b[i]) && SameHead(b[i], c[i]); }
    SkeletonRun(Some([]), a, c);
    SkeletonTools(a, c);
    SkeletonCalls(a, c);
  }

  lemma MergesKeep(mid: seq<Message>, p: Policy)
    ensures BlockForm(Cuts.Start(mid, p)) ==> BlockForm(Cuts.Turned(mid, p))
    ensures Balanced(Cuts.Turned(mid, p)) <==> Balanced(Cuts.Start(mid, p))
  {
    hide BlockForm, ToolIds, AllCalls, Turns.Merge, Cuts.Turned, Cuts.Start;
    var start, merged := Cuts.Start(mid, p), Cuts.UserMerged(mid, p);
    Cuts.TurnedIs(mid, p);
    CountNothing();
    MergeKeepsTools(start, [], User);
    Meaning.MergeKeepsCalls(start, [], User);
    MergeKeepsTools(merged, [], Assistant);
    Meaning.MergeKeepsCalls(merged, [], Assistant);
    if BlockForm(start) {
      if p.anthropicTurns { Turns.MergeKeepsBlockForm(start, User); }
      if p.geminiTurns { Turns.MergeKeepsBlockForm(merged, Assistant); }
    }
  }

  // ---- The turn limit keeps what the recent part of the list makes by itself ----

  /** The list without the system message that the turn limit keeps in any case. */
  function Body(front: seq<Message>): seq<Message> {
    if front != [] && front[0].role == System then front[1..] else front
  }

  function Head(front: seq<Message>): seq<Message> {
    if front != [] && front[0].role == System then [front[0]] else []
  }

  /** Where the turn limit will cut the body. */
  function CutPoint(front: seq<Message>, p: Policy): (k: nat)
    ensures k <= |Body(front)|
  {
    if p.turnLimit <= 0 then 0 else Cuts.Cut(Body(front), p.turnLimit, p.anthropicTurns)
  }

  /** What the turn limit drops, before the earlier layers. */
  function Older(front: seq<Message>, p: Policy): seq<Message> {
    Body(front)[..CutPoint(front, p)]
  }

  /** What it keeps. */
  function Recent(front: seq<Message>, p: Policy): seq<Message> {
    Body(front)[CutPoint(front, p)..]
  }

  /** Layer 3, where the ids in `answered` have their result already. */
  function Layer3(ms: seq<Message>, answered: set<string>, p: Policy): seq<Message> {
    if p.repairPairing then Dedup(ms, answered) else ms
  }

  /** What the layers before the last make of the recent part by itself. */
  function RecentTurned(front: seq<Message>, p: Policy): seq<Message> {
    Cuts.Turned(Layer3(Recent(front, p), CalledIds(Older(front, p)), p), p)
  }

  /** It drops tool messages only, so it keeps the turns of the user. */
  lemma {:induction false} DedupTurns(
    open: seq<string>, ms: seq<Message>, answered: set<string>, after: bool, merged: bool)
    requires Run(Some(open), ms) == Some([]) && (open != [] ==> !after)
    ensures Cuts.UserTurns(Dedup(ms, answered), after, merged) == Cuts.UserTurns(ms, after, merged)
    decreases |ms|
  {
    hide Trim;
    if ms != [] {
      if Step(Some(open), ms[0]).None? { RunNone(ms[1..]); }
      var m, rest, next := ms[0], ms[1..], Step(Some(open), ms[0]).value;
      if m.role != Tool {
        assert m.role == User ==> TrimmedIds(Calls(m)) == [];
        DedupTurns(next, rest, answered, m.role == User, merged);
        assert Dedup(ms, answered)[1..] == Dedup(rest, answered);
      } else if open[0] in answered {
        DedupTurns(next, rest, answered, false, merged);
      } else {
        DedupTurns(next, rest, answered + {open[0]}, false, merged);
        assert Dedup(ms, answered)[1..] == Dedup(rest, answered + {open[0]});
      }
    }
  }

  lemma Layer3Turns(ms: seq<Message>, answered: set<string>, p: Policy)
    requires BlockForm(ms)
    ensures Cuts.UserTurns(Layer3(ms, answered, p), false, p.anthropicTurns)
         == Cuts.UserTurns(ms, false, p.anthropicTurns)
  {
    hide Run, Dedup, Cuts.UserTurns;
    DedupTurns([], ms, answered, false, p.anthropicTurns);
  }

  lemma Layer3Last(ms: seq<Message>, answered: set<string>, p: Policy)
    requires ms != [] && ms[|ms| - 1].role != Tool
    ensures var out := Layer3(ms, answered, p); out != [] && out[|out| - 1] == ms[|ms| - 1]
  {
    hide Dedup, ToolIds;
    var pre, last := ms[..|ms| - 1], ms[|ms| - 1];
    assert ms == pre + [last];
    DedupConcat(pre, [last], answered);
    DedupOne(last, answered + Elements(ToolIds(pre)));
  }

  lemma DedupOne(m: Message, answered: set<string>)
    requires m.role != Tool
    ensures Dedup([m], answered) == [m]
  {
    assert [m][1..] == [] && Dedup([], answered) == [];
  }

  lemma Layer3First(ms: seq<Message>, answered: set<string>, p: Policy)
    requires BlockForm(ms)
    ensures var out := Layer3(ms, answered, p);
            if ms == [] then out == [] else ms[0].role != Tool && out != [] && out[0] == ms[0]
  {
    hide Trim;
    if ms != [] && Step(Some([]), ms[0]).None? { RunNone(ms[1..]); }
  }

  lemma BodyIsBlockForm(front: seq<Message>)
    requires BlockForm(front)
    ensures BlockForm(Body(front))
    ensures front == Head(front) + Body(front)
    ensures if Head(front) == [] then front == [] || front[0].role != System
            else Head(front) == [front[0]] && front[0].role == System
  {
    hide Trim;
  }

  lemma BodyCalls(front: seq<Message>)
    ensures AllCalls(Body(front)) == AllCalls(front)
  {
    hide AllCalls;
    if front != [] && front[0].role == System {
      assert front == [front[0]] + front[1..];
      AllCallsConcat([front[0]], front[1..]);
      AllCallsOne(front[0]);
    }
  }

  /** The cut falls between blocks and between the turns that layers 5 and 6 merge. */
  lemma PartsAreBlockForm(front: seq<Message>, p: Policy)
    requires BlockForm(front)
    ensures BlockForm(Older(front, p)) && BlockForm(Recent(front, p))
    ensures Body(front) == Older(front, p) + Recent(front, p)
  {
    hide BlockForm, Cuts.Cut, Cuts.UserTurns, Body, Head;
    BodyIsBlockForm(front);
    var f, k := Body(front), CutPoint(front, p);
    if k > 0 {
      Cuts.CutIsAfterTurn(f, p.turnLimit, p.anthropicTurns);
      AfterUserIsBoundary(f, k);
    } else {
      assert f[..k] == [] && f[k..] == f;
      NothingRuns();
    }
  }

  lemma NothingRuns()
    ensures BlockForm([])
  {
  }

  lemma AfterUserIsBoundary(f: seq<Message>, k: nat)
    requires BlockForm(f) && 0 < k <= |f| && f[k - 1].role == User
    ensures BlockForm(f[..k]) && BlockForm(f[k..])
  {
    hide Trim;
    BlockFormSplit(f, k - 1);
    assert f[k - 1..][1..] == f[k..];
    assert f[..k] == f[..k - 1] + [f[k - 1]];
    RunSnoc(Some([]), f[..k - 1], f[k - 1]);
    assert TrimmedIds(Calls(f[k - 1])) == [];
  }

  lemma Layer3InParts(front: seq<Message>, p: Policy)
    requires BlockForm(front)
    ensures Layer3(Body(front), {}, p)
         == Layer3(Older(front, p), {}, p) + Layer3(Recent(front, p), CalledIds(Older(front, p)), p)
  {
    hide Run, Dedup, CalledIds, Older, Recent, Body, ToolIds, Ids;
    var a := Older(front, p);
    PartsAreBlockForm(front, p);
    DedupConcat(a, Recent(front, p), {});
    ResultsAreCalls([], a);
    assert [] + Ids(a) == Ids(a);
    CalledIdsAreIds(a);
    assert {} + Elements(ToolIds(a)) == CalledIds(a);
  }

  /** What layers 3 to 6 make of the parts, and how many user messages that has. */
  lemma TurnedInParts(front: seq<Message>, p: Policy, x: seq<Message>, y: seq<Message>)
    requires BlockForm(front)
    requires x == Cuts.Turned(Layer3(Older(front, p), {}, p), p) && y == RecentTurned(front, p)
    ensures Cuts.Turned(Layer3(Body(front), {}, p), p) == x + y
    ensures p.turnLimit > 0 ==>
            if x == [] then Turns.UserCount(y) <= p.turnLimit
            else Cuts.EndsWith(x, User) && Turns.UserCount(y) == p.turnLimit
    ensures p.turnLimit <= 0 ==> x == []
  {
    hide Run, Layer3, CalledIds, Body, Cuts.Cut, Cuts.Turned, Cuts.UserTurns, Turns.UserCount;
    var a, b := Older(front, p), Recent(front, p);
    var older, recent := Layer3(a, {}, p), Layer3(b, CalledIds(a), p);
    Layer3InParts(front, p);
    PartsAreBlockForm(front, p);
    Layer3First(b, CalledIds(a), p);
    Layer3First(a, {}, p);
    Cuts.TurnedUsers(recent, p);
    Layer3Turns(b, CalledIds(a), p);
    Cuts.TurnedNothing(p);
    Cuts.TurnedEnds(older, p);
    if p.turnLimit > 0 { Cuts.CutIsAfterTurn(Body(front), p.turnLimit, p.anthropicTurns); }
    if a == [] {
      assert b == Body(front) && [] + recent == recent && [] + y == y;
    } else {
      Layer3Last(a, {}, p);
      Cuts.TurnedConcat(older, recent, p);
    }
  }

  /** Layers 3 to 7: the first system message, then what the recent part makes by itself. */
  lemma MiddleOfRecent(front: seq<Message>, p: Policy)
    requires BlockForm(front)
    ensures Middle(Layer3(front, {}, p), p) == Head(front) + RecentTurned(front, p)
  {
    hide Run, Layer3, Cuts.Turned, Turns.UserCount, Older, Cuts.EndsWith, Body, Head, Middle, RecentTurned;
    hide Turns.LimitTurns;
    var x, y := Cuts.Turned(Layer3(Older(front, p), {}, p), p), RecentTurned(front, p);
    var head := Head(front);
    BodyIsBlockForm(front);
    TurnedInParts(front, p, x, y);
    Layer3First(Body(front), {}, p);
    Cuts.TurnedEnds(Layer3(Body(front), {}, p), p);
    TurnedWithHead(front, p);
    Cuts.MiddleIsLimited(Layer3(front, {}, p), p);
    if p.turnLimit > 0 {
      Cuts.LimitInParts(head, x, y, p.turnLimit);
    } else {
      NoLimit(head + y, p.turnLimit);
      assert x + y == y;
    }
  }

  lemma TurnedWithHead(front: seq<Message>, p: Policy)
    requires BlockForm(front)
    ensures Cuts.Turned(Layer3(front, {}, p), p) == Head(front) + Cuts.Turned(Layer3(Body(front), {}, p), p)
  {
    hide Run, Dedup, Cuts.Turned, Body, Head;
    BodyIsBlockForm(front);
    var f := Body(front);
    if Head(front) == [] {
      assert front == f;
    } else {
      var m := front[0];
      DedupConcat([m], f, {});
      DedupOne(m, {});
      NoToolIds(m);
      assert {} + Elements(ToolIds([m])) == {};
      Layer3First(f, {}, p);
      Cuts.TurnedConcat([m], Layer3(f, {}, p), p);
      Cuts.TurnedSystem(m, p);
    }
  }

  // ---- The whole pipeline ----

  /**
   What the recent part of what passes layer 2 must be like: its ids different from each other and from older
   ones, or for stripping policies ids not called before called once in each message.
   */
  predicate IdsSuit(front: seq<Message>, p: Policy) {
    p.repairPairing ==>
      if p.anthropicTurns then NewIdsOnce(Recent(front, p), CalledIds(Older(front, p)))
      else DistinctCalls(Recent(front, p), CalledIds(Older(front, p)))
  }

  /** Without a turn limit everything is recent. */
  lemma SuitsWithoutLimit(front: seq<Message>, p: Policy)
    requires p.turnLimit <= 0 && p.repairPairing
    ensures IdsSuit(front, p) <==> if p.anthropicTurns then NewIdsOnce(front, {}) else DistinctCalls(front, {})
  {
    hide DistinctCalls, FreshCalls, AllCalls, Trim;
    var f := Body(front);
    assert Older(front, p) == [] && Recent(front, p) == f && CalledIds([]) == {};
    BodyCalls(front);
    DistinctIsFresh(f, {});
    DistinctIsFresh(front, {});
    if f != front {
      assert Calls(front[0]) == [] && TrimmedIds([]) == [] && KeepIds([], {}) == [];
      assert {} + IdSet([]) == {};
    }
  }

  lemma RecentSuits(recent: seq<Message>, seen: set<string>, p: Policy) returns (base: seq<Message>)
    requires BlockForm(recent) && CleanCallIds(recent)
    ensures SameSkeleton(base, if p.anthropicTurns then Turns.Strip(Dedup(recent, seen)) else Dedup(recent, seen))
    ensures var suits := if p.anthropicTurns then NewIdsOnce(recent, seen) else DistinctCalls(recent, seen);
            (suits ==> BlockForm(base)) && (Balanced(base) ==> suits)
  {
    hide Run, CleanCallIds, DistinctCalls, NewIdsOnce, Dedup, Turns.Strip, ToolIds, AllCalls;
    base := if p.anthropicTurns then Turns.Strip(Dedup(recent, seen)) else Dedup(recent, seen);
    if p.anthropicTurns {
      NoIdsKept(seen);
      assert NoRepeats<string>([]) by { NoRepeatsInNothing(); }
      assert seen + Elements<string>([]) == seen;
      StrippedCounts([], recent, seen);
      if NewIdsOnce(recent, seen) { StrippedIsBlockForm([], recent, seen); }
    } else {
      DedupSuits(recent, seen);
    }
  }

  lemma RecentIsClean(front: seq<Message>, p: Policy)
    requires CleanCallIds(front)
    ensures CleanCallIds(Recent(front, p))
  {
    hide CleanCalls, Cuts.Cut;
    var recent := Recent(front, p);
    var d := |front| - |recent|;
    forall i | 0 <= i < |recent| ensures CleanCalls(Calls(recent[i])) { assert recent[i] == front[d + i]; }
  }

  lemma SystemInFront(m: Message, ms: seq<Message>)
    requires m.role == System
    ensures (BlockForm([m] + ms) <==> BlockForm(ms)) && (Balanced([m] + ms) <==> Balanced(ms))
  {
    hide ToolIds, AllCalls;
    CountHead(m, ms);
    assert ([m] + ms)[1..] == ms;
  }

  /** Layers 3 to 7 under a policy that repairs. */
  lemma MiddleSuits(front: seq<Message>, p: Policy)
    requires BlockForm(front) && CleanCallIds(front) && p.repairPairing
    ensures IdsSuit(front, p) ==> BlockForm(Middle(Layer3(front, {}, p), p))
    ensures Balanced(Middle(Layer3(front, {}, p), p)) ==> IdsSuit(front, p)
  {
    hide Run, CleanCallIds, DistinctCalls, NewIdsOnce, Dedup, Turns.Strip, ToolIds, AllCalls, Recent, Older, Body;
    hide Middle, CalledIds, Balanced, Head, Cuts.Turned;
    var recent, seen := Recent(front, p), CalledIds(Older(front, p));
    PartsAreBlockForm(front, p);
    RecentIsClean(front, p);
    var base := RecentSuits(recent, seen, p);
    TurnsKeep(Dedup(recent, seen), p, base);
    MiddleOfRecent(front, p);
    BodyIsBlockForm(front);
    if Head(front) != [] {
      SystemInFront(front[0], RecentTurned(front, p));
    } else {
      assert [] + RecentTurned(front, p) == RecentTurned(front, p);
    }
  }

  /**
   From any list in block form with clean ids: the pipeline keeps block form if and only if the ids that pass
   layer 2 suit the policy.
   */
  lemma PipelineKeepsBlockFormIff(
    ms: seq<Message>, p: Policy, allowed: set<string>, strip: string -> string, rand: Randomness, out: seq<Message>)
    requires BlockForm(ms) && CleanCallIds(ms) && Piped(ms, p, allowed, strip, rand, out)
    ensures BlockForm(out) <==> IdsSuit(Front(ms, p, allowed, strip), p)
  {
    hide BlockForm, CleanCallIds, Repaired, Front, Middle, RewriteIds, Balanced, Dedup, Recent, Older, Layer3;
    var front := Front(ms, p, allowed, strip);
    FrontKeepsClean(ms, p, allowed, strip);
    PipedToIs(ms, p, allowed, strip, rand, out);
    var mid := Layer3(front, {}, p);
    if p.repairPairing {
      MiddleSuits(front, p);
    } else {
      NoRepair(front, p);
      MiddleKeepsBlockForm(front, p);
    }
    BackKeepsBalance(Middle(mid, p), p, rand);
    if BlockForm(Middle(mid, p)) { RewriteKeepsBlockForm(Middle(mid, p), p.idMode, rand); }
    if BlockForm(out) { BlockFormIsBalanced(out); }
  }

  lemma NoRepair(front: seq<Message>, p: Policy)
    requires !p.repairPairing
    ensures Layer3(front, {}, p) == front
  {
  }

  /** What the pipeline makes of such a list. */
  function PipedTo(
    ms: seq<Message>, p: Policy, allowed: set<string>, strip: string -> string, rand: Randomness): seq<Message>
  {
    var front := Front(ms, p, allowed, strip);
    Back(Middle(Layer3(front, {}, p), p), p, rand)
  }

  lemma PipedToIs(
    ms: seq<Message>, p: Policy, allowed: set<string>, strip: string -> string, rand: Randomness, out: seq<Message>)
    requires BlockForm(ms) && CleanCallIds(ms)
    ensures Piped(ms, p, allowed, strip, rand, out) <==> out == PipedTo(ms, p, allowed, strip, rand)
  {
    hide BlockForm, CleanCallIds, Repaired, Front, Middle, Back, Dedup;
    var front := Front(ms, p, allowed, strip);
    FrontKeepsClean(ms, p, allowed, strip);
    if p.repairPairing {
      RepairedIsDedup(front, Dedup(front, {}));
      forall mid | Repaired(front, EMPTY, mid) ensures mid == Dedup(front, {}) { RepairedIsDedup(front, mid); }
    }
  }

  // ---- The ids that pass layer 2, and those that layer 8 hands out ----

  /** The ids layer 2 removes. */
  function Dropped(ms: seq<Message>, allowed: set<string>): set<string> {
    if allowed == {} then {} else RemovedIds(ms, allowed)
  }

  lemma {:induction false} KeepMessagesIds(ms: seq<Message>, removed: set<string>)
    requires CleanCallIds(ms)
    ensures Ids(KeepMessages(ms, removed)) == KeepIds(Ids(ms), removed)
  {
    hide Trim, Calls, CleanCallIds, KeepCalls, KeepMessage, TrimmedIds;
    if ms == [] {
      NoIdsKept(removed);
      assert TrimmedIds([]) == [] by { NoTrimmedIds(); }
    } else {
      TailClean(ms);
      KeepMessagesIds(ms[1..], removed);
      Meaning.KeepMessageCalls(ms[0], removed);
      CleanAgree(Calls(ms[0]), removed);
      KeepCallsIds(Calls(ms[0]), removed);
      AllCallsConcat(KeepMessage(ms[0], removed), KeepMessages(ms[1..], removed));
      IdsConcat(KeepCalls(Calls(ms[0]), removed), AllCalls(KeepMessages(ms[1..], removed)));
      IdsConcat(Calls(ms[0]), AllCalls(ms[1..]));
      KeepIdsConcat(TrimmedIds(Calls(ms[0])), Ids(ms[1..]), removed);
    }
  }

  lemma CleanAgree(calls: seq<ToolCall>, removed: set<string>)
    requires CleanCalls(calls)
    ensures AgreeIn(calls, removed)
  {
    hide Trim;
  }

  lemma {:induction false} KeepIdsConcat(a: seq<string>, b: seq<string>, removed: set<string>)
    ensures KeepIds(a + b, removed) == KeepIds(a, removed) + KeepIds(b, removed)
  {
    if a == [] {
      assert a + b == b;
    } else {
      assert (a + b)[1..] == a[1..] + b;
      KeepIdsConcat(a[1..], b, removed);
    }
  }

  lemma {:induction false} KeepIdsAll(ids: seq<string>)
    ensures KeepIds(ids, {}) == ids
  {
    if ids != [] { KeepIdsAll(ids[1..]); }
  }

  lemma {:induction false} SkeletonRemoved(a: seq<Message>, b: seq<Message>, allowed: set<string>)
    requires SameSkeleton(a, b)
    ensures RemovedIds(a, allowed) == RemovedIds(b, allowed)
    decreases |a|
  {
    hide RemovedIn;
    if a != [] {
      assert SameHead(a[0], b[0]);
      forall i | 0 <= i < |a[1..]| ensures SameHead(a[1..][i], b[1..][i]) { assert SameHead(a[i + 1], b[i + 1]); }
      SkeletonRemoved(a[1..], b[1..], allowed);
    }
  }

  /** The ids that pass layers 1 and 2. */
  lemma FrontIds(ms: seq<Message>, p: Policy, allowed: set<string>, strip: string -> string)
    requires CleanCallIds(ms)
    ensures Ids(Front(ms, p, allowed, strip)) == KeepIds(Ids(ms), Dropped(ms, allowed))
  {
    hide Trim, CleanCallIds, RemovedIds, KeepMessages, AllCalls, DropThinking;
    var first := if p.dropThinkingBlocks then DropThinking(ms, strip) else ms;
    DropThinkingSkeleton(ms, strip);
    SkeletonClean(ms, DropThinking(ms, strip));
    SkeletonCalls(ms, DropThinking(ms, strip));
    SkeletonRemoved(ms, DropThinking(ms, strip), allowed);
    KeepMessagesIds(first, RemovedIds(ms, allowed));
    KeepIdsAll(Ids(ms));
  }

  /** From a ready list: the ids that come out differ if and only if layer 8 keeps those it is given apart. */
  lemma PipelineKeepsDistinctIff(
    ms: seq<Message>, p: Policy, allowed: set<string>, strip: string -> string, rand: Randomness, out: seq<Message>)
    requires Ready(ms) && Piped(ms, p, allowed, strip, rand, out)
    ensures DistinctCalls(out, {}) <==>
            (p.sanitizeIds ==> Apart(CalledIds(Middle(Front(ms, p, allowed, strip), p)), p.idMode, rand))
  {
    hide Ready, Repaired, Front, Middle, RewriteIds, DistinctCalls, CleanCallIds, BlockForm, Apart;
    var front := Front(ms, p, allowed, strip);
    FrontKeepsReady(ms, p, allowed, strip);
    if p.repairPairing {
      var mid :| Repaired(front, EMPTY, mid) && out == Back(Middle(mid, p), p, rand);
      RepairTheorems.ReadyNeedsNoRepair(front, mid);
    }
    ReadyParts(front);
    MiddleClean(front, p);
    MiddleKeepsDistinct(front, p);
    RewriteKeepsDistinctIff(Middle(front, p), p.idMode, rand);
  }

  lemma {:induction false} SuffixIds(a: seq<ToolCall>, b: seq<ToolCall>)
    requires Meaning.IsSuffix(a, b)
    ensures NoRepeats(TrimmedIds(b)) ==> NoRepeats(TrimmedIds(a))
    ensures Elements(TrimmedIds(a)) <= Elements(TrimmedIds(b))
  {
    hide Trim;
    var d := |b| - |a|;
    forall k | 0 <= k < |a| ensures TrimmedIds(a)[k] == TrimmedIds(b)[d + k] {}
  }

  lemma MiddleKeepsDistinct(front: seq<Message>, p: Policy)
    requires Ready(front)
    ensures DistinctCalls(Middle(front, p), {}) && CalledIds(Middle(front, p)) <= CalledIds(front)
  {
    hide BlockForm, CleanCallIds, Middle, DistinctCalls, CalledIds, AllCalls, NoRepeats, Elements;
    Meaning.MiddleKeepsCalls(front, p);
    SuffixIds(AllCalls(Middle(front, p)), AllCalls(front));
    DistinctIff(front);
    DistinctIff(Middle(front, p));
    CalledIdsAreIds(front);
    CalledIdsAreIds(Middle(front, p));
  }

  lemma FrontKeepsCalled(ms: seq<Message>, p: Policy, allowed: set<string>, strip: string -> string)
    requires CleanCallIds(ms)
    ensures CalledIds(Front(ms, p, allowed, strip)) <= CalledIds(ms)
  {
    hide CleanCallIds, Front, CalledIds, Ids, Dropped;
    FrontIds(ms, p, allowed, strip);
    CalledIdsAreIds(ms);
    CalledIdsAreIds(Front(ms, p, allowed, strip));
    KeptAmong(Ids(ms), Dropped(ms, allowed));
  }

  lemma {:induction false} KeptAmong(ids: seq<string>, removed: set<string>)
    ensures forall id :: id in KeepIds(ids, removed) ==> id in ids
  {
    if ids != [] { KeptAmong(ids[1..], removed); }
  }
}
