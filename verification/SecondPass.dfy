/**
 The pipeline is applied to its own output before every request. When the second application changes nothing,
 exactly: everything but the repair of layer 3 has settled after the first.
 */
module SecondPass {
  import opened Text
  import opened Messages
  import opened HistoryFilters
  import opened HistoryTurns
  import opened HistoryPipeline
  import opened ToolCallIds
  import opened DistinctIds
  import opened Deduplication
  import opened PipelineConditions
  import opened Sets
  import Cuts = TurnCuts
  import Meaning = HistoryMeaning

  // ---- Layer 4: a cut result is cut to itself ----

  /** No tool result is left to cut. */
  predicate Short(ms: seq<Message>) {
    forall i :: 0 <= i < |ms| ==> TruncateIn(ms[i], MAX_TOOL_RESULT) == ms[i]
  }

  lemma TruncateInTwice(m: Message)
    ensures TruncateIn(TruncateIn(m, MAX_TOOL_RESULT), MAX_TOOL_RESULT) == TruncateIn(m, MAX_TOOL_RESULT)
  {
    var once := TruncateIn(m, MAX_TOOL_RESULT);
    if once != m { assert once.content[..MAX_TOOL_RESULT] == m.content[..MAX_TOOL_RESULT]; }
  }

  lemma TruncateMakesShort(ms: seq<Message>)
    ensures Short(Truncate(ms, MAX_TOOL_RESULT))
  {
    hide TruncateIn;
    forall i | 0 <= i < |ms| { TruncateInTwice(ms[i]); }
  }

  lemma ShortNeedsNoCut(ms: seq<Message>)
    requires Short(ms)
    ensures Truncate(ms, MAX_TOOL_RESULT) == ms
  {
    hide TruncateIn;
  }

  lemma MergeOneShort(acc: seq<Message>, m: Message, target: Role)
    requires Short(acc) && TruncateIn(m, MAX_TOOL_RESULT) == m && target != Tool
    ensures Short(MergeOne(acc, m, target))
  {
    hide Trim, MergedText;
  }

  lemma {:induction false} MergeShort(ms: seq<Message>, acc: seq<Message>, target: Role)
    requires Short(ms) && Short(acc) && target != Tool
    ensures Short(Merge(ms, acc, target))
    decreases |ms|
  {
    hide MergeOne, TruncateIn;
    if ms != [] {
      MergeOneShort(acc, ms[0], target);
      forall i | 0 <= i < |ms[1..]| ensures TruncateIn(ms[1..][i], MAX_TOOL_RESULT) == ms[1..][i] {
        assert ms[1..][i] == ms[i + 1];
      }
      MergeShort(ms[1..], MergeOne(acc, ms[0], target), target);
    }
  }

  // ---- Layers 5 and 6: merged turns stay apart ----

  lemma MergeOneApart(acc: seq<Message>, m: Message, target: Role, role: Role)
    requires NoAdjacent(acc + [m], role)
    ensures NoAdjacent(MergeOne(acc, m, target), role)
  {
    hide Trim, MergedText;
    var next := MergeOne(acc, m, target);
    forall i | 0 < i < |next| ensures !(next[i - 1].role == role && next[i].role == role) {
      assert next[i - 1].role == (acc + [m])[i - 1].role && next[i].role == (acc + [m])[i].role;
    }
  }

  lemma {:induction false} MergeKeepsApart(ms: seq<Message>, acc: seq<Message>, target: Role, role: Role)
    requires NoAdjacent(acc + ms, role)
    ensures NoAdjacent(Merge(ms, acc, target), role)
    decreases |ms|
  {
    hide MergeOne;
    if ms == [] {
      assert acc + ms == acc;
    } else {
      NextApart(acc, ms, target, role);
      MergeKeepsApart(ms[1..], MergeOne(acc, ms[0], target), target, role);
    }
  }

  lemma NextApart(acc: seq<Message>, ms: seq<Message>, target: Role, role: Role)
    requires ms != [] && NoAdjacent(acc + ms, role)
    ensures NoAdjacent(MergeOne(acc, ms[0], target) + ms[1..], role)
  {
    hide MergeOne;
    var all, first := acc + ms, acc + [ms[0]];
    var next := MergeOne(acc, ms[0], target);
    forall i | 0 < i < |first| ensures !(first[i - 1].role == role && first[i].role == role) {
      assert first[i - 1] == all[i - 1] && first[i] == all[i];
    }
    MergeOneApart(acc, ms[0], target, role);
    Cuts.MergeOneEnds(acc, ms[0], target);
    var out := next + ms[1..];
    var d := |all| - |out|;
    MergeOneLength(acc, ms[0], target);
    forall i | 0 < i < |out| ensures !(out[i - 1].role == role && out[i].role == role) {
      if i < |next| {
        assert out[i - 1] == next[i - 1] && out[i] == next[i];
      } else {
        assert out[i] == all[d + i];
        assert out[i - 1].role == all[d + i - 1].role;
        assert !(all[d + i - 1].role == role && all[d + i].role == role);
      }
    }
  }

  lemma MergeOneLength(acc: seq<Message>, m: Message, target: Role)
    ensures |MergeOne(acc, m, target)| <= |acc| + 1
  {
  }

  /** Where no two adjacent messages have the role, there is nothing to merge. */
  lemma {:induction false} NothingToMerge(ms: seq<Message>, acc: seq<Message>, target: Role)
    requires NoAdjacent(acc + ms, target)
    ensures Merge(ms, acc, target) == acc + ms
    decreases |ms|
  {
    if ms == [] {
      assert acc + ms == acc;
    } else {
      if acc != [] { assert (acc + ms)[|acc| - 1] == acc[|acc| - 1] && (acc + ms)[|acc|] == ms[0]; }
      assert acc + [ms[0]] + ms[1..] == acc + ms;
      NothingToMerge(ms[1..], acc + [ms[0]], target);
    }
  }

  // ---- Layer 7: a limited list is within its limit ----

  lemma UserCountCons(m: Message, ms: seq<Message>)
    ensures UserCount([m] + ms) == UserCount(ms) + if m.role == User then 1 else 0
  {
    hide UserCount;
    Cuts.UserCountConcat([m], ms);
    Cuts.UserCountOne(m);
  }

  lemma LimitBounds(ms: seq<Message>, limit: nat)
    requires limit > 0
    ensures UserCount(LimitTurns(ms, limit)) <= limit
  {
    hide UserCount, CutIndex;
    if ms == [] {
      Cuts.NoUsers();
    } else if ms[0].role == System {
      CutKeepsLimit(ms[1..], limit);
      UserCountCons(ms[0], ms[1..][CutIndex(ms[1..], limit)..]);
    } else {
      CutKeepsLimit(ms, limit);
    }
  }

  lemma WithinLimit(ms: seq<Message>, limit: nat)
    requires UserCount(ms) <= limit
    ensures LimitTurns(ms, limit) == ms
  {
    hide UserCount, CutIndex;
    if ms != [] {
      assert ms == [ms[0]] + ms[1..];
      UserCountCons(ms[0], ms[1..]);
      Cuts.CutIndexIs([], ms[1..], limit);
      Cuts.CutIndexIs([], ms, limit);
      assert [] + ms == ms && [] + ms[1..] == ms[1..];
    }
  }

  lemma LimitKeepsApart(ms: seq<Message>, limit: int, role: Role)
    requires NoAdjacent(ms, role) && role != System
    ensures NoAdjacent(LimitTurns(ms, limit), role)
  {
    hide CutIndex;
    var out := LimitTurns(ms, limit);
    var d := |ms| - |out|;
    forall i | 0 < i < |out| ensures !(out[i - 1].role == role && out[i].role == role) {
      assert out[i] == ms[d + i];
      assert !(ms[d + i - 1].role == role && ms[d + i].role == role);
      assert i > 1 ==> out[i - 1] == ms[d + i - 1];
      assert i == 1 ==> out[0] == ms[d] || out[0].role == System;
    }
  }

  lemma LimitKeepsShort(ms: seq<Message>, limit: int)
    requires Short(ms)
    ensures Short(LimitTurns(ms, limit))
  {
    hide TruncateIn, CutIndex;
  }

  // ---- What layers 4 to 7 leave for a second pass: nothing ----

  predicate Settled(ms: seq<Message>, p: Policy) {
    && Short(ms)
    && (p.anthropicTurns ==> NoAdjacent(ms, User)) && (p.geminiTurns ==> NoAdjacent(ms, Assistant))
    && (p.turnLimit > 0 ==> UserCount(ms) <= p.turnLimit)
  }

  lemma MiddleSettles(front: seq<Message>, p: Policy)
    requires BlockForm(front) && CleanCallIds(front)
    ensures Settled(Middle(front, p), p)
  {
    hide Truncate, Merge, Strip, Run, CleanCallIds, CutIndex, UserCount, Short, NoAdjacent, LimitTurns;
    var truncated := Truncate(front, MAX_TOOL_RESULT);
    TruncateSkeleton(front, MAX_TOOL_RESULT);
    SkeletonRun(Some([]), front, truncated);
    SkeletonClean(front, truncated);
    NothingDanglesIn(truncated);
    TruncateMakesShort(front);
    NothingIsSettled();
    var anthropic := if p.anthropicTurns then Merge(truncated, [], User) else truncated;
    MergeShort(truncated, [], User);
    MergeSeparates(truncated, [], User);
    var gemini := if p.geminiTurns then Merge(anthropic, [], Assistant) else anthropic;
    MergeShort(anthropic, [], Assistant);
    MergeSeparates(anthropic, [], Assistant);
    assert [] + anthropic == anthropic;
    if p.anthropicTurns { MergeKeepsApart(anthropic, [], Assistant, User); }
    assert Middle(front, p) == LimitTurns(gemini, p.turnLimit);
    LimitKeepsShort(gemini, p.turnLimit);
    if p.anthropicTurns { LimitKeepsApart(gemini, p.turnLimit, User); }
    if p.geminiTurns { LimitKeepsApart(gemini, p.turnLimit, Assistant); }
    if p.turnLimit > 0 { LimitBounds(gemini, p.turnLimit); }
  }

  lemma NothingIsSettled()
    ensures Short([]) && NoAdjacent([], User) && NoAdjacent([], Assistant)
  {
  }

  /** Roles and texts decide what is settled, so renaming ids keeps it. */
  lemma BackKeepsSettled(ms: seq<Message>, p: Policy, rand: Randomness)
    requires Settled(ms, p)
    ensures Settled(Back(ms, p, rand), p)
  {
    hide IdMap, Unchanging, NewId, UserCount, SanitizeId;
    var out := Back(ms, p, rand);
    assert Cuts.SameRoles(ms, out);
    Cuts.TurnsOfRoles(ms, out, false, false);
    Cuts.UserCountIsTurns(ms, false);
    Cuts.UserCountIsTurns(out, false);
  }

  lemma SettledStays(ms: seq<Message>, p: Policy)
    requires BlockForm(ms) && CleanCallIds(ms) && Settled(ms, p)
    ensures Middle(ms, p) == ms
  {
    hide Truncate, Merge, Strip, Run, CleanCallIds, UserCount, Short, NoAdjacent, LimitTurns;
    ShortNeedsNoCut(ms);
    NothingDanglesIn(ms);
    assert [] + ms == ms;
    if p.anthropicTurns { NothingToMerge(ms, [], User); }
    if p.geminiTurns { NothingToMerge(ms, [], Assistant); }
    if p.turnLimit > 0 { WithinLimit(ms, p.turnLimit); } else { NoLimit(ms, p.turnLimit); }
  }

  // ---- Layer 2: disallowed calls are gone ----

  predicate NoneDisallowed(calls: seq<ToolCall>, allowed: set<string>) {
    forall k :: 0 <= k < |calls| ==> !Disallowed(calls[k], allowed)
  }

  lemma {:induction false} AllowedOnlyIsAllowed(calls: seq<ToolCall>, allowed: set<string>)
    requires allowed != {}
    ensures NoneDisallowed(Meaning.AllowedOnly(calls, allowed), allowed)
  {
    hide Trim;
    if calls != [] { AllowedOnlyIsAllowed(calls[1..], allowed); }
  }

  lemma SameWorkIsAllowed(calls: seq<ToolCall>, kept: seq<ToolCall>, all: seq<ToolCall>, allowed: set<string>)
    requires Meaning.SameWork(calls, kept) && Meaning.IsSuffix(kept, all) && NoneDisallowed(all, allowed)
    ensures NoneDisallowed(calls, allowed)
  {
    hide Trim;
    forall k | 0 <= k < |calls| ensures !Disallowed(calls[k], allowed) {
      assert calls[k].(id := "").name == kept[k].(id := "").name;
      assert kept[k] == all[|all| - |kept| + k];
    }
  }

  lemma {:induction false} NothingRemoved(ms: seq<Message>, allowed: set<string>)
    requires NoneDisallowed(AllCalls(ms), allowed)
    ensures RemovedIds(ms, allowed) == {}
  {
    hide Disallowed, Calls;
    if ms != [] {
      var calls, rest := Calls(ms[0]), AllCalls(ms[1..]);
      forall c | c in calls ensures !Disallowed(c, allowed) {
        var k :| 0 <= k < |calls| && calls[k] == c;
        assert AllCalls(ms)[k] == c;
      }
      forall k | 0 <= k < |rest| ensures !Disallowed(rest[k], allowed) { assert rest[k] == AllCalls(ms)[|calls| + k]; }
      NothingRemoved(ms[1..], allowed);
    }
  }

  lemma FilterHasNothingToDo(
    ms: seq<Message>, p: Policy, allowed: set<string>, strip: string -> string, rand: Randomness, out: seq<Message>)
    requires Ready(ms) && Piped(ms, p, allowed, strip, rand, out)
    ensures FilterTools(out, allowed) == out
  {
    hide Ready, Piped, AllCalls, Meaning.AllowedOnly, Meaning.IsSuffix, Meaning.SameWork, RemovedIds, NoneDisallowed;
    if allowed != {} {
      Meaning.PipelineKeepsAllowedCalls(ms, p, allowed, strip, rand, out);
      var all := Meaning.AllowedOnly(AllCalls(ms), allowed);
      var kept :| Meaning.SameWork(AllCalls(out), kept) && Meaning.IsSuffix(kept, all);
      AllowedOnlyIsAllowed(AllCalls(ms), allowed);
      SameWorkIsAllowed(AllCalls(out), kept, all, allowed);
      NothingRemoved(out, allowed);
    }
  }

  // ---- Layer 8: ids of the asked form stay ----

  lemma {:induction false} AlphanumericsStay(s: string)
    requires forall k :: 0 <= k < |s| ==> IsAlnum(s[k])
    ensures Alphanumerics(s) == s
  {
    hide IsAlnum;
    if s != "" { AlphanumericsStay(s[1..]); }
  }

  lemma WellFormedStays(id: string, mode: IdMode, rand: Randomness)
    requires WellFormedId(id, mode)
    ensures SanitizeId(id, mode, rand) == id
  {
    if mode == Strict || mode == Strict9 { AlphanumericsStay(id); }
  }

  lemma {:induction false} CalledSomewhere(ms: seq<Message>, id: string) returns (i: nat, k: nat)
    requires id in CalledIds(ms)
    ensures i < |ms| && k < |Calls(ms[i])| && Trim(Calls(ms[i])[k].id) == id
  {
    hide Trim;
    if id in IdSet(Calls(ms[0])) {
      var c :| c in Calls(ms[0]) && Trim(c.id) == id;
      k :| 0 <= k < |Calls(ms[0])| && Calls(ms[0])[k] == c;
      i := 0;
    } else {
      i, k := CalledSomewhere(ms[1..], id);
      i := i + 1;
    }
  }

  lemma IdsStay(
    ms: seq<Message>, p: Policy, allowed: set<string>, strip: string -> string, rand: Randomness, out: seq<Message>,
    again: Randomness)
    requires Ready(ms) && Piped(ms, p, allowed, strip, rand, out)
    ensures Back(out, p, again) == out
  {
    hide Ready, Piped, CalledIds, SanitizeId, WellFormedId, Rename, Trim, CleanCalls;
    if p.sanitizeIds {
      PipelineKeepsClean(ms, p, allowed, strip, rand, out);
      forall id | id in CalledIds(out) ensures SanitizeId(id, p.idMode, again) == id {
        var i, k := CalledSomewhere(out, id);
        CleanCallIdIsTrimmed(Calls(out[i]), k);
        PipelineIdsWellFormed(ms, p, allowed, strip, rand, out, i, k);
        WellFormedStays(id, p.idMode, again);
      }
    }
  }

  lemma CleanCallIdIsTrimmed(calls: seq<ToolCall>, k: nat)
    requires CleanCalls(calls) && k < |calls|
    ensures Trim(calls[k].id) == calls[k].id
  {
    hide Trim;
  }

  // ---- The second pass ----

  /** The layers after the repair add no results. */
  lemma MiddleAddsNoResults(ms: seq<Message>, p: Policy)
    ensures |ToolIds(Middle(ms, p))| <= |ToolIds(ms)|
  {
    hide ToolIds, Merge, LimitTurns, Strip, Cuts.Turned, Cuts.Start;
    var start, merged := Cuts.Start(ms, p), Cuts.UserMerged(ms, p);
    Cuts.MiddleIsLimited(ms, p);
    Cuts.TurnedIs(ms, p);
    StartTools(ms, p);
    CountNothing();
    MergeKeepsTools(start, [], User);
    MergeKeepsTools(merged, [], Assistant);
    LimitAddsNoResults(Cuts.Turned(ms, p), p.turnLimit);
  }

  lemma {:induction false} StripTools(ms: seq<Message>)
    ensures ToolIds(Strip(ms)) == ToolIds(ms)
  {
    hide Trim, KeepAnswered, RunIds;
    if ms != [] {
      StripTools(ms[1..]);
      assert Strip(ms)[1..] == Strip(ms[1..]);
    }
  }

  lemma StartTools(ms: seq<Message>, p: Policy)
    ensures ToolIds(Cuts.Start(ms, p)) == ToolIds(ms)
  {
    hide ToolIds, Strip, TruncateIn;
    TruncateSkeleton(ms, MAX_TOOL_RESULT);
    SkeletonTools(ms, Truncate(ms, MAX_TOOL_RESULT));
    StripTools(Truncate(ms, MAX_TOOL_RESULT));
  }

  lemma LimitAddsNoResults(ms: seq<Message>, limit: int)
    ensures |ToolIds(LimitTurns(ms, limit))| <= |ToolIds(ms)|
  {
    hide ToolIds, CutIndex;
    if limit > 0 && ms != [] {
      var head := if ms[0].role == System then [ms[0]] else [];
      var rest := if ms[0].role == System then ms[1..] else ms;
      var k := CutIndex(rest, limit);
      assert ms == head + rest && rest == rest[..k] + rest[k..] && LimitTurns(ms, limit) == head + rest[k..];
      ToolIdsConcat(head, rest);
      ToolIdsConcat(rest[..k], rest[k..]);
      ToolIdsConcat(head, rest[k..]);
    }
  }

  lemma RepairDropsSome(out: seq<Message>, p: Policy, rand: Randomness)
    requires BlockForm(out) && p.repairPairing && !DistinctCalls(out, {})
    ensures Back(Middle(Layer3(out, {}, p), p), p, rand) != out
  {
    hide BlockForm, DistinctCalls, ToolIds, Middle, IdMap, Unchanging, Rename, NoRepeats, AllCalls, Dedup;
    var mid := Dedup(out, {});
    DedupSuits(out, {});
    DedupCounts(out, {});
    BlockFormIsBalanced(out);
    MiddleAddsNoResults(mid, p);
    RenameKeepsToolCount(Middle(mid, p), IdMap(Middle(mid, p), p.idMode, rand));
  }

  /**
   From a ready list, with a remover that finds nothing more to remove: a second application of the pipeline
   changes nothing if and only if the policy does not repair or the first application left the ids different.
   */
  lemma SecondPassChangesNothingIff(
    ms: seq<Message>, p: Policy, allowed: set<string>, strip: string -> string, rand: Randomness, out: seq<Message>,
    again: Randomness, twice: seq<Message>)
    requires Ready(ms) && Piped(ms, p, allowed, strip, rand, out)
    requires p.dropThinkingBlocks ==> DropThinking(out, strip) == out
    requires Piped(out, p, allowed, strip, again, twice)
    ensures twice == out <==> (p.repairPairing ==> DistinctCalls(out, {}))
  {
    hide Ready, Piped, DropThinking, FilterTools, Middle, Back, DistinctCalls, Dedup, Settled, CleanCallIds;
    hide BlockForm;
    PipelineKeepsBlockForm(ms, p, allowed, strip, rand, out);
    PipelineKeepsClean(ms, p, allowed, strip, rand, out);
    FilterHasNothingToDo(ms, p, allowed, strip, rand, out);
    PipedToIs(out, p, allowed, strip, again, twice);
    assert twice == Back(Middle(Layer3(out, {}, p), p), p, again);
    if p.repairPairing && !DistinctCalls(out, {}) {
      RepairDropsSome(out, p, again);
    } else {
      if p.repairPairing { DedupSuits(out, {}); }
      OutputSettles(ms, p, allowed, strip, rand, out);
      SettledStays(out, p);
      IdsStay(ms, p, allowed, strip, rand, out, again);
    }
  }

  lemma OutputSettles(
    ms: seq<Message>, p: Policy, allowed: set<string>, strip: string -> string, rand: Randomness, out: seq<Message>)
    requires Ready(ms) && Piped(ms, p, allowed, strip, rand, out)
    ensures Settled(out, p)
  {
    hide Ready, Piped, Front, Middle, Back, DistinctCalls, Dedup, Settled, CleanCallIds, BlockForm;
    var front := Front(ms, p, allowed, strip);
    FrontKeepsReady(ms, p, allowed, strip);
    ReadyIs(ms);
    ReadyIs(front);
    PipedToIs(ms, p, allowed, strip, rand, out);
    if p.repairPairing { DedupSuits(front, {}); }
    MiddleSettles(front, p);
    BackKeepsSettled(Middle(front, p), p, rand);
  }

  lemma ReadyIs(ms: seq<Message>)
    requires Ready(ms)
    ensures BlockForm(ms) && CleanCallIds(ms) && DistinctCalls(ms, {})
  {
  }
}
