/** SanitizeHistoryPipeline: the eight layers in order, for every policy, keep block form. */
module HistoryPipeline {
  import opened Text
  import opened Messages
  import opened HistoryFilters
  import opened Repair
  import opened HistoryTurns
  import opened ToolCallIds
  import RepairTheorems

  datatype Policy = Policy(
    dropThinkingBlocks: bool, repairPairing: bool, anthropicTurns: bool, geminiTurns: bool,
    turnLimit: int, sanitizeIds: bool, idMode: IdMode)

  /** Layers 1 and 2. */
  function Front(ms: seq<Message>, p: Policy, allowed: set<string>, strip: string -> string): seq<Message> {
    FilterTools(if p.dropThinkingBlocks then DropThinking(ms, strip) else ms, allowed)
  }

  /** Layers 4 to 7. */
  function Middle(ms: seq<Message>, p: Policy): seq<Message> {
    var truncated := Truncate(ms, MAX_TOOL_RESULT);
    var anthropic := if p.anthropicTurns then Merge(Strip(truncated), [], User) else truncated;
    var gemini := if p.geminiTurns then Merge(anthropic, [], Assistant) else anthropic;
    LimitTurns(gemini, p.turnLimit)
  }

  /** Layer 8. */
  function Back(ms: seq<Message>, p: Policy, rand: Randomness): seq<Message> {
    if p.sanitizeIds then RewriteIds(ms, p.idMode, rand) else ms
  }

  /** `out` is what some run of the pipeline gives: layer 3 may order its synthetic results in any way. */
  ghost predicate Piped(
    ms: seq<Message>, p: Policy, allowed: set<string>, strip: string -> string, rand: Randomness, out: seq<Message>)
  {
    var front := Front(ms, p, allowed, strip);
    if p.repairPairing then exists mid :: Repaired(front, EMPTY, mid) && out == Back(Middle(mid, p), p, rand)
    else out == Back(Middle(front, p), p, rand)
  }

  method SanitizeHistoryPipeline(
    messages: seq<Message>, policy: Policy, allowed: set<string>, strip: string -> string, rand: Randomness)
    returns (out: seq<Message>)
    ensures Piped(messages, policy, allowed, strip, rand, out)
    ensures Ready(messages) ==> BlockForm(out)
  {
    hide Repaired, DropThinking, FilterTools, Truncate, Strip, Merge, LimitTurns, RewriteIds, BlockForm, Ready;
    out := messages;
    if policy.dropThinkingBlocks { out := DropThinkingBlocksFromHistory(out, strip); }
    if |allowed| > 0 { out := SanitizeToolCallInputs(out, allowed); } else { NoToolsListed(out, allowed); }
    if policy.repairPairing { out := RepairToolUseResultPairing(out); }
    ghost var mid := out;
    out := StripToolResultDetails(out, MAX_TOOL_RESULT);
    if policy.anthropicTurns {
      out := StripDanglingToolCalls(out);
      out := MergeConsecutiveTurns(out, User);
    }
    if policy.geminiTurns { out := MergeConsecutiveTurns(out, Assistant); }
    if policy.turnLimit > 0 { out := LimitHistoryTurns(out, policy.turnLimit); }
    else { NoLimit(out, policy.turnLimit); }
    assert out == Middle(mid, policy);
    if policy.sanitizeIds && policy.idMode != NoMode { out := SanitizeToolCallIDs(out, policy.idMode, rand); }
    else { NoIdMode(out, rand); }
    assert out == Back(Middle(mid, policy), policy, rand);
    if Ready(messages) { PipelineKeepsBlockForm(messages, policy, allowed, strip, rand, out); }
  }

  lemma NoToolsListed(ms: seq<Message>, allowed: set<string>)
    requires allowed == {}
    ensures FilterTools(ms, allowed) == ms
  {
  }

  lemma NoLimit(ms: seq<Message>, limit: int)
    requires limit <= 0
    ensures LimitTurns(ms, limit) == ms
  {
  }

  lemma NoIdMode(ms: seq<Message>, rand: Randomness)
    ensures RewriteIds(ms, NoMode, rand) == ms
  {
  }

  // ---- Layers 1 to 3 keep what the rest relies on ----

  lemma {:induction false} KeepFresh(calls: seq<ToolCall>, removed: set<string>, seen: set<string>, fewer: set<string>)
    requires FreshCalls(calls, seen) && fewer <= seen
    ensures FreshCalls(KeepCalls(calls, removed), fewer)
    decreases |calls|
  {
    hide Trim;
    if calls != [] {
      var id := Trim(calls[0].id);
      if calls[0].id in removed {
        KeepFresh(calls[1..], removed, seen + {id}, fewer);
      } else {
        KeepFresh(calls[1..], removed, seen + {id}, fewer + {id});
        assert KeepCalls(calls, removed)[1..] == KeepCalls(calls[1..], removed);
      }
    }
  }

  lemma KeepIdSet(calls: seq<ToolCall>, removed: set<string>)
    ensures IdSet(KeepCalls(calls, removed)) <= IdSet(calls)
  {
    hide Trim, KeepCalls;
    forall c | c in KeepCalls(calls, removed) ensures c in calls { KeepCallsFrom(calls, removed, c); }
  }

  lemma {:induction false} KeepDistinct(ms: seq<Message>, removed: set<string>, seen: set<string>, fewer: set<string>)
    requires DistinctCalls(ms, seen) && fewer <= seen
    ensures DistinctCalls(KeepMessages(ms, removed), fewer)
    decreases |ms|
  {
    hide Trim, IdSet, FreshCalls, KeepCalls;
    if ms != [] {
      var kept, rest := KeepMessage(ms[0], removed), KeepMessages(ms[1..], removed);
      var after := seen + IdSet(Calls(ms[0]));
      if kept == [] {
        KeepDistinct(ms[1..], removed, after, fewer);
        assert [] + rest == rest;
      } else {
        KeptHead(ms[0], removed);
        KeepFresh(Calls(ms[0]), removed, seen, fewer);
        KeepIdSet(Calls(ms[0]), removed);
        KeepDistinct(ms[1..], removed, after, fewer + IdSet(Calls(kept[0])));
        assert (kept + rest)[1..] == rest;
      }
    }
  }

  lemma KeptHead(m: Message, removed: set<string>)
    requires KeepMessage(m, removed) != []
    ensures |KeepMessage(m, removed)| == 1
    ensures Calls(KeepMessage(m, removed)[0]) == KeepCalls(Calls(m), removed)
  {
  }

  predicate CleanIn(m: Message) {
    CleanCalls(Calls(m))
  }

  lemma {:induction false} KeepClean(ms: seq<Message>, removed: set<string>)
    requires forall i :: 0 <= i < |ms| ==> CleanIn(ms[i])
    ensures forall i :: 0 <= i < |KeepMessages(ms, removed)| ==> CleanIn(KeepMessages(ms, removed)[i])
    decreases |ms|
  {
    hide Trim, KeepCalls;
    if ms != [] {
      forall i | 0 <= i < |ms[1..]| ensures CleanIn(ms[1..][i]) { assert CleanIn(ms[i + 1]); }
      KeepClean(ms[1..], removed);
      if KeepMessage(ms[0], removed) != [] {
        KeptHead(ms[0], removed);
        var kept := KeepCalls(Calls(ms[0]), removed);
        assert CleanIn(ms[0]);
        forall k | 0 <= k < |kept| ensures Trimmed(kept[k].id) && kept[k].id != "" {
          KeepCallsFrom(Calls(ms[0]), removed, kept[k]);
        }
        assert CleanIn(KeepMessage(ms[0], removed)[0]);
      }
    }
  }

  lemma RemovedAreClean(ms: seq<Message>, allowed: set<string>)
    requires CleanCallIds(ms)
    ensures RemovedTrimmed(ms, allowed)
  {
    hide Trim, Disallowed, RemovedIds;
    forall id | id in RemovedIds(ms, allowed) ensures Trimmed(id) {
      RemovedCame(ms, allowed, id);
      var i, k :| 0 <= i < |ms| && IsRemoved(ms[i], k, allowed, id);
      assert CleanCalls(Calls(ms[i]));
    }
  }

  lemma FilterKeepsReady(ms: seq<Message>, allowed: set<string>)
    requires Ready(ms)
    ensures Ready(FilterTools(ms, allowed))
  {
    hide Trim, BlockForm, DistinctCalls, RemovedIds, KeepMessages, CleanCalls, RemovedTrimmed;
    if allowed != {} {
      RemovedAreClean(ms, allowed);
      FilterKeepsBlockForm(ms, allowed);
      KeepDistinct(ms, RemovedIds(ms, allowed), {}, {});
      forall i | 0 <= i < |ms| ensures CleanIn(ms[i]) { assert CleanCalls(Calls(ms[i])); }
      KeepClean(ms, RemovedIds(ms, allowed));
      var out := KeepMessages(ms, RemovedIds(ms, allowed));
      forall i | 0 <= i < |out| ensures CleanCalls(Calls(out[i])) { assert CleanIn(out[i]); }
    }
  }

  lemma FrontKeepsReady(ms: seq<Message>, p: Policy, allowed: set<string>, strip: string -> string)
    requires Ready(ms)
    ensures Ready(Front(ms, p, allowed, strip))
  {
    hide Ready, DropThinking, FilterTools;
    if p.dropThinkingBlocks {
      DropThinkingSkeleton(ms, strip);
      SkeletonReady(ms, DropThinking(ms, strip));
      FilterKeepsReady(DropThinking(ms, strip), allowed);
    } else {
      FilterKeepsReady(ms, allowed);
    }
  }

  lemma ReadyParts(ms: seq<Message>)
    requires Ready(ms)
    ensures BlockForm(ms) && CleanCallIds(ms)
  {
  }

  lemma MiddleKeepsBlockForm(ms: seq<Message>, p: Policy)
    requires BlockForm(ms) && CleanCallIds(ms)
    ensures BlockForm(Middle(ms, p))
  {
    hide Truncate, Merge, LimitTurns, Strip, CleanCallIds, Run;
    var truncated := Truncate(ms, MAX_TOOL_RESULT);
    TruncateSkeleton(ms, MAX_TOOL_RESULT);
    SkeletonRun(Some([]), ms, truncated);
    SkeletonClean(ms, truncated);
    NothingDangles([], truncated);
    var anthropic := if p.anthropicTurns then Merge(Strip(truncated), [], User) else truncated;
    if p.anthropicTurns { MergeKeepsBlockForm(truncated, User); }
    if p.geminiTurns { MergeKeepsBlockForm(anthropic, Assistant); }
    LimitKeepsBlockForm(if p.geminiTurns then Merge(anthropic, [], Assistant) else anthropic, p.turnLimit);
  }

  /**
   For every policy, tool set, think-block remover and source of randomness: from a block-form list with
   distinct, clean call ids the pipeline makes a block-form list.
   */
  lemma PipelineKeepsBlockForm(
    ms: seq<Message>, p: Policy, allowed: set<string>, strip: string -> string, rand: Randomness, out: seq<Message>)
    requires Ready(ms) && Piped(ms, p, allowed, strip, rand, out)
    ensures BlockForm(out)
  {
    hide Ready, Repaired, Front, Middle, RewriteIds, BlockForm;
    var front := Front(ms, p, allowed, strip);
    FrontKeepsReady(ms, p, allowed, strip);
    if p.repairPairing {
      var mid :| Repaired(front, EMPTY, mid) && out == Back(Middle(mid, p), p, rand);
      RepairTheorems.ReadyNeedsNoRepair(front, mid);
    }
    ReadyParts(front);
    MiddleKeepsBlockForm(front, p);
    RewriteKeepsBlockForm(Middle(front, p), p.idMode, rand);
  }

  // ---- Ids stay clean up to layer 8, so layer 8 gives every call an id of the asked form ----

  lemma {:induction false} MergeClean(ms: seq<Message>, acc: seq<Message>, target: Role)
    requires forall i :: 0 <= i < |ms| ==> CleanIn(ms[i])
    requires forall i :: 0 <= i < |acc| ==> CleanIn(acc[i])
    ensures forall i :: 0 <= i < |Merge(ms, acc, target)| ==> CleanIn(Merge(ms, acc, target)[i])
    decreases |ms|
  {
    hide Trim, MergedText;
    if ms != [] {
      forall i | 0 <= i < |ms[1..]| ensures CleanIn(ms[1..][i]) { assert CleanIn(ms[i + 1]); }
      var next := MergeOne(acc, ms[0], target);
      forall i | 0 <= i < |next| ensures CleanIn(next[i]) { MergeOneClean(acc, ms[0], target, i); }
      MergeClean(ms[1..], next, target);
    }
  }

  lemma MergeOneClean(acc: seq<Message>, m: Message, target: Role, i: nat)
    requires CleanIn(m) && forall i :: 0 <= i < |acc| ==> CleanIn(acc[i])
    requires i < |MergeOne(acc, m, target)|
    ensures CleanIn(MergeOne(acc, m, target)[i])
  {
    hide Trim, MergedText;
    if i < |acc| { assert CleanIn(acc[i]); }
  }

  lemma MiddleClean(ms: seq<Message>, p: Policy)
    requires BlockForm(ms) && CleanCallIds(ms)
    ensures CleanCallIds(Middle(ms, p))
  {
    hide Truncate, Merge, Strip, Run, CleanCalls, CutIndex;
    var truncated := Truncate(ms, MAX_TOOL_RESULT);
    TruncateSkeleton(ms, MAX_TOOL_RESULT);
    SkeletonRun(Some([]), ms, truncated);
    SkeletonClean(ms, truncated);
    NothingDanglesIn(truncated);
    forall i | 0 <= i < |truncated| ensures CleanIn(truncated[i]) { assert CleanCalls(Calls(truncated[i])); }
    var anthropic := if p.anthropicTurns then Merge(Strip(truncated), [], User) else truncated;
    if p.anthropicTurns { MergeClean(truncated, [], User); }
    var gemini := if p.geminiTurns then Merge(anthropic, [], Assistant) else anthropic;
    if p.geminiTurns { MergeClean(anthropic, [], Assistant); }
    LimitClean(gemini, p.turnLimit);
    var out := Middle(ms, p);
    forall i | 0 <= i < |out| ensures CleanCalls(Calls(out[i])) { assert CleanIn(out[i]); }
  }

  lemma NothingDanglesIn(ms: seq<Message>)
    requires BlockForm(ms) && CleanCallIds(ms)
    ensures Strip(ms) == ms
  {
    hide Strip, CleanCallIds, Run;
    NothingDangles([], ms);
  }

  lemma LimitClean(ms: seq<Message>, limit: int)
    requires forall i :: 0 <= i < |ms| ==> CleanIn(ms[i])
    ensures forall i :: 0 <= i < |LimitTurns(ms, limit)| ==> CleanIn(LimitTurns(ms, limit)[i])
  {
    hide CleanIn, CutIndex;
  }

  /** Every call the provider sees then carries an id of the form its mode asks for. */
  lemma PipelineIdsWellFormed(
    ms: seq<Message>, p: Policy, allowed: set<string>, strip: string -> string, rand: Randomness,
    out: seq<Message>, i: nat, k: nat)
    requires Ready(ms) && Piped(ms, p, allowed, strip, rand, out) && p.sanitizeIds
    requires i < |out| && k < |Calls(out[i])|
    ensures WellFormedId(Calls(out[i])[k].id, p.idMode)
  {
    hide Ready, Repaired, Front, Middle, RewriteIds, BlockForm, WellFormedId, CleanCallIds;
    var front := Front(ms, p, allowed, strip);
    FrontKeepsReady(ms, p, allowed, strip);
    if p.repairPairing {
      var mid :| Repaired(front, EMPTY, mid) && out == Back(Middle(mid, p), p, rand);
      RepairTheorems.ReadyNeedsNoRepair(front, mid);
    }
    ReadyParts(front);
    MiddleClean(front, p);
    SameCallCounts(Middle(front, p), p.idMode, rand, i);
    RewrittenIdsWellFormed(Middle(front, p), p.idMode, rand, i, k);
  }

  /** The pipeline's own output has clean call ids, so a later round can start from it. */
  lemma PipelineKeepsClean(
    ms: seq<Message>, p: Policy, allowed: set<string>, strip: string -> string, rand: Randomness, out: seq<Message>)
    requires Ready(ms) && Piped(ms, p, allowed, strip, rand, out)
    ensures CleanCallIds(out)
  {
    hide Ready, Repaired, Front, Middle, RewriteIds, CleanCallIds;
    var front := Front(ms, p, allowed, strip);
    FrontKeepsReady(ms, p, allowed, strip);
    if p.repairPairing {
      var mid :| Repaired(front, EMPTY, mid) && out == Back(Middle(mid, p), p, rand);
      RepairTheorems.ReadyNeedsNoRepair(front, mid);
    }
    ReadyParts(front);
    MiddleClean(front, p);
    RewriteKeepsClean(Middle(front, p), p.idMode, rand);
  }

  lemma SameCallCounts(ms: seq<Message>, mode: IdMode, rand: Randomness, i: nat)
    requires i < |RewriteIds(ms, mode, rand)|
    ensures i < |ms| && |Calls(RewriteIds(ms, mode, rand)[i])| == |Calls(ms[i])|
  {
    hide IdMap;
  }
}
