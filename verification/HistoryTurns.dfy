/** Layers 5, 6 and 7: dangling calls, consecutive turns of one role, and the limit on user turns. */
module HistoryTurns {
  import opened Text
  import opened Messages

  // ---- Layer 5, first half: stripDanglingToolCalls ----

  /** Ids answered by the tool messages the list starts with. */
  function RunIds(ms: seq<Message>): set<string> {
    if ms == [] || ms[0].role != Tool then {}
    else (if Trim(ms[0].toolCallId) == "" then {} else {Trim(ms[0].toolCallId)}) + RunIds(ms[1..])
  }

  function KeepAnswered(calls: seq<ToolCall>, ids: set<string>): seq<ToolCall> {
    if calls == [] then []
    else if Trim(calls[0].id) in ids then [calls[0]] + KeepAnswered(calls[1..], ids)
    else KeepAnswered(calls[1..], ids)
  }

  function StripOne(m: Message, ids: set<string>): Message {
    if Calls(m) == [] then m
    else
      var kept := KeepAnswered(m.toolCalls, ids);
      var content := if kept == [] && Trim(m.content) == "" then "[tool calls omitted]" else m.content;
      m.(toolCalls := kept, content := content)
  }

  function Strip(ms: seq<Message>): seq<Message> {
    if ms == [] then [] else [StripOne(ms[0], RunIds(ms[1..]))] + Strip(ms[1..])
  }

  method StripDanglingToolCalls(messages: seq<Message>) returns (out: seq<Message>)
    ensures out == Strip(messages)
  {
    hide StripOne, RunIds;
    out := [];
    for i := 0 to |messages|
      invariant out + Strip(messages[i..]) == Strip(messages)
    {
      assert messages[i..][1..] == messages[i + 1..];
      var clone := StripMessage(messages, i);
      out := out + [clone];
    }
  }

  /** The loop body: the message at `i` without the calls that the run after it leaves unanswered. */
  method StripMessage(messages: seq<Message>, i: nat) returns (clone: Message)
    requires i < |messages|
    ensures clone == StripOne(messages[i], RunIds(messages[i + 1..]))
  {
    hide Trim, KeepAnswered, RunIds;
    clone := messages[i];
    if clone.role != Assistant || |clone.toolCalls| == 0 { return; }
    var ids := CollectRun(messages, i + 1);
    var filtered := FilterAnswered(clone.toolCalls, ids);
    if |filtered| == 0 && Trim(clone.content) == "" { clone := clone.(content := "[tool calls omitted]"); }
    clone := clone.(toolCalls := filtered);
  }

  method CollectRun(messages: seq<Message>, from: nat) returns (ids: set<string>)
    requires from <= |messages|
    ensures ids == RunIds(messages[from..])
  {
    hide Trim;
    ids := {};
    var j := from;
    while j < |messages| && messages[j].role == Tool
      invariant from <= j <= |messages|
      invariant ids + RunIds(messages[j..]) == RunIds(messages[from..])
    {
      assert messages[j..][1..] == messages[j + 1..];
      if Trim(messages[j].toolCallId) != "" { ids := ids + {Trim(messages[j].toolCallId)}; }
      j := j + 1;
    }
  }

  method FilterAnswered(calls: seq<ToolCall>, ids: set<string>) returns (kept: seq<ToolCall>)
    ensures kept == KeepAnswered(calls, ids)
  {
    hide Trim;
    kept := [];
    for k := 0 to |calls|
      invariant kept + KeepAnswered(calls[k..], ids) == KeepAnswered(calls, ids)
    {
      assert calls[k..][1..] == calls[k + 1..];
      if Trim(calls[k].id) in ids { kept := kept + [calls[k]]; }
    }
  }

  /** Open ids that are not blank are all answered by the run that follows. */
  lemma {:induction false} OpenIdsInRun(open: seq<string>, ms: seq<Message>, k: nat)
    requires Run(Some(open), ms) == Some([]) && k < |open| && open[k] != ""
    ensures open[k] in RunIds(ms)
    decreases |ms|
  {
    hide Trim;
    assert ms != [];
    if Step(Some(open), ms[0]).None? { RunNone(ms[1..]); }
    if k > 0 { OpenIdsInRun(open[1..], ms[1..], k - 1); }
  }

  lemma {:induction false} KeepAll(calls: seq<ToolCall>, ids: set<string>)
    requires forall k :: 0 <= k < |calls| ==> Trim(calls[k].id) in ids
    ensures KeepAnswered(calls, ids) == calls
  {
    hide Trim;
    if calls != [] { KeepAll(calls[1..], ids); }
  }

  /** Where ids are clean and calls are paired, nothing dangles. */
  lemma {:induction false} NothingDangles(open: seq<string>, ms: seq<Message>)
    requires Run(Some(open), ms) == Some([]) && CleanCallIds(ms)
    ensures Strip(ms) == ms
    decreases |ms|
  {
    hide Trim, KeepAnswered, RunIds;
    if ms != [] {
      var m := ms[0];
      var next := Step(Some(open), m);
      if next.None? { RunNone(ms[1..]); }
      assert CleanCalls(Calls(ms[0]));
      forall i | 0 <= i < |ms[1..]| ensures CleanCalls(Calls(ms[1..][i])) {
        assert CleanCalls(Calls(ms[i + 1]));
      }
      NothingDangles(next.value, ms[1..]);
      if m.role == Assistant {
        forall k | 0 <= k < |m.toolCalls| ensures Trim(m.toolCalls[k].id) in RunIds(ms[1..]) {
          OpenIdsInRun(next.value, ms[1..], k);
        }
        KeepAll(m.toolCalls, RunIds(ms[1..]));
      }
    }
  }

  // ---- Layer 5, second half, and layer 6: mergeConsecutiveTurns ----

  function MergedText(prev: string, next: string): string {
    if Trim(next) == "" then prev
    else if Trim(prev) == "" then Trim(next)
    else Trim(prev) + "\n\n" + Trim(next)
  }

  /** Only the text (and, between assistants, the calls) of the merged-in message is kept. */
  function MergePair(prev: Message, m: Message): Message {
    var merged := prev.(content := MergedText(prev.content, m.content));
    if m.role == Assistant && m.toolCalls != [] then merged.(toolCalls := prev.toolCalls + m.toolCalls) else merged
  }

  function MergeOne(acc: seq<Message>, m: Message, target: Role): seq<Message> {
    if m.role != target || acc == [] || acc[|acc| - 1].role != target then acc + [m]
    else acc[..|acc| - 1] + [MergePair(acc[|acc| - 1], m)]
  }

  function Merge(ms: seq<Message>, acc: seq<Message>, target: Role): seq<Message>
    decreases |ms|
  {
    if ms == [] then acc else Merge(ms[1..], MergeOne(acc, ms[0], target), target)
  }

  method MergeConsecutiveTurns(messages: seq<Message>, targetRole: Role) returns (out: seq<Message>)
    ensures out == Merge(messages, [], targetRole)
  {
    hide Trim;
    out := [];
    assert messages[0..] == messages;
    for i := 0 to |messages|
      invariant Merge(messages[i..], out, targetRole) == Merge(messages, [], targetRole)
    {
      assert messages[i..][1..] == messages[i + 1..];
      var msg := messages[i];
      if msg.role != targetRole || |out| == 0 || out[|out| - 1].role != targetRole {
        out := out + [msg];
      } else {
        var prev := out[|out| - 1];
        var prevText, msgText := Trim(prev.content), Trim(msg.content);
        if msgText != "" {
          prev := prev.(content := if prevText != "" then prevText + "\n\n" + msgText else msgText);
        }
        if targetRole == Assistant && |msg.toolCalls| > 0 {
          prev := prev.(toolCalls := prev.toolCalls + msg.toolCalls);
        }
        out := out[..|out| - 1] + [prev];
      }
    }
  }

  /** Merging turns of a role other than Tool never splits a block: the state after each message is the same. */
  lemma MergeOneRun(acc: seq<Message>, m: Message, target: Role)
    requires target == User || target == Assistant
    requires Step(Run(Some([]), acc), m).Some?
    ensures Run(Some([]), MergeOne(acc, m, target)) == Step(Run(Some([]), acc), m)
  {
    hide Trim, MergedText, Run;
    if m.role != target || acc == [] || acc[|acc| - 1].role != target {
      RunSnoc(Some([]), acc, m);
    } else {
      var pre, last := acc[..|acc| - 1], acc[|acc| - 1];
      assert acc == pre + [last];
      RunSnoc(Some([]), pre, last);
      RunSnoc(Some([]), pre, MergePair(last, m));
      assert TrimmedIds(Calls(last)) == [];
      assert Calls(last) == [];
      assert last.role == Assistant ==> [] + m.toolCalls == m.toolCalls;
    }
  }

  lemma {:induction false} MergeRun(ms: seq<Message>, acc: seq<Message>, target: Role)
    requires target == User || target == Assistant
    requires Run(Run(Some([]), acc), ms) == Some([])
    ensures Run(Some([]), Merge(ms, acc, target)) == Some([])
    decreases |ms|
  {
    hide Trim, MergeOne, Step;
    if ms != [] {
      if Step(Run(Some([]), acc), ms[0]).None? { RunNone(ms[1..]); }
      MergeOneRun(acc, ms[0], target);
      MergeRun(ms[1..], MergeOne(acc, ms[0], target), target);
    }
  }

  lemma MergeKeepsBlockForm(ms: seq<Message>, target: Role)
    requires BlockForm(ms) && (target == User || target == Assistant)
    ensures BlockForm(Merge(ms, [], target))
  {
    MergeRun(ms, [], target);
  }

  predicate NoAdjacent(ms: seq<Message>, target: Role) {
    forall i :: 0 < i < |ms| ==> !(ms[i - 1].role == target && ms[i].role == target)
  }

  /** On any list: no two adjacent messages have the merged role afterwards. */
  lemma {:induction false} MergeSeparates(ms: seq<Message>, acc: seq<Message>, target: Role)
    requires NoAdjacent(acc, target)
    ensures NoAdjacent(Merge(ms, acc, target), target)
    decreases |ms|
  {
    hide Trim, MergedText;
    if ms != [] { MergeSeparates(ms[1..], MergeOne(acc, ms[0], target), target); }
  }

  // ---- Layer 7: LimitHistoryTurns ----

  function UserCount(ms: seq<Message>): nat {
    if ms == [] then 0 else (if ms[|ms| - 1].role == User then 1 else 0) + UserCount(ms[..|ms| - 1])
  }

  /** Just after the last user message that has `limit` user messages behind it; 0 when there is none. */
  function CutIndex(history: seq<Message>, limit: nat): (cut: nat)
    ensures cut <= |history|
  {
    if history == [] then 0
    else if history[|history| - 1].role == User then
      if limit == 0 then |history| else CutIndex(history[..|history| - 1], limit - 1)
    else CutIndex(history[..|history| - 1], limit)
  }

  function LimitTurns(ms: seq<Message>, limit: int): seq<Message> {
    if limit <= 0 || ms == [] then ms
    else if ms[0].role == System then [ms[0]] + ms[1..][CutIndex(ms[1..], limit)..]
    else ms[CutIndex(ms, limit)..]
  }

  method LimitHistoryTurns(messages: seq<Message>, limit: int) returns (out: seq<Message>)
    ensures out == LimitTurns(messages, limit)
  {
    hide CutIndex;
    if limit <= 0 || |messages| == 0 { return messages; }
    if messages[0].role == System {
      var cutIdx := FindCut(messages[1..], limit);
      return [messages[0]] + messages[1..][cutIdx..];
    }
    var cutIdx := FindCut(messages, limit);
    return messages[cutIdx..];
  }

  /** The backward scan that counts user messages. */
  method FindCut(history: seq<Message>, limit: nat) returns (cutIdx: nat)
    requires limit > 0
    ensures cutIdx == CutIndex(history, limit)
  {
    var userCount := 0;
    var i := |history|;
    assert history[..|history|] == history;
    while i > 0
      invariant 0 <= i <= |history| && 0 <= userCount <= limit
      invariant CutIndex(history[..i], limit - userCount) == CutIndex(history, limit)
    {
      var todo := history[..i];
      assert todo[..i - 1] == history[..i - 1] && todo[|todo| - 1] == history[i - 1];
      if history[i - 1].role == User {
        userCount := userCount + 1;
        if userCount > limit { return i; }
      }
      i := i - 1;
    }
    return 0;
  }

  lemma {:induction false} CutIsAfterUser(history: seq<Message>, limit: nat)
    ensures var cut := CutIndex(history, limit); cut > 0 ==> history[cut - 1].role == User
  {
    if history != [] {
      CutIsAfterUser(history[..|history| - 1], limit);
      if limit > 0 { CutIsAfterUser(history[..|history| - 1], limit - 1); }
    }
  }

  /** A suffix that starts right after a user message starts at a block boundary. */
  lemma CutKeepsBlockForm(ms: seq<Message>, limit: nat)
    requires BlockForm(ms)
    ensures BlockForm(ms[CutIndex(ms, limit)..])
  {
    hide Trim, CutIndex;
    var cut := CutIndex(ms, limit);
    CutIsAfterUser(ms, limit);
    if cut > 0 {
      BlockFormSplit(ms, cut - 1);
      assert ms[cut - 1..][1..] == ms[cut..];
    } else {
      assert ms[0..] == ms;
    }
  }

  lemma LimitKeepsBlockForm(ms: seq<Message>, limit: int)
    requires BlockForm(ms)
    ensures BlockForm(LimitTurns(ms, limit))
  {
    hide Trim, CutIndex;
    if limit > 0 && ms != [] {
      if ms[0].role == System {
        CutKeepsBlockForm(ms[1..], limit);
        var rest := ms[1..][CutIndex(ms[1..], limit)..];
        assert ([ms[0]] + rest)[1..] == rest;
      } else {
        CutKeepsBlockForm(ms, limit);
      }
    }
  }

  /** Exactly min(limit, all) user messages remain, and the kept history is a suffix. */
  lemma {:induction false} CutKeepsLimit(history: seq<Message>, limit: nat)
    ensures UserCount(history[CutIndex(history, limit)..]) ==
            if UserCount(history) < limit then UserCount(history) else limit
  {
    if history != [] {
      var pre, last := history[..|history| - 1], history[|history| - 1];
      var fewer := if last.role == User then limit - 1 else limit;
      if last.role == User && limit == 0 {
        assert history[|history|..] == [];
      } else {
        CutKeepsLimit(pre, fewer);
        var kept := history[CutIndex(history, limit)..];
        assert kept[..|kept| - 1] == pre[CutIndex(pre, fewer)..];
      }
    }
  }
}
