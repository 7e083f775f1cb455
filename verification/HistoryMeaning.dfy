/** What sanitizing may not lose: what was said survives the OpenAI sanitizer, and every allowed call the pipeline. */
module HistoryMeaning {
  import opened Text
  import opened Messages
  import opened OpenAISanitizer
  import opened HistoryFilters
  import opened Repair
  import opened ToolCallIds
  import Turns = HistoryTurns
  import RepairTheorems
  import opened HistoryPipeline
  import opened TextWords

  // ---- The OpenAI sanitizer keeps what users and assistants say ----

  datatype Utterance = Utterance(role: Role, text: string, parts: seq<Part>)

  function SaidBy(m: Message): seq<Utterance> {
    var role, text := Canonical(m.role), Trim(m.content);
    if role == User && m.parts != [] then
      if CleanParts(m.parts) == [] then [] else [Utterance(User, "", CleanParts(m.parts))]
    else if (role == User || role == Assistant) && text != "" then [Utterance(role, text, [])]
    else []
  }

  function Said(ms: seq<Message>): seq<Utterance> {
    if ms == [] then [] else SaidBy(ms[0]) + Said(ms[1..])
  }

  lemma {:induction false} SaidConcat(a: seq<Message>, b: seq<Message>)
    ensures Said(a + b) == Said(a) + Said(b)
  {
    hide SaidBy;
    if a == [] {
      assert a + b == b;
    } else {
      assert (a + b)[1..] == a[1..] + b;
      SaidConcat(a[1..], b);
    }
  }

  lemma SaidOne(m: Message)
    ensures Said([m]) == SaidBy(m)
  {
    hide SaidBy;
    assert [m][1..] == [];
  }

  lemma {:induction false} ToolsSayNothing(ms: seq<Message>)
    requires forall k :: 0 <= k < |ms| ==> Canonical(ms[k].role) == Tool
    ensures Said(ms) == []
  {
    hide Canonical;
    if ms != [] { ToolsSayNothing(ms[1..]); }
  }

  lemma {:induction false} ResultsAreTools(calls: seq<ToolCall>, responded: map<string, Message>)
    requires Filed(responded)
    ensures forall k :: 0 <= k < |ResultsFor(calls, responded)| ==> ResultsFor(calls, responded)[k].role == Tool
  {
    hide Trim;
    if calls != [] {
      ResultsAreTools(calls[1..], responded);
      if calls[0].id in responded {
        assert CleanResult(responded[calls[0].id]) == responded[calls[0].id];
      }
    }
  }

  lemma BlockSays(text: string, calls: seq<ToolCall>, run: seq<Message>)
    requires Trimmed(text)
    ensures Said(Block(text, calls, Responded(run, calls, map[]))) == Said(TextOnly(text))
  {
    hide Trim, Responded, Said, SaidBy;
    var responded := Responded(run, calls, map[]);
    RespondedIsFiled(run, calls, map[]);
    var kept := AnsweredCalls(calls, responded);
    if kept != [] {
      var head := PlainMessage(Assistant, text).(toolCalls := kept);
      ResultsAreTools(kept, responded);
      ToolsSayNothing(ResultsFor(kept, responded));
      SaidConcat([head], ResultsFor(kept, responded));
      SaidOne(head);
      TextOnlySays(text);
      HeadSays(text, kept);
    }
  }

  lemma HeadSays(text: string, kept: seq<ToolCall>)
    requires Trimmed(text)
    ensures SaidBy(PlainMessage(Assistant, text).(toolCalls := kept))
         == if text == "" then [] else [Utterance(Assistant, text, [])]
  {
  }

  lemma TextOnlySays(text: string)
    requires Trimmed(text)
    ensures Said(TextOnly(text)) == if text == "" then [] else [Utterance(Assistant, text, [])]
  {
    hide Trim;
    SaidOne(PlainMessage(Assistant, text));
  }

  lemma AppendTextSays(acc: seq<Message>, role: Role, text: string)
    requires Trimmed(text) && (role == System || role == User)
    ensures Said(AppendText(acc, role, text))
         == Said(acc) + if role == User && text != "" then [Utterance(User, text, [])] else []
  {
    hide Trim, Said;
    if text == "" {
    } else if role == System && EndsWithSystem(acc) {
      var pre, last := acc[..|acc| - 1], acc[|acc| - 1];
      var merged := last.(content := Trim(last.content + "\n\n" + text));
      assert acc == pre + [last];
      SaidConcat(pre, [last]);
      SaidConcat(pre, [merged]);
      SaidOne(last);
      SaidOne(merged);
    } else {
      SaidConcat(acc, [PlainMessage(role, text)]);
      SaidOne(PlainMessage(role, text));
    }
  }

  lemma AppendPartsSays(acc: seq<Message>, parts: seq<Part>)
    requires CleanParts(parts) == parts
    ensures Said(AppendParts(acc, parts)) == Said(acc) + if parts == [] then [] else [Utterance(User, "", parts)]
  {
    hide Trim, CleanParts, Said;
    if parts != [] {
      SaidConcat(acc, [PlainMessage(User, "").(parts := parts)]);
      SaidOne(PlainMessage(User, "").(parts := parts));
    }
  }

  lemma AbsorbSays(ms: seq<Message>, acc: seq<Message>)
    requires ms != []
    ensures Consumed(ms) <= |ms| && Said(Absorb(ms, acc)) == Said(acc) + Said(ms[..Consumed(ms)])
  {
    hide Trim, Canonical, CleanParts, UsableCalls, Responded, Block, TextOnly, AppendText, AppendParts, Said, ToolRun;
    var m := ms[0];
    var role, text := Canonical(m.role), Trim(m.content);
    ConsumedBound(ms);
    TrimTwice(m.content);
    assert ms[..Consumed(ms)] == [m] + ms[1..Consumed(ms)];
    SaidConcat([m], ms[1..Consumed(ms)]);
    SaidOne(m);
    assert Said(ms[1..Consumed(ms)]) == [] by {
      assert ms[1..Consumed(ms)] == ms[1..][..Consumed(ms) - 1];
      ToolsSayNothing(ms[1..Consumed(ms)]);
    }
    if role == User && m.parts != [] {
      CleanPartsIdempotent(m.parts);
      AppendPartsSays(acc, CleanParts(m.parts));
    } else if role == System || role == User {
      AppendTextSays(acc, role, text);
    } else if role == Assistant {
      TextOnlySays(text);
      if UsableCalls(m) == [] {
        SaidConcat(acc, TextOnly(text));
      } else {
        var run := ms[1..ToolRun(ms[1..]) + 1];
        BlockSays(text, UsableCalls(m), run);
        SaidConcat(acc, Block(text, UsableCalls(m), Responded(run, UsableCalls(m), map[])));
      }
    }
  }

  lemma {:induction false} SanitizeSays(ms: seq<Message>, acc: seq<Message>)
    ensures Said(Sanitize(ms, acc)) == Said(acc) + Said(ms)
    decreases |ms|
  {
    hide Absorb, Consumed, SaidBy;
    if ms != [] {
      ConsumedBound(ms);
      AbsorbSays(ms, acc);
      SanitizeSays(ms[Consumed(ms)..], Absorb(ms, acc));
      SaidConcat(ms[..Consumed(ms)], ms[Consumed(ms)..]);
      assert ms == ms[..Consumed(ms)] + ms[Consumed(ms)..];
    }
  }

  /** Everything users and assistants said is there afterwards, in order, and nothing else. */
  lemma NothingSaidIsLost(ms: seq<Message>)
    ensures Said(Sanitize(ms, [])) == Said(ms)
  {
    SanitizeSays(ms, []);
  }

  function LastAnswer(run: seq<Message>, id: string): Option<Message> {
    if run == [] then None
    else if LastAnswer(run[1..], id).Some? then LastAnswer(run[1..], id)
    else if Trim(run[0].toolCallId) == id then Some(run[0])
    else None
  }

  /** A called id is answered iff a message of the run names it, and then by the last one that does. */
  lemma {:induction false} LastResultWins(
    run: seq<Message>, calls: seq<ToolCall>, acc: map<string, Message>, id: string)
    requires id != "" && HasCall(calls, id)
    ensures
      var responded := Responded(run, calls, acc);
      match LastAnswer(run, id)
      case Some(m) => id in responded && responded[id] == CleanResult(m)
      case None => (id in responded <==> id in acc) && (id in acc ==> responded[id] == acc[id])
    decreases |run|
  {
    hide Trim, CleanResult;
    if run != [] {
      var first := Trim(run[0].toolCallId);
      LastResultWins(run[1..], calls,
                     if first != "" && HasCall(calls, first) then acc[first := CleanResult(run[0])] else acc, id);
    }
  }

  // ---- Merging loses no word ----

  lemma WordsOfMerged(prev: string, next: string)
    ensures Words(Turns.MergedText(prev, next)) == Words(prev) + Words(next)
  {
    hide Trim, IsSpace;
    WordsOfTrim(prev);
    WordsOfTrim(next);
    WordsOfJoin(Trim(prev), Trim(next));
  }

  function AllWords(ms: seq<Message>): seq<string> {
    if ms == [] then [] else Words(ms[0].content) + AllWords(ms[1..])
  }

  lemma {:induction false} AllWordsConcat(a: seq<Message>, b: seq<Message>)
    ensures AllWords(a + b) == AllWords(a) + AllWords(b)
  {
    hide Words;
    if a == [] {
      assert a + b == b;
    } else {
      assert (a + b)[1..] == a[1..] + b;
      AllWordsConcat(a[1..], b);
    }
  }

  lemma AllWordsOne(m: Message)
    ensures AllWords([m]) == Words(m.content)
  {
    hide Words;
    assert [m][1..] == [];
  }

  lemma MergeOneWords(acc: seq<Message>, m: Message, target: Role)
    ensures AllWords(Turns.MergeOne(acc, m, target)) == AllWords(acc) + Words(m.content)
  {
    hide AllWords, Words, Turns.MergedText;
    if m.role != target || acc == [] || acc[|acc| - 1].role != target {
      AllWordsConcat(acc, [m]);
      AllWordsOne(m);
    } else {
      var pre, last := acc[..|acc| - 1], acc[|acc| - 1];
      assert acc == pre + [last];
      AllWordsConcat(pre, [last]);
      AllWordsConcat(pre, [Turns.MergePair(last, m)]);
      AllWordsOne(last);
      AllWordsOne(Turns.MergePair(last, m));
      WordsOfMerged(last.content, m.content);
    }
  }

  /** On any list, merging turns keeps every word of the text, in order. */
  lemma {:induction false} MergeKeepsWords(ms: seq<Message>, acc: seq<Message>, target: Role)
    ensures AllWords(Turns.Merge(ms, acc, target)) == AllWords(acc) + AllWords(ms)
    decreases |ms|
  {
    hide Turns.MergeOne, Words;
    if ms != [] {
      MergeOneWords(acc, ms[0], target);
      MergeKeepsWords(ms[1..], Turns.MergeOne(acc, ms[0], target), target);
    }
  }

  // ---- But it loses the parts of a merged-in message ----

  function AllParts(ms: seq<Message>): seq<Part> {
    if ms == [] then [] else ms[0].parts + AllParts(ms[1..])
  }

  lemma {:induction false} AllPartsConcat(a: seq<Message>, b: seq<Message>)
    ensures AllParts(a + b) == AllParts(a) + AllParts(b)
  {
    if a == [] {
      assert a + b == b;
    } else {
      assert (a + b)[1..] == a[1..] + b;
      AllPartsConcat(a[1..], b);
    }
  }

  lemma AllPartsOne(m: Message)
    ensures AllParts([m]) == m.parts
  {
    assert [m][1..] == [];
  }

  /** The parts of all messages that are not merged into the one before; `joins`: the one before could take them. */
  function OwnParts(ms: seq<Message>, joins: bool, target: Role): seq<Part> {
    if ms == [] then []
    else if joins && ms[0].role == target then OwnParts(ms[1..], true, target)
    else ms[0].parts + OwnParts(ms[1..], ms[0].role == target, target)
  }

  function Joins(acc: seq<Message>, target: Role): bool {
    acc != [] && acc[|acc| - 1].role == target
  }

  lemma MergeOneParts(acc: seq<Message>, m: Message, target: Role)
    ensures
      var next, merged := Turns.MergeOne(acc, m, target), Joins(acc, target) && m.role == target;
      && AllParts(next) == AllParts(acc) + (if merged then [] else m.parts)
      && (Joins(next, target) <==> m.role == target)
  {
    hide Trim, Turns.MergedText, AllParts;
    if Joins(acc, target) && m.role == target {
      var pre, last := acc[..|acc| - 1], acc[|acc| - 1];
      assert acc == pre + [last];
      AllPartsConcat(pre, [last]);
      AllPartsConcat(pre, [Turns.MergePair(last, m)]);
      AllPartsOne(last);
      AllPartsOne(Turns.MergePair(last, m));
    } else {
      AllPartsConcat(acc, [m]);
      AllPartsOne(m);
    }
  }

  lemma {:induction false} MergeKeepsOwnParts(ms: seq<Message>, acc: seq<Message>, target: Role)
    ensures AllParts(Turns.Merge(ms, acc, target)) == AllParts(acc) + OwnParts(ms, Joins(acc, target), target)
    decreases |ms|
  {
    hide Turns.MergeOne, AllParts, Joins;
    if ms != [] {
      MergeOneParts(acc, ms[0], target);
      MergeKeepsOwnParts(ms[1..], Turns.MergeOne(acc, ms[0], target), target);
    }
  }

  /** No message with parts directly follows one of the same, merged role. */
  predicate NoPartsFollow(ms: seq<Message>, target: Role) {
    forall i :: 0 < i < |ms| && ms[i - 1].role == target && ms[i].role == target ==> ms[i].parts == []
  }

  lemma {:induction false} OwnPartsAreAll(ms: seq<Message>, joins: bool, target: Role)
    ensures |OwnParts(ms, joins, target)| <= |AllParts(ms)|
    ensures (joins && ms != [] && ms[0].role == target ==> ms[0].parts == []) && NoPartsFollow(ms, target)
            <==> OwnParts(ms, joins, target) == AllParts(ms)
  {
    if ms != [] {
      var rest := ms[1..];
      OwnPartsAreAll(rest, ms[0].role == target, target);
      assert NoPartsFollow(ms, target) <==>
             NoPartsFollow(rest, target)
             && (ms[0].role == target && rest != [] && rest[0].role == target ==> rest[0].parts == []) by {
        NoPartsFollowTail(ms, target);
      }
      var own := OwnParts(rest, ms[0].role == target, target);
      if !(joins && ms[0].role == target) {
        var p := ms[0].parts;
        if p + own == p + AllParts(rest) {
          assert own == (p + own)[|p|..] == (p + AllParts(rest))[|p|..] == AllParts(rest);
        }
      }
    }
  }

  lemma NoPartsFollowTail(ms: seq<Message>, target: Role)
    requires ms != []
    ensures NoPartsFollow(ms, target) <==>
            NoPartsFollow(ms[1..], target)
            && (ms[0].role == target && |ms| > 1 && ms[1].role == target ==> ms[1].parts == [])
  {
    var rest := ms[1..];
    if NoPartsFollow(ms, target) {
      forall i | 0 < i < |rest| && rest[i - 1].role == target && rest[i].role == target ensures rest[i].parts == [] {
        assert ms[i + 1].parts == [];
      }
    }
    if NoPartsFollow(rest, target) {
      forall i | 1 < i < |ms| && ms[i - 1].role == target && ms[i].role == target ensures ms[i].parts == [] {
        assert rest[i - 1].parts == [];
      }
    }
  }

  /** Merging keeps all images and other parts if and only if none is in a message that is merged into another. */
  lemma MergeKeepsPartsIff(ms: seq<Message>, target: Role)
    ensures AllParts(Turns.Merge(ms, [], target)) == AllParts(ms) <==> NoPartsFollow(ms, target)
  {
    hide AllParts, OwnParts, Turns.Merge, NoPartsFollow;
    MergeKeepsOwnParts(ms, [], target);
    assert AllParts([]) == [] by { NoParts(); }
    OwnPartsAreAll(ms, false, target);
  }

  lemma NoParts()
    ensures AllParts([]) == []
  {
  }

  // ---- The OpenAI sanitizer keeps the system's instructions ----

  function Instructions(ms: seq<Message>): seq<string> {
    if ms == [] then [] else InstructionsOf(ms[0]) + Instructions(ms[1..])
  }

  function InstructionsOf(m: Message): seq<string> {
    if Canonical(m.role) == System then Words(m.content) else []
  }

  lemma {:induction false} InstructionsConcat(a: seq<Message>, b: seq<Message>)
    ensures Instructions(a + b) == Instructions(a) + Instructions(b)
  {
    hide InstructionsOf;
    if a == [] {
      assert a + b == b;
    } else {
      assert (a + b)[1..] == a[1..] + b;
      InstructionsConcat(a[1..], b);
    }
  }

  lemma InstructionsOne(m: Message)
    ensures Instructions([m]) == InstructionsOf(m)
  {
    hide InstructionsOf;
    assert [m][1..] == [];
  }

  lemma {:induction false} NoInstructions(ms: seq<Message>)
    requires forall k :: 0 <= k < |ms| ==> Canonical(ms[k].role) != System
    ensures Instructions(ms) == []
  {
    hide Canonical;
    if ms != [] { NoInstructions(ms[1..]); }
  }

  lemma AppendTextInstructs(acc: seq<Message>, role: Role, text: string)
    requires role == System || role == User
    ensures Instructions(AppendText(acc, role, text)) == Instructions(acc) + if role == System then Words(text) else []
  {
    hide Trim, Words, Instructions;
    if text == "" {
      SpaceHasNoWords("");
    } else if role == System && EndsWithSystem(acc) {
      var pre, last := acc[..|acc| - 1], acc[|acc| - 1];
      var merged := last.(content := Trim(last.content + "\n\n" + text));
      assert acc == pre + [last];
      InstructionsConcat(pre, [last]);
      InstructionsConcat(pre, [merged]);
      InstructionsOne(last);
      InstructionsOne(merged);
      WordsOfTrim(last.content + "\n\n" + text);
      WordsOfJoin(last.content, text);
    } else {
      InstructionsConcat(acc, [PlainMessage(role, text)]);
      InstructionsOne(PlainMessage(role, text));
    }
  }

  lemma BlockInstructsNothing(text: string, calls: seq<ToolCall>, run: seq<Message>)
    ensures Instructions(Block(text, calls, Responded(run, calls, map[]))) == []
  {
    hide Trim, Responded;
    var responded := Responded(run, calls, map[]);
    RespondedIsFiled(run, calls, map[]);
    ResultsAreTools(AnsweredCalls(calls, responded), responded);
    NoInstructions(Block(text, calls, responded));
  }

  lemma AbsorbInstructs(ms: seq<Message>, acc: seq<Message>)
    requires ms != []
    ensures Consumed(ms) <= |ms|
    ensures Instructions(Absorb(ms, acc)) == Instructions(acc) + Instructions(ms[..Consumed(ms)])
  {
    hide Trim, Words, Canonical, CleanParts, UsableCalls, Responded, Block, AppendText, Instructions, ToolRun;
    var m := ms[0];
    var role, text := Canonical(m.role), Trim(m.content);
    ConsumedBound(ms);
    WordsOfTrim(m.content);
    assert ms[..Consumed(ms)] == [m] + ms[1..Consumed(ms)];
    InstructionsConcat([m], ms[1..Consumed(ms)]);
    InstructionsOne(m);
    assert Instructions(ms[1..Consumed(ms)]) == [] by {
      assert ms[1..Consumed(ms)] == ms[1..][..Consumed(ms) - 1];
      NoInstructions(ms[1..Consumed(ms)]);
    }
    if role == User && m.parts != [] {
      PlainInstructsNothing(acc, PlainMessage(User, "").(parts := CleanParts(m.parts)));
    } else if role == System || role == User {
      AppendTextInstructs(acc, role, text);
    } else if role == Assistant {
      PlainInstructsNothing(acc, PlainMessage(Assistant, text));
      assert acc + [] == acc;
      if UsableCalls(m) != [] {
        var run := ms[1..ToolRun(ms[1..]) + 1];
        BlockInstructsNothing(text, UsableCalls(m), run);
        InstructionsConcat(acc, Block(text, UsableCalls(m), Responded(run, UsableCalls(m), map[])));
      }
    }
  }

  lemma PlainInstructsNothing(acc: seq<Message>, m: Message)
    requires m.role == User || m.role == Assistant
    ensures Instructions(acc + [m]) == Instructions(acc)
  {
    hide Instructions, Words;
    InstructionsConcat(acc, [m]);
    InstructionsOne(m);
  }

  lemma {:induction false} SanitizeInstructs(ms: seq<Message>, acc: seq<Message>)
    ensures Instructions(Sanitize(ms, acc)) == Instructions(acc) + Instructions(ms)
    decreases |ms|
  {
    hide Absorb, Consumed, InstructionsOf;
    if ms != [] {
      ConsumedBound(ms);
      AbsorbInstructs(ms, acc);
      SanitizeInstructs(ms[Consumed(ms)..], Absorb(ms, acc));
      InstructionsConcat(ms[..Consumed(ms)], ms[Consumed(ms)..]);
      assert ms == ms[..Consumed(ms)] + ms[Consumed(ms)..];
    }
  }

  /** Merged or not, the system messages keep every word, in order. */
  lemma NoInstructionIsLost(ms: seq<Message>)
    ensures Instructions(Sanitize(ms, [])) == Instructions(ms)
  {
    SanitizeInstructs(ms, []);
  }

  // ---- The pipeline keeps the allowed calls ----

  /** The calls of listed tools, where any are listed. */
  function AllowedOnly(calls: seq<ToolCall>, allowed: set<string>): seq<ToolCall> {
    if calls == [] then []
    else if allowed != {} && Trim(calls[0].name) !in allowed then AllowedOnly(calls[1..], allowed)
    else [calls[0]] + AllowedOnly(calls[1..], allowed)
  }

  lemma {:induction false} AllowedConcat(a: seq<ToolCall>, b: seq<ToolCall>, allowed: set<string>)
    ensures AllowedOnly(a + b, allowed) == AllowedOnly(a, allowed) + AllowedOnly(b, allowed)
  {
    hide Trim;
    if a == [] {
      assert a + b == b;
    } else {
      assert (a + b)[1..] == a[1..] + b;
      AllowedConcat(a[1..], b, allowed);
    }
  }

  lemma {:induction false} NoneDisallowed(calls: seq<ToolCall>, allowed: set<string>)
    requires allowed == {} || forall k :: 0 <= k < |calls| ==> !Disallowed(calls[k], allowed)
    ensures AllowedOnly(calls, allowed) == calls
  {
    hide Trim;
    if calls != [] { NoneDisallowed(calls[1..], allowed); }
  }

  /** Removal by id hits exactly the disallowed calls. */
  predicate RemovesDisallowed(calls: seq<ToolCall>, removed: set<string>, allowed: set<string>) {
    forall k :: 0 <= k < |calls| ==> (calls[k].id in removed <==> Disallowed(calls[k], allowed))
  }

  lemma {:induction false} KeepCallsIsAllowed(calls: seq<ToolCall>, removed: set<string>, allowed: set<string>)
    requires allowed != {} && RemovesDisallowed(calls, removed, allowed)
    ensures KeepCalls(calls, removed) == AllowedOnly(calls, allowed)
  {
    hide Trim;
    if calls != [] { KeepCallsIsAllowed(calls[1..], removed, allowed); }
  }

  lemma KeepMessageCalls(m: Message, removed: set<string>)
    ensures AllCalls(KeepMessage(m, removed)) == KeepCalls(Calls(m), removed)
  {
    hide Trim;
    if KeepMessage(m, removed) != [] {
      KeptHead(m, removed);
      AllCallsOne(KeepMessage(m, removed)[0]);
      assert KeepMessage(m, removed) == [KeepMessage(m, removed)[0]];
    }
  }

  lemma {:induction false} KeepMessagesCalls(ms: seq<Message>, removed: set<string>, allowed: set<string>)
    requires allowed != {} && forall i :: 0 <= i < |ms| ==> RemovesDisallowed(Calls(ms[i]), removed, allowed)
    ensures AllCalls(KeepMessages(ms, removed)) == AllowedOnly(AllCalls(ms), allowed)
  {
    hide RemovesDisallowed, KeepMessage, Calls, Disallowed;
    if ms != [] {
      KeepMessagesCalls(ms[1..], removed, allowed);
      KeepMessageCalls(ms[0], removed);
      KeepCallsIsAllowed(Calls(ms[0]), removed, allowed);
      AllCallsConcat(KeepMessage(ms[0], removed), KeepMessages(ms[1..], removed));
      AllowedConcat(Calls(ms[0]), AllCalls(ms[1..]), allowed);
    }
  }

  /** With distinct call ids, removing by id removes the disallowed calls and no others. */
  lemma DistinctRemoves(ms: seq<Message>, allowed: set<string>, i: nat)
    requires DistinctCalls(ms, {}) && i < |ms|
    ensures RemovesDisallowed(Calls(ms[i]), RemovedIds(ms, allowed), allowed)
  {
    hide Trim, RemovedIds, DistinctCalls, Disallowed;
    forall k | 0 <= k < |Calls(ms[i])|
      ensures Calls(ms[i])[k].id in RemovedIds(ms, allowed) <==> Disallowed(Calls(ms[i])[k], allowed)
    {
      var id := Calls(ms[i])[k].id;
      RemovedCame(ms, allowed, id);
      if Disallowed(Calls(ms[i])[k], allowed) {
        assert IsRemoved(ms[i], k, allowed, id);
      } else if id in RemovedIds(ms, allowed) {
        var j, l :| 0 <= j < |ms| && IsRemoved(ms[j], l, allowed, id);
        if i <= j { SameIdSameCall(ms, {}, i, k, j, l); } else { SameIdSameCall(ms, {}, j, l, i, k); }
      }
    }
  }

  /** Layer 2 leaves exactly the allowed calls, in order. */
  lemma FilterLeavesAllowedCalls(ms: seq<Message>, allowed: set<string>)
    requires DistinctCalls(ms, {})
    ensures AllCalls(FilterTools(ms, allowed)) == AllowedOnly(AllCalls(ms), allowed)
  {
    hide DistinctCalls, RemovedIds, KeepMessages, RemovesDisallowed, Disallowed, AllCalls, AllowedOnly;
    if allowed == {} {
      NoneDisallowed(AllCalls(ms), allowed);
    } else {
      forall i | 0 <= i < |ms| ensures RemovesDisallowed(Calls(ms[i]), RemovedIds(ms, allowed), allowed) {
        DistinctRemoves(ms, allowed, i);
      }
      KeepMessagesCalls(ms, RemovedIds(ms, allowed), allowed);
      if RemovedIds(ms, allowed) == {} { KeepNothingRemoved(ms, allowed); }
    }
  }

  lemma {:induction false} KeepNothingRemoved(ms: seq<Message>, allowed: set<string>)
    ensures AllCalls(KeepMessages(ms, {})) == AllCalls(ms)
  {
    hide KeepMessage, Calls;
    if ms != [] {
      KeepNothingRemoved(ms[1..], allowed);
      KeepMessageCalls(ms[0], {});
      KeepAllCalls(Calls(ms[0]));
      AllCallsConcat(KeepMessage(ms[0], {}), KeepMessages(ms[1..], {}));
    }
  }

  lemma {:induction false} KeepAllCalls(calls: seq<ToolCall>)
    ensures KeepCalls(calls, {}) == calls
  {
    if calls != [] { KeepAllCalls(calls[1..]); }
  }

  lemma MergeOneCalls(acc: seq<Message>, m: Message, target: Role)
    requires target == User || target == Assistant
    ensures AllCalls(Turns.MergeOne(acc, m, target)) == AllCalls(acc) + Calls(m)
  {
    hide Trim, AllCalls;
    if m.role != target || acc == [] || acc[|acc| - 1].role != target {
      AllCallsConcat(acc, [m]);
      AllCallsOne(m);
    } else {
      var pre, last := acc[..|acc| - 1], acc[|acc| - 1];
      assert acc == pre + [last];
      AllCallsConcat(pre, [last]);
      AllCallsConcat(pre, [Turns.MergePair(last, m)]);
      AllCallsOne(last);
      AllCallsOne(Turns.MergePair(last, m));
      assert Calls(Turns.MergePair(last, m)) == Calls(last) + Calls(m);
    }
  }

  /** Merging turns moves calls together but loses none. */
  lemma {:induction false} MergeKeepsCalls(ms: seq<Message>, acc: seq<Message>, target: Role)
    requires target == User || target == Assistant
    ensures AllCalls(Turns.Merge(ms, acc, target)) == AllCalls(acc) + AllCalls(ms)
    decreases |ms|
  {
    hide Turns.MergeOne, Calls;
    if ms != [] {
      MergeOneCalls(acc, ms[0], target);
      MergeKeepsCalls(ms[1..], Turns.MergeOne(acc, ms[0], target), target);
    }
  }

  predicate IsSuffix<T(==)>(a: seq<T>, b: seq<T>) {
    |a| <= |b| && a == b[|b| - |a|..]
  }

  lemma SuffixOfConcat<T>(a: seq<T>, b: seq<T>)
    ensures IsSuffix(b, a + b)
  {
  }

  /** The turn limit drops the oldest calls. */
  lemma LimitKeepsSuffix(ms: seq<Message>, limit: int)
    ensures IsSuffix(AllCalls(Turns.LimitTurns(ms, limit)), AllCalls(ms))
    ensures limit <= 0 ==> Turns.LimitTurns(ms, limit) == ms
  {
    hide Turns.CutIndex, AllCalls;
    if limit > 0 && ms != [] {
      if ms[0].role == System {
        var rest := ms[1..];
        var cut := Turns.CutIndex(rest, limit);
        assert ms == [ms[0]] + rest && rest == rest[..cut] + rest[cut..];
        AllCallsConcat([ms[0]], rest);
        AllCallsConcat(rest[..cut], rest[cut..]);
        AllCallsConcat([ms[0]], rest[cut..]);
        AllCallsOne(ms[0]);
        SuffixOfConcat(AllCalls(rest[..cut]), AllCalls(rest[cut..]));
      } else {
        var cut := Turns.CutIndex(ms, limit);
        assert ms == ms[..cut] + ms[cut..];
        AllCallsConcat(ms[..cut], ms[cut..]);
        SuffixOfConcat(AllCalls(ms[..cut]), AllCalls(ms[cut..]));
      }
    }
  }

  /** Calls that differ in their ids only. */
  predicate SameWork(a: seq<ToolCall>, b: seq<ToolCall>) {
    |a| == |b| && forall k :: 0 <= k < |a| ==> a[k].(id := "") == b[k].(id := "")
  }

  lemma {:induction false} RenameKeepsWork(ms: seq<Message>, ids: map<string, string>)
    ensures SameWork(AllCalls(Rename(ms, ids)), AllCalls(ms))
    decreases |ms|
  {
    hide NewId;
    if ms != [] {
      assert Rename(ms, ids)[1..] == Rename(ms[1..], ids);
      RenameKeepsWork(ms[1..], ids);
      assert SameWork(Calls(Rename(ms, ids)[0]), Calls(ms[0]));
    }
  }

  lemma BackKeepsWork(ms: seq<Message>, p: Policy, rand: Randomness)
    ensures SameWork(AllCalls(Back(ms, p, rand)), AllCalls(ms))
  {
    hide AllCalls, Unchanging, IdMap, Rename;
    RenameKeepsWork(ms, IdMap(ms, p.idMode, rand));
  }

  lemma MiddleKeepsCalls(ms: seq<Message>, p: Policy)
    requires Ready(ms)
    ensures IsSuffix(AllCalls(Middle(ms, p)), AllCalls(ms))
    ensures p.turnLimit <= 0 ==> AllCalls(Middle(ms, p)) == AllCalls(ms)
  {
    hide Ready, Truncate, Turns.Merge, Turns.LimitTurns, Turns.Strip, CleanCallIds, BlockForm, AllCalls;
    var truncated := Truncate(ms, MAX_TOOL_RESULT);
    TruncateSkeleton(ms, MAX_TOOL_RESULT);
    SkeletonReady(ms, truncated);
    SkeletonCalls(ms, truncated);
    ReadyParts(truncated);
    NothingDanglesIn(truncated);
    var anthropic := if p.anthropicTurns then Turns.Merge(Turns.Strip(truncated), [], User) else truncated;
    assert AllCalls([]) == [] by { NoCallsInNothing(); }
    MergeKeepsCalls(truncated, [], User);
    MergeKeepsCalls(anthropic, [], Assistant);
    LimitKeepsSuffix(if p.geminiTurns then Turns.Merge(anthropic, [], Assistant) else anthropic, p.turnLimit);
  }

  lemma FrontCalls(ms: seq<Message>, p: Policy, allowed: set<string>, strip: string -> string)
    requires Ready(ms)
    ensures AllCalls(Front(ms, p, allowed, strip)) == AllowedOnly(AllCalls(ms), allowed)
  {
    hide BlockForm, CleanCallIds, DistinctCalls, DropThinking, FilterTools, AllCalls, AllowedOnly;
    if p.dropThinkingBlocks {
      DropThinkingSkeleton(ms, strip);
      SkeletonReady(ms, DropThinking(ms, strip));
      SkeletonCalls(ms, DropThinking(ms, strip));
      FilterLeavesAllowedCalls(DropThinking(ms, strip), allowed);
    } else {
      FilterLeavesAllowedCalls(ms, allowed);
    }
  }

  /**
   The calls the provider sees are the most recent of the allowed ones, in order and up to their ids; without
   a turn limit they are all of them. No disallowed call gets through.
   */
  lemma PipelineKeepsAllowedCalls(
    ms: seq<Message>, p: Policy, allowed: set<string>, strip: string -> string, rand: Randomness, out: seq<Message>)
    requires Ready(ms) && Piped(ms, p, allowed, strip, rand, out)
    ensures exists kept ::
              && SameWork(AllCalls(out), kept) && IsSuffix(kept, AllowedOnly(AllCalls(ms), allowed))
              && (p.turnLimit <= 0 ==> kept == AllowedOnly(AllCalls(ms), allowed))
  {
    hide Ready, Repaired, Front, Middle, Back, AllCalls, AllowedOnly, IsSuffix, SameWork;
    var front := Front(ms, p, allowed, strip);
    FrontKeepsReady(ms, p, allowed, strip);
    FrontCalls(ms, p, allowed, strip);
    if p.repairPairing {
      var mid :| Repaired(front, EMPTY, mid) && out == Back(Middle(mid, p), p, rand);
      RepairTheorems.ReadyNeedsNoRepair(front, mid);
    }
    MiddleKeepsCalls(front, p);
    BackKeepsWork(Middle(front, p), p, rand);
    assert SameWork(AllCalls(out), AllCalls(Middle(front, p)));
  }
}
