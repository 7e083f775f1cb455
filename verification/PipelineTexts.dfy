/**
 What the pipeline makes of the texts, told from the messages it is given: who says what comes through as it was
 said, notes stand only where nothing is left, and tool results are cut at one place.
 */
module PipelineTexts {
  import opened Text
  import opened Messages
  import opened HistoryFilters
  import opened HistoryPipeline
  import opened HistoryMeaning
  import opened TextWords
  import opened ToolCallIds
  import opened Deduplication
  import opened PipelineConditions
  import opened DistinctIds
  import opened Sets
  import opened Sublists
  import Turns = HistoryTurns
  import Cuts = TurnCuts

  // ---- Who says what ----

  /** A word, and the role of the message it stands in. */
  datatype Spoken = Spoken(role: Role, word: string)

  function Speech(role: Role, text: string): (r: seq<Spoken>)
    ensures |r| == |Words(text)| && forall k :: 0 <= k < |r| ==> r[k] == Spoken(role, Words(text)[k])
  {
    seq(|Words(text)|, k requires 0 <= k < |Words(text)| => Spoken(role, Words(text)[k]))
  }

  /** Every word said outside tool results, in order. */
  function Script(ms: seq<Message>): seq<Spoken> {
    if ms == [] then []
    else (if ms[0].role == Tool then [] else Speech(ms[0].role, ms[0].content)) + Script(ms[1..])
  }

  lemma {:induction false} ScriptConcat(a: seq<Message>, b: seq<Message>)
    ensures Script(a + b) == Script(a) + Script(b)
  {
    hide Speech;
    if a == [] {
      assert a + b == b;
    } else {
      assert (a + b)[1..] == a[1..] + b;
      ScriptConcat(a[1..], b);
    }
  }

  lemma ScriptOne(m: Message)
    ensures Script([m]) == if m.role == Tool then [] else Speech(m.role, m.content)
  {
    hide Speech;
    assert [m][1..] == [];
  }

  lemma SpeechJoins(role: Role, a: string, b: string, text: string)
    requires Words(text) == Words(a) + Words(b)
    ensures Speech(role, text) == Speech(role, a) + Speech(role, b)
  {
    hide Words;
  }

  lemma SameWords(role: Role, a: string, b: string)
    requires Words(a) == Words(b)
    ensures Speech(role, a) == Speech(role, b)
  {
    hide Words;
  }

  lemma NothingSpoken(role: Role, text: string)
    requires Trim(text) == ""
    ensures Speech(role, text) == []
  {
    hide Trim;
    WordsOfTrim(text);
  }

  /** Lists that differ in tool results, calls and ids only. */
  predicate SaidAlike(a: seq<Message>, b: seq<Message>) {
    && |a| == |b|
    && forall i :: 0 <= i < |a| ==> a[i].role == b[i].role && (a[i].role == Tool || a[i].content == b[i].content)
  }

  lemma {:induction false} SameScript(a: seq<Message>, b: seq<Message>)
    requires SaidAlike(a, b)
    ensures Script(a) == Script(b)
    decreases |a|
  {
    hide Speech;
    if a != [] {
      forall i | 0 <= i < |a[1..]|
        ensures a[1..][i].role == b[1..][i].role && (a[1..][i].role == Tool || a[1..][i].content == b[1..][i].content)
      {
        assert a[i + 1].role == b[i + 1].role;
      }
      SameScript(a[1..], b[1..]);
    }
  }

  // ---- Layers 1 and 2 ----

  /** What is left of a message's text without think blocks; a note only where that is nothing and no call is made. */
  function WithoutThinking(m: Message, drop: bool, strip: string -> string): string {
    if m.role != Assistant || !drop then m.content
    else if Trim(strip(m.content)) == "" && m.toolCalls == [] && m.content != "" then "[thinking content omitted]"
    else strip(m.content)
  }

  function ScriptWithoutThinking(ms: seq<Message>, drop: bool, strip: string -> string): seq<Spoken> {
    if ms == [] then []
    else
      (if ms[0].role == Tool then [] else Speech(ms[0].role, WithoutThinking(ms[0], drop, strip)))
      + ScriptWithoutThinking(ms[1..], drop, strip)
  }

  lemma DropThinkingTells(m: Message, strip: string -> string)
    ensures Speech(m.role, DropThinkingIn(m, strip).content) == Speech(m.role, WithoutThinking(m, true, strip))
  {
    hide Trim, Words, Speech;
    if m.role == Assistant {
      WordsOfTrim(strip(m.content));
      SameWords(m.role, Trim(strip(m.content)), strip(m.content));
      if Trim(strip(m.content)) == "" {
        TrimmedEnds("");
        NothingSpoken(m.role, strip(m.content));
        NothingSpoken(m.role, "");
      }
    }
  }

  lemma {:induction false} DropThinkingScript(ms: seq<Message>, strip: string -> string)
    ensures Script(DropThinking(ms, strip)) == ScriptWithoutThinking(ms, true, strip)
  {
    hide Speech, DropThinkingIn, WithoutThinking;
    if ms != [] {
      DropThinkingTells(ms[0], strip);
      DropThinkingScript(ms[1..], strip);
      assert DropThinking(ms, strip)[1..] == DropThinking(ms[1..], strip);
      DropThinkingRole(ms[0], strip);
    }
  }

  lemma DropThinkingRole(m: Message, strip: string -> string)
    ensures DropThinkingIn(m, strip).role == m.role
  {
    hide Trim;
  }

  lemma {:induction false} NothingDroppedScript(ms: seq<Message>, strip: string -> string)
    ensures Script(ms) == ScriptWithoutThinking(ms, false, strip)
  {
    hide Speech;
    if ms != [] { NothingDroppedScript(ms[1..], strip); }
  }

  /** Layer 2 takes no message that still says something. */
  lemma KeepMessageTells(m: Message, removed: set<string>)
    ensures Script(KeepMessage(m, removed)) == if m.role == Tool then [] else Speech(m.role, m.content)
  {
    hide Trim, KeepCalls, Speech, Script;
    var kept := KeepMessage(m, removed);
    NoScript();
    if kept == [] {
      if m.role != Tool { NothingSpoken(m.role, m.content); }
    } else {
      assert kept == [kept[0]];
      ScriptOne(kept[0]);
    }
  }

  lemma NoScript()
    ensures Script([]) == []
  {
  }

  lemma {:induction false} KeepMessagesScript(ms: seq<Message>, removed: set<string>)
    ensures Script(KeepMessages(ms, removed)) == Script(ms)
  {
    hide Speech, KeepMessage;
    if ms != [] {
      KeepMessageTells(ms[0], removed);
      KeepMessagesScript(ms[1..], removed);
      ScriptConcat(KeepMessage(ms[0], removed), KeepMessages(ms[1..], removed));
    }
  }

  /** On any list: after layers 1 and 2 everybody says what they said, assistants without their think blocks. */
  lemma FrontScript(ms: seq<Message>, p: Policy, allowed: set<string>, strip: string -> string)
    ensures Script(Front(ms, p, allowed, strip)) == ScriptWithoutThinking(ms, p.dropThinkingBlocks, strip)
  {
    hide Script, ScriptWithoutThinking, DropThinking, KeepMessages, RemovedIds;
    var first := if p.dropThinkingBlocks then DropThinking(ms, strip) else ms;
    DropThinkingScript(ms, strip);
    NothingDroppedScript(ms, strip);
    KeepMessagesScript(first, RemovedIds(first, allowed));
  }

  // ---- Layers 3 to 6 ----

  lemma {:induction false} DedupScript(ms: seq<Message>, answered: set<string>)
    ensures Script(Dedup(ms, answered)) == Script(ms)
    decreases |ms|
  {
    hide Trim, Speech;
    if ms != [] {
      var id := Trim(ms[0].toolCallId);
      if ms[0].role != Tool {
        DedupScript(ms[1..], answered);
        assert Dedup(ms, answered)[1..] == Dedup(ms[1..], answered);
      } else if id in answered {
        DedupScript(ms[1..], answered);
      } else {
        DedupScript(ms[1..], answered + {id});
        assert Dedup(ms, answered)[1..] == Dedup(ms[1..], answered + {id});
      }
    }
  }

  lemma TruncateScript(ms: seq<Message>)
    ensures Script(Truncate(ms, MAX_TOOL_RESULT)) == Script(ms)
  {
    SameScript(ms, Truncate(ms, MAX_TOOL_RESULT));
  }

  /** Layers 4 and 5 work on different messages. */
  lemma {:induction false} TruncateCommutes(ms: seq<Message>)
    ensures Turns.Strip(Truncate(ms, MAX_TOOL_RESULT)) == Truncate(Turns.Strip(ms), MAX_TOOL_RESULT)
  {
    hide Trim, Turns.KeepAnswered, Turns.RunIds;
    if ms != [] {
      var cut := Truncate(ms, MAX_TOOL_RESULT);
      assert cut[1..] == Truncate(ms[1..], MAX_TOOL_RESULT);
      TruncateCommutes(ms[1..]);
      TruncateSkeleton(ms[1..], MAX_TOOL_RESULT);
      RunIdsSkeleton(ms[1..], cut[1..]);
      assert Truncate(Turns.Strip(ms), MAX_TOOL_RESULT)[1..] == Truncate(Turns.Strip(ms[1..]), MAX_TOOL_RESULT);
    }
  }

  /** Nothing is said in the message, and all the ids it calls were called before. */
  predicate OnlyRepeats(m: Message, seen: set<string>) {
    Calls(m) != [] && Trim(m.content) == "" && forall k :: 0 <= k < |Calls(m)| ==> TrimmedIds(Calls(m))[k] in seen
  }

  /** What is said where stripping leaves a note in such messages. */
  function ScriptWithNotes(ms: seq<Message>, seen: set<string>): seq<Spoken> {
    if ms == [] then []
    else
      (if ms[0].role == Tool then []
       else Speech(ms[0].role, if OnlyRepeats(ms[0], seen) then "[tool calls omitted]" else ms[0].content))
      + ScriptWithNotes(ms[1..], seen + IdSet(Calls(ms[0])))
  }

  lemma {:induction false} KeepNone(ids: seq<string>, removed: set<string>)
    ensures KeepIds(ids, removed) == [] <==> forall k :: 0 <= k < |ids| ==> ids[k] in removed
  {
    if ids != [] {
      KeepNone(ids[1..], removed);
      forall k | 0 < k < |ids| ensures ids[k] == ids[1..][k - 1] {}
    }
  }

  lemma StripOneTells(ms: seq<Message>, answered: set<string>)
    requires ms != [] && ms[0].role != Tool && CleanCallIds(ms)
    requires Run(Some(TrimmedIds(Calls(ms[0]))), ms[1..]) == Some([])
    ensures
      var m := Turns.StripOne(ms[0], Turns.RunIds(Dedup(ms[1..], answered)));
      && m.role == ms[0].role
      && m.content == if OnlyRepeats(ms[0], answered) then "[tool calls omitted]" else ms[0].content
  {
    hide Trim, CleanCallIds, Run, Turns.KeepAnswered, Turns.RunIds, Dedup, KeepIds, TrimmedIds;
    StrippedCalls(ms, answered);
    KeepNone(TrimmedIds(Calls(ms[0])), answered);
  }

  lemma {:induction false} StrippedTells(open: seq<string>, ms: seq<Message>, answered: set<string>)
    requires Run(Some(open), ms) == Some([]) && CleanCallIds(ms)
    ensures Script(Stripped(ms, answered)) == ScriptWithNotes(ms, answered + Elements(open))
    decreases |ms|
  {
    hide Trim, CleanCallIds, Turns.StripOne, Stripped, Speech, OnlyRepeats, KeepIds;
    if ms == [] {
      StrippedNothing(answered);
      return;
    }
    if Step(Some(open), ms[0]).None? { RunNone(ms[1..]); }
    TailClean(ms);
    StrippedStep(ms, answered);
    if ms[0].role == Tool {
      NextOpen(open, answered);
      assert IdSet(Calls(ms[0])) == {};
      assert answered + Elements(open) + {} == answered + Elements(open);
      var id, rest := open[0], open[1..];
      if id in answered {
        StrippedTells(rest, ms[1..], answered);
      } else {
        StrippedTells(rest, ms[1..], answered + {id});
        assert Stripped(ms, answered)[1..] == Stripped(ms[1..], answered + {id});
      }
    } else {
      assert answered + Elements(open) == answered;
      ElementsOfIds(Calls(ms[0]));
      StripOneTells(ms, answered);
      StrippedTells(TrimmedIds(Calls(ms[0])), ms[1..], answered);
      assert Stripped(ms, answered)[1..] == Stripped(ms[1..], answered);
    }
  }

  lemma MergeOneScript(acc: seq<Message>, m: Message, target: Role)
    requires target == User || target == Assistant
    ensures Script(Turns.MergeOne(acc, m, target)) == Script(acc) + Script([m])
  {
    hide Script, Speech, Words, Turns.MergedText;
    if m.role != target || acc == [] || acc[|acc| - 1].role != target {
      ScriptConcat(acc, [m]);
    } else {
      var pre, last := acc[..|acc| - 1], acc[|acc| - 1];
      var merged := Turns.MergePair(last, m);
      assert acc == pre + [last];
      ScriptConcat(pre, [last]);
      ScriptConcat(pre, [merged]);
      ScriptOne(last);
      ScriptOne(m);
      ScriptOne(merged);
      WordsOfMerged(last.content, m.content);
      SpeechJoins(target, last.content, m.content, merged.content);
    }
  }

  lemma {:induction false} MergeScript(ms: seq<Message>, acc: seq<Message>, target: Role)
    requires target == User || target == Assistant
    ensures Script(Turns.Merge(ms, acc, target)) == Script(acc) + Script(ms)
    decreases |ms|
  {
    hide Turns.MergeOne, Speech;
    if ms != [] {
      MergeOneScript(acc, ms[0], target);
      MergeScript(ms[1..], Turns.MergeOne(acc, ms[0], target), target);
      ScriptConcat([ms[0]], ms[1..]);
      assert [ms[0]] + ms[1..] == ms;
    }
  }

  lemma TurnedScript(ms: seq<Message>, p: Policy)
    ensures Script(Cuts.Turned(ms, p)) == Script(if p.anthropicTurns then Turns.Strip(ms) else ms)
  {
    hide Script, Turns.Strip, Turns.Merge, Truncate, Cuts.Turned;
    Cuts.TurnedIs(ms, p);
    TruncateCommutes(ms);
    TruncateScript(ms);
    TruncateScript(Turns.Strip(ms));
    NoScript();
    MergeScript(Cuts.Start(ms, p), [], User);
    MergeScript(Cuts.UserMerged(ms, p), [], Assistant);
  }

  // ---- The whole pipeline ----

  /** What is said in what the turn limit keeps, with notes where layers 3 and 5 leave nothing of a message. */
  function RecentScript(front: seq<Message>, p: Policy): seq<Spoken> {
    if p.repairPairing && p.anthropicTurns then ScriptWithNotes(Recent(front, p), CalledIds(Older(front, p)))
    else Script(Recent(front, p))
  }

  lemma RecentTurnedScript(front: seq<Message>, p: Policy)
    requires BlockForm(front) && CleanCallIds(front)
    ensures Script(RecentTurned(front, p)) == RecentScript(front, p)
  {
    hide Run, CleanCallIds, Script, ScriptWithNotes, Turns.Strip, Dedup, Recent, Older, CalledIds, Cuts.Turned;
    var recent, seen := Recent(front, p), CalledIds(Older(front, p));
    PartsAreBlockForm(front, p);
    RecentIsClean(front, p);
    TurnedScript(Layer3(recent, seen, p), p);
    DedupScript(recent, seen);
    if p.anthropicTurns {
      if p.repairPairing {
        StrippedTells([], recent, seen);
        assert seen + Elements<string>([]) == seen;
      } else {
        Turns.NothingDangles([], recent);
      }
    }
  }

  lemma BackScript(ms: seq<Message>, p: Policy, rand: Randomness)
    ensures Script(Back(ms, p, rand)) == Script(ms)
  {
    hide IdMap, Unchanging, NewId;
    SameScript(ms, Back(ms, p, rand));
  }

  /**
   From block form with clean ids, under any policy: what is said afterwards is what the first system message and
   the part kept by the turn limit say, with a note for a message that says nothing and only repeats calls.
   */
  lemma PipelineScript(
    ms: seq<Message>, p: Policy, allowed: set<string>, strip: string -> string, rand: Randomness, out: seq<Message>)
    requires BlockForm(ms) && CleanCallIds(ms) && Piped(ms, p, allowed, strip, rand, out)
    ensures
      var front := Front(ms, p, allowed, strip);
      Script(out) == Script(Head(front)) + RecentScript(front, p)
  {
    hide BlockForm, CleanCallIds, Script, Front, Middle, Back, Layer3, Head, RecentTurned, RecentScript, Piped;
    var front := Front(ms, p, allowed, strip);
    FrontKeepsClean(ms, p, allowed, strip);
    OutIs(ms, p, allowed, strip, rand, out);
    MiddleOfRecent(front, p);
    BackScript(Middle(Layer3(front, {}, p), p), p, rand);
    ScriptConcat(Head(front), RecentTurned(front, p));
    RecentTurnedScript(front, p);
  }

  lemma OutIs(
    ms: seq<Message>, p: Policy, allowed: set<string>, strip: string -> string, rand: Randomness, out: seq<Message>)
    requires BlockForm(ms) && CleanCallIds(ms) && Piped(ms, p, allowed, strip, rand, out)
    ensures out == Back(Middle(Layer3(Front(ms, p, allowed, strip), {}, p), p), p, rand)
  {
    hide BlockForm, CleanCallIds, Piped, Front, Middle, Back, Layer3;
    PipedToIs(ms, p, allowed, strip, rand, out);
  }

  /** Where ids are different, no message only repeats calls. */
  lemma {:induction false} NoNotes(ms: seq<Message>, seen: set<string>)
    requires DistinctCalls(ms, seen)
    ensures ScriptWithNotes(ms, seen) == Script(ms)
    decreases |ms|
  {
    hide Trim, Speech, IdSet;
    if ms != [] {
      NoNotes(ms[1..], seen + IdSet(Calls(ms[0])));
      if Calls(ms[0]) != [] { assert TrimmedIds(Calls(ms[0]))[0] !in seen; }
    }
  }

  lemma {:induction false} DistinctConcat(a: seq<Message>, b: seq<Message>, seen: set<string>)
    requires DistinctCalls(a + b, seen)
    ensures DistinctCalls(b, seen + CalledIds(a))
    decreases |a|
  {
    hide FreshCalls, IdSet;
    if a == [] {
      assert a + b == b && seen + CalledIds(a) == seen;
    } else {
      assert (a + b)[1..] == a[1..] + b;
      DistinctConcat(a[1..], b, seen + IdSet(Calls(a[0])));
      assert seen + CalledIds(a) == seen + IdSet(Calls(a[0])) + CalledIds(a[1..]);
    }
  }

  lemma RecentIsDistinct(front: seq<Message>, p: Policy)
    requires BlockForm(front) && DistinctCalls(front, {})
    ensures DistinctCalls(Recent(front, p), CalledIds(Older(front, p)))
  {
    hide BlockForm, DistinctCalls, CalledIds, Recent, Older, Body, Head;
    BodyIsBlockForm(front);
    PartsAreBlockForm(front, p);
    DistinctConcat(Head(front), Body(front), {});
    HeadCallsNothing(front);
    assert {} + CalledIds(Head(front)) == {};
    DistinctConcat(Older(front, p), Recent(front, p), {});
    assert {} + CalledIds(Older(front, p)) == CalledIds(Older(front, p));
  }

  lemma HeadCallsNothing(front: seq<Message>)
    ensures CalledIds(Head(front)) == {}
  {
    if Head(front) != [] { assert [front[0]][1..] == [] && IdSet(Calls(front[0])) == {}; }
  }

  /**
   From a ready list everybody says what they said, in order, assistants without their think blocks: all of it
   without a turn limit, and otherwise what the first system message and the part kept by the limit say.
   */
  lemma NobodyIsMisquoted(
    ms: seq<Message>, p: Policy, allowed: set<string>, strip: string -> string, rand: Randomness, out: seq<Message>)
    requires Ready(ms) && Piped(ms, p, allowed, strip, rand, out)
    ensures
      var front := Front(ms, p, allowed, strip);
      && Script(front) == ScriptWithoutThinking(ms, p.dropThinkingBlocks, strip)
      && Script(out) == Script(Head(front)) + Script(Recent(front, p))
      && (p.turnLimit <= 0 ==> Script(out) == ScriptWithoutThinking(ms, p.dropThinkingBlocks, strip))
  {
    hide Ready, BlockForm, CleanCallIds, DistinctCalls, Script, ScriptWithoutThinking, ScriptWithNotes, Front, Piped;
    hide Recent, Older, Head, Body, CalledIds;
    var front := Front(ms, p, allowed, strip);
    FrontKeepsReady(ms, p, allowed, strip);
    ReadyGives(ms);
    ReadyGives(front);
    FrontScript(ms, p, allowed, strip);
    PipelineScript(ms, p, allowed, strip, rand, out);
    RecentIsDistinct(front, p);
    NoNotes(Recent(front, p), CalledIds(Older(front, p)));
    if p.turnLimit <= 0 { AllIsRecent(front, p); }
  }

  lemma ReadyGives(ms: seq<Message>)
    requires Ready(ms)
    ensures BlockForm(ms) && CleanCallIds(ms) && DistinctCalls(ms, {})
  {
  }

  lemma AllIsRecent(front: seq<Message>, p: Policy)
    requires p.turnLimit <= 0
    ensures Script(front) == Script(Head(front)) + Script(Recent(front, p))
    ensures AllResults(front) == AllResults(Recent(front, p))
  {
    RecentIsBody(front, p);
    hide Script, AllResults, Recent, Head, Body;
    ScriptConcat(Head(front), Body(front));
    AllResultsConcat(Head(front), Body(front));
    NoResultsInHead(front);
    assert [] + AllResults(Body(front)) == AllResults(Body(front));
  }

  lemma RecentIsBody(front: seq<Message>, p: Policy)
    requires p.turnLimit <= 0
    ensures Recent(front, p) == Body(front) && front == Head(front) + Body(front)
  {
    hide Cuts.Cut;
  }

  lemma NoResultsInHead(front: seq<Message>)
    ensures AllResults(Head(front)) == []
  {
    if Head(front) != [] { AllResultsOne(front[0]); }
  }

  // ---- Tool results ----

  /** Some disallowed call has this id. */
  predicate Banned(calls: seq<ToolCall>, allowed: set<string>, id: string) {
    allowed != {} && exists k :: 0 <= k < |calls| && calls[k].id == id && Trim(calls[k].name) !in allowed
  }

  function OfBanned(calls: seq<ToolCall>, allowed: set<string>): Message -> bool {
    (m: Message) => Banned(calls, allowed, Trim(m.toolCallId))
  }

  lemma {:induction false} RemovedIsBanned(ms: seq<Message>, allowed: set<string>, id: string)
    requires allowed != {}
    ensures id in RemovedIds(ms, allowed) <==> Banned(AllCalls(ms), allowed, id)
  {
    hide Trim, Calls;
    if ms != [] {
      RemovedIsBanned(ms[1..], allowed, id);
      BannedConcat(Calls(ms[0]), AllCalls(ms[1..]), allowed, id);
      RemovedInIsBanned(Calls(ms[0]), allowed, id);
    }
  }

  lemma RemovedInIsBanned(calls: seq<ToolCall>, allowed: set<string>, id: string)
    requires allowed != {}
    ensures id in RemovedIn(calls, allowed) <==> Banned(calls, allowed, id)
  {
    hide Trim;
    if Banned(calls, allowed, id) {
      var k :| 0 <= k < |calls| && calls[k].id == id && Trim(calls[k].name) !in allowed;
      assert calls[k] in calls && Disallowed(calls[k], allowed);
    }
  }

  lemma BannedConcat(a: seq<ToolCall>, b: seq<ToolCall>, allowed: set<string>, id: string)
    ensures Banned(a + b, allowed, id) <==> Banned(a, allowed, id) || Banned(b, allowed, id)
  {
    hide Trim;
    if Banned(a, allowed, id) {
      var k :| 0 <= k < |a| && a[k].id == id && Trim(a[k].name) !in allowed;
      assert (a + b)[k] == a[k];
    }
    if Banned(b, allowed, id) {
      var k :| 0 <= k < |b| && b[k].id == id && Trim(b[k].name) !in allowed;
      assert (a + b)[|a| + k] == b[k];
    }
  }

  lemma {:induction false} KeepMessagesResults(
    ms: seq<Message>, removed: set<string>, calls: seq<ToolCall>, allowed: set<string>)
    requires forall id :: id in removed <==> Banned(calls, allowed, id)
    ensures IsWithout(AllResults(ms), AllResults(KeepMessages(ms, removed)), OfBanned(calls, allowed))
  {
    hide Trim, IsWithout, Banned, KeepMessage;
    var drop := OfBanned(calls, allowed);
    if ms == [] {
      WithoutNothing(drop);
      assert KeepMessages(ms, removed) == ms && AllResults(ms) == [];
    } else {
      KeepMessagesResults(ms[1..], removed, calls, allowed);
      var kept, rest := KeepMessage(ms[0], removed), KeepMessages(ms[1..], removed);
      AllResultsConcat(kept, rest);
      KeptResults(ms[0], removed);
      var results := AllResults(ms);
      if ms[0].role == Tool {
        assert results == [ms[0]] + AllResults(ms[1..]) && results[1..] == AllResults(ms[1..]);
        if Trim(ms[0].toolCallId) in removed {
          WithoutFirst(results, AllResults(rest), drop);
        } else {
          WithFirst(results, AllResults(rest), drop);
        }
      } else {
        assert results == AllResults(ms[1..]) && AllResults(kept + rest) == AllResults(rest);
      }
    }
  }

  lemma KeptResults(m: Message, removed: set<string>)
    ensures AllResults(KeepMessage(m, removed))
         == if m.role == Tool && Trim(m.toolCallId) !in removed then [m] else []
  {
    hide Trim, KeepCalls;
    var kept := KeepMessage(m, removed);
    if kept != [] {
      assert kept == [kept[0]];
      AllResultsOne(kept[0]);
    }
  }

  lemma {:induction false} NothingBanned(results: seq<Message>, calls: seq<ToolCall>)
    ensures IsWithout(results, results, OfBanned(calls, {}))
  {
    hide IsWithout;
    var drop := OfBanned(calls, {});
    if results == [] {
      WithoutNothing(drop);
    } else {
      NothingBanned(results[1..], calls);
      WithFirst(results, results[1..], drop);
      assert [results[0]] + results[1..] == results;
    }
  }

  lemma {:induction false} NoneBanned(results: seq<Message>, calls: seq<ToolCall>, allowed: set<string>)
    requires forall id :: !Banned(calls, allowed, id)
    ensures IsWithout(results, results, OfBanned(calls, allowed))
  {
    hide IsWithout, Banned;
    var drop := OfBanned(calls, allowed);
    if results == [] {
      WithoutNothing(drop);
    } else {
      NoneBanned(results[1..], calls, allowed);
      WithFirst(results, results[1..], drop);
      assert [results[0]] + results[1..] == results;
    }
  }

  lemma DropThinkingResults(ms: seq<Message>, strip: string -> string)
    ensures AllResults(DropThinking(ms, strip)) == AllResults(ms)
    ensures AllCalls(DropThinking(ms, strip)) == AllCalls(ms)
  {
    hide Trim;
    DropThinkingSkeleton(ms, strip);
    SkeletonCalls(ms, DropThinking(ms, strip));
    SameResults(ms, DropThinking(ms, strip));
  }

  lemma {:induction false} SameResults(a: seq<Message>, b: seq<Message>)
    requires |a| == |b|
    requires forall i :: 0 <= i < |a| ==> a[i].role == b[i].role && (a[i].role == Tool ==> a[i] == b[i])
    ensures AllResults(a) == AllResults(b)
    decreases |a|
  {
    if a != [] {
      forall i | 0 <= i < |a[1..]|
        ensures a[1..][i].role == b[1..][i].role && (a[1..][i].role == Tool ==> a[1..][i] == b[1..][i])
      {
        assert a[i + 1].role == b[i + 1].role;
      }
      SameResults(a[1..], b[1..]);
    }
  }

  /** On any list: exactly the results of disallowed calls go with layer 2. */
  lemma FrontResults(ms: seq<Message>, p: Policy, allowed: set<string>, strip: string -> string)
    ensures IsWithout(AllResults(ms), AllResults(Front(ms, p, allowed, strip)), OfBanned(AllCalls(ms), allowed))
  {
    hide IsWithout, AllResults, AllCalls, DropThinking, KeepMessages, RemovedIds, Banned;
    var first := if p.dropThinkingBlocks then DropThinking(ms, strip) else ms;
    DropThinkingResults(ms, strip);
    var removed := RemovedIds(first, allowed);
    if allowed == {} {
      NothingBanned(AllResults(ms), AllCalls(ms));
    } else {
      forall id ensures id in removed <==> Banned(AllCalls(ms), allowed, id) { RemovedIsBanned(first, allowed, id); }
      if removed == {} {
        NoneBanned(AllResults(ms), AllCalls(ms), allowed);
      } else {
        KeepMessagesResults(first, removed, AllCalls(ms), allowed);
      }
    }
  }

  /** The result as it was, or its first 32000 characters and a notice. */
  predicate ShownAs(m: Message, r: Message) {
    && r.name == m.name
    && r.content == if |m.content| <= 32000 then m.content else m.content[..32000] + "\n[... truncated]"
  }

  predicate AllShown(before: seq<Message>, after: seq<Message>) {
    |after| == |before| && forall k :: 0 <= k < |before| ==> ShownAs(before[k], after[k])
  }

  /** `b` has the roles of `a`, and shows its results. */
  predicate Shows(a: seq<Message>, b: seq<Message>) {
    |a| == |b| && forall i :: 0 <= i < |a| ==> a[i].role == b[i].role && (a[i].role == Tool ==> ShownAs(a[i], b[i]))
  }

  lemma {:induction false} ShowsResults(a: seq<Message>, b: seq<Message>)
    requires Shows(a, b)
    ensures AllShown(AllResults(a), AllResults(b))
    decreases |a|
  {
    hide ShownAs;
    if a != [] {
      forall i | 0 <= i < |a[1..]|
        ensures a[1..][i].role == b[1..][i].role && (a[1..][i].role == Tool ==> ShownAs(a[1..][i], b[1..][i]))
      {
        assert a[i + 1].role == b[i + 1].role;
      }
      ShowsResults(a[1..], b[1..]);
    }
  }

  lemma TruncateShows(ms: seq<Message>)
    ensures Shows(ms, Truncate(ms, MAX_TOOL_RESULT))
  {
  }

  lemma {:induction false} StripResults(ms: seq<Message>)
    ensures AllResults(Turns.Strip(ms)) == AllResults(ms)
  {
    hide Trim, Turns.KeepAnswered, Turns.RunIds;
    if ms != [] {
      StripResults(ms[1..]);
      assert Turns.Strip(ms)[1..] == Turns.Strip(ms[1..]);
    }
  }

  lemma MergeOneResults(acc: seq<Message>, m: Message, target: Role)
    requires target == User || target == Assistant
    ensures AllResults(Turns.MergeOne(acc, m, target)) == AllResults(acc) + AllResults([m])
  {
    hide Trim, AllResults, Turns.MergedText;
    if m.role != target || acc == [] || acc[|acc| - 1].role != target {
      AllResultsConcat(acc, [m]);
    } else {
      var pre, last := acc[..|acc| - 1], acc[|acc| - 1];
      assert acc == pre + [last];
      AllResultsConcat(pre, [last]);
      AllResultsConcat(pre, [Turns.MergePair(last, m)]);
      AllResultsOne(last);
      AllResultsOne(m);
      AllResultsOne(Turns.MergePair(last, m));
    }
  }

  lemma {:induction false} MergeResults(ms: seq<Message>, acc: seq<Message>, target: Role)
    requires target == User || target == Assistant
    ensures AllResults(Turns.Merge(ms, acc, target)) == AllResults(acc) + AllResults(ms)
    decreases |ms|
  {
    hide Turns.MergeOne;
    if ms != [] {
      MergeOneResults(acc, ms[0], target);
      MergeResults(ms[1..], Turns.MergeOne(acc, ms[0], target), target);
      AllResultsConcat([ms[0]], ms[1..]);
      assert [ms[0]] + ms[1..] == ms;
    }
  }

  lemma TurnedResults(ms: seq<Message>, p: Policy)
    ensures AllShown(AllResults(ms), AllResults(Cuts.Turned(ms, p)))
  {
    hide AllResults, Turns.Strip, Turns.Merge, Truncate, Cuts.Turned, AllShown, Shows;
    var truncated := Truncate(ms, MAX_TOOL_RESULT);
    Cuts.TurnedIs(ms, p);
    TruncateShows(ms);
    ShowsResults(ms, truncated);
    StripResults(truncated);
    NoResultsInNothing();
    MergeResults(Cuts.Start(ms, p), [], User);
    MergeResults(Cuts.UserMerged(ms, p), [], Assistant);
    assert AllResults(Cuts.Turned(ms, p)) == AllResults(truncated);
  }

  lemma NoResultsInNothing()
    ensures AllResults([]) == []
  {
  }

  /** Renaming ids leaves names and texts. */
  predicate SameTexts(a: seq<Message>, b: seq<Message>) {
    |a| == |b| && forall k :: 0 <= k < |a| ==> a[k].name == b[k].name && a[k].content == b[k].content
  }

  lemma TextsStay(ms: seq<Message>)
    ensures SameTexts(ms, ms)
  {
  }

  lemma TextsCons(m: Message, r: Message, a: seq<Message>, b: seq<Message>)
    requires m.name == r.name && m.content == r.content && SameTexts(a, b)
    ensures SameTexts([m] + a, [r] + b)
  {
  }

  lemma {:induction false} RenameResults(ms: seq<Message>, ids: map<string, string>)
    ensures SameTexts(AllResults(ms), AllResults(Rename(ms, ids)))
  {
    hide NewId, RenameCalls, SameTexts;
    if ms == [] {
      assert Rename(ms, ids) == ms;
      TextsStay(AllResults(ms));
    } else {
      assert Rename(ms, ids)[1..] == Rename(ms[1..], ids);
      RenameResults(ms[1..], ids);
      var m, r, a, b := ms[0], Rename(ms, ids)[0], AllResults(ms[1..]), AllResults(Rename(ms[1..], ids));
      TextsCons(m, r, a, b);
      assert AllResults(ms) == if m.role == Tool then [m] + a else a;
      assert AllResults(Rename(ms, ids)) == if m.role == Tool then [r] + b else b;
    }
  }

  lemma BackResults(ms: seq<Message>, p: Policy, rand: Randomness)
    ensures SameTexts(AllResults(ms), AllResults(Back(ms, p, rand)))
  {
    hide AllResults, IdMap, Unchanging, Rename;
    RenameResults(ms, IdMap(ms, p.idMode, rand));
  }

  lemma ShownThrough(a: seq<Message>, b: seq<Message>, c: seq<Message>)
    requires AllShown(a, b) && SameTexts(b, c)
    ensures AllShown(a, c)
  {
  }

  /**
   From a ready list: the results of allowed calls come through in order, each with its text or the first 32000
   characters of it and a notice; all of them without a turn limit, and otherwise those of the part it keeps.
   */
  lemma ResultsComeThrough(
    ms: seq<Message>, p: Policy, allowed: set<string>, strip: string -> string, rand: Randomness, out: seq<Message>)
    requires Ready(ms) && Piped(ms, p, allowed, strip, rand, out)
    ensures
      var front := Front(ms, p, allowed, strip);
      && IsWithout(AllResults(ms), AllResults(front), OfBanned(AllCalls(ms), allowed))
      && AllShown(AllResults(Recent(front, p)), AllResults(out))
      && (p.turnLimit <= 0 ==> AllShown(AllResults(front), AllResults(out)))
  {
    hide Ready, BlockForm, CleanCallIds, DistinctCalls, AllResults, AllCalls, Front, Piped, Middle, Back, IsWithout;
    hide Recent, Older, Head, Body, CalledIds, AllShown, SameTexts, Dedup;
    var front := Front(ms, p, allowed, strip);
    var recent := Recent(front, p);
    FrontKeepsReady(ms, p, allowed, strip);
    ReadyGives(ms);
    ReadyGives(front);
    FrontResults(ms, p, allowed, strip);
    OutIs(ms, p, allowed, strip, rand, out);
    MiddleOfRecent(front, p);
    RecentIsDistinct(front, p);
    PartsAreBlockForm(front, p);
    DedupSuits(recent, CalledIds(Older(front, p)));
    assert Layer3(recent, CalledIds(Older(front, p)), p) == recent;
    var middle := Middle(Layer3(front, {}, p), p);
    TurnedResults(recent, p);
    AllResultsConcat(Head(front), RecentTurned(front, p));
    NoResultsInHead(front);
    assert AllResults(middle) == AllResults(RecentTurned(front, p));
    BackResults(middle, p, rand);
    ShownThrough(AllResults(recent), AllResults(middle), AllResults(out));
    if p.turnLimit <= 0 { AllIsRecent(front, p); }
  }
}
