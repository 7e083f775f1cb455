/** The history of a run from end to end: transcript, first pipeline, tool loop, pipeline of every later round. */
module Conversation {
  import opened Text
  import opened Messages
  import opened OpenAISanitizer
  import opened RoundLoop
  import opened ToolCallIds
  import Theorems = OpenAISanitizerTheorems
  import opened HistoryFilters
  import opened DistinctIds
  import opened Deduplication
  import opened Sets
  import HistoryPipeline
  import PipelineConditions
  import SecondPass
  import Meaning = HistoryMeaning

  predicate CleanIn(m: Message) {
    CleanCalls(Calls(m))
  }

  lemma NormalTurnIsClean(t: Theorems.Turn)
    requires Theorems.NormalTurn(t)
    ensures forall i :: 0 <= i < |Theorems.Emit(t)| ==> CleanIn(Theorems.Emit(t)[i])
  {
    hide Trim, ValidateCalls;
    if t.CallTurn? {
      ValidatedAreClean(t.calls);
      Theorems.EmitEnds(t);
      Theorems.ResultsShape(t.calls, t.responded);
      var results := ResultsFor(t.calls, t.responded);
      forall k | 0 <= k < |results| ensures CleanIn(results[k]) {
        assert CleanResult(results[k]) == results[k];
      }
    }
  }

  lemma {:induction false} FlattenIsClean(ts: seq<Theorems.Turn>)
    requires Theorems.Normal(ts)
    ensures forall i :: 0 <= i < |Theorems.Flatten(ts)| ==> CleanIn(Theorems.Flatten(ts)[i])
  {
    hide Theorems.NormalTurn, Theorems.Emit, CleanIn;
    if ts != [] {
      FlattenIsClean(ts[..|ts| - 1]);
      NormalTurnIsClean(ts[|ts| - 1]);
    }
  }

  /** What the sanitizer makes of any messages is in block form with clean ids. */
  lemma SanitizedIsClean(raw: seq<Message>)
    ensures BlockForm(Sanitize(raw, [])) && CleanCallIds(Sanitize(raw, []))
  {
    hide Theorems.Normal, Sanitize, BlockForm, CleanIn;
    Theorems.SanitizeIsBlockForm(raw);
    Theorems.SanitizeIsNormal(raw);
    var ts :| Theorems.Normal(ts) && Sanitize(raw, []) == Theorems.Flatten(ts);
    FlattenIsClean(ts);
    forall i | 0 <= i < |Sanitize(raw, [])| ensures CleanCalls(Calls(Sanitize(raw, [])[i])) {
      CleanInMeans(Sanitize(raw, [])[i]);
    }
  }

  /** So it meets the pipeline's needs as soon as its call ids are distinct. */
  lemma SanitizedIsReady(raw: seq<Message>)
    ensures Ready(Sanitize(raw, [])) <==> DistinctCalls(Sanitize(raw, []), {})
  {
    hide Sanitize, BlockForm, DistinctCalls, CleanCallIds;
    SanitizedIsClean(raw);
  }

  lemma CleanInMeans(m: Message)
    requires CleanIn(m)
    ensures CleanCalls(Calls(m))
  {
  }

  // ---- From the raw messages to the prompt of any round ----

  /** What the first pipeline is given, and what a run with these rounds has accumulated when it stands still. */
  function Accumulated(initial: seq<Message>, rounds: seq<Round>, maxRounds: int, w: nat, c: nat): seq<Message> {
    Loop(State(initial, [], []), rounds, 0, maxRounds, w, c).state.messages
  }

  /** The rounds that completed. */
  function Completed(initial: seq<Message>, rounds: seq<Round>, maxRounds: int, w: nat, c: nat): (k: nat)
    ensures k <= |rounds|
  {
    LoopIds(State(initial, [], []), rounds, 0, maxRounds, w, c);
    |Loop(State(initial, [], []), rounds, 0, maxRounds, w, c).state.history|
  }

  lemma AccumulatedIds(initial: seq<Message>, rounds: seq<Round>, maxRounds: int, w: nat, c: nat)
    ensures Ids(Accumulated(initial, rounds, maxRounds, w, c))
         == Ids(initial) + RoundIds(rounds[..Completed(initial, rounds, maxRounds, w, c)])
  {
    hide Loop, Ids, RoundIds;
    LoopIds(State(initial, [], []), rounds, 0, maxRounds, w, c);
    var k := |Loop(State(initial, [], []), rounds, 0, maxRounds, w, c).state.history|;
    assert Completed(initial, rounds, maxRounds, w, c) == k;
  }

  /**
   From any raw messages: those a run starts with are in block form if and only if the ids that pass layer 2
   suit the policy.
   */
  lemma FirstMessagesAreBlockFormIff(
    raw: seq<Message>, p: HistoryPipeline.Policy, allowed: set<string>, strip: string -> string, rand: Randomness,
    initial: seq<Message>)
    requires HistoryPipeline.Piped(Sanitize(raw, []), p, allowed, strip, rand, initial)
    ensures BlockForm(initial) <==>
            PipelineConditions.IdsSuit(HistoryPipeline.Front(Sanitize(raw, []), p, allowed, strip), p)
  {
    hide Sanitize, BlockForm, CleanCallIds, HistoryPipeline.Piped, HistoryPipeline.Front, PipelineConditions.IdsSuit;
    SanitizedIsClean(raw);
    PipelineConditions.PipelineKeepsBlockFormIff(Sanitize(raw, []), p, allowed, strip, rand, initial);
  }

  /**
   The messages a run starts with: in block form, and with different ids exactly when layer 8 keeps the ids of
   the calls it sends apart.
   */
  lemma FirstPipeline(
    raw: seq<Message>, p: HistoryPipeline.Policy, allowed: set<string>, strip: string -> string, rand: Randomness,
    initial: seq<Message>)
    requires DistinctCalls(Sanitize(raw, []), {})
    requires HistoryPipeline.Piped(Sanitize(raw, []), p, allowed, strip, rand, initial)
    ensures BlockForm(initial) && CleanCallIds(initial)
    ensures
      var sent := HistoryPipeline.Middle(HistoryPipeline.Front(Sanitize(raw, []), p, allowed, strip), p);
      DistinctCalls(initial, {}) <==> (p.sanitizeIds ==> Apart(CalledIds(sent), p.idMode, rand))
  {
    hide Sanitize, BlockForm, DistinctCalls, HistoryPipeline.Piped, HistoryPipeline.Front, HistoryPipeline.Middle;
    hide Ready, CleanCallIds, Apart;
    SanitizedIsReady(raw);
    HistoryPipeline.PipelineKeepsBlockForm(Sanitize(raw, []), p, allowed, strip, rand, initial);
    HistoryPipeline.PipelineKeepsClean(Sanitize(raw, []), p, allowed, strip, rand, initial);
    PipelineConditions.PipelineKeepsDistinctIff(Sanitize(raw, []), p, allowed, strip, rand, initial);
  }

  /**
   The pipeline runs once more before the first request. It leaves the messages as they are if and only if, where
   the policy repairs, layer 8 kept the ids of the calls it sends apart.
   */
  lemma FirstPromptIsTheFirstPassIff(
    raw: seq<Message>, p: HistoryPipeline.Policy, allowed: set<string>, strip: string -> string, rand: Randomness,
    initial: seq<Message>, again: Randomness, prompt: seq<Message>)
    requires DistinctCalls(Sanitize(raw, []), {})
    requires HistoryPipeline.Piped(Sanitize(raw, []), p, allowed, strip, rand, initial)
    requires p.dropThinkingBlocks ==> DropThinking(initial, strip) == initial
    requires HistoryPipeline.Piped(initial, p, allowed, strip, again, prompt)
    ensures
      var sent := HistoryPipeline.Middle(HistoryPipeline.Front(Sanitize(raw, []), p, allowed, strip), p);
      prompt == initial <==> (p.repairPairing && p.sanitizeIds ==> Apart(CalledIds(sent), p.idMode, rand))
  {
    hide Sanitize, BlockForm, DistinctCalls, HistoryPipeline.Piped, HistoryPipeline.Front, HistoryPipeline.Middle;
    hide Ready, CleanCallIds, Apart, DropThinking;
    SanitizedIsReady(raw);
    FirstPipeline(raw, p, allowed, strip, rand, initial);
    SecondPass.SecondPassChangesNothingIff(
      Sanitize(raw, []), p, allowed, strip, rand, initial, again, prompt);
  }

  /** From position `k` on, every id differs from all ids before it. */
  predicate NewFrom(ids: seq<string>, k: nat) {
    forall i, j :: 0 <= i < j < |ids| && k <= j ==> ids[i] != ids[j]
  }

  lemma NewFromIff(a: seq<string>, b: seq<string>)
    ensures NewFrom(a + b, |a|) <==> NoRepeats(b) && Elements(b) !! Elements(a)
  {
    var all := a + b;
    if NewFrom(all, |a|) {
      forall i, j | 0 <= i < j < |b| ensures b[i] != b[j] { assert all[|a| + i] != all[|a| + j]; }
      forall id | id in a ensures id !in b {
        var i :| 0 <= i < |a| && a[i] == id;
        forall j | 0 <= j < |b| ensures b[j] != id { assert all[i] != all[|a| + j]; }
      }
    }
    if NoRepeats(b) && Elements(b) !! Elements(a) {
      forall i, j | 0 <= i < j < |all| && |a| <= j ensures all[i] != all[j] {
        assert all[j] in Elements(b);
        if i < |a| { assert all[i] in Elements(a); }
      }
    }
  }

  /** Under a policy that repairs but does not strip: the ids the limit keeps must differ from all before them. */
  lemma SuitsIff(front: seq<Message>, p: HistoryPipeline.Policy)
    requires p.repairPairing && !p.anthropicTurns && BlockForm(front)
    ensures PipelineConditions.IdsSuit(front, p) <==>
            NewFrom(Ids(front), |Ids(PipelineConditions.Older(front, p))|)
  {
    hide BlockForm, DistinctCalls, FreshCalls, AllCalls, CalledIds, NewFrom, TrimmedIds;
    hide PipelineConditions.Older, PipelineConditions.Recent, PipelineConditions.Body, PipelineConditions.Head;
    var older, recent := PipelineConditions.Older(front, p), PipelineConditions.Recent(front, p);
    PipelineConditions.PartsAreBlockForm(front, p);
    PipelineConditions.BodyIsBlockForm(front);
    PipelineConditions.BodyCalls(front);
    AllCallsConcat(older, recent);
    IdsConcat(AllCalls(older), AllCalls(recent));
    DistinctIsFresh(recent, CalledIds(older));
    FreshIff(AllCalls(recent), CalledIds(older));
    CalledIdsAreIds(older);
    NewFromIff(Ids(older), Ids(recent));
  }

  /**
   When the prompt of a round is in block form. Without repair: always. With repair: if and only if, of the ids
   not removed by layer 2 (those of the first messages, then those of the completed rounds), each id of the part
   that the turn limit keeps differs from all before it; for a policy that also strips, if and only if no message
   of that part calls an id twice that was not called before. Without a limit the part is everything.
   */
  lemma PromptIsBlockFormIff(
    initial: seq<Message>, rounds: seq<Round>, maxRounds: int, w: nat, c: nat,
    p: HistoryPipeline.Policy, allowed: set<string>, strip: string -> string, rand: Randomness, prompt: seq<Message>)
    requires BlockForm(initial) && CleanCallIds(initial)
    requires HistoryPipeline.Piped(Accumulated(initial, rounds, maxRounds, w, c), p, allowed, strip, rand, prompt)
    ensures
      var ms := Accumulated(initial, rounds, maxRounds, w, c);
      var ids := Ids(initial) + RoundIds(rounds[..Completed(initial, rounds, maxRounds, w, c)]);
      var front := HistoryPipeline.Front(ms, p, allowed, strip);
      var older, recent := PipelineConditions.Older(front, p), PipelineConditions.Recent(front, p);
      && (BlockForm(prompt) <==>
          if !p.repairPairing then true
          else if p.anthropicTurns then NewIdsOnce(recent, CalledIds(older))
          else NewFrom(KeepIds(ids, PipelineConditions.Dropped(ms, allowed)), |Ids(older)|))
      && (p.turnLimit <= 0 ==> older == [])
  {
    hide Loop, BlockForm, CleanCallIds, DistinctCalls, HistoryPipeline.Piped, HistoryPipeline.Front, Ids, RoundIds;
    hide Completed, PipelineConditions.Dropped, NewFrom, PipelineConditions.Older, PipelineConditions.Recent;
    hide NewIdsOnce, CalledIds, Accumulated;
    var ms := Accumulated(initial, rounds, maxRounds, w, c);
    AccumulatedStaysClean(initial, rounds, maxRounds, w, c);
    AccumulatedIs(initial, rounds, maxRounds, w, c);
    EveryPromptIsBlockFormIff(initial, rounds, maxRounds, w, c, p, allowed, strip, rand, prompt);
    PipelineConditions.FrontIds(ms, p, allowed, strip);
    AccumulatedIds(initial, rounds, maxRounds, w, c);
    PipelineConditions.FrontKeepsClean(ms, p, allowed, strip);
    if p.repairPairing && !p.anthropicTurns { SuitsIff(HistoryPipeline.Front(ms, p, allowed, strip), p); }
    if p.turnLimit <= 0 { NothingOlder(HistoryPipeline.Front(ms, p, allowed, strip), p); }
  }

  lemma NothingOlder(front: seq<Message>, p: HistoryPipeline.Policy)
    requires p.turnLimit <= 0
    ensures PipelineConditions.Older(front, p) == []
  {
  }

  lemma {:induction false} RoundIdsPrefix(rounds: seq<Round>, k: nat)
    requires k <= |rounds|
    ensures RoundIds(rounds[..k]) <= RoundIds(rounds)
  {
    hide NewIds;
    if k > 0 {
      RoundIdsPrefix(rounds[1..], k - 1);
      assert rounds[..k][1..] == rounds[1..][..k - 1];
    } else {
      assert rounds[..k] == [];
    }
  }

  /**
   Whatever messages a run starts from and whatever the model and the tools do: the messages it starts with and
   the prompt of every round are in block form, provided that the calls of the raw messages have different ids,
   that layer 8 keeps these apart, and that the rounds use new and different ids.
   */
  lemma EveryPromptOfARun(
    raw: seq<Message>, initial: seq<Message>, rounds: seq<Round>, maxRounds: int, w: nat, c: nat,
    p: HistoryPipeline.Policy, allowed: set<string>, strip: string -> string, rand: Randomness,
    again: Randomness, prompt: seq<Message>)
    requires DistinctCalls(Sanitize(raw, []), {})
    requires p.sanitizeIds ==> Apart(CalledIds(Sanitize(raw, [])), p.idMode, rand)
    requires HistoryPipeline.Piped(Sanitize(raw, []), p, allowed, strip, rand, initial)
    requires NoRepeats(RoundIds(rounds)) && Elements(RoundIds(rounds)) !! CalledIds(initial)
    requires HistoryPipeline.Piped(Accumulated(initial, rounds, maxRounds, w, c), p, allowed, strip, again, prompt)
    ensures BlockForm(initial) && BlockForm(prompt)
  {
    hide Sanitize, Loop, BlockForm, DistinctCalls, HistoryPipeline.Piped, HistoryPipeline.Front, CleanCallIds, Ready;
    hide Apart, RoundIds, PipelineConditions.Dropped, Accumulated, HistoryPipeline.Middle, NoRepeats, CalledIds;
    var ms := Accumulated(initial, rounds, maxRounds, w, c);
    FirstPipeline(raw, p, allowed, strip, rand, initial);
    if p.sanitizeIds { SentIdsApart(raw, p, allowed, strip, rand); }
    DistinctThroughout(initial, rounds, maxRounds, w, c);
    AccumulatedStaysClean(initial, rounds, maxRounds, w, c);
    HistoryPipeline.PipelineKeepsBlockForm(ms, p, allowed, strip, again, prompt) by { MakesReady(ms); }
  }

  lemma MakesReady(ms: seq<Message>)
    requires BlockForm(ms) && CleanCallIds(ms) && DistinctCalls(ms, {})
    ensures Ready(ms)
  {
  }

  lemma AccumulatedIs(initial: seq<Message>, rounds: seq<Round>, maxRounds: int, w: nat, c: nat)
    ensures Accumulated(initial, rounds, maxRounds, w, c)
         == Loop(State(initial, [], []), rounds, 0, maxRounds, w, c).state.messages
  {
  }

  lemma AccumulatedStaysClean(initial: seq<Message>, rounds: seq<Round>, maxRounds: int, w: nat, c: nat)
    requires BlockForm(initial) && CleanCallIds(initial)
    ensures var ms := Accumulated(initial, rounds, maxRounds, w, c); BlockForm(ms) && CleanCallIds(ms)
  {
    hide Loop, BlockForm, CleanCallIds;
    MessagesStayClean(initial, rounds, maxRounds, w, c);
  }

  lemma SentIdsApart(
    raw: seq<Message>, p: HistoryPipeline.Policy, allowed: set<string>, strip: string -> string, rand: Randomness)
    requires DistinctCalls(Sanitize(raw, []), {}) && Apart(CalledIds(Sanitize(raw, [])), p.idMode, rand)
    ensures Apart(CalledIds(HistoryPipeline.Middle(HistoryPipeline.Front(Sanitize(raw, []), p, allowed, strip), p)),
                  p.idMode, rand)
  {
    hide Sanitize, BlockForm, DistinctCalls, HistoryPipeline.Front, HistoryPipeline.Middle, CalledIds, SanitizeId;
    var a := Sanitize(raw, []);
    SanitizedIsReady(raw);
    HistoryPipeline.FrontKeepsReady(a, p, allowed, strip);
    PipelineConditions.FrontKeepsCalled(a, p, allowed, strip);
    PipelineConditions.MiddleKeepsDistinct(HistoryPipeline.Front(a, p, allowed, strip), p);
  }

  lemma DistinctThroughout(initial: seq<Message>, rounds: seq<Round>, maxRounds: int, w: nat, c: nat)
    requires DistinctCalls(initial, {})
    requires NoRepeats(RoundIds(rounds)) && Elements(RoundIds(rounds)) !! CalledIds(initial)
    ensures DistinctCalls(Accumulated(initial, rounds, maxRounds, w, c), {})
  {
    hide Accumulated, DistinctCalls, RoundIds, CalledIds, Ids, Completed;
    var k := Completed(initial, rounds, maxRounds, w, c);
    DistinctIff(initial);
    DistinctIff(Accumulated(initial, rounds, maxRounds, w, c));
    AccumulatedIds(initial, rounds, maxRounds, w, c);
    CalledIdsAreIds(initial);
    RoundIdsPrefix(rounds, k);
    var a, b := Ids(initial), RoundIds(rounds[..k]);
    forall i, j | 0 <= i < j < |a + b| ensures (a + b)[i] != (a + b)[j] {
      if i < |a| <= j {
        assert a[i] in Elements(a);
        assert RoundIds(rounds)[j - |a|] in Elements(RoundIds(rounds));
      }
    }
  }

  // ---- The condition is needed: layer 8 can spoil the prompt of a later round ----

  /** One answered call. */
  function CallOnce(id: string): Theorems.Turn {
    Theorems.CallTurn("", [ToolCall(None, id, "function", "f", "")], map[id := Message(Tool, "r", [], "f", [], id)])
  }

  lemma CallOnceIsNormal(id: string)
    requires Trimmed(id) && id != ""
    ensures Theorems.NormalTurn(CallOnce(id))
    ensures AllCalls(Theorems.Emit(CallOnce(id))) == CallOnce(id).calls
  {
    hide Trim;
    TrimmedEnds("");
    TrimmedEnds("r");
    TrimmedEnds("f");
    FunctionIsTrimmed();
    var calls := CallOnce(id).calls;
    assert calls[1..] == [];
    assert ValidateCall(calls[0]) == Some(calls[0]);
    var result := CallOnce(id).responded[id];
    assert AnsweredCalls([], CallOnce(id).responded) == [] && ResultsFor([], CallOnce(id).responded) == [];
    assert AnsweredCalls(calls, CallOnce(id).responded) == calls;
    assert ResultsFor(calls, CallOnce(id).responded) == [result];
    assert ValidateCalls([]) == Some([]) && ValidateCalls(calls) == Some([calls[0]] + []);
    assert CleanResult(result) == result;
    var head := PlainMessage(Assistant, "").(toolCalls := calls);
    assert Theorems.Emit(CallOnce(id)) == [head] + [result];
    AllCallsConcat([head], [result]);
    AllCallsOne(head);
    AllCallsOne(result);
  }

  function TwoCalls(): seq<Message> {
    Theorems.Emit(CallOnce("a-b")) + Theorems.Emit(CallOnce("ab"))
  }

  /** The raw messages are a fixed point of the sanitizer with two different call ids. */
  lemma TwoCallsAreReady()
    ensures Sanitize(TwoCalls(), []) == TwoCalls() && Ready(TwoCalls())
    ensures AllCalls(TwoCalls()) == CallOnce("a-b").calls + CallOnce("ab").calls
    ensures CalledIds(TwoCalls()) == {"a-b", "ab"}
  {
    hide Trim, Theorems.NormalTurn, Sanitize, BlockForm, DistinctCalls, CleanCallIds, CalledIds, AllCalls;
    var x, y := CallOnce("a-b"), CallOnce("ab");
    TrimmedEnds("a-b");
    TrimmedEnds("ab");
    CallOnceIsNormal("a-b");
    CallOnceIsNormal("ab");
    var ts := [x, y];
    assert Theorems.Normal(ts);
    Theorems.FlattenSnoc([], x);
    Theorems.FlattenSnoc([x], y);
    assert [] + [x] == [x] && [x] + [y] == ts && Theorems.Flatten([]) == [];
    assert Theorems.Flatten(ts) == TwoCalls();
    Theorems.FixedPoints(TwoCalls());
    AllCallsConcat(Theorems.Emit(x), Theorems.Emit(y));
    TwoIds();
    DistinctIff(TwoCalls());
    SanitizedIsReady(TwoCalls());
    CalledIdsAreIds(TwoCalls());
  }

  lemma TwoIds()
    ensures TrimmedIds(CallOnce("a-b").calls + CallOnce("ab").calls) == ["a-b", "ab"]
    ensures NoRepeats(["a-b", "ab"]) && Elements(["a-b", "ab"]) == {"a-b", "ab"}
  {
    TrimmedEnds("a-b");
    TrimmedEnds("ab");
    hide Trim;
    assert "a-b" != "ab" by { assert |"a-b"| != |"ab"|; }
  }

  /** A policy for OpenAI models: repair, and strict ids. */
  const OPENAI := HistoryPipeline.Policy(false, true, false, false, 0, true, Strict)

  /**
   Two different calls, "a-b" and "ab": the first pipeline gives both the id "ab", the pipeline of the first
   round drops the second result, and the prompt is not in block form.
   */
  lemma LayerEightCanSpoilThePrompt(strip: string -> string, rand: Randomness, again: Randomness)
    ensures Sanitize(TwoCalls(), []) == TwoCalls() && Ready(TwoCalls())
    ensures exists initial, prompt ::
              && HistoryPipeline.Piped(TwoCalls(), OPENAI, {}, strip, rand, initial) && BlockForm(initial)
              && HistoryPipeline.Piped(initial, OPENAI, {}, strip, again, prompt) && !BlockForm(prompt)
  {
    hide Sanitize, BlockForm, DistinctCalls, CleanCallIds, HistoryPipeline.Piped, HistoryPipeline.Front;
    hide HistoryPipeline.Middle, SanitizeId, CalledIds, TwoCalls;
    hide PipelineConditions.PipedTo, PipelineConditions.IdsSuit;
    var ms := TwoCalls();
    TwoCallsAreReady();
    var initial := PipelineConditions.PipedTo(ms, OPENAI, {}, strip, rand);
    PipelineConditions.PipedToIs(ms, OPENAI, {}, strip, rand, initial);
    HistoryPipeline.PipelineKeepsBlockForm(ms, OPENAI, {}, strip, rand, initial);
    HistoryPipeline.PipelineKeepsClean(ms, OPENAI, {}, strip, rand, initial);
    FirstPipelineMerges(strip, rand, initial);
    var prompt := PipelineConditions.PipedTo(initial, OPENAI, {}, strip, again);
    PipelineConditions.PipedToIs(initial, OPENAI, {}, strip, again, prompt);
    PipelineConditions.PipelineKeepsBlockFormIff(initial, OPENAI, {}, strip, again, prompt);
    NothingFiltered(initial, strip);
  }

  lemma NothingFiltered(ms: seq<Message>, strip: string -> string)
    ensures HistoryPipeline.Front(ms, OPENAI, {}, strip) == ms
    ensures PipelineConditions.IdsSuit(ms, OPENAI) <==> DistinctCalls(ms, {})
  {
    hide DistinctCalls, PipelineConditions.IdsSuit;
    PipelineConditions.SuitsWithoutLimit(ms, OPENAI);
  }

  lemma FirstPipelineMerges(strip: string -> string, rand: Randomness, initial: seq<Message>)
    requires HistoryPipeline.Piped(TwoCalls(), OPENAI, {}, strip, rand, initial)
    ensures !DistinctCalls(initial, {})
  {
    hide Sanitize, BlockForm, DistinctCalls, CleanCallIds, HistoryPipeline.Piped, HistoryPipeline.Front;
    hide HistoryPipeline.Middle, SanitizeId, CalledIds, TwoCalls, AllCalls;
    var ms := TwoCalls();
    TwoCallsAreReady();
    NothingFiltered(ms, strip);
    PipelineConditions.PipelineKeepsDistinctIff(ms, OPENAI, {}, strip, rand, initial);
    Meaning.MiddleKeepsCalls(ms, OPENAI);
    CalledIdsAreIds(ms);
    CalledIdsAreIds(HistoryPipeline.Middle(ms, OPENAI));
    RewriteCanMergeIds(rand);
    assert "a-b" != "ab" by { assert |"a-b"| != |"ab"|; }
    assert "a-b" in CalledIds(ms) && "ab" in CalledIds(ms);
  }
}
