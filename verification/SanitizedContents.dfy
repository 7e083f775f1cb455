/**
 Which calls and results the sanitizers keep, and with what contents: a reference reading of the raw list that
 looks at each assistant message and the tool messages right after it, and nothing else.
 */
module SanitizedContents {
  import opened Text
  import opened Messages
  import opened OpenAISanitizer
  import opened HistoryMeaning
  import opened DistinctIds
  import opened LlamaPrompt
  import opened Sublists

  /** A call as it was made, and the message that answers it. */
  datatype Exchange = Exchange(call: ToolCall, answer: Message)

  /** Each call with the last message of the run that names its id; calls that no message names are left out. */
  function Answered(calls: seq<ToolCall>, run: seq<Message>): seq<Exchange> {
    if calls == [] then []
    else
      var rest := Answered(calls[1..], run);
      match LastAnswer(run, Trim(calls[0].id))
      case Some(m) => [Exchange(calls[0], m)] + rest
      case None => rest
  }

  /** What a list of messages called and answered: one malformed call spoils its whole message. */
  function Exchanges(ms: seq<Message>): seq<Exchange> {
    if ms == [] then []
    else
      var run := ms[1..][..ToolRun(ms[1..])];
      var calls := if Canonical(ms[0].role) == Assistant && AllAcceptable(ms[0].toolCalls) then ms[0].toolCalls else [];
      Answered(calls, run) + Exchanges(ms[1..])
  }

  /** `m` is the answer to this call, trimmed. */
  predicate Carries(m: Message, e: Exchange) {
    && m.role == Tool && m.toolCallId == Trim(e.call.id)
    && m.content == Trim(e.answer.content) && m.name == Trim(e.answer.name)
  }

  /** The calls and the results are those of the exchanges, one by one. */
  predicate Match(calls: seq<ToolCall>, results: seq<Message>, es: seq<Exchange>) {
    && |calls| == |es| && |results| == |es|
    && forall k :: 0 <= k < |es| ==> IsCleaned(es[k].call, calls[k]) && Carries(results[k], es[k])
  }

  lemma MatchConcat(
    a: seq<ToolCall>, x: seq<Message>, e: seq<Exchange>, b: seq<ToolCall>, y: seq<Message>, f: seq<Exchange>)
    requires Match(a, x, e) && Match(b, y, f)
    ensures Match(a + b, x + y, e + f)
  {
    hide IsCleaned, Carries;
  }

  lemma {:induction false} OnlyResults(ms: seq<Message>)
    requires forall k :: 0 <= k < |ms| ==> ms[k].role == Tool
    ensures AllResults(ms) == ms && AllCalls(ms) == []
  {
    if ms != [] { OnlyResults(ms[1..]); }
  }

  // ---- One assistant message ----

  /** What was recorded for these calls is their last answers. */
  ghost predicate Recorded(calls: seq<ToolCall>, run: seq<Message>, responded: map<string, Message>) {
    forall k :: 0 <= k < |calls| ==>
      match LastAnswer(run, calls[k].id)
      case Some(m) => calls[k].id in responded && responded[calls[k].id] == CleanResult(m)
      case None => calls[k].id !in responded
  }

  lemma RespondedIsRecorded(calls: seq<ToolCall>, run: seq<Message>)
    requires CleanCalls(calls)
    ensures Recorded(calls, run, Responded(run, calls, map[]))
  {
    hide Trim, CleanResult, LastAnswer, Responded;
    forall k | 0 <= k < |calls|
      ensures
        var responded := Responded(run, calls, map[]);
        match LastAnswer(run, calls[k].id)
        case Some(m) => calls[k].id in responded && responded[calls[k].id] == CleanResult(m)
        case None => calls[k].id !in responded
    {
      assert HasCall(calls, calls[k].id);
      LastResultWins(run, calls, map[], calls[k].id);
    }
  }

  lemma {:induction false} LastAnswerNames(run: seq<Message>, id: string)
    ensures LastAnswer(run, id).Some? ==> Trim(LastAnswer(run, id).value.toolCallId) == id
  {
    hide Trim;
    if run != [] { LastAnswerNames(run[1..], id); }
  }

  lemma {:induction false} AnsweredMatch(
    raw: seq<ToolCall>, calls: seq<ToolCall>, run: seq<Message>, responded: map<string, Message>)
    requires AllCleaned(raw, calls) && Recorded(calls, run, responded)
    ensures Match(AnsweredCalls(calls, responded), ResultsFor(calls, responded), Answered(raw, run))
    decreases |calls|
  {
    hide Trim, LastAnswer;
    if calls != [] {
      assert AllCleaned(raw[1..], calls[1..]) by {
        forall k | 0 <= k < |raw[1..]| ensures IsCleaned(raw[1..][k], calls[1..][k]) {
          assert IsCleaned(raw[k + 1], calls[k + 1]);
        }
      }
      assert Recorded(calls[1..], run, responded) by { RecordedTail(calls, run, responded); }
      AnsweredMatch(raw[1..], calls[1..], run, responded);
      assert IsCleaned(raw[0], calls[0]);
      var id := calls[0].id;
      LastAnswerNames(run, id);
      match LastAnswer(run, id) {
        case Some(m) =>
          assert Carries(responded[id], Exchange(raw[0], m));
          assert Match([calls[0]], [responded[id]], [Exchange(raw[0], m)]);
          MatchConcat([calls[0]], [responded[id]], [Exchange(raw[0], m)],
                      AnsweredCalls(calls[1..], responded), ResultsFor(calls[1..], responded), Answered(raw[1..], run));
        case None =>
      }
    }
  }

  lemma RecordedTail(calls: seq<ToolCall>, run: seq<Message>, responded: map<string, Message>)
    requires calls != [] && Recorded(calls, run, responded)
    ensures Recorded(calls[1..], run, responded)
  {
    hide LastAnswer, CleanResult;
    forall k | 0 <= k < |calls[1..]|
      ensures match LastAnswer(run, calls[1..][k].id)
              case Some(m) => calls[1..][k].id in responded && responded[calls[1..][k].id] == CleanResult(m)
              case None => calls[1..][k].id !in responded
    {
      assert calls[1..][k] == calls[k + 1];
    }
  }

  lemma UsableAre(m: Message)
    ensures UsableCalls(m) == [] <==> m.toolCalls == [] || !AllAcceptable(m.toolCalls)
    ensures AllAcceptable(m.toolCalls) ==> AllCleaned(m.toolCalls, UsableCalls(m))
    ensures CleanCalls(UsableCalls(m))
  {
    hide ValidateCalls, Acceptable, Trim;
    ValidateCallsAre(m.toolCalls);
    var calls := UsableCalls(m);
    if AllAcceptable(m.toolCalls) {
      forall k | 0 <= k < |calls| ensures Trimmed(calls[k].id) && calls[k].id != "" {
        assert IsCleaned(m.toolCalls[k], calls[k]);
        AcceptableIdIsClean(m.toolCalls[k]);
      }
    }
  }

  lemma AcceptableIdIsClean(c: ToolCall)
    requires Acceptable(c)
    ensures Trimmed(Trim(c.id)) && Trim(c.id) != ""
  {
    hide Trim;
    TrimTwice(c.id);
  }

  /** What an assistant message and its run leave. */
  lemma BlockMatches(m: Message, run: seq<Message>)
    requires AllAcceptable(m.toolCalls)
    ensures var block := Block(Trim(m.content), UsableCalls(m), Responded(run, UsableCalls(m), map[]));
            Match(AllCalls(block), AllResults(block), Answered(m.toolCalls, run))
  {
    hide Trim, UsableCalls, Responded, AllCalls, AllResults, Match, Answered, Recorded, AllCleaned, AllAcceptable;
    hide AnsweredCalls, ResultsFor, Filed, CleanCalls;
    var calls, responded := UsableCalls(m), Responded(run, UsableCalls(m), map[]);
    var text, kept := Trim(m.content), AnsweredCalls(UsableCalls(m), responded);
    UsableAre(m);
    RespondedIsRecorded(calls, run);
    AnsweredMatch(m.toolCalls, calls, run, responded);
    AnsweredWithin(calls, responded);
    EmptyFiled();
    RespondedIsFiled(run, calls, map[]);
    ResultsAreTools(kept, responded);
    OnlyResults(ResultsFor(kept, responded));
    TextHasNone(text);
    if kept == [] {
      assert ResultsFor(kept, responded) == [] by { NoResults(responded); }
    } else {
      var head := PlainMessage(Assistant, text).(toolCalls := kept);
      HeadHasCalls(text, kept);
      AllCallsConcat([head], ResultsFor(kept, responded));
      AllResultsConcat([head], ResultsFor(kept, responded));
      assert kept + [] == kept && [] + ResultsFor(kept, responded) == ResultsFor(kept, responded);
    }
  }

  lemma EmptyFiled()
    ensures Filed(map[])
  {
  }

  lemma HeadHasCalls(text: string, calls: seq<ToolCall>)
    ensures var head := PlainMessage(Assistant, text).(toolCalls := calls);
            AllCalls([head]) == calls && AllResults([head]) == []
  {
    AllCallsOne(PlainMessage(Assistant, text).(toolCalls := calls));
    AllResultsOne(PlainMessage(Assistant, text).(toolCalls := calls));
  }

  lemma TextHasNone(text: string)
    ensures AllCalls(TextOnly(text)) == [] && AllResults(TextOnly(text)) == []
  {
    if text != "" { HeadHasCalls(text, []); }
  }

  // ---- Whole lists ----

  /** A run of tool messages calls nothing, so the reading can skip it. */
  lemma {:induction false} SkipRun(ms: seq<Message>, n: nat)
    requires n <= |ms| && forall k :: 0 <= k < n ==> Canonical(ms[k].role) == Tool
    ensures Exchanges(ms) == Exchanges(ms[n..])
  {
    hide Canonical, AllAcceptable;
    if n == 0 {
      assert ms[0..] == ms;
    } else {
      forall k | 0 <= k < n - 1 ensures Canonical(ms[1..][k].role) == Tool { assert ms[1..][k] == ms[k + 1]; }
      SkipRun(ms[1..], n - 1);
      assert ms[1..][n - 1..] == ms[n..];
      NothingAnswered(ms[1..][..ToolRun(ms[1..])]);
    }
  }

  lemma NothingAnswered(run: seq<Message>)
    ensures Answered([], run) == []
  {
  }

  lemma SkipConsumed(ms: seq<Message>)
    requires ms != []
    ensures 1 <= Consumed(ms) <= |ms| && Exchanges(ms[1..]) == Exchanges(ms[Consumed(ms)..])
  {
    hide Canonical, UsableCalls, Exchanges;
    ConsumedBound(ms);
    var n := Consumed(ms) - 1;
    assert ms[1..][n..] == ms[Consumed(ms)..];
    SkipRun(ms[1..], n);
  }

  lemma ContentHasNone(acc: seq<Message>, m: Message)
    requires m.role != Tool && Calls(m) == []
    ensures AllCalls(acc + [m]) == AllCalls(acc) && AllResults(acc + [m]) == AllResults(acc)
  {
    hide Calls, AllCalls, AllResults;
    AllCallsConcat(acc, [m]);
    AllCallsOne(m);
    AllResultsConcat(acc, [m]);
    AllResultsOne(m);
  }

  /** Merging into the last system message changes neither calls nor results. */
  lemma ReplacedHasNone(acc: seq<Message>, m: Message)
    requires EndsWithSystem(acc) && m.role == System
    ensures var out := acc[..|acc| - 1] + [m]; AllCalls(out) == AllCalls(acc) && AllResults(out) == AllResults(acc)
  {
    hide AllCalls, AllResults;
    var pre, last := acc[..|acc| - 1], acc[|acc| - 1];
    assert acc == pre + [last];
    ContentHasNone(pre, last);
    ContentHasNone(pre, m);
  }

  lemma AppendTextHasNone(acc: seq<Message>, role: Role, text: string)
    requires role == System || role == User
    ensures var out := AppendText(acc, role, text); AllCalls(out) == AllCalls(acc) && AllResults(out) == AllResults(acc)
  {
    hide Trim, AllCalls, AllResults;
    ContentHasNone(acc, PlainMessage(role, text));
    if role == System && EndsWithSystem(acc) {
      ReplacedHasNone(acc, acc[|acc| - 1].(content := Trim(acc[|acc| - 1].content + "\n\n" + text)));
    }
  }

  lemma AppendContentHasNone(acc: seq<Message>, role: Role, text: string, parts: seq<Part>)
    requires role == System || role == User
    ensures var out := AppendContent(acc, role, text, parts);
            AllCalls(out) == AllCalls(acc) && AllResults(out) == AllResults(acc)
  {
    hide Trim, AllCalls, AllResults;
    ContentHasNone(acc, PlainMessage(role, text));
    ContentHasNone(acc, PlainMessage(role, "").(parts := parts));
    if role == System && EndsWithSystem(acc) {
      var last := acc[|acc| - 1];
      ReplacedHasNone(acc, last.(content := Trim(StringContent(last) + "\n\n" + text), parts := []));
    }
  }

  /** The exchanges of the message at the front. */
  function FirstExchanges(ms: seq<Message>): seq<Exchange>
    requires ms != []
  {
    var run := ms[1..][..ToolRun(ms[1..])];
    if Canonical(ms[0].role) == Assistant && AllAcceptable(ms[0].toolCalls) then Answered(ms[0].toolCalls, run) else []
  }

  lemma ExchangesStep(ms: seq<Message>)
    requires ms != []
    ensures Exchanges(ms) == FirstExchanges(ms) + Exchanges(ms[1..])
  {
    hide Canonical, AllAcceptable;
    NothingAnswered(ms[1..][..ToolRun(ms[1..])]);
  }

  lemma AbsorbMatches(ms: seq<Message>, acc: seq<Message>) returns (calls: seq<ToolCall>, results: seq<Message>)
    requires ms != []
    ensures Match(calls, results, FirstExchanges(ms))
    ensures AllCalls(Absorb(ms, acc)) == AllCalls(acc) + calls
    ensures AllResults(Absorb(ms, acc)) == AllResults(acc) + results
  {
    hide Trim, Canonical, CleanParts, UsableCalls, Responded, Block, TextOnly, AppendText, AllCalls, AllResults, Match;
    hide ToolRun, AllAcceptable;
    var m := ms[0];
    var role, text, run := Canonical(m.role), Trim(m.content), ms[1..][..ToolRun(ms[1..])];
    calls, results := [], [];
    NothingMatches();
    NothingAnswered(run);
    AppendNone(acc);
    if role == System || role == User {
      AppendTextHasNone(acc, role, text);
      ContentHasNone(acc, PlainMessage(User, "").(parts := CleanParts(m.parts)));
    } else if role == Assistant {
      UsableAre(m);
      TextHasNone(text);
      AllCallsConcat(acc, TextOnly(text));
      AllResultsConcat(acc, TextOnly(text));
      if UsableCalls(m) != [] {
        assert ms[1..ToolRun(ms[1..]) + 1] == run;
        var block := Block(text, UsableCalls(m), Responded(run, UsableCalls(m), map[]));
        BlockMatches(m, run);
        AllCallsConcat(acc, block);
        AllResultsConcat(acc, block);
        calls, results := AllCalls(block), AllResults(block);
      }
    }
  }

  lemma NothingHeld()
    ensures AllCalls([]) == [] && AllResults([]) == []
  {
  }

  lemma NothingMatches()
    ensures Match([], [], [])
  {
  }

  lemma AppendNone(acc: seq<Message>)
    ensures AllCalls(acc) + [] == AllCalls(acc) && AllResults(acc) + [] == AllResults(acc)
  {
  }

  lemma {:induction false} SanitizeMatches(ms: seq<Message>, acc: seq<Message>, done: seq<Exchange>)
    requires Match(AllCalls(acc), AllResults(acc), done)
    ensures Match(AllCalls(Sanitize(ms, acc)), AllResults(Sanitize(ms, acc)), done + Exchanges(ms))
    decreases |ms|
  {
    hide Absorb, Consumed, Exchanges, FirstExchanges, Match, AllCalls, AllResults;
    if ms == [] {
      assert Exchanges(ms) == [] by { NoExchanges(); }
      assert done + [] == done;
    } else {
      SkipConsumed(ms);
      ExchangesStep(ms);
      var calls, results := AbsorbMatches(ms, acc);
      MatchConcat(AllCalls(acc), AllResults(acc), done, calls, results, FirstExchanges(ms));
      SanitizeMatches(ms[Consumed(ms)..], Absorb(ms, acc), done + FirstExchanges(ms));
      assert done + FirstExchanges(ms) + Exchanges(ms[1..]) == done + (FirstExchanges(ms) + Exchanges(ms[1..]));
    }
  }

  lemma NoExchanges()
    ensures Exchanges([]) == []
  {
  }

  /** The sanitizer keeps exactly the exchanges of the raw list, in order, with their contents. */
  lemma SanitizeKeepsExchanges(ms: seq<Message>)
    ensures Match(AllCalls(Sanitize(ms, [])), AllResults(Sanitize(ms, [])), Exchanges(ms))
  {
    hide Match, Exchanges, Sanitize, AllCalls, AllResults;
    NothingMatches();
    NothingHeld();
    SanitizeMatches(ms, [], []);
    assert [] + Exchanges(ms) == Exchanges(ms);
  }

  // ---- The local backend's sanitizer ----

  lemma LlamaAbsorbMatches(ms: seq<LlamaMessage>, acc: seq<Message>)
    returns (calls: seq<ToolCall>, results: seq<Message>)
    requires ms != []
    ensures Match(calls, results, FirstExchanges(ms))
    ensures AllCalls(LlamaAbsorb(ms, acc)) == AllCalls(acc) + calls
    ensures AllResults(LlamaAbsorb(ms, acc)) == AllResults(acc) + results
  {
    hide Trim, Canonical, Absorb, AppendContent, AllCalls, AllResults, Match, AllAcceptable;
    var role := Canonical(ms[0].role);
    if role == System || role == User {
      calls, results := [], [];
      NothingMatches();
      AppendNone(acc);
      AppendContentHasNone(acc, role, Trim(ms[0].content), ms[0].parts);
    } else {
      calls, results := AbsorbMatches(ms, acc);
    }
  }

  lemma {:induction false} SanitizeLlamaMatches(ms: seq<LlamaMessage>, acc: seq<Message>, done: seq<Exchange>)
    requires Match(AllCalls(acc), AllResults(acc), done)
    ensures Match(AllCalls(SanitizeLlama(ms, acc)), AllResults(SanitizeLlama(ms, acc)), done + Exchanges(ms))
    decreases |ms|
  {
    hide LlamaAbsorb, Consumed, Exchanges, FirstExchanges, Match, AllCalls, AllResults;
    if ms == [] {
      assert Exchanges(ms) == [] by { NoExchanges(); }
      assert done + [] == done;
    } else {
      SkipConsumed(ms);
      ExchangesStep(ms);
      var calls, results := LlamaAbsorbMatches(ms, acc);
      MatchConcat(AllCalls(acc), AllResults(acc), done, calls, results, FirstExchanges(ms));
      SanitizeLlamaMatches(ms[Consumed(ms)..], LlamaAbsorb(ms, acc), done + FirstExchanges(ms));
      assert done + FirstExchanges(ms) + Exchanges(ms[1..]) == done + (FirstExchanges(ms) + Exchanges(ms[1..]));
    }
  }

  /** So does the local backend's. */
  lemma SanitizeLlamaKeepsExchanges(ms: seq<LlamaMessage>)
    ensures Match(AllCalls(SanitizeLlama(ms, [])), AllResults(SanitizeLlama(ms, [])), Exchanges(ms))
  {
    hide Match, Exchanges, SanitizeLlama, AllCalls, AllResults;
    NothingMatches();
    NothingHeld();
    SanitizeLlamaMatches(ms, [], []);
    assert [] + Exchanges(ms) == Exchanges(ms);
  }

  // ---- Parts ----

  /** The part shows something: text that is not blank, or an image with a URL. */
  predicate Shows(p: Part) {
    match p
    case TextPart(text) => Trim(text) != ""
    case ImagePart(url) => url.Some? && Trim(url.value) != ""
    case OtherPart(_) => false
  }

  function Hidden(): Part -> bool {
    (p: Part) => !Shows(p)
  }

  /** Texts are trimmed, images stay. */
  predicate TrimmedParts(shown: seq<Part>, clean: seq<Part>) {
    && |clean| == |shown|
    && forall k :: 0 <= k < |shown| ==>
         clean[k] == if shown[k].TextPart? then TextPart(Trim(shown[k].text)) else shown[k]
  }

  /** Exactly the parts that show something are kept, in order. */
  lemma {:induction false} CleanPartsShow(parts: seq<Part>) returns (shown: seq<Part>)
    ensures IsWithout(parts, shown, Hidden()) && TrimmedParts(shown, CleanParts(parts))
  {
    hide Trim, IsWithout;
    if parts == [] {
      WithoutNothing(Hidden());
      shown := [];
    } else {
      shown := CleanPartsShow(parts[1..]);
      if Shows(parts[0]) {
        WithFirst(parts, shown, Hidden());
        shown := [parts[0]] + shown;
      } else {
        WithoutFirst(parts, shown, Hidden());
      }
    }
  }
}
