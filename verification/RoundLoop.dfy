/**
 runStandardModelToolLoop with the OpenAI callbacks: a run over an arbitrary sequence of model rounds.
 The loop keeps a bounded window of fingerprints; its specification remembers all of them.
 */
module RoundLoop {
  import opened Text
  import opened Messages
  import opened OpenAISanitizer
  import opened LoopDetector
  import opened ToolCallIds
  import opened DistinctIds
  import HistoryPipeline
  import PipelineConditions

  /** How one tool call ends: a result, a failure the model may see, or an error that ends the loop. */
  datatype ToolOutcome = Succeeded(history: string) | Failed(history: string) | BadArguments | Fatal

  /** Everything the environment decides about one turn of the loop. */
  datatype Round =
    | Cancelled
    | RoundFailed
    | Answered(hasPayload: bool)
    | ToolRound(text: string, rawCalls: seq<ToolCall>, outcome: nat -> ToolOutcome,
                fingerprint: Fingerprint, yielded: bool)

  datatype Exit =
    | StillRunning
    | CancelledExit
    | TooManyRounds
    | RoundError
    | EmptyResponse
    | Final
    | InvalidCalls
    | MissingCalls
    | ToolError
    | NoProgress(verdict: Verdict)
    | Yielded

  /** Loop state at a round boundary. */
  datatype State = State(messages: seq<Message>, history: seq<Fingerprint>, warnings: seq<Warning>)

  datatype Result = Result(exit: Exit, state: State)

  function AssistantMessage(text: string, calls: seq<ToolCall>): Message {
    Message(Assistant, Trim(text), [], "", calls, "")
  }

  function ResultMessage(call: ToolCall, history: string): Message {
    Message(Tool, history, [], call.name, [], call.id)
  }

  function FailureText(history: string): string {
    if Trim(history) == "" then "ERROR" else Trim(history)
  }

  /** The results of the calls from number k on; None when one of them ends the loop. */
  function ToolResults(calls: seq<ToolCall>, outcome: nat -> ToolOutcome, k: nat): Option<seq<Message>>
    requires k <= |calls|
    decreases |calls| - k
  {
    if k == |calls| then Some([])
    else
      match outcome(k)
      case Succeeded(h) => Prepend(Some(ResultMessage(calls[k], h)), ToolResults(calls, outcome, k + 1))
      case Failed(h) => Prepend(Some(ResultMessage(calls[k], FailureText(h))), ToolResults(calls, outcome, k + 1))
      case _ => None
  }

  /** One tool round: the new messages, then the verdict of a detector that remembers every round. */
  function Turn(s: State, r: Round, w: nat, c: nat): Result
    requires r.ToolRound?
  {
    var calls := ValidateCalls(r.rawCalls);
    if calls.None? then Result(InvalidCalls, s)
    else if calls.value == [] then Result(MissingCalls, s)
    else
      var results := ToolResults(calls.value, r.outcome, 0);
      if results.None? then Result(ToolError, s)
      else
        var history := s.history + [r.fingerprint];
        var next := State(s.messages + [AssistantMessage(r.text, calls.value)] + results.value, history,
                          s.warnings + FullWarnings(history, w, c));
        var verdict := FullVerdict(history, c);
        if verdict != Continue then Result(NoProgress(verdict), next)
        else if r.yielded then Result(Yielded, next)
        else Result(StillRunning, next)
  }

  /** The run over the given rounds; StillRunning when they are used up before the loop ends. */
  function Loop(s: State, rounds: seq<Round>, done: nat, maxRounds: int, w: nat, c: nat): Result
    decreases |rounds|
  {
    if rounds == [] then Result(StillRunning, s)
    else if rounds[0].Cancelled? then Result(CancelledExit, s)
    else if 0 < maxRounds <= done then Result(TooManyRounds, s)
    else if rounds[0].RoundFailed? then Result(RoundError, s)
    else if rounds[0].Answered? then Result(if rounds[0].hasPayload then Final else EmptyResponse, s)
    else
      var t := Turn(s, rounds[0], w, c);
      if t.exit != StillRunning then t else Loop(t.state, rounds[1..], done + 1, maxRounds, w, c)
  }

  method RunStandardModelToolLoop(
    initial: seq<Message>, rounds: seq<Round>, maxRounds: int, warning: int, critical: int)
    returns (exit: Exit, messages: seq<Message>, warnings: seq<Warning>)
    ensures
      var w := NormalizeWarning(warning);
      var r := Loop(State(initial, [], []), rounds, 0, maxRounds, w, NormalizeCritical(critical, w));
      exit == r.exit && messages == r.state.messages && warnings == r.state.warnings
  {
    hide ValidateCalls, FullVerdict, FullWarnings, ToolResults, IdenticalRounds, PingPongRounds, VisiblePingPong;
    hide RoundEnds;
    var w := NormalizeWarning(warning);
    var c := NormalizeCritical(critical, w);
    messages, warnings := initial, [];
    ghost var all: seq<Fingerprint> := [];
    ghost var goal := Loop(State(initial, [], []), rounds, 0, maxRounds, w, c);
    var window: seq<Fingerprint> := [];
    NothingSeen(c);
    var round := 0;
    assert rounds[0..] == rounds;
    while round < |rounds|
      invariant 0 <= round <= |rounds|
      invariant window == Window(all, c) && FullVerdict(all, c) == Continue
      invariant Loop(State(messages, all, warnings), rounds[round..], round, maxRounds, w, c)
             == goal
    {
      var r := rounds[round];
      assert rounds[round..][0] == r && rounds[round..][1..] == rounds[round + 1..];
      if r.Cancelled? { return CancelledExit, messages, warnings; }
      if maxRounds > 0 && round >= maxRounds { return TooManyRounds, messages, warnings; }
      if r.RoundFailed? { return RoundError, messages, warnings; }
      if r.Answered? { return if r.hasPayload then Final else EmptyResponse, messages, warnings; }
      var step, more := RunToolCalls(messages, r);
      if step != StillRunning { return step, messages, warnings; }
      messages := more;

      WindowSlides(all, c, r.fingerprint);
      WindowedCountersAreFull(all, r.fingerprint, w, c);
      all := all + [r.fingerprint];
      window := window + [r.fingerprint];
      if |window| > c { window := window[|window| - c..]; }
      var verdict;
      verdict, warnings := Detect(window, all, warnings, w, c);
      if verdict != Continue { return NoProgress(verdict), messages, warnings; }
      if r.yielded { return Yielded, messages, warnings; }
      round := round + 1;
    }
    return StillRunning, messages, warnings;
  }

  lemma NothingSeen(c: nat)
    ensures Window([], c) == [] && (c > 0 ==> FullVerdict([], c) == Continue)
  {
  }

  /** The detector part of the loop body, run on the window only. */
  method Detect(window: seq<Fingerprint>, ghost all: seq<Fingerprint>, before: seq<Warning>, w: nat, c: nat)
    returns (verdict: Verdict, warnings: seq<Warning>)
    requires 0 < w < c
    requires IdenticalRounds(window) == IdenticalRounds(all) && PingPongRounds(window) == VisiblePingPong(all, c)
    ensures verdict == FullVerdict(all, c) && warnings == before + FullWarnings(all, w, c)
  {
    warnings := before;
    var identical := CountTrailingIdenticalRounds(window);
    if identical == w { warnings := warnings + [WarnIdentical(identical)]; }
    if identical >= c { return StopIdentical(identical), warnings; }
    var pingPong := CountTrailingPingPongRounds(window);
    if pingPong == w { warnings := warnings + [WarnPingPong(pingPong)]; }
    if pingPong >= c { return StopPingPong(pingPong), warnings; }
    return Continue, warnings;
  }

  /** The calls of one round: the assistant message first, then one result per call, until one ends the loop. */
  method RunToolCalls(before: seq<Message>, r: Round) returns (exit: Exit, messages: seq<Message>)
    requires r.ToolRound?
    ensures
      var calls := ValidateCalls(r.rawCalls);
      if calls.None? then exit == InvalidCalls
      else if calls.value == [] then exit == MissingCalls
      else
        var results := ToolResults(calls.value, r.outcome, 0);
        if results.None? then exit == ToolError
        else exit == StillRunning && messages == before + [AssistantMessage(r.text, calls.value)] + results.value
    ensures RoundEnds(before, r, exit, messages)
  {
    hide ValidateCalls, Trim, AllAcceptable, AllEnd, Records, AllCleaned;
    RoundIsRecorded(before, r);
    messages := before;
    var validated := ValidateOpenAICompatToolCalls(r.rawCalls);
    if validated.None? { return InvalidCalls, messages; }
    var calls := validated.value;
    if |calls| == 0 { return MissingCalls, messages; }
    messages := messages + [AssistantMessage(r.text, calls)];
    ghost var start, results := messages, [];
    AppendToNothing(ToolResults(calls, r.outcome, 0));
    for k := 0 to |calls|
      invariant messages == start + results
      invariant ToolResults(calls, r.outcome, 0) == AppendTo(results, ToolResults(calls, r.outcome, k))
    {
      AppendPrepends(results, calls, r.outcome, k);
      match r.outcome(k) {
        case Succeeded(h) =>
          messages := messages + [ResultMessage(calls[k], h)];
          results := results + [ResultMessage(calls[k], h)];
        case Failed(h) =>
          messages := messages + [ResultMessage(calls[k], FailureText(h))];
          results := results + [ResultMessage(calls[k], FailureText(h))];
        case _ => return ToolError, messages;
      }
    }
    assert ToolResults(calls, r.outcome, 0) == Some(results + []);
    assert results + [] == results;
    AppendedIsRecorded(before, r, messages);
    return StillRunning, messages;
  }

  lemma AppendedIsRecorded(before: seq<Message>, r: Round, messages: seq<Message>)
    requires r.ToolRound? && ValidateCalls(r.rawCalls).Some?
    requires
      var calls := ValidateCalls(r.rawCalls).value;
      && ToolResults(calls, r.outcome, 0).Some?
      && messages == before + [AssistantMessage(r.text, calls)] + ToolResults(calls, r.outcome, 0).value
    ensures |messages| >= |before| && messages[..|before|] == before && Records(messages[|before|..], r)
  {
    hide ValidateCalls, ToolResults, Records;
    RoundIsRecorded(before, r);
    var calls := ValidateCalls(r.rawCalls).value;
    assert messages[|before|..] == [AssistantMessage(r.text, calls)] + ToolResults(calls, r.outcome, 0).value;
  }

  function AppendTo(done: seq<Message>, rest: Option<seq<Message>>): Option<seq<Message>> {
    if rest.None? then None else Some(done + rest.value)
  }

  lemma AppendToNothing(rest: Option<seq<Message>>)
    ensures AppendTo([], rest) == rest
  {
    if rest.Some? { assert [] + rest.value == rest.value; }
  }

  lemma AppendPrepends(done: seq<Message>, calls: seq<ToolCall>, outcome: nat -> ToolOutcome, k: nat)
    requires k < |calls|
    ensures
      var rest := ToolResults(calls, outcome, k + 1);
      match outcome(k)
      case Succeeded(h) =>
        AppendTo(done, ToolResults(calls, outcome, k)) == AppendTo(done + [ResultMessage(calls[k], h)], rest)
      case Failed(h) =>
        AppendTo(done, ToolResults(calls, outcome, k))
        == AppendTo(done + [ResultMessage(calls[k], FailureText(h))], rest)
      case _ => ToolResults(calls, outcome, k).None?
  {
    hide Trim;
    var rest := ToolResults(calls, outcome, k + 1);
    if rest.Some? && (outcome(k).Succeeded? || outcome(k).Failed?) {
      var m := ToolResults(calls, outcome, k).value[0];
      assert done + ([m] + rest.value) == (done + [m]) + rest.value;
    }
  }

  // ---- What a round leaves in the messages ----

  /** What the model is told of a call that ended this way. */
  predicate Tells(content: string, outcome: ToolOutcome) {
    match outcome
    case Succeeded(h) => content == h
    case Failed(h) => content == if Trim(h) == "" then "ERROR" else Trim(h)
    case _ => false
  }

  /** `block` is the model's message with its calls, then for each call its result. */
  predicate Records(block: seq<Message>, r: Round)
    requires r.ToolRound?
  {
    && |block| == 1 + |r.rawCalls|
    && block[0].role == Assistant && block[0].content == Trim(r.text) && AllCleaned(r.rawCalls, block[0].toolCalls)
    && forall k :: 0 <= k < |r.rawCalls| ==> AnswersCall(block[1 + k], r.rawCalls[k], r.outcome(k))
  }

  predicate AnswersCall(m: Message, call: ToolCall, outcome: ToolOutcome) {
    m.role == Tool && m.toolCallId == Trim(call.id) && m.name == Trim(call.name) && Tells(m.content, outcome)
  }

  /** Neither bad arguments nor an error that ends the loop. */
  predicate AllEnd(r: Round)
    requires r.ToolRound?
  {
    forall k :: 0 <= k < |r.rawCalls| ==> r.outcome(k).Succeeded? || r.outcome(k).Failed?
  }

  lemma MessageTells(call: ToolCall, outcome: ToolOutcome)
    ensures
      var text := match outcome
                  case Succeeded(h) => h
                  case Failed(h) => FailureText(h)
                  case _ => "";
      var m := ResultMessage(call, text);
      && m.role == Tool && m.toolCallId == call.id && m.name == call.name
      && (outcome.Succeeded? || outcome.Failed? ==> Tells(m.content, outcome))
  {
    hide Trim;
  }

  lemma {:induction false} ResultsTell(calls: seq<ToolCall>, outcome: nat -> ToolOutcome, k: nat)
    requires k <= |calls|
    ensures ToolResults(calls, outcome, k).Some? <==>
            forall i :: k <= i < |calls| ==> outcome(i).Succeeded? || outcome(i).Failed?
    ensures ToolResults(calls, outcome, k).Some? ==>
              var rs := ToolResults(calls, outcome, k).value;
              && |rs| == |calls| - k
              && forall i :: 0 <= i < |rs| ==>
                   && rs[i].role == Tool && rs[i].toolCallId == calls[k + i].id && rs[i].name == calls[k + i].name
                   && Tells(rs[i].content, outcome(k + i))
    decreases |calls| - k
  {
    hide Tells, ResultMessage, FailureText;
    if k < |calls| {
      ResultsTell(calls, outcome, k + 1);
      MessageTells(calls[k], outcome(k));
      if ToolResults(calls, outcome, k).Some? {
        var rest, rs := ToolResults(calls, outcome, k + 1).value, ToolResults(calls, outcome, k).value;
        assert rs[1..] == rest;
        forall i | 0 < i < |rs| ensures rs[i] == rest[i - 1] && k + i == k + 1 + (i - 1) {}
      }
    }
  }

  /** A round is recorded exactly when its calls are well formed, there are some, and each one ends. */
  lemma RoundIsRecorded(before: seq<Message>, r: Round)
    requires r.ToolRound?
    ensures
      var calls := ValidateCalls(r.rawCalls);
      && (calls.Some? <==> AllAcceptable(r.rawCalls)) && (calls.Some? ==> (calls.value == [] <==> r.rawCalls == []))
      && (calls.Some? ==> (ToolResults(calls.value, r.outcome, 0).Some? <==> AllEnd(r)))
      && (calls.Some? && ToolResults(calls.value, r.outcome, 0).Some? ==>
            Records([AssistantMessage(r.text, calls.value)] + ToolResults(calls.value, r.outcome, 0).value, r))
  {
    hide Trim, ValidateCalls, ToolResults, AllAcceptable;
    ValidateCallsAre(r.rawCalls);
    if ValidateCalls(r.rawCalls).Some? { ResultsTell(ValidateCalls(r.rawCalls).value, r.outcome, 0); }
  }

  /** The round is recorded behind the messages before it, or the loop ends. */
  predicate RoundEnds(before: seq<Message>, r: Round, exit: Exit, messages: seq<Message>)
    requires r.ToolRound?
  {
    if !AllAcceptable(r.rawCalls) then exit == InvalidCalls
    else if r.rawCalls == [] then exit == MissingCalls
    else if !AllEnd(r) then exit == ToolError
    else
      && exit == StillRunning && |messages| >= |before| && messages[..|before|] == before
      && Records(messages[|before|..], r)
  }

  /** What one tool round does: it fails and leaves no trace, or its messages are appended. */
  lemma TurnRecords(s: State, r: Round, w: nat, c: nat)
    requires r.ToolRound?
    ensures
      var t := Turn(s, r, w, c);
      if !AllAcceptable(r.rawCalls) then t == Result(InvalidCalls, s)
      else if r.rawCalls == [] then t == Result(MissingCalls, s)
      else if !AllEnd(r) then t == Result(ToolError, s)
      else
        && t.state.messages[..|s.messages|] == s.messages
        && |t.state.messages| >= |s.messages| && Records(t.state.messages[|s.messages|..], r)
        && (t.exit == Yielded || t.exit == StillRunning || t.exit.NoProgress?)
  {
    hide Trim, ValidateCalls, ToolResults, AllAcceptable, AllEnd, Records, FullVerdict, FullWarnings;
    RoundIsRecorded(s.messages, r);
    if AllAcceptable(r.rawCalls) && r.rawCalls != [] && AllEnd(r) {
      var calls := ValidateCalls(r.rawCalls).value;
      var block := [AssistantMessage(r.text, calls)] + ToolResults(calls, r.outcome, 0).value;
      assert s.messages + block == Turn(s, r, w, c).state.messages;
      assert (s.messages + block)[|s.messages|..] == block;
    }
  }

  // ---- Block form at every round boundary ----

  lemma {:induction false} ResultsAnswerCalls(calls: seq<ToolCall>, outcome: nat -> ToolOutcome, k: nat)
    requires k <= |calls| && ToolResults(calls, outcome, k).Some?
    ensures |ToolResults(calls, outcome, k).value| == |calls| - k
    ensures Run(Some(TrimmedIds(calls)[k..]), ToolResults(calls, outcome, k).value) == Some([])
    decreases |calls| - k
  {
    hide Trim;
    if k < |calls| {
      ResultsAnswerCalls(calls, outcome, k + 1);
      var results := ToolResults(calls, outcome, k).value;
      assert results[1..] == ToolResults(calls, outcome, k + 1).value;
      assert TrimmedIds(calls)[k..][1..] == TrimmedIds(calls)[k + 1..];
      assert Step(Some(TrimmedIds(calls)[k..]), results[0]) == Some(TrimmedIds(calls)[k + 1..]);
    } else {
      assert TrimmedIds(calls)[k..] == [];
    }
  }

  /** A tool round appends one assistant message and then exactly one result per call, in call order. */
  lemma TurnAppendsBlock(s: State, r: Round, w: nat, c: nat)
    requires r.ToolRound? && Turn(s, r, w, c).state != s
    ensures
      var calls := ValidateCalls(r.rawCalls).value;
      var after := Turn(s, r, w, c).state.messages;
      && after[..|s.messages|] == s.messages
      && |after| == |s.messages| + 1 + |calls|
      && Calls(after[|s.messages|]) == calls
      && BlockForm(after[|s.messages|..]) && Records(after[|s.messages|..], r)
  {
    hide Trim, ValidateCalls, FullVerdict, FullWarnings, Records, AllAcceptable, AllEnd;
    var calls := ValidateCalls(r.rawCalls).value;
    var results := ToolResults(calls, r.outcome, 0).value;
    var head := AssistantMessage(r.text, calls);
    var after := Turn(s, r, w, c).state.messages;
    ResultsAnswerCalls(calls, r.outcome, 0);
    assert TrimmedIds(calls)[0..] == TrimmedIds(calls);
    assert after[|s.messages|..] == [head] + results;
    assert ([head] + results)[1..] == results;
    RoundIsRecorded(s.messages, r);
  }

  lemma {:induction false} LoopKeepsBlockForm(
    s: State, rounds: seq<Round>, done: nat, maxRounds: int, w: nat, c: nat)
    requires BlockForm(s.messages)
    ensures BlockForm(Loop(s, rounds, done, maxRounds, w, c).state.messages)
    decreases |rounds|
  {
    hide Turn, BlockForm, Records;
    if rounds != [] && rounds[0].ToolRound? {
      var t := Turn(s, rounds[0], w, c);
      if t.state != s {
        TurnAppendsBlock(s, rounds[0], w, c);
        BlockFormConcat(s.messages, t.state.messages[|s.messages|..]);
        assert s.messages + t.state.messages[|s.messages|..] == t.state.messages;
      }
      LoopKeepsBlockForm(t.state, rounds[1..], done + 1, maxRounds, w, c);
    }
  }

  lemma ValidatedAreClean(raw: seq<ToolCall>)
    requires ValidateCalls(raw).Some?
    ensures CleanCalls(ValidateCalls(raw).value)
  {
    hide Trim, ValidateCall;
    ValidateCallsEach(raw);
    var v := ValidateCalls(raw).value;
    forall k | 0 <= k < |v| ensures Trimmed(v[k].id) && v[k].id != "" { ValidateCallIdempotent(raw[k]); }
  }

  predicate CleanIn(m: Message) {
    CleanCalls(Calls(m))
  }

  lemma {:induction false} ResultsAreClean(calls: seq<ToolCall>, outcome: nat -> ToolOutcome, k: nat)
    requires k <= |calls| && ToolResults(calls, outcome, k).Some?
    ensures var rs := ToolResults(calls, outcome, k).value; forall i :: 0 <= i < |rs| ==> CleanIn(rs[i])
    decreases |calls| - k
  {
    hide Trim;
    if k < |calls| { ResultsAreClean(calls, outcome, k + 1); }
  }

  predicate AllClean(ms: seq<Message>) {
    forall i :: 0 <= i < |ms| ==> CleanIn(ms[i])
  }

  lemma TurnKeepsIdsClean(s: State, r: Round, w: nat, c: nat)
    requires r.ToolRound? && AllClean(s.messages)
    ensures AllClean(Turn(s, r, w, c).state.messages)
  {
    hide CleanCalls, ValidateCalls, FullVerdict, FullWarnings;
    if Turn(s, r, w, c).state != s {
      var calls := ValidateCalls(r.rawCalls).value;
      ValidatedAreClean(r.rawCalls);
      ResultsAreClean(calls, r.outcome, 0);
      assert CleanIn(AssistantMessage(r.text, calls));
    }
  }

  lemma {:induction false} LoopKeepsIdsClean(
    s: State, rounds: seq<Round>, done: nat, maxRounds: int, w: nat, c: nat)
    requires AllClean(s.messages)
    ensures AllClean(Loop(s, rounds, done, maxRounds, w, c).state.messages)
    decreases |rounds|
  {
    hide AllClean, Turn;
    if rounds != [] && rounds[0].ToolRound? {
      TurnKeepsIdsClean(s, rounds[0], w, c);
      LoopKeepsIdsClean(Turn(s, rounds[0], w, c).state, rounds[1..], done + 1, maxRounds, w, c);
    }
  }

  // ---- The ids of the conversation ----

  /** The ids a round adds to the conversation when it completes. */
  function NewIds(r: Round): seq<string> {
    if r.ToolRound? && ValidateCalls(r.rawCalls).Some? then TrimmedIds(ValidateCalls(r.rawCalls).value) else []
  }

  function RoundIds(rounds: seq<Round>): seq<string> {
    if rounds == [] then [] else NewIds(rounds[0]) + RoundIds(rounds[1..])
  }

  lemma {:induction false} ResultsMakeNoCalls(calls: seq<ToolCall>, outcome: nat -> ToolOutcome, k: nat)
    requires k <= |calls| && ToolResults(calls, outcome, k).Some?
    ensures AllCalls(ToolResults(calls, outcome, k).value) == []
    decreases |calls| - k
  {
    hide Trim;
    if k < |calls| {
      ResultsMakeNoCalls(calls, outcome, k + 1);
      var results := ToolResults(calls, outcome, k).value;
      assert results[1..] == ToolResults(calls, outcome, k + 1).value;
    }
  }

  lemma TurnIds(s: State, r: Round, w: nat, c: nat)
    requires r.ToolRound? && Turn(s, r, w, c).state != s
    ensures Ids(Turn(s, r, w, c).state.messages) == Ids(s.messages) + NewIds(r)
    ensures |Turn(s, r, w, c).state.history| == |s.history| + 1
  {
    hide Trim, ValidateCalls, FullVerdict, FullWarnings, AllCalls, TrimmedIds;
    var calls := ValidateCalls(r.rawCalls).value;
    var results := ToolResults(calls, r.outcome, 0).value;
    var head := AssistantMessage(r.text, calls);
    ResultsMakeNoCalls(calls, r.outcome, 0);
    AllCallsConcat(s.messages + [head], results);
    AllCallsConcat(s.messages, [head]);
    AllCallsOne(head);
    IdsConcat(AllCalls(s.messages), calls);
  }

  /** The ids of the accumulated messages: those at the start, then those of the completed rounds. */
  lemma {:induction false} LoopIds(s: State, rounds: seq<Round>, done: nat, maxRounds: int, w: nat, c: nat)
    ensures
      var r := Loop(s, rounds, done, maxRounds, w, c).state;
      var k := |r.history| - |s.history|;
      0 <= k <= |rounds| && Ids(r.messages) == Ids(s.messages) + RoundIds(rounds[..k])
    decreases |rounds|
  {
    hide Turn, Ids, NewIds;
    if rounds != [] && rounds[0].ToolRound? && !(0 < maxRounds <= done) {
      var t := Turn(s, rounds[0], w, c);
      if t.state != s {
        TurnIds(s, rounds[0], w, c);
        LoopIds(t.state, rounds[1..], done + 1, maxRounds, w, c);
        var k := |Loop(s, rounds, done, maxRounds, w, c).state.history| - |s.history|;
        assert k > 0 ==> rounds[..k][1..] == rounds[1..][..k - 1];
        OneRound(rounds);
      } else {
        StuckTurn(s, rounds[0], w, c);
      }
    }
    assert rounds[..0] == [];
    assert Ids(s.messages) + [] == Ids(s.messages);
  }

  lemma OneRound(rounds: seq<Round>)
    requires rounds != []
    ensures RoundIds(rounds[..1]) == NewIds(rounds[0])
  {
    hide NewIds;
    assert rounds[..1][1..] == [];
  }

  lemma StuckTurn(s: State, r: Round, w: nat, c: nat)
    requires r.ToolRound? && Turn(s, r, w, c).state == s
    ensures Turn(s, r, w, c).exit != StillRunning
  {
    hide ValidateCalls, FullVerdict, FullWarnings, ToolResults, Trim;
  }

  /**
   Whatever the model and the tools do, the prompt made from the accumulated messages is in block form if and
   only if the ids that pass layer 2 suit the policy.
   */
  lemma EveryPromptIsBlockFormIff(
    initial: seq<Message>, rounds: seq<Round>, maxRounds: int, w: nat, c: nat,
    p: HistoryPipeline.Policy, allowed: set<string>, strip: string -> string, rand: Randomness, prompt: seq<Message>)
    requires BlockForm(initial) && CleanCallIds(initial)
    requires HistoryPipeline.Piped(
               Loop(State(initial, [], []), rounds, 0, maxRounds, w, c).state.messages, p, allowed, strip, rand, prompt)
    ensures
      var ms := Loop(State(initial, [], []), rounds, 0, maxRounds, w, c).state.messages;
      BlockForm(prompt) <==> PipelineConditions.IdsSuit(HistoryPipeline.Front(ms, p, allowed, strip), p)
  {
    hide Loop, BlockForm, HistoryPipeline.Piped, HistoryPipeline.Front, PipelineConditions.IdsSuit;
    MessagesStayClean(initial, rounds, maxRounds, w, c);
    var ms := Loop(State(initial, [], []), rounds, 0, maxRounds, w, c).state.messages;
    PipelineConditions.PipelineKeepsBlockFormIff(ms, p, allowed, strip, rand, prompt);
  }

  lemma MessagesStayClean(initial: seq<Message>, rounds: seq<Round>, maxRounds: int, w: nat, c: nat)
    requires BlockForm(initial) && CleanCallIds(initial)
    ensures var ms := Loop(State(initial, [], []), rounds, 0, maxRounds, w, c).state.messages;
            BlockForm(ms) && CleanCallIds(ms)
  {
    hide Loop, BlockForm, CleanCalls;
    var s := State(initial, [], []);
    var ms := Loop(s, rounds, 0, maxRounds, w, c).state.messages;
    LoopKeepsBlockForm(s, rounds, 0, maxRounds, w, c);
    forall i | 0 <= i < |initial| ensures CleanIn(initial[i]) { assert CleanCalls(Calls(initial[i])); }
    assert AllClean(initial);
    LoopKeepsIdsClean(s, rounds, 0, maxRounds, w, c);
    forall i | 0 <= i < |ms| ensures CleanCalls(Calls(ms[i])) { assert CleanIn(ms[i]); }
  }

  // ---- When the loop stops for lack of progress ----

  function FingerprintOf(r: Round): Fingerprint {
    if r.ToolRound? then r.fingerprint else ""
  }

  function Fingerprints(rounds: seq<Round>): (fps: seq<Fingerprint>)
    ensures |fps| == |rounds|
  {
    if rounds == [] then [] else [FingerprintOf(rounds[0])] + Fingerprints(rounds[1..])
  }

  /** A tool round ends the loop by itself, or leaves the decision to the detector before it looks at a yield. */
  lemma TurnDecides(s: State, r: Round, w: nat, c: nat)
    requires r.ToolRound?
    ensures
      var t := Turn(s, r, w, c);
      var history := s.history + [FingerprintOf(r)];
      if t.state == s then t.exit in {InvalidCalls, MissingCalls, ToolError}
      else
        && t.state.history == history && t.state.warnings == s.warnings + FullWarnings(history, w, c)
        && if FullVerdict(history, c) != Continue then t.exit == NoProgress(FullVerdict(history, c))
           else t.exit == if r.yielded then Yielded else StillRunning
  {
    hide FullVerdict, FullWarnings, ValidateCalls, ToolResults;
  }

  /** `r` is where a loop from `s` over these rounds stands after its first k tool rounds. */
  ghost predicate StandsAfter(s: State, rounds: seq<Round>, w: nat, c: nat, r: Result, k: nat) {
    var h := r.state.history;
    && k <= |rounds| && h == s.history + Fingerprints(rounds)[..k]
    && r.state.warnings == s.warnings + WarningsFrom(h, |s.history|, w, c)
    && (r.exit == StillRunning ==> k == |rounds|)
    && if StopRound(h, c) == 0 then !r.exit.NoProgress?
       else StopRound(h, c) == |h| && r.exit == NoProgress(FullVerdict(h, c))
  }

  lemma NothingHappened(s: State, rounds: seq<Round>, w: nat, c: nat, r: Result)
    requires StopRound(s.history, c) == 0 && r.state == s && !r.exit.NoProgress?
    requires r.exit == StillRunning ==> rounds == []
    ensures StandsAfter(s, rounds, w, c, r, 0)
  {
    assert s.history + Fingerprints(rounds)[..0] == s.history;
    assert s.warnings + [] == s.warnings;
  }

  lemma OneMoreRound(h: seq<Fingerprint>, f: Fingerprint, w: nat, c: nat)
    requires StopRound(h, c) == 0
    ensures StopRound(h + [f], c) == if FullVerdict(h + [f], c) != Continue then |h| + 1 else 0
    ensures WarningsFrom(h + [f], |h|, w, c) == FullWarnings(h + [f], w, c)
  {
    hide FullVerdict, FullWarnings;
    assert (h + [f])[..|h|] == h;
  }

  lemma StopsRightHere(s: State, rounds: seq<Round>, w: nat, c: nat, r: Result)
    requires StopRound(s.history, c) == 0 && rounds != [] && r.exit != StillRunning
    requires
      var h := s.history + [FingerprintOf(rounds[0])];
      && r.state.history == h && r.state.warnings == s.warnings + FullWarnings(h, w, c)
      && if FullVerdict(h, c) != Continue then r.exit == NoProgress(FullVerdict(h, c)) else !r.exit.NoProgress?
    ensures StandsAfter(s, rounds, w, c, r, 1)
  {
    hide FullVerdict, FullWarnings, StopRound, WarningsFrom;
    OneMoreRound(s.history, FingerprintOf(rounds[0]), w, c);
    assert Fingerprints(rounds)[..1] == [FingerprintOf(rounds[0])];
  }

  lemma GoesOn(s: State, rounds: seq<Round>, w: nat, c: nat, next: State, r: Result, k: nat)
    requires rounds != [] && StopRound(s.history, c) == 0 && StandsAfter(next, rounds[1..], w, c, r, k)
    requires next.history == s.history + [FingerprintOf(rounds[0])]
    requires next.warnings == s.warnings + FullWarnings(next.history, w, c)
    ensures StandsAfter(s, rounds, w, c, r, k + 1)
  {
    hide FullVerdict, FullWarnings, StopRound, WarningsFrom, FingerprintOf;
    var f, h := FingerprintOf(rounds[0]), r.state.history;
    assert Fingerprints(rounds)[..k + 1] == [f] + Fingerprints(rounds[1..])[..k];
    assert h[..|next.history|] == next.history;
    OneMoreRound(s.history, f, w, c);
    WarningsSplit(h, |s.history|, |next.history|, w, c);
  }

  /**
   Any run at all: its history is the fingerprints of its tool rounds, its warnings are theirs, and it ends for
   lack of progress exactly at the first round at which the detector says so, whatever else happens in it.
   */
  lemma {:induction false} StopsExactlyAtThreshold(
    s: State, rounds: seq<Round>, done: nat, maxRounds: int, w: nat, c: nat) returns (k: nat)
    requires StopRound(s.history, c) == 0
    ensures StandsAfter(s, rounds, w, c, Loop(s, rounds, done, maxRounds, w, c), k)
    decreases |rounds|
  {
    hide FullVerdict, FullWarnings, StopRound, StandsAfter, Turn;
    var r := Loop(s, rounds, done, maxRounds, w, c);
    if rounds == [] || !rounds[0].ToolRound? || 0 < maxRounds <= done {
      NothingHappened(s, rounds, w, c, r);
      return 0;
    }
    TurnDecides(s, rounds[0], w, c);
    var t := Turn(s, rounds[0], w, c);
    if t.state == s {
      NothingHappened(s, rounds, w, c, r);
      return 0;
    }
    OneMoreRound(s.history, FingerprintOf(rounds[0]), w, c);
    if t.exit != StillRunning {
      StopsRightHere(s, rounds, w, c, r);
      return 1;
    }
    k := StopsExactlyAtThreshold(t.state, rounds[1..], done + 1, maxRounds, w, c);
    GoesOn(s, rounds, w, c, t.state, r, k);
    k := k + 1;
  }

  /** If the detector would stop within the first n rounds, the run has ended by then. */
  lemma EndsBy(s: State, rounds: seq<Round>, n: nat, maxRounds: int, w: nat, c: nat)
    requires s.history == [] && n <= |rounds| && StopRound(Fingerprints(rounds)[..n], c) > 0
    ensures var r := Loop(s, rounds, 0, maxRounds, w, c); r.exit != StillRunning && |r.state.history| <= n
  {
    hide FullVerdict, Loop, WarningsFrom;
    var k := StopsExactlyAtThreshold(s, rounds, 0, maxRounds, w, c);
    var fps := Fingerprints(rounds);
    assert s.history + fps[..k] == fps[..k];
    StopRoundOfPrefix(fps, c, n);
    StopRoundOfPrefix(fps, c, k);
  }

  /** A run whose rounds stay identical for c rounds has ended by then. */
  lemma IdenticalRunsEnd(s: State, rounds: seq<Round>, from: nat, maxRounds: int, w: nat, c: nat)
    requires s.history == [] && c > 0 && from + c <= |rounds|
    requires RepeatsFrom(Fingerprints(rounds)[..from + c], from, 1)
    ensures var r := Loop(s, rounds, 0, maxRounds, w, c); r.exit != StillRunning && |r.state.history| <= from + c
  {
    hide StopRound, Loop;
    EventuallyConstantStops(Fingerprints(rounds)[..from + c], from, c);
    EndsBy(s, rounds, from + c, maxRounds, w, c);
  }

  /** And so has a run that alternates between two rounds for c rounds, for c at least 4. */
  lemma AlternatingRunsEnd(s: State, rounds: seq<Round>, from: nat, maxRounds: int, w: nat, c: nat)
    requires s.history == [] && c >= 4 && from + c <= |rounds|
    requires RepeatsFrom(Fingerprints(rounds)[..from + c], from, 2)
    requires Fingerprints(rounds)[from] != Fingerprints(rounds)[from + 1]
    ensures var r := Loop(s, rounds, 0, maxRounds, w, c); r.exit != StillRunning && |r.state.history| <= from + c
  {
    hide StopRound, Loop;
    EventuallyAlternatingStops(Fingerprints(rounds)[..from + c], from, c);
    EndsBy(s, rounds, from + c, maxRounds, w, c);
  }

  /**
   What a run that ended for lack of progress has reported: c identical rounds with one warning of them, or c
   alternating ones with one warning after the first of them if w is at least 4, and none otherwise.
   */
  lemma WarnedExactlyOnce(initial: seq<Message>, rounds: seq<Round>, maxRounds: int, w: nat, c: nat)
    requires 0 < w < c && Loop(State(initial, [], []), rounds, 0, maxRounds, w, c).exit.NoProgress?
    ensures
      var r := Loop(State(initial, [], []), rounds, 0, maxRounds, w, c);
      var h := r.state.history;
      && c <= |h| && r.state.warnings == WarningsFrom(h, 0, w, c)
      && match r.exit.verdict
         case StopIdentical(n) =>
           n == c && multiset(WarningsFrom(h, |h| - c, w, c))[WarnIdentical(w)] == 1
         case StopPingPong(n) =>
           n == c && multiset(WarningsFrom(h, |h| - c + 1, w, c))[WarnPingPong(w)] == if w >= 4 then 1 else 0
         case Continue => false
  {
    hide FullWarnings, Loop, WarningsFrom, IdenticalRounds, PingPongRounds;
    var s := State(initial, [], []);
    NothingSeen(c);
    var k := StopsExactlyAtThreshold(s, rounds, 0, maxRounds, w, c);
    var r := Loop(s, rounds, 0, maxRounds, w, c);
    var h := r.state.history;
    assert [] + WarningsFrom(h, 0, w, c) == WarningsFrom(h, 0, w, c);
    StopRoundIsFirst(h, c);
    assert h[..|h|] == h;
    if FullVerdict(h, c).StopIdentical? {
      IdenticalWarnings(h, w, c);
    } else {
      PingPongWarnings(h, w, c);
    }
  }

  lemma IdenticalWarnings(h: seq<Fingerprint>, w: nat, c: nat)
    requires 0 < w < c && h != [] && FullVerdict(h, c).StopIdentical? && FullVerdict(h[..|h| - 1], c) == Continue
    ensures FullVerdict(h, c) == StopIdentical(c) && c <= |h|
    ensures multiset(WarningsFrom(h, |h| - c, w, c))[WarnIdentical(w)] == 1
  {
    hide FullWarnings, WarningsFrom;
    forall m | |h| - c < m <= |h|
      ensures WarnIdentical(w) in FullWarnings(h[..m], w, c) <==> m == |h| - c + w
    {
      IdenticalStopWarnedOnce(h, w, c, m);
    }
    IdenticalStopWarnedOnce(h, w, c, |h|);
    WarningsCount(h, |h| - c, w, c, WarnIdentical(w), |h| - c + w);
  }

  lemma PingPongWarnings(h: seq<Fingerprint>, w: nat, c: nat)
    requires 0 < w < c && h != [] && FullVerdict(h, c).StopPingPong? && FullVerdict(h[..|h| - 1], c) == Continue
    ensures FullVerdict(h, c) == StopPingPong(c) && c <= |h|
    ensures multiset(WarningsFrom(h, |h| - c + 1, w, c))[WarnPingPong(w)] == if w >= 4 then 1 else 0
  {
    hide FullWarnings, WarningsFrom;
    var at := if w >= 4 then |h| - c + w else 0;
    PingPongStopWarnedOnce(h, w, c, |h|);
    forall m | |h| - c + 1 < m <= |h|
      ensures WarnPingPong(w) in FullWarnings(h[..m], w, c) <==> m == at
    {
      PingPongStopWarnedOnce(h, w, c, m);
    }
    WarningsCount(h, |h| - c + 1, w, c, WarnPingPong(w), at);
  }
}
