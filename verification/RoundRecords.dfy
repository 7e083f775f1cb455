/** What a whole run of the tool loop leaves in the messages, and why it ends. */
module RoundRecords {
  import opened Text
  import opened Messages
  import opened OpenAISanitizer
  import opened LoopDetector
  import opened RoundLoop

  /** The messages are those of these rounds, one after the other. */
  predicate RecordsAll(ms: seq<Message>, rounds: seq<Round>)
    decreases |rounds|
  {
    if rounds == [] then ms == []
    else
      && rounds[0].ToolRound? && 1 + |rounds[0].rawCalls| <= |ms|
      && Records(ms[..1 + |rounds[0].rawCalls|], rounds[0])
      && RecordsAll(ms[1 + |rounds[0].rawCalls|..], rounds[1..])
  }

  /** However a run ends, the messages are those at the start and then exactly those of its completed rounds. */
  lemma {:induction false} LoopRecords(s: State, rounds: seq<Round>, done: nat, maxRounds: int, w: nat, c: nat)
    ensures
      var r := Loop(s, rounds, done, maxRounds, w, c).state;
      var k := |r.history| - |s.history|;
      && 0 <= k <= |rounds| && |r.messages| >= |s.messages| && r.messages[..|s.messages|] == s.messages
      && RecordsAll(r.messages[|s.messages|..], rounds[..k])
    decreases |rounds|
  {
    hide Turn, Records, AllAcceptable, AllEnd, RecordsAll;
    var r := Loop(s, rounds, done, maxRounds, w, c).state;
    assert rounds[..0] == [] && s.messages[|s.messages|..] == [];
    NothingRecorded();
    if rounds != [] && rounds[0].ToolRound? && !(0 < maxRounds <= done) {
      var t := Turn(s, rounds[0], w, c);
      TurnRecords(s, rounds[0], w, c);
      TurnCounts(s, rounds[0], w, c);
      if t.state != s {
        var block := t.state.messages[|s.messages|..];
        assert t.state.messages == s.messages + block;
        OneRecorded(block, rounds);
        if t.exit == StillRunning {
          LoopRecords(t.state, rounds[1..], done + 1, maxRounds, w, c);
          var k := |r.history| - |s.history|;
          var rest := r.messages[|t.state.messages|..];
          assert r.messages == s.messages + (block + rest);
          assert r.messages[|s.messages|..] == block + rest;
          OneMoreRecorded(block, rest, rounds, k);
        }
      }
    }
  }

  /** The exit is what the round after the completed ones decides, or the round limit. */
  predicate Justified(exit: Exit, rounds: seq<Round>, k: nat) {
    match exit
    case StillRunning => k == |rounds|
    case CancelledExit => k < |rounds| && rounds[k].Cancelled?
    case TooManyRounds => k < |rounds| && !rounds[k].Cancelled?
    case RoundError => k < |rounds| && rounds[k].RoundFailed?
    case Final => k < |rounds| && rounds[k] == Answered(true)
    case EmptyResponse => k < |rounds| && rounds[k] == Answered(false)
    case InvalidCalls => k < |rounds| && rounds[k].ToolRound? && !AllAcceptable(rounds[k].rawCalls)
    case MissingCalls => k < |rounds| && rounds[k].ToolRound? && rounds[k].rawCalls == []
    case ToolError => k < |rounds| && rounds[k].ToolRound? && !AllEnd(rounds[k])
    case Yielded => 0 < k <= |rounds| && rounds[k - 1].ToolRound? && rounds[k - 1].yielded
    case NoProgress(_) => 0 < k <= |rounds| && rounds[k - 1].ToolRound?
  }

  /** Each exit has its cause, and a positive round limit lets no more rounds complete than it says. */
  lemma {:induction false} LoopEndsForCause(s: State, rounds: seq<Round>, done: nat, maxRounds: int, w: nat, c: nat)
    requires maxRounds > 0 ==> done <= maxRounds
    ensures
      var r := Loop(s, rounds, done, maxRounds, w, c);
      var k := |r.state.history| - |s.history|;
      && 0 <= k <= |rounds| && Justified(r.exit, rounds, k)
      && (maxRounds > 0 ==> done + k <= maxRounds)
      && (r.exit == TooManyRounds ==> maxRounds > 0 && done + k == maxRounds)
    decreases |rounds|
  {
    hide Turn, Records, AllAcceptable, AllEnd;
    if rounds != [] && rounds[0].ToolRound? && !(0 < maxRounds <= done) {
      var t := Turn(s, rounds[0], w, c);
      TurnRecords(s, rounds[0], w, c);
      TurnCounts(s, rounds[0], w, c);
      TurnYields(s, rounds[0], w, c);
      if t.exit == StillRunning {
        LoopEndsForCause(t.state, rounds[1..], done + 1, maxRounds, w, c);
        var k := |Loop(s, rounds, done, maxRounds, w, c).state.history| - |s.history|;
        assert k < |rounds| ==> rounds[k] == rounds[1..][k - 1];
        assert k > 1 ==> rounds[k - 1] == rounds[1..][k - 2];
      }
    }
  }

  lemma TurnYields(s: State, r: Round, w: nat, c: nat)
    requires r.ToolRound?
    ensures Turn(s, r, w, c).exit == Yielded ==> r.yielded
  {
    hide ValidateCalls, ToolResults, FullVerdict, FullWarnings;
  }

  lemma NothingRecorded()
    ensures RecordsAll([], [])
  {
  }

  lemma OneMoreRecorded(block: seq<Message>, rest: seq<Message>, rounds: seq<Round>, k: nat)
    requires 0 < k <= |rounds| && rounds[0].ToolRound? && Records(block, rounds[0])
    requires RecordsAll(rest, rounds[1..][..k - 1])
    ensures RecordsAll(block + rest, rounds[..k])
  {
    RecordedSize(block, rounds[0]);
    hide Records;
    assert (block + rest)[..|block|] == block && (block + rest)[|block|..] == rest;
    assert rounds[..k][1..] == rounds[1..][..k - 1];
  }

  lemma RecordedSize(block: seq<Message>, r: Round)
    requires r.ToolRound? && Records(block, r)
    ensures |block| == 1 + |r.rawCalls|
  {
  }

  lemma OneRecorded(block: seq<Message>, rounds: seq<Round>)
    requires rounds != [] && rounds[0].ToolRound? && Records(block, rounds[0])
    ensures RecordsAll(block, rounds[..1])
  {
    RecordedSize(block, rounds[0]);
    hide Records;
    assert block[..|block|] == block && rounds[..1][1..] == [];
  }

  /** A completed round is one more in the history; another leaves the state alone and ends the loop. */
  lemma TurnCounts(s: State, r: Round, w: nat, c: nat)
    requires r.ToolRound?
    ensures var t := Turn(s, r, w, c);
            if t.exit in {InvalidCalls, MissingCalls, ToolError} then t.state == s
            else |t.state.history| == |s.history| + 1
  {
    hide ValidateCalls, ToolResults, FullVerdict, FullWarnings;
  }
}
