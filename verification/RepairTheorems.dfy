/** What every output of RepairToolUseResultPairing satisfies, whatever the map order was. */
module RepairTheorems {
  import opened Text
  import opened Messages
  import opened Repair

  /** The ledger invariants: blank ids are never pending, and only pending ids are answered. */
  predicate Sound(l: Ledger) {
    "" !in l.pending && l.answered <= l.pending.Keys
  }

  lemma {:induction false} NoteCallsKeys(calls: seq<ToolCall>, pending: map<string, string>)
    ensures NoteCalls(calls, pending).Keys == pending.Keys + (IdSet(calls) - {""})
  {
    hide Trim;
    if calls != [] {
      var id := Trim(calls[0].id);
      NoteCallsKeys(calls[1..], if id == "" then pending else pending[id := Trim(calls[0].name)]);
      IdSetCons(calls);
    }
  }

  lemma IdSetCons(calls: seq<ToolCall>)
    requires calls != []
    ensures IdSet(calls) == {Trim(calls[0].id)} + IdSet(calls[1..])
  {
    hide Trim;
    assert calls == [calls[0]] + calls[1..];
  }

  // ---- 1. Messages other than results survive, in order ----

  function NonTool(ms: seq<Message>): seq<Message> {
    if ms == [] then [] else if ms[0].role == Tool then NonTool(ms[1..]) else [ms[0]] + NonTool(ms[1..])
  }

  lemma {:induction false} FlushThen(fs: seq<Message>, rest: seq<Message>, l: Ledger)
    requires IsFlush(fs, l)
    ensures NonTool(fs + rest) == NonTool(rest)
    decreases |fs|
  {
    if fs == [] {
      assert fs + rest == rest;
    } else {
      assert (fs + rest)[1..] == fs[1..] + rest;
      FlushThen(fs[1..], rest, Answer(l, fs[0].toolCallId));
    }
  }

  lemma {:induction false} NonToolSurvives(ms: seq<Message>, l: Ledger, out: seq<Message>)
    requires Repaired(ms, l, out)
    ensures NonTool(out) == NonTool(ms)
    decreases |ms|
  {
    hide Trim, NoteCalls, IsFlush, Unanswered;
    if ms == [] {
      FlushThen(out, [], l);
      assert out + [] == out;
    } else if ms[0].role == Assistant {
      NonToolSurvives(ms[1..], l.(pending := NoteCalls(ms[0].toolCalls, l.pending)), out[1..]);
    } else if ms[0].role == Tool {
      if Wanted(ms[0], l) { NonToolSurvives(ms[1..], Answer(l, Trim(ms[0].toolCallId)), out[1..]); }
      else { NonToolSurvives(ms[1..], l, out); }
    } else {
      var n := |Unanswered(l)|;
      FlushThen(out[..n], out[n..], l);
      assert out[..n] + out[n..] == out;
      assert out[n..][1..] == out[n + 1..];
      NonToolSurvives(ms[1..], AnswerAll(l), out[n + 1..]);
    }
  }

  // ---- 2. Each called id gets exactly one result, and no other id gets any ----

  function Count(ms: seq<Message>, id: string): nat {
    if ms == [] then 0
    else (if ms[0].role == Tool && Trim(ms[0].toolCallId) == id then 1 else 0) + Count(ms[1..], id)
  }

  lemma {:induction false} CountConcat(a: seq<Message>, b: seq<Message>, id: string)
    ensures Count(a + b, id) == Count(a, id) + Count(b, id)
  {
    hide Trim;
    if a == [] {
      assert a + b == b;
    } else {
      assert (a + b)[1..] == a[1..] + b;
      CountConcat(a[1..], b, id);
    }
  }

  /** Pending ids are trimmed, so a synthetic result answers the id it names. */
  predicate TrimmedKeys(l: Ledger) {
    forall id :: id in l.pending ==> Trimmed(id)
  }

  lemma {:induction false} FlushCount(fs: seq<Message>, l: Ledger, id: string)
    requires IsFlush(fs, l) && TrimmedKeys(l)
    ensures Count(fs, id) == if id in Unanswered(l) then 1 else 0
    decreases |fs|
  {
    hide Trim;
    if fs != [] { FlushCount(fs[1..], Answer(l, fs[0].toolCallId), id); }
  }

  lemma NoteKeepsKeysTrimmed(m: Message, l: Ledger)
    requires TrimmedKeys(l) && Sound(l)
    ensures TrimmedKeys(l.(pending := NoteCalls(m.toolCalls, l.pending)))
    ensures Sound(l.(pending := NoteCalls(m.toolCalls, l.pending)))
  {
    hide Trim, NoteCalls;
    NoteCallsKeys(m.toolCalls, l.pending);
    forall c | c in m.toolCalls ensures Trimmed(Trim(c.id)) { TrimTwice(c.id); }
  }

  lemma CalledFirst(ms: seq<Message>)
    ensures ms == [] ==> CalledIds(ms) == {}
    ensures ms != [] ==>
              CalledIds(ms) == (if ms[0].role == Assistant then IdSet(ms[0].toolCalls) else {}) + CalledIds(ms[1..])
  {
    hide Trim;
  }

  lemma {:induction false} ExactlyOneFrom(ms: seq<Message>, l: Ledger, out: seq<Message>, id: string)
    requires Repaired(ms, l, out) && Sound(l) && TrimmedKeys(l)
    ensures Count(out, id) ==
            if id !in l.answered && id != "" && (id in l.pending || id in CalledIds(ms)) then 1 else 0
    decreases |ms|
  {
    hide Trim, NoteCalls, IsFlush, CalledIds, IdSet;
    CalledFirst(ms);
    if ms == [] {
      FlushCount(out, l, id);
    } else if ms[0].role == Assistant {
      NoteCallsKeys(ms[0].toolCalls, l.pending);
      NoteKeepsKeysTrimmed(ms[0], l);
      ExactlyOneFrom(ms[1..], l.(pending := NoteCalls(ms[0].toolCalls, l.pending)), out[1..], id);
    } else if ms[0].role == Tool {
      if Wanted(ms[0], l) { ExactlyOneFrom(ms[1..], Answer(l, Trim(ms[0].toolCallId)), out[1..], id); }
      else { ExactlyOneFrom(ms[1..], l, out, id); }
    } else {
      ExactlyOneOther(ms, l, out, id);
      ExactlyOneFrom(ms[1..], AnswerAll(l), out[|Unanswered(l)| + 1..], id);
    }
  }

  lemma ExactlyOneOther(ms: seq<Message>, l: Ledger, out: seq<Message>, id: string)
    requires Repaired(ms, l, out) && TrimmedKeys(l)
    requires ms != [] && ms[0].role != Tool && ms[0].role != Assistant
    ensures Count(out, id) == (if id in Unanswered(l) then 1 else 0) + Count(out[|Unanswered(l)| + 1..], id)
    ensures CalledIds(ms) == CalledIds(ms[1..])
  {
    hide Trim, IsFlush, Unanswered;
    var n := |Unanswered(l)|;
    FlushCount(out[..n], l, id);
    CountConcat(out[..n], out[n..], id);
    assert out[..n] + out[n..] == out;
    assert out[n..][1..] == out[n + 1..];
  }

  /** Every id called, unless blank, has exactly one result in the output; every other id has none. */
  lemma ExactlyOneResult(ms: seq<Message>, out: seq<Message>, id: string)
    requires Repaired(ms, EMPTY, out)
    ensures Count(out, id) == if id in CalledIds(ms) && id != "" then 1 else 0
  {
    ExactlyOneFrom(ms, EMPTY, out, id);
  }

  // ---- 3. Where the results are ----

  function ResultIds(ms: seq<Message>): set<string> {
    set m | m in ms && m.role == Tool :: Trim(m.toolCallId)
  }

  /**
   Reading `out` from a ledger: a result answers an id pending at that point, and no id is left unanswered
   when a message comes that is neither an assistant's nor a tool's, nor at the end.
   */
  predicate WellPlaced(out: seq<Message>, called: set<string>, answered: set<string>) {
    if out == [] then called <= answered
    else
      match out[0].role
      case Assistant => WellPlaced(out[1..], called + (IdSet(out[0].toolCalls) - {""}), answered)
      case Tool =>
        var id := Trim(out[0].toolCallId);
        id in called && id !in answered && WellPlaced(out[1..], called, answered + {id})
      case _ => called <= answered && WellPlaced(out[1..], called, answered)
  }

  lemma {:induction false} FlushPlaced(fs: seq<Message>, rest: seq<Message>, l: Ledger)
    requires IsFlush(fs, l) && TrimmedKeys(l) && Sound(l)
    requires WellPlaced(rest, l.pending.Keys, l.pending.Keys)
    ensures WellPlaced(fs + rest, l.pending.Keys, l.answered)
    decreases |fs|
  {
    hide Trim;
    if fs == [] {
      assert fs + rest == rest;
      forall id | id in l.pending ensures id in l.answered {
        assert id !in Unanswered(l);
      }
      assert l.answered == l.pending.Keys;
    } else {
      assert (fs + rest)[1..] == fs[1..] + rest;
      FlushPlaced(fs[1..], rest, Answer(l, fs[0].toolCallId));
    }
  }

  lemma {:induction false} WellPlacedFrom(ms: seq<Message>, l: Ledger, out: seq<Message>)
    requires Repaired(ms, l, out) && Sound(l) && TrimmedKeys(l)
    ensures WellPlaced(out, l.pending.Keys, l.answered)
    decreases |ms|
  {
    hide Trim, NoteCalls, IsFlush;
    if ms == [] {
      assert out + [] == out;
      FlushPlaced(out, [], l);
    } else if ms[0].role == Assistant {
      NoteCallsKeys(ms[0].toolCalls, l.pending);
      NoteKeepsKeysTrimmed(ms[0], l);
      WellPlacedFrom(ms[1..], l.(pending := NoteCalls(ms[0].toolCalls, l.pending)), out[1..]);
    } else if ms[0].role == Tool {
      if Wanted(ms[0], l) { WellPlacedFrom(ms[1..], Answer(l, Trim(ms[0].toolCallId)), out[1..]); }
      else { WellPlacedFrom(ms[1..], l, out); }
    } else {
      var n := |Unanswered(l)|;
      var all := AnswerAll(l);
      WellPlacedFrom(ms[1..], all, out[n + 1..]);
      assert all.answered == l.pending.Keys;
      assert out[n..][1..] == out[n + 1..];
      assert out[..n] + out[n..] == out;
      FlushPlaced(out[..n], out[n..], l);
    }
  }

  lemma ResultsWellPlaced(ms: seq<Message>, out: seq<Message>)
    requires Repaired(ms, EMPTY, out)
    ensures WellPlaced(out, {}, {})
  {
    WellPlacedFrom(ms, EMPTY, out);
  }

  lemma HeadIds(out: seq<Message>, j: nat)
    requires 0 < j <= |out|
    ensures out[..j][1..] == out[1..][..j - 1]
    ensures CalledIds(out[..j]) == IdSet(Calls(out[0])) + CalledIds(out[1..][..j - 1])
    ensures ResultIds(out[..j]) ==
            (if out[0].role == Tool then {Trim(out[0].toolCallId)} else {}) + ResultIds(out[1..][..j - 1])
  {
    hide Trim, IdSet;
    var rest := out[1..];
    assert out[..j][1..] == rest[..j - 1] && out[..j] == [out[0]] + rest[..j - 1];
  }

  /** The ledger sets after reading one message of a well-placed list. */
  function CalledAfter(m: Message, called: set<string>): set<string> {
    called + (IdSet(Calls(m)) - {""})
  }

  function AnsweredAfter(m: Message, answered: set<string>): set<string> {
    if m.role == Tool then answered + {Trim(m.toolCallId)} else answered
  }

  lemma PlacedTail(out: seq<Message>, called: set<string>, answered: set<string>)
    requires WellPlaced(out, called, answered) && out != []
    ensures WellPlaced(out[1..], CalledAfter(out[0], called), AnsweredAfter(out[0], answered))
  {
    hide Trim;
    if out[0].role != Assistant { assert CalledAfter(out[0], called) == called; }
  }

  /** The same, by position: before a result its id has been called and not answered. */
  lemma {:induction false} ResultAfterCall(out: seq<Message>, called: set<string>, answered: set<string>, j: nat)
    requires WellPlaced(out, called, answered) && j < |out| && out[j].role == Tool
    ensures
      var id := Trim(out[j].toolCallId);
      && (id in called || id in CalledIds(out[..j]))
      && id !in answered + ResultIds(out[..j])
    decreases |out|
  {
    hide Trim, IdSet;
    if j > 0 {
      HeadIds(out, j);
      PlacedTail(out, called, answered);
      ResultAfterCall(out[1..], CalledAfter(out[0], called), AnsweredAfter(out[0], answered), j - 1);
    }
  }

  /** Where a message that is neither an assistant's nor a tool's stands, all calls so far are answered. */
  lemma {:induction false} AllAnsweredBefore(
    out: seq<Message>, called: set<string>, answered: set<string>, j: nat)
    requires WellPlaced(out, called, answered) && j <= |out|
    requires j < |out| ==> out[j].role != Tool && out[j].role != Assistant
    ensures called + (CalledIds(out[..j]) - {""}) <= answered + ResultIds(out[..j])
    decreases |out|
  {
    hide Trim, IdSet;
    if j > 0 {
      HeadIds(out, j);
      PlacedTail(out, called, answered);
      AllAnsweredBefore(out[1..], CalledAfter(out[0], called), AnsweredAfter(out[0], answered), j - 1);
    }
  }

  // ---- 4. A well-placed list is repaired to itself, so repairing is idempotent ----

  lemma {:induction false} WellPlacedIsFixed(out: seq<Message>, l: Ledger, again: seq<Message>)
    requires WellPlaced(out, l.pending.Keys, l.answered) && Sound(l)
    requires Repaired(out, l, again)
    ensures again == out
    decreases |out|
  {
    hide Trim, NoteCalls;
    if out == [] {
      assert Unanswered(l) == {};
      FlushLength(again, l);
    } else if out[0].role == Assistant {
      NoteCallsKeys(out[0].toolCalls, l.pending);
      WellPlacedIsFixed(out[1..], l.(pending := NoteCalls(out[0].toolCalls, l.pending)), again[1..]);
    } else if out[0].role == Tool {
      WellPlacedIsFixed(out[1..], Answer(l, Trim(out[0].toolCallId)), again[1..]);
    } else {
      assert Unanswered(l) == {};
      assert AnswerAll(l) == l;
      WellPlacedIsFixed(out[1..], l, again[1..]);
    }
  }

  lemma RepairIdempotent(ms: seq<Message>, out: seq<Message>, again: seq<Message>)
    requires Repaired(ms, EMPTY, out) && Repaired(out, EMPTY, again)
    ensures again == out
  {
    ResultsWellPlaced(ms, out);
    WellPlacedIsFixed(out, EMPTY, again);
  }

  // ---- 5. A block-form list with distinct, clean call ids needs no repair ----

  lemma {:induction false} FreshFromSet(calls: seq<ToolCall>, seen: set<string>, k: nat)
    requires FreshCalls(calls, seen) && k < |calls|
    ensures Trim(calls[k].id) !in seen
    decreases |calls|
  {
    hide Trim;
    if k > 0 { FreshFromSet(calls[1..], seen + {Trim(calls[0].id)}, k - 1); }
  }

  /** Ids still open: pairwise distinct, not blank, called and not answered. */
  predicate OpenIn(open: seq<string>, called: set<string>, answered: set<string>) {
    && (forall k :: 0 <= k < |open| ==> open[k] != "" && open[k] in called && open[k] !in answered)
    && (forall k, l :: 0 <= k < l < |open| ==> open[k] != open[l])
    && (forall id :: id in called ==> id in answered || id in open)
    && answered <= called
  }

  lemma {:induction false} ReadyIsPlaced(
    open: seq<string>, ms: seq<Message>, called: set<string>, answered: set<string>)
    requires Run(Some(open), ms) == Some([]) && OpenIn(open, called, answered)
    requires DistinctCalls(ms, called) && CleanCallIds(ms)
    ensures WellPlaced(ms, called, answered)
    decreases |ms|
  {
    hide Trim, FreshCalls;
    if ms != [] {
      var m := ms[0];
      if Step(Some(open), m).None? { RunNone(ms[1..]); }
      forall i | 0 <= i < |ms[1..]| ensures CleanCalls(Calls(ms[1..][i])) {
        assert CleanCalls(Calls(ms[i + 1]));
      }
      if m.role == Tool {
        assert called + IdSet(Calls(m)) == called;
        ReadyIsPlaced(open[1..], ms[1..], called, answered + {open[0]});
      } else {
        assert CleanCalls(Calls(ms[0]));
        OpenAfterCalls(Calls(m), called, answered);
        assert called + IdSet(Calls(m)) == called + (IdSet(Calls(m)) - {""});
        ReadyIsPlaced(TrimmedIds(Calls(m)), ms[1..], called + IdSet(Calls(m)), answered);
        if m.role != Assistant { assert called + IdSet(Calls(m)) == called; }
      }
    }
  }

  lemma OpenAfterCalls(calls: seq<ToolCall>, called: set<string>, answered: set<string>)
    requires FreshCalls(calls, called) && CleanCalls(calls) && called <= answered && answered <= called
    ensures OpenIn(TrimmedIds(calls), called + IdSet(calls), answered) && "" !in IdSet(calls)
  {
    hide Trim;
    forall k | 0 <= k < |calls|
      ensures Trim(calls[k].id) !in called && calls[k] in calls && Trim(calls[k].id) == calls[k].id != ""
    {
      FreshFromSet(calls, called, k);
    }
    forall k, l | 0 <= k < l < |calls| ensures Trim(calls[k].id) != Trim(calls[l].id) {
      FreshPairwise(calls, called, k, l);
    }
    forall c | c in calls ensures Trim(c.id) in TrimmedIds(calls) {
      var k :| 0 <= k < |calls| && calls[k] == c;
      assert TrimmedIds(calls)[k] == Trim(c.id);
    }
  }

  lemma {:induction false} FreshPairwise(calls: seq<ToolCall>, seen: set<string>, k: nat, l: nat)
    requires FreshCalls(calls, seen) && k < l < |calls|
    ensures Trim(calls[k].id) != Trim(calls[l].id)
    decreases |calls|
  {
    hide Trim;
    var more := seen + {Trim(calls[0].id)};
    if k == 0 { FreshFromSet(calls[1..], more, l - 1); } else { FreshPairwise(calls[1..], more, k - 1, l - 1); }
  }

  /** The repair leaves such a list as it is. */
  lemma ReadyNeedsNoRepair(ms: seq<Message>, out: seq<Message>)
    requires Ready(ms) && Repaired(ms, EMPTY, out)
    ensures out == ms
  {
    hide Trimmed, DistinctCalls, Run, WellPlaced;
    ReadyIsPlaced([], ms, {}, {});
    WellPlacedIsFixed(ms, EMPTY, out);
  }
}
