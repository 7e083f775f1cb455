/** What layers 3 and 5 make of a list in block form with clean ids: which repeated ids they recover from. */
module Deduplication {
  import opened Text
  import opened Messages
  import opened HistoryFilters
  import opened Repair
  import opened Sets
  import opened DistinctIds
  import Turns = HistoryTurns
  import RepairTheorems

  // ---- Layer 3 on block form drops repeated results ----

  function Dedup(ms: seq<Message>, answered: set<string>): seq<Message> {
    if ms == [] then []
    else if ms[0].role != Tool then [ms[0]] + Dedup(ms[1..], answered)
    else
      var id := Trim(ms[0].toolCallId);
      if id in answered then Dedup(ms[1..], answered) else [ms[0]] + Dedup(ms[1..], answered + {id})
  }

  predicate NoBlanks(ids: seq<string>) {
    forall k :: 0 <= k < |ids| ==> ids[k] != ""
  }

  lemma TailClean(ms: seq<Message>)
    requires ms != [] && CleanCallIds(ms)
    ensures CleanCallIds(ms[1..]) && CleanCalls(Calls(ms[0])) && NoBlanks(TrimmedIds(Calls(ms[0])))
  {
    hide Trim;
    assert CleanCalls(Calls(ms[0]));
    forall i | 0 <= i < |ms[1..]| ensures CleanCalls(Calls(ms[1..][i])) { assert CleanCalls(Calls(ms[i + 1])); }
  }

  /** The ids still open are pending, and no other id is unanswered. */
  predicate Tracks(l: Ledger, open: seq<string>) {
    Unanswered(l) <= Elements(open) <= l.pending.Keys && NoBlanks(open)
  }

  lemma TracksAfterResult(l: Ledger, open: seq<string>)
    requires Tracks(l, open) && open != []
    ensures open[0] != "" && (open[0] in Unanswered(l) <==> open[0] !in l.answered)
    ensures Tracks(if open[0] in l.answered then l else Answer(l, open[0]), open[1..])
  {
    assert open == [open[0]] + open[1..];
    assert Elements(open) == {open[0]} + Elements(open[1..]);
    assert open[0] in Elements(open);
  }

  lemma TracksAfterCalls(l: Ledger, calls: seq<ToolCall>)
    requires Tracks(l, []) && NoBlanks(TrimmedIds(calls))
    ensures Tracks(l.(pending := NoteCalls(calls, l.pending)), TrimmedIds(calls))
  {
    hide Trim, NoteCalls;
    RepairTheorems.NoteCallsKeys(calls, l.pending);
    ElementsOfIds(calls);
    assert "" !in Elements(TrimmedIds(calls));
    assert Elements<string>([]) == {};
    forall id | id in l.pending ensures id in l.answered { assert id !in Unanswered(l); }
  }

  lemma TracksAfterOther(l: Ledger)
    requires Tracks(l, [])
    ensures Unanswered(l) == {} && AnswerAll(l).answered == l.answered && Tracks(AnswerAll(l), [])
  {
    assert Elements<string>([]) == {};
    forall id | id in l.pending ensures id in l.answered { assert id !in Unanswered(l); }
  }

  lemma {:induction false} RepairIsDedup(open: seq<string>, ms: seq<Message>, l: Ledger, out: seq<Message>)
    requires Run(Some(open), ms) == Some([]) && CleanCallIds(ms)
    requires Tracks(l, open)
    ensures Repaired(ms, l, out) <==> out == Dedup(ms, l.answered)
    decreases |ms|
  {
    hide Trim, NoteCalls, CleanCallIds, Tracks, Unanswered, AnswerAll, NoBlanks;
    if ms == [] {
      TracksAfterOther(l);
      return;
    }
    if Step(Some(open), ms[0]).None? { RunNone(ms[1..]); }
    TailClean(ms);
    if ms[0].role == Tool {
      TracksAfterResult(l, open);
      var id := open[0];
      if id in l.answered {
        RepairIsDedup(open[1..], ms[1..], l, out);
      } else if out != [] {
        RepairIsDedup(open[1..], ms[1..], Answer(l, id), out[1..]);
        assert out == [out[0]] + out[1..];
      }
    } else if ms[0].role == Assistant {
      TracksAfterCalls(l, ms[0].toolCalls);
      if out != [] {
        RepairIsDedup(TrimmedIds(ms[0].toolCalls), ms[1..], l.(pending := NoteCalls(ms[0].toolCalls, l.pending)),
                      out[1..]);
        assert out == [out[0]] + out[1..];
      }
    } else {
      TracksAfterOther(l);
      if out != [] {
        RepairIsDedup([], ms[1..], AnswerAll(l), out[1..]);
        assert out == [out[0]] + out[1..];
      }
    }
  }

  /** So on such lists the repair has exactly one possible result. */
  lemma RepairedIsDedup(ms: seq<Message>, out: seq<Message>)
    requires BlockForm(ms) && CleanCallIds(ms)
    ensures Repaired(ms, EMPTY, out) <==> out == Dedup(ms, {})
  {
    hide CleanCallIds, Repaired, Run;
    RepairIsDedup([], ms, EMPTY, out);
  }

  // ---- On block form layer 3 drops nothing exactly where the ids are new ----

  lemma {:induction false} DedupConcat(a: seq<Message>, b: seq<Message>, answered: set<string>)
    ensures Dedup(a + b, answered) == Dedup(a, answered) + Dedup(b, answered + Elements(ToolIds(a)))
    decreases |a|
  {
    hide Trim;
    if a == [] {
      assert a + b == b && answered + Elements(ToolIds(a)) == answered;
    } else {
      assert (a + b)[1..] == a[1..] + b;
      var id := Trim(a[0].toolCallId);
      if a[0].role != Tool {
        DedupConcat(a[1..], b, answered);
      } else {
        assert answered + Elements(ToolIds(a)) == answered + {id} + Elements(ToolIds(a[1..]));
        if id in answered { assert answered + {id} == answered; }
        DedupConcat(a[1..], b, if id in answered then answered else answered + {id});
      }
    }
  }

  /** In block form the results are those of the calls, in order. */
  lemma {:induction false} ResultsAreCalls(open: seq<string>, ms: seq<Message>)
    requires Run(Some(open), ms) == Some([])
    ensures ToolIds(ms) == open + Ids(ms)
    decreases |ms|
  {
    hide Trim, TrimmedIds, Calls;
    if ms != [] {
      var next := Step(Some(open), ms[0]);
      if next.None? { RunNone(ms[1..]); }
      ResultsAreCalls(next.value, ms[1..]);
      IdsConcat(Calls(ms[0]), AllCalls(ms[1..]));
      if ms[0].role == Tool {
        ToolCallsNothing(ms[0]);
        NoTrimmedIds();
        assert open == [open[0]] + next.value;
      }
    } else {
      NoTrimmedIds();
    }
  }

  lemma ToolCallsNothing(m: Message)
    requires m.role == Tool
    ensures Calls(m) == []
  {
  }

  lemma NoTrimmedIds()
    ensures TrimmedIds([]) == []
  {
  }

  lemma {:induction false} DedupCounts(ms: seq<Message>, answered: set<string>)
    ensures
      var kept, different := Dedup(ms, answered), NoRepeats(ToolIds(ms)) && Elements(ToolIds(ms)) !! answered;
      && AllCalls(kept) == AllCalls(ms) && |ToolIds(kept)| <= |ToolIds(ms)|
      && (|ToolIds(kept)| == |ToolIds(ms)| <==> different) && (different ==> kept == ms)
    decreases |ms|
  {
    hide Trim, NoRepeats;
    if ms == [] {
      assert NoRepeats(ToolIds(ms)) by { NoRepeatsInNothing(); }
    } else if ms[0].role != Tool {
      DedupCounts(ms[1..], answered);
      assert Dedup(ms, answered)[1..] == Dedup(ms[1..], answered);
    } else {
      var id, rest := Trim(ms[0].toolCallId), ToolIds(ms[1..]);
      NoRepeatsCons(id, rest);
      assert Elements([id] + rest) == {id} + Elements(rest);
      if id in answered {
        DedupCounts(ms[1..], answered);
        assert id in Elements(ToolIds(ms));
      } else {
        DedupCounts(ms[1..], answered + {id});
        assert Dedup(ms, answered)[1..] == Dedup(ms[1..], answered + {id});
      }
    }
  }

  lemma NoRepeatsInNothing()
    ensures NoRepeats<string>([])
  {
  }

  /** Where the ids called are different and new, nothing is dropped; elsewhere results are missing. */
  lemma DedupSuits(ms: seq<Message>, answered: set<string>)
    requires BlockForm(ms)
    ensures DistinctCalls(ms, answered) ==> Dedup(ms, answered) == ms
    ensures |ToolIds(Dedup(ms, answered))| == |AllCalls(Dedup(ms, answered))| ==> DistinctCalls(ms, answered)
  {
    hide Run, DistinctCalls, FreshCalls, Dedup, ToolIds, AllCalls, NoRepeats, Elements;
    ResultsAreCalls([], ms);
    assert [] + Ids(ms) == Ids(ms);
    DedupCounts(ms, answered);
    DistinctIsFresh(ms, answered);
    FreshIff(AllCalls(ms), answered);
  }

  // ---- Layer 5 strips the calls whose results layer 3 dropped, except within one message ----

  /** In each message the ids that no earlier message called are called once. */
  predicate NewIdsOnce(ms: seq<Message>, seen: set<string>) {
    ms == []
    || (NoRepeats(KeepIds(TrimmedIds(Calls(ms[0])), seen)) && NewIdsOnce(ms[1..], seen + IdSet(Calls(ms[0]))))
  }

  lemma {:induction false} RunIdsOfDedup(open: seq<string>, ms: seq<Message>, answered: set<string>)
    requires Run(Some(open), ms) == Some([]) && NoBlanks(open)
    ensures Turns.RunIds(Dedup(ms, answered)) == Elements(open) - answered
    decreases |ms|
  {
    hide Trim;
    if ms != [] {
      if Step(Some(open), ms[0]).None? { RunNone(ms[1..]); }
      if ms[0].role == Tool {
        var id := open[0];
        assert open == [id] + open[1..];
        if id in answered {
          RunIdsOfDedup(open[1..], ms[1..], answered);
        } else {
          RunIdsOfDedup(open[1..], ms[1..], answered + {id});
          assert Dedup(ms, answered)[1..] == Dedup(ms[1..], answered + {id});
        }
      }
    }
  }

  lemma {:induction false} KeptIds(calls: seq<ToolCall>, ids: set<string>, answered: set<string>)
    requires forall k :: 0 <= k < |calls| ==> (Trim(calls[k].id) in ids <==> Trim(calls[k].id) !in answered)
    ensures TrimmedIds(Turns.KeepAnswered(calls, ids)) == KeepIds(TrimmedIds(calls), answered)
  {
    hide Trim;
    if calls != [] {
      KeptIds(calls[1..], ids, answered);
      assert TrimmedIds(calls)[1..] == TrimmedIds(calls[1..]);
      if Trim(calls[0].id) in ids {
        assert Turns.KeepAnswered(calls, ids)[1..] == Turns.KeepAnswered(calls[1..], ids);
      }
    }
  }

  /** The stripped message calls exactly its new ids. */
  lemma StrippedCalls(ms: seq<Message>, answered: set<string>)
    requires ms != [] && ms[0].role != Tool && CleanCallIds(ms)
    requires Run(Some(TrimmedIds(Calls(ms[0]))), ms[1..]) == Some([])
    ensures
      var m := Turns.StripOne(ms[0], Turns.RunIds(Dedup(ms[1..], answered)));
      m.role == ms[0].role && TrimmedIds(Calls(m)) == KeepIds(TrimmedIds(Calls(ms[0])), answered)
  {
    hide Trim, CleanCallIds, Run, Turns.KeepAnswered, Turns.RunIds, Dedup;
    var calls := Calls(ms[0]);
    TailClean(ms);
    RunIdsOfDedup(TrimmedIds(calls), ms[1..], answered);
    forall k | 0 <= k < |calls| ensures Trim(calls[k].id) in Elements(TrimmedIds(calls)) {
      assert TrimmedIds(calls)[k] == Trim(calls[k].id);
    }
    KeptIds(calls, Turns.RunIds(Dedup(ms[1..], answered)), answered);
    if calls == [] { assert KeepIds(TrimmedIds(calls), answered) == []; }
  }

  lemma {:induction false} KeepIdsMore(ids: seq<string>, removed: set<string>, id: string)
    ensures |KeepIds(ids, removed + {id})| <= |KeepIds(ids, removed)|
    ensures id !in KeepIds(ids, removed) <==> |KeepIds(ids, removed + {id})| == |KeepIds(ids, removed)|
    ensures id !in KeepIds(ids, removed) ==> KeepIds(ids, removed + {id}) == KeepIds(ids, removed)
  {
    if ids != [] {
      var x, rest, fewer := ids[0], KeepIds(ids[1..], removed), KeepIds(ids[1..], removed + {id});
      KeepIdsMore(ids[1..], removed, id);
      if x in removed {
        assert KeepIds(ids, removed) == rest && KeepIds(ids, removed + {id}) == fewer;
      } else if x == id {
        assert KeepIds(ids, removed) == [x] + rest && KeepIds(ids, removed + {id}) == fewer;
        assert KeepIds(ids, removed)[0] == id;
      } else {
        assert KeepIds(ids, removed) == [x] + rest && KeepIds(ids, removed + {id}) == [x] + fewer;
      }
    }
  }

  function Stripped(ms: seq<Message>, answered: set<string>): seq<Message> {
    Turns.Strip(Dedup(ms, answered))
  }

  /** Reading the stripped list message by message. */
  lemma StrippedStep(ms: seq<Message>, answered: set<string>)
    requires ms != []
    ensures
      var m, rest := ms[0], ms[1..];
      Stripped(ms, answered) ==
      if m.role != Tool then
        [Turns.StripOne(m, Turns.RunIds(Dedup(rest, answered)))] + Stripped(rest, answered)
      else if Trim(m.toolCallId) in answered then Stripped(rest, answered)
      else [m] + Stripped(rest, answered + {Trim(m.toolCallId)})
  {
    hide Trim, Turns.RunIds;
    var m := ms[0];
    if m.role != Tool {
      assert Dedup(ms, answered)[1..] == Dedup(ms[1..], answered);
    } else if Trim(m.toolCallId) !in answered {
      assert Dedup(ms, answered)[1..] == Dedup(ms[1..], answered + {Trim(m.toolCallId)});
    }
  }

  /** One more result: if its id is new it is kept, and the rest of the ids stays as required. */
  lemma NextOpen(open: seq<string>, answered: set<string>)
    requires open != []
    ensures
      var id, rest, kept := open[0], open[1..], KeepIds(open, answered);
      if id in answered then
        kept == KeepIds(rest, answered) && answered + Elements(open) == answered + Elements(rest)
      else
        && kept == [id] + KeepIds(rest, answered)
        && answered + Elements(open) == answered + {id} + Elements(rest)
        && |KeepIds(rest, answered + {id})| <= |KeepIds(rest, answered)|
        && (NoRepeats(kept) <==> NoRepeats(KeepIds(rest, answered + {id}))
                                 && |KeepIds(rest, answered + {id})| == |KeepIds(rest, answered)|)
        && (NoRepeats(kept) ==> KeepIds(rest, answered + {id}) == KeepIds(rest, answered))
  {
    var id, rest := open[0], open[1..];
    assert open == [id] + rest;
    if id !in answered {
      NoRepeatsCons(id, KeepIds(rest, answered));
      KeepIdsMore(rest, answered, id);
    }
  }

  lemma SeenAfterTool(ms: seq<Message>, seen: set<string>)
    requires ms != [] && ms[0].role == Tool
    ensures NewIdsOnce(ms, seen) <==> NewIdsOnce(ms[1..], seen)
  {
    assert IdSet(Calls(ms[0])) == {} && TrimmedIds(Calls(ms[0])) == [];
    assert KeepIds([], seen) == [] && seen + {} == seen;
  }

  lemma {:induction false} StrippedIsBlockForm(open: seq<string>, ms: seq<Message>, answered: set<string>)
    requires Run(Some(open), ms) == Some([]) && CleanCallIds(ms)
    requires NoRepeats(KeepIds(open, answered)) && NewIdsOnce(ms, answered + Elements(open))
    ensures Run(Some(KeepIds(open, answered)), Stripped(ms, answered)) == Some([])
    decreases |ms|
  {
    hide Trim, CleanCallIds, Turns.StripOne, Stripped, NoRepeats, KeepIds;
    if ms == [] {
      StrippedNothing(answered);
      NoIdsKept(answered);
      return;
    }
    if Step(Some(open), ms[0]).None? { RunNone(ms[1..]); }
    TailClean(ms);
    StrippedStep(ms, answered);
    if ms[0].role == Tool {
      NextOpen(open, answered);
      SeenAfterTool(ms, answered + Elements(open));
      var id, rest := open[0], open[1..];
      if id in answered {
        StrippedIsBlockForm(rest, ms[1..], answered);
      } else {
        StrippedIsBlockForm(rest, ms[1..], answered + {id});
        assert Stripped(ms, answered)[1..] == Stripped(ms[1..], answered + {id});
        assert KeepIds(open, answered)[1..] == KeepIds(rest, answered);
      }
    } else {
      NoIdsKept(answered);
      assert answered + Elements(open) == answered;
      ElementsOfIds(Calls(ms[0]));
      StrippedCalls(ms, answered);
      StrippedIsBlockForm(TrimmedIds(Calls(ms[0])), ms[1..], answered);
      assert Stripped(ms, answered)[1..] == Stripped(ms[1..], answered);
    }
  }

  lemma NoIdsKept(removed: set<string>)
    ensures KeepIds([], removed) == []
  {
  }

  lemma StrippedNothing(answered: set<string>)
    ensures Stripped([], answered) == []
  {
  }

  lemma CountHead(m: Message, rest: seq<Message>)
    ensures |ToolIds([m] + rest)| == (if m.role == Tool then 1 else 0) + |ToolIds(rest)|
    ensures |AllCalls([m] + rest)| == |Calls(m)| + |AllCalls(rest)|
  {
    hide Trim;
    assert ([m] + rest)[1..] == rest;
  }

  /** Results never outnumber the calls they answer, and match them exactly when new ids are called once. */
  lemma {:induction false} StrippedCounts(open: seq<string>, ms: seq<Message>, answered: set<string>)
    requires Run(Some(open), ms) == Some([]) && CleanCallIds(ms)
    ensures
      var tools, calls := |ToolIds(Stripped(ms, answered))|, |AllCalls(Stripped(ms, answered))|;
      && tools <= |KeepIds(open, answered)| + calls
      && (tools == |KeepIds(open, answered)| + calls <==>
          NoRepeats(KeepIds(open, answered)) && NewIdsOnce(ms, answered + Elements(open)))
    decreases |ms|
  {
    hide Trim, CleanCallIds, Turns.StripOne, Stripped, ToolIds, AllCalls;
    if ms == [] {
      StrippedNothing(answered);
      assert ToolIds([]) == [] && AllCalls([]) == [] by { CountNothing(); }
      return;
    }
    if Step(Some(open), ms[0]).None? { RunNone(ms[1..]); }
    TailClean(ms);
    StrippedStep(ms, answered);
    if ms[0].role == Tool {
      NextOpen(open, answered);
      SeenAfterTool(ms, answered + Elements(open));
      var id, rest := open[0], open[1..];
      if id in answered {
        StrippedCounts(rest, ms[1..], answered);
      } else {
        CountHead(ms[0], Stripped(ms[1..], answered + {id}));
        StrippedCounts(rest, ms[1..], answered + {id});
      }
    } else {
      var m := Turns.StripOne(ms[0], Turns.RunIds(Dedup(ms[1..], answered)));
      var ids := TrimmedIds(Calls(ms[0]));
      assert answered + Elements(open) == answered;
      ElementsOfIds(Calls(ms[0]));
      StrippedCalls(ms, answered);
      assert |Calls(m)| == |TrimmedIds(Calls(m))|;
      CountHead(m, Stripped(ms[1..], answered));
      StrippedCounts(ids, ms[1..], answered);
    }
  }

  lemma CountNothing()
    ensures ToolIds([]) == [] && AllCalls([]) == []
  {
  }
}
