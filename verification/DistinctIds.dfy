/**
 What depends on call ids being different: the repair of layer 3, and whether layer 8 keeps them different.
 Distinctness is counted: a list in block form has as many results as calls.
 */
module DistinctIds {
  import opened Text
  import opened Messages
  import opened HistoryFilters
  import opened Repair
  import opened ToolCallIds
  import opened Sets
  import RepairTheorems

  /** The trimmed ids of all calls, in order. */
  function Ids(ms: seq<Message>): seq<string> {
    TrimmedIds(AllCalls(ms))
  }

  /** The trimmed ids of all results, in order. */
  function ToolIds(ms: seq<Message>): seq<string> {
    if ms == [] then []
    else if ms[0].role == Tool then [Trim(ms[0].toolCallId)] + ToolIds(ms[1..])
    else ToolIds(ms[1..])
  }

  // ---- Distinct calls are ids without repetitions ----

  lemma {:induction false} FreshIff(calls: seq<ToolCall>, seen: set<string>)
    ensures FreshCalls(calls, seen) <==> NoRepeats(TrimmedIds(calls)) && Elements(TrimmedIds(calls)) !! seen
    decreases |calls|
  {
    hide Trim;
    if calls != [] {
      var id, rest := Trim(calls[0].id), TrimmedIds(calls[1..]);
      FreshIff(calls[1..], seen + {id});
      assert TrimmedIds(calls) == [id] + rest;
      NoRepeatsCons(id, rest);
      assert Elements([id] + rest) == {id} + Elements(rest);
    }
  }

  lemma {:induction false} FreshConcat(a: seq<ToolCall>, b: seq<ToolCall>, seen: set<string>)
    ensures FreshCalls(a + b, seen) <==> FreshCalls(a, seen) && FreshCalls(b, seen + IdSet(a))
    decreases |a|
  {
    hide Trim;
    if a == [] {
      assert a + b == b && seen + IdSet(a) == seen;
    } else {
      var id := Trim(a[0].id);
      assert (a + b)[1..] == a[1..] + b;
      FreshConcat(a[1..], b, seen + {id});
      assert IdSet(a) == {id} + IdSet(a[1..]) by { assert a == [a[0]] + a[1..]; }
      assert seen + IdSet(a) == seen + {id} + IdSet(a[1..]);
    }
  }

  lemma {:induction false} DistinctIsFresh(ms: seq<Message>, seen: set<string>)
    ensures DistinctCalls(ms, seen) <==> FreshCalls(AllCalls(ms), seen)
    decreases |ms|
  {
    hide FreshCalls, IdSet;
    if ms == [] {
      assert FreshCalls([], seen) by { FreshIff([], seen); }
    } else {
      DistinctIsFresh(ms[1..], seen + IdSet(Calls(ms[0])));
      FreshConcat(Calls(ms[0]), AllCalls(ms[1..]), seen);
    }
  }

  lemma DistinctIff(ms: seq<Message>)
    ensures DistinctCalls(ms, {}) <==> NoRepeats(Ids(ms))
  {
    hide FreshCalls, DistinctCalls, AllCalls, TrimmedIds;
    DistinctIsFresh(ms, {});
    FreshIff(AllCalls(ms), {});
  }

  lemma {:induction false} IdsConcat(a: seq<ToolCall>, b: seq<ToolCall>)
    ensures TrimmedIds(a + b) == TrimmedIds(a) + TrimmedIds(b)
  {
    hide Trim;
    forall k | 0 <= k < |a + b| ensures TrimmedIds(a + b)[k] == (TrimmedIds(a) + TrimmedIds(b))[k] {}
  }

  lemma {:induction false} CalledIdsAreIds(ms: seq<Message>)
    ensures CalledIds(ms) == Elements(Ids(ms))
  {
    hide Trim, Calls, TrimmedIds, IdSet;
    if ms == [] {
      assert TrimmedIds([]) == [];
    } else {
      CalledIdsAreIds(ms[1..]);
      IdsConcat(Calls(ms[0]), AllCalls(ms[1..]));
      ElementsOfIds(Calls(ms[0]));
      assert Elements(Ids(ms)) == Elements(TrimmedIds(Calls(ms[0]))) + Elements(Ids(ms[1..]));
    }
  }

  lemma ElementsOfIds(calls: seq<ToolCall>)
    ensures Elements(TrimmedIds(calls)) == IdSet(calls)
  {
    hide Trim;
    forall c | c in calls ensures Trim(c.id) in TrimmedIds(calls) {
      var k :| 0 <= k < |calls| && calls[k] == c;
      assert TrimmedIds(calls)[k] == Trim(c.id);
    }
    forall id | id in TrimmedIds(calls) ensures id in IdSet(calls) {
      var k :| 0 <= k < |calls| && TrimmedIds(calls)[k] == id;
      assert calls[k] in calls;
    }
  }

  lemma {:induction false} AllClean(ms: seq<Message>)
    requires CleanCallIds(ms)
    ensures CleanCalls(AllCalls(ms))
  {
    hide Trimmed;
    if ms != [] {
      assert CleanCalls(Calls(ms[0]));
      forall i | 0 <= i < |ms[1..]| ensures CleanCalls(Calls(ms[1..][i])) { assert CleanCalls(Calls(ms[i + 1])); }
      AllClean(ms[1..]);
    }
  }

  // ---- Counting results and calls ----

  /** In block form there is one result for each call. */
  lemma {:induction false} AsManyResultsAsCalls(open: seq<string>, ms: seq<Message>)
    requires Run(Some(open), ms) == Some([])
    ensures |ToolIds(ms)| == |open| + |AllCalls(ms)|
    decreases |ms|
  {
    hide Trim;
    if ms != [] {
      if Step(Some(open), ms[0]).None? { RunNone(ms[1..]); }
      AsManyResultsAsCalls(Step(Some(open), ms[0]).value, ms[1..]);
    }
  }

  lemma {:induction false} CountIsMultiplicity(ms: seq<Message>, id: string)
    ensures RepairTheorems.Count(ms, id) == multiset(ToolIds(ms))[id]
  {
    hide Trim;
    if ms != [] {
      CountIsMultiplicity(ms[1..], id);
      if ms[0].role == Tool {
        assert multiset(ToolIds(ms)) == multiset{Trim(ms[0].toolCallId)} + multiset(ToolIds(ms[1..]));
      }
    }
  }

  /** After the repair there is one result for each different id. */
  lemma RepairedCounts(ms: seq<Message>, out: seq<Message>)
    requires Repaired(ms, EMPTY, out) && "" !in CalledIds(ms)
    ensures |ToolIds(out)| == |CalledIds(ms)|
  {
    hide Repaired, CalledIds, ToolIds, RepairTheorems.Count;
    forall id ensures multiset(ToolIds(out))[id] == if id in CalledIds(ms) then 1 else 0 {
      RepairTheorems.ExactlyOneResult(ms, out, id);
      CountIsMultiplicity(out, id);
    }
    NoRepeatsMultiset(ToolIds(out));
    NoRepeatsSize(ToolIds(out));
    forall id ensures id in ToolIds(out) <==> id in CalledIds(ms) {
      assert id in ToolIds(out) <==> multiset(ToolIds(out))[id] > 0;
    }
    assert Elements(ToolIds(out)) == CalledIds(ms);
  }

  lemma {:induction false} CallsOfNonTool(ms: seq<Message>)
    ensures AllCalls(RepairTheorems.NonTool(ms)) == AllCalls(ms)
  {
    if ms != [] { CallsOfNonTool(ms[1..]); }
  }

  lemma RepairKeepsCalls(ms: seq<Message>, out: seq<Message>)
    requires Repaired(ms, EMPTY, out)
    ensures AllCalls(out) == AllCalls(ms)
  {
    hide Repaired, AllCalls;
    RepairTheorems.NonToolSurvives(ms, EMPTY, out);
    CallsOfNonTool(ms);
    CallsOfNonTool(out);
  }

  lemma NoBlankIds(ms: seq<Message>)
    requires CleanCallIds(ms)
    ensures "" !in CalledIds(ms)
  {
    hide CleanCallIds, AllCalls, CalledIds;
    AllClean(ms);
    CalledIdsAreIds(ms);
  }

  /** The number of results of a repaired list falls short of its calls exactly when an id was called twice. */
  lemma RepairFallsShortIff(ms: seq<Message>, out: seq<Message>)
    requires CleanCallIds(ms) && Repaired(ms, EMPTY, out)
    ensures |ToolIds(out)| == |AllCalls(out)| <==> DistinctCalls(ms, {})
  {
    hide CleanCallIds, Repaired, CalledIds, DistinctCalls, ToolIds, AllCalls;
    NoBlankIds(ms);
    RepairedCounts(ms, out);
    RepairKeepsCalls(ms, out);
    CalledIdsAreIds(ms);
    NoRepeatsSize(Ids(ms));
    DistinctIff(ms);
  }

  /** Layer 3 keeps a list with clean call ids in block form if and only if no id is called twice. */
  lemma RepairKeepsBlockFormIff(ms: seq<Message>, out: seq<Message>)
    requires BlockForm(ms) && CleanCallIds(ms) && Repaired(ms, EMPTY, out)
    ensures BlockForm(out) <==> DistinctCalls(ms, {})
  {
    hide CleanCallIds, Repaired, DistinctCalls, ToolIds, AllCalls, Run;
    if DistinctCalls(ms, {}) {
      RepairTheorems.ReadyNeedsNoRepair(ms, out);
    } else {
      RepairFallsShortIff(ms, out);
      if BlockForm(out) { AsManyResultsAsCalls([], out); }
    }
  }

  // ---- Layer 8 ----

  /** Different ids stay different. */
  predicate Apart(ids: set<string>, mode: IdMode, rand: Randomness) {
    forall a, b :: a in ids && b in ids && SanitizeId(a, mode, rand) == SanitizeId(b, mode, rand) ==> a == b
  }

  lemma {:induction false} RenamedCalls(ms: seq<Message>, ids: map<string, string>)
    ensures AllCalls(Rename(ms, ids)) == RenameCalls(AllCalls(ms), ids)
  {
    hide NewId;
    if ms != [] {
      assert Rename(ms, ids)[1..] == Rename(ms[1..], ids);
      RenamedCalls(ms[1..], ids);
    }
  }

  lemma SanitizedIdIsTrimmed(id: string, mode: IdMode, rand: Randomness)
    requires Trimmed(id)
    ensures Trim(SanitizeId(id, mode, rand)) == SanitizeId(id, mode, rand)
  {
    hide Trim, Alphanumerics, Pad, WellFormedId;
    if mode == Strict || mode == Strict9 { WellFormedIsClean(SanitizeId(id, mode, rand), mode); }
  }

  /** Clean ids are rewritten one by one. */
  lemma RewrittenIds(ms: seq<Message>, mode: IdMode, rand: Randomness)
    requires CleanCallIds(ms)
    ensures var ids, out := Ids(ms), Ids(RewriteIds(ms, mode, rand));
            |out| == |ids| && forall k :: 0 <= k < |ids| ==> out[k] == SanitizeId(ids[k], mode, rand)
  {
    hide Trim, CleanCallIds, SanitizeId, AllCalls, Rename, CalledIds;
    AllClean(ms);
    CalledIdsAreIds(ms);
    var renamed := IdMap(ms, mode, rand);
    RenamedCalls(ms, renamed);
    var ids := Ids(ms);
    forall k | 0 <= k < |ids|
      ensures AllCalls(ms)[k].id == ids[k] && ids[k] in renamed && renamed[ids[k]] == SanitizeId(ids[k], mode, rand)
      ensures Trim(SanitizeId(ids[k], mode, rand)) == SanitizeId(ids[k], mode, rand)
      ensures mode == NoMode ==> SanitizeId(ids[k], mode, rand) == ids[k]
    {
      assert ids[k] in Elements(ids);
      SanitizedIdIsTrimmed(ids[k], mode, rand);
    }
  }

  /** Layer 8 leaves the calls of a list different if and only if they were and it keeps their ids apart. */
  lemma RewriteKeepsDistinctIff(ms: seq<Message>, mode: IdMode, rand: Randomness)
    requires CleanCallIds(ms)
    ensures DistinctCalls(RewriteIds(ms, mode, rand), {}) <==>
            DistinctCalls(ms, {}) && Apart(CalledIds(ms), mode, rand)
  {
    hide CleanCallIds, DistinctCalls, RewriteIds, SanitizeId, CalledIds, Ids;
    DistinctIff(ms);
    DistinctIff(RewriteIds(ms, mode, rand));
    CalledIdsAreIds(ms);
    RewrittenIds(ms, mode, rand);
    var ids, out := Ids(ms), Ids(RewriteIds(ms, mode, rand));
    if NoRepeats(out) {
      forall i, j | 0 <= i < j < |ids| ensures ids[i] != ids[j] { assert out[i] != out[j]; }
      forall a, b | a in ids && b in ids && SanitizeId(a, mode, rand) == SanitizeId(b, mode, rand) ensures a == b {
        var i :| 0 <= i < |ids| && ids[i] == a;
        var j :| 0 <= j < |ids| && ids[j] == b;
        assert out[i] == out[j];
      }
    }
  }

  predicate AllWellFormed(calls: seq<ToolCall>, mode: IdMode) {
    forall k :: 0 <= k < |calls| ==> WellFormedId(calls[k].id, mode)
  }

  /**
   In the strict modes all call ids come out well formed if and only if, where nothing needed rewriting, they
   were so already, and otherwise none of them was blank.
   */
  lemma RewriteMakesWellFormedIff(ms: seq<Message>, mode: IdMode, rand: Randomness)
    requires mode == Strict || mode == Strict9
    ensures AllWellFormed(AllCalls(RewriteIds(ms, mode, rand)), mode) <==>
            if Unchanging(IdMap(ms, mode, rand)) then AllWellFormed(AllCalls(ms), mode) else "" !in CalledIds(ms)
  {
    hide Trim, SanitizeId, AllCalls, Rename, CalledIds, Unchanging, AllWellFormed;
    RenamedCalls(ms, IdMap(ms, mode, rand));
    CalledIdsAreIds(ms);
    RenamedWellFormedIff(ms, mode, rand);
  }

  lemma RenamedWellFormedIff(ms: seq<Message>, mode: IdMode, rand: Randomness)
    requires mode == Strict || mode == Strict9
    ensures AllWellFormed(RenameCalls(AllCalls(ms), IdMap(ms, mode, rand)), mode) <==> "" !in Ids(ms)
  {
    hide Trim, SanitizeId, AllCalls, CalledIds, WellFormedId;
    var renamed, calls, ids := IdMap(ms, mode, rand), AllCalls(ms), Ids(ms);
    CalledIdsAreIds(ms);
    forall k | 0 <= k < |calls|
      ensures WellFormedId(RenameCalls(calls, renamed)[k].id, mode) <==> ids[k] != ""
    {
      assert ids[k] in Elements(ids);
      SanitizedIsWellFormed(ids[k], mode, rand);
      if ids[k] == "" { BlankIsNotWellFormed(calls[k].id, mode); }
    }
    if "" in ids {
      var k :| 0 <= k < |ids| && ids[k] == "";
      assert !WellFormedId(RenameCalls(calls, renamed)[k].id, mode);
    }
  }

  lemma SanitizedIsWellFormed(id: string, mode: IdMode, rand: Randomness)
    ensures WellFormedId(SanitizeId(id, mode, rand), mode)
  {
  }

  lemma BlankIsNotWellFormed(id: string, mode: IdMode)
    requires Trim(id) == "" && (mode == Strict || mode == Strict9)
    ensures !WellFormedId(id, mode)
  {
    if WellFormedId(id, mode) {
      hide Trim;
      WellFormedIsClean(id, mode);
    }
  }
}
