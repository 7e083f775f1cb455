/** Layer 8: SanitizeToolCallIDs rewrites call and result ids alike. */
module ToolCallIds {
  import opened Text
  import opened Messages

  datatype IdMode = NoMode | Strict | Strict9 | OtherMode

  predicate IsAlnum(c: char) {
    'a' <= c <= 'z' || 'A' <= c <= 'Z' || '0' <= c <= '9'
  }

  type Alnum = c: char | IsAlnum(c) witness 'a'

  /** The characters the random generator hands out while one id is being padded. */
  type Randomness = (string, nat) -> Alnum

  function Alphanumerics(s: string): (r: string)
    ensures forall k :: 0 <= k < |r| ==> IsAlnum(r[k])
    ensures |r| <= |s|
  {
    if s == "" then "" else if IsAlnum(s[0]) then [s[0]] + Alphanumerics(s[1..]) else Alphanumerics(s[1..])
  }

  function Pad(id: string, s: string, width: nat, rand: Randomness): (r: string)
    requires |s| <= width && forall k :: 0 <= k < |s| ==> IsAlnum(s[k])
    ensures |r| == width && r[..|s|] == s && forall k :: 0 <= k < |r| ==> IsAlnum(r[k])
    decreases width - |s|
  {
    if |s| == width then s else Pad(id, s + [rand(id, |s|) as char], width, rand)
  }

  /** What an id must look like under a mode. */
  predicate WellFormedId(id: string, mode: IdMode) {
    && (mode == Strict9 ==> |id| == 9)
    && (mode == Strict ==> id != "")
    && (mode == Strict9 || mode == Strict ==> forall k :: 0 <= k < |id| ==> IsAlnum(id[k]))
  }

  function SanitizeId(id: string, mode: IdMode, rand: Randomness): (r: string)
    ensures WellFormedId(r, mode) && (mode == NoMode || mode == OtherMode ==> r == id)
  {
    var cleaned := Alphanumerics(id);
    match mode
    case Strict9 => if |cleaned| > 9 then cleaned[..9] else Pad(id, cleaned, 9, rand)
    case Strict => if cleaned == "" then Pad(id, "", 12, rand) else cleaned
    case _ => id
  }

  /** The old-to-new id map: one entry for each non-blank called id. */
  function IdMap(ms: seq<Message>, mode: IdMode, rand: Randomness): map<string, string> {
    map id | id in CalledIds(ms) && id != "" :: SanitizeId(id, mode, rand)
  }

  function NewId(id: string, ids: map<string, string>): string {
    if Trim(id) in ids then ids[Trim(id)] else id
  }

  function RenameCalls(calls: seq<ToolCall>, ids: map<string, string>): (r: seq<ToolCall>)
    ensures |r| == |calls| && forall k :: 0 <= k < |r| ==> r[k] == calls[k].(id := NewId(calls[k].id, ids))
  {
    seq(|calls|, k requires 0 <= k < |calls| => calls[k].(id := NewId(calls[k].id, ids)))
  }

  function RenameIn(m: Message, ids: map<string, string>): Message {
    if m.role == Assistant then m.(toolCalls := RenameCalls(m.toolCalls, ids))
    else if m.role == Tool then m.(toolCallId := NewId(m.toolCallId, ids))
    else m
  }

  function Rename(ms: seq<Message>, ids: map<string, string>): (r: seq<Message>)
    ensures |r| == |ms| && forall k :: 0 <= k < |r| ==> r[k] == RenameIn(ms[k], ids)
  {
    seq(|ms|, k requires 0 <= k < |ms| => RenameIn(ms[k], ids))
  }

  predicate Unchanging(ids: map<string, string>) {
    forall id :: id in ids ==> ids[id] == id
  }

  /** Nothing is rewritten when no mapped id changes. */
  function RewriteIds(ms: seq<Message>, mode: IdMode, rand: Randomness): seq<Message> {
    if mode == NoMode || Unchanging(IdMap(ms, mode, rand)) then ms else Rename(ms, IdMap(ms, mode, rand))
  }

  method SanitizeToolCallIDs(messages: seq<Message>, mode: IdMode, rand: Randomness) returns (out: seq<Message>)
    ensures out == RewriteIds(messages, mode, rand)
  {
    hide Trim, SanitizeId, NewId, IdMap, CalledIds;
    if mode == NoMode { return messages; }
    var ids := BuildIdMap(messages, mode, rand);
    if |ids| == 0 { return messages; }
    if forall id :: id in ids ==> ids[id] == id { return messages; }
    out := [];
    for i := 0 to |messages|
      invariant |out| == i && forall k :: 0 <= k < i ==> out[k] == RenameIn(messages[k], ids)
    {
      var msg := messages[i];
      if msg.role == Assistant {
        if |msg.toolCalls| == 0 {
          assert RenameCalls(msg.toolCalls, ids) == msg.toolCalls;
          out := out + [msg];
        } else {
          var calls := [];
          for k := 0 to |msg.toolCalls|
            invariant |calls| == k
            invariant forall l :: 0 <= l < k ==> calls[l] == msg.toolCalls[l].(id := NewId(msg.toolCalls[l].id, ids))
          {
            calls := calls + [msg.toolCalls[k].(id := NewId(msg.toolCalls[k].id, ids))];
          }
          assert calls == RenameCalls(msg.toolCalls, ids);
          out := out + [msg.(toolCalls := calls)];
        }
      } else if msg.role == Tool {
        out := out + [msg.(toolCallId := NewId(msg.toolCallId, ids))];
      } else {
        out := out + [msg];
      }
    }
  }

  /** `ids` maps exactly the non-blank ids of `seen`, each to its sanitized form. */
  predicate MapsIds(ids: map<string, string>, seen: set<string>, mode: IdMode, rand: Randomness) {
    && ids.Keys == seen - {""}
    && forall id :: id in ids ==> ids[id] == SanitizeId(id, mode, rand)
  }

  method BuildIdMap(messages: seq<Message>, mode: IdMode, rand: Randomness) returns (ids: map<string, string>)
    ensures ids == IdMap(messages, mode, rand)
  {
    hide Trim, SanitizeId, IdSet;
    ids := map[];
    ghost var seen := {};
    for i := 0 to |messages|
      invariant seen + CalledIds(messages[i..]) == CalledIds(messages)
      invariant MapsIds(ids, seen, mode, rand)
    {
      assert messages[i..][1..] == messages[i + 1..];
      if messages[i].role == Assistant {
        ids := AddIds(messages[i].toolCalls, mode, rand, ids, seen);
      } else {
        assert IdSet([]) == {} by { NoIds(); }
      }
      seen := seen + IdSet(Calls(messages[i]));
    }
  }

  lemma NoIds()
    ensures IdSet([]) == {}
  {
  }

  lemma IdSetSnoc(calls: seq<ToolCall>, k: nat)
    requires k < |calls|
    ensures IdSet(calls[..k + 1]) == IdSet(calls[..k]) + {Trim(calls[k].id)}
  {
    hide Trim;
    assert calls[..k + 1] == calls[..k] + [calls[k]];
  }

  method AddIds(
    calls: seq<ToolCall>, mode: IdMode, rand: Randomness, before: map<string, string>, ghost seen: set<string>)
    returns (ids: map<string, string>)
    requires MapsIds(before, seen, mode, rand)
    ensures MapsIds(ids, seen + IdSet(calls), mode, rand)
  {
    hide Trim, SanitizeId, IdSet;
    ids := before;
    assert calls[..0] == [] && IdSet([]) == {} by { NoIds(); }
    for k := 0 to |calls|
      invariant MapsIds(ids, seen + IdSet(calls[..k]), mode, rand)
    {
      IdSetSnoc(calls, k);
      var oldId := Trim(calls[k].id);
      if oldId != "" && oldId !in ids { ids := ids[oldId := SanitizeId(oldId, mode, rand)]; }
    }
    assert calls[..|calls|] == calls;
  }

  // ---- A call and its result are renamed alike ----

  function NewTrimmed(id: string, ids: map<string, string>): string {
    if id in ids then Trim(ids[id]) else id
  }

  function MapIds(open: seq<string>, ids: map<string, string>): (r: seq<string>)
    ensures |r| == |open| && forall k :: 0 <= k < |r| ==> r[k] == NewTrimmed(open[k], ids)
  {
    seq(|open|, k requires 0 <= k < |open| => NewTrimmed(open[k], ids))
  }

  lemma RenamedCallIds(calls: seq<ToolCall>, ids: map<string, string>)
    ensures TrimmedIds(RenameCalls(calls, ids)) == MapIds(TrimmedIds(calls), ids)
  {
    hide Trim;
  }

  lemma RenameStep(open: seq<string>, m: Message, ids: map<string, string>)
    requires Step(Some(open), m).Some?
    ensures Step(Some(MapIds(open, ids)), RenameIn(m, ids)) == Some(MapIds(Step(Some(open), m).value, ids))
  {
    hide Trim;
    if m.role == Tool {
      assert MapIds(open, ids)[1..] == MapIds(open[1..], ids);
    } else if m.role == Assistant {
      RenamedCallIds(m.toolCalls, ids);
    } else {
      assert MapIds([], ids) == [];
    }
  }

  lemma {:induction false} RenameRun(open: seq<string>, ms: seq<Message>, ids: map<string, string>)
    requires Run(Some(open), ms) == Some([])
    ensures Run(Some(MapIds(open, ids)), Rename(ms, ids)) == Some([])
    decreases |ms|
  {
    hide Step, RenameIn;
    if ms == [] {
      assert MapIds([], ids) == [];
    } else {
      if Step(Some(open), ms[0]).None? { RunNone(ms[1..]); }
      RenameStep(open, ms[0], ids);
      RenameRun(Step(Some(open), ms[0]).value, ms[1..], ids);
      assert Rename(ms, ids)[1..] == Rename(ms[1..], ids);
    }
  }

  /** Pairing by position survives any rewriting, even one that merges ids. */
  lemma RewriteKeepsBlockForm(ms: seq<Message>, mode: IdMode, rand: Randomness)
    requires BlockForm(ms)
    ensures BlockForm(RewriteIds(ms, mode, rand))
  {
    hide Step, RenameIn, IdMap;
    var ids := IdMap(ms, mode, rand);
    RenameRun([], ms, ids);
    assert MapIds([], ids) == [];
  }

  /** Where call ids were trimmed and not blank, every one of them now has the form the provider asks for. */
  lemma RewrittenIdsWellFormed(ms: seq<Message>, mode: IdMode, rand: Randomness, i: nat, k: nat)
    requires CleanCallIds(ms) && i < |ms| && k < |Calls(ms[i])|
    ensures
      var out := RewriteIds(ms, mode, rand);
      && |out| == |ms| && |Calls(out[i])| == |Calls(ms[i])|
      && WellFormedId(Calls(out[i])[k].id, mode)
  {
    hide Trim, SanitizeId, CalledIds;
    CallIsCalled(ms, i, k);
    assert CleanCalls(Calls(ms[i]));
    var id := Calls(ms[i])[k].id;
    assert id in IdMap(ms, mode, rand) && IdMap(ms, mode, rand)[id] == SanitizeId(id, mode, rand);
  }

  lemma WellFormedIsClean(id: string, mode: IdMode)
    requires WellFormedId(id, mode) && (mode == Strict || mode == Strict9)
    ensures Trimmed(id) && id != ""
  {
    hide Trim;
    TrimmedEnds(id);
  }

  /** And clean ids stay clean in every mode. */
  lemma RewriteKeepsClean(ms: seq<Message>, mode: IdMode, rand: Randomness)
    requires CleanCallIds(ms)
    ensures CleanCallIds(RewriteIds(ms, mode, rand))
  {
    hide Trim, SanitizeId, CalledIds, WellFormedId, Trimmed;
    var out := RewriteIds(ms, mode, rand);
    forall i | 0 <= i < |out| ensures CleanCalls(Calls(out[i])) {
      forall k | 0 <= k < |Calls(out[i])| ensures Trimmed(Calls(out[i])[k].id) && Calls(out[i])[k].id != "" {
        RewrittenIdIsClean(ms, mode, rand, i, k);
      }
    }
  }

  lemma RewrittenIdIsClean(ms: seq<Message>, mode: IdMode, rand: Randomness, i: nat, k: nat)
    requires CleanCallIds(ms) && i < |RewriteIds(ms, mode, rand)| && k < |Calls(RewriteIds(ms, mode, rand)[i])|
    ensures var id := Calls(RewriteIds(ms, mode, rand)[i])[k].id; Trimmed(id) && id != ""
  {
    hide Trim, CalledIds, WellFormedId, Alphanumerics, Pad;
    assert i < |ms| && k < |Calls(ms[i])|;
    assert CleanCalls(Calls(ms[i]));
    RewrittenIdsWellFormed(ms, mode, rand, i, k);
    if mode == Strict || mode == Strict9 {
      WellFormedIsClean(Calls(RewriteIds(ms, mode, rand)[i])[k].id, mode);
    }
  }

  /** Without trimmed ids it can fail: this id needs no rewriting once trimmed, so its space is kept. */
  lemma UntrimmedIdStays(rand: Randomness)
    ensures
      var ms := UntrimmedCall();
      BlockForm(ms) && RewriteIds(ms, Strict, rand) == ms && !WellFormedId(Calls(ms[0])[0].id, Strict)
  {
    hide Run, Step, CalledIds, SanitizeId;
    var ms := UntrimmedCall();
    assert !IsAlnum(" ab"[0]);
    UntrimmedCallPairs();
    assert SanitizeId("ab", Strict, rand) == "ab" by { StrictKeepsAb(rand); }
    assert Unchanging(IdMap(ms, Strict, rand));
  }

  lemma StrictKeepsAb(rand: Randomness)
    ensures SanitizeId("ab", Strict, rand) == "ab"
  {
    assert "ab"[1..] == "b" && "b"[1..] == "";
  }

  /** Rewriting can give two calls one id, so afterwards only positions tell the pairs apart. */
  lemma RewriteCanMergeIds(rand: Randomness)
    ensures SanitizeId("a-b", Strict, rand) == SanitizeId("ab", Strict, rand)
  {
    assert "a-b"[1..] == "-b" && "-b"[1..] == "b" && "b"[1..] == "" && "ab"[1..] == "b";
    assert Alphanumerics("b") == "b" && Alphanumerics("-b") == "b";
  }
}
