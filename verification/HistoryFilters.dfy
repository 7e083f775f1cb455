/** Layers 1, 2 and 4 of the history pipeline: thinking blocks, disallowed tools, overlong tool results. */
module HistoryFilters {
  import opened Text
  import opened Messages

  // ---- Layer 1: DropThinkingBlocksFromHistory ----

  /** `strip` is the regular-expression replacement that removes think blocks. */
  function DropThinkingIn(m: Message, strip: string -> string): Message {
    if m.role != Assistant then m
    else
      var cleaned := Trim(strip(m.content));
      if cleaned == m.content then m
      else if cleaned == "" && m.toolCalls == [] then m.(content := "[thinking content omitted]")
      else m.(content := cleaned)
  }

  function DropThinking(ms: seq<Message>, strip: string -> string): (out: seq<Message>) {
    seq(|ms|, i requires 0 <= i < |ms| => DropThinkingIn(ms[i], strip))
  }

  method DropThinkingBlocksFromHistory(messages: seq<Message>, strip: string -> string) returns (out: seq<Message>)
    ensures out == DropThinking(messages, strip)
  {
    hide Trim;
    out := [];
    for i := 0 to |messages|
      invariant |out| == i && forall k :: 0 <= k < i ==> out[k] == DropThinkingIn(messages[k], strip)
    {
      var msg := messages[i];
      if msg.role != Assistant {
        out := out + [msg];
      } else {
        var cleaned := Trim(strip(msg.content));
        if cleaned == msg.content {
          out := out + [msg];
        } else {
          if cleaned == "" && |msg.toolCalls| == 0 { cleaned := "[thinking content omitted]"; }
          out := out + [msg.(content := cleaned)];
        }
      }
    }
  }

  lemma DropThinkingSkeleton(ms: seq<Message>, strip: string -> string)
    ensures SameSkeleton(ms, DropThinking(ms, strip))
  {
  }

  // ---- Layer 4: StripToolResultDetails ----

  const MAX_TOOL_RESULT := 32000

  function TruncateIn(m: Message, maxLen: int): Message {
    if m.role == Tool && 0 < maxLen < |m.content| then m.(content := m.content[..maxLen] + "\n[... truncated]") else m
  }

  function Truncate(ms: seq<Message>, maxLen: int): seq<Message> {
    seq(|ms|, i requires 0 <= i < |ms| => TruncateIn(ms[i], maxLen))
  }

  method StripToolResultDetails(messages: seq<Message>, maxLen: int) returns (out: seq<Message>)
    ensures out == Truncate(messages, maxLen)
  {
    if maxLen <= 0 { return messages; }
    var touched := false;
    out := [];
    for i := 0 to |messages|
      invariant |out| == i && forall k :: 0 <= k < i ==> out[k] == TruncateIn(messages[k], maxLen)
      invariant !touched ==> out == messages[..i]
    {
      var msg := messages[i];
      if msg.role == Tool && |msg.content| > maxLen {
        out := out + [msg.(content := msg.content[..maxLen] + "\n[... truncated]")];
        touched := true;
      } else {
        out := out + [msg];
      }
    }
    if !touched { return messages; }
  }

  lemma TruncateSkeleton(ms: seq<Message>, maxLen: int)
    ensures SameSkeleton(ms, Truncate(ms, maxLen))
  {
  }

  // ---- What a text-only rewrite keeps ----

  lemma {:induction false} SkeletonDistinct(a: seq<Message>, b: seq<Message>, seen: set<string>)
    requires SameSkeleton(a, b) && DistinctCalls(a, seen)
    ensures DistinctCalls(b, seen)
    decreases |a|
  {
    if a != [] {
      assert SameHead(a[0], b[0]);
      forall i | 0 <= i < |a[1..]| ensures SameHead(a[1..][i], b[1..][i]) {
        assert SameHead(a[i + 1], b[i + 1]);
      }
      SkeletonDistinct(a[1..], b[1..], seen + IdSet(Calls(a[0])));
    }
  }

  lemma SkeletonClean(a: seq<Message>, b: seq<Message>)
    requires SameSkeleton(a, b) && CleanCallIds(a)
    ensures CleanCallIds(b)
  {
    hide Trimmed;
    forall i | 0 <= i < |b| ensures CleanCalls(Calls(b[i])) {
      assert SameHead(a[i], b[i]);
    }
  }

  lemma SkeletonReady(a: seq<Message>, b: seq<Message>)
    requires SameSkeleton(a, b) && Ready(a)
    ensures Ready(b)
  {
    hide Run, DistinctCalls, CleanCallIds;
    SkeletonRun(Some([]), a, b);
    SkeletonDistinct(a, b, {});
    SkeletonClean(a, b);
  }

  // ---- Layer 2: SanitizeToolCallInputs ----

  predicate Disallowed(c: ToolCall, allowed: set<string>) {
    Trim(c.name) !in allowed
  }

  /** Raw ids of the disallowed calls. */
  function RemovedIn(calls: seq<ToolCall>, allowed: set<string>): set<string> {
    set c | c in calls && Disallowed(c, allowed) :: c.id
  }

  function RemovedIds(ms: seq<Message>, allowed: set<string>): set<string> {
    if ms == [] then {} else RemovedIn(Calls(ms[0]), allowed) + RemovedIds(ms[1..], allowed)
  }

  function KeepCalls(calls: seq<ToolCall>, removed: set<string>): seq<ToolCall> {
    if calls == [] then []
    else if calls[0].id in removed then KeepCalls(calls[1..], removed)
    else [calls[0]] + KeepCalls(calls[1..], removed)
  }

  /** What remains of one message: nothing, or the message with fewer calls. */
  function KeepMessage(m: Message, removed: set<string>): seq<Message> {
    if m.role == Assistant then
      if m.toolCalls == [] then [m]
      else
        var kept := KeepCalls(m.toolCalls, removed);
        if kept == [] && Trim(m.content) == "" then [] else [m.(toolCalls := kept)]
    else if m.role == Tool && Trim(m.toolCallId) in removed then []
    else [m]
  }

  function KeepMessages(ms: seq<Message>, removed: set<string>): seq<Message> {
    if ms == [] then [] else KeepMessage(ms[0], removed) + KeepMessages(ms[1..], removed)
  }

  /** An empty allowed set filters nothing. */
  function FilterTools(ms: seq<Message>, allowed: set<string>): seq<Message> {
    if allowed == {} || RemovedIds(ms, allowed) == {} then ms else KeepMessages(ms, RemovedIds(ms, allowed))
  }

  method SanitizeToolCallInputs(messages: seq<Message>, allowed: set<string>) returns (out: seq<Message>)
    ensures out == FilterTools(messages, allowed)
  {
    hide Trim, RemovedIds, KeepCalls;
    if |allowed| == 0 { return messages; }
    var removed := CollectRemoved(messages, allowed);
    if |removed| == 0 { return messages; }
    out := [];
    for i := 0 to |messages|
      invariant out + KeepMessages(messages[i..], removed) == KeepMessages(messages, removed)
    {
      ghost var before := out;
      assert messages[i..][1..] == messages[i + 1..];
      var msg := messages[i];
      if msg.role == Assistant {
        if |msg.toolCalls| == 0 {
          out := out + [msg];
        } else {
          var filtered := FilterCalls(msg.toolCalls, removed);
          if |filtered| > 0 || Trim(msg.content) != "" { out := out + [msg.(toolCalls := filtered)]; }
        }
      } else if msg.role == Tool {
        if Trim(msg.toolCallId) !in removed { out := out + [msg]; }
      } else {
        out := out + [msg];
      }
      assert out == before + KeepMessage(msg, removed);
      Regroup(before, KeepMessage(msg, removed), KeepMessages(messages[i + 1..], removed));
    }
  }

  lemma Regroup<T>(a: seq<T>, b: seq<T>, c: seq<T>)
    ensures (a + b) + c == a + (b + c)
  {
  }

  method CollectRemoved(messages: seq<Message>, allowed: set<string>) returns (removed: set<string>)
    ensures removed == RemovedIds(messages, allowed)
  {
    hide Disallowed, RemovedIn;
    removed := {};
    for i := 0 to |messages|
      invariant removed + RemovedIds(messages[i..], allowed) == RemovedIds(messages, allowed)
    {
      assert messages[i..][1..] == messages[i + 1..];
      var calls := if messages[i].role == Assistant then messages[i].toolCalls else [];
      var more := CollectRemovedIn(calls, allowed);
      removed := removed + more;
    }
  }

  method CollectRemovedIn(calls: seq<ToolCall>, allowed: set<string>) returns (removed: set<string>)
    ensures removed == RemovedIn(calls, allowed)
  {
    hide Trim;
    removed := {};
    for k := 0 to |calls|
      invariant removed == RemovedIn(calls[..k], allowed)
    {
      assert calls[..k + 1] == calls[..k] + [calls[k]];
      if Trim(calls[k].name) !in allowed { removed := removed + {calls[k].id}; }
    }
    assert calls[..|calls|] == calls;
  }

  method FilterCalls(calls: seq<ToolCall>, removed: set<string>) returns (filtered: seq<ToolCall>)
    ensures filtered == KeepCalls(calls, removed)
  {
    filtered := [];
    for k := 0 to |calls|
      invariant filtered + KeepCalls(calls[k..], removed) == KeepCalls(calls, removed)
    {
      assert calls[k..][1..] == calls[k + 1..];
      if calls[k].id !in removed { filtered := filtered + [calls[k]]; }
    }
  }

  // ---- Layer 2 removes a call and its result together ----

  /** Each call's raw id is removed exactly when its trimmed id is: the result side looks up the trimmed one. */
  predicate AgreeIn(calls: seq<ToolCall>, removed: set<string>) {
    forall k :: 0 <= k < |calls| ==> (calls[k].id in removed <==> Trim(calls[k].id) in removed)
  }

  predicate Agree(ms: seq<Message>, removed: set<string>) {
    forall i :: 0 <= i < |ms| ==> AgreeIn(Calls(ms[i]), removed)
  }

  function KeepIds(ids: seq<string>, removed: set<string>): seq<string> {
    if ids == [] then []
    else if ids[0] in removed then KeepIds(ids[1..], removed)
    else [ids[0]] + KeepIds(ids[1..], removed)
  }

  lemma {:induction false} KeepCallsIds(calls: seq<ToolCall>, removed: set<string>)
    requires AgreeIn(calls, removed)
    ensures TrimmedIds(KeepCalls(calls, removed)) == KeepIds(TrimmedIds(calls), removed)
  {
    hide Trim;
    if calls != [] {
      assert TrimmedIds(calls)[1..] == TrimmedIds(calls[1..]);
      KeepCallsIds(calls[1..], removed);
      if calls[0].id !in removed {
        assert KeepCalls(calls, removed)[1..] == KeepCalls(calls[1..], removed);
      }
    }
  }

  lemma KeepMessageRun(open: seq<string>, m: Message, removed: set<string>)
    requires AgreeIn(Calls(m), removed) && Step(Some(open), m).Some?
    ensures Run(Some(KeepIds(open, removed)), KeepMessage(m, removed))
         == Some(KeepIds(Step(Some(open), m).value, removed))
  {
    hide Trim, KeepCalls;
    var left, kept := KeepIds(open, removed), KeepMessage(m, removed);
    if m.role == Tool {
      if Trim(m.toolCallId) !in removed { assert left[1..] == KeepIds(open[1..], removed); }
    } else if m.role == Assistant {
      KeepCallsIds(m.toolCalls, removed);
      KeepNoCalls(removed);
    } else {
      assert KeepIds([], removed) == [] == TrimmedIds(Calls(m));
    }
    if kept != [] {
      assert kept == [] + [kept[0]];
      RunSnoc(Some(left), [], kept[0]);
    }
  }

  lemma KeepNoCalls(removed: set<string>)
    ensures KeepCalls([], removed) == []
  {
  }

  lemma {:induction false} KeepMessagesRun(open: seq<string>, ms: seq<Message>, removed: set<string>)
    requires Agree(ms, removed) && Run(Some(open), ms) == Some([])
    ensures Run(Some(KeepIds(open, removed)), KeepMessages(ms, removed)) == Some([])
    decreases |ms|
  {
    hide Step, KeepMessage, AgreeIn;
    if ms != [] {
      if Step(Some(open), ms[0]).None? { RunNone(ms[1..]); }
      KeepMessageRun(open, ms[0], removed);
      forall i | 0 <= i < |ms[1..]| ensures AgreeIn(Calls(ms[1..][i]), removed) {
        assert AgreeIn(Calls(ms[i + 1]), removed);
      }
      KeepMessagesRun(Step(Some(open), ms[0]).value, ms[1..], removed);
      RunConcat(Some(KeepIds(open, removed)), KeepMessage(ms[0], removed), KeepMessages(ms[1..], removed));
    }
  }

  // ---- When the ids agree ----

  lemma {:induction false} RemovedCame(ms: seq<Message>, allowed: set<string>, id: string)
    ensures id in RemovedIds(ms, allowed) <==>
            exists i, k :: 0 <= i < |ms| && IsRemoved(ms[i], k, allowed, id)
  {
    hide Trim, Disallowed;
    if ms != [] {
      RemovedCame(ms[1..], allowed, id);
      if id in RemovedIds(ms[1..], allowed) {
        var i, k :| 0 <= i < |ms[1..]| && IsRemoved(ms[1..][i], k, allowed, id);
        assert IsRemoved(ms[i + 1], k, allowed, id);
      }
      if id in RemovedIn(Calls(ms[0]), allowed) {
        var c :| c in Calls(ms[0]) && Disallowed(c, allowed) && c.id == id;
        var k :| 0 <= k < |Calls(ms[0])| && Calls(ms[0])[k] == c;
        assert IsRemoved(ms[0], k, allowed, id);
      }
      if i, k :| 0 <= i < |ms| && IsRemoved(ms[i], k, allowed, id) {
        if i > 0 { assert IsRemoved(ms[1..][i - 1], k, allowed, id); }
      }
    }
  }

  predicate IsRemoved(m: Message, k: int, allowed: set<string>, id: string) {
    0 <= k < |Calls(m)| && Disallowed(Calls(m)[k], allowed) && Calls(m)[k].id == id
  }

  lemma {:induction false} FreshCallNotSeen(calls: seq<ToolCall>, seen: set<string>, k: nat)
    requires FreshCalls(calls, seen) && k < |calls|
    ensures Trim(calls[k].id) !in seen
    ensures forall l :: k < l < |calls| ==> Trim(calls[l].id) != Trim(calls[k].id)
    decreases |calls|
  {
    hide Trim;
    var first := Trim(calls[0].id);
    forall l | 0 < l < |calls| ensures Trim(calls[l].id) !in seen + {first} {
      FreshCallNotSeen(calls[1..], seen + {first}, l - 1);
    }
    if k > 0 {
      FreshCallNotSeen(calls[1..], seen + {first}, k - 1);
      forall l | k < l < |calls| ensures Trim(calls[l].id) != Trim(calls[k].id) {
        assert calls[1..][l - 1] == calls[l];
      }
    }
  }

  lemma {:induction false} DistinctNotSeen(ms: seq<Message>, seen: set<string>, i: nat, k: nat)
    requires DistinctCalls(ms, seen) && i < |ms| && k < |Calls(ms[i])|
    ensures Trim(Calls(ms[i])[k].id) !in seen
    decreases |ms|
  {
    hide Trim;
    if i == 0 {
      FreshCallNotSeen(Calls(ms[0]), seen, k);
    } else {
      DistinctNotSeen(ms[1..], seen + IdSet(Calls(ms[0])), i - 1, k);
    }
  }

  /** With distinct call ids, two calls with the same trimmed id are one call. */
  lemma {:induction false} SameIdSameCall(ms: seq<Message>, seen: set<string>, i: nat, k: nat, j: nat, l: nat)
    requires DistinctCalls(ms, seen) && i <= j < |ms| && k < |Calls(ms[i])| && l < |Calls(ms[j])|
    requires Trim(Calls(ms[i])[k].id) == Trim(Calls(ms[j])[l].id)
    ensures i == j && k == l
    decreases |ms|
  {
    hide Trim, FreshCalls;
    if i > 0 {
      SameIdSameCall(ms[1..], seen + IdSet(Calls(ms[0])), i - 1, k, j - 1, l);
    } else if j > 0 {
      assert Trim(Calls(ms[0])[k].id) in IdSet(Calls(ms[0])) by { assert Calls(ms[0])[k] in Calls(ms[0]); }
      DistinctNotSeen(ms[1..], seen + IdSet(Calls(ms[0])), j - 1, l);
    } else {
      FreshCallNotSeen(Calls(ms[0]), seen, k);
      FreshCallNotSeen(Calls(ms[0]), seen, l);
    }
  }

  predicate RemovedTrimmed(ms: seq<Message>, allowed: set<string>) {
    forall id :: id in RemovedIds(ms, allowed) ==> Trimmed(id)
  }

  lemma TrimmedIdsAgree(ms: seq<Message>, allowed: set<string>)
    requires DistinctCalls(ms, {}) && RemovedTrimmed(ms, allowed)
    ensures Agree(ms, RemovedIds(ms, allowed))
  {
    hide Trim, Disallowed, DistinctCalls;
    var removed := RemovedIds(ms, allowed);
    forall i, k | 0 <= i < |ms| && 0 <= k < |Calls(ms[i])|
      ensures Calls(ms[i])[k].id in removed <==> Trim(Calls(ms[i])[k].id) in removed
    {
      var id := Trim(Calls(ms[i])[k].id);
      if id in removed {
        RemovedCame(ms, allowed, id);
        var j, l :| 0 <= j < |ms| && IsRemoved(ms[j], l, allowed, id);
        if i <= j { SameIdSameCall(ms, {}, i, k, j, l); } else { SameIdSameCall(ms, {}, j, l, i, k); }
      }
    }
  }

  // ---- When they do not ----

  /** A block-form list answers only ids it calls. */
  lemma {:induction false} ResultsAreCalled(open: seq<string>, ms: seq<Message>, j: nat)
    requires Run(Some(open), ms) == Some([]) && j < |ms| && ms[j].role == Tool
    ensures Trim(ms[j].toolCallId) in open || Trim(ms[j].toolCallId) in CalledIds(ms)
    decreases |ms|
  {
    hide Trim;
    var next := Step(Some(open), ms[0]);
    if next.None? { RunNone(ms[1..]); }
    if j > 0 {
      ResultsAreCalled(next.value, ms[1..], j - 1);
      if ms[0].role != Tool { IdsInSet(Calls(ms[0])); }
    }
  }

  lemma IdsInSet(calls: seq<ToolCall>)
    ensures forall id :: id in TrimmedIds(calls) ==> id in IdSet(calls)
  {
    hide Trim;
    forall id | id in TrimmedIds(calls) ensures id in IdSet(calls) {
      var k :| 0 <= k < |calls| && TrimmedIds(calls)[k] == id;
      assert calls[k] in calls;
    }
  }

  /** A call that stays was not removed; a result that stays was not looked up. */
  lemma {:induction false} KeptCallsStay(ms: seq<Message>, removed: set<string>, id: string)
    requires id in CalledIds(KeepMessages(ms, removed))
    ensures exists i, k :: 0 <= i < |ms| && CallStays(ms[i], k, removed, id)
    decreases |ms|
  {
    hide Trim;
    if ms != [] {
      var head, tail := KeepMessage(ms[0], removed), KeepMessages(ms[1..], removed);
      CalledConcat(head, tail);
      if id in CalledIds(tail) {
        KeptCallsStay(ms[1..], removed, id);
        var i, k :| 0 <= i < |ms[1..]| && CallStays(ms[1..][i], k, removed, id);
        assert CallStays(ms[i + 1], k, removed, id);
      } else {
        assert head[1..] == [];
        assert id in IdSet(Calls(head[0]));
        var c :| c in Calls(head[0]) && Trim(c.id) == id;
        KeepCallsFrom(ms[0].toolCalls, removed, c);
        var k :| 0 <= k < |ms[0].toolCalls| && ms[0].toolCalls[k] == c;
        assert CallStays(ms[0], k, removed, id);
      }
    }
  }

  predicate CallStays(m: Message, k: int, removed: set<string>, id: string) {
    0 <= k < |Calls(m)| && Calls(m)[k].id !in removed && Trim(Calls(m)[k].id) == id
  }

  lemma {:induction false} KeepCallsFrom(calls: seq<ToolCall>, removed: set<string>, c: ToolCall)
    ensures c in KeepCalls(calls, removed) <==> c in calls && c.id !in removed
  {
    if calls != [] { KeepCallsFrom(calls[1..], removed, c); }
  }

  lemma {:induction false} CalledConcat(a: seq<Message>, b: seq<Message>)
    ensures CalledIds(a + b) == CalledIds(a) + CalledIds(b)
  {
    if a == [] {
      assert a + b == b;
    } else {
      assert (a + b)[1..] == a[1..] + b;
      CalledConcat(a[1..], b);
    }
  }

  lemma {:induction false} ResultStays(ms: seq<Message>, removed: set<string>, j: nat)
    requires j < |ms| && ms[j].role == Tool && Trim(ms[j].toolCallId) !in removed
    ensures ms[j] in KeepMessages(ms, removed)
    decreases |ms|
  {
    hide Trim;
    if j > 0 {
      ResultStays(ms[1..], removed, j - 1);
    } else {
      assert KeepMessage(ms[0], removed) == [ms[0]];
    }
  }

  /** In a block-form list every called id has a result. */
  lemma {:induction false} CallsAreAnswered(open: seq<string>, ms: seq<Message>, id: string) returns (j: nat)
    requires Run(Some(open), ms) == Some([]) && (id in open || id in CalledIds(ms))
    ensures j < |ms| && ms[j].role == Tool && Trim(ms[j].toolCallId) == id
    decreases |ms|
  {
    hide Trim;
    assert ms != [];
    var next := Step(Some(open), ms[0]);
    if next.None? { RunNone(ms[1..]); }
    if ms[0].role == Tool && open[0] == id {
      j := 0;
    } else {
      if ms[0].role != Tool && id in IdSet(Calls(ms[0])) {
        var c :| c in Calls(ms[0]) && Trim(c.id) == id;
        var k :| 0 <= k < |Calls(ms[0])| && Calls(ms[0])[k] == c;
        assert next.value[k] == id;
      }
      j := CallsAreAnswered(next.value, ms[1..], id);
      j := j + 1;
    }
  }

  /** A removed id with white space around it leaves its result behind, unpaired. */
  lemma UntrimmedBreaks(ms: seq<Message>, allowed: set<string>)
    requires BlockForm(ms) && DistinctCalls(ms, {}) && allowed != {}
    requires !RemovedTrimmed(ms, allowed)
    ensures !BlockForm(FilterTools(ms, allowed))
  {
    hide Trim, Disallowed, DistinctCalls, Run, KeepMessages, CalledIds;
    var removed := RemovedIds(ms, allowed);
    var raw :| raw in removed && !Trimmed(raw);
    RemovedCame(ms, allowed, raw);
    var i, k :| 0 <= i < |ms| && IsRemoved(ms[i], k, allowed, raw);
    var id := Trim(raw);
    // The trimmed id is not itself a removed raw id: that call would be the same call.
    if id in removed {
      RemovedCame(ms, allowed, id);
      var j, l :| 0 <= j < |ms| && IsRemoved(ms[j], l, allowed, id);
      TrimTwice(raw);
      if i <= j { SameIdSameCall(ms, {}, i, k, j, l); } else { SameIdSameCall(ms, {}, j, l, i, k); }
    }
    CallIsCalled(ms, i, k);
    var j := CallsAreAnswered([], ms, id);
    ResultStays(ms, removed, j);
    var out := KeepMessages(ms, removed);
    if BlockForm(out) {
      var at :| 0 <= at < |out| && out[at] == ms[j];
      ResultsAreCalled([], out, at);
      KeptCallsStay(ms, removed, id);
      var p, q :| 0 <= p < |ms| && CallStays(ms[p], q, removed, id);
      if i <= p { SameIdSameCall(ms, {}, i, k, p, q); } else { SameIdSameCall(ms, {}, p, q, i, k); }
    }
  }

  /** Such a list, with `g` as the only allowed tool. */
  lemma UntrimmedCallBreaks()
    ensures BlockForm(UntrimmedCall()) && DistinctCalls(UntrimmedCall(), {}) && !RemovedTrimmed(UntrimmedCall(), {"g"})
    ensures !BlockForm(FilterTools(UntrimmedCall(), {"g"}))
  {
    UntrimmedCallPairs();
    var ms := UntrimmedCall();
    TrimmedEnds("f");
    hide Trim, Run, DistinctCalls;
    var call := ms[0].toolCalls[0];
    assert call in Calls(ms[0]) && Disallowed(call, {"g"}) && " ab" in RemovedIds(ms, {"g"});
    hide RemovedIds;
    UntrimmedBreaks(ms, {"g"});
  }

  /**
   Filtering keeps a block-form list with distinct call ids in block form exactly when every removed call's
   id is already trimmed: the call side removes raw ids, the result side looks up trimmed ones.
   */
  lemma FilterKeepsBlockForm(ms: seq<Message>, allowed: set<string>)
    requires BlockForm(ms) && DistinctCalls(ms, {}) && allowed != {}
    ensures BlockForm(FilterTools(ms, allowed)) <==> RemovedTrimmed(ms, allowed)
  {
    hide DistinctCalls, RemovedTrimmed, Agree, Run, KeepMessages;
    if RemovedTrimmed(ms, allowed) {
      TrimmedIdsAgree(ms, allowed);
      KeepMessagesRun([], ms, RemovedIds(ms, allowed));
      assert KeepIds([], RemovedIds(ms, allowed)) == [];
    } else {
      UntrimmedBreaks(ms, allowed);
    }
  }
}
