/** Chat-completion messages, and what it means for tool calls and tool results to pair up. */
module Messages {
  import opened Text

  /** A message role as written: the four exact spellings, or any other string. */
  datatype Role = System | User | Assistant | Tool | Other(raw: string)

  datatype ToolCall = ToolCall(index: Option<int>, id: string, kind: string, name: string, arguments: string)

  datatype Part = TextPart(text: string) | ImagePart(url: Option<string>) | OtherPart(kind: string)

  datatype Message = Message(
    role: Role, content: string, parts: seq<Part>, name: string, toolCalls: seq<ToolCall>, toolCallId: string)

  /** The calls a message makes: only assistant messages make any. */
  function Calls(m: Message): seq<ToolCall> {
    if m.role == Assistant then m.toolCalls else []
  }

  function TrimmedIds(calls: seq<ToolCall>): (ids: seq<string>)
    ensures |ids| == |calls|
    ensures forall k :: 0 <= k < |calls| ==> ids[k] == Trim(calls[k].id)
  {
    if calls == [] then [] else [Trim(calls[0].id)] + TrimmedIds(calls[1..])
  }

  /** The ids still to be answered after one more message; None once calls and results fail to line up. */
  function Step(open: Option<seq<string>>, m: Message): Option<seq<string>> {
    if open.None? then None
    else if m.role == Tool then
      if open.value != [] && Trim(m.toolCallId) == open.value[0] then Some(open.value[1..]) else None
    else if open.value == [] then Some(TrimmedIds(Calls(m)))
    else None
  }

  function Run(open: Option<seq<string>>, ms: seq<Message>): Option<seq<string>>
    decreases |ms|
  {
    if ms == [] then open else Run(Step(open, ms[0]), ms[1..])
  }

  /** Every message that makes calls is followed at once by exactly their results, in call order. */
  predicate BlockForm(ms: seq<Message>) {
    Run(Some([]), ms) == Some([])
  }

  // ---- The same property read off positions ----

  /** The messages at `at`, `at + 1`, ... are results for `ids`, one by one. */
  predicate AnsweredAt(ms: seq<Message>, at: nat, ids: seq<string>) {
    && at + |ids| <= |ms|
    && forall k :: 0 <= k < |ids| ==> IsResultFor(ms[at + k], ids[k])
  }

  predicate IsResultFor(m: Message, id: string) {
    m.role == Tool && Trim(m.toolCallId) == id
  }

  /** Position j lies in the run of results that the calls at position i ask for. */
  predicate Owns(ms: seq<Message>, i: int, j: int) {
    0 <= i < j < |ms| && j <= i + |Calls(ms[i])|
  }

  ghost predicate Paired(ms: seq<Message>) {
    PairedFrom(ms, [])
  }

  /** `ms` starts with results for `open`; every call is answered in place and every other result is owned. */
  ghost predicate PairedFrom(ms: seq<Message>, open: seq<string>) {
    && AnsweredAt(ms, 0, open)
    && (forall i {:trigger ms[i]} :: 0 <= i < |ms| ==> AnsweredAt(ms, i + 1, TrimmedIds(Calls(ms[i]))))
    && (forall j {:trigger ms[j]} :: |open| <= j < |ms| && ms[j].role == Tool ==> exists i :: Owns(ms, i, j))
  }

  lemma BlockFormIsPaired(ms: seq<Message>)
    ensures BlockForm(ms) <==> Paired(ms)
  {
    RunIsPaired(ms, []);
  }

  lemma {:induction false} RunIsPaired(ms: seq<Message>, open: seq<string>)
    ensures Run(Some(open), ms) == Some([]) <==> PairedFrom(ms, open)
  {
    if ms != [] {
      var next := Step(Some(open), ms[0]);
      if next.None? {
        RunNone(ms[1..]);
        assert ms[0].role != Tool && open != [] ==> !IsResultFor(ms[0 + 0], open[0]);
        assert forall i :: !Owns(ms, i, 0);
      } else {
        RunIsPaired(ms[1..], next.value);
        if PairedFrom(ms, open) { PairedTail(ms, open, next.value); }
        if PairedFrom(ms[1..], next.value) { PairedCons(ms, open, next.value); }
      }
    }
  }

  lemma AnsweredShift(ms: seq<Message>, at: nat, ids: seq<string>)
    requires ms != []
    ensures AnsweredAt(ms, at + 1, ids) <==> AnsweredAt(ms[1..], at, ids)
  {
    hide IsResultFor;
    if AnsweredAt(ms, at + 1, ids) {
      forall k | 0 <= k < |ids| ensures IsResultFor(ms[1..][at + k], ids[k]) {
        assert IsResultFor(ms[at + 1 + k], ids[k]);
      }
    }
    if AnsweredAt(ms[1..], at, ids) {
      forall k | 0 <= k < |ids| ensures IsResultFor(ms[at + 1 + k], ids[k]) {
        assert IsResultFor(ms[1..][at + k], ids[k]);
      }
    }
  }

  lemma PairedTail(ms: seq<Message>, open: seq<string>, next: seq<string>)
    requires ms != [] && Step(Some(open), ms[0]) == Some(next) && PairedFrom(ms, open)
    ensures PairedFrom(ms[1..], next)
  {
    hide Trim, AnsweredAt;
    var rest := ms[1..];
    AnsweredTail(ms, open, next);
    forall i | 0 <= i < |rest| ensures AnsweredAt(rest, i + 1, TrimmedIds(Calls(rest[i]))) {
      assert rest[i] == ms[i + 1];
      AnsweredShift(ms, i + 1, TrimmedIds(Calls(ms[i + 1])));
    }
    forall j | |next| <= j < |rest| && rest[j].role == Tool ensures exists i :: Owns(rest, i, j) {
      assert rest[j] == ms[j + 1];
      var i :| Owns(ms, i, j + 1);
      assert i != 0;
      assert rest[i - 1] == ms[i];
      assert Owns(rest, i - 1, j);
    }
  }

  lemma AnsweredTail(ms: seq<Message>, open: seq<string>, next: seq<string>)
    requires ms != [] && Step(Some(open), ms[0]) == Some(next)
    requires AnsweredAt(ms, 0, open) && AnsweredAt(ms, 1, TrimmedIds(Calls(ms[0])))
    ensures AnsweredAt(ms[1..], 0, next)
  {
    hide Trim, IsResultFor;
    if ms[0].role == Tool {
      forall k | 0 <= k < |next| ensures IsResultFor(ms[1..][0 + k], next[k]) {
        assert IsResultFor(ms[0 + (k + 1)], open[k + 1]);
      }
    } else {
      AnsweredShift(ms, 0, next);
    }
  }

  lemma PairedCons(ms: seq<Message>, open: seq<string>, next: seq<string>)
    requires ms != [] && Step(Some(open), ms[0]) == Some(next) && PairedFrom(ms[1..], next)
    ensures PairedFrom(ms, open)
  {
    var rest := ms[1..];
    forall k | 0 <= k < |open| ensures IsResultFor(ms[0 + k], open[k]) {
      if k > 0 { assert IsResultFor(rest[0 + (k - 1)], next[k - 1]); }
    }
    assert AnsweredAt(ms, 0, open);
    forall i | 0 <= i < |ms| ensures AnsweredAt(ms, i + 1, TrimmedIds(Calls(ms[i]))) {
      if i > 0 { assert rest[i - 1] == ms[i]; }
      AnsweredShift(ms, i, TrimmedIds(Calls(ms[i])));
    }
    forall j | |open| <= j < |ms| && ms[j].role == Tool ensures exists i :: Owns(ms, i, j) {
      OwnedCons(ms, open, next, j);
    }
  }

  lemma OwnedCons(ms: seq<Message>, open: seq<string>, next: seq<string>, j: nat)
    requires ms != [] && Step(Some(open), ms[0]) == Some(next)
    requires forall j {:trigger ms[1..][j]} ::
      |next| <= j < |ms[1..]| && ms[1..][j].role == Tool ==> exists i :: Owns(ms[1..], i, j)
    requires |open| <= j < |ms| && ms[j].role == Tool
    ensures exists i :: Owns(ms, i, j)
  {
    var rest := ms[1..];
    assert j > 0;
    assert rest[j - 1] == ms[j];
    if j - 1 < |next| {
      assert Owns(ms, 0, j);
    } else {
      var i :| Owns(rest, i, j - 1);
      assert rest[i] == ms[i + 1];
      assert Owns(ms, i + 1, j);
    }
  }

  // ---- Runs over concatenations, prefixes and rewrites ----

  lemma {:induction false} RunNone(ms: seq<Message>)
    ensures Run(None, ms) == None
  {
    if ms != [] { RunNone(ms[1..]); }
  }

  lemma {:induction false} RunConcat(open: Option<seq<string>>, a: seq<Message>, b: seq<Message>)
    ensures Run(open, a + b) == Run(Run(open, a), b)
    decreases |a|
  {
    if a == [] {
      assert a + b == b;
    } else {
      assert (a + b)[1..] == a[1..] + b;
      RunConcat(Step(open, a[0]), a[1..], b);
    }
  }

  lemma RunSnoc(open: Option<seq<string>>, a: seq<Message>, m: Message)
    ensures Run(open, a + [m]) == Step(Run(open, a), m)
  {
    RunConcat(open, a, [m]);
  }

  lemma BlockFormConcat(a: seq<Message>, b: seq<Message>)
    requires BlockForm(a) && BlockForm(b)
    ensures BlockForm(a + b)
  {
    RunConcat(Some([]), a, b);
  }

  /** A position that does not hold a tool message is a block boundary. */
  lemma BlockFormSplit(ms: seq<Message>, i: nat)
    requires BlockForm(ms) && i < |ms| && ms[i].role != Tool
    ensures BlockForm(ms[..i]) && BlockForm(ms[i..])
  {
    var pre := ms[..i];
    assert ms == pre + ms[i..];
    RunConcat(Some([]), pre, ms[i..]);
    RunNone(ms[i..]);
    RunNone(ms[i..][1..]);
  }

  /** The lists agree on everything but the text: roles, calls and result ids. */
  predicate SameSkeleton(a: seq<Message>, b: seq<Message>) {
    && |a| == |b|
    && forall i :: 0 <= i < |a| ==> SameHead(a[i], b[i])
  }

  predicate SameHead(a: Message, b: Message) {
    a.role == b.role && a.toolCalls == b.toolCalls && a.toolCallId == b.toolCallId
  }

  lemma {:induction false} SkeletonRun(open: Option<seq<string>>, a: seq<Message>, b: seq<Message>)
    requires SameSkeleton(a, b)
    ensures Run(open, a) == Run(open, b)
    decreases |a|
  {
    if a != [] {
      assert SameHead(a[0], b[0]);
      assert SameSkeleton(a[1..], b[1..]) by {
        forall i | 0 <= i < |a[1..]| ensures SameHead(a[1..][i], b[1..][i]) {
          assert SameHead(a[i + 1], b[i + 1]);
        }
      }
      SkeletonRun(Step(open, a[0]), a[1..], b[1..]);
    }
  }

  // ---- Call ids ----

  function IdSet(calls: seq<ToolCall>): set<string> {
    set c | c in calls :: Trim(c.id)
  }

  /** All calls of the list, in order. */
  function AllCalls(ms: seq<Message>): seq<ToolCall> {
    if ms == [] then [] else Calls(ms[0]) + AllCalls(ms[1..])
  }

  lemma {:induction false} AllCallsConcat(a: seq<Message>, b: seq<Message>)
    ensures AllCalls(a + b) == AllCalls(a) + AllCalls(b)
  {
    hide Calls;
    if a == [] {
      assert a + b == b;
    } else {
      assert (a + b)[1..] == a[1..] + b;
      AllCallsConcat(a[1..], b);
    }
  }

  lemma AllCallsOne(m: Message)
    ensures AllCalls([m]) == Calls(m)
  {
    assert [m][1..] == [];
  }

  lemma NoCallsInNothing()
    ensures AllCalls([]) == []
  {
  }

  lemma {:induction false} SkeletonCalls(a: seq<Message>, b: seq<Message>)
    requires SameSkeleton(a, b)
    ensures AllCalls(a) == AllCalls(b)
    decreases |a|
  {
    if a != [] {
      assert SameHead(a[0], b[0]);
      forall i | 0 <= i < |a[1..]| ensures SameHead(a[1..][i], b[1..][i]) { assert SameHead(a[i + 1], b[i + 1]); }
      SkeletonCalls(a[1..], b[1..]);
    }
  }

  /** The tool messages of a list, in order. */
  function AllResults(ms: seq<Message>): seq<Message> {
    if ms == [] then [] else (if ms[0].role == Tool then [ms[0]] else []) + AllResults(ms[1..])
  }

  lemma {:induction false} AllResultsConcat(a: seq<Message>, b: seq<Message>)
    ensures AllResults(a + b) == AllResults(a) + AllResults(b)
  {
    if a == [] {
      assert a + b == b;
    } else {
      assert (a + b)[1..] == a[1..] + b;
      AllResultsConcat(a[1..], b);
    }
  }

  lemma AllResultsOne(m: Message)
    ensures AllResults([m]) == if m.role == Tool then [m] else []
  {
    assert [m][1..] == [];
  }

  /** Trimmed ids called anywhere in the list. */
  function CalledIds(ms: seq<Message>): set<string> {
    if ms == [] then {} else IdSet(Calls(ms[0])) + CalledIds(ms[1..])
  }

  lemma {:induction false} CallIsCalled(ms: seq<Message>, i: nat, k: nat)
    requires i < |ms| && k < |Calls(ms[i])|
    ensures Trim(Calls(ms[i])[k].id) in CalledIds(ms)
  {
    hide Trim;
    if i > 0 { CallIsCalled(ms[1..], i - 1, k); } else { assert Calls(ms[0])[k] in Calls(ms[0]); }
  }

  /** No call repeats the id of an earlier one, nor an id in `seen`. */
  predicate FreshCalls(calls: seq<ToolCall>, seen: set<string>) {
    calls == [] || (Trim(calls[0].id) !in seen && FreshCalls(calls[1..], seen + {Trim(calls[0].id)}))
  }

  predicate DistinctCalls(ms: seq<Message>, seen: set<string>) {
    ms == [] || (FreshCalls(Calls(ms[0]), seen) && DistinctCalls(ms[1..], seen + IdSet(Calls(ms[0]))))
  }

  predicate CleanCalls(calls: seq<ToolCall>) {
    forall k :: 0 <= k < |calls| ==> Trimmed(calls[k].id) && calls[k].id != ""
  }

  /** Ids as `ValidateOpenAICompatToolCalls` leaves them: trimmed and not empty. */
  predicate CleanCallIds(ms: seq<Message>) {
    forall i :: 0 <= i < |ms| ==> CleanCalls(Calls(ms[i]))
  }

  /** The hypotheses the pipeline needs of its input. */
  predicate Ready(ms: seq<Message>) {
    BlockForm(ms) && DistinctCalls(ms, {}) && CleanCallIds(ms)
  }

  // ---- A list in block form whose call id has white space around it ----

  function UntrimmedCall(): seq<Message> {
    [Message(Assistant, "", [], "", [ToolCall(None, " ab", "function", "f", "")], ""),
     Message(Tool, "", [], "f", [], "ab")]
  }

  lemma UntrimmedCallPairs()
    ensures BlockForm(UntrimmedCall()) && DistinctCalls(UntrimmedCall(), {})
    ensures CalledIds(UntrimmedCall()) == {"ab"} && !Trimmed(" ab")
  {
    var ms := UntrimmedCall();
    var head, result, call := ms[0], ms[1], ms[0].toolCalls[0];
    assert TrimLeft(" ab") == "ab" by { assert " ab"[1..] == "ab"; }
    TrimmedEnds("ab");
    hide Trim;
    assert ms[1..] == [result] && [result][1..] == [] && [call][1..] == [];
    assert TrimmedIds(Calls(head)) == ["ab"];
    assert Step(Some([]), head) == Some(["ab"]) && Step(Some(["ab"]), result) == Some([]);
    assert Run(Some(["ab"]), [result]) == Some([]);
    assert DistinctCalls([result], {} + IdSet(Calls(head))) && CalledIds([result]) == {};
  }
}
