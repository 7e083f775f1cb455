/**
 What `SanitizeOpenAICompatMessages` produces, exactly: the flattenings of normal turn lists.
 Block form, no adjacent system messages and idempotence follow for every input.
 */
module OpenAISanitizerTheorems {
  import opened Text
  import opened Messages
  import opened OpenAISanitizer

  /** One unit of sanitized history. */
  datatype Turn =
    | SystemTurn(text: string)
    | UserTurn(text: string)
    | PartsTurn(parts: seq<Part>)
    | AssistantTurn(text: string)
    | CallTurn(text: string, calls: seq<ToolCall>, responded: map<string, Message>)

  function Emit(t: Turn): seq<Message> {
    match t
    case SystemTurn(text) => [PlainMessage(System, text)]
    case UserTurn(text) => [PlainMessage(User, text)]
    case PartsTurn(parts) => [PlainMessage(User, "").(parts := parts)]
    case AssistantTurn(text) => [PlainMessage(Assistant, text)]
    case CallTurn(text, calls, responded) => Block(text, calls, responded)
  }

  /** Nothing in the turn is left to clean. */
  predicate NormalTurn(t: Turn) {
    match t
    case SystemTurn(text) => text != "" && Trimmed(text)
    case UserTurn(text) => text != "" && Trimmed(text)
    case PartsTurn(parts) => parts != [] && CleanParts(parts) == parts
    case AssistantTurn(text) => text != "" && Trimmed(text)
    case CallTurn(text, calls, responded) =>
      && Trimmed(text) && calls != []
      && ValidateCalls(calls) == Some(calls)
      && Filed(responded) && AnsweredCalls(calls, responded) == calls
  }

  /** Every turn is normal and no two system turns are adjacent. */
  predicate Normal(ts: seq<Turn>) {
    && (forall i :: 0 <= i < |ts| ==> NormalTurn(ts[i]))
    && (forall i :: 0 < i < |ts| ==> !(ts[i - 1].SystemTurn? && ts[i].SystemTurn?))
  }

  function Flatten(ts: seq<Turn>): seq<Message> {
    if ts == [] then [] else Flatten(ts[..|ts| - 1]) + Emit(ts[|ts| - 1])
  }

  lemma FlattenSnoc(ts: seq<Turn>, t: Turn)
    ensures Flatten(ts + [t]) == Flatten(ts) + Emit(t)
  {
    assert (ts + [t])[..|ts|] == ts;
  }

  // ---- Blocks ----

  lemma {:induction false} ResultsShape(calls: seq<ToolCall>, responded: map<string, Message>)
    requires AnsweredCalls(calls, responded) == calls
    ensures |ResultsFor(calls, responded)| == |calls|
    ensures forall k :: 0 <= k < |calls| ==> calls[k].id in responded
    ensures forall k :: 0 <= k < |calls| ==> ResultsFor(calls, responded)[k] == responded[calls[k].id]
  {
    if calls != [] {
      AnsweredShrinks(calls[1..], responded);
      assert calls[0].id in responded;
      assert AnsweredCalls(calls, responded)[1..] == AnsweredCalls(calls[1..], responded);
      ResultsShape(calls[1..], responded);
      forall k | 0 < k < |calls| ensures calls[k] == calls[1..][k - 1] {}
    }
  }

  lemma {:induction false} AnsweredShrinks(calls: seq<ToolCall>, responded: map<string, Message>)
    ensures |AnsweredCalls(calls, responded)| <= |calls|
  {
    if calls != [] { AnsweredShrinks(calls[1..], responded); }
  }

  lemma {:induction false} AnsweredTwice(calls: seq<ToolCall>, responded: map<string, Message>)
    ensures AnsweredCalls(AnsweredCalls(calls, responded), responded) == AnsweredCalls(calls, responded)
  {
    if calls != [] { AnsweredTwice(calls[1..], responded); }
  }

  /** Any sublist of usable calls validates to itself. */
  lemma UsableStayValid(m: Message, calls: seq<ToolCall>)
    requires forall c :: c in calls ==> c in UsableCalls(m)
    ensures ValidateCalls(calls) == Some(calls)
  {
    hide ValidateCall;
    ValidateCallsEach(m.toolCalls);
    ValidateCallsEach(calls);
    forall k | 0 <= k < |calls| ensures ValidateCall(calls[k]) == Some(calls[k]) {
      assert calls[k] in UsableCalls(m);
      var j :| 0 <= j < |m.toolCalls| && ValidateCall(m.toolCalls[j]) == Some(calls[k]);
      ValidateCallIdempotent(m.toolCalls[j]);
    }
    if ValidateCalls(calls).Some? { assert ValidateCalls(calls).value == calls; }
  }

  /** Results filed under their own ids answer their calls in order. */
  lemma {:induction false} ResultsRun(calls: seq<ToolCall>, responded: map<string, Message>)
    requires Filed(responded) && AnsweredCalls(calls, responded) == calls
    ensures Run(Some(TrimmedIds(calls)), ResultsFor(calls, responded)) == Some([])
  {
    hide Trim;
    if calls != [] {
      ResultsShape(calls, responded);
      assert AnsweredCalls(calls, responded)[1..] == AnsweredCalls(calls[1..], responded);
      ResultsRun(calls[1..], responded);
      var r := responded[calls[0].id];
      assert CleanResult(r) == r && r.toolCallId == calls[0].id;
      assert Step(Some(TrimmedIds(calls)), r) == Some(TrimmedIds(calls[1..]));
      assert ResultsFor(calls, responded)[1..] == ResultsFor(calls[1..], responded);
    }
  }

  lemma EmitIsBlockForm(t: Turn)
    requires NormalTurn(t)
    ensures BlockForm(Emit(t))
  {
    hide Trim, ValidateCalls;
    if t.CallTurn? {
      ResultsRun(t.calls, t.responded);
      var head := PlainMessage(Assistant, t.text).(toolCalls := t.calls);
      assert Emit(t)[1..] == ResultsFor(t.calls, t.responded);
    } else {
      assert Emit(t) == [] + [Emit(t)[0]];
      RunSnoc(Some([]), [], Emit(t)[0]);
    }
  }

  lemma {:induction false} FlattenIsBlockForm(ts: seq<Turn>)
    requires Normal(ts)
    ensures BlockForm(Flatten(ts))
  {
    hide NormalTurn, Emit;
    if ts != [] {
      FlattenIsBlockForm(ts[..|ts| - 1]);
      EmitIsBlockForm(ts[|ts| - 1]);
      BlockFormConcat(Flatten(ts[..|ts| - 1]), Emit(ts[|ts| - 1]));
    }
  }

  predicate NoAdjacentSystems(ms: seq<Message>) {
    forall i :: 0 < i < |ms| ==> !(ms[i - 1].role == System && ms[i].role == System)
  }

  /** A turn ends (and starts) with a system message exactly when it is a system turn. */
  lemma EmitEnds(t: Turn)
    requires NormalTurn(t)
    ensures Emit(t) != []
    ensures forall i :: 0 <= i < |Emit(t)| && Emit(t)[i].role == System ==> t.SystemTurn? && |Emit(t)| == 1
    ensures t.SystemTurn? ==> Emit(t)[0].role == System
    ensures Emit(t)[0].role != Tool && Canonical(Emit(t)[0].role) != Tool
  {
    hide Trim, ValidateCalls;
    if t.CallTurn? {
      ResultsShape(t.calls, t.responded);
      var results := ResultsFor(t.calls, t.responded);
      forall k | 0 <= k < |results| ensures results[k].role == Tool {
        assert CleanResult(results[k]) == results[k];
      }
    }
  }

  lemma {:induction false} FlattenNoAdjacentSystems(ts: seq<Turn>)
    requires Normal(ts)
    ensures NoAdjacentSystems(Flatten(ts))
    ensures ts != [] ==> Flatten(ts) != [] && (EndsWithSystem(Flatten(ts)) <==> ts[|ts| - 1].SystemTurn?)
  {
    hide NormalTurn, Emit;
    if ts != [] {
      FlattenNoAdjacentSystems(ts[..|ts| - 1]);
      EmitEnds(ts[|ts| - 1]);
    }
  }

  // ---- Every step of the sanitizer keeps the output a normal flattening ----

  /** The turns after reading the next message. */
  ghost function AbsorbTurn(ms: seq<Message>, ts: seq<Turn>): seq<Turn>
    requires ms != []
  {
    var m := ms[0];
    match Canonical(m.role)
    case System => AddText(ts, System, Trim(m.content))
    case User =>
      if m.parts == [] then AddText(ts, User, Trim(m.content))
      else if CleanParts(m.parts) == [] then ts
      else ts + [PartsTurn(CleanParts(m.parts))]
    case Assistant =>
      var n := ToolRun(ms[1..]);
      var responded := Responded(ms[1..n + 1], UsableCalls(m), map[]);
      var kept := AnsweredCalls(UsableCalls(m), responded);
      if kept != [] then ts + [CallTurn(Trim(m.content), kept, responded)]
      else if Trim(m.content) == "" then ts
      else ts + [AssistantTurn(Trim(m.content))]
    case _ => ts
  }

  ghost function AddText(ts: seq<Turn>, role: Role, text: string): seq<Turn> {
    if text == "" then ts
    else if role == User then ts + [UserTurn(text)]
    else if ts != [] && ts[|ts| - 1].SystemTurn? then
      ts[..|ts| - 1] + [SystemTurn(Trim(ts[|ts| - 1].text + "\n\n" + text))]
    else ts + [SystemTurn(text)]
  }

  lemma NormalSnoc(ts: seq<Turn>, t: Turn)
    requires Normal(ts) && NormalTurn(t)
    requires ts != [] ==> !(ts[|ts| - 1].SystemTurn? && t.SystemTurn?)
    ensures Normal(ts + [t])
  {
    hide NormalTurn;
  }

  /** Text that starts with a non-space does not trim to nothing. */
  lemma MergedTextStays(a: string, b: string)
    requires Trimmed(a) && a != ""
    ensures Trim(a + b) != "" && Trimmed(Trim(a + b))
  {
    TrimmedEnds(a);
    TrimIsSlice(a + b);
    TrimTwice(a + b);
    assert (a + b)[0] == a[0];
  }

  lemma AddTextKeeps(ts: seq<Turn>, role: Role, text: string)
    requires Normal(ts) && Trimmed(text) && (role == System || role == User)
    ensures Normal(AddText(ts, role, text)) && AppendText(Flatten(ts), role, text) == Flatten(AddText(ts, role, text))
  {
    hide Trim;
    FlattenNoAdjacentSystems(ts);
    if text == "" {
    } else if role == User {
      NormalSnoc(ts, UserTurn(text));
      FlattenSnoc(ts, UserTurn(text));
    } else if ts != [] && ts[|ts| - 1].SystemTurn? {
      var pre, last := ts[..|ts| - 1], ts[|ts| - 1];
      assert NormalTurn(last);
      MergedTextStays(last.text, "\n\n" + text);
      assert last.text + "\n\n" + text == last.text + ("\n\n" + text);
      var merged := SystemTurn(Trim(last.text + "\n\n" + text));
      NormalSnoc(pre, merged);
      FlattenSnoc(pre, merged);
      assert Flatten(ts) == Flatten(pre) + [PlainMessage(System, last.text)];
    } else {
      NormalSnoc(ts, SystemTurn(text));
      FlattenSnoc(ts, SystemTurn(text));
    }
  }

  lemma AddBlockKeeps(ts: seq<Turn>, m: Message, run: seq<Message>)
    requires Normal(ts)
    ensures
      var text, responded := Trim(m.content), Responded(run, UsableCalls(m), map[]);
      var kept := AnsweredCalls(UsableCalls(m), responded);
      kept != [] ==>
        && Normal(ts + [CallTurn(text, kept, responded)])
        && Flatten(ts + [CallTurn(text, kept, responded)]) == Flatten(ts) + Block(text, UsableCalls(m), responded)
  {
    hide Trim, UsableCalls, ValidateCalls, Responded;
    var text, responded := Trim(m.content), Responded(run, UsableCalls(m), map[]);
    var kept := AnsweredCalls(UsableCalls(m), responded);
    if kept != [] {
      TrimTwice(m.content);
      RespondedIsFiled(run, UsableCalls(m), map[]);
      AnsweredTwice(UsableCalls(m), responded);
      KeptAreAnswered(UsableCalls(m), responded);
      UsableStayValid(m, kept);
      NormalSnoc(ts, CallTurn(text, kept, responded));
      FlattenSnoc(ts, CallTurn(text, kept, responded));
    }
  }

  lemma NoUsableCallsNoBlock(m: Message, run: seq<Message>)
    requires UsableCalls(m) == []
    ensures AnsweredCalls(UsableCalls(m), Responded(run, UsableCalls(m), map[])) == []
  {
  }

  lemma AbsorbKeeps(ms: seq<Message>, ts: seq<Turn>)
    requires ms != [] && Normal(ts)
    ensures Normal(AbsorbTurn(ms, ts)) && Absorb(ms, Flatten(ts)) == Flatten(AbsorbTurn(ms, ts))
  {
    hide Trim, Canonical, UsableCalls, Responded, CleanParts, AddText, AppendText, ToolRun;
    var m := ms[0];
    TrimTwice(m.content);
    if Canonical(m.role) == System || (Canonical(m.role) == User && m.parts == []) {
      AddTextKeeps(ts, Canonical(m.role), Trim(m.content));
    } else if Canonical(m.role) == User && CleanParts(m.parts) != [] {
      CleanPartsIdempotent(m.parts);
      NormalSnoc(ts, PartsTurn(CleanParts(m.parts)));
      FlattenSnoc(ts, PartsTurn(CleanParts(m.parts)));
    } else if Canonical(m.role) == Assistant {
      var run := ms[1..ToolRun(ms[1..]) + 1];
      AddBlockKeeps(ts, m, run);
      if UsableCalls(m) == [] { NoUsableCallsNoBlock(m, run); }
      if Trim(m.content) != "" {
        NormalSnoc(ts, AssistantTurn(Trim(m.content)));
        FlattenSnoc(ts, AssistantTurn(Trim(m.content)));
      }
    }
  }

  lemma {:induction false} SanitizeIsNormalFrom(ms: seq<Message>, ts: seq<Turn>) returns (out: seq<Turn>)
    requires Normal(ts)
    ensures Normal(out) && Sanitize(ms, Flatten(ts)) == Flatten(out)
    decreases |ms|
  {
    hide Normal, Absorb, AbsorbTurn, Consumed;
    if ms == [] { return ts; }
    AbsorbKeeps(ms, ts);
    ConsumedBound(ms);
    out := SanitizeIsNormalFrom(ms[Consumed(ms)..], AbsorbTurn(ms, ts));
  }

  // ---- Normal flattenings are read back unchanged ----

  function FlattenFront(ts: seq<Turn>): seq<Message> {
    if ts == [] then [] else Emit(ts[0]) + FlattenFront(ts[1..])
  }

  lemma {:induction false} FlattenAppend(a: seq<Turn>, b: seq<Turn>)
    ensures Flatten(a + b) == Flatten(a) + FlattenFront(b)
    decreases |b|
  {
    hide Emit;
    if b == [] {
      assert a + b == a;
    } else {
      FlattenSnoc(a, b[0]);
      FlattenAppend(a + [b[0]], b[1..]);
      assert a + b == a + [b[0]] + b[1..];
    }
  }

  /** Reading back the results of a block: the same map entries, the same calls kept, the same results. */
  lemma {:induction false} RespondedAgain(
    calls: seq<ToolCall>, rest: seq<ToolCall>, responded: map<string, Message>, acc: map<string, Message>)
    requires Filed(responded) && AnsweredCalls(rest, responded) == rest
    requires forall k :: 0 <= k < |rest| ==> HasCall(calls, rest[k].id)
    requires forall id :: id in acc ==> id in responded && acc[id] == responded[id]
    ensures
      var again := Responded(ResultsFor(rest, responded), calls, acc);
      && (forall id :: id in again ==> id in responded && again[id] == responded[id])
      && (forall id :: id in acc ==> id in again)
      && (forall k :: 0 <= k < |rest| ==> rest[k].id in again)
    decreases |rest|
  {
    hide Trim;
    if rest != [] {
      ResultsShape(rest, responded);
      var id := rest[0].id;
      var r := responded[id];
      assert CleanResult(r) == r && r.toolCallId == id && Trim(r.toolCallId) == id;
      assert AnsweredCalls(rest, responded)[1..] == AnsweredCalls(rest[1..], responded);
      var results := ResultsFor(rest, responded);
      assert results[0] == r && results[1..] == ResultsFor(rest[1..], responded);
      RespondedAgain(calls, rest[1..], responded, acc[id := r]);
      forall k | 0 < k < |rest| ensures rest[k] == rest[1..][k - 1] {}
    }
  }

  lemma {:induction false} AgreeingMaps(calls: seq<ToolCall>, a: map<string, Message>, b: map<string, Message>)
    requires forall k :: 0 <= k < |calls| ==> calls[k].id in a && calls[k].id in b && a[calls[k].id] == b[calls[k].id]
    ensures AnsweredCalls(calls, a) == calls && ResultsFor(calls, a) == ResultsFor(calls, b)
  {
    if calls != [] { AgreeingMaps(calls[1..], a, b); }
  }

  lemma {:induction false} ToolRunIs(results: seq<Message>, rest: seq<Message>)
    requires forall k :: 0 <= k < |results| ==> results[k].role == Tool
    requires rest != [] ==> Canonical(rest[0].role) != Tool
    ensures ToolRun(results + rest) == |results|
  {
    if results == [] {
      assert results + rest == rest;
    } else {
      assert (results + rest)[1..] == results[1..] + rest;
      ToolRunIs(results[1..], rest);
    }
  }

  lemma CallIsThere(calls: seq<ToolCall>, k: nat)
    requires k < |calls|
    ensures HasCall(calls, calls[k].id)
  {
  }

  lemma SameBlockAgain(t: Turn)
    requires NormalTurn(t) && t.CallTurn?
    ensures
      var results := ResultsFor(t.calls, t.responded);
      && |results| == |t.calls|
      && (forall k :: 0 <= k < |results| ==> results[k].role == Tool)
      && Block(t.text, t.calls, Responded(results, t.calls, map[])) == Emit(t)
  {
    hide Trim, ValidateCalls, Responded, ToolRun, HasCall;
    var results := ResultsFor(t.calls, t.responded);
    ResultsShape(t.calls, t.responded);
    forall k | 0 <= k < |results| ensures results[k].role == Tool {
      assert CleanResult(results[k]) == results[k];
    }
    forall k | 0 <= k < |t.calls| ensures HasCall(t.calls, t.calls[k].id) { CallIsThere(t.calls, k); }
    RespondedAgain(t.calls, t.calls, t.responded, map[]);
    AgreeingMaps(t.calls, Responded(results, t.calls, map[]), t.responded);
  }

  lemma ReadBlock(t: Turn, rest: seq<Message>, acc: seq<Message>)
    requires NormalTurn(t) && t.CallTurn?
    requires rest != [] ==> Canonical(rest[0].role) != Tool
    ensures
      var ms := Emit(t) + rest;
      Consumed(ms) == |Emit(t)| && Absorb(ms, acc) == acc + Emit(t)
  {
    hide Trim, ValidateCalls, Responded, AnsweredCalls, ResultsFor, ToolRun, Filed;
    var ms := Emit(t) + rest;
    var results := ResultsFor(t.calls, t.responded);
    SameBlockAgain(t);
    assert UsableCalls(ms[0]) == t.calls;
    assert ms[1..] == results + rest;
    ToolRunIs(results, rest);
    assert ms[1..|results| + 1] == results;
  }

  lemma ReadPlain(t: Turn, rest: seq<Message>, acc: seq<Message>)
    requires NormalTurn(t) && !t.CallTurn?
    requires t.SystemTurn? ==> !EndsWithSystem(acc)
    ensures
      var ms := Emit(t) + rest;
      Consumed(ms) == 1 && |Emit(t)| == 1 && Absorb(ms, acc) == acc + Emit(t)
  {
    hide Trim, ToolRun, Responded, ValidateCall, Block;
    var ms := Emit(t) + rest;
    assert ms[0] == Emit(t)[0];
    assert ms[0].toolCalls == [];
    assert UsableCalls(ms[0]) == [];
  }

  lemma ReadTurn(t: Turn, rest: seq<Message>, acc: seq<Message>)
    requires NormalTurn(t)
    requires rest != [] ==> Canonical(rest[0].role) != Tool
    requires t.SystemTurn? ==> !EndsWithSystem(acc)
    ensures Emit(t) != [] && Sanitize(Emit(t) + rest, acc) == Sanitize(rest, acc + Emit(t))
  {
    hide Absorb, Consumed, NormalTurn, Emit, Canonical;
    EmitEnds(t);
    if t.CallTurn? { ReadBlock(t, rest, acc); } else { ReadPlain(t, rest, acc); }
    assert (Emit(t) + rest)[|Emit(t)|..] == rest;
  }

  lemma {:induction false} ReadBack(done: seq<Turn>, todo: seq<Turn>)
    requires Normal(done + todo)
    ensures Sanitize(FlattenFront(todo), Flatten(done)) == Flatten(done + todo)
    decreases |todo|
  {
    hide NormalTurn, Emit, Sanitize, Canonical;
    if todo == [] {
      assert done + todo == done;
      assert FlattenFront(todo) == [];
      assert Sanitize([], Flatten(done)) == Flatten(done) by { SanitizeNothing(Flatten(done)); }
    } else {
      var t := todo[0];
      NormalAround(done, todo);
      FlattenNoAdjacentSystems(done);
      if |todo| > 1 { EmitEnds(todo[1]); }
      ReadTurn(t, FlattenFront(todo[1..]), Flatten(done));
      FlattenSnoc(done, t);
      assert done + todo == (done + [t]) + todo[1..];
      ReadBack(done + [t], todo[1..]);
    }
  }

  lemma SanitizeNothing(acc: seq<Message>)
    ensures Sanitize([], acc) == acc
  {
  }

  lemma NormalAround(done: seq<Turn>, todo: seq<Turn>)
    requires Normal(done + todo) && todo != []
    ensures Normal(done) && NormalTurn(todo[0]) && (|todo| > 1 ==> NormalTurn(todo[1]))
    ensures done != [] && todo[0].SystemTurn? ==> !done[|done| - 1].SystemTurn?
  {
    hide NormalTurn;
    NormalPrefix(done, todo);
    assert (done + todo)[|done|] == todo[0];
    if |todo| > 1 { assert (done + todo)[|done| + 1] == todo[1]; }
    if done != [] { assert (done + todo)[|done| - 1] == done[|done| - 1]; }
  }

  lemma NormalPrefix(a: seq<Turn>, b: seq<Turn>)
    requires Normal(a + b)
    ensures Normal(a)
  {
    hide NormalTurn;
    forall i | 0 <= i < |a| ensures NormalTurn(a[i]) && (i > 0 ==> !(a[i - 1].SystemTurn? && a[i].SystemTurn?)) {
      assert (a + b)[i] == a[i];
      if i > 0 { assert (a + b)[i - 1] == a[i - 1]; }
    }
  }

  // ---- The theorems ----

  /** On any message list the result is the flattening of a normal turn list. */
  lemma SanitizeIsNormal(ms: seq<Message>)
    ensures exists ts :: Normal(ts) && Sanitize(ms, []) == Flatten(ts)
  {
    hide Normal, Sanitize;
    assert Normal([]) by { NormalEmpty(); }
    var ts := SanitizeIsNormalFrom(ms, []);
  }

  lemma NormalEmpty()
    ensures Normal([])
  {
  }

  /** The lists the sanitizer leaves alone are exactly the normal flattenings. */
  lemma FixedPoints(ms: seq<Message>)
    ensures Sanitize(ms, []) == ms <==> exists ts :: Normal(ts) && ms == Flatten(ts)
  {
    hide Normal, Sanitize;
    if Sanitize(ms, []) == ms { SanitizeIsNormal(ms); }
    if exists ts :: Normal(ts) && ms == Flatten(ts) {
      var ts :| Normal(ts) && ms == Flatten(ts);
      assert [] + ts == ts && [] + FlattenFront(ts) == FlattenFront(ts);
      FlattenAppend([], ts);
      assert Flatten([]) == [];
      ReadBack([], ts);
    }
  }

  lemma SanitizeIdempotent(ms: seq<Message>)
    ensures Sanitize(Sanitize(ms, []), []) == Sanitize(ms, [])
  {
    hide Normal, Sanitize;
    SanitizeIsNormal(ms);
    FixedPoints(Sanitize(ms, []));
  }

  /** Whatever the input, calls and results pair up and no two system messages are adjacent. */
  lemma SanitizeIsBlockForm(ms: seq<Message>)
    ensures BlockForm(Sanitize(ms, [])) && NoAdjacentSystems(Sanitize(ms, []))
  {
    hide Normal, Sanitize;
    SanitizeIsNormal(ms);
    var ts :| Normal(ts) && Sanitize(ms, []) == Flatten(ts);
    FlattenIsBlockForm(ts);
    FlattenNoAdjacentSystems(ts);
  }
}
