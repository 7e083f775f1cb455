/** `SanitizeOpenAICompatMessages`: any message list at all becomes a list in block form, once and for all. */
module OpenAISanitizer {
  import opened Text
  import opened Messages

  // ---- Roles, calls, parts ----

  function ParseRole(s: string): Role {
    if s == "system" then System
    else if s == "user" then User
    else if s == "assistant" then Assistant
    else if s == "tool" then Tool
    else Other(s)
  }

  /** The role after lower-casing and trimming, as the sanitizer compares it. */
  function Canonical(r: Role): Role {
    if r.Other? then ParseRole(Trim(Lower(r.raw))) else r
  }

  /** A role in any case, with white space around it, is read as the one it spells, and no other text as any. */
  lemma RolesAreRead(raw: string)
    ensures
      var role, name := Canonical(Other(raw)), Trim(Lower(raw));
      && (role == System <==> name == "system") && (role == User <==> name == "user")
      && (role == Assistant <==> name == "assistant") && (role == Tool <==> name == "tool")
  {
    hide Trim, Lower;
  }

  /** One provider call, cleaned; None when the id or name is blank or the kind is not "function". */
  function ValidateCall(c: ToolCall): Option<ToolCall> {
    var kind := if Trim(c.kind) == "" then "function" else c.kind;
    if Trim(c.id) == "" || Trim(kind) != "function" || Trim(c.name) == "" then None
    else Some(c.(id := Trim(c.id), kind := kind, name := Trim(c.name)))
  }

  /** The source's tests: an id, a name, and the kind "function" or none. */
  predicate Acceptable(c: ToolCall) {
    Trim(c.id) != "" && Trim(c.name) != "" && (Trim(c.kind) == "" || Trim(c.kind) == "function")
  }

  /** `c` is the same call with trimmed id and name, and with the kind "function" if it had none. */
  predicate IsCleaned(raw: ToolCall, c: ToolCall) {
    && c.id == Trim(raw.id) && c.name == Trim(raw.name) && c.arguments == raw.arguments && c.index == raw.index
    && c.kind == if Trim(raw.kind) == "" then "function" else raw.kind
  }

  predicate AllAcceptable(calls: seq<ToolCall>) {
    forall k :: 0 <= k < |calls| ==> Acceptable(calls[k])
  }

  predicate AllCleaned(raw: seq<ToolCall>, calls: seq<ToolCall>) {
    |calls| == |raw| && forall k :: 0 <= k < |raw| ==> IsCleaned(raw[k], calls[k])
  }

  lemma ValidateCallIs(c: ToolCall)
    ensures ValidateCall(c).Some? <==> Acceptable(c)
    ensures ValidateCall(c).Some? ==> IsCleaned(c, ValidateCall(c).value)
  {
    hide Trim;
    FunctionIsTrimmed();
  }

  lemma ValidateCallIdempotent(c: ToolCall)
    requires ValidateCall(c).Some?
    ensures ValidateCall(ValidateCall(c).value) == ValidateCall(c)
    ensures Trimmed(ValidateCall(c).value.id) && ValidateCall(c).value.id != ""
  {
    hide Trim;
    TrimTwice(c.id);
    TrimTwice(c.name);
    FunctionIsTrimmed();
  }

  lemma FunctionIsTrimmed()
    ensures Trim("function") == "function"
  {
    TrimmedEnds("function");
  }

  /** All the calls cleaned, or None when one of them is rejected. */
  function ValidateCalls(calls: seq<ToolCall>): Option<seq<ToolCall>> {
    if calls == [] then Some([])
    else Prepend(ValidateCall(calls[0]), ValidateCalls(calls[1..]))
  }

  function Prepend<T>(head: Option<T>, tail: Option<seq<T>>): Option<seq<T>> {
    if head.None? || tail.None? then None else Some([head.value] + tail.value)
  }

  /** A list is accepted exactly when each of its calls is, and then call by call. */
  lemma {:induction false} ValidateCallsEach(calls: seq<ToolCall>)
    ensures ValidateCalls(calls).Some? <==> forall k :: 0 <= k < |calls| ==> ValidateCall(calls[k]).Some?
    ensures ValidateCalls(calls).Some? ==>
              var v := ValidateCalls(calls).value;
              && |v| == |calls|
              && forall k :: 0 <= k < |v| ==> ValidateCall(calls[k]) == Some(v[k])
  {
    hide ValidateCall;
    if calls != [] {
      ValidateCallsEach(calls[1..]);
      forall k | 0 <= k < |calls| ensures k > 0 ==> calls[k] == calls[1..][k - 1] {}
    }
  }

  /** Calls are accepted together or not at all, and keep their contents. */
  lemma ValidateCallsAre(calls: seq<ToolCall>)
    ensures ValidateCalls(calls).Some? <==> AllAcceptable(calls)
    ensures ValidateCalls(calls).Some? ==> AllCleaned(calls, ValidateCalls(calls).value)
  {
    hide ValidateCall, Acceptable, IsCleaned;
    ValidateCallsEach(calls);
    forall k | 0 <= k < |calls|
      ensures ValidateCall(calls[k]).Some? <==> Acceptable(calls[k])
      ensures ValidateCall(calls[k]).Some? ==> IsCleaned(calls[k], ValidateCall(calls[k]).value)
    {
      ValidateCallIs(calls[k]);
    }
  }

  method ValidateOpenAICompatToolCalls(calls: seq<ToolCall>) returns (validated: Option<seq<ToolCall>>)
    ensures validated == ValidateCalls(calls)
    ensures validated.Some? <==> AllAcceptable(calls)
    ensures validated.Some? ==> AllCleaned(calls, validated.value)
  {
    ValidateCallsAre(calls);
    hide AllAcceptable, AllCleaned;
    hide Trim;
    ValidateCallsEach(calls);
    var out: seq<ToolCall> := [];
    for i := 0 to |calls|
      invariant |out| == i
      invariant forall k :: 0 <= k < i ==> ValidateCall(calls[k]) == Some(out[k])
    {
      var call := calls[i];
      var callId := Trim(call.id);
      if callId == "" { return None; }
      if Trim(call.kind) == "" { call := call.(kind := "function"); }
      if Trim(call.kind) != "function" { return None; }
      call := call.(name := Trim(call.name));
      if call.name == "" { return None; }
      out := out + [call.(id := callId)];
    }
    assert out == ValidateCalls(calls).value;
    return Some(out);
  }

  /** The calls of an assistant message that can be kept at all: none if one of them is malformed. */
  function UsableCalls(m: Message): seq<ToolCall> {
    var v := ValidateCalls(m.toolCalls);
    if v.Some? then v.value else []
  }

  function CleanPart(p: Part): Option<Part> {
    match p
    case TextPart(text) => if Trim(text) == "" then None else Some(TextPart(Trim(text)))
    case ImagePart(url) => if url.None? || Trim(url.value) == "" then None else Some(p)
    case OtherPart(_) => None
  }

  function CleanParts(parts: seq<Part>): seq<Part> {
    if parts == [] then []
    else if CleanPart(parts[0]).Some? then [CleanPart(parts[0]).value] + CleanParts(parts[1..])
    else CleanParts(parts[1..])
  }

  lemma {:induction false} CleanPartsIdempotent(parts: seq<Part>)
    ensures CleanParts(CleanParts(parts)) == CleanParts(parts)
  {
    hide Trim;
    if parts != [] {
      CleanPartsIdempotent(parts[1..]);
      if parts[0].TextPart? { TrimTwice(parts[0].text); }
    }
  }

  method SanitizeOpenAICompatMultiContent(parts: seq<Part>) returns (filtered: seq<Part>)
    ensures filtered == CleanParts(parts)
  {
    hide Trim;
    filtered := [];
    for i := 0 to |parts|
      invariant filtered + CleanParts(parts[i..]) == CleanParts(parts)
    {
      assert parts[i..][1..] == parts[i + 1..];
      match parts[i] {
        case TextPart(text) =>
          if Trim(text) != "" { filtered := filtered + [TextPart(Trim(text))]; }
        case ImagePart(url) =>
          if url.Some? && Trim(url.value) != "" { filtered := filtered + [ImagePart(url)]; }
        case OtherPart(_) =>
      }
    }
  }

  // ---- Results that follow an assistant message ----

  function PlainMessage(role: Role, text: string): Message {
    Message(role, text, [], "", [], "")
  }

  function CleanResult(m: Message): Message {
    Message(Tool, Trim(m.content), [], Trim(m.name), [], Trim(m.toolCallId))
  }

  predicate HasCall(calls: seq<ToolCall>, id: string) {
    exists k :: 0 <= k < |calls| && calls[k].id == id
  }

  /** How many tool messages the list starts with. */
  function ToolRun(ms: seq<Message>): (n: nat)
    ensures n <= |ms| && forall k :: 0 <= k < n ==> Canonical(ms[k].role) == Tool
    ensures n < |ms| ==> Canonical(ms[n].role) != Tool
  {
    if ms != [] && Canonical(ms[0].role) == Tool then 1 + ToolRun(ms[1..]) else 0
  }

  /** The result recorded for each called id: the last one of the run wins. */
  function Responded(run: seq<Message>, calls: seq<ToolCall>, acc: map<string, Message>): map<string, Message> {
    if run == [] then acc
    else
      var id := Trim(run[0].toolCallId);
      Responded(run[1..], calls, if id != "" && HasCall(calls, id) then acc[id := CleanResult(run[0])] else acc)
  }

  /** Every entry is a cleaned result filed under its own id. */
  predicate Filed(responded: map<string, Message>) {
    forall id :: id in responded ==>
                   CleanResult(responded[id]) == responded[id] && responded[id].toolCallId == id && id != ""
  }

  lemma {:induction false} RespondedIsFiled(run: seq<Message>, calls: seq<ToolCall>, acc: map<string, Message>)
    requires Filed(acc)
    ensures Filed(Responded(run, calls, acc))
  {
    hide Trim;
    if run != [] {
      var id := Trim(run[0].toolCallId);
      TrimTwice(run[0].toolCallId);
      TrimTwice(run[0].content);
      TrimTwice(run[0].name);
      RespondedIsFiled(run[1..], calls, if id != "" && HasCall(calls, id) then acc[id := CleanResult(run[0])] else acc);
    }
  }

  function AnsweredCalls(calls: seq<ToolCall>, responded: map<string, Message>): seq<ToolCall> {
    if calls == [] then []
    else if calls[0].id in responded then [calls[0]] + AnsweredCalls(calls[1..], responded)
    else AnsweredCalls(calls[1..], responded)
  }

  /** The recorded results of these calls, in call order. */
  function ResultsFor(calls: seq<ToolCall>, responded: map<string, Message>): seq<Message> {
    if calls == [] then []
    else if calls[0].id in responded then [responded[calls[0].id]] + ResultsFor(calls[1..], responded)
    else ResultsFor(calls[1..], responded)
  }

  /** What an assistant message with usable calls leaves: the answered calls with their results, or just its text. */
  function Block(text: string, calls: seq<ToolCall>, responded: map<string, Message>): seq<Message> {
    var kept := AnsweredCalls(calls, responded);
    if kept == [] then TextOnly(text)
    else [PlainMessage(Assistant, text).(toolCalls := kept)] + ResultsFor(kept, responded)
  }

  function TextOnly(text: string): seq<Message> {
    if text == "" then [] else [PlainMessage(Assistant, text)]
  }

  // ---- The sanitizer ----

  predicate EndsWithSystem(acc: seq<Message>) {
    acc != [] && acc[|acc| - 1].role == System
  }

  /** `acc` after a system or user message with this (trimmed) text: adjacent system messages merge. */
  function AppendText(acc: seq<Message>, role: Role, text: string): seq<Message> {
    if text == "" then acc
    else if role == System && EndsWithSystem(acc) then
      var last := acc[|acc| - 1];
      acc[..|acc| - 1] + [last.(content := Trim(last.content + "\n\n" + text))]
    else acc + [PlainMessage(role, text)]
  }

  function AppendParts(acc: seq<Message>, parts: seq<Part>): seq<Message> {
    if parts == [] then acc else acc + [PlainMessage(User, "").(parts := parts)]
  }

  /** How many messages are read at once: an assistant message with usable calls takes its tool run along. */
  function Consumed(ms: seq<Message>): nat
    requires ms != []
  {
    if Canonical(ms[0].role) == Assistant && UsableCalls(ms[0]) != [] then 1 + ToolRun(ms[1..]) else 1
  }

  /** The output after reading the next message (and its tool run). */
  function Absorb(ms: seq<Message>, acc: seq<Message>): seq<Message>
    requires ms != []
  {
    var m := ms[0];
    match Canonical(m.role)
    case System => AppendText(acc, System, Trim(m.content))
    case User =>
      if m.parts != [] then AppendParts(acc, CleanParts(m.parts)) else AppendText(acc, User, Trim(m.content))
    case Assistant =>
      if UsableCalls(m) == [] then acc + TextOnly(Trim(m.content))
      else
        var n := ToolRun(ms[1..]);
        acc + Block(Trim(m.content), UsableCalls(m), Responded(ms[1..n + 1], UsableCalls(m), map[]))
    case _ => acc
  }

  function Sanitize(ms: seq<Message>, acc: seq<Message>): seq<Message>
    decreases |ms|
  {
    if ms == [] then acc else Sanitize(ms[Consumed(ms)..], Absorb(ms, acc))
  }

  method SanitizeOpenAICompatMessages(messages: seq<Message>) returns (sanitized: seq<Message>)
    ensures sanitized == Sanitize(messages, [])
  {
    hide Consumed, Absorb;
    sanitized := [];
    var i := 0;
    while i < |messages|
      invariant 0 <= i <= |messages|
      invariant Sanitize(messages[i..], sanitized) == Sanitize(messages, [])
    {
      var n;
      ConsumedBound(messages[i..]);
      assert messages[i + Consumed(messages[i..])..] == messages[i..][Consumed(messages[i..])..];
      sanitized, n := SanitizeNext(messages[i..], sanitized);
      i := i + n;
    }
  }

  lemma ConsumedBound(ms: seq<Message>)
    requires ms != []
    ensures 1 <= Consumed(ms) <= |ms|
  {
  }

  /** One turn of the sanitizer's loop. */
  method SanitizeNext(todo: seq<Message>, before: seq<Message>) returns (sanitized: seq<Message>, n: nat)
    requires todo != []
    ensures n == Consumed(todo) <= |todo| && sanitized == Absorb(todo, before)
  {
    hide Trim, Canonical, CleanParts, AppendText, ValidateCalls, Block, Responded;
    var message := todo[0];
    var role := Canonical(message.role);
    var text := Trim(message.content);
    sanitized, n := before, 1;
    if role == System || role == User {
      if role == User && |message.parts| > 0 {
        var parts := SanitizeOpenAICompatMultiContent(message.parts);
        if |parts| > 0 { sanitized := sanitized + [PlainMessage(role, "").(parts := parts)]; }
      } else {
        sanitized := AppendPlain(sanitized, role, text);
      }
    } else if role == Assistant {
      var v := ValidateOpenAICompatToolCalls(message.toolCalls);
      var calls := if v.Some? then v.value else [];
      if |calls| == 0 {
        if text != "" { sanitized := sanitized + [PlainMessage(Assistant, text)]; }
      } else {
        var responded, run := CollectResults(todo[1..], calls);
        assert todo[1..run + 1] == todo[1..][..run];
        var block := EmitBlock(text, calls, responded);
        sanitized, n := sanitized + block, run + 1;
      }
    }
  }

  method AppendPlain(sanitized: seq<Message>, role: Role, text: string) returns (out: seq<Message>)
    ensures out == AppendText(sanitized, role, text)
  {
    hide Trim;
    out := sanitized;
    if text == "" { return; }
    if role == System && |out| > 0 && out[|out| - 1].role == role {
      var last := out[|out| - 1];
      out := out[|out| - 1 := last.(content := Trim(last.content + "\n\n" + text))];
    } else {
      out := out + [PlainMessage(role, text)];
    }
  }

  /** The assistant message that keeps the answered calls, then their results in call order. */
  method EmitBlock(text: string, calls: seq<ToolCall>, responded: map<string, Message>) returns (out: seq<Message>)
    ensures out == Block(text, calls, responded)
  {
    hide AnsweredCalls, ResultsFor;
    var kept := KeepAnswered(calls, responded);
    if |kept| == 0 {
      return if text == "" then [] else [PlainMessage(Assistant, text)];
    }
    KeptAreAnswered(calls, responded);
    var results := EmitResults(kept, responded);
    out := [PlainMessage(Assistant, text).(toolCalls := kept)] + results;
  }

  lemma NextResult(calls: seq<ToolCall>, responded: map<string, Message>)
    requires calls != [] && calls[0].id in responded
    ensures ResultsFor(calls, responded) == [responded[calls[0].id]] + ResultsFor(calls[1..], responded)
  {
  }

  lemma NoResults(responded: map<string, Message>)
    ensures ResultsFor([], responded) == []
  {
  }

  method EmitResults(kept: seq<ToolCall>, responded: map<string, Message>) returns (results: seq<Message>)
    requires forall c :: c in kept ==> c.id in responded
    ensures results == ResultsFor(kept, responded)
  {
    hide ResultsFor;
    NoResults(responded);
    results := [];
    assert kept[0..] == kept;
    for i := 0 to |kept|
      invariant results + ResultsFor(kept[i..], responded) == ResultsFor(kept, responded)
    {
      NextResult(kept[i..], responded);
      assert kept[i..][1..] == kept[i + 1..];
      results := results + [responded[kept[i].id]];
    }
    assert kept[|kept|..] == [];
  }

  lemma {:induction false} KeptAreAnswered(calls: seq<ToolCall>, responded: map<string, Message>)
    ensures forall c :: c in AnsweredCalls(calls, responded) ==> c in calls && c.id in responded
  {
    if calls != [] { KeptAreAnswered(calls[1..], responded); }
  }

  /** The loop over the tool messages after an assistant message, and how many there are. */
  method CollectResults(rest: seq<Message>, calls: seq<ToolCall>) returns (responded: map<string, Message>, n: nat)
    ensures n == ToolRun(rest) && responded == Responded(rest[..n], calls, map[])
  {
    hide Trim, CleanResult, Canonical;
    responded, n := map[], 0;
    ghost var run := rest[..ToolRun(rest)];
    while n < |rest| && Canonical(rest[n].role) == Tool
      invariant 0 <= n <= |run|
      invariant Responded(run[n..], calls, responded) == Responded(run, calls, map[])
    {
      var id := Trim(rest[n].toolCallId);
      assert run[n..][1..] == run[n + 1..];
      if id != "" {
        for k := 0 to |calls|
          invariant forall l :: 0 <= l < k ==> calls[l].id != id
        {
          if calls[k].id == id {
            assert HasCall(calls, id);
            responded := responded[id := CleanResult(rest[n])];
            break;
          }
        }
      }
      n := n + 1;
    }
  }

  method KeepAnswered(calls: seq<ToolCall>, responded: map<string, Message>) returns (kept: seq<ToolCall>)
    ensures kept == AnsweredCalls(calls, responded)
  {
    kept := [];
    for i := 0 to |calls|
      invariant kept + AnsweredCalls(calls[i..], responded) == AnsweredCalls(calls, responded)
    {
      assert calls[i..][1..] == calls[i + 1..];
      if calls[i].id in responded { kept := kept + [calls[i]]; }
    }
  }
}
