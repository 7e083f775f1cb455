/**
 The first prompt of the local backend: the history is cut to the estimated budget, and the sanitizer that runs
 afterwards, just before the model sees the prompt, must neither undo that nor leave half a tool block.
 */
module LlamaPrompt {
  import opened Text
  import opened Messages
  import opened OpenAISanitizer
  import Theorems = OpenAISanitizerTheorems

  /** Content of these messages is one value: either a string or a list of parts. */
  type LlamaMessage = m: Message | m.parts == [] || m.content == "" witness PlainMessage(System, "")

  datatype ToolDef = ToolDef(name: string, description: string, parameters: string)

  // ---- The estimate ----

  function RoleLength(r: Role): nat {
    match r
    case System => 6
    case User => 4
    case Assistant => 9
    case Tool => 4
    case Other(raw) => |raw|
  }

  /** Parts count for nothing. */
  function StringContent(m: Message): string {
    if m.parts == [] then m.content else ""
  }

  function CallChars(calls: seq<ToolCall>): nat {
    if calls == [] then 0 else |calls[0].name| + |calls[0].arguments| + 16 + CallChars(calls[1..])
  }

  function MessageChars(m: Message): nat {
    RoleLength(m.role) + |StringContent(m)| + 8 + CallChars(m.toolCalls)
  }

  function Chars(ms: seq<Message>): nat {
    if ms == [] then 0 else MessageChars(ms[0]) + Chars(ms[1..])
  }

  function ToolChars(tools: seq<ToolDef>): nat {
    if tools == [] then 0
    else |tools[0].name| + |tools[0].description| + 32 + |tools[0].parameters| + ToolChars(tools[1..])
  }

  function Tokens(ms: seq<Message>, tools: seq<ToolDef>): nat {
    (Chars(ms) + ToolChars(tools)) / 4
  }

  /** The role as it is written. */
  function RoleName(r: Role): string {
    match r
    case System => "system"
    case User => "user"
    case Assistant => "assistant"
    case Tool => "tool"
    case Other(raw) => raw
  }

  function Total<T>(items: seq<T>, size: T -> nat): nat {
    if items == [] then 0 else size(items[0]) + Total(items[1..], size)
  }

  /** The calls of all messages, whatever their roles. */
  function AllMade(ms: seq<Message>): seq<ToolCall> {
    if ms == [] then [] else ms[0].toolCalls + AllMade(ms[1..])
  }

  lemma {:induction false} TotalConcat<T>(a: seq<T>, b: seq<T>, size: T -> nat)
    ensures Total(a + b, size) == Total(a, size) + Total(b, size)
  {
    if a == [] {
      assert a + b == b;
    } else {
      assert (a + b)[1..] == a[1..] + b;
      TotalConcat(a[1..], b, size);
    }
  }

  function NameSize(): ToolCall -> nat {
    (c: ToolCall) => |c.name|
  }

  function ArgumentSize(): ToolCall -> nat {
    (c: ToolCall) => |c.arguments|
  }

  function RoleSize(): Message -> nat {
    (m: Message) => |RoleName(m.role)|
  }

  function TextSize(): Message -> nat {
    (m: Message) => if m.parts == [] then |m.content| else 0
  }

  lemma {:induction false} CallCharsAre(calls: seq<ToolCall>)
    ensures CallChars(calls) == Total(calls, NameSize()) + Total(calls, ArgumentSize()) + 16 * |calls|
  {
    if calls != [] { CallCharsAre(calls[1..]); }
  }

  lemma MessageCharsAre(m: Message)
    ensures MessageChars(m) == RoleSize()(m) + TextSize()(m) + 8 + CallChars(m.toolCalls)
  {
  }

  lemma {:induction false} CharsAre(ms: seq<Message>)
    ensures
      var calls := AllMade(ms);
      Chars(ms) == Total(ms, RoleSize()) + Total(ms, TextSize()) + 8 * |ms|
                   + Total(calls, NameSize()) + Total(calls, ArgumentSize()) + 16 * |calls|
  {
    hide CallChars, MessageChars;
    if ms != [] {
      CharsAre(ms[1..]);
      MessageCharsAre(ms[0]);
      CallCharsAre(ms[0].toolCalls);
      TotalConcat(ms[0].toolCalls, AllMade(ms[1..]), NameSize());
      TotalConcat(ms[0].toolCalls, AllMade(ms[1..]), ArgumentSize());
    }
  }

  function DefinitionSize(): ToolDef -> nat {
    (t: ToolDef) => |t.name + t.description + t.parameters|
  }

  lemma {:induction false} ToolCharsAre(tools: seq<ToolDef>)
    ensures ToolChars(tools) == Total(tools, DefinitionSize()) + 32 * |tools|
  {
    if tools != [] { ToolCharsAre(tools[1..]); }
  }

  /**
   The estimate is a quarter of all characters of roles, texts, calls and tool definitions, with 8 more for each
   message, 16 for each call and 32 for each tool, rounded down.
   */
  lemma EstimateCounts(ms: seq<Message>, tools: seq<ToolDef>)
    ensures
      var calls := AllMade(ms);
      var chars := Total(ms, RoleSize()) + Total(ms, TextSize()) + Total(calls, NameSize())
                   + Total(calls, ArgumentSize()) + Total(tools, DefinitionSize())
                   + 8 * |ms| + 16 * |calls| + 32 * |tools|;
      4 * Tokens(ms, tools) <= chars < 4 * Tokens(ms, tools) + 4
  {
    CharsAre(ms);
    ToolCharsAre(tools);
  }

  method EstimateLlamaMessagesTokens(messages: seq<Message>, tools: seq<ToolDef>) returns (tokens: nat)
    ensures tokens == Tokens(messages, tools)
  {
    var chars := 0;
    for i := 0 to |messages|
      invariant chars + Chars(messages[i..]) == Chars(messages)
    {
      var m := messages[i];
      assert messages[i..][1..] == messages[i + 1..];
      var content := if m.parts == [] then m.content else "";
      chars := chars + RoleLength(m.role) + |content| + 8;
      ghost var before := chars;
      for k := 0 to |m.toolCalls|
        invariant chars + CallChars(m.toolCalls[k..]) == before + CallChars(m.toolCalls)
      {
        assert m.toolCalls[k..][1..] == m.toolCalls[k + 1..];
        chars := chars + |m.toolCalls[k].name| + |m.toolCalls[k].arguments| + 16;
      }
    }
    ghost var messageChars := chars;
    for i := 0 to |tools|
      invariant chars + ToolChars(tools[i..]) == messageChars + ToolChars(tools)
    {
      assert tools[i..][1..] == tools[i + 1..];
      chars := chars + |tools[i].name| + |tools[i].description| + 32;
      if |tools[i].parameters| > 0 { chars := chars + |tools[i].parameters|; }
    }
    tokens := chars / 4;
  }

  lemma {:induction false} CharsConcat(a: seq<Message>, b: seq<Message>)
    ensures Chars(a + b) == Chars(a) + Chars(b)
  {
    hide MessageChars;
    if a == [] {
      assert a + b == b;
    } else {
      assert (a + b)[1..] == a[1..] + b;
      CharsConcat(a[1..], b);
    }
  }

  lemma CharsOne(m: Message)
    ensures Chars([m]) == MessageChars(m)
  {
    assert [m][1..] == [];
  }

  lemma CharsSplit(ms: seq<Message>, n: nat)
    requires n <= |ms|
    ensures Chars(ms) == Chars(ms[..n]) + Chars(ms[n..])
  {
    hide Chars;
    assert ms == ms[..n] + ms[n..];
    CharsConcat(ms[..n], ms[n..]);
  }

  // ---- Truncation: the first message, then the longest suffix that fits ----

  /** The first message, then everything from position k on. */
  function Keep(ms: seq<Message>, k: nat): seq<Message>
    requires 1 <= k <= |ms|
  {
    [ms[0]] + ms[k..]
  }

  predicate Fits(ms: seq<Message>, tools: seq<ToolDef>, budget: int) {
    Tokens(ms, tools) <= budget
  }

  /** `r` is the best cut of `ms`: it fits, and keeping one more message would not; or only two are left. */
  predicate BestCut(ms: seq<Message>, tools: seq<ToolDef>, budget: int, r: seq<Message>) {
    && 2 <= |r| <= |ms|
    && r == Keep(ms, |ms| + 1 - |r|)
    && (Fits(r, tools, budget) || |r| == 2)
    && (forall k :: 1 <= k < |ms| + 1 - |r| ==> !Fits(Keep(ms, k), tools, budget))
  }

  /** What a cut of `ms` must be, when one is called for at all. */
  predicate Truncated(ms: seq<Message>, tools: seq<ToolDef>, budget: int, r: seq<Message>) {
    if budget <= 0 || |ms| <= 2 then r == ms else BestCut(ms, tools, budget, r)
  }

  /** Dropping more never costs more, so the best cut fits whenever any cut fits, and is the longest such cut. */
  lemma BestCutIsLongest(ms: seq<Message>, tools: seq<ToolDef>, budget: int, r: seq<Message>, k: nat)
    requires BestCut(ms, tools, budget, r) && 1 <= k < |ms| && Fits(Keep(ms, k), tools, budget)
    ensures Fits(r, tools, budget) && |Keep(ms, k)| <= |r|
  {
    if |r| == 2 {
      CharsSplit(ms[k..], |ms| - 1 - k);
      assert ms[k..][|ms| - 1 - k..] == ms[|ms| - 1..];
      CharsConcat([ms[0]], ms[k..]);
      CharsConcat([ms[0]], ms[|ms| - 1..]);
    }
  }

  lemma NoLongerCut(ms: seq<Message>, tools: seq<ToolDef>, budget: int, r: seq<Message>, q: seq<Message>)
    requires BestCut(ms, tools, budget, r) && BestCut(ms, tools, budget, q)
    ensures |q| <= |r|
  {
    hide Fits;
  }

  /** So the cut is determined by the messages, the tools and the budget. */
  lemma CutIsUnique(ms: seq<Message>, tools: seq<ToolDef>, budget: int, r: seq<Message>, q: seq<Message>)
    requires Truncated(ms, tools, budget, r) && Truncated(ms, tools, budget, q)
    ensures r == q
  {
    if budget > 0 && |ms| > 2 {
      NoLongerCut(ms, tools, budget, r, q);
      NoLongerCut(ms, tools, budget, q, r);
    }
  }

  /** Shifts the messages down in place; the first `n` are the result. */
  method TruncateLlamaMessagesToFit(a: array<LlamaMessage>, tools: seq<ToolDef>, budget: int) returns (n: nat)
    modifies a
    ensures n <= a.Length && Truncated(old(a[..]), tools, budget, a[..n])
  {
    hide Tokens;
    n := a.Length;
    assert a[..n] == a[..];
    if budget <= 0 || n <= 2 { return; }
    ghost var was := a[..];
    assert Keep(was, 1) == was;
    var est := EstimateLlamaMessagesTokens(a[..n], tools);
    while est > budget && n > 2
      invariant 2 <= n <= a.Length && |was| == a.Length
      invariant a[..n] == Keep(was, a.Length + 1 - n)
      invariant est == Tokens(a[..n], tools)
      invariant forall k :: 1 <= k < a.Length + 1 - n ==> !Fits(Keep(was, k), tools, budget)
      decreases n
    {
      assert !Fits(Keep(was, a.Length + 1 - n), tools, budget);
      RemoveSecond(a, n);
      n := n - 1;
      assert a[..n] == Keep(was, a.Length + 1 - n);
      est := EstimateLlamaMessagesTokens(a[..n], tools);
    }
  }

  /** The slice append that drops the second message. */
  method RemoveSecond(a: array<LlamaMessage>, n: nat)
    requires 2 < n <= a.Length
    modifies a
    ensures a[..n - 1] == old([a[0]] + a[2..n])
  {
    for i := 1 to n - 1
      invariant a[0] == old(a[0])
      invariant forall k :: 1 <= k < i ==> a[k] == old(a[k + 1])
      invariant forall k :: i <= k < a.Length ==> a[k] == old(a[k])
    {
      a[i] := a[i + 1];
    }
  }

  // ---- The sanitizer ----

  /** As for the OpenAI backends, except that parts are kept as they are and may come from the system too. */
  function LlamaAbsorb(ms: seq<LlamaMessage>, acc: seq<Message>): seq<Message>
    requires ms != []
  {
    var role := Canonical(ms[0].role);
    if role == System || role == User then AppendContent(acc, role, Trim(ms[0].content), ms[0].parts)
    else Absorb(ms, acc)
  }

  function AppendContent(acc: seq<Message>, role: Role, text: string, parts: seq<Part>): seq<Message> {
    if text == "" && parts == [] then acc
    else if role == System && EndsWithSystem(acc) then
      var last := acc[|acc| - 1];
      acc[..|acc| - 1] + [last.(content := Trim(StringContent(last) + "\n\n" + text), parts := [])]
    else if parts != [] then acc + [PlainMessage(role, "").(parts := parts)]
    else acc + [PlainMessage(role, text)]
  }

  function SanitizeLlama(ms: seq<LlamaMessage>, acc: seq<Message>): seq<Message>
    decreases |ms|
  {
    if ms == [] then acc else SanitizeLlama(ms[Consumed(ms)..], LlamaAbsorb(ms, acc))
  }

  method SanitizeLlamaMessages(messages: seq<LlamaMessage>) returns (sanitized: seq<Message>)
    ensures sanitized == SanitizeLlama(messages, [])
  {
    hide Consumed, Absorb, AppendContent, Trim, Canonical;
    sanitized := [];
    var i := 0;
    while i < |messages|
      invariant 0 <= i <= |messages|
      invariant SanitizeLlama(messages[i..], sanitized) == SanitizeLlama(messages, [])
    {
      var msg, todo := messages[i], messages[i..];
      var role := Canonical(msg.role);
      ConsumedBound(todo);
      assert messages[i + Consumed(todo)..] == todo[Consumed(todo)..];
      if role == System || role == User {
        OneAtATime(todo);
        sanitized := AppendAny(sanitized, role, Trim(msg.content), msg.parts);
        i := i + 1;
      } else {
        var n;
        sanitized, n := SanitizeNext(todo, sanitized);
        i := i + n;
      }
    }
  }

  lemma OneAtATime(ms: seq<Message>)
    requires ms != [] && Canonical(ms[0].role) != Assistant
    ensures Consumed(ms) == 1
  {
  }

  method AppendAny(sanitized: seq<Message>, role: Role, text: string, parts: seq<Part>) returns (out: seq<Message>)
    ensures out == AppendContent(sanitized, role, text, parts)
  {
    hide Trim;
    out := sanitized;
    if text == "" && |parts| == 0 { return; }
    if role == System && |out| > 0 && out[|out| - 1].role == role {
      var last := out[|out| - 1];
      var prev := if last.parts == [] then last.content else "";
      out := out[|out| - 1 := last.(content := Trim(prev + "\n\n" + text), parts := [])];
    } else if |parts| > 0 {
      out := out + [PlainMessage(role, "").(parts := parts)];
    } else {
      out := out + [PlainMessage(role, text)];
    }
  }

  // ---- Whatever the cut left over, the prompt is in block form ----

  lemma BlockIsBlockForm(m: Message, run: seq<Message>)
    ensures BlockForm(Block(Trim(m.content), UsableCalls(m), Responded(run, UsableCalls(m), map[])))
  {
    hide Trim, UsableCalls, ValidateCalls, Responded;
    var text, responded := Trim(m.content), Responded(run, UsableCalls(m), map[]);
    var kept := AnsweredCalls(UsableCalls(m), responded);
    Theorems.NormalEmpty();
    Theorems.AddBlockKeeps([], m, run);
    if kept == [] {
      TextIsBlockForm(text);
    } else {
      var turn := Theorems.CallTurn(text, kept, responded);
      Theorems.FlattenIsBlockForm([] + [turn]);
      assert [] + Block(text, UsableCalls(m), responded) == Block(text, UsableCalls(m), responded);
    }
  }

  lemma TextIsBlockForm(text: string)
    ensures BlockForm(TextOnly(text))
  {
    if text != "" { PlainIsBlockForm(PlainMessage(Assistant, text)); }
  }

  lemma PlainIsBlockForm(m: Message)
    requires m.role != Tool && m.toolCalls == []
    ensures BlockForm([m])
  {
    assert [m][1..] == [];
  }

  lemma ContentKeepsBlockForm(acc: seq<Message>, role: Role, text: string, parts: seq<Part>)
    requires BlockForm(acc) && role != Tool
    ensures BlockForm(AppendContent(acc, role, text, parts))
  {
    hide Trim, Run;
    var out := AppendContent(acc, role, text, parts);
    if |out| == |acc| {
      SkeletonRun(Some([]), acc, out);
    } else {
      var m := out[|acc|];
      assert out == acc + [m];
      PlainIsBlockForm(m);
      BlockFormConcat(acc, [m]);
    }
  }

  lemma AbsorbKeepsBlockForm(ms: seq<LlamaMessage>, acc: seq<Message>)
    requires ms != [] && BlockForm(acc)
    ensures BlockForm(LlamaAbsorb(ms, acc))
  {
    hide Trim, Canonical, UsableCalls, Responded, Block, TextOnly, AppendContent, Run, BlockForm;
    var m := ms[0];
    var role := Canonical(m.role);
    if role == System || role == User {
      ContentKeepsBlockForm(acc, role, Trim(m.content), m.parts);
    } else if role == Assistant {
      TextIsBlockForm(Trim(m.content));
      BlockFormConcat(acc, TextOnly(Trim(m.content)));
      var run := ms[1..ToolRun(ms[1..]) + 1];
      BlockIsBlockForm(m, run);
      BlockFormConcat(acc, Block(Trim(m.content), UsableCalls(m), Responded(run, UsableCalls(m), map[])));
    }
  }

  lemma {:induction false} SanitizeLlamaFrom(ms: seq<LlamaMessage>, acc: seq<Message>)
    requires BlockForm(acc)
    ensures BlockForm(SanitizeLlama(ms, acc))
    decreases |ms|
  {
    hide LlamaAbsorb, Consumed, BlockForm;
    if ms != [] {
      AbsorbKeepsBlockForm(ms, acc);
      ConsumedBound(ms);
      SanitizeLlamaFrom(ms[Consumed(ms)..], LlamaAbsorb(ms, acc));
    }
  }

  /** Even where truncation has cut through a block. */
  lemma SanitizeLlamaIsBlockForm(ms: seq<LlamaMessage>)
    ensures BlockForm(SanitizeLlama(ms, []))
  {
    SanitizeLlamaFrom(ms, []);
  }

  // ---- The sanitizer never raises the estimate, as long as no message calls an id twice ----

  /** No id is called twice. */
  predicate Unique(calls: seq<ToolCall>) {
    calls == [] || (!HasCall(calls[1..], calls[0].id) && Unique(calls[1..]))
  }

  /** Within each assistant message. */
  predicate UniqueWithin(ms: seq<Message>) {
    forall i :: 0 <= i < |ms| ==> UniqueIn(ms[i])
  }

  predicate UniqueIn(m: Message) {
    Canonical(m.role) == Assistant ==> Unique(UsableCalls(m))
  }

  lemma RoleShrinks(r: Role)
    ensures !Canonical(r).Other? ==> RoleLength(Canonical(r)) <= RoleLength(r)
  {
  }

  lemma {:induction false} RecordOne(calls: seq<ToolCall>, responded: map<string, Message>, id: string, m: Message)
    requires Unique(calls)
    ensures Chars(ResultsFor(calls, responded[id := m])) <= Chars(ResultsFor(calls, responded)) + MessageChars(m)
    ensures !HasCall(calls, id) ==> ResultsFor(calls, responded[id := m]) == ResultsFor(calls, responded)
  {
    hide MessageChars;
    if calls != [] {
      var rest := calls[1..];
      RecordOne(rest, responded, id, m);
      if calls[0].id == id {
        assert HasCall(calls, id);
      } else if !HasCall(calls, id) {
        assert !HasCall(rest, id);
      }
    }
  }

  /** A cleaned result weighs no more than the tool message it was read from. */
  lemma CleanResultShrinks(m: LlamaMessage)
    requires Canonical(m.role) == Tool
    ensures MessageChars(CleanResult(m)) <= MessageChars(m)
  {
    hide Trim, Canonical;
    RoleShrinks(m.role);
  }

  lemma {:induction false} RecordedWithin(run: seq<LlamaMessage>, calls: seq<ToolCall>, acc: map<string, Message>)
    requires Unique(calls) && forall k :: 0 <= k < |run| ==> Canonical(run[k].role) == Tool
    ensures Chars(ResultsFor(calls, Responded(run, calls, acc))) <= Chars(ResultsFor(calls, acc)) + Chars(run)
    decreases |run|
  {
    hide Trim, Canonical, MessageChars, HasCall, Unique, CleanResult;
    if run != [] {
      var id := Trim(run[0].toolCallId);
      RecordOne(calls, acc, id, CleanResult(run[0]));
      CleanResultShrinks(run[0]);
      RecordedWithin(run[1..], calls,
                     if id != "" && HasCall(calls, id) then acc[id := CleanResult(run[0])] else acc);
    }
  }

  lemma {:induction false} AnsweredWithin(calls: seq<ToolCall>, responded: map<string, Message>)
    ensures CallChars(AnsweredCalls(calls, responded)) <= CallChars(calls)
    ensures ResultsFor(AnsweredCalls(calls, responded), responded) == ResultsFor(calls, responded)
  {
    if calls != [] { AnsweredWithin(calls[1..], responded); }
  }

  lemma {:induction false} ValidWithin(calls: seq<ToolCall>)
    ensures ValidateCalls(calls).Some? ==> CallChars(ValidateCalls(calls).value) <= CallChars(calls)
  {
    hide Trim;
    if calls != [] { ValidWithin(calls[1..]); }
  }

  lemma NoResultsYet(calls: seq<ToolCall>)
    ensures ResultsFor(calls, map[]) == []
  {
  }

  lemma BlockWithin(m: LlamaMessage, run: seq<LlamaMessage>)
    requires Canonical(m.role) == Assistant && Unique(UsableCalls(m))
    requires forall k :: 0 <= k < |run| ==> Canonical(run[k].role) == Tool
    ensures Chars(Block(Trim(m.content), UsableCalls(m), Responded(run, UsableCalls(m), map[])))
         <= MessageChars(m) + Chars(run)
  {
    hide Trim, Canonical, Unique, ValidateCalls, Responded;
    var calls, responded := UsableCalls(m), Responded(run, UsableCalls(m), map[]);
    RoleShrinks(m.role);
    ValidWithin(m.toolCalls);
    AnsweredWithin(calls, responded);
    NoResultsYet(calls);
    RecordedWithin(run, calls, map[]);
  }

  /** Merging two system messages adds a blank line and saves a role. */
  lemma ContentWithin(acc: seq<Message>, role: Role, text: string, parts: seq<Part>)
    requires role == System || role == User
    ensures Chars(AppendContent(acc, role, text, parts)) <= Chars(acc) + RoleLength(role) + |text| + 8
  {
    hide Trim, Chars;
    var out := AppendContent(acc, role, text, parts);
    if |out| > |acc| {
      CharsConcat(acc, [out[|acc|]]);
      CharsOne(out[|acc|]);
    } else if out != acc {
      var pre, last := acc[..|acc| - 1], acc[|acc| - 1];
      assert acc == pre + [last] && out == pre + [out[|acc| - 1]];
      CharsConcat(pre, [last]);
      CharsConcat(pre, [out[|acc| - 1]]);
      CharsOne(last);
      CharsOne(out[|acc| - 1]);
    }
  }

  lemma TextWithin(m: LlamaMessage)
    requires Canonical(m.role) == Assistant
    ensures Chars(TextOnly(Trim(m.content))) <= MessageChars(m)
  {
    hide Trim, Canonical;
    RoleShrinks(m.role);
    CharsOne(PlainMessage(Assistant, Trim(m.content)));
  }

  lemma AbsorbWithin(ms: seq<LlamaMessage>, acc: seq<Message>)
    requires ms != [] && UniqueWithin(ms)
    ensures Consumed(ms) <= |ms| && Chars(LlamaAbsorb(ms, acc)) <= Chars(acc) + Chars(ms[..Consumed(ms)])
  {
    hide Trim, Canonical, ToolRun, Chars, TextOnly, Unique, UsableCalls, Responded, Block, AppendContent;
    var m := ms[0];
    var role := Canonical(m.role);
    ConsumedBound(ms);
    assert ms[..Consumed(ms)] == [m] + ms[1..Consumed(ms)];
    CharsConcat([m], ms[1..Consumed(ms)]);
    if role == System || role == User {
      RoleShrinks(m.role);
      CharsOne(m);
      ContentWithin(acc, role, Trim(m.content), m.parts);
    } else if role == Assistant {
      CharsOne(m);
      if UsableCalls(m) == [] {
        TextWithin(m);
        CharsConcat(acc, TextOnly(Trim(m.content)));
      } else {
        var run := ms[1..ToolRun(ms[1..]) + 1];
        assert run == ms[1..][..ToolRun(ms[1..])];
        BlockWithin(m, run);
        CharsConcat(acc, Block(Trim(m.content), UsableCalls(m), Responded(run, UsableCalls(m), map[])));
      }
    }
  }

  lemma {:induction false} SanitizeWithin(ms: seq<LlamaMessage>, acc: seq<Message>)
    requires UniqueWithin(ms)
    ensures Chars(SanitizeLlama(ms, acc)) <= Chars(acc) + Chars(ms)
    decreases |ms|
  {
    hide LlamaAbsorb, Consumed, Unique, UsableCalls;
    if ms != [] {
      ConsumedBound(ms);
      AbsorbWithin(ms, acc);
      CharsSplit(ms, Consumed(ms));
      SanitizeWithin(ms[Consumed(ms)..], LlamaAbsorb(ms, acc));
    }
  }

  lemma SanitizeNeverRaises(ms: seq<LlamaMessage>, tools: seq<ToolDef>)
    requires UniqueWithin(ms)
    ensures Tokens(SanitizeLlama(ms, []), tools) <= Tokens(ms, tools)
  {
    SanitizeWithin(ms, []);
  }

  // ---- And that condition is exact ----

  /** Whatever results follow `m`, sanitizing does not raise the estimate. */
  ghost predicate NeverRaised(m: LlamaMessage, tools: seq<ToolDef>) {
    forall run: seq<LlamaMessage> ::
      (forall k :: 0 <= k < |run| ==> run[k].role == Tool)
      ==> Tokens(SanitizeLlama([m] + run, []), tools) <= Tokens([m] + run, tools)
  }

  function RepeatedId(calls: seq<ToolCall>): string
    requires !Unique(calls)
  {
    if HasCall(calls[1..], calls[0].id) then calls[0].id else RepeatedId(calls[1..])
  }

  lemma {:induction false} OneResult(calls: seq<ToolCall>, responded: map<string, Message>, id: string)
    requires HasCall(calls, id) && id in responded
    ensures Chars(ResultsFor(calls, responded)) >= MessageChars(responded[id])
  {
    hide MessageChars;
    if calls[0].id != id { OneResult(calls[1..], responded, id); }
  }

  lemma {:induction false} TwoResults(calls: seq<ToolCall>, responded: map<string, Message>)
    requires !Unique(calls) && RepeatedId(calls) in responded
    ensures Chars(ResultsFor(calls, responded)) >= 2 * MessageChars(responded[RepeatedId(calls)])
    ensures HasCall(calls, RepeatedId(calls))
  {
    hide MessageChars;
    var rest := calls[1..];
    if HasCall(rest, calls[0].id) {
      OneResult(rest, responded, calls[0].id);
    } else {
      TwoResults(rest, responded);
      var k :| 0 <= k < |rest| && rest[k].id == RepeatedId(rest);
      assert calls[k + 1].id == RepeatedId(calls);
    }
  }

  lemma UsableIdsAreClean(m: Message, id: string)
    requires HasCall(UsableCalls(m), id)
    ensures Trimmed(id) && id != ""
  {
    hide Trim, ValidateCall;
    ValidateCallsEach(m.toolCalls);
    var k :| 0 <= k < |UsableCalls(m)| && UsableCalls(m)[k].id == id;
    ValidateCallIdempotent(m.toolCalls[k]);
  }

  /** A result heavy enough for its second copy to outweigh whatever cleaning saved. */
  function HeavyResult(m: Message, id: string): (r: LlamaMessage)
    ensures r.role == Tool
  {
    Message(Tool, seq(MessageChars(m) + 16, _ => 'x'), [], "", [], id)
  }

  lemma HeavyResultIsClean(m: Message, id: string)
    requires Trimmed(id)
    ensures CleanResult(HeavyResult(m, id)) == HeavyResult(m, id)
  {
    hide Trim;
    TrimmedEnds(HeavyResult(m, id).content);
    TrimmedEnds("");
  }

  lemma HeavyResultTips(m: LlamaMessage, tools: seq<ToolDef>)
    requires Canonical(m.role) == Assistant && !Unique(UsableCalls(m))
    ensures var ms := [m] + [HeavyResult(m, RepeatedId(UsableCalls(m)))];
            Tokens(SanitizeLlama(ms, []), tools) > Tokens(ms, tools)
  {
    hide Trim, Unique, RepeatedId, UsableCalls, CleanResult, AnsweredCalls, HeavyResult;
    var calls := UsableCalls(m);
    var id := RepeatedId(calls);
    var heavy := HeavyResult(m, id);
    RepeatedIsCalled(calls);
    UsableIdsAreClean(m, id);
    HeavyResultIsClean(m, id);
    HeavyWeighs(m, id);
    var ms := [m] + [heavy];
    assert ms[1..] == [heavy];
    var responded := map[id := heavy];
    assert [heavy][1..] == [];
    assert Responded([heavy], calls, map[]) == responded;
    TwoResults(calls, responded);
    AnsweredWithin(calls, responded);
    assert Consumed(ms) == 2;
    assert ms[2..] == [] && ms[1..2] == [heavy];
    var block := Block(Trim(m.content), calls, responded);
    assert SanitizeLlama(ms, []) == Absorb(ms, []) == [] + block == block;
    var kept := AnsweredCalls(calls, responded);
    assert kept != [];
    var head := PlainMessage(Assistant, Trim(m.content)).(toolCalls := kept);
    CharsConcat([head], ResultsFor(kept, responded));
    CharsConcat([m], [heavy]);
    CharsOne(m);
  }

  lemma {:induction false} RepeatedIsCalled(calls: seq<ToolCall>)
    requires !Unique(calls)
    ensures HasCall(calls, RepeatedId(calls))
  {
    var rest := calls[1..];
    if !HasCall(rest, calls[0].id) {
      RepeatedIsCalled(rest);
      var k :| 0 <= k < |rest| && rest[k].id == RepeatedId(rest);
      assert calls[k + 1].id == RepeatedId(calls);
    }
  }

  lemma HeavyWeighs(m: Message, id: string)
    ensures Chars([HeavyResult(m, id)]) == MessageChars(HeavyResult(m, id)) == MessageChars(m) + 28
    ensures HeavyResult(m, id).role == Tool && HeavyResult(m, id).toolCallId == id
  {
    CharsOne(HeavyResult(m, id));
  }

  /** A message's estimate is safe from every run of results if and only if it calls no id twice. */
  lemma NeverRaisedIffUnique(m: LlamaMessage, tools: seq<ToolDef>)
    requires Canonical(m.role) == Assistant
    ensures NeverRaised(m, tools) <==> Unique(UsableCalls(m))
  {
    hide Tokens, SanitizeLlama, Unique, UsableCalls;
    if Unique(UsableCalls(m)) {
      forall run: seq<LlamaMessage> | forall k :: 0 <= k < |run| ==> run[k].role == Tool
        ensures Tokens(SanitizeLlama([m] + run, []), tools) <= Tokens([m] + run, tools)
      {
        assert forall k :: 0 <= k < |run| ==> UniqueIn(run[k]);
        SanitizeNeverRaises([m] + run, tools);
      }
    } else {
      HeavyResultTips(m, tools);
    }
  }

  // ---- The first prompt ----

  /** A quarter of the context is left for the answer. */
  function PromptBudget(contextSize: int): (budget: int)
    ensures budget >= 256
    ensures contextSize <= 0 ==> budget == 1536
    ensures contextSize > 341 ==> 4 * budget <= 3 * contextSize < 4 * budget + 4
    ensures 0 < contextSize <= 341 ==> budget == 256
  {
    var size := if contextSize <= 0 then 2048 else contextSize;
    var budget := size * 3 / 4;
    if budget < 256 then 256 else budget
  }

  /** Not even the first and last message alone fit. */
  predicate NothingFits(ms: seq<Message>, tools: seq<ToolDef>, budget: int) {
    if |ms| <= 2 then !Fits(ms, tools, budget) else forall k :: 1 <= k < |ms| ==> !Fits(Keep(ms, k), tools, budget)
  }

  lemma CutFitsOrNothingDoes(ms: seq<Message>, tools: seq<ToolDef>, budget: int, r: seq<Message>)
    requires budget > 0 && Truncated(ms, tools, budget, r)
    ensures Fits(r, tools, budget) <==> !NothingFits(ms, tools, budget)
  {
    hide Tokens;
    if |ms| > 2 {
      assert Fits(Keep(ms, |ms| + 1 - |r|), tools, budget) == Fits(r, tools, budget);
      forall k | 1 <= k < |ms| && Fits(Keep(ms, k), tools, budget) ensures Fits(r, tools, budget) {
        BestCutIsLongest(ms, tools, budget, r, k);
      }
    }
  }

  lemma CutStaysUnique(ms: seq<Message>, tools: seq<ToolDef>, budget: int, r: seq<Message>)
    requires Truncated(ms, tools, budget, r) && UniqueWithin(ms)
    ensures UniqueWithin(r)
  {
    hide Fits, UniqueIn;
    forall i | 0 <= i < |r| ensures UniqueIn(r[i]) {
      if r != ms && i > 0 { assert r[i] == ms[|ms| - |r| + i]; }
    }
  }

  /** The messages that reach the model in the first round; None when the request is refused as too large. */
  method FirstPrompt(history: array<LlamaMessage>, tools: seq<ToolDef>, contextSize: int)
    returns (prompt: Option<seq<Message>>)
    modifies history
    ensures prompt.Some? ==> BlockForm(prompt.value)
    ensures prompt.Some? && UniqueWithin(old(history[..])) ==> Fits(prompt.value, tools, PromptBudget(contextSize))
    ensures prompt.None? <==> NothingFits(old(history[..]), tools, PromptBudget(contextSize))
  {
    hide Tokens, BlockForm, Unique, UsableCalls, SanitizeLlama;
    ghost var was := history[..];
    var budget := PromptBudget(contextSize);
    var n := TruncateLlamaMessagesToFit(history, tools, budget);
    var messages := history[..n];
    CutFitsOrNothingDoes(was, tools, budget, messages);
    var est := EstimateLlamaMessagesTokens(messages, tools);
    if est > budget { return None; }
    var sanitized := SanitizeLlamaMessages(messages);
    SanitizeLlamaIsBlockForm(messages);
    if UniqueWithin(was) {
      CutStaysUnique(was, tools, budget, messages);
      SanitizeNeverRaises(messages, tools);
    }
    return Some(sanitized);
  }
}
