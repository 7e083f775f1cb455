/** The local backend's sanitizer keeps what users and assistants say, too. */
module LlamaMeaning {
  import opened Text
  import opened Messages
  import opened OpenAISanitizer
  import opened LlamaPrompt
  import opened HistoryMeaning
  import opened TextWords

  lemma ContentSays(acc: seq<Message>, m: LlamaMessage)
    requires Canonical(m.role) == System || Canonical(m.role) == User
    ensures Said(AppendContent(acc, Canonical(m.role), Trim(m.content), m.parts)) == Said(acc) + SaidBy(m)
  {
    hide Trim, Said, CleanParts;
    var role, text := Canonical(m.role), Trim(m.content);
    TrimTwice(m.content);
    var out := AppendContent(acc, role, text, m.parts);
    if |out| > |acc| {
      SaidConcat(acc, [out[|acc|]]);
      SaidOne(out[|acc|]);
    } else if out != acc {
      var pre, last := acc[..|acc| - 1], acc[|acc| - 1];
      assert acc == pre + [last] && out == pre + [out[|acc| - 1]];
      SaidConcat(pre, [last]);
      SaidConcat(pre, [out[|acc| - 1]]);
      SaidOne(last);
      SaidOne(out[|acc| - 1]);
    }
  }

  lemma LlamaAbsorbSays(ms: seq<LlamaMessage>, acc: seq<Message>)
    requires ms != []
    ensures Consumed(ms) <= |ms| && Said(LlamaAbsorb(ms, acc)) == Said(acc) + Said(ms[..Consumed(ms)])
  {
    hide Trim, Canonical, Absorb, AppendContent, Said, SaidBy;
    var role := Canonical(ms[0].role);
    ConsumedBound(ms);
    if role == System || role == User {
      OneAtATime(ms);
      ContentSays(acc, ms[0]);
      assert ms[..1] == [ms[0]];
      SaidOne(ms[0]);
    } else {
      AbsorbSays(ms, acc);
    }
  }

  lemma {:induction false} SanitizeLlamaSays(ms: seq<LlamaMessage>, acc: seq<Message>)
    ensures Said(SanitizeLlama(ms, acc)) == Said(acc) + Said(ms)
    decreases |ms|
  {
    hide LlamaAbsorb, Consumed, SaidBy;
    if ms != [] {
      ConsumedBound(ms);
      LlamaAbsorbSays(ms, acc);
      SanitizeLlamaSays(ms[Consumed(ms)..], LlamaAbsorb(ms, acc));
      SaidConcat(ms[..Consumed(ms)], ms[Consumed(ms)..]);
      assert ms == ms[..Consumed(ms)] + ms[Consumed(ms)..];
    }
  }

  /** Everything users and assistants said is in the sanitized prompt, in order, and nothing else. */
  lemma NothingSaidIsLost(ms: seq<LlamaMessage>)
    ensures Said(SanitizeLlama(ms, [])) == Said(ms)
  {
    SanitizeLlamaSays(ms, []);
  }

  // ---- And the system's instructions ----

  /** Where parts stand there is no text. */
  predicate OneContent(acc: seq<Message>) {
    EndsWithSystem(acc) ==> acc[|acc| - 1].parts == [] || acc[|acc| - 1].content == ""
  }

  lemma ContentInstructs(acc: seq<Message>, m: LlamaMessage)
    requires (Canonical(m.role) == System || Canonical(m.role) == User) && OneContent(acc)
    ensures
      var out := AppendContent(acc, Canonical(m.role), Trim(m.content), m.parts);
      Instructions(out) == Instructions(acc) + InstructionsOf(m) && OneContent(out)
  {
    hide Trim, Instructions, Words;
    var role, text := Canonical(m.role), Trim(m.content);
    var out := AppendContent(acc, role, text, m.parts);
    WordsOfTrim(m.content);
    SpaceHasNoWords("");
    TrimmedEnds("");
    if text == "" && m.parts == [] {
    } else if role == System && EndsWithSystem(acc) {
      var pre, last := acc[..|acc| - 1], acc[|acc| - 1];
      var merged := last.(content := Trim(StringContent(last) + "\n\n" + text), parts := []);
      assert acc == pre + [last] && out == pre + [merged];
      InstructionsConcat(pre, [last]);
      InstructionsConcat(pre, [merged]);
      InstructionsOne(last);
      InstructionsOne(merged);
      WordsOfTrim(StringContent(last) + "\n\n" + text);
      WordsOfJoin(StringContent(last), text);
    } else {
      InstructionsConcat(acc, [out[|acc|]]);
      InstructionsOne(out[|acc|]);
    }
  }

  lemma AbsorbKeepsOneContent(ms: seq<Message>, acc: seq<Message>)
    requires ms != [] && Canonical(ms[0].role) != System && Canonical(ms[0].role) != User && OneContent(acc)
    ensures OneContent(Absorb(ms, acc))
  {
    hide Trim, Canonical, UsableCalls, Responded, ToolRun;
    if Canonical(ms[0].role) == Assistant && UsableCalls(ms[0]) != [] {
      var run := ms[1..ToolRun(ms[1..]) + 1];
      var responded := Responded(run, UsableCalls(ms[0]), map[]);
      RespondedIsFiled(run, UsableCalls(ms[0]), map[]);
      ResultsAreTools(AnsweredCalls(UsableCalls(ms[0]), responded), responded);
    }
  }

  lemma {:induction false} SanitizeLlamaInstructs(ms: seq<LlamaMessage>, acc: seq<Message>)
    requires OneContent(acc)
    ensures Instructions(SanitizeLlama(ms, acc)) == Instructions(acc) + Instructions(ms)
    decreases |ms|
  {
    hide Absorb, AppendContent, Consumed, InstructionsOf, Canonical, Trim, OneContent;
    if ms != [] {
      var role := Canonical(ms[0].role);
      ConsumedBound(ms);
      if role == System || role == User {
        OneAtATime(ms);
        ContentInstructs(acc, ms[0]);
        assert ms[..1] == [ms[0]];
        InstructionsOne(ms[0]);
      } else {
        AbsorbInstructs(ms, acc);
        AbsorbKeepsOneContent(ms, acc);
      }
      SanitizeLlamaInstructs(ms[Consumed(ms)..], LlamaAbsorb(ms, acc));
      InstructionsConcat(ms[..Consumed(ms)], ms[Consumed(ms)..]);
      assert ms == ms[..Consumed(ms)] + ms[Consumed(ms)..];
    }
  }

  /** Merged or not, the system messages of a local prompt keep every word, in order. */
  lemma NoInstructionIsLost(ms: seq<LlamaMessage>)
    ensures Instructions(SanitizeLlama(ms, [])) == Instructions(ms)
  {
    SanitizeLlamaInstructs(ms, []);
  }
}
