/** Images and other parts: which of them come through the pipeline. */
module PipelineParts {
  import opened Text
  import opened Messages
  import opened OpenAISanitizer
  import opened HistoryFilters
  import opened HistoryPipeline
  import opened HistoryMeaning
  import opened ToolCallIds
  import opened Deduplication
  import opened PipelineConditions
  import Turns = HistoryTurns
  import Cuts = TurnCuts
  import Theorems = OpenAISanitizerTheorems
  import Conversation

  /** Only user messages carry parts. */
  predicate OnlyUserParts(ms: seq<Message>) {
    forall i :: 0 <= i < |ms| && ms[i].role != User ==> ms[i].parts == []
  }

  predicate SameParts(a: seq<Message>, b: seq<Message>) {
    |a| == |b| && forall i :: 0 <= i < |a| ==> a[i].role == b[i].role && a[i].parts == b[i].parts
  }

  lemma {:induction false} SamePartsKeep(a: seq<Message>, b: seq<Message>, joins: bool)
    requires SameParts(a, b)
    ensures AllParts(a) == AllParts(b) && OwnParts(a, joins, User) == OwnParts(b, joins, User)
    ensures OnlyUserParts(a) ==> OnlyUserParts(b)
    decreases |a|
  {
    if a != [] {
      forall i | 0 <= i < |a[1..]| ensures a[1..][i].role == b[1..][i].role && a[1..][i].parts == b[1..][i].parts {
        assert a[i + 1].role == b[i + 1].role && a[i + 1].parts == b[i + 1].parts;
      }
      SamePartsKeep(a[1..], b[1..], a[0].role == User);
      SamePartsKeep(a[1..], b[1..], true);
    }
  }

  lemma OnlyUsersTail(ms: seq<Message>)
    requires ms != []
    ensures OnlyUserParts(ms) <==> (ms[0].role != User ==> ms[0].parts == []) && OnlyUserParts(ms[1..])
  {
    if OnlyUserParts(ms[1..]) && (ms[0].role != User ==> ms[0].parts == []) {
      forall i | 0 <= i < |ms| && ms[i].role != User ensures ms[i].parts == [] {
        if i > 0 { assert ms[1..][i - 1] == ms[i]; }
      }
    }
  }

  lemma OnlyUsersConcat(a: seq<Message>, b: seq<Message>)
    ensures OnlyUserParts(a + b) <==> OnlyUserParts(a) && OnlyUserParts(b)
  {
    if OnlyUserParts(a + b) {
      forall i | 0 <= i < |a| && a[i].role != User ensures a[i].parts == [] { assert (a + b)[i] == a[i]; }
      forall i | 0 <= i < |b| && b[i].role != User ensures b[i].parts == [] { assert (a + b)[|a| + i] == b[i]; }
    }
  }

  // ---- Layers 1 and 2 ----

  lemma {:induction false} KeepMessagesParts(ms: seq<Message>, removed: set<string>)
    requires OnlyUserParts(ms)
    ensures AllParts(KeepMessages(ms, removed)) == AllParts(ms) && OnlyUserParts(KeepMessages(ms, removed))
  {
    hide OnlyUserParts, AllParts, KeepMessage;
    if ms == [] {
      assert KeepMessages(ms, removed) == ms;
    } else {
      var kept, rest := KeepMessage(ms[0], removed), KeepMessages(ms[1..], removed);
      OnlyUsersTail(ms);
      KeepMessagesParts(ms[1..], removed);
      KeptParts(ms[0], removed);
      AllPartsConcat(kept, rest);
      OnlyUsersConcat(kept, rest);
      assert ms == [ms[0]] + ms[1..];
      AllPartsConcat([ms[0]], ms[1..]);
      AllPartsOne(ms[0]);
    }
  }

  lemma KeptParts(m: Message, removed: set<string>)
    requires m.role != User ==> m.parts == []
    ensures AllParts(KeepMessage(m, removed)) == m.parts && OnlyUserParts(KeepMessage(m, removed))
  {
    hide Trim, KeepCalls;
    var kept := KeepMessage(m, removed);
    if kept != [] {
      assert kept == [kept[0]] && kept[0].parts == m.parts && kept[0].role == m.role;
      AllPartsOne(kept[0]);
    }
  }

  lemma FrontParts(ms: seq<Message>, p: Policy, allowed: set<string>, strip: string -> string)
    requires OnlyUserParts(ms)
    ensures AllParts(Front(ms, p, allowed, strip)) == AllParts(ms) && OnlyUserParts(Front(ms, p, allowed, strip))
  {
    hide OnlyUserParts, AllParts, KeepMessages, RemovedIds, Trim;
    var first := if p.dropThinkingBlocks then DropThinking(ms, strip) else ms;
    assert SameParts(ms, first);
    SamePartsKeep(ms, first, false);
    if allowed != {} { KeepMessagesParts(first, RemovedIds(first, allowed)); }
  }

  // ---- Layers 3 to 6 ----

  /** The parts that merging leaves. */
  function Left(ms: seq<Message>, p: Policy): seq<Part> {
    if p.anthropicTurns then OwnParts(ms, false, User) else AllParts(ms)
  }

  /** Layer 3 drops tool messages only, so user messages stay apart. */
  lemma {:induction false} DedupParts(open: seq<string>, ms: seq<Message>, answered: set<string>, joins: bool)
    requires Run(Some(open), ms) == Some([]) && (open != [] ==> !joins) && OnlyUserParts(ms)
    ensures OwnParts(Dedup(ms, answered), joins, User) == OwnParts(ms, joins, User)
    ensures AllParts(Dedup(ms, answered)) == AllParts(ms) && OnlyUserParts(Dedup(ms, answered))
    decreases |ms|
  {
    hide Trim, OnlyUserParts;
    if ms == [] {
      assert Dedup(ms, answered) == ms;
    } else {
      if Step(Some(open), ms[0]).None? { RunNone(ms[1..]); }
      OnlyUsersTail(ms);
      var m, rest, next := ms[0], ms[1..], Step(Some(open), ms[0]).value;
      if m.role != Tool {
        assert m.role == User ==> TrimmedIds(Calls(m)) == [];
        DedupParts(next, rest, answered, m.role == User);
        assert Dedup(ms, answered)[1..] == Dedup(rest, answered);
        OnlyUsersTail(Dedup(ms, answered));
      } else if open[0] in answered {
        DedupParts(next, rest, answered, false);
      } else {
        DedupParts(next, rest, answered + {open[0]}, false);
        assert Dedup(ms, answered)[1..] == Dedup(rest, answered + {open[0]});
        OnlyUsersTail(Dedup(ms, answered));
      }
    }
  }

  lemma Layer3Parts(ms: seq<Message>, answered: set<string>, p: Policy)
    requires BlockForm(ms) && OnlyUserParts(ms)
    ensures Left(Layer3(ms, answered, p), p) == Left(ms, p) && OnlyUserParts(Layer3(ms, answered, p))
  {
    hide Run, OnlyUserParts, AllParts, OwnParts, Dedup;
    DedupParts([], ms, answered, false);
  }

  lemma {:induction false} StripParts(ms: seq<Message>)
    ensures SameParts(ms, Turns.Strip(ms))
  {
    hide Trim, Turns.KeepAnswered, Turns.RunIds;
    if ms != [] { StripParts(ms[1..]); }
  }

  lemma StartParts(ms: seq<Message>, p: Policy)
    ensures SameParts(ms, Cuts.Start(ms, p))
  {
    hide Turns.Strip;
    StripParts(Truncate(ms, MAX_TOOL_RESULT));
  }

  lemma MergeOneOnlyUsers(acc: seq<Message>, m: Message)
    requires OnlyUserParts(acc) && (m.role != User ==> m.parts == [])
    ensures OnlyUserParts(Turns.MergeOne(acc, m, User))
  {
    hide Trim, Turns.MergedText;
  }

  lemma {:induction false} MergeOnlyUsers(ms: seq<Message>, acc: seq<Message>)
    requires OnlyUserParts(ms) && OnlyUserParts(acc)
    ensures OnlyUserParts(Turns.Merge(ms, acc, User))
    decreases |ms|
  {
    hide Turns.MergeOne, OnlyUserParts;
    if ms != [] {
      OnlyUsersTail(ms);
      MergeOneOnlyUsers(acc, ms[0]);
      MergeOnlyUsers(ms[1..], Turns.MergeOne(acc, ms[0], User));
    }
  }

  lemma UserMergedParts(ms: seq<Message>, p: Policy)
    requires OnlyUserParts(ms)
    ensures AllParts(Cuts.UserMerged(ms, p)) == Left(ms, p) && OnlyUserParts(Cuts.UserMerged(ms, p))
  {
    hide OnlyUserParts, AllParts, OwnParts, Turns.Merge, Cuts.Start;
    StartParts(ms, p);
    SamePartsKeep(ms, Cuts.Start(ms, p), false);
    NoParts();
    if p.anthropicTurns {
      assert OnlyUserParts([]) by { NobodyHasParts(); }
      MergeOnlyUsers(Cuts.Start(ms, p), []);
      MergeKeepsOwnParts(Cuts.Start(ms, p), [], User);
    }
  }

  lemma NobodyHasParts()
    ensures OnlyUserParts([])
  {
  }

  lemma AssistantsHaveNone(ms: seq<Message>)
    requires OnlyUserParts(ms)
    ensures NoPartsFollow(ms, Assistant)
  {
  }

  lemma TurnedParts(ms: seq<Message>, p: Policy)
    requires OnlyUserParts(ms)
    ensures AllParts(Cuts.Turned(ms, p)) == Left(ms, p)
  {
    hide OnlyUserParts, AllParts, Left, Turns.Merge, Cuts.UserMerged, Cuts.Turned, NoPartsFollow;
    Cuts.TurnedIs(ms, p);
    UserMergedParts(ms, p);
    AssistantsHaveNone(Cuts.UserMerged(ms, p));
    MergeKeepsPartsIff(Cuts.UserMerged(ms, p), Assistant);
  }

  // ---- The whole pipeline ----

  lemma RecentOnlyUsers(front: seq<Message>, p: Policy)
    requires OnlyUserParts(front)
    ensures OnlyUserParts(Recent(front, p)) && AllParts(Head(front)) == []
  {
    hide Cuts.Cut;
    var recent := Recent(front, p);
    var d := |front| - |recent|;
    forall i | 0 <= i < |recent| && recent[i].role != User ensures recent[i].parts == [] {
      assert recent[i] == front[d + i];
    }
  }

  lemma BackParts(ms: seq<Message>, p: Policy, rand: Randomness)
    ensures AllParts(Back(ms, p, rand)) == AllParts(ms)
  {
    hide AllParts, IdMap, Unchanging, NewId;
    assert SameParts(ms, Back(ms, p, rand));
    SamePartsKeep(ms, Back(ms, p, rand), false);
  }

  /** The parts sent are those of the recent part, without what merging user turns drops. */
  lemma PipelineParts(
    ms: seq<Message>, p: Policy, allowed: set<string>, strip: string -> string, rand: Randomness, out: seq<Message>)
    requires BlockForm(ms) && CleanCallIds(ms) && OnlyUserParts(ms) && Piped(ms, p, allowed, strip, rand, out)
    ensures AllParts(out) == Left(Recent(Front(ms, p, allowed, strip), p), p)
  {
    hide BlockForm, CleanCallIds, OnlyUserParts, AllParts, Front, Middle, Back, Recent, Older, Layer3, Left, Head;
    hide Cuts.Turned, CalledIds;
    var front := Front(ms, p, allowed, strip);
    var recent, seen := Recent(front, p), CalledIds(Older(front, p));
    FrontKeepsClean(ms, p, allowed, strip);
    FrontParts(ms, p, allowed, strip);
    PipedToIs(ms, p, allowed, strip, rand, out);
    MiddleOfRecent(front, p);
    BackParts(Middle(Layer3(front, {}, p), p), p, rand);
    RecentOnlyUsers(front, p);
    PartsAreBlockForm(front, p);
    Layer3Parts(recent, seen, p);
    TurnedParts(Layer3(recent, seen, p), p);
    AllPartsConcat(Head(front), RecentTurned(front, p));
  }

  /** Without a turn limit nothing but a system message is outside the recent part. */
  lemma RecentIsAll(front: seq<Message>, p: Policy)
    requires p.turnLimit <= 0 && OnlyUserParts(front)
    ensures AllParts(Recent(front, p)) == AllParts(front)
    ensures NoPartsFollow(Recent(front, p), User) <==> NoPartsFollow(front, User)
  {
    hide NoPartsFollow;
    assert Recent(front, p) == Body(front);
    if Body(front) != front { NoPartsFollowTail(front, User); }
  }

  /**
   All parts of what the limit keeps are sent if and only if the policy merges no user turns, or no user message
   with parts directly follows another once layer 2 has run. Without a limit these are all parts.
   */
  lemma PipelineKeepsPartsIff(
    ms: seq<Message>, p: Policy, allowed: set<string>, strip: string -> string, rand: Randomness, out: seq<Message>)
    requires BlockForm(ms) && CleanCallIds(ms) && OnlyUserParts(ms) && Piped(ms, p, allowed, strip, rand, out)
    ensures
      var recent := Recent(Front(ms, p, allowed, strip), p);
      AllParts(out) == AllParts(recent) <==> !p.anthropicTurns || NoPartsFollow(recent, User)
    ensures p.turnLimit <= 0 ==>
            (AllParts(out) == AllParts(ms) <==>
             !p.anthropicTurns || NoPartsFollow(Front(ms, p, allowed, strip), User))
  {
    hide BlockForm, CleanCallIds, OnlyUserParts, AllParts, OwnParts, Front, Piped, Recent, NoPartsFollow;
    var front := Front(ms, p, allowed, strip);
    PipelineParts(ms, p, allowed, strip, rand, out);
    FrontParts(ms, p, allowed, strip);
    OwnPartsAreAll(Recent(front, p), false, User);
    if p.turnLimit <= 0 { RecentIsAll(front, p); }
  }

  // ---- Lists the program builds ----

  lemma {:induction false} ResultsHaveNoParts(calls: seq<ToolCall>, responded: map<string, Message>)
    requires Filed(responded)
    ensures OnlyUserParts(ResultsFor(calls, responded))
  {
    hide Trim;
    if calls != [] {
      ResultsHaveNoParts(calls[1..], responded);
      if calls[0].id in responded {
        assert CleanResult(responded[calls[0].id]) == responded[calls[0].id];
        OnlyUsersConcat([responded[calls[0].id]], ResultsFor(calls[1..], responded));
      }
    }
  }

  lemma EmittedParts(t: Theorems.Turn)
    requires Theorems.NormalTurn(t)
    ensures OnlyUserParts(Theorems.Emit(t))
  {
    hide Trim, ValidateCalls, ResultsFor;
    if t.CallTurn? {
      ResultsHaveNoParts(t.calls, t.responded);
      OnlyUsersConcat([PlainMessage(Assistant, t.text).(toolCalls := t.calls)], ResultsFor(t.calls, t.responded));
    }
  }

  lemma {:induction false} FlattenedParts(ts: seq<Theorems.Turn>)
    requires Theorems.Normal(ts)
    ensures OnlyUserParts(Theorems.Flatten(ts))
  {
    hide Theorems.NormalTurn, Theorems.Emit, OnlyUserParts;
    if ts == [] {
      NobodyHasParts();
    } else {
      FlattenedParts(ts[..|ts| - 1]);
      EmittedParts(ts[|ts| - 1]);
      OnlyUsersConcat(Theorems.Flatten(ts[..|ts| - 1]), Theorems.Emit(ts[|ts| - 1]));
    }
  }

  /** From any raw messages: the parts a run starts with. */
  lemma FirstMessagesKeepPartsIff(
    raw: seq<Message>, p: Policy, allowed: set<string>, strip: string -> string, rand: Randomness,
    initial: seq<Message>)
    requires p.turnLimit <= 0 && Piped(Sanitize(raw, []), p, allowed, strip, rand, initial)
    ensures AllParts(initial) == AllParts(Sanitize(raw, [])) <==>
            !p.anthropicTurns || NoPartsFollow(Front(Sanitize(raw, []), p, allowed, strip), User)
  {
    hide Theorems.Normal, Sanitize, BlockForm, CleanCallIds, OnlyUserParts, AllParts, Front, Piped, NoPartsFollow;
    hide Recent;
    Conversation.SanitizedIsClean(raw);
    Theorems.SanitizeIsNormal(raw);
    var ts :| Theorems.Normal(ts) && Sanitize(raw, []) == Theorems.Flatten(ts);
    FlattenedParts(ts);
    PipelineKeepsPartsIff(Sanitize(raw, []), p, allowed, strip, rand, initial);
  }

  // ---- An image that is lost ----

  /** A policy for Claude models. */
  const CLAUDE := Policy(false, true, true, false, 0, true, Strict)

  const IMAGE := ImagePart(Some("u"))

  /** A greeting and then an image, both from the user. */
  function GreetingAndImage(): seq<Message> {
    [PlainMessage(User, "h"), PlainMessage(User, "").(parts := [IMAGE])]
  }

  lemma GreetingAndImageIsNormal()
    ensures Sanitize(GreetingAndImage(), []) == GreetingAndImage()
  {
    TrimmedEnds("h");
    TrimmedEnds("u");
    hide Trim, Sanitize;
    var hello, image := Theorems.UserTurn("h"), Theorems.PartsTurn([IMAGE]);
    assert [IMAGE][1..] == [] && CleanParts([]) == [] && CleanParts([IMAGE]) == [IMAGE];
    assert Theorems.Normal([hello, image]);
    Theorems.FlattenSnoc([], hello);
    Theorems.FlattenSnoc([hello], image);
    assert [] + [hello] == [hello] && [hello] + [image] == [hello, image] && Theorems.Flatten([]) == [];
    assert Theorems.Flatten([hello, image]) == GreetingAndImage();
    Theorems.FixedPoints(GreetingAndImage());
  }

  /** Users call no tools, so no tools are taken away. */
  lemma GreetingPassesFilters(allowed: set<string>, strip: string -> string)
    ensures Front(GreetingAndImage(), CLAUDE, allowed, strip) == GreetingAndImage()
  {
    var ms := GreetingAndImage();
    assert ms[1..] == [ms[1]] && ms[1..][1..] == [];
    assert RemovedIds(ms, allowed) == RemovedIds([ms[1]], allowed) == RemovedIds([], allowed) == {};
  }

  /** The greeting comes through without the image, whatever tools are allowed. */
  lemma ImageIsLost(allowed: set<string>, strip: string -> string, rand: Randomness)
    ensures Sanitize(GreetingAndImage(), []) == GreetingAndImage() && AllParts(GreetingAndImage()) == [IMAGE]
    ensures var initial := PipedTo(GreetingAndImage(), CLAUDE, allowed, strip, rand);
            Piped(GreetingAndImage(), CLAUDE, allowed, strip, rand, initial) && AllParts(initial) == []
  {
    hide Sanitize, Piped, PipedTo, Front;
    var ms := GreetingAndImage();
    var initial := PipedTo(ms, CLAUDE, allowed, strip, rand);
    GreetingAndImageIsNormal();
    Conversation.SanitizedIsClean(ms);
    PipedToIs(ms, CLAUDE, allowed, strip, rand, initial);
    GreetingPassesFilters(allowed, strip);
    PipelineParts(ms, CLAUDE, allowed, strip, rand, initial);
    assert ms[1..] == [ms[1]] && ms[1..][1..] == [];
    assert Recent(ms, CLAUDE) == ms;
  }
}
