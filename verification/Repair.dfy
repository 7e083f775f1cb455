/**
 Layer 3: RepairToolUseResultPairing. The map of pending calls is walked in arbitrary order when it is
 flushed, so the specification is a relation between the input and any output the code may produce.
 */
module Repair {
  import opened Text
  import opened Messages

  const UNAVAILABLE := "[tool result unavailable — execution was interrupted or timed out]"

  /** What the loop remembers: the tool name of every called id, and the ids already answered. */
  datatype Ledger = Ledger(pending: map<string, string>, answered: set<string>)

  function NoteCalls(calls: seq<ToolCall>, pending: map<string, string>): map<string, string> {
    if calls == [] then pending
    else
      var id := Trim(calls[0].id);
      NoteCalls(calls[1..], if id == "" then pending else pending[id := Trim(calls[0].name)])
  }

  function Unanswered(l: Ledger): set<string> {
    l.pending.Keys - l.answered
  }

  function Synthetic(id: string, name: string): Message {
    Message(Tool, UNAVAILABLE, [], name, [], id)
  }

  /** The result carries an id that is called and not yet answered. */
  predicate Wanted(m: Message, l: Ledger) {
    Trim(m.toolCallId) != "" && Trim(m.toolCallId) in Unanswered(l)
  }

  function Answer(l: Ledger, id: string): Ledger {
    l.(answered := l.answered + {id})
  }

  function AnswerAll(l: Ledger): Ledger {
    l.(answered := l.answered + l.pending.Keys)
  }

  /** `fs` holds one synthetic result for each unanswered id, in some order. */
  predicate IsFlush(fs: seq<Message>, l: Ledger) {
    if fs == [] then Unanswered(l) == {}
    else
      var id := fs[0].toolCallId;
      && id in Unanswered(l)
      && fs[0] == Synthetic(id, l.pending[id])
      && IsFlush(fs[1..], Answer(l, id))
  }

  /** Some run of the repair, started with this ledger, turns `ms` into `out`. */
  predicate Repaired(ms: seq<Message>, l: Ledger, out: seq<Message>)
    decreases |ms|
  {
    if ms == [] then IsFlush(out, l)
    else
      var m := ms[0];
      match m.role
      case Assistant =>
        out != [] && out[0] == m && Repaired(ms[1..], l.(pending := NoteCalls(m.toolCalls, l.pending)), out[1..])
      case Tool =>
        if Wanted(m, l) then
          out != [] && out[0] == m && Repaired(ms[1..], Answer(l, Trim(m.toolCallId)), out[1..])
        else Repaired(ms[1..], l, out)
      case _ =>
        var n := |Unanswered(l)|;
        && n < |out|
        && IsFlush(out[..n], l)
        && out[n] == m
        && Repaired(ms[1..], AnswerAll(l), out[n + 1..])
  }

  const EMPTY := Ledger(map[], {})

  /** Whatever completes the rest of the run completes `done` to a repair of the whole list. */
  ghost predicate SoFar(ms: seq<Message>, todo: seq<Message>, l: Ledger, done: seq<Message>) {
    forall rest {:trigger Repaired(todo, l, rest)} :: Repaired(todo, l, rest) ==> Repaired(ms, EMPTY, done + rest)
  }

  method RepairToolUseResultPairing(messages: seq<Message>) returns (out: seq<Message>)
    ensures Repaired(messages, EMPTY, out)
  {
    hide Trim, NoteCalls, SoFar;
    out := [];
    var pending, answered := map[], {};
    SoFarStart(messages);
    assert messages[0..] == messages;
    for i := 0 to |messages|
      invariant SoFar(messages, messages[i..], Ledger(pending, answered), out)
    {
      ghost var todo, l := messages[i..], Ledger(pending, answered);
      assert todo[0] == messages[i] && todo[1..] == messages[i + 1..];
      var msg := messages[i];
      match msg.role
      case Assistant =>
        SoFarAssistant(messages, todo, l, out);
        out := out + [msg];
        pending := RecordCalls(msg.toolCalls, pending);
      case Tool =>
        SoFarTool(messages, todo, l, out);
        var id := Trim(msg.toolCallId);
        if id != "" && id in pending && id !in answered {
          answered := answered + {id};
          out := out + [msg];
        }
      case _ =>
        var flush := Flush(pending, answered);
        SoFarOther(messages, todo, l, out, flush);
        answered := answered + pending.Keys;
        out := out + flush + [msg];
    }
    ghost var done, l := out, Ledger(pending, answered);
    var flush := Flush(pending, answered);
    assert messages[|messages|..] == [];
    SoFarEnd(messages, l, done, flush);
    out := out + flush;
  }

  method RecordCalls(calls: seq<ToolCall>, before: map<string, string>) returns (pending: map<string, string>)
    ensures pending == NoteCalls(calls, before)
  {
    hide Trim;
    pending := before;
    for k := 0 to |calls|
      invariant NoteCalls(calls[k..], pending) == NoteCalls(calls, before)
    {
      assert calls[k..][1..] == calls[k + 1..];
      var id := Trim(calls[k].id);
      if id != "" { pending := pending[id := Trim(calls[k].name)]; }
    }
  }

  /** The loop over the pending map, in whatever order its keys come. */
  method Flush(pending: map<string, string>, answered: set<string>) returns (fs: seq<Message>)
    ensures IsFlush(fs, Ledger(pending, answered))
  {
    var keys := pending.Keys;
    var done := answered;
    fs := [];
    while keys != {}
      invariant keys <= pending.Keys && pending.Keys - keys <= done
      invariant Unanswered(Ledger(pending, done)) == keys - answered
      invariant FlushSoFar(fs, Ledger(pending, answered), Ledger(pending, done))
      decreases keys
    {
      var id :| id in keys;
      if id !in done {
        FlushSnoc(fs, Ledger(pending, answered), Ledger(pending, done), id);
        fs := fs + [Synthetic(id, pending[id])];
        done := done + {id};
      }
      keys := keys - {id};
    }
    FlushComplete(fs, Ledger(pending, answered), Ledger(pending, done));
  }

  /** `fs` answers some unanswered ids of `l`, leaving `end`. */
  ghost predicate FlushSoFar(fs: seq<Message>, l: Ledger, end: Ledger) {
    if fs == [] then Unanswered(l) == Unanswered(end) && l.pending == end.pending
    else
      var id := fs[0].toolCallId;
      id in Unanswered(l) && fs[0] == Synthetic(id, l.pending[id]) && FlushSoFar(fs[1..], Answer(l, id), end)
  }

  lemma {:induction false} FlushSnoc(fs: seq<Message>, l: Ledger, end: Ledger, id: string)
    requires FlushSoFar(fs, l, end) && id in Unanswered(end)
    ensures FlushSoFar(fs + [Synthetic(id, end.pending[id])], l, Answer(end, id))
    decreases |fs|
  {
    var s := Synthetic(id, end.pending[id]);
    if fs == [] {
      assert ([] + [s])[1..] == [];
      assert fs + [s] == [s];
    } else {
      FlushSnoc(fs[1..], Answer(l, fs[0].toolCallId), end, id);
      assert (fs + [s])[1..] == fs[1..] + [s];
    }
  }

  lemma {:induction false} FlushComplete(fs: seq<Message>, l: Ledger, end: Ledger)
    requires FlushSoFar(fs, l, end) && Unanswered(end) == {}
    ensures IsFlush(fs, l)
  {
    if fs != [] { FlushComplete(fs[1..], Answer(l, fs[0].toolCallId), end); }
  }

  lemma SoFarStart(ms: seq<Message>)
    ensures SoFar(ms, ms, EMPTY, [])
  {
    hide Repaired;
    forall rest | Repaired(ms, EMPTY, rest) ensures Repaired(ms, EMPTY, [] + rest) {
      assert [] + rest == rest;
    }
  }

  lemma SoFarAssistant(ms: seq<Message>, todo: seq<Message>, l: Ledger, done: seq<Message>)
    requires SoFar(ms, todo, l, done) && todo != [] && todo[0].role == Assistant
    ensures SoFar(ms, todo[1..], l.(pending := NoteCalls(todo[0].toolCalls, l.pending)), done + [todo[0]])
  {
    hide Trim, NoteCalls;
    var next := l.(pending := NoteCalls(todo[0].toolCalls, l.pending));
    forall rest | Repaired(todo[1..], next, rest) ensures Repaired(ms, EMPTY, done + [todo[0]] + rest) {
      assert ([todo[0]] + rest)[1..] == rest;
      assert Repaired(todo, l, [todo[0]] + rest);
      assert done + [todo[0]] + rest == done + ([todo[0]] + rest);
    }
  }

  lemma SoFarTool(ms: seq<Message>, todo: seq<Message>, l: Ledger, done: seq<Message>)
    requires SoFar(ms, todo, l, done) && todo != [] && todo[0].role == Tool
    ensures
      if Wanted(todo[0], l) then SoFar(ms, todo[1..], Answer(l, Trim(todo[0].toolCallId)), done + [todo[0]])
      else SoFar(ms, todo[1..], l, done)
  {
    hide Trim, NoteCalls;
    if Wanted(todo[0], l) {
      var next := Answer(l, Trim(todo[0].toolCallId));
      forall rest | Repaired(todo[1..], next, rest) ensures Repaired(ms, EMPTY, done + [todo[0]] + rest) {
        assert ([todo[0]] + rest)[1..] == rest;
        assert Repaired(todo, l, [todo[0]] + rest);
        assert done + [todo[0]] + rest == done + ([todo[0]] + rest);
      }
    } else {
      forall rest | Repaired(todo[1..], l, rest) ensures Repaired(ms, EMPTY, done + rest) {
        assert Repaired(todo, l, rest);
      }
    }
  }

  lemma SoFarOther(ms: seq<Message>, todo: seq<Message>, l: Ledger, done: seq<Message>, flush: seq<Message>)
    requires SoFar(ms, todo, l, done) && todo != [] && todo[0].role != Tool && todo[0].role != Assistant
    requires IsFlush(flush, l)
    ensures SoFar(ms, todo[1..], AnswerAll(l), done + flush + [todo[0]])
  {
    hide Trim, NoteCalls, IsFlush, Unanswered;
    FlushLength(flush, l);
    forall rest | Repaired(todo[1..], AnswerAll(l), rest)
      ensures Repaired(ms, EMPTY, done + flush + [todo[0]] + rest)
    {
      var all := flush + [todo[0]] + rest;
      assert all[..|flush|] == flush && all[|flush| + 1..] == rest;
      assert Repaired(todo, l, all);
      assert done + flush + [todo[0]] + rest == done + all;
    }
  }

  lemma SoFarEnd(ms: seq<Message>, l: Ledger, done: seq<Message>, flush: seq<Message>)
    requires SoFar(ms, [], l, done) && IsFlush(flush, l)
    ensures Repaired(ms, EMPTY, done + flush)
  {
    assert Repaired([], l, flush);
  }

  lemma {:induction false} FlushLength(fs: seq<Message>, l: Ledger)
    requires IsFlush(fs, l)
    ensures |fs| == |Unanswered(l)|
  {
    if fs != [] {
      var id := fs[0].toolCallId;
      FlushLength(fs[1..], Answer(l, id));
      assert Unanswered(l) == Unanswered(Answer(l, id)) + {id};
    }
  }
}
