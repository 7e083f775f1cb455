/** What the repair of layer 3 says: messages of its input, and a note for each call that has no result. */
module RepairNotes {
  import opened Text
  import opened Messages
  import opened Repair

  /** Every pending id was called, by the pending name. */
  predicate NamesFrom(l: Ledger, calls: seq<ToolCall>) {
    forall id :: id in l.pending ==> Named(calls, id, l.pending[id])
  }

  predicate Named(calls: seq<ToolCall>, id: string, name: string) {
    exists k :: 0 <= k < |calls| && Trim(calls[k].id) == id && Trim(calls[k].name) == name
  }

  /** A note for a call that has no result. */
  predicate IsNote(m: Message, calls: seq<ToolCall>) {
    && m.role == Tool && m.content == "[tool result unavailable — execution was interrupted or timed out]"
    && Named(calls, m.toolCallId, m.name)
  }

  lemma NamedMore(a: seq<ToolCall>, b: seq<ToolCall>, id: string, name: string)
    requires Named(a, id, name) || Named(b, id, name)
    ensures Named(a + b, id, name)
  {
    hide Trim;
    if Named(a, id, name) {
      var k :| 0 <= k < |a| && Trim(a[k].id) == id && Trim(a[k].name) == name;
      assert (a + b)[k] == a[k];
    } else {
      var k :| 0 <= k < |b| && Trim(b[k].id) == id && Trim(b[k].name) == name;
      assert (a + b)[|a| + k] == b[k];
    }
  }

  lemma {:induction false} NoteCallsNames(calls: seq<ToolCall>, pending: map<string, string>, id: string)
    requires id in NoteCalls(calls, pending)
    ensures
      var name := NoteCalls(calls, pending)[id];
      Named(calls, id, name) || (id in pending && pending[id] == name)
    decreases |calls|
  {
    hide Trim, Named;
    if calls != [] {
      var first := Trim(calls[0].id);
      var next := if first == "" then pending else pending[first := Trim(calls[0].name)];
      NoteCallsNames(calls[1..], next, id);
      assert calls == [calls[0]] + calls[1..];
      if Named(calls[1..], id, NoteCalls(calls, pending)[id]) {
        NamedMore([calls[0]], calls[1..], id, NoteCalls(calls, pending)[id]);
      } else if first == id {
        NamedOne(calls[0]);
        NamedMore([calls[0]], calls[1..], id, Trim(calls[0].name));
      }
    }
  }

  lemma NamedOne(c: ToolCall)
    ensures Named([c], Trim(c.id), Trim(c.name))
  {
    hide Trim;
    assert [c][0] == c;
  }

  lemma {:induction false} FlushIsNotes(fs: seq<Message>, l: Ledger, calls: seq<ToolCall>, k: nat)
    requires IsFlush(fs, l) && NamesFrom(l, calls) && k < |fs|
    ensures IsNote(fs[k], calls)
    decreases |fs|
  {
    hide Named;
    if k > 0 { FlushIsNotes(fs[1..], Answer(l, fs[0].toolCallId), calls, k - 1); }
  }

  lemma NotedNames(m: Message, l: Ledger, calls: seq<ToolCall>)
    requires NamesFrom(l, calls)
    ensures NamesFrom(l.(pending := NoteCalls(m.toolCalls, l.pending)), calls + m.toolCalls)
  {
    hide Named, NoteCalls;
    var pending := NoteCalls(m.toolCalls, l.pending);
    forall id | id in pending ensures Named(calls + m.toolCalls, id, pending[id]) {
      NoteCallsNames(m.toolCalls, l.pending, id);
      NamedMore(calls, m.toolCalls, id, pending[id]);
    }
  }

  /** From position to position, a message of the input or a note. */
  lemma {:induction false} RealOrNoteFrom(ms: seq<Message>, l: Ledger, out: seq<Message>, calls: seq<ToolCall>, k: nat)
    requires Repaired(ms, l, out) && NamesFrom(l, calls) && k < |out|
    ensures out[k] in ms || IsNote(out[k], calls + AllCalls(ms))
    decreases |ms|
  {
    hide Trim, IsNote, NamesFrom, NoteCalls, Unanswered, Wanted, IsFlush, AllCalls, Answer, AnswerAll;
    CallsFirst(ms);
    if ms == [] {
      FlushIsNotes(out, l, calls, k);
      assert calls + [] == calls;
    } else if ms[0].role == Assistant {
      var more := calls + ms[0].toolCalls;
      NotedNames(ms[0], l, calls);
      if k > 0 {
        RealOrNoteFrom(ms[1..], l.(pending := NoteCalls(ms[0].toolCalls, l.pending)), out[1..], more, k - 1);
      }
      assert more + AllCalls(ms[1..]) == calls + AllCalls(ms);
    } else if ms[0].role == Tool {
      var id := Trim(ms[0].toolCallId);
      SameNames(l, id, calls);
      if !Wanted(ms[0], l) {
        RealOrNoteFrom(ms[1..], l, out, calls, k);
      } else if k > 0 {
        RealOrNoteFrom(ms[1..], Answer(l, id), out[1..], calls, k - 1);
      }
    } else {
      var n := |Unanswered(l)|;
      SameNames(l, "", calls);
      if k < n {
        FlushIsNotes(out[..n], l, calls, k);
        MoreNotes(out[k], calls, AllCalls(ms));
      } else if k > n {
        RealOrNoteFrom(ms[1..], AnswerAll(l), out[n + 1..], calls, k - n - 1);
      }
    }
  }

  lemma CallsFirst(ms: seq<Message>)
    ensures ms == [] ==> AllCalls(ms) == []
    ensures ms != [] ==>
              AllCalls(ms) == if ms[0].role == Assistant then ms[0].toolCalls + AllCalls(ms[1..]) else AllCalls(ms[1..])
  {
  }

  lemma SameNames(l: Ledger, id: string, calls: seq<ToolCall>)
    requires NamesFrom(l, calls)
    ensures NamesFrom(Answer(l, id), calls) && NamesFrom(AnswerAll(l), calls)
  {
  }

  lemma MoreNotes(m: Message, a: seq<ToolCall>, b: seq<ToolCall>)
    requires IsNote(m, a)
    ensures IsNote(m, a + b)
  {
    hide Named;
    NamedMore(a, b, m.toolCallId, m.name);
  }

  /** On any list: every message afterwards was there before, or is the note for a call, naming its tool. */
  lemma RealOrNote(ms: seq<Message>, out: seq<Message>, k: nat)
    requires Repaired(ms, EMPTY, out) && k < |out|
    ensures out[k] in ms || IsNote(out[k], AllCalls(ms))
  {
    hide IsNote, Repaired;
    RealOrNoteFrom(ms, EMPTY, out, [], k);
    assert [] + AllCalls(ms) == AllCalls(ms);
  }
}
