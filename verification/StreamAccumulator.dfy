/** Streamed tool calls: deltas are merged into calls by index, whatever the batching and the interleaving. */
module StreamAccumulator {
  import opened Text
  import opened Messages

  /** A call under construction. */
  datatype Partial = Partial(id: string, kind: string, name: string, arguments: string)

  const BLANK := Partial("", "", "", "")

  type Slots = seq<Option<Partial>>

  function Pick(delta: string, held: string): string {
    if Trim(delta) != "" then Trim(delta) else held
  }

  /** Later non-blank names win; arguments add up. */
  function Overlay(p: Partial, c: ToolCall): Partial {
    Partial(Pick(c.id, p.id), Pick(c.kind, p.kind), Pick(c.name, p.name), p.arguments + c.arguments)
  }

  predicate HasIndex(c: ToolCall) {
    c.index.Some? && c.index.value >= 0
  }

  /** The slot a chunk goes to: its index, or a new one at the end. */
  function Target(length: nat, c: ToolCall): nat {
    if HasIndex(c) then c.index.value else length
  }

  function Entry(s: Slots, k: nat): Option<Partial> {
    if k < |s| then s[k] else None
  }

  function Extend(e: Option<Partial>, c: ToolCall): Option<Partial> {
    Some(Overlay(if e.Some? then e.value else BLANK, c))
  }

  function Max(a: nat, b: nat): nat {
    if a < b then b else a
  }

  function Merge(s: Slots, c: ToolCall): (r: Slots)
    ensures |r| == Max(|s|, Target(|s|, c) + 1)
    ensures forall k :: 0 <= k < |r| ==> r[k] == if k == Target(|s|, c) then Extend(Entry(s, k), c) else Entry(s, k)
  {
    var at := Target(|s|, c);
    seq(Max(|s|, at + 1), k requires k >= 0 => if k == at then Extend(Entry(s, k), c) else Entry(s, k))
  }

  function MergeAll(s: Slots, chunks: seq<ToolCall>): Slots
    decreases |chunks|
  {
    if chunks == [] then s else MergeAll(Merge(s, chunks[0]), chunks[1..])
  }

  // ---- The accumulator ----

  class Call {
    var id: string
    var kind: string
    var name: string
    var arguments: string

    constructor ()
      ensures Value() == BLANK
    {
      id, kind, name, arguments := "", "", "", "";
    }

    ghost function Value(): Partial reads this {
      Partial(id, kind, name, arguments)
    }

    method Absorb(chunk: ToolCall)
      modifies this
      ensures Value() == Overlay(old(Value()), chunk)
    {
      hide Trim;
      if Trim(chunk.id) != "" { id := Trim(chunk.id); }
      if Trim(chunk.kind) != "" { kind := Trim(chunk.kind); }
      if Trim(chunk.name) != "" { name := Trim(chunk.name); }
      if chunk.arguments != "" { arguments := arguments + chunk.arguments; }
    }
  }

  /** No two slots share a call. */
  ghost predicate Separate(calls: seq<Call?>) {
    forall i, j :: 0 <= i < j < |calls| && calls[i] != null ==> calls[i] != calls[j]
  }

  ghost function View(calls: seq<Call?>): (v: Slots)
    reads calls
    ensures |v| == |calls|
    ensures forall k :: 0 <= k < |v| ==> v[k] == if calls[k] == null then None else Some(calls[k].Value())
  {
    if calls == [] then []
    else
      var last := calls[|calls| - 1];
      View(calls[..|calls| - 1]) + [if last == null then None else Some(last.Value())]
  }

  /** The slot, with a call in it, in a slice grown to hold it. */
  method EnsureIndex(existing: seq<Call?>, index: nat) returns (out: seq<Call?>)
    requires Separate(existing)
    ensures Separate(out) && |out| == Max(|existing|, index + 1) && out[index] != null
    ensures forall k :: 0 <= k < |existing| && existing[k] != null ==> out[k] == existing[k]
    ensures forall k :: 0 <= k < |out| && k != index ==> out[k] == if k < |existing| then existing[k] else null
    ensures index >= |existing| || existing[index] == null ==> fresh(out[index]) && out[index].Value() == BLANK
  {
    out := existing;
    while |out| <= index
      invariant |existing| <= |out| <= Max(|existing|, index + 1)
      invariant out[..|existing|] == existing && forall k :: |existing| <= k < |out| ==> out[k] == null
      decreases index + 1 - |out|
    {
      out := out + [null];
    }
    if out[index] == null {
      var call := new Call();
      out := out[index := call];
    }
  }

  method MergeChunk(existing: seq<Call?>, chunk: ToolCall) returns (out: seq<Call?>)
    requires Separate(existing)
    modifies existing
    ensures Separate(out) && forall k :: 0 <= k < |out| && out[k] != null && out[k] !in existing ==> fresh(out[k])
    ensures View(out) == Merge(old(View(existing)), chunk)
  {
    hide Overlay, Separate, View, Merge;
    var index := |existing|;
    if chunk.index.Some? && chunk.index.value >= 0 { index := chunk.index.value; }
    ghost var was := View(existing);
    out := EnsureIndex(existing, index);
    var acc := out[index];
    ghost var grown := View(out);
    assert acc.Value() == if Entry(was, index).Some? then Entry(was, index).value else BLANK;
    assert forall k :: 0 <= k < |out| && k != index ==> grown[k] == Entry(was, k) && out[k] != acc by {
      OtherSlots(out, index);
    }
    acc.Absorb(chunk);
    assert forall k :: 0 <= k < |out| && k != index ==> View(out)[k] == grown[k];
    assert View(out) == Merge(was, chunk);
  }

  lemma OtherSlots(calls: seq<Call?>, index: nat)
    requires Separate(calls) && index < |calls| && calls[index] != null
    ensures forall k :: 0 <= k < |calls| && k != index ==> calls[k] != calls[index]
  {
  }

  method AccumulateOpenAIToolCalls(existing: seq<Call?>, chunks: seq<ToolCall>) returns (out: seq<Call?>)
    requires Separate(existing)
    modifies existing
    ensures Separate(out) && forall k :: 0 <= k < |out| && out[k] != null && out[k] !in existing ==> fresh(out[k])
    ensures View(out) == MergeAll(old(View(existing)), chunks)
  {
    out := existing;
    for i := 0 to |chunks|
      invariant Separate(out)
      invariant forall k :: 0 <= k < |out| && out[k] != null && out[k] !in existing ==> fresh(out[k])
      invariant MergeAll(View(out), chunks[i..]) == MergeAll(old(View(existing)), chunks)
    {
      assert chunks[i..][1..] == chunks[i + 1..];
      out := MergeChunk(out, chunks[i]);
    }
  }

  function Compact(s: Slots): seq<Partial> {
    if s == [] then [] else if s[0].Some? then [s[0].value] + Compact(s[1..]) else Compact(s[1..])
  }

  method CompactOpenAIToolCalls(accumulators: seq<Call?>) returns (toolCalls: seq<Partial>)
    ensures toolCalls == Compact(View(accumulators))
  {
    toolCalls := [];
    ghost var v := View(accumulators);
    for i := 0 to |accumulators|
      invariant toolCalls + Compact(v[i..]) == Compact(v)
    {
      assert v[i..][1..] == v[i + 1..];
      var acc := accumulators[i];
      if acc != null { toolCalls := toolCalls + [Partial(acc.id, acc.kind, acc.name, acc.arguments)]; }
    }
  }

  // ---- Batching ----

  /** Where the stream is cut into batches makes no difference. */
  lemma {:induction false} Batching(s: Slots, a: seq<ToolCall>, b: seq<ToolCall>)
    ensures MergeAll(MergeAll(s, a), b) == MergeAll(s, a + b)
    decreases |a|
  {
    hide Merge;
    if a == [] {
      assert a + b == b;
    } else {
      assert (a + b)[1..] == a[1..] + b;
      Batching(Merge(s, a[0]), a[1..], b);
    }
  }

  // ---- Interleaving ----

  predicate AllIndexed(chunks: seq<ToolCall>) {
    forall i :: 0 <= i < |chunks| ==> HasIndex(chunks[i])
  }

  /** The chunks with index k, in order. */
  function Pieces(chunks: seq<ToolCall>, k: nat): seq<ToolCall> {
    if chunks == [] then []
    else if chunks[0].index == Some(k) then [chunks[0]] + Pieces(chunks[1..], k)
    else Pieces(chunks[1..], k)
  }

  function ExtendAll(e: Option<Partial>, pieces: seq<ToolCall>): Option<Partial>
    decreases |pieces|
  {
    if pieces == [] then e else ExtendAll(Extend(e, pieces[0]), pieces[1..])
  }

  /** Each slot is built from its own chunks alone. */
  lemma {:induction false} SlotFromPieces(s: Slots, chunks: seq<ToolCall>, k: nat)
    requires AllIndexed(chunks)
    ensures Entry(MergeAll(s, chunks), k) == ExtendAll(Entry(s, k), Pieces(chunks, k))
    decreases |chunks|
  {
    hide Extend;
    if chunks != [] {
      SlotFromPieces(Merge(s, chunks[0]), chunks[1..], k);
      var p := Pieces(chunks, k);
      if chunks[0].index == Some(k) { assert p[1..] == Pieces(chunks[1..], k); }
    }
  }

  /** The last slot is never empty. */
  predicate Tight(s: Slots) {
    s != [] ==> s[|s| - 1].Some?
  }

  lemma {:induction false} StaysTight(s: Slots, chunks: seq<ToolCall>)
    requires Tight(s)
    ensures Tight(MergeAll(s, chunks))
    decreases |chunks|
  {
    hide Extend;
    if chunks != [] {
      assert Tight(Merge(s, chunks[0])) by { MergeStaysTight(s, chunks[0]); }
      StaysTight(Merge(s, chunks[0]), chunks[1..]);
    }
  }

  lemma MergeStaysTight(s: Slots, c: ToolCall)
    requires Tight(s)
    ensures Tight(Merge(s, c))
  {
    hide Overlay;
  }

  /** Streams whose chunks agree index by index build the same calls, however the indices interleave. */
  lemma InterleavingIsIrrelevant(a: seq<ToolCall>, b: seq<ToolCall>)
    requires AllIndexed(a) && AllIndexed(b)
    requires forall k: nat :: Pieces(a, k) == Pieces(b, k)
    ensures MergeAll([], a) == MergeAll([], b)
  {
    hide MergeAll, Merge;
    var x, y := MergeAll([], a), MergeAll([], b);
    StaysTight([], a);
    StaysTight([], b);
    forall k: nat ensures Entry(x, k) == Entry(y, k) {
      SlotFromPieces([], a, k);
      SlotFromPieces([], b, k);
      assert Pieces(a, k) == Pieces(b, k);
    }
    SameEntries(x, y);
  }

  lemma SameEntries(x: Slots, y: Slots)
    requires Tight(x) && Tight(y) && forall k: nat :: Entry(x, k) == Entry(y, k)
    ensures x == y
  {
    if x != [] { assert Entry(x, |x| - 1) == Entry(y, |x| - 1); }
    if y != [] { assert Entry(x, |y| - 1) == Entry(y, |y| - 1); }
    forall k | 0 <= k < |x| ensures x[k] == y[k] {
      assert Entry(x, k) == Entry(y, k);
    }
  }

  function JoinArguments(pieces: seq<ToolCall>): string {
    if pieces == [] then "" else pieces[0].arguments + JoinArguments(pieces[1..])
  }

  lemma {:induction false} ArgumentsOf(e: Option<Partial>, pieces: seq<ToolCall>)
    requires pieces != []
    ensures ExtendAll(e, pieces).Some?
    ensures ExtendAll(e, pieces).value.arguments
         == (if e.Some? then e.value.arguments else "") + JoinArguments(pieces)
    decreases |pieces|
  {
    hide Pick;
    if |pieces| > 1 {
      ArgumentsOf(Extend(e, pieces[0]), pieces[1..]);
    } else {
      assert pieces[1..] == [];
    }
  }

  /** A call exists iff some chunk has its index, and its arguments are its own pieces in order. */
  lemma ArgumentsAreOwnPieces(chunks: seq<ToolCall>, k: nat)
    requires AllIndexed(chunks)
    ensures var e := Entry(MergeAll([], chunks), k);
            && (e.Some? <==> Pieces(chunks, k) != [])
            && (e.Some? ==> e.value.arguments == JoinArguments(Pieces(chunks, k)))
  {
    hide Extend;
    SlotFromPieces([], chunks, k);
    if Pieces(chunks, k) != [] {
      ArgumentsOf(None, Pieces(chunks, k));
      assert "" + JoinArguments(Pieces(chunks, k)) == JoinArguments(Pieces(chunks, k));
    }
  }

  /** A chunk without an index opens a slot at the end, so it commutes with an indexed one iff that slot exists. */
  lemma UnindexedCommutesIff(s: Slots, loose: ToolCall, c: ToolCall)
    requires !HasIndex(loose) && HasIndex(c)
    ensures Merge(Merge(s, loose), c) == Merge(Merge(s, c), loose) <==> c.index.value < |s|
  {
    hide Extend;
    var x, y := Merge(Merge(s, loose), c), Merge(Merge(s, c), loose);
    if c.index.value < |s| {
      assert x == y;
    } else {
      assert |x| != |y|;
    }
  }
}
