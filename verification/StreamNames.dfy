/** Which id, kind and name a streamed call ends up with. */
module StreamNames {
  import opened Text
  import opened Messages
  import opened StreamAccumulator

  /** The last text that is not blank, trimmed; nothing where all are blank. */
  ghost predicate IsLastSaid(texts: seq<string>, r: string) {
    if forall k :: 0 <= k < |texts| ==> Trim(texts[k]) == "" then r == ""
    else exists k :: && 0 <= k < |texts| && Trim(texts[k]) == r != ""
                     && forall j :: k < j < |texts| ==> Trim(texts[j]) == ""
  }

  function TextsOf(pieces: seq<ToolCall>, field: ToolCall -> string): (r: seq<string>)
    ensures |r| == |pieces| && forall k :: 0 <= k < |r| ==> r[k] == field(pieces[k])
  {
    seq(|pieces|, k requires 0 <= k < |pieces| => field(pieces[k]))
  }

  lemma {:induction false} ExtendSnoc(e: Option<Partial>, pieces: seq<ToolCall>, c: ToolCall)
    ensures ExtendAll(e, pieces + [c]) == Extend(ExtendAll(e, pieces), c)
    decreases |pieces|
  {
    hide Extend;
    if pieces == [] {
      assert ([] + [c])[1..] == [];
    } else {
      assert (pieces + [c])[1..] == pieces[1..] + [c];
      ExtendSnoc(Extend(e, pieces[0]), pieces[1..], c);
    }
  }

  lemma LastSaidSnoc(texts: seq<string>, r: string, t: string)
    requires IsLastSaid(texts, r)
    ensures IsLastSaid(texts + [t], Pick(t, r))
  {
    hide Trim;
    var all := texts + [t];
    assert all[|texts|] == t;
    if Trim(t) == "" && !(forall k :: 0 <= k < |texts| ==> Trim(texts[k]) == "") {
      var k :| && 0 <= k < |texts| && Trim(texts[k]) == r != ""
               && forall j :: k < j < |texts| ==> Trim(texts[j]) == "";
      assert all[k] == texts[k];
      forall j | k < j < |all| ensures Trim(all[j]) == "" { if j < |texts| { assert all[j] == texts[j]; } }
    } else if Trim(t) == "" {
      forall k | 0 <= k < |all| ensures Trim(all[k]) == "" { if k < |texts| { assert all[k] == texts[k]; } }
    }
  }

  function IdOf(): ToolCall -> string {
    (c: ToolCall) => c.id
  }

  function KindOf(): ToolCall -> string {
    (c: ToolCall) => c.kind
  }

  function NameOf(): ToolCall -> string {
    (c: ToolCall) => c.name
  }

  lemma {:induction false} NamesOf(pieces: seq<ToolCall>)
    requires pieces != []
    ensures
      var e := ExtendAll(None, pieces);
      && e.Some? && IsLastSaid(TextsOf(pieces, IdOf()), e.value.id)
      && IsLastSaid(TextsOf(pieces, KindOf()), e.value.kind) && IsLastSaid(TextsOf(pieces, NameOf()), e.value.name)
  {
    hide IsLastSaid, Pick, ExtendAll;
    var pre, last := pieces[..|pieces| - 1], pieces[|pieces| - 1];
    assert pieces == pre + [last];
    ExtendSnoc(None, pre, last);
    forall field: ToolCall -> string ensures TextsOf(pieces, field) == TextsOf(pre, field) + [field(last)] {}
    NothingSaid();
    if pre != [] { NamesOf(pre); }
    var held := if pre == [] then BLANK else ExtendAll(None, pre).value;
    if pre == [] {
      assert ExtendAll(None, pre) == None by { ExtendNothing(); }
      assert TextsOf(pre, IdOf()) == TextsOf(pre, KindOf()) == TextsOf(pre, NameOf()) == [];
    }
    LastSaidSnoc(TextsOf(pre, IdOf()), held.id, last.id);
    LastSaidSnoc(TextsOf(pre, KindOf()), held.kind, last.kind);
    LastSaidSnoc(TextsOf(pre, NameOf()), held.name, last.name);
  }

  lemma NothingSaid()
    ensures IsLastSaid([], "")
  {
  }

  lemma ExtendNothing()
    ensures ExtendAll(None, []) == None
  {
  }

  /** The id, kind and name of a call are each the last one its own pieces give. */
  lemma NamesAreLastPieces(chunks: seq<ToolCall>, k: nat)
    requires AllIndexed(chunks) && Pieces(chunks, k) != []
    ensures
      var e, pieces := Entry(MergeAll([], chunks), k), Pieces(chunks, k);
      && e.Some? && IsLastSaid(TextsOf(pieces, IdOf()), e.value.id)
      && IsLastSaid(TextsOf(pieces, KindOf()), e.value.kind) && IsLastSaid(TextsOf(pieces, NameOf()), e.value.name)
  {
    hide IsLastSaid, Extend, MergeAll, ExtendAll;
    SlotFromPieces([], chunks, k);
    NamesOf(Pieces(chunks, k));
  }
}
