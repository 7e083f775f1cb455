/** Strings as the sanitizers see them: `strings.TrimSpace` and `strings.ToLower`. */
module Text {

  datatype Option<+T> = None | Some(value: T)

  /** The characters `strings.TrimSpace` removes (Unicode White_Space). */
  predicate IsSpace(c: char) {
    || '\t' <= c <= '\r'
    || c == ' ' || c == '\U{0085}' || c == '\U{00A0}' || c == '\U{1680}'
    || '\U{2000}' <= c <= '\U{200A}'
    || c == '\U{2028}' || c == '\U{2029}' || c == '\U{202F}' || c == '\U{205F}' || c == '\U{3000}'
  }

  function TrimLeft(s: string): (r: string)
    ensures |r| <= |s| && (r != "" ==> !IsSpace(r[0]))
  {
    if s != "" && IsSpace(s[0]) then TrimLeft(s[1..]) else s
  }

  function TrimRight(s: string): (r: string)
    ensures |r| <= |s| && (r != "" ==> !IsSpace(r[|r| - 1]))
    ensures r == s[..|r|]
  {
    if s != "" && IsSpace(s[|s| - 1]) then TrimRight(s[..|s| - 1]) else s
  }

  function Trim(s: string): (r: string)
    ensures |r| <= |s|
  {
    TrimRight(TrimLeft(s))
  }

  /** Trimming changes nothing. */
  predicate Trimmed(s: string) {
    Trim(s) == s
  }

  /** Trimmed strings are those with no white space at either end. */
  lemma TrimmedEnds(s: string)
    ensures Trimmed(s) <==> s == "" || (!IsSpace(s[0]) && !IsSpace(s[|s| - 1]))
  {
  }

  lemma TrimTwice(s: string)
    ensures Trimmed(Trim(s))
  {
  }

  lemma {:induction false} TrimLeftIsSuffix(s: string)
    ensures var n := |s| - |TrimLeft(s)|; TrimLeft(s) == s[n..] && forall k :: 0 <= k < n ==> IsSpace(s[k])
  {
    if s != "" && IsSpace(s[0]) {
      TrimLeftIsSuffix(s[1..]);
      forall k | 0 < k < |s| ensures s[k] == s[1..][k - 1] {}
    }
  }

  lemma {:induction false} TrimRightDropsSpace(s: string)
    ensures forall k :: |TrimRight(s)| <= k < |s| ==> IsSpace(s[k])
  {
    if s != "" && IsSpace(s[|s| - 1]) { TrimRightDropsSpace(s[..|s| - 1]); }
  }

  /** What trimming removes is white space, and it removes it from the ends only. */
  lemma TrimIsSlice(s: string)
    ensures exists i, j ::
              && 0 <= i <= j <= |s| && Trim(s) == s[i..j]
              && forall k :: 0 <= k < i || j <= k < |s| ==> IsSpace(s[k])
  {
    var left := TrimLeft(s);
    var i := |s| - |left|;
    var j := i + |Trim(s)|;
    TrimLeftIsSuffix(s);
    TrimRightDropsSpace(left);
    assert Trim(s) == left[..|Trim(s)|] == s[i..j];
    forall k | j <= k < |s| ensures IsSpace(s[k]) {
      assert s[k] == left[k - i];
    }
  }

  lemma {:induction false} TrimLeftAfterSpace(space: string, s: string)
    requires forall k :: 0 <= k < |space| ==> IsSpace(space[k])
    ensures TrimLeft(space + s) == TrimLeft(s)
  {
    hide IsSpace;
    if space == "" {
      assert space + s == s;
    } else {
      assert (space + s)[1..] == space[1..] + s;
      TrimLeftAfterSpace(space[1..], s);
    }
  }

  lemma {:induction false} TrimRightBeforeSpace(s: string, space: string)
    requires forall k :: 0 <= k < |space| ==> IsSpace(space[k])
    ensures TrimRight(s + space) == TrimRight(s)
    decreases |space|
  {
    hide IsSpace;
    if space == "" {
      assert s + space == s;
    } else {
      assert (s + space)[..|s + space| - 1] == s + space[..|space| - 1];
      TrimRightBeforeSpace(s, space[..|space| - 1]);
    }
  }

  lemma {:induction false} TrimLeftKeepsTail(s: string, tail: string)
    ensures TrimLeft(s) != "" ==> TrimLeft(s + tail) == TrimLeft(s) + tail
    ensures TrimLeft(s) == "" ==> TrimLeft(s + tail) == TrimLeft(tail)
  {
    hide IsSpace;
    if s == "" {
      assert s + tail == tail;
    } else if IsSpace(s[0]) {
      assert (s + tail)[1..] == s[1..] + tail;
      TrimLeftKeepsTail(s[1..], tail);
    }
  }

  /** White space around a text does not matter to trimming. */
  lemma TrimOfSpaced(before: string, s: string, after: string)
    requires forall k :: 0 <= k < |before| ==> IsSpace(before[k])
    requires forall k :: 0 <= k < |after| ==> IsSpace(after[k])
    ensures Trim(before + s + after) == Trim(s)
  {
    hide IsSpace, TrimLeft, TrimRight;
    assert before + s + after == before + (s + after);
    TrimLeftAfterSpace(before, s + after);
    TrimLeftKeepsTail(s, after);
    TrimRightBeforeSpace(TrimLeft(s), after);
    TrimLeftAfterSpace(after, "");
    assert after + "" == after;
    assert TrimLeft("") == "" by { NothingToTrim(); }
  }

  lemma NothingToTrim()
    ensures TrimLeft("") == ""
  {
  }

  function LowerChar(c: char): char {
    if 'A' <= c <= 'Z' then (c as int + 32) as char else c
  }

  function Lower(s: string): (r: string)
    ensures |r| == |s|
  {
    seq(|s|, i requires 0 <= i < |s| => LowerChar(s[i]))
  }
}
