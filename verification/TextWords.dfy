/** The words of a text: what trimming keeps, and what joining texts by a blank line keeps apart. */
module TextWords {
  import opened Text

  /** How many characters come before the first white space. */
  function WordLength(s: string): (n: nat)
    ensures n <= |s| && (forall k :: 0 <= k < n ==> !IsSpace(s[k])) && (n < |s| ==> IsSpace(s[n]))
  {
    if s == "" || IsSpace(s[0]) then 0 else 1 + WordLength(s[1..])
  }

  /** The text split at its white space. */
  function Words(s: string): seq<string> {
    if s == "" then []
    else if IsSpace(s[0]) then Words(s[1..])
    else
      var n := WordLength(s);
      [s[..n]] + Words(s[n..])
  }

  lemma {:induction false} WordLengthConcat(a: string, b: string)
    requires b == "" || IsSpace(b[0])
    ensures WordLength(a + b) == WordLength(a)
  {
    hide IsSpace;
    if a == "" {
      assert a + b == b;
    } else {
      assert (a + b)[1..] == a[1..] + b;
      WordLengthConcat(a[1..], b);
    }
  }

  lemma FirstWord(s: string)
    requires s != "" && !IsSpace(s[0])
    ensures WordLength(s) > 0 && Words(s) == [s[..WordLength(s)]] + Words(s[WordLength(s)..])
  {
    hide IsSpace;
  }

  /** Texts side by side keep their words apart if white space comes between them. */
  lemma {:induction false} WordsConcat(a: string, b: string)
    requires b == "" || IsSpace(b[0])
    ensures Words(a + b) == Words(a) + Words(b)
    decreases |a|
  {
    hide IsSpace, WordLength;
    if a == "" {
      assert a + b == b;
    } else if IsSpace(a[0]) {
      assert (a + b)[1..] == a[1..] + b;
      WordsConcat(a[1..], b);
    } else {
      hide Words;
      var n := WordLength(a);
      FirstWord(a);
      FirstWord(a + b);
      WordLengthConcat(a, b);
      assert (a + b)[n..] == a[n..] + b;
      assert (a + b)[..n] == a[..n];
      WordsConcat(a[n..], b);
    }
  }

  lemma {:induction false} WordsAfterSpace(a: string, b: string)
    requires forall k :: 0 <= k < |a| ==> IsSpace(a[k])
    ensures Words(a + b) == Words(b)
  {
    hide IsSpace;
    if a == "" {
      assert a + b == b;
    } else {
      assert (a + b)[1..] == a[1..] + b;
      WordsAfterSpace(a[1..], b);
    }
  }

  lemma SpaceHasNoWords(s: string)
    requires forall k :: 0 <= k < |s| ==> IsSpace(s[k])
    ensures Words(s) == []
  {
    hide IsSpace;
    WordsAfterSpace(s, "");
    assert s + "" == s;
  }

  lemma WordsOfTrim(s: string)
    ensures Words(Trim(s)) == Words(s)
  {
    hide Trim, IsSpace, Words;
    TrimIsSlice(s);
    var i, j :| && 0 <= i <= j <= |s| && Trim(s) == s[i..j]
                && forall k :: 0 <= k < i || j <= k < |s| ==> IsSpace(s[k]);
    assert s == s[..i] + (s[i..j] + s[j..]);
    WordsAfterSpace(s[..i], s[i..j] + s[j..]);
    forall k | 0 <= k < |s[j..]| ensures IsSpace(s[j..][k]) { assert s[j..][k] == s[j + k]; }
    WordsConcat(s[i..j], s[j..]);
    SpaceHasNoWords(s[j..]);
    assert Words(s[i..j]) + [] == Words(s[i..j]);
  }

  lemma WordsOfJoin(a: string, b: string)
    ensures Words(a + "\n\n" + b) == Words(a) + Words(b)
  {
    hide Words;
    assert a + "\n\n" + b == a + ("\n\n" + b);
    WordsConcat(a, "\n\n" + b);
    WordsAfterSpace("\n\n", b);
  }
}
