/** Facts about the sizes of finite sets, and about sequences without repetitions. */
module Sets {

  lemma {:induction false} SubsetIsSmaller<T>(part: set<T>, whole: set<T>)
    requires part <= whole
    ensures |part| <= |whole|
  {
    if part != {} {
      var x :| x in part;
      SubsetIsSmaller(part - {x}, whole - {x});
    }
  }

  lemma FullSubset<T>(part: set<T>, whole: set<T>)
    requires part <= whole && |part| == |whole|
    ensures part == whole
  {
    if part != whole {
      var x :| x in whole && x !in part;
      SubsetIsSmaller(part, whole - {x});
    }
  }

  function Elements<T>(s: seq<T>): set<T> {
    set x | x in s
  }

  predicate NoRepeats<T(==)>(s: seq<T>) {
    forall i, j :: 0 <= i < j < |s| ==> s[i] != s[j]
  }

  lemma NoRepeatsCons<T>(x: T, s: seq<T>)
    ensures NoRepeats([x] + s) <==> x !in s && NoRepeats(s)
  {
    var xs := [x] + s;
    if NoRepeats(xs) {
      forall i | 0 <= i < |s| ensures s[i] != x { assert xs[0] != xs[i + 1]; }
      forall i, j | 0 <= i < j < |s| ensures s[i] != s[j] { assert xs[i + 1] != xs[j + 1]; }
    }
  }

  /** A sequence has as many elements as positions exactly when it repeats none. */
  lemma {:induction false} NoRepeatsSize<T>(s: seq<T>)
    ensures |Elements(s)| <= |s|
    ensures NoRepeats(s) <==> |Elements(s)| == |s|
  {
    if s != [] {
      var x, rest := s[0], s[1..];
      assert s == [x] + rest;
      NoRepeatsCons(x, rest);
      NoRepeatsSize(rest);
      assert Elements(s) == Elements(rest) + {x};
      if x in rest { assert Elements(s) == Elements(rest); }
    }
  }

  lemma {:induction false} NoRepeatsMultiset<T>(s: seq<T>)
    requires forall x :: multiset(s)[x] <= 1
    ensures NoRepeats(s)
  {
    if s != [] {
      var x, rest := s[0], s[1..];
      assert s == [x] + rest;
      assert multiset(s) == multiset{x} + multiset(rest);
      forall y ensures multiset(rest)[y] <= 1 { assert multiset(s)[y] <= 1; }
      NoRepeatsMultiset(rest);
      assert multiset(s)[x] <= 1;
      NoRepeatsCons(x, rest);
    }
  }
}
