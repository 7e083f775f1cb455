/** A list without some of its elements, said by positions. */
module Sublists {

  /** The elements of `after` come from the positions `at` of `before`: all those not dropped, in order. */
  ghost predicate KeptAt<T>(before: seq<T>, after: seq<T>, drop: T -> bool, at: seq<nat>) {
    && |at| == |after|
    && (forall k :: 0 <= k < |at| ==> at[k] < |before| && !drop(before[at[k]]) && after[k] == before[at[k]])
    && (forall i, j :: 0 <= i < j < |at| ==> at[i] < at[j])
    && (forall i :: 0 <= i < |before| && !drop(before[i]) ==> i in at)
  }

  /** `after` is `before` without the elements to drop. */
  ghost predicate IsWithout<T>(before: seq<T>, after: seq<T>, drop: T -> bool) {
    exists at :: KeptAt(before, after, drop, at)
  }

  function Shifted(at: seq<nat>): (r: seq<nat>)
    ensures |r| == |at| && forall k :: 0 <= k < |r| ==> r[k] == at[k] + 1
  {
    seq(|at|, k requires 0 <= k < |at| => at[k] + 1)
  }

  lemma WithoutNothing<T>(drop: T -> bool)
    ensures IsWithout([], [], drop)
  {
    assert KeptAt([], [], drop, []);
  }

  lemma ConsIncreasing(rest: seq<nat>)
    requires forall i, j :: 0 <= i < j < |rest| ==> rest[i] < rest[j]
    ensures var at := [0] + Shifted(rest); forall i, j :: 0 <= i < j < |at| ==> at[i] < at[j]
  {
  }

  lemma ConsHas(rest: seq<nat>, i: nat)
    requires i == 0 || i in Shifted(rest)
    ensures i in [0] + Shifted(rest)
  {
  }

  /** The positions in the tail, seen from the whole list. */
  lemma ShiftedKept<T>(before: seq<T>, after: seq<T>, drop: T -> bool, rest: seq<nat>)
    requires before != [] && KeptAt(before[1..], after, drop, rest)
    ensures
      var at := Shifted(rest);
      && |at| == |after| && (forall i, j :: 0 <= i < j < |at| ==> at[i] < at[j])
      && forall k :: 0 <= k < |at| ==> at[k] < |before| && !drop(before[at[k]]) && after[k] == before[at[k]]
  {
    forall k | 0 <= k < |rest| ensures before[1..][rest[k]] == before[rest[k] + 1] {}
  }

  lemma ShiftedCovers<T>(before: seq<T>, after: seq<T>, drop: T -> bool, rest: seq<nat>, i: nat)
    requires before != [] && KeptAt(before[1..], after, drop, rest) && 0 < i < |before| && !drop(before[i])
    ensures i in Shifted(rest)
  {
    assert before[1..][i - 1] == before[i];
    var k :| 0 <= k < |rest| && rest[k] == i - 1;
    assert Shifted(rest)[k] == i;
  }

  lemma KeptMeans<T>(before: seq<T>, after: seq<T>, drop: T -> bool, at: seq<nat>)
    requires |at| == |after|
    requires forall k :: 0 <= k < |at| ==> at[k] < |before| && !drop(before[at[k]]) && after[k] == before[at[k]]
    requires forall i, j :: 0 <= i < j < |at| ==> at[i] < at[j]
    requires forall i :: 0 <= i < |before| && !drop(before[i]) ==> i in at
    ensures IsWithout(before, after, drop)
  {
    assert KeptAt(before, after, drop, at);
  }

  lemma WithoutFirst<T>(before: seq<T>, after: seq<T>, drop: T -> bool)
    requires before != [] && drop(before[0]) && IsWithout(before[1..], after, drop)
    ensures IsWithout(before, after, drop)
  {
    hide KeptAt, Shifted;
    var rest :| KeptAt(before[1..], after, drop, rest);
    ShiftedKept(before, after, drop, rest);
    forall i | 0 <= i < |before| && !drop(before[i]) ensures i in Shifted(rest) {
      ShiftedCovers(before, after, drop, rest, i);
    }
    KeptMeans(before, after, drop, Shifted(rest));
  }

  lemma WithFirst<T>(before: seq<T>, after: seq<T>, drop: T -> bool)
    requires before != [] && !drop(before[0]) && IsWithout(before[1..], after, drop)
    ensures IsWithout(before, [before[0]] + after, drop)
  {
    hide KeptAt, Shifted;
    var rest :| KeptAt(before[1..], after, drop, rest);
    ShiftedKept(before, after, drop, rest);
    var at, longer := [0] + Shifted(rest), [before[0]] + after;
    assert forall i, j :: 0 <= i < j < |at| ==> at[i] < at[j] by { ConsIncreasesFrom(before, after, drop, rest); }
    forall i | 0 <= i < |before| && !drop(before[i]) ensures i in at {
      if i > 0 { ShiftedCovers(before, after, drop, rest, i); }
      ConsHas(rest, i);
    }
    forall k | 0 <= k < |at| ensures at[k] < |before| && !drop(before[at[k]]) && longer[k] == before[at[k]] {
      if k > 0 { assert at[k] == Shifted(rest)[k - 1] && longer[k] == after[k - 1]; }
    }
    KeptMeans(before, longer, drop, at);
  }

  lemma ConsIncreasesFrom<T>(before: seq<T>, after: seq<T>, drop: T -> bool, rest: seq<nat>)
    requires before != [] && KeptAt(before[1..], after, drop, rest)
    ensures var at := [0] + Shifted(rest); forall i, j :: 0 <= i < j < |at| ==> at[i] < at[j]
  {
    ConsIncreasing(rest);
  }

  /** Every element not dropped is there. */
  lemma KeptIsThere<T>(before: seq<T>, after: seq<T>, drop: T -> bool, k: nat) returns (j: nat)
    requires IsWithout(before, after, drop) && k < |before| && !drop(before[k])
    ensures j < |after| && after[j] == before[k]
  {
    var at :| KeptAt(before, after, drop, at);
    assert k in at;
    j :| 0 <= j < |at| && at[j] == k;
  }

  /** And no other. */
  lemma DroppedIsGone<T>(before: seq<T>, after: seq<T>, drop: T -> bool, j: nat)
    requires IsWithout(before, after, drop) && j < |after|
    ensures !drop(after[j])
  {
    var at :| KeptAt(before, after, drop, at);
    assert after[j] == before[at[j]];
  }
}
