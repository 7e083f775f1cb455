/** Selection is a strict rotation over the healthy profiles of a provider. */
module AuthRotation {
  import opened AuthCooldown
  import opened AuthProfiles
  import opened Sets

  /** When a profile was selected, and when its success was recorded. */
  datatype Tick = Tick(select: int, done: int)

  type Table = map<string, ProfileState>

  predicate Clock(ticks: seq<Tick>) {
    && (forall i :: 0 <= i < |ticks| ==> 0 <= ticks[i].select <= ticks[i].done)
    && (forall i :: 0 <= i < |ticks| - 1 ==> ticks[i].done < ticks[i + 1].select)
  }

  function Succeeded(table: Table, id: string, now: int): Table
    requires id in table
  {
    table[id := Succeed(table[id], now)]
  }

  /** Selections of the provider's profiles, each followed by its success. */
  predicate IsRotation(tables: seq<Table>, ids: seq<string>, picks: seq<nat>, ticks: seq<Tick>) {
    && |tables| == |picks| + 1 == |ticks| + 1 && Clock(ticks)
    && (forall i :: 0 <= i < |tables| ==> Listing(tables[i], ids))
    && (forall i :: 0 <= i < |picks| ==>
          && LeastRecent(tables[i], ids, ticks[i].select, picks[i])
          && tables[i + 1] == Succeeded(tables[i], ids[picks[i]], ticks[i].done))
  }

  /** The steps of a rotation are those of the store. */
  lemma RotationIsStore(s: Store, provider: string, i: nat, tick: Tick)
    requires Indexed(s) && Chosen(s, provider, true, tick.select, Use(i))
    ensures i < |Ids(s, provider)| && LeastRecent(s.states, Ids(s, provider), tick.select, i)
    ensures var id := Ids(s, provider)[i];
            && OnSuccess(s, id, tick.done).states == Succeeded(s.states, id, tick.done)
            && Ids(OnSuccess(s, id, tick.done), provider) == Ids(s, provider)
  {
  }

  /** The healthy profiles can be used from now on, the others not before `last`; nothing was used in the future. */
  predicate Healthy(table: Table, ids: seq<string>, healthy: set<nat>, now: int, last: int)
    requires Listing(table, ids)
  {
    && (forall j :: j in healthy ==> j < |ids|)
    && (forall j :: 0 <= j < |ids| ==>
          if j in healthy then Available(table[ids[j]], now) && table[ids[j]].lastUsed < now
          else !Available(table[ids[j]], last))
  }

  lemma HealthyStep(
    table: Table, ids: seq<string>, healthy: set<nat>, now: int, last: int, pick: nat, done: int, next: int)
    requires Listing(table, ids) && Healthy(table, ids, healthy, now, last)
    requires pick in healthy && 0 <= now <= done < next
    ensures Listing(Succeeded(table, ids[pick], done), ids)
    ensures Healthy(Succeeded(table, ids[pick], done), ids, healthy, next, last)
  {
  }

  lemma PickIsHealthy(table: Table, ids: seq<string>, healthy: set<nat>, now: int, last: int, pick: nat)
    requires Listing(table, ids) && Healthy(table, ids, healthy, now, last) && now <= last
    requires LeastRecent(table, ids, now, pick)
    ensures pick in healthy
  {
  }

  lemma {:induction false} StaysHealthy(
    tables: seq<Table>, ids: seq<string>, picks: seq<nat>, ticks: seq<Tick>, healthy: set<nat>, i: nat, last: int)
    requires IsRotation(tables, ids, picks, ticks) && i < |picks| && last == ticks[|ticks| - 1].select
    requires Healthy(tables[0], ids, healthy, ticks[0].select, last)
    ensures Healthy(tables[i], ids, healthy, ticks[i].select, last) && ticks[i].select <= last
    ensures picks[i] in healthy
  {
    hide Healthy, Listing, LeastRecent, Succeeded;
    ClockGrows(ticks, i, |ticks| - 1);
    if i > 0 {
      StaysHealthy(tables, ids, picks, ticks, healthy, i - 1, last);
      HealthyStep(tables[i - 1], ids, healthy, ticks[i - 1].select, last, picks[i - 1], ticks[i - 1].done,
                  ticks[i].select);
      assert tables[(i - 1) + 1] == tables[i] && ticks[(i - 1) + 1] == ticks[i];
    }
    PickIsHealthy(tables[i], ids, healthy, ticks[i].select, last, picks[i]);
  }

  lemma {:induction false} ClockGrows(ticks: seq<Tick>, i: nat, j: nat)
    requires Clock(ticks) && i <= j < |ticks|
    ensures ticks[i].select <= ticks[j].select
    decreases j
  {
    if i < j {
      ClockGrows(ticks, i, j - 1);
      assert ticks[j - 1].done < ticks[(j - 1) + 1].select;
    }
  }

  /** Of the healthy profiles exactly those in `used` were used since `start`. */
  predicate UsedSince(table: Table, ids: seq<string>, healthy: set<nat>, used: set<nat>, start: int)
    requires Listing(table, ids)
  {
    && used <= healthy
    && forall j :: j in healthy && j < |ids| ==> (table[ids[j]].lastUsed >= start <==> j in used)
  }

  /** While some healthy profile has not had its turn, the next pick is one that has not. */
  lemma PickIsUnused(
    table: Table, ids: seq<string>, healthy: set<nat>, used: set<nat>, start: int, now: int, last: int, pick: nat)
    requires Listing(table, ids) && Healthy(table, ids, healthy, now, last)
    requires UsedSince(table, ids, healthy, used, start)
    requires LeastRecent(table, ids, now, pick) && pick in healthy && used != healthy
    ensures pick !in used
  {
    var waiting :| waiting in healthy && waiting !in used;
    assert Available(table[ids[waiting]], now);
  }

  lemma UsedStep(
    table: Table, ids: seq<string>, healthy: set<nat>, used: set<nat>, start: int, pick: nat, done: int)
    requires Listing(table, ids) && UsedSince(table, ids, healthy, used, start)
    requires pick in healthy && pick < |ids| && start <= done
    ensures Listing(Succeeded(table, ids[pick], done), ids)
    ensures UsedSince(Succeeded(table, ids[pick], done), ids, healthy, used + {pick}, start)
  {
  }

  /** The picks of n steps from step a. */
  function Picked(picks: seq<nat>, a: nat, n: nat): set<nat>
    requires a + n <= |picks|
  {
    if n == 0 then {} else Picked(picks, a, n - 1) + {picks[a + n - 1]}
  }

  lemma {:induction false} PickedAt(picks: seq<nat>, a: nat, n: nat, j: nat) returns (i: nat)
    requires a + n <= |picks| && j in Picked(picks, a, n)
    ensures a <= i < a + n && picks[i] == j
  {
    if picks[a + n - 1] == j { return a + n - 1; }
    i := PickedAt(picks, a, n - 1, j);
  }

  lemma {:induction false} PickedHas(picks: seq<nat>, a: nat, n: nat, i: nat)
    requires a <= i < a + n <= |picks|
    ensures picks[i] in Picked(picks, a, n)
  {
    if i < a + n - 1 { PickedHas(picks, a, n - 1, i); }
  }

  /** After n steps from step a, n different healthy profiles have had their turn. */
  lemma {:induction false} TurnsTaken(
    tables: seq<Table>, ids: seq<string>, picks: seq<nat>, ticks: seq<Tick>, healthy: set<nat>, a: nat, n: nat)
    requires IsRotation(tables, ids, picks, ticks) && a < |picks| && a + n <= |picks| && n <= |healthy|
    requires Healthy(tables[0], ids, healthy, ticks[0].select, ticks[|ticks| - 1].select)
    ensures UsedSince(tables[a + n], ids, healthy, Picked(picks, a, n), ticks[a].select)
    ensures |Picked(picks, a, n)| == n
    ensures n > 0 ==> picks[a + n - 1] !in Picked(picks, a, n - 1)
    decreases n
  {
    hide Listing, LeastRecent, Succeeded, UsedSince, Healthy;
    var last := ticks[|ticks| - 1].select;
    if n == 0 {
      StaysHealthy(tables, ids, picks, ticks, healthy, a, last);
      NoneUsed(tables[a], ids, healthy, ticks[a].select, last);
    } else {
      var before, i := Picked(picks, a, n - 1), a + n - 1;
      TurnsTaken(tables, ids, picks, ticks, healthy, a, n - 1);
      StaysHealthy(tables, ids, picks, ticks, healthy, i, last);
      PickIsUnused(tables[i], ids, healthy, before, ticks[a].select, ticks[i].select, last, picks[i]);
      PickListed(tables[i], ids, ticks[i].select, picks[i]);
      ClockGrows(ticks, a, i);
      UsedStep(tables[i], ids, healthy, before, ticks[a].select, picks[i], ticks[i].done);
      assert tables[i + 1] == tables[a + n];
    }
  }

  lemma NoneUsed(table: Table, ids: seq<string>, healthy: set<nat>, now: int, last: int)
    requires Listing(table, ids) && Healthy(table, ids, healthy, now, last)
    ensures UsedSince(table, ids, healthy, {}, now)
  {
  }

  lemma PickListed(table: Table, ids: seq<string>, now: int, pick: nat)
    requires Listing(table, ids) && LeastRecent(table, ids, now, pick)
    ensures pick < |ids|
  {
  }

  /**
   With k healthy profiles, any k consecutive uses take each of them exactly once: none is passed over more
   than k - 1 times.
   */
  lemma EachOnce(
    tables: seq<Table>, ids: seq<string>, picks: seq<nat>, ticks: seq<Tick>, healthy: set<nat>, a: nat, h: nat)
    returns (turn: nat)
    requires IsRotation(tables, ids, picks, ticks) && a + |healthy| <= |picks| && h in healthy
    requires Healthy(tables[0], ids, healthy, ticks[0].select, ticks[|ticks| - 1].select)
    ensures a <= turn < a + |healthy| && picks[turn] == h
    ensures forall i :: a <= i < a + |healthy| && picks[i] == h ==> i == turn
  {
    hide Listing, LeastRecent, Succeeded, UsedSince, Healthy;
    SubsetIsSmaller({h}, healthy);
    var k := |healthy|;
    TurnsTaken(tables, ids, picks, ticks, healthy, a, k);
    UsedAreHealthy(tables[a + k], ids, healthy, Picked(picks, a, k), ticks[a].select);
    FullSubset(Picked(picks, a, k), healthy);
    turn := PickedAt(picks, a, k, h);
    forall i, j | a <= i < j < a + k ensures picks[i] != picks[j] {
      TurnsTaken(tables, ids, picks, ticks, healthy, a, j - a + 1);
      PickedHas(picks, a, j - a, i);
    }
  }

  lemma UsedAreHealthy(table: Table, ids: seq<string>, healthy: set<nat>, used: set<nat>, start: int)
    requires Listing(table, ids) && UsedSince(table, ids, healthy, used, start)
    ensures used <= healthy
  {
  }

  /** So the order of the first k uses repeats for ever. */
  lemma RotationRepeats(
    tables: seq<Table>, ids: seq<string>, picks: seq<nat>, ticks: seq<Tick>, healthy: set<nat>, i: nat)
    requires IsRotation(tables, ids, picks, ticks) && i + |healthy| < |picks|
    requires Healthy(tables[0], ids, healthy, ticks[0].select, ticks[|ticks| - 1].select)
    ensures picks[i + |healthy|] == picks[i]
  {
    hide Listing, LeastRecent, Succeeded, Healthy;
    StaysHealthy(tables, ids, picks, ticks, healthy, i, ticks[|ticks| - 1].select);
    SubsetIsSmaller({picks[i]}, healthy);
    var here := EachOnce(tables, ids, picks, ticks, healthy, i, picks[i]);
    var next := EachOnce(tables, ids, picks, ticks, healthy, i + 1, picks[i]);
    assert here == i;
  }
}
