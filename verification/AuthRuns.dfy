/** Whole runs of the profile store: backoff as a function of history, probe spacing, and fair rotation. */
module AuthRuns {
  import opened Text
  import opened AuthCooldown
  import opened AuthProfiles

  // ---- One profile's history ----

  datatype Outcome = Success(at: int) | Failure(at: int, reason: Reason) | Probed(at: int)

  function ApplyOutcome(st: ProfileState, o: Outcome): ProfileState {
    match o
    case Success(at) => Succeed(st, at)
    case Failure(at, reason) => Fail(st, reason, at)
    case Probed(at) => st.(lastProbeAt := at)
  }

  /** The state of a profile after these outcomes, oldest first. */
  function After(history: seq<Outcome>): ProfileState {
    if history == [] then NEW_STATE
    else ApplyOutcome(After(history[..|history| - 1]), history[|history| - 1])
  }

  /** How many failures came after the last success. */
  function Streak(history: seq<Outcome>): nat {
    if history == [] then 0
    else
      var before := history[..|history| - 1];
      match history[|history| - 1]
      case Success(_) => 0
      case Failure(_, _) => Streak(before) + 1
      case Probed(_) => Streak(before)
  }

  predicate NoFailureFrom(history: seq<Outcome>, i: nat) {
    forall j :: i <= j < |history| ==> !history[j].Failure?
  }

  /** The last failure of the history is at position i. */
  predicate LastFailure(history: seq<Outcome>, i: nat) {
    i < |history| && history[i].Failure? && NoFailureFrom(history, i + 1)
  }

  predicate LastBilling(history: seq<Outcome>, i: nat) {
    && i < |history| && history[i].Failure? && history[i].reason == Billing
    && forall j :: i < j < |history| && history[j].Failure? ==> history[j].reason != Billing
  }

  lemma {:induction false} ErrorsAreStreak(history: seq<Outcome>)
    ensures After(history).consecutiveErrors == Streak(history)
  {
    hide Ladder;
    if history != [] { ErrorsAreStreak(history[..|history| - 1]); }
  }

  /** Without failures since the last success there is no cooldown. */
  lemma {:induction false} NoStreakNoCooldown(history: seq<Outcome>)
    requires Streak(history) == 0
    ensures After(history).cooldownUntil == 0
  {
    hide Ladder;
    if history != [] && !history[|history| - 1].Success? { NoStreakNoCooldown(history[..|history| - 1]); }
  }

  /** During a streak the cooldown runs from the last failure, up the ladder of its reason. */
  lemma {:induction false} CooldownIsLadder(history: seq<Outcome>, i: nat)
    requires LastFailure(history, i) && Streak(history) > 0
    ensures After(history).cooldownUntil == history[i].at + Ladder(history[i].reason, Streak(history))
  {
    hide Ladder;
    var before := history[..|history| - 1];
    if i == |history| - 1 {
      ErrorsAreStreak(before);
    } else {
      assert history[|history| - 1].Probed?;
      CooldownIsLadder(before, i);
    }
  }

  /** Only a billing failure moves the billing deadline: a success does not clear it. */
  lemma {:induction false} BillingIsLastBilling(history: seq<Outcome>, i: nat)
    requires LastBilling(history, i)
    ensures After(history).billingDisabledUntil == history[i].at + Ladder(Billing, Streak(history[..i + 1]))
  {
    hide Ladder;
    var before := history[..|history| - 1];
    if i == |history| - 1 {
      ErrorsAreStreak(before);
      assert history[..i + 1] == history;
    } else {
      assert LastBilling(before, i);
      BillingIsLastBilling(before, i);
      assert before[..i + 1] == history[..i + 1];
    }
  }

  /** Times do not run backwards. */
  predicate InOrder(history: seq<Outcome>) {
    forall i, j :: 0 <= i <= j < |history| ==> 0 <= history[i].at <= history[j].at
  }

  lemma {:induction false} NoLongerThanADay(history: seq<Outcome>)
    requires InOrder(history) && history != []
    ensures After(history).cooldownUntil <= history[|history| - 1].at + 24 * HOUR
    ensures After(history).billingDisabledUntil <= history[|history| - 1].at + 24 * HOUR
  {
    hide Ladder;
    var before, last := history[..|history| - 1], history[|history| - 1];
    if before != [] { NoLongerThanADay(before); }
    if last.Failure? {
      var n := After(before).consecutiveErrors + 1;
      LadderClimbs(last.reason, n, n);
    }
  }

  /** A day after its last outcome a profile is available, whatever happened before. */
  lemma AvailableAfterADay(history: seq<Outcome>, now: int)
    requires InOrder(history) && history != [] && now >= history[|history| - 1].at + 24 * HOUR
    ensures Available(After(history), now)
  {
    NoLongerThanADay(history);
  }

  /**
   A success makes a profile available if and only if its billing deadline has passed. What remains of a billing
   failure can outlast any number of successes.
   */
  lemma SuccessMakesAvailableIff(history: seq<Outcome>, now: int)
    requires now >= 0
    ensures var after := After(history + [Success(now)]);
            Available(after, now) <==> After(history).billingDisabledUntil <= now
  {
    hide Ladder;
    assert (history + [Success(now)])[..|history|] == history;
  }

  lemma BillingOutlastsSuccess()
    ensures var history := [Failure(0, Billing), Success(MINUTE)];
            && After(history).consecutiveErrors == 0 && After(history).cooldownUntil == 0
            && !Available(After(history), 4 * HOUR)
  {
    hide Ladder;
    var first := [Failure(0, Billing)];
    var history := first + [Success(MINUTE)];
    assert history == [Failure(0, Billing), Success(MINUTE)];
    FirstRungs(Billing);
    assert first[..0] == [] && history[..1] == first;
    assert After(first) == Fail(NEW_STATE, Billing, 0);
    assert After(history) == Succeed(After(first), MINUTE);
  }

  // ---- Runs of the store ----

  datatype Event =
    | Registered(profile: Profile)
    | Succeeded(id: string)
    | Failed(id: string, reason: Reason)
    | ProbeRecorded(id: string)
    | Selected(provider: string, probeAllowed: bool, choice: Choice)

  function Updated(s: Store, e: Event, now: int): Store {
    match e
    case Registered(profile) => OnRegister(s, profile)
    case Succeeded(id) => OnSuccess(s, id, now)
    case Failed(id, reason) => OnFailure(s, id, reason, now)
    case ProbeRecorded(id) => OnProbe(s, id, now)
    case Selected(_, _, _) => s
  }

  /** A selection returns what it must; every store of a run is indexed, see below. */
  predicate Allowed(s: Store, e: Event, now: int) {
    e.Selected? && Indexed(s) ==> Chosen(s, e.provider, e.probeAllowed, now, e.choice)
  }

  lemma UpdatedStaysIndexed(s: Store, e: Event, now: int)
    requires Indexed(s)
    ensures Indexed(Updated(s, e, now))
  {
    hide Ladder;
    if e.Registered? {
      RegisterKeepsIndexed(s, e.profile);
    } else {
      var t := Updated(s, e, now);
      forall p | p in t.byProv ensures Listing(t.states, t.byProv[p]) {
        assert Listing(s.states, s.byProv[p]);
      }
    }
  }

  /** Any sequence of locked sections, by any number of callers, on a clock that does not run backwards. */
  predicate IsRun(states: seq<Store>, events: seq<Event>, times: seq<int>) {
    && |states| == |events| + 1 && |times| == |events|
    && states[0] == EMPTY
    && (forall i :: 0 <= i < |events| ==>
          Allowed(states[i], events[i], times[i]) && states[i + 1] == Updated(states[i], events[i], times[i]))
    && (forall i, j :: 0 <= i <= j < |times| ==> 0 <= times[i] <= times[j])
  }

  lemma {:induction false} RunIsIndexed(states: seq<Store>, events: seq<Event>, times: seq<int>, n: nat)
    requires IsRun(states, events, times) && n <= |events|
    ensures Indexed(states[n])
  {
    hide Indexed, Updated, Allowed;
    if n == 0 {
      EmptyIsIndexed();
    } else {
      RunIsIndexed(states, events, times, n - 1);
      UpdatedStaysIndexed(states[n - 1], events[n - 1], times[n - 1]);
    }
  }

  lemma EmptyIsIndexed()
    ensures Indexed(EMPTY)
  {
  }

  function OutcomeOf(e: Event, id: string, now: int): seq<Outcome> {
    match e
    case Succeeded(who) => if who == id then [Success(now)] else []
    case Failed(who, reason) => if who == id then [Failure(now, reason)] else []
    case ProbeRecorded(who) => if who == id then [Probed(now)] else []
    case _ => []
  }

  /** What the first n events of the run recorded about the profile, from its registration on. */
  function HistoryOf(states: seq<Store>, events: seq<Event>, times: seq<int>, n: nat, id: string): seq<Outcome>
    requires |states| == |events| + 1 && |times| == |events| && n <= |events|
  {
    if n == 0 then []
    else
      var before := HistoryOf(states, events, times, n - 1, id);
      if id in states[n - 1].states then before + OutcomeOf(events[n - 1], id, times[n - 1]) else before
  }

  lemma UpdateOfOne(s: Store, e: Event, now: int, id: string, before: seq<Outcome>)
    requires id in s.states && s.states[id] == After(before)
    ensures id in Updated(s, e, now).states
    ensures Updated(s, e, now).states[id] == After(before + OutcomeOf(e, id, now))
  {
    hide Ladder;
    var more := OutcomeOf(e, id, now);
    if more == [] {
      assert before + more == before;
    } else {
      assert (before + more)[..|before|] == before;
    }
  }

  lemma UpdateOfNone(s: Store, e: Event, now: int, id: string)
    requires id !in s.states && id in Updated(s, e, now).states
    ensures Updated(s, e, now).states[id] == NEW_STATE
  {
  }

  /** At every point of every run a profile's state is that of its own history; nobody else's matters. */
  lemma {:induction false} StateIsHistory(states: seq<Store>, events: seq<Event>, times: seq<int>, n: nat, id: string)
    requires IsRun(states, events, times) && n <= |events|
    ensures id in states[n].states ==> states[n].states[id] == After(HistoryOf(states, events, times, n, id))
    ensures id !in states[n].states ==> HistoryOf(states, events, times, n, id) == []
  {
    hide Indexed, Allowed, Updated, After, OutcomeOf;
    if n == 0 { return; }
    StateIsHistory(states, events, times, n - 1, id);
    var s, e, now := states[n - 1], events[n - 1], times[n - 1];
    assert states[n] == Updated(s, e, now);
    if id in s.states {
      UpdateOfOne(s, e, now, id, HistoryOf(states, events, times, n - 1, id));
    } else if id in states[n].states {
      UpdateOfNone(s, e, now, id);
      assert After([]) == NEW_STATE by { NothingYet(); }
    }
  }

  lemma NothingYet()
    ensures After([]) == NEW_STATE
  {
  }

  predicate NotAfter(history: seq<Outcome>, now: int) {
    InOrder(history) && forall i :: 0 <= i < |history| ==> history[i].at <= now
  }

  lemma SnocInOrder(history: seq<Outcome>, e: Event, id: string, earlier: int, now: int)
    requires NotAfter(history, earlier) && 0 <= now && earlier <= now
    ensures NotAfter(history, now) && NotAfter(history + OutcomeOf(e, id, now), now)
  {
  }

  lemma {:induction false} HistoryInOrder(states: seq<Store>, events: seq<Event>, times: seq<int>, n: nat, id: string)
    requires IsRun(states, events, times) && n <= |events|
    ensures NotAfter(HistoryOf(states, events, times, n, id), if n == 0 then 0 else times[n - 1])
  {
    hide Indexed, Allowed, Updated, OutcomeOf, NotAfter;
    if n == 0 {
      assert NotAfter([], 0) by { NoneInOrder(); }
    } else {
      HistoryInOrder(states, events, times, n - 1, id);
      SnocInOrder(HistoryOf(states, events, times, n - 1, id), events[n - 1], id,
                  if n == 1 then 0 else times[n - 2], times[n - 1]);
    }
  }

  lemma NoneInOrder()
    ensures NotAfter([], 0)
  {
  }

  /** In every run: no profile is kept out for more than a day after its last outcome. */
  lemma NoProfileIsLockedOut(states: seq<Store>, events: seq<Event>, times: seq<int>, n: nat, id: string, now: int)
    requires IsRun(states, events, times) && n <= |events| && id in states[n].states
    requires var h := HistoryOf(states, events, times, n, id); now >= if h == [] then 0 else h[|h| - 1].at + 24 * HOUR
    ensures Available(states[n].states[id], now)
  {
    hide Indexed, Allowed, Updated, After, HistoryOf;
    StateIsHistory(states, events, times, n, id);
    HistoryInOrder(states, events, times, n, id);
    var h := HistoryOf(states, events, times, n, id);
    if h == [] { NothingYet(); } else { AvailableAfterADay(h, now); }
  }

  // ---- Probes ----

  lemma {:induction false} LastProbeStays(
    states: seq<Store>, events: seq<Event>, times: seq<int>, i: nat, n: nat, id: string)
    requires IsRun(states, events, times) && i < n <= |events|
    requires events[i] == ProbeRecorded(id) && id in states[i].states
    ensures id in states[n].states && states[n].states[id].lastProbeAt >= times[i]
  {
    hide Ladder, Indexed, Allowed;
    assert states[n] == Updated(states[n - 1], events[n - 1], times[n - 1]);
    if i < n - 1 { LastProbeStays(states, events, times, i, n - 1, id); }
  }

  function ChosenId(s: Store, e: Event): Option<string>
    requires e.Selected? && e.choice != Nothing
  {
    var ids := Ids(s, e.provider);
    if e.choice.at < |ids| then Some(ids[e.choice.at]) else None
  }

  /** The selection at `sel` chose this profile for the probe recorded at `rec`, and no probe came in between. */
  predicate ProbedUndisturbed(states: seq<Store>, events: seq<Event>, times: seq<int>, sel: nat, rec: nat, id: string)
    requires IsRun(states, events, times)
  {
    && sel < rec < |events| && events[rec] == ProbeRecorded(id)
    && events[sel].Selected? && events[sel].choice.Probe?
    && ChosenId(states[sel], events[sel]) == Some(id)
    && forall k :: sel < k < rec ==> events[k] != ProbeRecorded(id)
  }

  /** Probes of one profile are at least 30 seconds apart when each is recorded before another is selected. */
  lemma ProbesAreSpaced(
    states: seq<Store>, events: seq<Event>, times: seq<int>, first: nat, sel: nat, second: nat, id: string)
    requires IsRun(states, events, times) && first < second < |events|
    requires events[first] == ProbeRecorded(id) && id in states[first].states
    requires ProbedUndisturbed(states, events, times, sel, second, id)
    ensures times[second] - times[first] >= 30 * SECOND
  {
    hide Ladder;
    assert first < sel;
    LastProbeStays(states, events, times, first, sel, id);
    RunIsIndexed(states, events, times, sel);
    assert Allowed(states[sel], events[sel], times[sel]);
  }

  lemma RunSnoc(states: seq<Store>, events: seq<Event>, times: seq<int>, e: Event, now: int)
    requires IsRun(states, events, times) && Allowed(states[|events|], e, now)
    requires 0 <= now && (times != [] ==> times[|times| - 1] <= now)
    ensures IsRun(states + [Updated(states[|events|], e, now)], events + [e], times + [now])
  {
    hide Allowed, Updated;
  }

  /**
   Selecting and recording are two locked sections. Wherever a run allows a probe, two callers that both select
   before either records probe the same profile at the same moment.
   */
  lemma ProbesCollideFrom(
    states: seq<Store>, events: seq<Event>, times: seq<int>, provider: string, at: nat, now: int)
    returns (more: seq<Store>)
    requires IsRun(states, events, times) && Indexed(states[|events|])
    requires 0 <= now && (times != [] ==> times[|times| - 1] <= now)
    requires Chosen(states[|events|], provider, true, now, Probe(at))
    ensures at < |Ids(states[|events|], provider)|
    ensures |more| == 4 && more[0] == more[1] == states[|events|]
    ensures
      var select := Selected(provider, true, Probe(at));
      var record := ProbeRecorded(Ids(states[|events|], provider)[at]);
      IsRun(states + more, events + [select, select, record, record], times + [now, now, now, now])
  {
    hide Chosen, Indexed, IsRun, Updated;
    IsRunLengths(states, events, times);
    var s := states[|events|];
    ProbeIsListed(s, provider, now, at);
    var select, record := Selected(provider, true, Probe(at)), ProbeRecorded(Ids(s, provider)[at]);
    var t := Updated(s, record, now);
    SelectsChangeNothing(s, select, now);
    RunSnoc(states, events, times, select, now);
    RunSnoc(states + [s], events + [select], times + [now], select, now);
    RunSnoc(states + [s] + [s], events + [select] + [select], times + [now] + [now], record, now);
    RunSnoc(states + [s] + [s] + [t], events + [select] + [select] + [record],
            times + [now] + [now] + [now], record, now);
    more := [s, s, t, Updated(t, record, now)];
    assert states + [s] + [s] + [t] + [Updated(t, record, now)] == states + more;
    assert events + [select] + [select] + [record] + [record] == events + [select, select, record, record];
    assert times + [now] + [now] + [now] + [now] == times + [now, now, now, now];
  }

  lemma IsRunLengths(states: seq<Store>, events: seq<Event>, times: seq<int>)
    requires IsRun(states, events, times)
    ensures |states| == |events| + 1 && |times| == |events|
  {
  }

  lemma SelectsChangeNothing(s: Store, e: Event, now: int)
    requires e.Selected?
    ensures Updated(s, e, now) == s
  {
  }

  lemma ProbeIsListed(s: Store, provider: string, now: int, at: nat)
    requires Indexed(s) && Chosen(s, provider, true, now, Probe(at))
    ensures at < |Ids(s, provider)|
  {
  }

  /**
   A run in which two probes of one profile are recorded in the same instant: it is registered, fails once, and
   half a minute later is selected by two callers before either records its probe.
   */
  lemma ProbesCanCollide(p: Profile) returns (states: seq<Store>, events: seq<Event>, times: seq<int>)
    ensures IsRun(states, events, times)
    ensures
      var select, record := Selected(p.provider, true, Probe(0)), ProbeRecorded(p.id);
      && events == [Registered(p), Failed(p.id, OtherReason("")), select, select, record, record]
      && ChosenId(states[2], select) == ChosenId(states[3], select) == Some(p.id)
      && times[5] - times[4] == 0 < 30 * SECOND
  {
    hide Updated, IsRun, Chosen, Ladder, Indexed;
    var register, fail := Registered(p), Failed(p.id, OtherReason(""));
    var first, second := Updated(EMPTY, register, 0), Updated(Updated(EMPTY, register, 0), fail, 0);
    StartOfRun();
    RunSnoc([EMPTY], [], [], register, 0);
    RunSnoc([EMPTY] + [first], [] + [register], [] + [0], fail, 0);
    states, events, times := [EMPTY] + [first] + [second], [] + [register] + [fail], [] + [0] + [0];
    FailedOnce(p, second);
    var more := ProbesCollideFrom(states, events, times, p.provider, 0, 30 * SECOND);
    var select, record := Selected(p.provider, true, Probe(0)), ProbeRecorded(p.id);
    events := events + [select, select, record, record];
    times := times + [30 * SECOND, 30 * SECOND, 30 * SECOND, 30 * SECOND];
    states := states + more;
    assert events == [register, fail, select, select, record, record];
    assert states[2] == states[3] == second;
  }

  lemma StartOfRun()
    ensures IsRun([EMPTY], [], [])
  {
  }

  /** Half a minute after its first failure a lone profile may be probed. */
  lemma FailedOnce(p: Profile, s: Store)
    requires s == Updated(Updated(EMPTY, Registered(p), 0), Failed(p.id, OtherReason("")), 0)
    ensures Indexed(s) && Ids(s, p.provider) == [p.id] && Chosen(s, p.provider, true, 30 * SECOND, Probe(0))
  {
    FirstRungs(OtherReason(""));
    hide Ladder;
    assert s.states == map[p.id := Fail(NEW_STATE, OtherReason(""), 0)];
  }
}
