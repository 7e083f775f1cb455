/** auth_profiles.go: API keys taken in turn, with backoff after failures and probes near the end of it. */
module AuthProfiles {
  import opened Text
  import opened AuthCooldown

  datatype Profile = Profile(id: string, provider: string, apiKey: string)

  /** Times count from the zero time, so 0 means never. */
  datatype ProfileState = ProfileState(
    lastUsed: int, cooldownUntil: int, consecutiveErrors: nat, lastErrorReason: Option<Reason>,
    billingDisabledUntil: int, lastProbeAt: int, totalRequests: nat)

  const NEW_STATE := ProfileState(0, 0, 0, None, 0, 0, 0)

  datatype Store = Store(
    profiles: map<string, Profile>, states: map<string, ProfileState>, byProv: map<string, seq<string>>)

  const EMPTY := Store(map[], map[], map[])

  function Ids(s: Store, provider: string): seq<string> {
    if provider in s.byProv then s.byProv[provider] else []
  }

  /** Each provider lists known profiles, none twice. */
  predicate Indexed(s: Store) {
    && s.profiles.Keys == s.states.Keys
    && (forall p :: p in s.byProv ==> Listing(s.states, s.byProv[p]))
  }

  predicate Listing(states: map<string, ProfileState>, ids: seq<string>) {
    && (forall i :: 0 <= i < |ids| ==> ids[i] in states)
    && (forall i, j :: 0 <= i < j < |ids| ==> ids[i] != ids[j])
  }

  // ---- Updates ----

  function OnRegister(s: Store, profile: Profile): Store {
    var ids := Ids(s, profile.provider);
    Store(s.profiles[profile.id := profile],
          if profile.id in s.states then s.states else s.states[profile.id := NEW_STATE],
          if profile.id in ids then s.byProv else s.byProv[profile.provider := ids + [profile.id]])
  }

  function Succeed(st: ProfileState, now: int): ProfileState {
    st.(lastUsed := now, consecutiveErrors := 0, cooldownUntil := 0, lastErrorReason := None,
        totalRequests := st.totalRequests + 1)
  }

  function Fail(st: ProfileState, reason: Reason, now: int): ProfileState {
    var errors := st.consecutiveErrors + 1;
    var until := now + Ladder(reason, errors);
    st.(consecutiveErrors := errors, lastErrorReason := Some(reason), cooldownUntil := until,
        billingDisabledUntil := if reason == Billing then until else st.billingDisabledUntil)
  }

  function OnSuccess(s: Store, id: string, now: int): Store {
    if id in s.states then s.(states := s.states[id := Succeed(s.states[id], now)]) else s
  }

  function OnFailure(s: Store, id: string, reason: Reason, now: int): Store {
    if id in s.states then s.(states := s.states[id := Fail(s.states[id], reason, now)]) else s
  }

  function OnProbe(s: Store, id: string, now: int): Store {
    if id in s.states then s.(states := s.states[id := s.states[id].(lastProbeAt := now)]) else s
  }

  // ---- Selection ----

  predicate Available(st: ProfileState, now: int) {
    st.cooldownUntil <= now && st.billingDisabledUntil <= now
  }

  /** The test of the second phase, as written there. */
  predicate Probeable(st: ProfileState, now: int) {
    && st.billingDisabledUntil <= now
    && st.cooldownUntil - now <= PROBE_WINDOW
    && now - st.lastProbeAt >= PROBE_THROTTLE
  }

  datatype Choice = Nothing | Use(at: nat) | Probe(at: nat)

  /** Available, and used least recently; the first listed among equals. */
  predicate LeastRecent(states: map<string, ProfileState>, ids: seq<string>, now: int, i: nat)
    requires Listing(states, ids)
  {
    && i < |ids| && Available(states[ids[i]], now)
    && (forall j :: 0 <= j < |ids| && Available(states[ids[j]], now) ==>
          && states[ids[i]].lastUsed <= states[ids[j]].lastUsed
          && (j < i ==> states[ids[i]].lastUsed < states[ids[j]].lastUsed))
  }

  predicate NoneAvailable(states: map<string, ProfileState>, ids: seq<string>, now: int)
    requires Listing(states, ids)
  {
    forall j :: 0 <= j < |ids| ==> !Available(states[ids[j]], now)
  }

  predicate FirstProbeable(states: map<string, ProfileState>, ids: seq<string>, now: int, i: nat)
    requires Listing(states, ids)
  {
    && i < |ids| && Probeable(states[ids[i]], now)
    && forall j :: 0 <= j < i ==> !Probeable(states[ids[j]], now)
  }

  predicate NoneProbeable(states: map<string, ProfileState>, ids: seq<string>, now: int)
    requires Listing(states, ids)
  {
    forall j :: 0 <= j < |ids| ==> !Probeable(states[ids[j]], now)
  }

  /** What a selection at time `now` must come to. */
  predicate Chosen(s: Store, provider: string, probeAllowed: bool, now: int, c: Choice)
    requires Indexed(s)
  {
    var ids := Ids(s, provider);
    match c
    case Use(i) => LeastRecent(s.states, ids, now, i)
    case Probe(i) => NoneAvailable(s.states, ids, now) && probeAllowed && FirstProbeable(s.states, ids, now, i)
    case Nothing => NoneAvailable(s.states, ids, now) && (probeAllowed ==> NoneProbeable(s.states, ids, now))
  }

  /** What a choice is returned as. */
  predicate Means(s: Store, provider: string, c: Choice, profile: Option<Profile>, isProbe: bool)
    requires Indexed(s)
  {
    && isProbe == c.Probe?
    && if c == Nothing then profile == None
       else c.at < |Ids(s, provider)| && profile == Some(s.profiles[Ids(s, provider)[c.at]])
  }

  /** A selection has one possible outcome. */
  lemma ChoiceIsUnique(s: Store, provider: string, probeAllowed: bool, now: int, c: Choice, d: Choice)
    requires Indexed(s) && Chosen(s, provider, probeAllowed, now, c) && Chosen(s, provider, probeAllowed, now, d)
    ensures c == d
  {
    hide Available, Probeable;
  }

  class AuthProfileStore {
    var profiles: map<string, Profile>
    var states: map<string, ProfileState>
    var byProv: map<string, seq<string>>

    ghost function Value(): Store reads this {
      Store(profiles, states, byProv)
    }

    ghost predicate Valid() reads this {
      Indexed(Value())
    }

    constructor ()
      ensures Valid() && Value() == EMPTY
    {
      profiles, states, byProv := map[], map[], map[];
    }

    method Register(profile: Profile)
      requires Valid()
      modifies this
      ensures Valid() && Value() == OnRegister(old(Value()), profile)
    {
      RegisterKeepsIndexed(Value(), profile);
      profiles := profiles[profile.id := profile];
      if profile.id !in states { states := states[profile.id := NEW_STATE]; }
      var ids := if profile.provider in byProv then byProv[profile.provider] else [];
      var found := false;
      for i := 0 to |ids|
        invariant !found && profile.id !in ids[..i]
      {
        if ids[i] == profile.id {
          found := true;
          break;
        }
      }
      if !found { byProv := byProv[profile.provider := ids + [profile.id]]; }
    }

    /** None when nothing is available and nothing may be probed. */
    method SelectProfile(provider: string, probeAllowed: bool, now: int)
      returns (profile: Option<Profile>, isProbe: bool)
      requires Valid()
      ensures exists c ::
                Chosen(Value(), provider, probeAllowed, now, c) && Means(Value(), provider, c, profile, isProbe)
    {
      hide Available, Probeable;
      ghost var s := Value();
      if provider !in byProv || |byProv[provider]| == 0 {
        assert Chosen(s, provider, probeAllowed, now, Nothing);
        return None, false;
      }
      var ids := byProv[provider];
      assert Listing(states, ids);
      var best: Option<nat> := None;
      for i := 0 to |ids|
        invariant best.Some? ==> best.value < i && LeastRecent(states, ids[..i], now, best.value)
        invariant best.None? ==> NoneAvailable(states, ids[..i], now)
      {
        var st := states[ids[i]];
        if Available(st, now) && (best.None? || st.lastUsed < states[ids[best.value]].lastUsed) { best := Some(i); }
      }
      assert ids[..|ids|] == ids;
      if best.Some? {
        assert Chosen(s, provider, probeAllowed, now, Use(best.value));
        return Some(profiles[ids[best.value]]), false;
      }
      if probeAllowed {
        for i := 0 to |ids|
          invariant forall j :: 0 <= j < i ==> !Probeable(states[ids[j]], now)
        {
          if Probeable(states[ids[i]], now) {
            assert Chosen(s, provider, probeAllowed, now, Probe(i));
            return Some(profiles[ids[i]]), true;
          }
        }
      }
      assert Chosen(s, provider, probeAllowed, now, Nothing);
      return None, false;
    }

    method RecordSuccess(id: string, now: int)
      requires Valid()
      modifies this
      ensures Valid() && Value() == OnSuccess(old(Value()), id, now)
    {
      if id !in states { return; }
      states := states[id := Succeed(states[id], now)];
    }

    method RecordFailure(id: string, reason: Reason, now: int)
      requires Valid()
      modifies this
      ensures Valid() && Value() == OnFailure(old(Value()), id, reason, now)
    {
      hide Ladder;
      if id !in states { return; }
      var st := states[id];
      st := st.(consecutiveErrors := st.consecutiveErrors + 1, lastErrorReason := Some(reason));
      if reason == Billing {
        st := st.(billingDisabledUntil := now + Ladder(Billing, st.consecutiveErrors));
        st := st.(cooldownUntil := st.billingDisabledUntil);
      } else {
        st := st.(cooldownUntil := now + Ladder(reason, st.consecutiveErrors));
      }
      states := states[id := st];
    }

    method RecordProbe(id: string, now: int)
      requires Valid()
      modifies this
      ensures Valid() && Value() == OnProbe(old(Value()), id, now)
    {
      if id !in states { return; }
      states := states[id := states[id].(lastProbeAt := now)];
    }
  }

  lemma RegisterKeepsIndexed(s: Store, profile: Profile)
    requires Indexed(s)
    ensures Indexed(OnRegister(s, profile))
  {
    var t := OnRegister(s, profile);
    forall p | p in t.byProv ensures Listing(t.states, t.byProv[p]) {
      if p in s.byProv { assert Listing(s.states, s.byProv[p]); }
    }
  }

  /** Replacing a profile under another provider leaves it listed under the old one as well. */
  predicate Homed(s: Store) {
    forall p, i :: p in s.byProv && 0 <= i < |s.byProv[p]| && s.byProv[p][i] in s.profiles
                   ==> s.profiles[s.byProv[p][i]].provider == p
  }

  /** Every listed profile belongs to its provider after a registration iff the profile has not moved. */
  lemma RegisterKeepsHomedIffNotMoved(s: Store, profile: Profile)
    requires Indexed(s) && Homed(s)
    requires profile.id in s.profiles ==> profile.id in Ids(s, s.profiles[profile.id].provider)
    ensures Homed(OnRegister(s, profile)) <==>
            (profile.id in s.profiles ==> s.profiles[profile.id].provider == profile.provider)
  {
    var t := OnRegister(s, profile);
    if profile.id in s.profiles && s.profiles[profile.id].provider != profile.provider {
      var home := s.profiles[profile.id].provider;
      var i :| 0 <= i < |Ids(s, home)| && Ids(s, home)[i] == profile.id;
      assert t.byProv[home][i] == profile.id;
      assert !Homed(t);
    }
  }

  /** In the second phase the inline test says the same as IsProbeEligible, for profiles not out of credit. */
  lemma InlineTestIsProbeEligible(s: Store, provider: string, now: int, i: nat)
    requires Indexed(s) && i < |Ids(s, provider)| && NoneAvailable(s.states, Ids(s, provider), now)
    ensures var st := s.states[Ids(s, provider)[i]];
            Probeable(st, now) <==>
            st.billingDisabledUntil <= now && IsProbeEligible(st.cooldownUntil, st.lastProbeAt, now)
  {
    assert !Available(s.states[Ids(s, provider)[i]], now);
  }

  /** What is returned while cooling is a probe within two minutes of the end, and never out of credit. */
  lemma CoolingOnlyAsProbe(s: Store, provider: string, probeAllowed: bool, now: int, c: Choice)
    requires Indexed(s) && Chosen(s, provider, probeAllowed, now, c) && c != Nothing
    ensures c.at < |Ids(s, provider)|
    ensures var st := s.states[Ids(s, provider)[c.at]];
            && st.billingDisabledUntil <= now
            && (st.cooldownUntil > now <==> c.Probe?)
            && (c.Probe? ==> st.cooldownUntil <= now + 2 * MINUTE && st.lastProbeAt <= now - 30 * SECOND)
  {
  }
}
