/** The session table and the pending-prompt protocol have one CurrentRunID: every step of the table is covered. */
module SessionPrompts {
  import opened Text
  import Sessions = BridgeSessions
  import Prompts = PendingPrompts

  /** The run of each session, as the protocol sees the table. */
  function Runs(t: Sessions.Table): map<string, string> {
    map id | id in t :: t[id].currentRunId
  }

  /** Runs are set by prompts that begin and cleared by prompts that are done with their pending entry. */
  predicate ByPrompt(s: Prompts.State, op: Sessions.Op) {
    match op
    case SetRun(_, run, _) => Prompts.CanBegin(s, run)
    case ClearRun(id, run, _) => run in s.prompts && s.prompts[run] == Prompts.Prompt(id, Prompts.Cleared)
    case _ => true
  }

  /** The protocol goes from s to t in these steps. */
  ghost predicate Leads(s: Prompts.State, ops: seq<Prompts.Op>, t: Prompts.State)
    decreases |ops|
  {
    if ops == [] then t == s else Prompts.Enabled(s, ops[0]) && Leads(Prompts.Apply(s, ops[0]), ops[1..], t)
  }

  lemma {:induction false} LeadsOn(s: Prompts.State, a: seq<Prompts.Op>, t: Prompts.State, op: Prompts.Op)
    requires Leads(s, a, t) && Prompts.Enabled(t, op)
    ensures Leads(s, a + [op], Prompts.Apply(t, op))
    decreases |a|
  {
    hide Prompts.Enabled, Prompts.Apply;
    if a == [] {
      assert (a + [op])[1..] == [];
    } else {
      assert (a + [op])[1..] == a[1..] + [op];
      LeadsOn(Prompts.Apply(s, a[0]), a[1..], t, op);
    }
  }

  /** Reaping and eviction forget idle sessions one by one. */
  lemma {:induction false} ForgetAll(s: Prompts.State, gone: set<string>) returns (ops: seq<Prompts.Op>)
    requires forall id :: id in gone ==> id in s.current && s.current[id] == ""
    ensures forall op :: op in ops ==> op.ForgetSession?
    ensures Leads(s, ops, s.(current := s.current - gone))
  {
    if gone == {} {
      assert s.current - {} == s.current;
      return [];
    }
    var id :| id in gone;
    var rest := gone - {id};
    ops := ForgetAll(s, rest);
    var t := s.(current := s.current - rest);
    assert t.current - {id} == s.current - gone;
    LeadsOn(s, ops, t, Prompts.ForgetSession(id));
    ops := ops + [Prompts.ForgetSession(id)];
  }

  lemma RunsWithout(t: Sessions.Table, gone: set<string>)
    ensures Runs(t - gone) == Runs(t) - gone
  {
  }

  lemma RunsWith(t: Sessions.Table, id: string, session: Sessions.Session)
    ensures Runs(t[id := session]) == Runs(t)[id := session.currentRunId]
  {
  }

  /** Reaping removes idle sessions. */
  lemma ReapedAreIdle(t: Sessions.Table, now: int) returns (gone: set<string>)
    ensures Sessions.Reaped(t, now) == t - gone
    ensures forall g :: g in gone ==> g in t && Sessions.Idle(t[g])
  {
    gone := set g | g in t && Sessions.Stale(t[g], now);
  }

  /** What an upsert reaps and evicts was idle; otherwise only a new session appears. */
  lemma UpsertRuns(t: Sessions.Table, id: string, now: int, touched: int, t': Sessions.Table)
    returns (gone: set<string>)
    requires Sessions.Next(t, Sessions.Upsert(id, now, touched), t')
    ensures forall g :: g in gone ==> g in t && Sessions.Idle(t[g])
    ensures var left := Runs(t) - gone; Runs(t') == if id in left then left else left[id := ""]
  {
    hide Runs, Sessions.Reaped;
    var r := Sessions.Reaped(t, now);
    gone := ReapedAreIdle(t, now);
    if id in r {
      RunsWith(r, id, r[id].(lastTouchedAt := touched));
    } else {
      if |r| >= Sessions.MAX_SESSIONS && Sessions.IdleIds(r) != {} {
        var oldest :| Sessions.OldestIdle(r, oldest) && t' == (r - {oldest})[id := Sessions.Session("", touched)];
        assert r - {oldest} == t - (gone + {oldest});
        gone := gone + {oldest};
      }
      RunsWith(t - gone, id, Sessions.Session("", touched));
    }
    RunsWithout(t, gone);
    SameSessions(t - gone);
  }

  lemma SameSessions(t: Sessions.Table)
    ensures Runs(t).Keys == t.Keys && forall id :: id in t ==> Runs(t)[id] == t[id].currentRunId
  {
  }

  /** An upsert forgets what it reaps and evicts, and opens the session if it is new. */
  lemma UpsertLeads(
    s: Prompts.State, t: Sessions.Table, id: string, now: int, touched: int, t': Sessions.Table)
    returns (ops: seq<Prompts.Op>, s': Prompts.State)
    requires s.current == Runs(t) && Sessions.Next(t, Sessions.Upsert(id, now, touched), t')
    ensures forall op :: op in ops ==> op.ForgetSession? || op == Prompts.OpenSession(id)
    ensures Leads(s, ops, s') && s'.current == Runs(t')
  {
    hide Leads, Sessions.Next;
    var gone := UpsertRuns(t, id, now, touched, t');
    ops := ForgetAll(s, gone);
    s' := s.(current := s.current - gone);
    if id !in s'.current {
      LeadsOn(s, ops, s', Prompts.OpenSession(id));
      ops, s' := ops + [Prompts.OpenSession(id)], Prompts.Apply(s', Prompts.OpenSession(id));
    }
  }

  /** What the protocol does while the table takes one step. */
  predicate Corresponds(op: Sessions.Op, ops: seq<Prompts.Op>) {
    match op
    case Upsert(id, _, _) => forall o :: o in ops ==> o.ForgetSession? || o == Prompts.OpenSession(id)
    case Get(_, _) => ops == []
    case SetRun(id, run, _) => ops == [Prompts.Begin(run, id)]
    case ClearRun(id, run, _) => ops == [Prompts.CleanRun(run)]
  }

  /** Every operation of the session table is matched by steps of the protocol with the same effect on all runs. */
  lemma TableStepsAreProtocolSteps(s: Prompts.State, t: Sessions.Table, op: Sessions.Op, t': Sessions.Table)
    returns (ops: seq<Prompts.Op>, s': Prompts.State)
    requires s.current == Runs(t) && ByPrompt(s, op) && Sessions.Next(t, op, t')
    ensures Corresponds(op, ops) && Leads(s, ops, s') && s'.current == Runs(t')
  {
    hide Trimmed, Leads, Sessions.Reaped;
    match op
    case Upsert(id, now, touched) =>
      ops, s' := UpsertLeads(s, t, id, now, touched, t');
    case Get(_, _) =>
      ops, s' := [], s;
      StaysPut(s);
    case SetRun(id, run, _) =>
      ops, s' := OneStep(s, Prompts.Begin(run, id));
    case ClearRun(id, run, _) =>
      ops, s' := OneStep(s, Prompts.CleanRun(run));
  }

  lemma StaysPut(s: Prompts.State)
    ensures Leads(s, [], s)
  {
  }

  lemma OneStep(s: Prompts.State, op: Prompts.Op) returns (ops: seq<Prompts.Op>, s': Prompts.State)
    requires Prompts.Enabled(s, op)
    ensures ops == [op] && s' == Prompts.Apply(s, op) && Leads(s, ops, s')
  {
    hide Prompts.Enabled, Prompts.Apply;
    ops, s' := [op], Prompts.Apply(s, op);
    assert ops[1..] == [];
  }

  // ---- Tables of reachable states ----

  /** Some interleaving ends in this state. */
  ghost predicate Reached(s: Prompts.State) {
    exists states, ops :: Prompts.IsInterleaving(states, ops) && states[|ops|] == s
  }

  lemma OneMoreStep(s: Prompts.State, op: Prompts.Op)
    requires Reached(s) && Prompts.Enabled(s, op)
    ensures Reached(Prompts.Apply(s, op))
  {
    hide Prompts.Enabled, Prompts.Apply;
    var states, ops :| Prompts.IsInterleaving(states, ops) && states[|ops|] == s;
    var longer, more := states + [Prompts.Apply(s, op)], ops + [op];
    assert Prompts.IsInterleaving(longer, more) && longer[|more|] == Prompts.Apply(s, op);
  }

  /** Steps that match those of the table lead from reachable states to reachable ones. */
  lemma {:induction false} LeadsReaches(s: Prompts.State, ops: seq<Prompts.Op>, t: Prompts.State)
    requires Reached(s) && Leads(s, ops, t)
    ensures Reached(t)
    decreases |ops|
  {
    hide Reached, Prompts.Enabled, Prompts.Apply;
    if ops != [] {
      OneMoreStep(s, ops[0]);
      LeadsReaches(Prompts.Apply(s, ops[0]), ops[1..], t);
    }
  }

  /** So the table keeps the session of the newest prompt to set its run, and the run, until the prompt finishes. */
  lemma NewestKeepsSession(s: Prompts.State, t: Sessions.Table, session: string)
    requires Reached(s) && s.current == Runs(t)
    requires session in s.setBy
    ensures
      var r := s.setBy[session];
      && r in s.prompts
      && (s.prompts[r].phase != Prompts.Finished ==> session in t && t[session].currentRunId == r)
  {
    hide Prompts.Enabled, Prompts.Apply;
    var states, ops :| Prompts.IsInterleaving(states, ops) && states[|ops|] == s;
    Prompts.NewestKeepsRun(states, ops, |ops|, session);
  }
}
