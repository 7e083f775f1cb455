/** The bridge's bounded session table: reaping of stale sessions, eviction of the oldest idle one. */
module BridgeSessions {
  import opened Sets

  const MAX_SESSIONS := 5000
  const IDLE_TTL := 24 * 3600 * 1_000_000_000
  const ZERO_TIME := 0

  /** What bounding the table depends on: the run in progress ("" for none) and the last use. */
  datatype Session = Session(currentRunId: string, lastTouchedAt: int)

  type Table = map<string, Session>

  predicate Idle(s: Session) {
    s.currentRunId == ""
  }

  predicate Stale(s: Session, now: int) {
    Idle(s) && (s.lastTouchedAt == ZERO_TIME || s.lastTouchedAt < now - IDLE_TTL)
  }

  function Reaped(t: Table, now: int): Table {
    map id | id in t && !Stale(t[id], now) :: t[id]
  }

  function IdleIds(t: Table): set<string> {
    set id | id in t && Idle(t[id])
  }

  function RunningIds(t: Table): set<string> {
    set id | id in t && !Idle(t[id])
  }

  /** An idle session with the least LastTouchedAt. */
  predicate OldestIdle(t: Table, id: string) {
    id in IdleIds(t) && forall other :: other in IdleIds(t) ==> t[id].lastTouchedAt <= t[other].lastTouchedAt
  }

  datatype Op =
    | Upsert(id: string, now: int, touched: int)
    | Get(id: string, now: int)
    | SetRun(id: string, run: string, now: int)
    | ClearRun(id: string, run: string, now: int)

  /** The table steps from t to t' by op; which of several oldest idle sessions goes is left open. */
  ghost predicate Next(t: Table, op: Op, t': Table) {
    match op
    case Upsert(id, now, touched) =>
      var r := Reaped(t, now);
      if id in r then t' == r[id := r[id].(lastTouchedAt := touched)]
      else if |r| >= MAX_SESSIONS && IdleIds(r) != {} then
        exists old' :: OldestIdle(r, old') && t' == (r - {old'})[id := Session("", touched)]
      else t' == r[id := Session("", touched)]
    case Get(id, now) => t' == if id in t then t[id := t[id].(lastTouchedAt := now)] else t
    case SetRun(id, run, now) => t' == if id in t then t[id := Session(run, now)] else t
    case ClearRun(id, run, now) =>
      t' == if id in t && t[id].currentRunId == run then t[id := Session("", now)] else t
  }

  class BridgeServer {
    var sessions: Table

    constructor ()
      ensures sessions == map[]
    {
      sessions := map[];
    }

    method ReapIdleSessions(now: int)
      modifies this
      ensures sessions == Reaped(old(sessions), now)
      ensures sessions.Keys == InUse(old(sessions), now)
      ensures forall a :: a in sessions ==> sessions[a] == old(sessions)[a]
    {
      var todo := sessions.Keys;
      ghost var before := sessions;
      while todo != {}
        invariant todo <= before.Keys
        invariant sessions == map id | id in before && (id in todo || !Stale(before[id], now)) :: before[id]
        decreases todo
      {
        var id :| id in todo;
        todo := todo - {id};
        if Stale(sessions[id], now) { sessions := sessions - {id}; }
      }
    }

    /** Session ids are not blank, so "" can mark that no idle session was found yet. */
    method EvictOldestIdleSession() returns (evicted: bool)
      requires "" !in sessions
      modifies this
      ensures evicted <==> IdleIds(old(sessions)) != {}
      ensures !evicted ==> sessions == old(sessions)
      ensures evicted ==> exists id :: OldestIdle(old(sessions), id) && sessions == old(sessions) - {id}
    {
      var oldestId, oldestAt := "", 0;
      var todo := sessions.Keys;
      while todo != {}
        invariant todo <= sessions.Keys && sessions == old(sessions)
        invariant oldestId == "" ==> forall id :: id in IdleIds(sessions) ==> id in todo
        invariant oldestId != "" ==> oldestId in IdleIds(sessions) && sessions[oldestId].lastTouchedAt == oldestAt
        invariant oldestId != "" ==>
                    forall id :: id in IdleIds(sessions) ==> id in todo || oldestAt <= sessions[id].lastTouchedAt
        decreases todo
      {
        var id :| id in todo;
        todo := todo - {id};
        var item := sessions[id];
        if item.currentRunId == "" {
          if oldestId == "" || item.lastTouchedAt < oldestAt {
            oldestId, oldestAt := id, item.lastTouchedAt;
          }
        }
      }
      if oldestId == "" {
        assert IdleIds(sessions) == {};
        return false;
      }
      assert OldestIdle(sessions, oldestId);
      sessions := sessions - {oldestId};
      return true;
    }

    method UpsertBridgeSession(id: string, now: int, touched: int)
      requires id != "" && "" !in sessions
      modifies this
      ensures "" !in sessions && Next(old(sessions), Upsert(id, now, touched), sessions)
    {
      ReapIdleSessions(now);
      if id !in sessions {
        if |sessions| >= MAX_SESSIONS { var _ := EvictOldestIdleSession(); }
        sessions := sessions[id := Session("", ZERO_TIME)];
      }
      sessions := sessions[id := sessions[id].(lastTouchedAt := touched)];
    }

    method GetBridgeSession(id: string, now: int) returns (found: bool)
      modifies this
      ensures Next(old(sessions), Get(id, now), sessions) && found == (id in old(sessions))
    {
      if id !in sessions { return false; }
      sessions := sessions[id := sessions[id].(lastTouchedAt := now)];
      return true;
    }

    method SetSessionRun(id: string, run: string, now: int)
      modifies this
      ensures Next(old(sessions), SetRun(id, run, now), sessions)
    {
      if id in sessions { sessions := sessions[id := Session(run, now)]; }
    }

    method ClearSessionRun(id: string, run: string, now: int)
      modifies this
      ensures Next(old(sessions), ClearRun(id, run, now), sessions)
    {
      if id in sessions && sessions[id].currentRunId == run { sessions := sessions[id := Session("", now)]; }
    }
  }

  // ---- Whole runs ----

  /** Each table comes from the one before by one operation, starting from the empty table. */
  ghost predicate IsRun(ts: seq<Table>, ops: seq<Op>) {
    && |ts| == |ops| + 1 && ts[0] == map[]
    && forall i :: 0 <= i < |ops| ==> Next(ts[i], ops[i], ts[i + 1])
  }

  /** The most sessions that were ever running at once. */
  function Peak(ts: seq<Table>): nat {
    if ts == [] then 0
    else
      var before, now := Peak(ts[..|ts| - 1]), |RunningIds(ts[|ts| - 1])|;
      if now > before then now else before
  }

  function Bound(peak: nat): nat {
    if 1 + peak > 5000 then 1 + peak else 5000
  }

  lemma SubmapSize(a: Table, b: Table)
    requires a.Keys <= b.Keys
    ensures |a| <= |b|
  {
    SubsetIsSmaller(a.Keys, b.Keys);
    assert |a| == |a.Keys| && |b| == |b.Keys|;
  }

  lemma InsertSize(t: Table, id: string, s: Session)
    ensures |t[id := s]| == if id in t then |t| else |t| + 1
  {
    if id in t {
      assert t[id := s].Keys == t.Keys;
      assert |t[id := s]| == |t[id := s].Keys| && |t| == |t.Keys|;
    } else {
      assert t[id := s].Keys == t.Keys + {id};
      assert |t[id := s]| == |t[id := s].Keys| && |t| == |t.Keys|;
    }
  }

  lemma RemoveSize(t: Table, id: string)
    requires id in t
    ensures |t - {id}| == |t| - 1
  {
    assert (t - {id}).Keys == t.Keys - {id};
    assert |t - {id}| == |(t - {id}).Keys| && |t| == |t.Keys|;
  }

  /** A step adds at most one session, and beyond 5000 only when every session is running. */
  lemma StepSize(t: Table, op: Op, t': Table)
    requires Next(t, op, t')
    ensures |t'| <= |t| || |t'| <= MAX_SESSIONS || |t'| <= |RunningIds(t)| + 1
  {
    hide Stale;
    match op
    case Upsert(id, now, touched) =>
      var r := Reaped(t, now);
      SubmapSize(r, t);
      if id in r {
        InsertSize(r, id, r[id].(lastTouchedAt := touched));
      } else if |r| >= MAX_SESSIONS && IdleIds(r) != {} {
        var old' :| OldestIdle(r, old') && t' == (r - {old'})[id := Session("", touched)];
        RemoveSize(r, old');
        InsertSize(r - {old'}, id, Session("", touched));
      } else {
        InsertSize(r, id, Session("", touched));
        if |r| >= MAX_SESSIONS { AllRunning(t, r); }
      }
    case Get(id, now) =>
      if id in t { InsertSize(t, id, t[id].(lastTouchedAt := now)); }
    case SetRun(id, run, now) =>
      InsertSize(t, id, Session(run, now));
    case ClearRun(id, run, now) =>
      InsertSize(t, id, Session("", now));
  }

  lemma AllRunning(t: Table, r: Table)
    requires r.Keys <= t.Keys && IdleIds(r) == {} && forall id :: id in r ==> r[id] == t[id]
    ensures |r| <= |RunningIds(t)|
  {
    forall id | id in r ensures id in RunningIds(t) { assert id !in IdleIds(r); }
    SubsetIsSmaller(r.Keys, RunningIds(t));
    assert |r| == |r.Keys|;
  }

  /** Over any run the table never holds more than max(5000, 1 + peak running) sessions. */
  lemma {:induction false} TableIsBounded(ts: seq<Table>, ops: seq<Op>)
    requires IsRun(ts, ops)
    ensures |ts[|ts| - 1]| <= Bound(Peak(ts))
  {
    hide Next;
    if ops == [] {
      assert |ts[0]| == 0;
    } else {
      var n := |ops| - 1;
      TableIsBounded(ts[..n + 1], ops[..n]);
      StepSize(ts[n], ops[n], ts[n + 1]);
      var pre := ts[..n + 1];
      assert ts[..|ts| - 1] == pre;
      assert pre[|pre| - 1] == ts[n];
    }
  }

  /** Nothing but its own set-run or clear-run touches a session's run in progress. */
  lemma RunningSurvivesStep(t: Table, op: Op, t': Table, id: string)
    requires Next(t, op, t') && id in RunningIds(t)
    requires !(op.SetRun? && op.id == id) && !(op.ClearRun? && op.id == id && op.run == t[id].currentRunId)
    ensures id in RunningIds(t') && t'[id].currentRunId == t[id].currentRunId
  {
    match op
    case Upsert(other, now, touched) =>
      var r := Reaped(t, now);
      assert id in r && r[id] == t[id];
      if other !in r && |r| >= MAX_SESSIONS && IdleIds(r) != {} {
        var old' :| OldestIdle(r, old') && t' == (r - {old'})[other := Session("", touched)];
      }
    case Get(_, _) =>
    case SetRun(_, _, _) =>
    case ClearRun(_, _, _) =>
  }

  /** A running session stays in the table, with its run, until its own run is replaced or cleared. */
  lemma {:induction false} RunningSessionsStay(ts: seq<Table>, ops: seq<Op>, i: nat, j: nat, id: string)
    requires |ts| == |ops| + 1 && forall k :: 0 <= k < |ops| ==> Next(ts[k], ops[k], ts[k + 1])
    requires i <= j < |ts| && id in RunningIds(ts[i])
    requires forall k :: i <= k < j ==>
               !(ops[k].SetRun? && ops[k].id == id)
               && !(ops[k].ClearRun? && ops[k].id == id && ops[k].run == ts[i][id].currentRunId)
    ensures id in RunningIds(ts[j]) && ts[j][id].currentRunId == ts[i][id].currentRunId
    decreases j - i
  {
    hide Next, RunningIds;
    if i < j {
      RunningSessionsStay(ts, ops, i, j - 1, id);
      RunningIsThere(ts[i], id);
      RunningIsThere(ts[j - 1], id);
      RunningSurvivesStep(ts[j - 1], ops[j - 1], ts[j], id);
    }
  }

  lemma RunningIsThere(t: Table, id: string)
    requires id in RunningIds(t)
    ensures id in t
  {
  }

  // ---- The table after an upsert, in numbers ----

  /** The sessions that have a run, or were touched in the last 24 hours (in nanoseconds). */
  function InUse(t: Table, now: int): set<string> {
    set a | a in t && (t[a].currentRunId != ""
                       || (t[a].lastTouchedAt != 0 && now - t[a].lastTouchedAt <= 24 * 3600 * 1_000_000_000))
  }

  /** Of the sessions in use, the one without a run that was touched longest ago. */
  predicate LongestUntouched(t: Table, now: int, a: string) {
    && a in InUse(t, now) && t[a].currentRunId == ""
    && forall b :: b in InUse(t, now) && t[b].currentRunId == "" ==> t[a].lastTouchedAt <= t[b].lastTouchedAt
  }

  lemma ReapedAreInUse(t: Table, now: int)
    ensures Reaped(t, now).Keys == InUse(t, now) && forall a :: a in Reaped(t, now) ==> Reaped(t, now)[a] == t[a]
    ensures |Reaped(t, now)| == |InUse(t, now)|
    ensures IdleIds(Reaped(t, now)) == set a | a in InUse(t, now) && t[a].currentRunId == ""
    ensures forall a :: OldestIdle(Reaped(t, now), a) <==> LongestUntouched(t, now, a)
  {
    var r := Reaped(t, now);
    assert r.Keys == InUse(t, now);
    assert |r| == |r.Keys|;
  }

  /** The table after the upsert, from the table after reaping. */
  lemma UpsertAfterReaping(r: Table, t': Table, id: string, touched: int) returns (evicted: set<string>)
    requires
      if id in r then t' == r[id := r[id].(lastTouchedAt := touched)]
      else if |r| >= 5000 && IdleIds(r) != {} then
        exists oldest :: OldestIdle(r, oldest) && t' == (r - {oldest})[id := Session("", touched)]
      else t' == r[id := Session("", touched)]
    ensures t'.Keys == (r.Keys - evicted) + {id} && forall a :: a in t' && a != id ==> t'[a] == r[a]
    ensures t'[id] == Session(if id in r then r[id].currentRunId else "", touched)
    ensures if id !in r && |r| >= 5000 && IdleIds(r) != {} then exists a :: OldestIdle(r, a) && evicted == {a}
            else evicted == {}
  {
    hide OldestIdle, IdleIds;
    evicted := {};
    if id !in r && |r| >= 5000 && IdleIds(r) != {} {
      var oldest :| OldestIdle(r, oldest) && t' == (r - {oldest})[id := Session("", touched)];
      evicted := {oldest};
    }
  }

  /**
   Exactly the sessions in use stay, unchanged, and the upserted one keeps its run. Only a new session in a table
   with 5000 sessions in use costs another its place: the one without a run that was touched longest ago.
   */
  lemma UpsertKeepsSessionsInUse(t: Table, t': Table, id: string, now: int, touched: int)
    returns (evicted: set<string>)
    requires Next(t, Upsert(id, now, touched), t')
    ensures t'.Keys == (InUse(t, now) - evicted) + {id}
    ensures forall a :: a in t' && a != id ==> a in t && t'[a] == t[a]
    ensures t'[id] == Session(if id in t then t[id].currentRunId else "", touched)
    ensures if id !in InUse(t, now) && |InUse(t, now)| >= 5000 && exists a :: LongestUntouched(t, now, a)
            then exists a :: LongestUntouched(t, now, a) && evicted == {a}
            else evicted == {}
  {
    var r := Reaped(t, now);
    ReapedAreInUse(t, now);
    if id !in r { GoneWithoutRun(t, id, now); }
    if exists a :: LongestUntouched(t, now, a) {
      var a :| LongestUntouched(t, now, a);
      assert a in IdleIds(r) by { NoneUntouched(t, now, a); }
    }
    hide Reaped, InUse, LongestUntouched, OldestIdle, IdleIds;
    evicted := UpsertAfterReaping(r, t', id, touched);
    if evicted != {} {
      var a :| OldestIdle(r, a) && evicted == {a};
      assert LongestUntouched(t, now, a);
    }
  }

  lemma NoneUntouched(t: Table, now: int, a: string)
    requires LongestUntouched(t, now, a)
    ensures a in IdleIds(Reaped(t, now))
  {
    ReapedAreInUse(t, now);
  }

  lemma GoneWithoutRun(t: Table, id: string, now: int)
    requires id !in InUse(t, now)
    ensures id in t ==> t[id].currentRunId == ""
  {
  }

  /** What an upsert removes was idle: stale, or, in a full table, the oldest idle session. */
  lemma UpsertRemovesOnlyIdle(t: Table, t': Table, id: string, now: int, touched: int, gone: string)
    requires Next(t, Upsert(id, now, touched), t') && gone in t && gone !in t'
    ensures t[gone].currentRunId == ""
    ensures t[gone].lastTouchedAt == 0 || now - t[gone].lastTouchedAt > 24 * 3600 * 1_000_000_000
            || (|InUse(t, now)| >= 5000 && LongestUntouched(t, now, gone))
  {
    var evicted := UpsertKeepsSessionsInUse(t, t', id, now, touched);
  }
}
