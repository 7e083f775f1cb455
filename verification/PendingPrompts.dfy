/**
 The pending-prompt protocol: prompts, their clean-up and resolves interleave, one locked section at a time.
 A resolve takes two steps: it removes the entry under the lock and sends on the channel after unlocking.
 */
module PendingPrompts {
  import opened Text

  type Chan = nat

  datatype StopReason = EndTurn | CancelledReason | MaxTokens

  datatype Entry = Entry(runId: string, done: Chan)

  /** A send that a resolve has promised: on which channel, for which requested run, with which reason. */
  datatype Delivery = Delivery(done: Chan, target: string, reason: StopReason)

  /** A blank run id matches any entry. */
  predicate Matches(e: Entry, runId: string) {
    Trim(runId) == "" || Trim(e.runId) == Trim(runId)
  }

  predicate Hit(pending: map<string, Entry>, session: string, runId: string) {
    session in pending && Matches(pending[session], runId)
  }

  function Without(pending: map<string, Entry>, session: string, runId: string): map<string, Entry> {
    if Hit(pending, session, runId) then pending - {session} else pending
  }

  const CAPACITY := 1

  // ---- The locked sections ----

  class PromptTable {
    var pending: map<string, Entry>
    var buffers: map<Chan, seq<StopReason>>
    var nextChan: Chan

    ghost predicate Valid() reads this {
      && (forall c :: c in buffers ==> c < nextChan)
      && (forall s :: s in pending ==> pending[s].done in buffers)
    }

    constructor ()
      ensures Valid() && pending == map[] && buffers == map[]
    {
      pending, buffers, nextChan := map[], map[], 0;
    }

    method RegisterPendingPrompt(session: string, runId: string) returns (done: Chan)
      requires Valid()
      modifies this
      ensures Valid() && done !in old(buffers)
      ensures pending == old(pending)[session := Entry(Trim(runId), done)]
      ensures buffers == old(buffers)[done := []]
    {
      done := nextChan;
      nextChan := nextChan + 1;
      buffers := buffers[done := []];
      pending := pending[session := Entry(Trim(runId), done)];
    }

    method ClearPendingPrompt(session: string, runId: string)
      requires Valid()
      modifies this
      ensures Valid() && buffers == old(buffers) && pending == Without(old(pending), session, runId)
    {
      if session !in pending { return; }
      if Trim(runId) != "" && Trim(pending[session].runId) != Trim(runId) { return; }
      pending := pending - {session};
    }

    /** The locked half of resolvePendingPrompt: takes the entry out and returns its channel. */
    method TakePendingPrompt(session: string, runId: string) returns (done: Option<Chan>)
      requires Valid()
      modifies this
      ensures Valid() && buffers == old(buffers) && pending == Without(old(pending), session, runId)
      ensures done == if Hit(old(pending), session, runId) then Some(old(pending)[session].done) else None
      ensures done.Some? ==> done.value in buffers
    {
      if session !in pending || (Trim(runId) != "" && Trim(pending[session].runId) != Trim(runId)) { return None; }
      done := Some(pending[session].done);
      pending := pending - {session};
    }

    /** The send after unlocking: never blocks, drops the reason when the buffer is full. */
    method Send(done: Chan, reason: StopReason) returns (dropped: bool)
      requires Valid() && done in buffers
      modifies this
      ensures Valid() && pending == old(pending)
      ensures dropped == (|old(buffers)[done]| >= CAPACITY)
      ensures buffers == if dropped then old(buffers) else old(buffers)[done := old(buffers)[done] + [reason]]
    {
      dropped := |buffers[done]| >= CAPACITY;
      if !dropped { buffers := buffers[done := buffers[done] + [reason]]; }
    }
  }

  // ---- The protocol ----

  datatype Phase = Begun | Waiting(done: Chan) | Cleared | Finished

  datatype Prompt = Prompt(session: string, phase: Phase)

  /**
   `current` holds CurrentRunID of the sessions in the table. `owner` remembers for which run each channel was
   made, `sent` every send ever attempted on it; `setBy` and `registeredBy` the last prompt to take effect on a
   session's CurrentRunID and on its pending entry.
   */
  datatype State = State(
    current: map<string, string>,
    pending: map<string, Entry>,
    prompts: map<string, Prompt>,
    buffers: map<Chan, seq<StopReason>>,
    owed: seq<Delivery>,
    owner: map<Chan, string>,
    sent: map<Chan, seq<Delivery>>,
    dropped: nat,
    setBy: map<string, string>,
    registeredBy: map<string, string>)

  datatype Op =
    | OpenSession(session: string)              // upsertBridgeSession adds a session
    | ForgetSession(session: string)            // reaping or eviction: only sessions without a run
    | Begin(runId: string, session: string)     // prompt: setSessionRun
    | Register(runId: string, done: Chan)       // prompt: registerPendingPrompt
    | CleanPending(runId: string)               // prompt: deferred clearPendingPrompt
    | CleanRun(runId: string)                   // prompt: deferred clearSessionRun
    | Take(session: string, target: string, reason: StopReason) // resolve: the locked half
    | Deliver(at: nat)                          // resolve: the send
    | Receive(done: Chan)                       // prompt: reads its channel

  const START := State(map[], map[], map[], map[], [], map[], map[], 0, map[], map[])

  // One function per step.

  function OnOpen(s: State, session: string): State {
    s.(current := s.current[session := ""])
  }

  function OnForget(s: State, session: string): State {
    s.(current := s.current - {session})
  }

  function OnBegin(s: State, r: string, session: string): State {
    var known := session in s.current;
    s.(prompts := s.prompts[r := Prompt(session, Begun)],
       current := if known then s.current[session := r] else s.current,
       setBy := if known then s.setBy[session := r] else s.setBy)
  }

  function OnRegister(s: State, r: string, done: Chan): State
    requires r in s.prompts
  {
    var session := s.prompts[r].session;
    s.(pending := s.pending[session := Entry(r, done)], prompts := s.prompts[r := Prompt(session, Waiting(done))],
       buffers := s.buffers[done := []], owner := s.owner[done := r], sent := s.sent[done := []],
       registeredBy := s.registeredBy[session := r])
  }

  function OnCleanPending(s: State, r: string): State
    requires r in s.prompts
  {
    var session := s.prompts[r].session;
    s.(pending := Without(s.pending, session, r), prompts := s.prompts[r := Prompt(session, Cleared)])
  }

  function OnCleanRun(s: State, r: string): State
    requires r in s.prompts
  {
    var session := s.prompts[r].session;
    var mine := session in s.current && s.current[session] == r;
    s.(prompts := s.prompts[r := Prompt(session, Finished)],
       current := if mine then s.current[session := ""] else s.current)
  }

  function OnTake(s: State, session: string, target: string, reason: StopReason): State
    requires session in s.pending
  {
    s.(pending := s.pending - {session}, owed := s.owed + [Delivery(s.pending[session].done, target, reason)])
  }

  function OnDeliver(s: State, at: nat): State
    requires at < |s.owed| && s.owed[at].done in s.buffers && s.owed[at].done in s.sent
  {
    var d := s.owed[at];
    var full := |s.buffers[d.done]| >= CAPACITY;
    s.(owed := s.owed[..at] + s.owed[at + 1..], sent := s.sent[d.done := s.sent[d.done] + [d]],
       dropped := if full then s.dropped + 1 else s.dropped,
       buffers := if full then s.buffers else s.buffers[d.done := s.buffers[d.done] + [d.reason]])
  }

  function OnReceive(s: State, done: Chan): State
    requires done in s.buffers && s.buffers[done] != []
  {
    s.(buffers := s.buffers[done := s.buffers[done][1..]])
  }

  /**
   The steps change the pending entries and the buffers exactly as the methods of `PromptTable` promise to. A
   prompt passes its own (trimmed) run id and session.
   */
  lemma StepsAreTheMethods(
    s: State, r: string, done: Chan, session: string, target: string, reason: StopReason, at: nat)
    ensures r in s.prompts && Trimmed(r) ==>
              var t, a := OnRegister(s, r, done), s.prompts[r].session;
              t.pending == s.pending[a := Entry(Trim(r), done)] && t.buffers == s.buffers[done := []]
    ensures r in s.prompts ==>
              var t := OnCleanPending(s, r);
              t.pending == Without(s.pending, s.prompts[r].session, r) && t.buffers == s.buffers
    ensures Hit(s.pending, session, target) ==>
              var t := OnTake(s, session, target, reason);
              && t.pending == Without(s.pending, session, target) && t.buffers == s.buffers
              && t.owed == s.owed + [Delivery(s.pending[session].done, target, reason)]
    ensures at < |s.owed| && s.owed[at].done in s.buffers && s.owed[at].done in s.sent ==>
              var t, d := OnDeliver(s, at), s.owed[at];
              var full := |s.buffers[d.done]| >= CAPACITY;
              && t.pending == s.pending && t.dropped == s.dropped + (if full then 1 else 0)
              && t.buffers == if full then s.buffers else s.buffers[d.done := s.buffers[d.done] + [d.reason]]
  {
    hide Trim, Matches;
  }

  /** A resolve takes the session's entry if it names that entry's run, or no run at all. */
  lemma ResolveTakesIff(s: State, session: string, target: string, reason: StopReason)
    ensures Enabled(s, Take(session, target, reason)) <==>
            session in s.pending && (Trim(target) == "" || Trim(s.pending[session].runId) == Trim(target))
  {
    hide Trim;
  }

  predicate CanBegin(s: State, r: string) {
    r !in s.prompts && Trimmed(r) && r != ""
  }

  predicate CanRegister(s: State, r: string, done: Chan) {
    r in s.prompts && s.prompts[r].phase == Begun && done !in s.owner
  }

  predicate CanDeliver(s: State, at: nat) {
    at < |s.owed| && s.owed[at].done in s.buffers && s.owed[at].done in s.sent
  }

  /** When a step can happen: run ids and channels are fresh, and each prompt keeps its program order. */
  predicate Enabled(s: State, op: Op) {
    match op
    case OpenSession(session) => session !in s.current
    case ForgetSession(session) => session in s.current && s.current[session] == ""
    case Begin(r, _) => CanBegin(s, r)
    case Register(r, done) => CanRegister(s, r, done)
    case CleanPending(r) => r in s.prompts && s.prompts[r].phase.Waiting?
    case CleanRun(r) => r in s.prompts && s.prompts[r].phase == Cleared
    case Take(session, target, _) => Hit(s.pending, session, target)
    case Deliver(at) => CanDeliver(s, at)
    case Receive(done) => done in s.buffers && s.buffers[done] != []
  }

  function Apply(s: State, op: Op): State
    requires Enabled(s, op)
  {
    match op
    case OpenSession(session) => OnOpen(s, session)
    case ForgetSession(session) => OnForget(s, session)
    case Begin(r, session) => OnBegin(s, r, session)
    case Register(r, done) => OnRegister(s, r, done)
    case CleanPending(r) => OnCleanPending(s, r)
    case CleanRun(r) => OnCleanRun(s, r)
    case Take(session, target, reason) => OnTake(s, session, target, reason)
    case Deliver(at) => OnDeliver(s, at)
    case Receive(done) => OnReceive(s, done)
  }

  // ---- 1. Each channel is promised at most one send ----

  type Sends = map<Chan, seq<Delivery>>

  /** No send was made or is owed on the channels of waiting entries, and these are distinct. */
  predicate EntriesFresh(pending: map<string, Entry>, sent: Sends) {
    && (forall a :: a in pending ==> pending[a].done in sent && sent[pending[a].done] == [])
    && (forall a, b :: a in pending && b in pending && a != b ==> pending[a].done != pending[b].done)
  }

  /** The same for owed sends. */
  predicate OwedFresh(owed: seq<Delivery>, pending: map<string, Entry>, sent: Sends) {
    && (forall i :: 0 <= i < |owed| ==> owed[i].done in sent && sent[owed[i].done] == [])
    && (forall i, j :: 0 <= i < j < |owed| ==> owed[i].done != owed[j].done)
    && (forall i, a :: 0 <= i < |owed| && a in pending ==> owed[i].done != pending[a].done)
  }

  predicate BuffersSound(buffers: map<Chan, seq<StopReason>>, sent: Sends) {
    forall c :: c in sent ==> c in buffers && |sent[c]| <= 1 && |buffers[c]| <= |sent[c]|
  }

  /** A channel waits in the table, or one send is owed on it, or one has been made. */
  predicate ChannelsSound(s: State) {
    && s.sent.Keys == s.owner.Keys
    && EntriesFresh(s.pending, s.sent) && OwedFresh(s.owed, s.pending, s.sent) && BuffersSound(s.buffers, s.sent)
    && s.dropped == 0
  }

  lemma RegisterKeepsChannels(s: State, r: string, done: Chan)
    requires ChannelsSound(s) && CanRegister(s, r, done)
    ensures ChannelsSound(OnRegister(s, r, done))
  {
  }

  lemma TakeKeepsChannels(s: State, session: string, target: string, reason: StopReason)
    requires ChannelsSound(s) && session in s.pending
    ensures ChannelsSound(OnTake(s, session, target, reason))
  {
    var t := OnTake(s, session, target, reason);
    assert forall i :: 0 <= i < |s.owed| ==> t.owed[i] == s.owed[i];
  }

  lemma DeliverKeepsChannels(s: State, at: nat)
    requires ChannelsSound(s) && CanDeliver(s, at)
    ensures ChannelsSound(OnDeliver(s, at))
  {
    var t := OnDeliver(s, at);
    assert |s.buffers[s.owed[at].done]| == 0;
    assert forall i :: 0 <= i < |t.owed| ==> t.owed[i] == s.owed[if i < at then i else i + 1];
  }

  lemma CleanKeepsChannels(s: State, r: string)
    requires ChannelsSound(s) && r in s.prompts
    ensures ChannelsSound(OnCleanPending(s, r))
  {
    hide Trimmed, Matches;
  }

  lemma ReceiveKeepsChannels(s: State, done: Chan)
    requires ChannelsSound(s) && done in s.buffers && s.buffers[done] != []
    ensures ChannelsSound(OnReceive(s, done))
  {
    hide EntriesFresh, OwedFresh;
  }

  predicate IsQuiet(op: Op) {
    op.OpenSession? || op.ForgetSession? || op.Begin? || op.CleanRun?
  }

  /** Steps that only concern CurrentRunID leave entries, channels and sends alone. */
  lemma QuietSteps(s: State, op: Op)
    requires Enabled(s, op) && IsQuiet(op)
    ensures
      var t := Apply(s, op);
      && t.pending == s.pending && t.buffers == s.buffers && t.owed == s.owed && t.owner == s.owner
      && t.sent == s.sent && t.dropped == s.dropped && t.registeredBy == s.registeredBy
  {
    hide Matches, CanBegin, CanRegister, CanDeliver, OnRegister, OnTake, OnDeliver, OnCleanPending, OnReceive;
  }

  lemma ChannelsStaySound(s: State, op: Op)
    requires Enabled(s, op) && ChannelsSound(s)
    ensures ChannelsSound(Apply(s, op))
  {
    hide Matches, CanBegin, CanRegister, CanDeliver;
    hide OnOpen, OnForget, OnBegin, OnRegister, OnTake, OnDeliver, OnCleanPending, OnCleanRun, OnReceive;
    if IsQuiet(op) {
      QuietSteps(s, op);
      SameChannels(s, Apply(s, op));
    } else {
      hide ChannelsSound;
      match op
      case Register(r, done) => RegisterKeepsChannels(s, r, done);
      case Take(session, target, reason) => TakeKeepsChannels(s, session, target, reason);
      case Deliver(at) => DeliverKeepsChannels(s, at);
      case CleanPending(r) => CleanKeepsChannels(s, r);
      case Receive(done) => ReceiveKeepsChannels(s, done);
    }
  }

  lemma SameChannels(s: State, t: State)
    requires ChannelsSound(s) && t.pending == s.pending && t.buffers == s.buffers && t.owed == s.owed
    requires t.owner == s.owner && t.sent == s.sent && t.dropped == s.dropped
    ensures ChannelsSound(t)
  {
    hide EntriesFresh, OwedFresh, BuffersSound;
  }

  // ---- 2. A send that names a run goes to that run's channel ----

  predicate ForItsRun(owner: map<Chan, string>, d: Delivery) {
    d.done in owner && (Trim(d.target) != "" ==> Trim(owner[d.done]) == Trim(d.target))
  }

  predicate EntryOfItsRun(owner: map<Chan, string>, e: Entry) {
    e.done in owner && owner[e.done] == e.runId
  }

  predicate EntriesOfRuns(owner: map<Chan, string>, pending: map<string, Entry>) {
    forall a :: a in pending ==> EntryOfItsRun(owner, pending[a])
  }

  predicate SendsOfRuns(owner: map<Chan, string>, owed: seq<Delivery>, sent: Sends) {
    && (forall d :: d in owed ==> ForItsRun(owner, d))
    && (forall c, d :: c in sent && d in sent[c] ==> d.done == c && ForItsRun(owner, d))
  }

  predicate TargetsSound(s: State) {
    EntriesOfRuns(s.owner, s.pending) && SendsOfRuns(s.owner, s.owed, s.sent)
  }

  lemma RegisterKeepsTargets(s: State, r: string, done: Chan)
    requires TargetsSound(s) && CanRegister(s, r, done)
    ensures TargetsSound(OnRegister(s, r, done))
  {
    hide Trim;
    var t := OnRegister(s, r, done);
    forall d | ForItsRun(s.owner, d) ensures ForItsRun(t.owner, d) {}
    forall e | EntryOfItsRun(s.owner, e) ensures EntryOfItsRun(t.owner, e) {}
    hide ForItsRun, EntryOfItsRun;
  }

  lemma TakeKeepsTargets(s: State, session: string, target: string, reason: StopReason)
    requires TargetsSound(s) && Hit(s.pending, session, target)
    ensures TargetsSound(OnTake(s, session, target, reason))
  {
    hide Trim;
    assert EntryOfItsRun(s.owner, s.pending[session]);
    assert ForItsRun(s.owner, Delivery(s.pending[session].done, target, reason));
  }

  lemma DeliverKeepsTargets(s: State, at: nat)
    requires TargetsSound(s) && CanDeliver(s, at)
    ensures TargetsSound(OnDeliver(s, at))
  {
    hide ForItsRun, EntryOfItsRun;
  }

  lemma TargetsStaySound(s: State, op: Op)
    requires Enabled(s, op) && TargetsSound(s)
    ensures TargetsSound(Apply(s, op))
  {
    hide Matches, CanBegin, CanRegister, CanDeliver;
    hide OnOpen, OnForget, OnBegin, OnRegister, OnTake, OnDeliver, OnCleanPending, OnCleanRun, OnReceive;
    if IsQuiet(op) {
      QuietSteps(s, op);
      SameTargets(s, Apply(s, op));
    } else {
      hide TargetsSound;
      match op
      case Register(r, done) => RegisterKeepsTargets(s, r, done);
      case Take(session, target, reason) => TakeKeepsTargets(s, session, target, reason);
      case Deliver(at) => DeliverKeepsTargets(s, at);
      case CleanPending(r) => CleanKeepsTargets(s, r);
      case Receive(done) => ReceiveKeepsTargets(s, done);
    }
  }

  lemma SameTargets(s: State, t: State)
    requires TargetsSound(s) && t.pending == s.pending && t.owed == s.owed && t.owner == s.owner && t.sent == s.sent
    ensures TargetsSound(t)
  {
    hide EntriesOfRuns, SendsOfRuns;
  }

  lemma CleanKeepsTargets(s: State, r: string)
    requires TargetsSound(s) && r in s.prompts
    ensures TargetsSound(OnCleanPending(s, r))
  {
    hide Trimmed, Matches, EntryOfItsRun, SendsOfRuns;
  }

  lemma ReceiveKeepsTargets(s: State, done: Chan)
    requires TargetsSound(s) && done in s.buffers && s.buffers[done] != []
    ensures TargetsSound(OnReceive(s, done))
  {
    hide EntriesOfRuns, SendsOfRuns;
  }

  // ---- 3. Run ids are clean, and a waiting prompt's channel exists ----

  predicate PromptClean(owner: map<Chan, string>, r: string, p: Prompt) {
    Trimmed(r) && r != "" && (p.phase.Waiting? ==> p.phase.done in owner)
  }

  predicate AllClean(owner: map<Chan, string>, prompts: map<string, Prompt>) {
    forall r :: r in prompts ==> PromptClean(owner, r, prompts[r])
  }

  predicate PromptsClean(s: State) {
    AllClean(s.owner, s.prompts)
  }

  lemma RegisterKeepsClean(s: State, r: string, done: Chan)
    requires PromptsClean(s) && r in s.prompts
    ensures PromptsClean(OnRegister(s, r, done))
  {
    hide Trimmed;
    var t := OnRegister(s, r, done);
    forall q | q in t.prompts ensures PromptClean(t.owner, q, t.prompts[q]) {
      assert PromptClean(s.owner, q, s.prompts[q]);
    }
  }

  /** Any step that moves one prompt to a phase without a channel. */
  lemma PhaseKeepsClean(s: State, r: string, p: Prompt)
    requires PromptsClean(s) && Trimmed(r) && r != "" && !p.phase.Waiting?
    ensures AllClean(s.owner, s.prompts[r := p])
  {
    hide Trimmed;
  }

  lemma PromptsStayClean(s: State, op: Op)
    requires Enabled(s, op) && PromptsClean(s)
    ensures PromptsClean(Apply(s, op))
  {
    hide Trim, Trimmed, Matches, OnRegister, OnTake, OnDeliver, CanDeliver, Without, AllClean;
    match op
    case Begin(r, session) => PhaseKeepsClean(s, r, Prompt(session, Begun));
    case Register(r, done) => RegisterKeepsClean(s, r, done);
    case CleanPending(r) => CleanKeepsClean(s, r, Cleared);
    case CleanRun(r) => CleanKeepsClean(s, r, Finished);
    case Take(session, target, reason) => TakeKeepsPrompts(s, session, target, reason);
    case Deliver(at) => DeliverKeepsPrompts(s, at);
    case _ =>
  }

  lemma CleanKeepsClean(s: State, r: string, phase: Phase)
    requires PromptsClean(s) && r in s.prompts && !phase.Waiting?
    ensures AllClean(s.owner, s.prompts[r := Prompt(s.prompts[r].session, phase)])
  {
    hide Trimmed;
    assert PromptClean(s.owner, r, s.prompts[r]);
    PhaseKeepsClean(s, r, Prompt(s.prompts[r].session, phase));
  }

  lemma TakeKeepsPrompts(s: State, session: string, target: string, reason: StopReason)
    requires session in s.pending
    ensures var t := OnTake(s, session, target, reason);
            t.prompts == s.prompts && t.owner == s.owner && t.current == s.current && t.setBy == s.setBy
  {
  }

  lemma DeliverKeepsPrompts(s: State, at: nat)
    requires CanDeliver(s, at)
    ensures var t := OnDeliver(s, at);
            && t.prompts == s.prompts && t.owner == s.owner && t.current == s.current && t.setBy == s.setBy
            && t.pending == s.pending && t.registeredBy == s.registeredBy
  {
  }

  // ---- 4. The newest prompt to set a session's run keeps it ----

  type Prompts = map<string, Prompt>

  /** Prompt r of session a, until it finishes, is a's current run. */
  predicate HoldsRun(prompts: Prompts, current: map<string, string>, a: string, r: string) {
    && r in prompts && prompts[r].session == a
    && (prompts[r].phase != Finished ==> a in current && current[a] == r)
  }

  predicate Holders(prompts: Prompts, current: map<string, string>, setBy: map<string, string>) {
    && (forall a :: a in setBy ==> HoldsRun(prompts, current, a, setBy[a]))
    && (forall a :: a in current && current[a] != "" ==> a in setBy && setBy[a] == current[a])
  }

  predicate RunsSurvive(s: State) {
    Holders(s.prompts, s.current, s.setBy)
  }

  lemma ForgetKeepsRuns(s: State, session: string)
    requires RunsSurvive(s) && session in s.current && s.current[session] == "" && PromptsClean(s)
    ensures RunsSurvive(OnForget(s, session))
  {
    hide Trimmed;
    var t := OnForget(s, session);
    forall a | a in t.setBy ensures HoldsRun(t.prompts, t.current, a, t.setBy[a]) {
      assert HoldsRun(s.prompts, s.current, a, s.setBy[a]);
      assert PromptClean(s.owner, s.setBy[a], s.prompts[s.setBy[a]]);
    }
  }

  lemma OpenKeepsRuns(s: State, session: string)
    requires RunsSurvive(s) && session !in s.current
    ensures RunsSurvive(OnOpen(s, session))
  {
    var t := OnOpen(s, session);
    forall a | a in t.setBy ensures HoldsRun(t.prompts, t.current, a, t.setBy[a]) {
      assert HoldsRun(s.prompts, s.current, a, s.setBy[a]);
    }
  }

  lemma BeginHolds(s: State, r: string, session: string, a: string)
    requires RunsSurvive(s) && r !in s.prompts && a in OnBegin(s, r, session).setBy
    ensures var t := OnBegin(s, r, session); HoldsRun(t.prompts, t.current, a, t.setBy[a])
  {
    if session in s.current && a == session {
    } else {
      assert HoldsRun(s.prompts, s.current, a, s.setBy[a]);
      assert s.setBy[a] != r;
    }
  }

  lemma BeginKeepsRuns(s: State, r: string, session: string)
    requires RunsSurvive(s) && CanBegin(s, r)
    ensures RunsSurvive(OnBegin(s, r, session))
  {
    hide Trimmed, HoldsRun;
    var t := OnBegin(s, r, session);
    forall a | a in t.setBy ensures HoldsRun(t.prompts, t.current, a, t.setBy[a]) { BeginHolds(s, r, session, a); }
  }

  lemma CleanRunHolds(s: State, r: string, a: string)
    requires RunsSurvive(s) && r in s.prompts && a in s.setBy
    ensures var t := OnCleanRun(s, r); HoldsRun(t.prompts, t.current, a, t.setBy[a])
  {
    assert HoldsRun(s.prompts, s.current, a, s.setBy[a]);
  }

  lemma CleanRunKeepsRuns(s: State, r: string)
    requires RunsSurvive(s) && r in s.prompts
    ensures RunsSurvive(OnCleanRun(s, r))
  {
    hide HoldsRun;
    var t := OnCleanRun(s, r);
    forall a | a in t.setBy ensures HoldsRun(t.prompts, t.current, a, t.setBy[a]) { CleanRunHolds(s, r, a); }
  }

  /** Registering and clearing move a prompt between phases that still hold the run. */
  lemma PhaseKeepsRuns(s: State, r: string, phase: Phase)
    requires RunsSurvive(s) && r in s.prompts && s.prompts[r].phase != Finished
    ensures Holders(s.prompts[r := Prompt(s.prompts[r].session, phase)], s.current, s.setBy)
  {
    var prompts := s.prompts[r := Prompt(s.prompts[r].session, phase)];
    forall a | a in s.setBy ensures HoldsRun(prompts, s.current, a, s.setBy[a]) {
      assert HoldsRun(s.prompts, s.current, a, s.setBy[a]);
    }
  }

  lemma RunsStay(s: State, op: Op)
    requires Enabled(s, op) && RunsSurvive(s) && PromptsClean(s)
    ensures RunsSurvive(Apply(s, op))
  {
    hide Trimmed, Matches, Without, Holders, PromptsClean, OnBegin, OnOpen, OnForget, OnCleanRun, OnTake, OnDeliver;
    match op
    case OpenSession(session) => OpenKeepsRuns(s, session);
    case ForgetSession(session) => ForgetKeepsRuns(s, session);
    case Begin(r, session) => BeginKeepsRuns(s, r, session);
    case Register(r, done) => PhaseKeepsRuns(s, r, Waiting(done));
    case CleanPending(r) => PhaseKeepsRuns(s, r, Cleared);
    case CleanRun(r) => CleanRunKeepsRuns(s, r);
    case Take(session, target, reason) => TakeKeepsPrompts(s, session, target, reason);
    case Deliver(at) => DeliverKeepsPrompts(s, at);
    case Receive(_) =>
  }

  // ---- 5. The newest registered prompt keeps its entry ----

  /** No send has been promised on the channel. */
  predicate Unresolved(sent: Sends, owed: seq<Delivery>, done: Chan) {
    done in sent && sent[done] == [] && forall d :: d in owed ==> d.done != done
  }

  /** Prompt r of session a, while it waits unresolved, is a's pending prompt. */
  predicate HoldsEntry(
    prompts: Prompts, pending: map<string, Entry>, sent: Sends, owed: seq<Delivery>, a: string, r: string)
  {
    && r in prompts && prompts[r].session == a && prompts[r].phase != Begun
    && (prompts[r].phase.Waiting? && Unresolved(sent, owed, prompts[r].phase.done)
        ==> a in pending && pending[a] == Entry(r, prompts[r].phase.done))
  }

  predicate Held(s: State, a: string) {
    a in s.registeredBy ==> HoldsEntry(s.prompts, s.pending, s.sent, s.owed, a, s.registeredBy[a])
  }

  ghost predicate EntriesSurvive(s: State) {
    && (forall a :: Held(s, a))
    && Noted(s)
  }

  lemma RegisterHolds(s: State, r: string, done: Chan, a: string)
    requires EntriesSurvive(s) && PromptsClean(s) && CanRegister(s, r, done)
    ensures Held(OnRegister(s, r, done), a)
  {
    hide Trimmed;
    assert Held(s, a);
    if a in s.registeredBy {
      var q := s.registeredBy[a];
      assert PromptClean(s.owner, q, s.prompts[q]);
    }
  }

  lemma CleanHolds(s: State, r: string, a: string)
    requires EntriesSurvive(s) && PromptsClean(s) && r in s.prompts
    ensures Held(OnCleanPending(s, r), a)
  {
    hide Trim;
    assert Held(s, a);
    if a in s.registeredBy {
      var q := s.registeredBy[a];
      assert PromptClean(s.owner, q, s.prompts[q]);
      assert PromptClean(s.owner, r, s.prompts[r]);
    }
  }

  lemma PhaseHolds(s: State, r: string, p: Prompt, a: string)
    requires EntriesSurvive(s)
    requires r in s.prompts ==> p == Prompt(s.prompts[r].session, Finished)
    requires r !in s.prompts ==> p.phase == Begun
    ensures a in s.registeredBy ==>
              HoldsEntry(s.prompts[r := p], s.pending, s.sent, s.owed, a, s.registeredBy[a])
  {
    assert Held(s, a);
  }

  lemma TakeHolds(s: State, session: string, target: string, reason: StopReason, a: string)
    requires EntriesSurvive(s) && session in s.pending
    ensures Held(OnTake(s, session, target, reason), a)
  {
    assert Held(s, a);
    var t := OnTake(s, session, target, reason);
    assert t.owed[|s.owed|].done == s.pending[session].done;
    assert forall d :: d in s.owed ==> d in t.owed;
  }

  lemma DeliverHolds(s: State, at: nat, a: string)
    requires EntriesSurvive(s) && CanDeliver(s, at)
    ensures Held(OnDeliver(s, at), a)
  {
    assert Held(s, a);
    var t, d := OnDeliver(s, at), s.owed[at];
    assert forall e :: e in s.owed ==> e in t.owed || e == d by {
      forall i | 0 <= i < |s.owed| && i != at ensures s.owed[i] in t.owed {
        assert s.owed[i] == t.owed[if i < at then i else i - 1];
      }
    }
    assert t.sent[d.done] != [];
  }

  lemma EntriesHeld(s: State, op: Op, a: string)
    requires Enabled(s, op) && EntriesSurvive(s) && PromptsClean(s)
    ensures Held(Apply(s, op), a)
  {
    hide Trimmed, Matches, HoldsEntry, PromptsClean, OnRegister, OnCleanPending, OnTake, OnDeliver;
    match op
    case Register(r, done) => RegisterHolds(s, r, done, a);
    case CleanPending(r) => CleanHolds(s, r, a);
    case Begin(r, session) => PhaseHolds(s, r, Prompt(session, Begun), a);
    case CleanRun(r) => PhaseHolds(s, r, Prompt(s.prompts[r].session, Finished), a);
    case Take(session, target, reason) => TakeHolds(s, session, target, reason, a);
    case Deliver(at) => DeliverHolds(s, at, a);
    case OpenSession(_) => assert Held(s, a);
    case ForgetSession(_) => assert Held(s, a);
    case Receive(_) => assert Held(s, a);
  }

  lemma EntriesStay(s: State, op: Op)
    requires Enabled(s, op) && EntriesSurvive(s) && PromptsClean(s)
    ensures EntriesSurvive(Apply(s, op))
  {
    hide Enabled, Apply, Held, PromptsClean;
    forall a ensures Held(Apply(s, op), a) { EntriesHeld(s, op, a); }
    EntriesNoted(s, op);
  }

  /** A waiting entry is the one its session registered last. */
  predicate Noted(s: State) {
    forall a :: a in s.pending ==> a in s.registeredBy && s.registeredBy[a] == s.pending[a].runId
  }

  lemma EntriesNoted(s: State, op: Op)
    requires Enabled(s, op) && Noted(s)
    ensures Noted(Apply(s, op))
  {
    hide Trimmed, Matches, OnDeliver, CanBegin, CanRegister, CanDeliver, OnOpen, OnForget, OnBegin, OnCleanRun;
    if IsQuiet(op) {
      QuietSteps(s, op);
    } else if op.Deliver? {
      DeliverKeepsPrompts(s, op.at);
    }
  }

  // ---- Every reachable state ----

  ghost predicate Sound(s: State) {
    ChannelsSound(s) && TargetsSound(s) && PromptsClean(s) && EntriesSurvive(s) && RunsSurvive(s)
  }

  lemma StepKeepsSound(s: State, op: Op)
    requires Enabled(s, op) && Sound(s)
    ensures Sound(Apply(s, op))
  {
    hide Enabled, Apply, ChannelsSound, EntriesSurvive, RunsSurvive, PromptsClean, TargetsSound;
    ChannelsStaySound(s, op);
    TargetsStaySound(s, op);
    PromptsStayClean(s, op);
    EntriesStay(s, op);
    RunsStay(s, op);
  }

  /** An interleaving: every step is enabled where it happens. */
  predicate IsInterleaving(states: seq<State>, ops: seq<Op>) {
    && |states| == |ops| + 1 && states[0] == START
    && forall i :: 0 <= i < |ops| ==> Enabled(states[i], ops[i]) && states[i + 1] == Apply(states[i], ops[i])
  }

  lemma {:induction false} Reachable(states: seq<State>, ops: seq<Op>, i: nat)
    requires IsInterleaving(states, ops) && i < |states|
    ensures Sound(states[i])
  {
    hide Enabled, Apply, Sound;
    if i == 0 {
      StartIsSound();
    } else {
      Reachable(states, ops, i - 1);
      StepKeepsSound(states[i - 1], ops[i - 1]);
    }
  }

  lemma StartIsSound()
    ensures Sound(START)
  {
  }

  /** Under every interleaving each channel gets at most one reason and no send is ever dropped. */
  lemma AtMostOneReason(states: seq<State>, ops: seq<Op>, i: nat, done: Chan)
    requires IsInterleaving(states, ops) && i < |states|
    ensures states[i].dropped == 0
    ensures done in states[i].sent ==> |states[i].sent[done]| <= 1
  {
    hide IsInterleaving, TargetsSound, PromptsClean, EntriesSurvive, RunsSurvive;
    Reachable(states, ops, i);
  }

  /** A reason sent by a resolve that names a run was sent to that run's channel. */
  lemma ResolveReachesOnlyItsRun(states: seq<State>, ops: seq<Op>, i: nat, done: Chan, d: Delivery)
    requires IsInterleaving(states, ops) && i < |states|
    requires done in states[i].sent && d in states[i].sent[done] && Trim(d.target) != ""
    ensures done in states[i].owner && Trim(states[i].owner[done]) == Trim(d.target)
  {
    hide Trim, IsInterleaving, ChannelsSound, PromptsClean, EntriesSurvive, RunsSurvive;
    Reachable(states, ops, i);
    assert ForItsRun(states[i].owner, d);
  }

  /**
   Whatever older prompts clean up: the newest prompt registered on a session keeps its entry until it is
   resolved or cleans up itself.
   */
  lemma NewestKeepsEntry(states: seq<State>, ops: seq<Op>, i: nat, session: string)
    requires IsInterleaving(states, ops) && i < |states| && session in states[i].registeredBy
    ensures
      var s, r := states[i], states[i].registeredBy[session];
      && r in s.prompts
      && (s.prompts[r].phase.Waiting? && Unresolved(s.sent, s.owed, s.prompts[r].phase.done)
          ==> session in s.pending && s.pending[session] == Entry(r, s.prompts[r].phase.done))
  {
    hide IsInterleaving, ChannelsSound, TargetsSound, PromptsClean, RunsSurvive;
    Reachable(states, ops, i);
    assert Held(states[i], session);
  }

  /** And the newest prompt to set a session's CurrentRunID keeps it until it finishes. */
  lemma NewestKeepsRun(states: seq<State>, ops: seq<Op>, i: nat, session: string)
    requires IsInterleaving(states, ops) && i < |states| && session in states[i].setBy
    ensures
      var s, r := states[i], states[i].setBy[session];
      && r in s.prompts
      && (s.prompts[r].phase != Finished ==> session in s.current && s.current[session] == r)
  {
    hide IsInterleaving, ChannelsSound, TargetsSound, PromptsClean, EntriesSurvive;
    Reachable(states, ops, i);
    assert HoldsRun(states[i].prompts, states[i].current, session, states[i].setBy[session]);
  }
}
