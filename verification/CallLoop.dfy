/** One run of the agent pipeline: passes over the model candidates, each kind of retry at most once. */
module CallLoop {
  import opened Text
  import opened ModelSelection

  datatype Reason =
    | TransientHTTP | ContextOverflow | SessionExpired | RoleOrdering | SessionCorrupt
    | AuthFailed | BillingFailed | RateLimit | Overloaded | Unknown

  /** An error either carries its reason or only has a text to guess it from. */
  datatype Error = BackendError(reason: Reason, message: string) | PlainError(text: string)

  /** What a model call comes to; `R` is the result of a run. */
  datatype Outcome<R> = Done(result: R) | Failed(error: Error)

  datatype Attempt = Attempt(ref: ModelRef, error: Error)

  datatype Fallback<R> =
    | Won(result: R, ref: ModelRef, attempts: seq<Attempt>)
    | Lost(error: Error, attempts: seq<Attempt>)

  // ---- RunWithModelFallback ----

  predicate AllFail<R>(run: nat -> Outcome<R>, n: nat) {
    forall i :: 0 <= i < n ==> run(i).Failed?
  }

  /** The first n candidates failed, and this is the record of it. */
  predicate FailedPrefix<R>(candidates: seq<ModelRef>, run: nat -> Outcome<R>, attempts: seq<Attempt>, n: nat) {
    && n <= |candidates| && |attempts| == n && AllFail(run, n)
    && forall i :: 0 <= i < n ==> run(i).Failed? && attempts[i] == Attempt(candidates[i], run(i).error)
  }

  /** What a pass over the candidates must come to: the first success, or the failure of all of them. */
  ghost predicate Outcomes<R>(
    candidates: seq<ModelRef>, run: nat -> Outcome<R>, describe: seq<Attempt> -> string, r: Fallback<R>)
  {
    && FailedPrefix(candidates, run, r.attempts, |r.attempts|)
    && var n := |r.attempts|;
       if r.Won? then n < |candidates| && run(n) == Done(r.result) && r.ref == candidates[n]
       else n == |candidates| && r.error == FinalError(r.attempts, describe)
  }

  /** A single failure is passed on as it is; several are summed up in a text. */
  function FinalError(attempts: seq<Attempt>, describe: seq<Attempt> -> string): Error {
    if |attempts| == 1 then attempts[0].error else PlainError(describe(attempts))
  }

  /** `run(i)` is what candidate i does when it is tried; `describe` words the summary of several failures. */
  method RunWithModelFallback<R>(
    selected: ModelRef, fallbacks: seq<ModelRef>, run: nat -> Outcome<R>, describe: seq<Attempt> -> string)
    returns (r: Fallback<R>)
    ensures Outcomes(Tried(selected, fallbacks), run, describe, r)
  {
    var candidates := fallbacks;
    if |candidates| == 0 { candidates := [selected]; }
    var attempts := [];
    for i := 0 to |candidates|
      invariant FailedPrefix(candidates, run, attempts, i)
    {
      var outcome := run(i);
      if outcome.Done? { return Won(outcome.result, candidates[i], attempts); }
      attempts := attempts + [Attempt(candidates[i], outcome.error)];
    }
    if |attempts| == 1 { return Lost(attempts[0].error, attempts); }
    return Lost(PlainError(describe(attempts)), attempts);
  }

  /** Without a list, the selected model alone. */
  function Tried(selected: ModelRef, fallbacks: seq<ModelRef>): (candidates: seq<ModelRef>)
    ensures candidates != []
  {
    if fallbacks == [] then [selected] else fallbacks
  }

  /** A pass has one possible result. */
  lemma OutcomesUnique<R>(
    candidates: seq<ModelRef>, run: nat -> Outcome<R>, describe: seq<Attempt> -> string, a: Fallback<R>, b: Fallback<R>)
    requires Outcomes(candidates, run, describe, a) && Outcomes(candidates, run, describe, b)
    ensures a == b
  {
    assert |a.attempts| == |b.attempts|;
    assert a.attempts == b.attempts;
  }

  /** Model calls made in a pass. */
  function CallsIn<R>(r: Fallback<R>): nat {
    |r.attempts| + if r.Won? then 1 else 0
  }

  // ---- modelCallLoop ----

  /** What happens around pass p, apart from the model calls themselves. */
  datatype Pass<R> = Pass(
    cancelled: bool,              // the context was cancelled before the pass
    run: nat -> Outcome<R>,       // what each candidate does
    waitError: Option<Error>,     // the dispatcher failed to become idle
    visible: bool,                // visible output has been sent
    compacted: bool,              // compacting the session succeeded, if tried
    reset: bool,                  // resetting the session succeeded, if tried
    saveError: Option<Error>)     // the result could not be stored, if tried

  datatype RetryKind = RetryTransient | RetryCompacted

  datatype Exit<R> = Cancelled | Completed(result: R) | Partial | Reset | GaveUp(error: Error)

  /** The error a pass ends with, if any: the fallback's, or else the dispatcher's. */
  function PassError<R>(r: Fallback<R>, waitError: Option<Error>): Option<Error> {
    if r.Lost? then Some(r.error) else waitError
  }

  function ErrorReason(e: Error, classify: string -> Reason): Reason {
    match e
    case BackendError(reason, _) => reason
    case PlainError(text) => classify(text)
  }

  /** A pass that fails with this error, before any visible output, is followed by another of this kind. */
  predicate RetriedAs<R>(
    p: Pass<R>, r: Fallback<R>, classify: string -> Reason, before: set<RetryKind>, kind: RetryKind)
  {
    && !p.cancelled && !p.visible && PassError(r, p.waitError).Some?
    && kind !in before
    && var reason := ErrorReason(PassError(r, p.waitError).value, classify);
       match kind
       case RetryTransient => reason == TransientHTTP
       case RetryCompacted => reason == ContextOverflow && p.compacted
  }

  /** How a pass that is not retried ends the run. */
  function ExitOf<R>(p: Pass<R>, r: Fallback<R>): Exit<R> {
    if p.cancelled then Cancelled
    else
      var error := PassError(r, p.waitError);
      if error.None? then
        if p.saveError.Some? then GaveUp(p.saveError.value) else Completed(r.result)
      else if p.visible then Partial
      else if p.reset then Reset
      else GaveUp(error.value)
  }

  /** The passes of a run: their results, and the kind of retry that followed each but the last. */
  datatype Run<R> = Run(results: seq<Fallback<R>>, retries: seq<RetryKind>, exit: Exit<R>)

  function Kinds(retries: seq<RetryKind>): set<RetryKind> {
    set k | k in retries
  }

  /** Pass i of the run, given the retries before it. */
  ghost predicate PassHolds<R>(
    env: nat -> Pass<R>, candidates: seq<ModelRef>, describe: seq<Attempt> -> string, classify: string -> Reason,
    results: seq<Fallback<R>>, retries: seq<RetryKind>, i: nat)
    requires i < |results| && i < |retries|
  {
    && Outcomes(candidates, env(i).run, describe, results[i])
    && RetriedAs(env(i), results[i], classify, Kinds(retries[..i]), retries[i])
  }

  /** What a run must be. A cancelled last pass makes no calls, so it has no result. */
  ghost predicate IsRun<R>(
    env: nat -> Pass<R>, candidates: seq<ModelRef>, describe: seq<Attempt> -> string, classify: string -> Reason,
    run: Run<R>)
  {
    var n := |run.retries|;
    && (forall i :: 0 <= i < n ==>
          i < |run.results| && PassHolds(env, candidates, describe, classify, run.results, run.retries, i))
    && if env(n).cancelled then |run.results| == n && run.exit == Cancelled
       else
         && |run.results| == n + 1 && Outcomes(candidates, env(n).run, describe, run.results[n])
         && run.exit == ExitOf(env(n), run.results[n])
         && forall kind :: !RetriedAs(env(n), run.results[n], classify, Kinds(run.retries), kind)
  }

  method ModelCallLoop<R(!new)>(
    env: nat -> Pass<R>, selected: ModelRef, fallbacks: seq<ModelRef>, describe: seq<Attempt> -> string,
    classify: string -> Reason)
    returns (exit: Exit<R>)
    ensures exists run :: IsRun(env, Tried(selected, fallbacks), describe, classify, run) && exit == run.exit
  {
    hide Outcomes;
    ghost var candidates := Tried(selected, fallbacks);
    ghost var results: seq<Fallback<R>>, retries: seq<RetryKind> := [], [];
    var didRetryTransientHTTP, didRetryCompaction, i := false, false, 0;
    while true
      invariant i == |results| == |retries|
      invariant Kinds(retries) == Flags(didRetryTransientHTTP, didRetryCompaction)
      invariant forall k :: 0 <= k < i ==> PassHolds(env, candidates, describe, classify, results, retries, k)
      decreases if didRetryTransientHTTP then 0 else 1, if didRetryCompaction then 0 else 1
    {
      var pass := env(i);
      if pass.cancelled {
        assert IsRun(env, candidates, describe, classify, Run(results, retries, Cancelled));
        return Cancelled;
      }
      var r := RunWithModelFallback(selected, fallbacks, pass.run, describe);
      var error := if r.Lost? then Some(r.error) else None;
      if pass.waitError.Some? && error.None? { error := pass.waitError; }
      ghost var ended := Run(results + [r], retries, ExitOf(pass, r));
      ResultsGrow(env, candidates, describe, classify, results, retries, r);
      if error.None? {
        assert IsRun(env, candidates, describe, classify, ended);
        return if pass.saveError.Some? then GaveUp(pass.saveError.value) else Completed(r.result);
      }
      var reason := ErrorReason(error.value, classify);
      if pass.visible {
        assert IsRun(env, candidates, describe, classify, ended);
        return Partial;
      }
      if reason == TransientHTTP && !didRetryTransientHTTP {
        OneMore(env, candidates, describe, classify, results, retries, r, RetryTransient);
        results, retries := results + [r], retries + [RetryTransient];
        didRetryTransientHTTP, i := true, i + 1;
        continue;
      }
      if reason == ContextOverflow && !didRetryCompaction {
        if pass.compacted {
          OneMore(env, candidates, describe, classify, results, retries, r, RetryCompacted);
          results, retries := results + [r], retries + [RetryCompacted];
          didRetryCompaction, i := true, i + 1;
          continue;
        }
      }
      assert IsRun(env, candidates, describe, classify, ended);
      return if pass.reset then Reset else GaveUp(error.value);
    }
  }

  function Flags(transient: bool, compaction: bool): set<RetryKind> {
    (if transient then {RetryTransient} else {}) + (if compaction then {RetryCompacted} else {})
  }

  lemma ResultsGrow<R>(
    env: nat -> Pass<R>, candidates: seq<ModelRef>, describe: seq<Attempt> -> string, classify: string -> Reason,
    results: seq<Fallback<R>>, retries: seq<RetryKind>, r: Fallback<R>)
    requires |results| == |retries|
    requires forall k :: 0 <= k < |retries| ==> PassHolds(env, candidates, describe, classify, results, retries, k)
    ensures forall k :: 0 <= k < |retries| ==>
              PassHolds(env, candidates, describe, classify, results + [r], retries, k)
  {
    hide Outcomes, RetriedAs;
    forall k | 0 <= k < |retries| ensures PassHolds(env, candidates, describe, classify, results + [r], retries, k) {
      assert PassHolds(env, candidates, describe, classify, results, retries, k);
    }
  }

  lemma OneMore<R>(
    env: nat -> Pass<R>, candidates: seq<ModelRef>, describe: seq<Attempt> -> string, classify: string -> Reason,
    results: seq<Fallback<R>>, retries: seq<RetryKind>, r: Fallback<R>, kind: RetryKind)
    requires |results| == |retries|
    requires forall k :: 0 <= k < |retries| ==> PassHolds(env, candidates, describe, classify, results, retries, k)
    requires Outcomes(candidates, env(|retries|).run, describe, r)
    requires RetriedAs(env(|retries|), r, classify, Kinds(retries), kind)
    ensures Kinds(retries + [kind]) == Kinds(retries) + {kind}
    ensures forall k :: 0 <= k <= |retries| ==>
              PassHolds(env, candidates, describe, classify, results + [r], retries + [kind], k)
  {
    hide Outcomes, RetriedAs;
    var more := retries + [kind];
    forall k | 0 <= k <= |retries| ensures PassHolds(env, candidates, describe, classify, results + [r], more, k) {
      if k < |retries| {
        assert PassHolds(env, candidates, describe, classify, results, retries, k);
        assert more[..k] == retries[..k];
      } else {
        assert more[..k] == retries;
      }
    }
  }

  // ---- What every run keeps to ----

  lemma RetriesDiffer<R>(
    env: nat -> Pass<R>, candidates: seq<ModelRef>, describe: seq<Attempt> -> string, classify: string -> Reason,
    run: Run<R>, i: nat, j: nat)
    requires IsRun(env, candidates, describe, classify, run) && i < j < |run.retries|
    ensures run.retries[i] != run.retries[j]
  {
    hide Outcomes;
    assert PassHolds(env, candidates, describe, classify, run.results, run.retries, j);
    assert run.retries[..j][i] == run.retries[i];
  }

  /** At most one retry of each kind, so at most three passes; every retried pass failed and showed nothing. */
  lemma AtMostThreePasses<R>(
    env: nat -> Pass<R>, candidates: seq<ModelRef>, describe: seq<Attempt> -> string, classify: string -> Reason,
    run: Run<R>)
    requires IsRun(env, candidates, describe, classify, run)
    ensures |run.retries| <= 2 && |run.results| <= 3
    ensures forall i :: 0 <= i < |run.retries| ==>
              && !env(i).visible && PassError(run.results[i], env(i).waitError).Some?
              && (run.retries[i] == RetryCompacted ==> env(i).compacted)
  {
    hide Outcomes;
    if |run.retries| > 2 {
      RetriesDiffer(env, candidates, describe, classify, run, 0, 1);
      RetriesDiffer(env, candidates, describe, classify, run, 0, 2);
      RetriesDiffer(env, candidates, describe, classify, run, 1, 2);
    }
    forall i | 0 <= i < |run.retries|
      ensures !env(i).visible && PassError(run.results[i], env(i).waitError).Some?
           && (run.retries[i] == RetryCompacted ==> env(i).compacted)
    {
      assert PassHolds(env, candidates, describe, classify, run.results, run.retries, i);
    }
  }

  function TotalCalls<R>(results: seq<Fallback<R>>): nat {
    if results == [] then 0 else CallsIn(results[0]) + TotalCalls(results[1..])
  }

  lemma {:induction false} CallsBounded<R>(results: seq<Fallback<R>>, n: nat)
    requires forall i :: 0 <= i < |results| ==> CallsIn(results[i]) <= n
    ensures TotalCalls(results) <= |results| * n
  {
    if results != [] { CallsBounded(results[1..], n); }
  }

  /** A run calls models at most three times as often as there are candidates. */
  lemma AtMostThreeCallsPerCandidate<R>(
    env: nat -> Pass<R>, candidates: seq<ModelRef>, describe: seq<Attempt> -> string, classify: string -> Reason,
    run: Run<R>)
    requires IsRun(env, candidates, describe, classify, run)
    ensures TotalCalls(run.results) <= 3 * |candidates|
  {
    hide FinalError, RetriedAs;
    AtMostThreePasses(env, candidates, describe, classify, run);
    forall i | 0 <= i < |run.results| ensures CallsIn(run.results[i]) <= |candidates| {
      if i < |run.retries| {
        assert PassHolds(env, candidates, describe, classify, run.results, run.retries, i);
      }
    }
    CallsBounded(run.results, |candidates|);
    assert |run.results| * |candidates| <= 3 * |candidates|;
  }

  /** A pass of all candidates gives this result: the first that does not fail. */
  ghost predicate Succeeds<R>(candidates: seq<ModelRef>, run: nat -> Outcome<R>, result: R) {
    exists i :: 0 <= i < |candidates| && run(i) == Done(result) && AllFail(run, i)
  }

  lemma WonIffSucceeds<R>(
    candidates: seq<ModelRef>, run: nat -> Outcome<R>, describe: seq<Attempt> -> string, r: Fallback<R>, result: R)
    requires Outcomes(candidates, run, describe, r)
    ensures r.Won? && r.result == result <==> Succeeds(candidates, run, result)
    ensures r.Lost? <==> AllFail(run, |candidates|)
  {
    var n := |r.attempts|;
    if Succeeds(candidates, run, result) {
      var i :| 0 <= i < |candidates| && run(i) == Done(result) && AllFail(run, i);
      assert n <= i;
      assert r.Won? ==> i <= n;
    }
    if r.Won? { assert run(n).Done?; }
  }

  /** The run completes with a result exactly when its last pass gives it, settles and is stored. */
  lemma CompletesIff<R>(
    env: nat -> Pass<R>, candidates: seq<ModelRef>, describe: seq<Attempt> -> string, classify: string -> Reason,
    run: Run<R>, result: R)
    requires IsRun(env, candidates, describe, classify, run)
    ensures
      var p := env(|run.retries|);
      && (run.exit == Completed(result) <==>
          !p.cancelled && p.waitError.None? && p.saveError.None? && Succeeds(candidates, p.run, result))
      && (run.exit == Cancelled <==> p.cancelled)
      && (!p.cancelled && AllFail(p.run, |candidates|) ==>
            run.exit == if p.visible then Partial else if p.reset then Reset
                        else GaveUp(run.results[|run.retries|].error))
  {
    hide Outcomes, RetriedAs, Succeeds, AllFail;
    var n := |run.retries|;
    if !env(n).cancelled { WonIffSucceeds(candidates, env(n).run, describe, run.results[n], result); }
  }

  /** Once output is visible the run ends with that pass, successfully or as a partial success. */
  lemma VisibleOutputEndsRun<R>(
    env: nat -> Pass<R>, candidates: seq<ModelRef>, describe: seq<Attempt> -> string, classify: string -> Reason,
    run: Run<R>, i: nat)
    requires IsRun(env, candidates, describe, classify, run) && i < |run.results| && env(i).visible
    ensures i == |run.retries| == |run.results| - 1
    ensures run.exit == Partial <==> PassError(run.results[i], env(i).waitError).Some?
  {
    hide Outcomes;
    AtMostThreePasses(env, candidates, describe, classify, run);
  }

  /**
   With two candidates or more, the reason a backend attached to its error no longer counts: after a pass in
   which all of them failed, a retry depends on the wording of the summary alone.
   */
  lemma SeveralFailuresLoseTheirReasons<R>(
    p: Pass<R>, candidates: seq<ModelRef>, describe: seq<Attempt> -> string, classify: string -> Reason,
    r: Fallback<R>, before: set<RetryKind>)
    requires Outcomes(candidates, p.run, describe, r) && r.Lost? && |candidates| >= 2
    requires !p.cancelled && !p.visible
    ensures RetriedAs(p, r, classify, before, RetryTransient) <==>
            RetryTransient !in before && classify(describe(r.attempts)) == TransientHTTP
  {
  }

  /** And with one candidate the reason it attached decides. */
  lemma OneFailureKeepsItsReason<R>(
    p: Pass<R>, candidates: seq<ModelRef>, describe: seq<Attempt> -> string, classify: string -> Reason,
    r: Fallback<R>, before: set<RetryKind>)
    requires Outcomes(candidates, p.run, describe, r) && r.Lost? && |candidates| == 1
    requires !p.cancelled && !p.visible
    ensures RetriedAs(p, r, classify, before, RetryTransient) <==>
            RetryTransient !in before && p.run(0).Failed? && ErrorReason(p.run(0).error, classify) == TransientHTTP
  {
    assert r.attempts[0] == Attempt(candidates[0], p.run(0).error);
  }
}
