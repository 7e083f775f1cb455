/** Backoff ladders and the probe rule of auth_cooldown.go. Durations and times are whole nanoseconds. */
module AuthCooldown {

  const SECOND := 1_000_000_000
  const MINUTE := 60 * SECOND
  const HOUR := 60 * MINUTE

  const PROBE_THROTTLE := 30 * SECOND
  const PROBE_WINDOW := 2 * MINUTE

  datatype Reason = Billing | Auth | OtherReason(code: string)

  function Pow(base: nat, exp: nat): (r: nat)
    ensures base > 0 ==> r > 0
  {
    if exp == 0 then 1 else base * Pow(base, exp - 1)
  }

  function Exponential(errors: int, base: nat, multiplier: nat, maxExp: nat, cap: nat): nat {
    if errors <= 0 then 0
    else
      var exp := if errors - 1 > maxExp then maxExp else errors - 1;
      var d := base * Pow(multiplier, exp);
      if d > cap then cap else d
  }

  /** How long a failure keeps the profile out, given how many failures there have been in a row. */
  function Ladder(reason: Reason, errors: int): nat {
    match reason
    case Billing => Exponential(errors, 5 * HOUR, 2, 10, 24 * HOUR)
    case Auth => Exponential(errors, 120 * SECOND, 5, 3, 2 * HOUR)
    case OtherReason(_) => Exponential(errors, 60 * SECOND, 5, 3, HOUR)
  }

  function Cap(reason: Reason): nat {
    match reason
    case Billing => 24 * HOUR
    case Auth => 2 * HOUR
    case OtherReason(_) => HOUR
  }

  lemma {:induction false} PowGrows(base: nat, lo: nat, hi: nat)
    requires base > 0 && lo <= hi
    ensures Pow(base, lo) <= Pow(base, hi)
    decreases hi
  {
    if lo < hi {
      PowGrows(base, lo, hi - 1);
      var p := Pow(base, hi - 1);
      assert base * p >= 1 * p;
    }
  }

  lemma ExponentialGrows(lo: int, hi: int, base: nat, multiplier: nat, maxExp: nat, cap: nat)
    requires lo <= hi && multiplier > 0
    ensures Exponential(lo, base, multiplier, maxExp, cap) <= Exponential(hi, base, multiplier, maxExp, cap) <= cap
  {
    if lo > 0 {
      var a := if lo - 1 > maxExp then maxExp else lo - 1;
      var b := if hi - 1 > maxExp then maxExp else hi - 1;
      PowGrows(multiplier, a, b);
      Product(base, Pow(multiplier, a), Pow(multiplier, b));
    }
  }

  lemma Product(x: nat, a: nat, b: nat)
    requires a <= b
    ensures x * a <= x * b
  {
  }

  lemma LadderGrows(reason: Reason, lo: int, hi: int)
    requires lo <= hi
    ensures Ladder(reason, lo) <= Ladder(reason, hi) <= Cap(reason)
  {
    hide Pow;
    match reason
    case Billing => ExponentialGrows(lo, hi, 5 * HOUR, 2, 10, 24 * HOUR);
    case Auth => ExponentialGrows(lo, hi, 120 * SECOND, 5, 3, 2 * HOUR);
    case OtherReason(_) => ExponentialGrows(lo, hi, 60 * SECOND, 5, 3, HOUR);
  }

  lemma FirstRungs(reason: Reason)
    ensures Ladder(reason, 1) == match reason case Billing => 5 * HOUR case Auth => 2 * MINUTE case _ => MINUTE
    ensures Ladder(reason, 2) == match reason case Billing => 10 * HOUR case Auth => 10 * MINUTE case _ => 5 * MINUTE
    ensures Ladder(reason, 3) == match reason case Billing => 20 * HOUR case Auth => 50 * MINUTE case _ => 25 * MINUTE
    ensures Ladder(reason, 4) == Cap(reason)
  {
    assert Pow(5, 0) == 1 && Pow(5, 1) == 5 && Pow(5, 2) == 25 && Pow(5, 3) == 125;
    assert Pow(2, 0) == 1 && Pow(2, 1) == 2 && Pow(2, 2) == 4 && Pow(2, 3) == 8;
  }

  /** Each ladder climbs with the error count, never past its cap, and stays there from the fourth error on. */
  lemma LadderClimbs(reason: Reason, lo: int, hi: int)
    requires lo <= hi
    ensures Ladder(reason, lo) <= Ladder(reason, hi) <= Cap(reason) <= 24 * HOUR
    ensures lo >= 4 ==> Ladder(reason, lo) == Cap(reason)
    ensures lo > 0 ==> Ladder(reason, lo) > 0
  {
    hide Ladder;
    LadderGrows(reason, lo, hi);
    FirstRungs(reason);
    if lo >= 4 { LadderGrows(reason, 4, lo); }
    if lo > 0 { LadderGrows(reason, 1, lo); }
  }

  predicate IsProbeEligible(cooldownUntil: int, lastProbeAt: int, now: int) {
    now <= cooldownUntil && cooldownUntil - now <= PROBE_WINDOW && now - lastProbeAt >= PROBE_THROTTLE
  }
}
