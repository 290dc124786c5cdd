/**
 The token bucket of the load generator, `RateLimiter`, whose rate can be changed
 while it runs. Clock readings are arguments and float64 is modelled by `real`.
 */
module RateLimit {

  function Min(a: real, b: real): real { if a <= b then a else b }

  /** Tokens earned over a time span. */
  function Earned(span: real, rate: real): real { span * rate }

  lemma EarnedAtMost(span: real, r: real, bound: real)
    requires 0.0 <= span && r <= bound
    ensures Earned(span, r) <= Earned(span, bound)
  {
    assert Earned(span, bound) - Earned(span, r) == span * (bound - r);
  }

  lemma EarnedNonNegative(span: real, r: real)
    requires 0.0 <= span && 0.0 <= r
    ensures 0.0 <= Earned(span, r)
  {
  }

  lemma EarnedAdds(a: real, b: real, r: real)
    ensures Earned(a, r) + Earned(b, r) == Earned(a + b, r)
  {
  }

  // ---------------------------------------------------------------------------
  // The load generator's limiter

  datatype Limiter = Limiter(enabled: bool, tokens: real, maxTokens: real, lastRefill: real, refillRate: real)

  /** One second of tokens, but at least 1 and at most 10000. */
  function Burst(rps: real): real { if rps < 1.0 then 1.0 else if rps > 10000.0 then 10000.0 else rps }

  function Refilled(l: Limiter, now: real): Limiter {
    l.(tokens := Min(l.tokens + Earned(now - l.lastRefill, l.refillRate), l.maxTokens), lastRefill := now)
  }

  /** A token was there and was taken; admissions while disabled take none. */
  predicate Grants(l: Limiter, now: real) { l.enabled && Refilled(l, now).tokens >= 1.0 }

  function Tried(l: Limiter, now: real): Limiter {
    if !l.enabled then l
    else
      var r := Refilled(l, now);
      if Grants(l, now) then r.(tokens := r.tokens - 1.0) else r
  }

  function Retargeted(l: Limiter, rps: real): Limiter {
    if rps <= 0.0 then l.(enabled := false)
    else l.(enabled := true, refillRate := rps, maxTokens := Burst(rps), tokens := Min(l.tokens, Burst(rps)))
  }

  class RateLimiter {
    var enabled: bool
    var tokens: real
    var maxTokens: real
    var lastRefill: real
    var refillRate: real

    ghost function State(): Limiter
      reads this
    {
      Limiter(enabled, tokens, maxTokens, lastRefill, refillRate)
    }

    constructor (targetRPS: real, now: real)
      ensures State() == New(targetRPS, now)
    {
      enabled, tokens, maxTokens, lastRefill, refillRate := false, 0.0, 0.0, 0.0, 0.0;
      if targetRPS > 0.0 {
        var max := targetRPS;
        if max < 1.0 {
          max := 1.0;
        }
        if max > 10000.0 {
          max := 10000.0;
        }
        enabled, tokens, maxTokens, lastRefill, refillRate := true, max, max, now, targetRPS;
      }
    }

    method Refill(now: real)
      modifies this
      ensures State() == Refilled(old(State()), now)
    {
      var elapsed := now - lastRefill;
      lastRefill := now;
      tokens := tokens + elapsed * refillRate;
      if tokens > maxTokens {
        tokens := maxTokens;
      }
    }

    /** `TryAcquire`, which is also one round of the loop in `Acquire`. */
    method TryAcquire(now: real) returns (ok: bool)
      modifies this
      ensures State() == Tried(old(State()), now)
      ensures ok == (!old(enabled) || Grants(old(State()), now))
    {
      if !enabled {
        return true;
      }
      Refill(now);
      if tokens >= 1.0 {
        tokens := tokens - 1.0;
        return true;
      }
      return false;
    }

    method UpdateTargetRPS(targetRPS: real)
      modifies this
      ensures State() == Retargeted(old(State()), targetRPS)
    {
      if targetRPS <= 0.0 {
        enabled := false;
        return;
      }
      enabled := true;
      refillRate := targetRPS;
      var max := targetRPS;
      if max < 1.0 {
        max := 1.0;
      }
      if max > 10000.0 {
        max := 10000.0;
      }
      maxTokens := max;
      if tokens > maxTokens {
        tokens := maxTokens;
      }
    }
  }

  /** Calls on the limiter: an attempt, a look at the tokens (which refills), a new target. */
  datatype Call = Try(now: real) | Peek(now: real) | Retarget(rps: real)

  function Step(l: Limiter, c: Call): Limiter {
    match c
    case Try(now) => Tried(l, now)
    case Peek(now) => Refilled(l, now)
    case Retarget(rps) => Retargeted(l, rps)
  }

  function Exec(l: Limiter, cs: seq<Call>): Limiter
    decreases |cs|
  {
    if cs == [] then l else Exec(Step(l, cs[0]), cs[1..])
  }

  function Granted(l: Limiter, cs: seq<Call>): nat
    decreases |cs|
  {
    if cs == [] then 0
    else (if cs[0].Try? && Grants(l, cs[0].now) then 1 else 0) + Granted(Step(l, cs[0]), cs[1..])
  }

  /** Attempts let through while the limiter is disabled, which take no token. */
  function Free(l: Limiter, cs: seq<Call>): nat
    decreases |cs|
  {
    if cs == [] then 0 else (if cs[0].Try? && !l.enabled then 1 else 0) + Free(Step(l, cs[0]), cs[1..])
  }

  /** All attempts that succeed, as the caller sees them. */
  function Passed(l: Limiter, cs: seq<Call>): nat
    decreases |cs|
  {
    if cs == [] then 0
    else (if cs[0].Try? && (!l.enabled || Grants(l, cs[0].now)) then 1 else 0) + Passed(Step(l, cs[0]), cs[1..])
  }

  lemma {:induction false} PassedSplits(l: Limiter, cs: seq<Call>)
    ensures Passed(l, cs) == Granted(l, cs) + Free(l, cs)
    decreases |cs|
  {
    if cs != [] {
      PassedSplits(Step(l, cs[0]), cs[1..]);
    }
  }

  /** Clock readings never go back, starting from `t`. */
  predicate Timed(cs: seq<Call>, t: real)
    decreases |cs|
  {
    cs == [] ||
    (if cs[0].Retarget? then Timed(cs[1..], t) else t <= cs[0].now && Timed(cs[1..], cs[0].now))
  }

  function End(cs: seq<Call>, t: real): real
    decreases |cs|
  {
    if cs == [] then t else End(cs[1..], if cs[0].Retarget? then t else cs[0].now)
  }

  /** No configuration in the window allows a larger burst than `b` or a higher rate than `r`. */
  ghost predicate Below(l: Limiter, cs: seq<Call>, b: real, r: real) {
    && l.tokens <= l.maxTokens <= b && l.refillRate <= r && 0.0 <= r
    && forall c <- cs :: c.Retarget? && c.rps > 0.0 ==> Burst(c.rps) <= b && c.rps <= r
  }

  /** Tokens granted and tokens left never outrun the burst plus the time since `start`. */
  ghost predicate Budget(l: Limiter, granted: nat, start: real, b: real, r: real) {
    if l.lastRefill < start then granted == 0
    else granted as real + l.tokens <= b + Earned(l.lastRefill - start, r)
  }

  lemma RefillBudget(l: Limiter, granted: nat, start: real, now: real, b: real, r: real)
    requires l.tokens <= l.maxTokens <= b && l.refillRate <= r && 0.0 <= r
    requires l.lastRefill <= now && start <= now && Budget(l, granted, start, b, r)
    ensures Budget(Refilled(l, now), granted, start, b, r)
  {
    EarnedAtMost(now - l.lastRefill, l.refillRate, r);
    EarnedNonNegative(now - start, r);
    EarnedAdds(now - l.lastRefill, l.lastRefill - start, r);
  }

  lemma {:induction false} WindowFrom(
      l: Limiter, cs: seq<Call>, granted: nat, start: real, t: real, b: real, r: real)
    requires Below(l, cs, b, r) && Budget(l, granted, start, b, r)
    requires l.lastRefill <= t && start <= t && Timed(cs, t)
    ensures granted + Granted(l, cs) == 0 ||
            (granted + Granted(l, cs)) as real + Exec(l, cs).tokens <= b + Earned(End(cs, t) - start, r)
    decreases |cs|
  {
    if cs == [] {
      if granted > 0 {
        EarnedNonNegative(t - l.lastRefill, r);
        EarnedAdds(l.lastRefill - start, t - l.lastRefill, r);
      }
    } else {
      var c := cs[0];
      assert c in cs && forall d <- cs[1..] :: d in cs;
      if c.Retarget? {
        WindowFrom(Step(l, c), cs[1..], granted, start, t, b, r);
      } else {
        RefillBudget(l, granted, start, c.now, b, r);
        var g := if c.Try? && Grants(l, c.now) then granted + 1 else granted;
        WindowFrom(Step(l, c), cs[1..], g, start, c.now, b, r);
      }
    }
  }

  /** What every call keeps: between zero and `maxTokens` tokens, a rate that is not negative. */
  ghost predicate Valid(l: Limiter, t: real) {
    0.0 <= l.tokens <= l.maxTokens && 0.0 <= l.refillRate && l.lastRefill <= t
  }

  lemma {:induction false} RunsStayValid(l: Limiter, cs: seq<Call>, t: real)
    requires Valid(l, t) && Timed(cs, t)
    ensures Valid(Exec(l, cs), End(cs, t))
    decreases |cs|
  {
    if cs != [] {
      var c := cs[0];
      if c.Retarget? {
        RunsStayValid(Step(l, c), cs[1..], t);
      } else {
        EarnedNonNegative(c.now - l.lastRefill, l.refillRate);
        RunsStayValid(Step(l, c), cs[1..], c.now);
      }
    }
  }

  function New(rps: real, now: real): Limiter {
    if rps > 0.0 then Limiter(true, Burst(rps), Burst(rps), now, rps) else Limiter(false, 0.0, 0.0, 0.0, 0.0)
  }

  /**
   In any window of any run, whatever targets are set before or inside it, the
   attempts that succeed are at most the largest burst in force during the window
   plus the highest rate in force times the length of the window, and those made
   while the limiter is disabled.
   */
  lemma WindowBound(rps: real, born: real, before: seq<Call>, window: seq<Call>, b: real, r: real)
    requires 0.0 <= born && Timed(before, born)
    requires var start := End(before, born); Timed(window, start)
    requires Below(Exec(New(rps, born), before), window, b, r)
    ensures var start := End(before, born);
            var l := Exec(New(rps, born), before);
            Passed(l, window) as real <= b + Earned(End(window, start) - start, r) + Free(l, window) as real
  {
    var l, start := Exec(New(rps, born), before), End(before, born);
    PassedSplits(l, window);
    RunsStayValid(New(rps, born), before, born);
    WindowFrom(l, window, 0, start, start, b, r);
    RunsStayValid(l, window, start);
    EndAfter(window, start);
    EarnedNonNegative(End(window, start) - start, r);
  }

  lemma {:induction false} EndAfter(cs: seq<Call>, t: real)
    requires Timed(cs, t)
    ensures t <= End(cs, t)
    decreases |cs|
  {
    if cs != [] {
      EndAfter(cs[1..], if cs[0].Retarget? then t else cs[0].now);
    }
  }

  /** The burst is really available: with `n` tokens, `n` attempts at one instant all succeed. */
  lemma {:induction false} BurstIsGranted(l: Limiter, n: nat)
    requires l.enabled && n as real <= l.tokens <= l.maxTokens
    ensures Granted(l, seq(n, _ => Try(l.lastRefill))) == n
    decreases n
  {
    if n > 0 {
      var now := l.lastRefill;
      assert seq(n, _ => Try(now))[1..] == seq(n - 1, _ => Try(now));
      assert Earned(now - l.lastRefill, l.refillRate) == 0.0;
      assert Refilled(l, now) == l;
      BurstIsGranted(Tried(l, now), n - 1);
    }
  }

  // ---------------------------------------------------------------------------
  // From below

  /** Waiting for one token, `1 / rate`, is enough, however empty the bucket was. */
  lemma WaitingGrants(l: Limiter, now: real)
    requires l.enabled && 0.0 <= l.tokens && 1.0 <= l.maxTokens && Earned(now - l.lastRefill, l.refillRate) >= 1.0
    ensures Grants(l, now)
  {
  }

  /** Attempts, each at least one token's time after the last refill before it. */
  predicate Paced(cs: seq<Call>, t: real, rate: real)
    decreases |cs|
  {
    cs == [] || (cs[0].Try? && Earned(cs[0].now - t, rate) >= 1.0 && Paced(cs[1..], cs[0].now, rate))
  }

  /** Whoever keeps to the rate is never refused. */
  lemma {:induction false} PacedNeverRefused(l: Limiter, cs: seq<Call>)
    requires l.enabled && 0.0 <= l.tokens && 1.0 <= l.maxTokens && Paced(cs, l.lastRefill, l.refillRate)
    ensures Granted(l, cs) == |cs|
    decreases |cs|
  {
    if cs != [] {
      WaitingGrants(l, cs[0].now);
      PacedNeverRefused(Step(l, cs[0]), cs[1..]);
    }
  }

  /** Attempts so close together that no more than `e` tokens are earned in between. */
  predicate Keen(cs: seq<Call>, t: real, rate: real, e: real)
    decreases |cs|
  {
    cs == [] ||
    (cs[0].Try? && t <= cs[0].now && Earned(cs[0].now - t, rate) <= e && Keen(cs[1..], cs[0].now, rate, e))
  }

  /** There is room for what is earned until the next attempt, whether this one is granted or refused. */
  lemma KeenStep(l: Limiter, now: real, e: real)
    requires l.enabled && 0.0 <= l.tokens <= l.maxTokens - e && e <= 1.0 && e <= l.maxTokens - 1.0
    requires 0.0 <= Earned(now - l.lastRefill, l.refillRate) <= e
    ensures var t, one := Tried(l, now), if Grants(l, now) then 1.0 else 0.0;
            && 0.0 <= t.tokens <= t.maxTokens - e && t == l.(tokens := t.tokens, lastRefill := now)
            && one + t.tokens == l.tokens + Earned(now - l.lastRefill, l.refillRate)
  {
  }

  /**
   Whoever keeps asking wastes nothing: the attempts granted and the tokens left are
   together what was there and what was earned.
   */
  lemma {:induction false} KeenConserves(l: Limiter, cs: seq<Call>, e: real)
    requires l.enabled && 0.0 <= l.refillRate && 0.0 <= l.tokens <= l.maxTokens - e
    requires e <= 1.0 && e <= l.maxTokens - 1.0 && Keen(cs, l.lastRefill, l.refillRate, e)
    ensures Granted(l, cs) as real + Exec(l, cs).tokens ==
            l.tokens + Earned(End(cs, l.lastRefill) - l.lastRefill, l.refillRate)
    ensures 0.0 <= Exec(l, cs).tokens <= l.maxTokens - e
    decreases |cs|
  {
    if cs == [] {
      assert Earned(0.0, l.refillRate) == 0.0;
    } else {
      var now := cs[0].now;
      EarnedNonNegative(now - l.lastRefill, l.refillRate);
      KeenStep(l, now, e);
      KeenConserves(Tried(l, now), cs[1..], e);
      EarnedAdds(now - l.lastRefill, End(cs, l.lastRefill) - now, l.refillRate);
    }
  }

  /** So it is granted at least what was earned, but for the tokens a bucket holds. */
  lemma KeenGranted(l: Limiter, cs: seq<Call>, e: real)
    requires l.enabled && 0.0 <= l.refillRate && 0.0 <= l.tokens <= l.maxTokens - e
    requires e <= 1.0 && e <= l.maxTokens - 1.0 && Keen(cs, l.lastRefill, l.refillRate, e)
    ensures Granted(l, cs) as real >=
            l.tokens + Earned(End(cs, l.lastRefill) - l.lastRefill, l.refillRate) - (l.maxTokens - e)
  {
    KeenConserves(l, cs, e);
  }

  /** The burst of a target is one second of it, never less than one token and never more than ten thousand. */
  lemma BurstIs(rps: real)
    ensures 1.0 <= Burst(rps) <= 10000.0 && (1.0 <= rps <= 10000.0 ==> Burst(rps) == rps)
    ensures rps > 0.0 ==> New(rps, 0.0).tokens == Burst(rps) && New(rps, 0.0).refillRate == rps
  {
  }


  /** A new target keeps the tokens there are, up to its burst; a target of zero or less only disables. */
  lemma RetargetIs(l: Limiter, rps: real)
    ensures rps <= 0.0 ==> Step(l, Retarget(rps)) == l.(enabled := false)
    ensures rps > 0.0 ==>
              var t := Step(l, Retarget(rps));
              && t.enabled && t.refillRate == rps && t.maxTokens == Burst(rps) && t.lastRefill == l.lastRefill
              && t.tokens == if l.tokens <= Burst(rps) then l.tokens else Burst(rps)
  {
  }
}
