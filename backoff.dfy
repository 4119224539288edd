/**
 * The `_Backoff` helper: an attempt counter with an exponential delay rule,
 * +-15% jitter and a hard retry ceiling.
 *
 * Delays are modelled as exact `real` seconds; the random draw of
 * `random.uniform` is a nondeterministic choice within its bounds and the
 * sleeps taken are recorded in a ghost history instead of being slept.
 */
module Retry {

  const DefaultBase: real := 0.2
  const DefaultFactor: real := 2.0
  const DefaultMaxDelay: real := 5.0
  const DefaultMaxRetries: nat := 6

  /** `x ** n` for a natural exponent. */
  function Pow(x: real, n: nat): real
  {
    if n == 0 then 1.0 else x * Pow(x, n - 1)
  }

  /** The delay before jitter for a given attempt: `min(base * factor ** attempt, max_delay)`. */
  function Delay(base: real, factor: real, maxDelay: real, attempt: nat): (d: real)
    ensures d <= maxDelay && d <= base * Pow(factor, attempt)
    ensures d == maxDelay || d == base * Pow(factor, attempt)
  {
    var grown := base * Pow(factor, attempt);
    if maxDelay < grown then maxDelay else grown
  }

  /** `u` is a value `random.uniform(-jitter, jitter)` can return, where `jitter = delay * 0.15`. */
  predicate InJitter(delay: real, u: real)
  {
    var j := delay * 0.15;
    (-j <= u <= j) || (j <= u <= -j)
  }

  /** The amount actually slept: `max(0.0, delay + u)`. */
  function SleepFor(delay: real, u: real): (s: real)
    ensures 0.0 <= s
    ensures InJitter(delay, u) && 0.0 <= delay ==> 0.85 * delay <= s <= 1.15 * delay
    ensures InJitter(delay, u) && delay <= 0.0 ==> s == 0.0
  {
    if 0.0 < delay + u then delay + u else 0.0
  }

  /** `s` is an amount one call of `sleep` may sleep when the base delay is `delay`. */
  ghost predicate PossibleSleep(delay: real, s: real)
  {
    exists u :: InJitter(delay, u) && s == SleepFor(delay, u)
  }

  /** The base delays of attempts `0 .. n - 1`, in order. */
  function Schedule(base: real, factor: real, maxDelay: real, n: nat): (ds: seq<real>)
    ensures |ds| == n
    ensures forall a :: 0 <= a < n ==> ds[a] == Delay(base, factor, maxDelay, a)
  {
    if n == 0 then [] else Schedule(base, factor, maxDelay, n - 1) + [Delay(base, factor, maxDelay, n - 1)]
  }

  function Sum(xs: seq<real>): real
  {
    if xs == [] then 0.0 else Sum(xs[..|xs| - 1]) + xs[|xs| - 1]
  }

  lemma {:induction false} PowAtLeastOne(x: real, n: nat)
    requires 1.0 <= x
    ensures 1.0 <= Pow(x, n)
  {
    if n > 0 {
      PowAtLeastOne(x, n - 1);
    }
  }

  /**
   * With a non-negative base and a factor of at least 1 the base delay never
   * decreases from one attempt to the next (it grows until it is capped).
   */
  lemma DelayMonotone(base: real, factor: real, maxDelay: real, attempt: nat)
    requires 0.0 <= base && 1.0 <= factor
    ensures Delay(base, factor, maxDelay, attempt) <= Delay(base, factor, maxDelay, attempt + 1)
  {
    PowAtLeastOne(factor, attempt);
    assert Pow(factor, attempt + 1) == factor * Pow(factor, attempt);
    assert Pow(factor, attempt) <= Pow(factor, attempt + 1);
    assert base * Pow(factor, attempt) <= base * Pow(factor, attempt + 1);
  }

  /** With a non-negative base and cap and a factor of at least 1 no delay is negative. */
  lemma DelayNonNegative(base: real, factor: real, maxDelay: real, attempt: nat)
    requires 0.0 <= base && 1.0 <= factor && 0.0 <= maxDelay
    ensures 0.0 <= Delay(base, factor, maxDelay, attempt)
  {
    PowAtLeastOne(factor, attempt);
  }

  /**
   * The default policy sleeps before attempts 1 .. 6 with base delays
   * 0.2, 0.4, 0.8, 1.6, 3.2 and 5.0 seconds (6.4 is capped), 11.2 seconds in
   * all, 12.88 seconds with the largest jitter.
   */
  lemma DefaultSchedule()
    ensures Schedule(DefaultBase, DefaultFactor, DefaultMaxDelay, DefaultMaxRetries) == [0.2, 0.4, 0.8, 1.6, 3.2, 5.0]
    ensures Sum(Schedule(DefaultBase, DefaultFactor, DefaultMaxDelay, DefaultMaxRetries)) == 11.2
    ensures 1.15 * Sum(Schedule(DefaultBase, DefaultFactor, DefaultMaxDelay, DefaultMaxRetries)) == 12.88
  {
    assert Pow(2.0, 1) == 2.0;
    assert Pow(2.0, 2) == 4.0;
    assert Pow(2.0, 3) == 8.0;
    assert Pow(2.0, 4) == 16.0;
    assert Pow(2.0, 5) == 32.0;
    var ds := Schedule(DefaultBase, DefaultFactor, DefaultMaxDelay, DefaultMaxRetries);
    assert ds == [0.2, 0.4, 0.8, 1.6, 3.2, 5.0];
    assert ds[..5] == [0.2, 0.4, 0.8, 1.6, 3.2];
    assert ds[..4] == [0.2, 0.4, 0.8, 1.6];
    assert ds[..3] == [0.2, 0.4, 0.8];
    assert ds[..2] == [0.2, 0.4];
    assert ds[..1] == [0.2];
    assert ds[..1][..0] == [];
    assert ds[..2][..1] == ds[..1];
    assert ds[..3][..2] == ds[..2];
    assert ds[..4][..3] == ds[..3];
    assert ds[..5][..4] == ds[..4];
    assert ds[..5] == ds[..|ds| - 1];
    assert Sum(ds[..1]) == 0.2;
    assert Sum(ds[..2]) == 0.6;
    assert Sum(ds[..3]) == 1.4;
    assert Sum(ds[..4]) == 3.0;
    assert Sum(ds[..5]) == 6.2;
  }

  /** One sleep taken by a backoff: the attempt it was taken at and the seconds slept. */
  datatype Nap = Nap(attempt: nat, seconds: real)

  /** The total time of the sleeps `naps`. */
  function Slept(naps: seq<Nap>): real
  {
    if naps == [] then 0.0 else Slept(naps[..|naps| - 1]) + naps[|naps| - 1].seconds
  }

  /** Dropping trailing non-negative values never raises a total. */
  lemma {:induction false} SumPrefixAtMost(xs: seq<real>, n: nat)
    requires n <= |xs|
    requires forall i :: 0 <= i < |xs| ==> 0.0 <= xs[i]
    ensures Sum(xs[..n]) <= Sum(xs)
    decreases |xs|
  {
    if n < |xs| {
      var init := xs[..|xs| - 1];
      SumPrefixAtMost(init, n);
      assert init[..n] == xs[..n];
    } else {
      assert xs[..n] == xs;
    }
  }

  /**
   * Sleeps each within 15% of a non-negative delay of `delays`, one for one,
   * total at most 1.15 times the delays' total.
   */
  lemma {:induction false} SleptWithin(naps: seq<Nap>, delays: seq<real>)
    requires |naps| == |delays|
    requires forall k :: 0 <= k < |delays| ==> 0.0 <= delays[k] && PossibleSleep(delays[k], naps[k].seconds)
    ensures Slept(naps) <= 1.15 * Sum(delays)
    decreases |naps|
  {
    if naps != [] {
      var n := |naps| - 1;
      SleptWithin(naps[..n], delays[..n]);
      var u :| InJitter(delays[n], u) && naps[n].seconds == SleepFor(delays[n], u);
    }
  }

  /** `_Backoff`: its attempt counter and, as ghost history, every sleep it took. */
  class Backoff {
    const base: real
    const factor: real
    const maxDelay: real
    const maxRetries: int
    var attempt: nat
    ghost var naps: seq<Nap>

    /** Started from 0, the counter never passes the retry ceiling. */
    ghost predicate Valid()
      reads this
    {
      attempt == 0 || attempt <= maxRetries
    }

    /** Every sleep taken was the capped exponential delay of its attempt, jittered by at most 15%. */
    ghost predicate Jittered()
      reads this
    {
      forall k :: 0 <= k < |naps| ==> PossibleSleep(Delay(base, factor, maxDelay, naps[k].attempt), naps[k].seconds)
    }

    /** Never reset since it was created: one sleep per attempt so far, in order. */
    ghost predicate Unreset()
      reads this
    {
      attempt == |naps| && forall k :: 0 <= k < |naps| ==> naps[k].attempt == k
    }

    constructor (base: real, factor: real, maxDelay: real, maxRetries: int)
      ensures Valid() && Jittered() && Unreset()
      ensures this.base == base && this.factor == factor
      ensures this.maxDelay == maxDelay && this.maxRetries == maxRetries
      ensures attempt == 0 && naps == []
    {
      this.base := base;
      this.factor := factor;
      this.maxDelay := maxDelay;
      this.maxRetries := maxRetries;
      attempt := 0;
      naps := [];
    }

    /**
     * `sleep`: raises `TimeoutError('backoff_exceeded')` (here `exceeded`)
     * exactly when the ceiling is reached, changing nothing; otherwise takes
     * one more jittered sleep at the current attempt and counts it.
     */
    method Sleep() returns (exceeded: bool)
      requires Valid() && Jittered()
      modifies this`attempt, this`naps
      ensures Valid() && Jittered()
      ensures exceeded <==> old(attempt) >= maxRetries
      ensures exceeded ==> attempt == old(attempt) && naps == old(naps)
      ensures !exceeded ==> attempt == old(attempt) + 1
      ensures !exceeded ==> |naps| == |old(naps)| + 1 && naps[..|old(naps)|] == old(naps)
      ensures !exceeded ==> naps[|old(naps)|].attempt == old(attempt)
      ensures old(Unreset()) ==> Unreset()
    {
      if attempt >= maxRetries {
        return true;
      }
      var delay := Delay(base, factor, maxDelay, attempt);
      assert InJitter(delay, 0.0);
      var u: real :| InJitter(delay, u);
      naps := naps + [Nap(attempt, SleepFor(delay, u))];
      attempt := attempt + 1;
      return false;
    }

    /** `reset`: the counter goes back to 0 and nothing else changes. */
    method Reset()
      modifies this`attempt
      ensures attempt == 0 && Valid()
    {
      attempt := 0;
    }
  }

  /**
   * A default `_Backoff` that was never reset sleeps at most 12.88 seconds in
   * all before `sleep` gives up: the 11.2 seconds of the default schedule plus
   * at most 15% jitter.
   */
  lemma DefaultBackoffSleepsAtMost(b: Backoff)
    requires b.base == DefaultBase && b.factor == DefaultFactor
    requires b.maxDelay == DefaultMaxDelay && b.maxRetries == DefaultMaxRetries
    requires b.Valid() && b.Jittered() && b.Unreset()
    ensures Slept(b.naps) <= 12.88
  {
    var n := |b.naps|;
    var all := Schedule(DefaultBase, DefaultFactor, DefaultMaxDelay, DefaultMaxRetries);
    DefaultSchedule();
    var delays := all[..n];
    forall k | 0 <= k < n
      ensures 0.0 <= delays[k] && PossibleSleep(delays[k], b.naps[k].seconds)
    {
      assert delays[k] == Delay(DefaultBase, DefaultFactor, DefaultMaxDelay, b.naps[k].attempt);
    }
    SleptWithin(b.naps, delays);
    SumPrefixAtMost(all, n);
  }
}
