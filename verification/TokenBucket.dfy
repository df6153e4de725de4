/**
 * The token bucket over real time: the code's greedy decisions keep every window of arrivals
 * within burst + rate * time, and no other way of staying within those windows admits more.
 */
module TokenBucket {

  datatype Bucket = Bucket(tokens: real, lastRefill: real, rps: real, burst: real)

  /** A new bucket is full. */
  function Fresh(rps: real, burst: real, now: real): Bucket {
    Bucket(burst, now, rps, burst)
  }

  function Min(x: real, y: real): real {
    if x <= y then x else y
  }

  /** `duration_since` never goes below zero. */
  function Elapsed(now: real, before: real): real {
    if now >= before then now - before else 0.0
  }

  function Refill(b: Bucket, now: real): Bucket {
    b.(tokens := Min(b.tokens + Elapsed(now, b.lastRefill) * b.rps, b.burst), lastRefill := now)
  }

  /** `try_consume`: refill, then take a token if there is one. */
  function TryConsume(b: Bucket, now: real): (Bucket, bool) {
    var full := Refill(b, now);
    if full.tokens >= 1.0 then (full.(tokens := full.tokens - 1.0), true) else (full, false)
  }

  // ---------------------------------------------------------------------------
  // One bucket over a run of arrivals
  // ---------------------------------------------------------------------------

  predicate Monotone(t: seq<real>) {
    forall i, j :: 0 <= i <= j < |t| ==> t[i] <= t[j]
  }

  /** The bucket, created at the first arrival, after the first n of them. */
  function BucketAfter(rps: real, burst: real, t: seq<real>, n: nat): (b: Bucket)
    requires n <= |t|
    ensures b.rps == rps && b.burst == burst
    ensures n > 0 ==> b.lastRefill == t[n - 1]
  {
    if n == 0 then Fresh(rps, burst, if |t| > 0 then t[0] else 0.0)
    else TryConsume(BucketAfter(rps, burst, t, n - 1), t[n - 1]).0
  }

  /** Is arrival i let through? */
  function Admits(rps: real, burst: real, t: seq<real>, i: nat): bool
    requires i < |t|
  {
    TryConsume(BucketAfter(rps, burst, t, i), t[i]).1
  }

  function Verdicts(rps: real, burst: real, t: seq<real>): (v: seq<bool>)
    ensures |v| == |t|
  {
    seq(|t|, i requires 0 <= i < |t| => Admits(rps, burst, t, i))
  }

  // ---------------------------------------------------------------------------
  // Any way of choosing arrivals
  // ---------------------------------------------------------------------------

  function One(b: bool): int {
    if b then 1 else 0
  }

  /** How many of arrivals i..j (j excluded) are chosen. */
  function Count(pick: seq<bool>, i: nat, j: nat): (k: nat)
    requires i <= j <= |pick|
    decreases j
  {
    if i == j then 0 else Count(pick, i, j - 1) + One(pick[j - 1])
  }

  /** What the bucket earns between arrival n and the one before; x is the income up to each arrival. */
  function Gap(x: seq<real>, n: nat): real
    requires n < |x|
  {
    if n == 0 then 0.0 else x[n] - x[n - 1]
  }

  /** The token level if exactly the chosen arrivals are served; it may go below zero. */
  function Level(burst: real, x: seq<real>, pick: seq<bool>, n: nat): real
    requires n <= |x| && |pick| == |x|
  {
    if n == 0 then burst
    else Min(Level(burst, x, pick, n - 1) + Gap(x, n - 1), burst) - One(pick[n - 1]) as real
  }

  /** No window of arrivals takes more than the burst and what is earned during it. */
  ghost predicate Conforms(burst: real, x: seq<real>, pick: seq<bool>)
    requires |pick| == |x|
  {
    forall i, j :: 0 <= i <= j < |x| ==> Count(pick, i, j + 1) as real <= burst + x[j] - x[i]
  }

  predicate Solvent(burst: real, x: seq<real>, pick: seq<bool>, n: nat)
    requires |pick| == |x| && n <= |x|
  {
    Level(burst, x, pick, n) >= 0.0
  }

  ghost predicate NeverNegative(burst: real, x: seq<real>, pick: seq<bool>)
    requires |pick| == |x|
  {
    forall n :: 0 <= n <= |x| ==> Solvent(burst, x, pick, n)
  }

  /** The level never exceeds what any window has left. */
  lemma {:induction false} LevelBelowWindows(burst: real, x: seq<real>, pick: seq<bool>, i: nat, j: nat)
    requires |pick| == |x| && i <= j < |x|
    ensures Level(burst, x, pick, j + 1) <= burst + x[j] - x[i] - Count(pick, i, j + 1) as real
    decreases j
  {
    if i == j {
      assert Count(pick, i, j + 1) == Count(pick, i, i) + One(pick[j]);
    } else {
      LevelBelowWindows(burst, x, pick, i, j - 1);
    }
  }

  /** Arrival i opens the window that has exactly the level left after arrival j. */
  predicate Tight(burst: real, x: seq<real>, pick: seq<bool>, i: nat, j: nat)
    requires |pick| == |x| && i <= j < |x|
  {
    Level(burst, x, pick, j + 1) == burst + x[j] - x[i] - Count(pick, i, j + 1) as real
  }

  lemma {:induction false} LevelMeetsAWindow(burst: real, x: seq<real>, pick: seq<bool>, j: nat)
    requires |pick| == |x| && j < |x|
    ensures exists i :: 0 <= i <= j && Tight(burst, x, pick, i, j)
    decreases j
  {
    if j == 0 || Level(burst, x, pick, j) + Gap(x, j) > burst {
      assert Count(pick, j, j + 1) == Count(pick, j, j) + One(pick[j]);
      assert Tight(burst, x, pick, j, j);
    } else {
      LevelMeetsAWindow(burst, x, pick, j - 1);
      var i :| 0 <= i <= j - 1 && Tight(burst, x, pick, i, j - 1);
      assert Tight(burst, x, pick, i, j);
    }
  }

  /** Staying within every window is the same as never running out of tokens. */
  lemma ConformsIffNeverNegative(burst: real, x: seq<real>, pick: seq<bool>)
    requires |pick| == |x| && burst >= 0.0
    ensures Conforms(burst, x, pick) <==> NeverNegative(burst, x, pick)
  {
    if NeverNegative(burst, x, pick) {
      forall i, j | 0 <= i <= j < |x|
        ensures Count(pick, i, j + 1) as real <= burst + x[j] - x[i]
      {
        LevelBelowWindows(burst, x, pick, i, j);
        assert Solvent(burst, x, pick, j + 1);
      }
    }
    if Conforms(burst, x, pick) {
      forall n | 0 <= n <= |x|
        ensures Solvent(burst, x, pick, n)
      {
        if n > 0 {
          LevelMeetsAWindow(burst, x, pick, n - 1);
          var i :| 0 <= i <= n - 1 && Tight(burst, x, pick, i, n - 1);
        }
      }
    }
  }

  // ---------------------------------------------------------------------------
  // The code's decisions
  // ---------------------------------------------------------------------------

  function Income(rps: real, t: seq<real>): (x: seq<real>)
    ensures |x| == |t|
  {
    seq(|t|, i requires 0 <= i < |t| => rps * t[i])
  }

  /** `try_consume` in terms of what was earned since the last refill. */
  lemma ConsumeEarned(b: Bucket, now: real, earned: real)
    requires Elapsed(now, b.lastRefill) * b.rps == earned
    ensures
      var before := Min(b.tokens + earned, b.burst);
      && (TryConsume(b, now).1 <==> before >= 1.0)
      && TryConsume(b, now).0.tokens == before - One(TryConsume(b, now).1) as real
  {
  }

  lemma EarnedIsGap(rps: real, t: seq<real>, n: nat, since: real)
    requires n < |t| && since == (if n == 0 then t[0] else t[n - 1]) && since <= t[n]
    ensures Elapsed(t[n], since) * rps == Gap(Income(rps, t), n)
  {
    if n > 0 {
      assert (t[n] - t[n - 1]) * rps == rps * t[n] - rps * t[n - 1];
    }
  }

  /** One arrival at the code's bucket. */
  lemma VerdictStep(rps: real, burst: real, t: seq<real>, n: nat, b: Bucket)
    requires n < |t| && Monotone(t) && b == BucketAfter(rps, burst, t, n)
    ensures
      var before := Min(b.tokens + Gap(Income(rps, t), n), burst);
      && (Verdicts(rps, burst, t)[n] <==> before >= 1.0)
      && BucketAfter(rps, burst, t, n + 1).tokens == before - One(Verdicts(rps, burst, t)[n]) as real
  {
    ArrivalStep(rps, burst, t, n, b);
    UnfoldRun(rps, burst, t, n);
  }

  lemma ArrivalStep(rps: real, burst: real, t: seq<real>, n: nat, b: Bucket)
    requires n < |t| && b.rps == rps && b.burst == burst
    requires b.lastRefill == (if n == 0 then t[0] else t[n - 1]) && b.lastRefill <= t[n]
    ensures
      var before := Min(b.tokens + Gap(Income(rps, t), n), burst);
      && (TryConsume(b, t[n]).1 <==> before >= 1.0)
      && TryConsume(b, t[n]).0.tokens == before - One(TryConsume(b, t[n]).1) as real
  {
    EarnedIsGap(rps, t, n, b.lastRefill);
    ConsumeEarned(b, t[n], Gap(Income(rps, t), n));
  }

  lemma UnfoldRun(rps: real, burst: real, t: seq<real>, n: nat)
    requires n < |t|
    ensures Verdicts(rps, burst, t)[n] == TryConsume(BucketAfter(rps, burst, t, n), t[n]).1
    ensures BucketAfter(rps, burst, t, n + 1) == TryConsume(BucketAfter(rps, burst, t, n), t[n]).0
  {
  }

  /** The bucket's tokens are the level of its own decisions. */
  lemma {:induction false} TokensAreLevel(rps: real, burst: real, t: seq<real>, n: nat)
    requires n <= |t| && Monotone(t)
    ensures BucketAfter(rps, burst, t, n).tokens == Level(burst, Income(rps, t), Verdicts(rps, burst, t), n)
  {
    if n > 0 {
      TokensAreLevel(rps, burst, t, n - 1);
      VerdictStep(rps, burst, t, n - 1, BucketAfter(rps, burst, t, n - 1));
    }
  }

  lemma IncomeMonotone(rps: real, t: seq<real>)
    requires Monotone(t) && rps >= 0.0
    ensures Monotone(Income(rps, t))
  {
    forall i, j | 0 <= i <= j < |t|
      ensures rps * t[i] <= rps * t[j]
    {
      assert rps * (t[j] - t[i]) >= 0.0;
    }
  }

  lemma {:induction false} TokensInRange(rps: real, burst: real, t: seq<real>, n: nat)
    requires n <= |t| && Monotone(t) && rps >= 0.0 && burst >= 0.0
    ensures 0.0 <= BucketAfter(rps, burst, t, n).tokens <= burst
  {
    if n > 0 {
      TokensInRange(rps, burst, t, n - 1);
      IncomeMonotone(rps, t);
      VerdictStep(rps, burst, t, n - 1, BucketAfter(rps, burst, t, n - 1));
    }
  }

  /** Between arrivals i and j at most burst + rps * (t[j] - t[i]) messages are chosen, for every i and j. */
  ghost predicate WithinRate(rps: real, burst: real, t: seq<real>, pick: seq<bool>)
    requires |pick| == |t|
  {
    forall i, j :: 0 <= i <= j < |t| ==> Count(pick, i, j + 1) as real <= burst + rps * (t[j] - t[i])
  }

  lemma WithinRateIsConforms(rps: real, burst: real, t: seq<real>, pick: seq<bool>)
    requires |pick| == |t|
    ensures WithinRate(rps, burst, t, pick) <==> Conforms(burst, Income(rps, t), pick)
  {
    var x := Income(rps, t);
    if WithinRate(rps, burst, t, pick) {
      forall i, j | 0 <= i <= j < |t|
        ensures Count(pick, i, j + 1) as real <= burst + x[j] - x[i]
      {
        WindowIncome(rps, t, i, j);
      }
    }
    if Conforms(burst, x, pick) {
      forall i, j | 0 <= i <= j < |t|
        ensures Count(pick, i, j + 1) as real <= burst + rps * (t[j] - t[i])
      {
        WindowIncome(rps, t, i, j);
      }
    }
  }

  lemma WindowIncome(rps: real, t: seq<real>, i: nat, j: nat)
    requires i < |t| && j < |t|
    ensures rps * (t[j] - t[i]) == Income(rps, t)[j] - Income(rps, t)[i]
  {
  }

  /** The rate bound: in no window does the code admit more than burst + rate * time. */
  lemma RateBound(rps: real, burst: real, t: seq<real>)
    requires Monotone(t) && rps >= 0.0 && burst >= 0.0
    ensures WithinRate(rps, burst, t, Verdicts(rps, burst, t))
  {
    var v, x := Verdicts(rps, burst, t), Income(rps, t);
    forall n | 0 <= n <= |t|
      ensures Solvent(burst, x, v, n)
    {
      TokensAreLevel(rps, burst, t, n);
      TokensInRange(rps, burst, t, n);
    }
    ConformsIffNeverNegative(burst, x, v);
    WithinRateIsConforms(rps, burst, t, v);
  }

  /** One arrival, on the two levels alone: g greedy, h any that stays above zero. */
  lemma LeadStep(burst: real, earned: real, g: real, h: real, greedy: bool, other: bool, lead: int)
    requires earned >= 0.0 && lead >= 0 && h - g <= lead as real
    requires greedy <==> Min(g + earned, burst) >= 1.0
    requires Min(h + earned, burst) - One(other) as real >= 0.0
    ensures
      var lead' := lead + One(greedy) - One(other);
      && lead' >= 0
      && (Min(h + earned, burst) - One(other) as real) - (Min(g + earned, burst) - One(greedy) as real) <= lead' as real
  {
  }

  /** Takes a token if and only if there is one. */
  predicate GreedyAt(burst: real, x: seq<real>, v: seq<bool>, n: nat)
    requires |v| == |x| && n < |x|
  {
    v[n] <==> Min(Level(burst, x, v, n) + Gap(x, n), burst) >= 1.0
  }

  ghost predicate Greedy(burst: real, x: seq<real>, v: seq<bool>)
    requires |v| == |x|
  {
    forall n :: 0 <= n < |x| ==> GreedyAt(burst, x, v, n)
  }

  /** v has admitted as many as `pick`, and more by what its level is lower. */
  predicate Leads(burst: real, x: seq<real>, v: seq<bool>, pick: seq<bool>, n: nat)
    requires |v| == |pick| == |x| && n <= |x|
  {
    var lead := Count(v, 0, n) - Count(pick, 0, n);
    lead >= 0 && Level(burst, x, pick, n) - Level(burst, x, v, n) <= lead as real
  }

  lemma StillLeads(burst: real, x: seq<real>, v: seq<bool>, pick: seq<bool>, n: nat)
    requires |v| == |pick| == |x| && n < |x| && Leads(burst, x, v, pick, n) && Gap(x, n) >= 0.0
    requires GreedyAt(burst, x, v, n) && Solvent(burst, x, pick, n + 1)
    ensures Leads(burst, x, v, pick, n + 1)
  {
    LeadStep(burst, Gap(x, n), Level(burst, x, v, n), Level(burst, x, pick, n),
             v[n], pick[n], Count(v, 0, n) - Count(pick, 0, n));
  }

  /** The greedy count leads by at least as much as the other level does. */
  lemma {:induction false} GreedyLeads(burst: real, x: seq<real>, v: seq<bool>, pick: seq<bool>, n: nat)
    requires |v| == |pick| == |x| && n <= |x| && Monotone(x)
    requires Greedy(burst, x, v) && NeverNegative(burst, x, pick)
    ensures Leads(burst, x, v, pick, n)
  {
    if n > 0 {
      GreedyLeads(burst, x, v, pick, n - 1);
      StillLeads(burst, x, v, pick, n - 1);
    }
  }

  lemma VerdictGreedyAt(rps: real, burst: real, t: seq<real>, v: seq<bool>, x: seq<real>, n: nat)
    requires n < |t| && Monotone(t) && v == Verdicts(rps, burst, t) && x == Income(rps, t)
    ensures GreedyAt(burst, x, v, n)
  {
    var b := BucketAfter(rps, burst, t, n);
    assert b.tokens == Level(burst, x, v, n) by {
      TokensAreLevel(rps, burst, t, n);
    }
    VerdictStep(rps, burst, t, n, b);
  }

  /** The code's own decisions are greedy. */
  lemma VerdictsGreedy(rps: real, burst: real, t: seq<real>)
    requires Monotone(t)
    ensures Greedy(burst, Income(rps, t), Verdicts(rps, burst, t))
  {
    var v, x := Verdicts(rps, burst, t), Income(rps, t);
    forall n | 0 <= n < |t|
      ensures GreedyAt(burst, x, v, n)
    {
      VerdictGreedyAt(rps, burst, t, v, x, n);
    }
  }

  /** Any other choice within the rate never runs out. */
  lemma WithinRateNeverNegative(rps: real, burst: real, t: seq<real>, pick: seq<bool>)
    requires |pick| == |t| && burst >= 0.0 && WithinRate(rps, burst, t, pick)
    ensures NeverNegative(burst, Income(rps, t), pick)
  {
    WithinRateIsConforms(rps, burst, t, pick);
    ConformsIffNeverNegative(burst, Income(rps, t), pick);
  }

  /**
   * Optimality: whatever arrivals are chosen, as long as every window stays within the
   * burst and the rate, the code has admitted at least as many at every point of the run.
   */
  lemma GreedyIsOptimal(rps: real, burst: real, t: seq<real>, pick: seq<bool>, n: nat)
    requires |pick| == |t| && n <= |t| && Monotone(t) && rps >= 0.0 && burst >= 0.0
    requires WithinRate(rps, burst, t, pick)
    ensures Count(Verdicts(rps, burst, t), 0, n) >= Count(pick, 0, n)
  {
    VerdictsGreedy(rps, burst, t);
    WithinRateNeverNegative(rps, burst, t, pick);
    IncomeMonotone(rps, t);
    GreedyLeads(burst, Income(rps, t), Verdicts(rps, burst, t), pick, n);
  }
}
