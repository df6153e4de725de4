/**
 * The per-stream limiter: lazily created buckets behind one map, per-stream overrides, and
 * the place of the check in the fan-out path.
 */
module RateLimiter {
  import opened TokenBucket
  import RegistryModel
  import Registry

  type Name = string

  datatype Limits = Limits(rps: real, burst: real)

  /** The limiter's fixed part. */
  datatype Config = Config(default: Limits, overrides: map<Name, Limits>)

  /** A burst of 0 means twice the rate, and at least 1. */
  function EffectiveBurst(rps: nat, burst: nat): (b: nat)
    ensures b >= 1
  {
    if burst == 0 then (if rps * 2 > 1 then rps * 2 else 1) else burst
  }

  function NewLimits(rps: nat, burst: nat): Limits {
    Limits(rps as real, EffectiveBurst(rps, burst) as real)
  }

  function NewConfig(rps: nat, burst: nat, overrides: map<Name, (nat, nat)>): Config {
    Config(NewLimits(rps, burst), map name | name in overrides :: NewLimits(overrides[name].0, overrides[name].1))
  }

  predicate IsDisabled(cfg: Config) {
    cfg.default.rps == 0.0 && !exists name :: name in cfg.overrides && cfg.overrides[name].rps > 0.0
  }

  function LimitsOf(cfg: Config, stream: Name): Limits {
    if stream in cfg.overrides then cfg.overrides[stream] else cfg.default
  }

  /** The bucket a check uses: the one in the map, or a new full one. */
  function BucketFor(cfg: Config, buckets: map<Name, Bucket>, stream: Name, now: real): Bucket {
    if stream in buckets then buckets[stream]
    else Fresh(LimitsOf(cfg, stream).rps, LimitsOf(cfg, stream).burst, now)
  }

  function CheckBuckets(cfg: Config, buckets: map<Name, Bucket>, stream: Name, now: real): map<Name, Bucket> {
    if LimitsOf(cfg, stream).rps == 0.0 then buckets
    else buckets[stream := TryConsume(BucketFor(cfg, buckets, stream, now), now).0]
  }

  predicate CheckAllows(cfg: Config, buckets: map<Name, Bucket>, stream: Name, now: real) {
    LimitsOf(cfg, stream).rps == 0.0 || TryConsume(BucketFor(cfg, buckets, stream, now), now).1
  }

  const I64_MAX: int := 0x7FFF_FFFF_FFFF_FFFF

  class StreamRateLimiter {
    const cfg: Config
    var buckets: map<Name, Bucket>

    constructor (rps: nat, burst: nat, overrides: map<Name, (nat, nat)>)
      ensures cfg == NewConfig(rps, burst, overrides) && buckets == map[]
    {
      cfg := NewConfig(rps, burst, overrides);
      buckets := map[];
    }

    /** Returns the decision and the tokens left, rounded down. */
    method Check(stream: Name, now: real) returns (allow: bool, tokens: int)
      modifies this
      ensures buckets == CheckBuckets(cfg, old(buckets), stream, now)
      ensures allow == CheckAllows(cfg, old(buckets), stream, now)
      ensures LimitsOf(cfg, stream).rps == 0.0 ==> allow && tokens == I64_MAX && buckets == old(buckets)
      ensures LimitsOf(cfg, stream).rps != 0.0 ==>
                stream in buckets && tokens as real <= buckets[stream].tokens < tokens as real + 1.0
    {
      var limits := if stream in cfg.overrides then cfg.overrides[stream] else cfg.default;
      if limits.rps == 0.0 {
        return true, I64_MAX;
      }
      var state := if stream in buckets then buckets[stream] else Fresh(limits.rps, limits.burst, now);
      var result := TryConsume(state, now);
      buckets := buckets[stream := result.0];
      allow := result.1;
      tokens := result.0.tokens.Floor;
    }
  }

  /**
   * `process_nats_message`: the check comes first; a refused message reaches nobody, and the
   * limiter, if there is one, is charged whether or not anybody is subscribed.
   */
  method ProcessMessage(registry: Registry.Registry, limiter: StreamRateLimiter?, stream: Name,
                        json: Registry.Bytes, binary: Registry.Bytes, now: real)
    returns (sent: nat, evicted: seq<RegistryModel.ConnId>)
    requires registry.Valid()
    modifies registry, limiter
    ensures registry.Valid()
    ensures limiter != null && !CheckAllows(limiter.cfg, old(limiter.buckets), stream, now) ==>
              sent == 0 && evicted == [] && registry.channels == old(registry.channels)
              && registry.Relation() == old(registry.Relation()) && registry.connections == old(registry.connections)
    ensures limiter == null || CheckAllows(limiter.cfg, old(limiter.buckets), stream, now) ==>
              && sent + |evicted| == |old(registry.Subscribers(RegistryModel.Stream(stream)))|
              && registry.channels.Keys == old(registry.channels).Keys
              && (forall c :: Registry.Listed(old(registry.streams), c, RegistryModel.Stream(stream)) ==>
                    Registry.Attempted(old(registry.channels)[c], registry.channels[c],
                                       if old(registry.connections)[c] then binary else json))
              && (forall c :: c in registry.channels &&
                              !Registry.Listed(old(registry.streams), c, RegistryModel.Stream(stream)) ==>
                    registry.channels[c] == old(registry.channels)[c])
              && registry.Relation() ==
                 old(registry.Relation()) - (iset p: (RegistryModel.ConnId, RegistryModel.Stream) | p.0 in evicted)
    ensures limiter != null ==> limiter.buckets == CheckBuckets(limiter.cfg, old(limiter.buckets), stream, now)
  {
    if limiter != null {
      var allow, _ := limiter.Check(stream, now);
      if !allow {
        return 0, [];
      }
    }
    var dropped: nat;
    sent, dropped, evicted := registry.FanoutEncoded(RegistryModel.Stream(stream), json, binary);
  }

  // ---------------------------------------------------------------------------
  // Runs over many streams
  // ---------------------------------------------------------------------------

  datatype Arrival = Arrival(stream: Name, time: real)

  function BucketsAfter(cfg: Config, arrivals: seq<Arrival>, n: nat): map<Name, Bucket>
    requires n <= |arrivals|
  {
    if n == 0 then map[]
    else CheckBuckets(cfg, BucketsAfter(cfg, arrivals, n - 1), arrivals[n - 1].stream, arrivals[n - 1].time)
  }

  predicate Allows(cfg: Config, arrivals: seq<Arrival>, i: nat)
    requires i < |arrivals|
  {
    CheckAllows(cfg, BucketsAfter(cfg, arrivals, i), arrivals[i].stream, arrivals[i].time)
  }

  /** The arrival times of one stream among the first n arrivals. */
  function OwnTimes(arrivals: seq<Arrival>, stream: Name, n: nat): (t: seq<real>)
    requires n <= |arrivals|
  {
    if n == 0 then []
    else OwnTimes(arrivals, stream, n - 1) + if arrivals[n - 1].stream == stream then [arrivals[n - 1].time] else []
  }

  lemma {:induction false} BucketAfterPrefix(rps: real, burst: real, t: seq<real>, u: seq<real>, n: nat)
    requires n <= |t| && t != [] && t <= u
    ensures BucketAfter(rps, burst, t, n) == BucketAfter(rps, burst, u, n)
  {
    if n > 0 {
      BucketAfterPrefix(rps, burst, t, u, n - 1);
    }
  }

  lemma {:induction false} OwnTimesGrow(arrivals: seq<Arrival>, stream: Name, m: nat, n: nat)
    requires m <= n <= |arrivals|
    ensures OwnTimes(arrivals, stream, m) <= OwnTimes(arrivals, stream, n)
    decreases n
  {
    if m < n {
      OwnTimesGrow(arrivals, stream, m, n - 1);
    }
  }

  /** A limited stream's bucket after n arrivals is that of a private bucket fed with its own ones. */
  ghost predicate Private(cfg: Config, arrivals: seq<Arrival>, stream: Name, n: nat)
    requires n <= |arrivals|
  {
    var t, all, l := OwnTimes(arrivals, stream, n), BucketsAfter(cfg, arrivals, n), LimitsOf(cfg, stream);
    && (stream in all <==> t != [])
    && (t != [] ==> all[stream] == BucketAfter(l.rps, l.burst, t, |t|))
  }

  /** The bucket a check on its own arrival uses. */
  lemma OwnArrival(cfg: Config, arrivals: seq<Arrival>, stream: Name, n: nat)
    requires n < |arrivals| && arrivals[n].stream == stream && Private(cfg, arrivals, stream, n)
    ensures
      var t, all, l := OwnTimes(arrivals, stream, n), BucketsAfter(cfg, arrivals, n), LimitsOf(cfg, stream);
      BucketFor(cfg, all, stream, arrivals[n].time) == BucketAfter(l.rps, l.burst, t + [arrivals[n].time], |t|)
  {
    var t, l := OwnTimes(arrivals, stream, n), LimitsOf(cfg, stream);
    if t != [] {
      BucketAfterPrefix(l.rps, l.burst, t, t + [arrivals[n].time], |t|);
    }
  }

  lemma {:induction false} PrivateBucket(cfg: Config, arrivals: seq<Arrival>, stream: Name, n: nat)
    requires n <= |arrivals| && LimitsOf(cfg, stream).rps != 0.0
    ensures Private(cfg, arrivals, stream, n)
  {
    if n > 0 {
      PrivateBucket(cfg, arrivals, stream, n - 1);
      if arrivals[n - 1].stream == stream {
        PrivateStep(cfg, arrivals, stream, n - 1);
      } else {
        assert OwnTimes(arrivals, stream, n) == OwnTimes(arrivals, stream, n - 1);
      }
    }
  }

  lemma PrivateStep(cfg: Config, arrivals: seq<Arrival>, stream: Name, n: nat)
    requires n < |arrivals| && arrivals[n].stream == stream && LimitsOf(cfg, stream).rps != 0.0
    requires Private(cfg, arrivals, stream, n)
    ensures Private(cfg, arrivals, stream, n + 1)
  {
    var t, all, l := OwnTimes(arrivals, stream, n), BucketsAfter(cfg, arrivals, n), LimitsOf(cfg, stream);
    var u := t + [arrivals[n].time];
    OwnArrival(cfg, arrivals, stream, n);
    UnfoldRun(l.rps, l.burst, u, |t|);
    assert OwnTimes(arrivals, stream, n + 1) == u;
    assert BucketsAfter(cfg, arrivals, n + 1) == all[stream := BucketAfter(l.rps, l.burst, u, |u|)];
  }

  /** Isolation: each decision on a stream is the one its private bucket makes on that stream's own arrivals. */
  lemma Isolation(cfg: Config, arrivals: seq<Arrival>, i: nat)
    requires i < |arrivals|
    ensures
      var s := arrivals[i].stream;
      var l, t, k := LimitsOf(cfg, s), OwnTimes(arrivals, s, |arrivals|), |OwnTimes(arrivals, s, i)|;
      && k < |t| && t[k] == arrivals[i].time
      && (Allows(cfg, arrivals, i) <==> l.rps == 0.0 || Verdicts(l.rps, l.burst, t)[k])
  {
    var s := arrivals[i].stream;
    OwnTimesGrow(arrivals, s, i + 1, |arrivals|);
    var own := OwnTimes(arrivals, s, i) + [arrivals[i].time];
    assert own == OwnTimes(arrivals, s, i + 1);
    if LimitsOf(cfg, s).rps != 0.0 {
      PrivateBucket(cfg, arrivals, s, i);
      IsolationStep(cfg, arrivals, s, i, OwnTimes(arrivals, s, |arrivals|));
    }
  }

  lemma IsolationStep(cfg: Config, arrivals: seq<Arrival>, s: Name, i: nat, t: seq<real>)
    requires i < |arrivals| && arrivals[i].stream == s && LimitsOf(cfg, s).rps != 0.0
    requires Private(cfg, arrivals, s, i) && OwnTimes(arrivals, s, i) + [arrivals[i].time] <= t
    ensures Allows(cfg, arrivals, i) <==>
            Verdicts(LimitsOf(cfg, s).rps, LimitsOf(cfg, s).burst, t)[|OwnTimes(arrivals, s, i)|]
  {
    var l, own := LimitsOf(cfg, s), OwnTimes(arrivals, s, i);
    OwnArrival(cfg, arrivals, s, i);
    BucketAfterPrefix(l.rps, l.burst, own + [arrivals[i].time], t, |own|);
    UnfoldRun(l.rps, l.burst, t, |own|);
    assert t[|own|] == (own + [arrivals[i].time])[|own|];
  }

  /** Time does not run backwards. */
  predicate InOrder(arrivals: seq<Arrival>) {
    forall i, j :: 0 <= i <= j < |arrivals| ==> arrivals[i].time <= arrivals[j].time
  }

  lemma {:induction false} OwnTimesMonotone(arrivals: seq<Arrival>, s: Name, n: nat)
    requires n <= |arrivals| && InOrder(arrivals)
    ensures Monotone(OwnTimes(arrivals, s, n))
    ensures forall k :: 0 <= k < |OwnTimes(arrivals, s, n)| && n > 0 ==>
              OwnTimes(arrivals, s, n)[k] <= arrivals[n - 1].time
  {
    if n > 0 {
      OwnTimesMonotone(arrivals, s, n - 1);
    }
  }

  /** How many messages of s the limiter lets through among arrivals i to j, j excluded. */
  ghost function Admitted(cfg: Config, arrivals: seq<Arrival>, s: Name, i: nat, j: nat): nat
    requires i <= j <= |arrivals|
    decreases j
  {
    if i == j then 0
    else
      Admitted(cfg, arrivals, s, i, j - 1) +
      if arrivals[j - 1].stream == s && Allows(cfg, arrivals, j - 1) then 1 else 0
  }

  /** v holds the limiter's decisions on s, in the order of its arrivals. */
  ghost predicate Decides(cfg: Config, arrivals: seq<Arrival>, s: Name, v: seq<bool>) {
    && |v| == |OwnTimes(arrivals, s, |arrivals|)|
    && (forall k :: 0 <= k < |arrivals| && arrivals[k].stream == s ==>
          var n := |OwnTimes(arrivals, s, k)|;
          n < |v| && (Allows(cfg, arrivals, k) <==> v[n]))
  }

  lemma {:induction false} AdmittedCounts(cfg: Config, arrivals: seq<Arrival>, s: Name, v: seq<bool>, i: nat, j: nat)
    requires i <= j <= |arrivals| && Decides(cfg, arrivals, s, v)
    ensures
      var a, b := |OwnTimes(arrivals, s, i)|, |OwnTimes(arrivals, s, j)|;
      a <= b <= |v| && Admitted(cfg, arrivals, s, i, j) == Count(v, a, b)
    decreases j
  {
    OwnTimesGrow(arrivals, s, i, j);
    OwnTimesGrow(arrivals, s, j, |arrivals|);
    if i < j {
      AdmittedCounts(cfg, arrivals, s, v, i, j - 1);
    }
  }

  /** What a limited stream is admitted is what its private bucket decides. */
  lemma AdmittedIsCount(cfg: Config, arrivals: seq<Arrival>, s: Name, i: nat, j: nat)
    requires i <= j <= |arrivals| && LimitsOf(cfg, s).rps != 0.0
    ensures
      var l, t := LimitsOf(cfg, s), OwnTimes(arrivals, s, |arrivals|);
      var a, b := |OwnTimes(arrivals, s, i)|, |OwnTimes(arrivals, s, j)|;
      a <= b <= |t| && Admitted(cfg, arrivals, s, i, j) == Count(Verdicts(l.rps, l.burst, t), a, b)
  {
    var l, t := LimitsOf(cfg, s), OwnTimes(arrivals, s, |arrivals|);
    var v := Verdicts(l.rps, l.burst, t);
    forall k | 0 <= k < |arrivals| && arrivals[k].stream == s
      ensures |OwnTimes(arrivals, s, k)| < |v| && (Allows(cfg, arrivals, k) <==> v[|OwnTimes(arrivals, s, k)|])
    {
      Isolation(cfg, arrivals, k);
    }
    AdmittedCounts(cfg, arrivals, s, v, i, j);
  }

  /** Own arrivals from i on are no earlier than i. */
  lemma {:induction false} OwnTimesFrom(arrivals: seq<Arrival>, s: Name, i: nat, n: nat, k: nat)
    requires i < |arrivals| && i <= n <= |arrivals| && InOrder(arrivals)
    requires |OwnTimes(arrivals, s, i)| <= k < |OwnTimes(arrivals, s, n)|
    ensures OwnTimes(arrivals, s, n)[k] >= arrivals[i].time
    decreases n
  {
    if i < n && k < |OwnTimes(arrivals, s, n - 1)| {
      OwnTimesFrom(arrivals, s, i, n - 1, k);
    }
  }

  /** Own arrivals up to j are no later than j. */
  lemma {:induction false} OwnTimesUpTo(arrivals: seq<Arrival>, s: Name, j: nat, n: nat, k: nat)
    requires j < n <= |arrivals| && k < |OwnTimes(arrivals, s, j + 1)| && InOrder(arrivals)
    ensures k < |OwnTimes(arrivals, s, n)| && OwnTimes(arrivals, s, n)[k] <= arrivals[j].time
    decreases n
  {
    if j + 1 < n {
      OwnTimesUpTo(arrivals, s, j, n - 1, k);
    } else {
      OwnTimesMonotone(arrivals, s, n);
    }
  }

  /** What a limit allows in a window of this length. */
  function Allowance(l: Limits, span: real): real {
    l.burst + l.rps * span
  }

  /** Longer windows allow more, and any window at least the burst. */
  lemma AllowanceGrows(l: Limits, short: real, long: real)
    requires l.rps >= 0.0 && 0.0 <= short <= long
    ensures l.burst <= Allowance(l, short) <= Allowance(l, long)
  {
    Earned(l.rps, 0.0, short);
    Earned(l.rps, short, long);
  }

  lemma WithinAllowance(l: Limits, t: seq<real>, pick: seq<bool>, a: nat, b: nat)
    requires |pick| == |t| && WithinRate(l.rps, l.burst, t, pick) && a < b <= |t|
    ensures Count(pick, a, b) as real <= Allowance(l, t[b - 1] - t[a])
  {
    var last := b - 1;
    assert Count(pick, a, last + 1) as real <= l.burst + l.rps * (t[last] - t[a]);
  }

  lemma WindowBound(l: Limits, t: seq<real>, a: nat, b: nat)
    requires Monotone(t) && l.rps >= 0.0 && l.burst >= 0.0 && a < b <= |t|
    ensures Count(Verdicts(l.rps, l.burst, t), a, b) as real <= Allowance(l, t[b - 1] - t[a])
  {
    RateBound(l.rps, l.burst, t);
    WithinAllowance(l, t, Verdicts(l.rps, l.burst, t), a, b);
  }

  lemma LongerWindowBound(l: Limits, t: seq<real>, a: nat, b: nat, span: real)
    requires Monotone(t) && l.rps >= 0.0 && l.burst >= 0.0 && a < b <= |t| && t[b - 1] - t[a] <= span
    ensures Count(Verdicts(l.rps, l.burst, t), a, b) as real <= Allowance(l, span)
  {
    WindowBound(l, t, a, b);
    AllowanceGrows(l, t[b - 1] - t[a], span);
  }

  /** a and b delimit the own arrivals, among t, that fall into a window of this length. */
  predicate Spans(t: seq<real>, a: nat, b: nat, span: real) {
    Monotone(t) && a <= b <= |t| && span >= 0.0 && (a < b ==> t[b - 1] - t[a] <= span)
  }

  lemma OwnSpan(arrivals: seq<Arrival>, s: Name, i: nat, j: nat)
    requires InOrder(arrivals) && i <= j < |arrivals|
    ensures Spans(OwnTimes(arrivals, s, |arrivals|), |OwnTimes(arrivals, s, i)|, |OwnTimes(arrivals, s, j + 1)|,
                  arrivals[j].time - arrivals[i].time)
  {
    var a, b := |OwnTimes(arrivals, s, i)|, |OwnTimes(arrivals, s, j + 1)|;
    OwnTimesMonotone(arrivals, s, |arrivals|);
    OwnTimesGrow(arrivals, s, i, j + 1);
    OwnTimesGrow(arrivals, s, j + 1, |arrivals|);
    if a < b {
      OwnTimesUpTo(arrivals, s, j, |arrivals|, b - 1);
      OwnTimesFrom(arrivals, s, i, |arrivals|, a);
    }
  }

  lemma VerdictsBound(l: Limits, t: seq<real>, a: nat, b: nat, span: real)
    requires Spans(t, a, b, span) && l.rps >= 0.0 && l.burst >= 0.0
    ensures Count(Verdicts(l.rps, l.burst, t), a, b) as real <= Allowance(l, span)
  {
    if a < b {
      LongerWindowBound(l, t, a, b, span);
    } else {
      AllowanceGrows(l, 0.0, span);
    }
  }

  lemma AdmittedBound(cfg: Config, arrivals: seq<Arrival>, s: Name, i: nat, j: nat, span: real)
    requires i <= j <= |arrivals| && LimitsOf(cfg, s).rps > 0.0 && LimitsOf(cfg, s).burst >= 0.0
    requires Spans(OwnTimes(arrivals, s, |arrivals|), |OwnTimes(arrivals, s, i)|, |OwnTimes(arrivals, s, j)|, span)
    ensures Admitted(cfg, arrivals, s, i, j) as real <= Allowance(LimitsOf(cfg, s), span)
  {
    AdmittedIsCount(cfg, arrivals, s, i, j);
    VerdictsBound(LimitsOf(cfg, s), OwnTimes(arrivals, s, |arrivals|), |OwnTimes(arrivals, s, i)|,
                  |OwnTimes(arrivals, s, j)|, span);
  }

  /** The rate and burst asked for on s: its override, or the default. */
  function AskedFor(rps: nat, burst: nat, overrides: map<Name, (nat, nat)>, s: Name): (nat, nat) {
    if s in overrides then overrides[s] else (rps, burst)
  }

  /** In terms of the arguments: a limited stream has the rate asked for, and a burst of twice that if none is. */
  lemma LimitsMean(rps: nat, burst: nat, overrides: map<Name, (nat, nat)>, s: Name)
    ensures
      var l, (r, b) := LimitsOf(NewConfig(rps, burst, overrides), s), AskedFor(rps, burst, overrides, s);
      && l.rps == r as real && l.burst >= 1.0
      && (b > 0 ==> l.burst == b as real)
      && (b == 0 && r > 0 ==> l.burst == (2 * r) as real)
  {
  }

  /** What the arguments allow on a stream in a window of this length. */
  function MostIn(asked: (nat, nat), span: real): real {
    (if asked.1 == 0 then 2 * asked.0 else asked.1) as real + asked.0 as real * span
  }

  lemma AllowanceMeans(rps: nat, burst: nat, overrides: map<Name, (nat, nat)>, s: Name, span: real)
    requires AskedFor(rps, burst, overrides, s).0 > 0
    ensures Allowance(LimitsOf(NewConfig(rps, burst, overrides), s), span) ==
            MostIn(AskedFor(rps, burst, overrides, s), span)
  {
    LimitsMean(rps, burst, overrides, s);
  }

  lemma AdmittedWithin(cfg: Config, l: Limits, arrivals: seq<Arrival>, s: Name, i: nat, j: nat, span: real)
    requires InOrder(arrivals) && i <= j < |arrivals| && span == arrivals[j].time - arrivals[i].time
    requires l == LimitsOf(cfg, s) && l.rps > 0.0 && l.burst >= 0.0
    ensures Admitted(cfg, arrivals, s, i, j + 1) as real <= Allowance(l, span)
  {
    OwnSpan(arrivals, s, i, j);
    AdmittedBound(cfg, arrivals, s, i, j + 1, span);
  }

  /**
   * Whatever the other streams do, between any two arrivals the limiter admits of a limited stream at
   * most its burst, twice the rate if none was asked for, plus its rate times the time between them.
   */
  lemma RateBoundPerStream(rps: nat, burst: nat, overrides: map<Name, (nat, nat)>, arrivals: seq<Arrival>, s: Name,
                           i: nat, j: nat)
    requires InOrder(arrivals) && i <= j < |arrivals| && AskedFor(rps, burst, overrides, s).0 > 0
    ensures Admitted(NewConfig(rps, burst, overrides), arrivals, s, i, j + 1) as real <=
            MostIn(AskedFor(rps, burst, overrides, s), arrivals[j].time - arrivals[i].time)
  {
    var cfg, span := NewConfig(rps, burst, overrides), arrivals[j].time - arrivals[i].time;
    LimitsMean(rps, burst, overrides, s);
    AllowanceMeans(rps, burst, overrides, s, span);
    AdmittedWithin(cfg, LimitsOf(cfg, s), arrivals, s, i, j, span);
  }

  /**
   * And no less than it may: whichever of a limited stream's arrivals are chosen, as long as every window keeps
   * to that burst and rate, the limiter has admitted at least as many at every point of the run.
   */
  lemma OptimalPerStream(rps: nat, burst: nat, overrides: map<Name, (nat, nat)>, arrivals: seq<Arrival>, s: Name,
                         pick: seq<bool>, j: nat)
    requires InOrder(arrivals) && j <= |arrivals| && AskedFor(rps, burst, overrides, s).0 > 0
    requires
      var (r, b), t := AskedFor(rps, burst, overrides, s), OwnTimes(arrivals, s, |arrivals|);
      |pick| == |t| && WithinRate(r as real, (if b == 0 then 2 * r else b) as real, t, pick)
    ensures
      var n := |OwnTimes(arrivals, s, j)|;
      n <= |pick| && Admitted(NewConfig(rps, burst, overrides), arrivals, s, 0, j) >= Count(pick, 0, n)
  {
    var cfg, t := NewConfig(rps, burst, overrides), OwnTimes(arrivals, s, |arrivals|);
    LimitsMean(rps, burst, overrides, s);
    OwnTimesMonotone(arrivals, s, |arrivals|);
    AdmittedIsCount(cfg, arrivals, s, 0, j);
    GreedyIsOptimal(LimitsOf(cfg, s).rps, LimitsOf(cfg, s).burst, t, pick, |OwnTimes(arrivals, s, j)|);
  }

  lemma Earned(rps: real, short: real, long: real)
    requires rps >= 0.0 && short <= long
    ensures rps * short <= rps * long
  {
    assert rps * (long - short) >= 0.0;
  }

  lemma {:induction false} UnlimitedAdmits(cfg: Config, arrivals: seq<Arrival>, s: Name, i: nat, j: nat)
    requires i <= j <= |arrivals| && LimitsOf(cfg, s).rps == 0.0
    ensures Admitted(cfg, arrivals, s, i, j) == |OwnTimes(arrivals, s, j)| - |OwnTimes(arrivals, s, i)|
    decreases j
  {
    if i < j {
      UnlimitedAdmits(cfg, arrivals, s, i, j - 1);
    }
  }

  /** A stream with a rate of 0 is admitted whole. */
  lemma UnlimitedAdmitsAll(rps: nat, burst: nat, overrides: map<Name, (nat, nat)>, arrivals: seq<Arrival>, s: Name,
                           i: nat, j: nat)
    requires i <= j <= |arrivals| && AskedFor(rps, burst, overrides, s).0 == 0
    ensures Admitted(NewConfig(rps, burst, overrides), arrivals, s, i, j) ==
            |OwnTimes(arrivals, s, j)| - |OwnTimes(arrivals, s, i)|
  {
    LimitsMean(rps, burst, overrides, s);
    UnlimitedAdmits(NewConfig(rps, burst, overrides), arrivals, s, i, j);
  }

  // ---------------------------------------------------------------------------
  // A disabled limiter
  // ---------------------------------------------------------------------------

  /** No run is ever limited. */
  ghost predicate Transparent(cfg: Config) {
    forall arrivals: seq<Arrival>, i :: 0 <= i < |arrivals| ==> Allows(cfg, arrivals, i)
  }

  lemma {:induction false} DrainTogether(rps: real, burst: nat, t: seq<real>, n: nat)
    requires n <= burst && n <= |t| && forall i :: 0 <= i < |t| ==> t[i] == 0.0
    ensures BucketAfter(rps, burst as real, t, n).tokens == (burst - n) as real
  {
    if n > 0 {
      DrainTogether(rps, burst, t, n - 1);
    }
  }

  lemma {:induction false} AllOwn(arrivals: seq<Arrival>, s: Name, n: nat)
    requires n <= |arrivals| && forall i :: 0 <= i < |arrivals| ==> arrivals[i] == Arrival(s, 0.0)
    ensures OwnTimes(arrivals, s, n) == seq(n, _ => 0.0)
  {
    if n > 0 {
      AllOwn(arrivals, s, n - 1);
    }
  }

  /** A limited stream drops the message after a full burst at one instant. */
  lemma BurstThenDrop(cfg: Config, s: Name, burst: nat)
    requires LimitsOf(cfg, s).rps > 0.0 && LimitsOf(cfg, s).burst == burst as real
    ensures !Transparent(cfg)
  {
    var arrivals := seq(burst + 1, _ => Arrival(s, 0.0));
    var t := OwnTimes(arrivals, s, |arrivals|);
    AllOwn(arrivals, s, |arrivals|);
    AllOwn(arrivals, s, burst);
    DrainTogether(LimitsOf(cfg, s).rps, burst, t, burst);
    Isolation(cfg, arrivals, burst);
    assert !Allows(cfg, arrivals, burst);
  }

  lemma LongerThanAll(names: set<Name>) returns (s: Name)
    ensures s !in names && forall z :: z in names ==> |z| < |s|
  {
    if names == {} {
      s := "a";
    } else {
      var z :| z in names;
      var rest := LongerThanAll(names - {z});
      s := if |z| < |rest| then rest else z + "a";
    }
  }

  /** A limiter reported disabled behaves like having none, and no other limiter does. */
  lemma DisabledIffTransparent(rps: nat, burst: nat, overrides: map<Name, (nat, nat)>)
    ensures IsDisabled(NewConfig(rps, burst, overrides)) <==> Transparent(NewConfig(rps, burst, overrides))
  {
    var cfg := NewConfig(rps, burst, overrides);
    if IsDisabled(cfg) {
      forall arrivals: seq<Arrival>, i | 0 <= i < |arrivals|
        ensures Allows(cfg, arrivals, i)
      {
        assert LimitsOf(cfg, arrivals[i].stream).rps == 0.0;
      }
    } else if name :| name in cfg.overrides && cfg.overrides[name].rps > 0.0 {
      BurstThenDrop(cfg, name, EffectiveBurst(overrides[name].0, overrides[name].1));
    } else {
      var name := LongerThanAll(cfg.overrides.Keys);
      BurstThenDrop(cfg, name, EffectiveBurst(rps, burst));
    }
  }
}
