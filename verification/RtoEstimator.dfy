/** The retransmission timeout: RTT smoothing, limits and backoff (section 2 of RFC 6298).

    Durations are whole nanoseconds. The class computes with 64-bit integers, so its
    verification includes that no intermediate value overflows; the functions are the same
    quantities over the integers. */
module RtoEstimator {
  import opened Basics

  newtype Duration = d: int | -0x8000_0000_0000_0000 <= d < 0x8000_0000_0000_0000

  const SYN_RETRY_TIMEOUT: nat := 3_000_000_000

  datatype Config = Config(adaptive: bool, backoff: bool, initial: nat, minimum: nat, maximum: nat)

  ghost predicate ValidConfig(c: Config) {
    0 < c.minimum <= c.initial <= c.maximum <= MAX_INT64
  }

  datatype State = State(latest: nat, smoothed: nat, variation: nat, base: nat, current: nat, samples: nat)

  function Init(c: Config): State {
    State(0, 0, 0, c.initial, c.initial, 0)
  }

  // ---------- The estimator over the integers ----------

  /** The weighted mean, rounded down. */
  function Mean(previous: nat, sample: nat, weight: nat): int
    requires weight > 0
  {
    (weight * previous - previous + sample) / weight
  }

  /** RTO = SRTT + max(G, 4 * RTTVAR), within the limits; the clock granularity G is 1 ns. */
  function Timeout(c: Config, smoothed: nat, variation: nat): int {
    Clamp(smoothed + Max(1, 4 * variation), c.minimum, c.maximum)
  }

  function Distance(a: nat, b: nat): nat {
    if a < b then b - a else a - b
  }

  function SmoothedRTT(samples: nat, smoothed: nat, sample: nat): nat {
    if samples == 0 then sample else Max(0, Mean(smoothed, sample, 8))
  }

  function Variation(samples: nat, variation: nat, smoothed: nat, sample: nat): nat {
    if samples == 0 then sample / 2 else Max(0, Mean(variation, Distance(smoothed, sample), 4))
  }

  function Observed(c: Config, s: State, sample: nat): State
    requires ValidConfig(c)
  {
    var variation := Variation(s.samples, s.variation, s.smoothed, sample);
    var smoothed := SmoothedRTT(s.samples, s.smoothed, sample);
    var base := if c.adaptive then Timeout(c, smoothed, variation) else c.initial;
    State(sample, smoothed, variation, base, base, s.samples + 1)
  }

  function BackedOff(c: Config, s: State): State {
    if c.backoff then s.(current := Min(c.maximum, 2 * s.current)) else s
  }

  function AfterSYNRetry(c: Config, s: State): State {
    if c.adaptive then s.(current := Max(s.current, Min(SYN_RETRY_TIMEOUT, c.maximum))) else s
  }

  // ---------- Every run of the estimator ----------

  datatype Event = Sample(rtt: nat) | DataTimeout | HandshakeRetried

  ghost predicate InRange(c: Config, s: State) {
    && c.minimum <= s.base <= c.maximum
    && c.minimum <= s.current <= c.maximum
    && s.smoothed <= MAX_INT64 && s.variation <= MAX_INT64 && s.latest <= MAX_INT64
  }

  function Step(c: Config, s: State, e: Event): State
    requires ValidConfig(c)
  {
    match e
    case Sample(rtt) => if rtt <= MAX_INT64 then Observed(c, s, rtt) else s
    case DataTimeout => BackedOff(c, s)
    case HandshakeRetried => AfterSYNRetry(c, s)
  }

  function Run(c: Config, events: seq<Event>): State
    requires ValidConfig(c)
    decreases |events|
  {
    if events == [] then Init(c) else Step(c, Run(c, events[..|events| - 1]), events[|events| - 1])
  }

  lemma QuotientUnique(a: int, w: nat, q: int)
    requires w > 0 && w * q <= a < w * q + w
    ensures a / w == q
  {
    var d := a / w;
    assert a == w * d + a % w;
    Grows(w, d + 1, q);
    Grows(w, q + 1, d);
  }

  lemma Grows(w: nat, a: int, b: int)
    ensures a <= b ==> w * a <= w * b
  {
  }

  /** Moving by the rounded-down share of the change is the rounded-down weighted mean. */
  lemma MeanByChange(previous: nat, sample: nat, weight: nat)
    requires weight > 0
    ensures Mean(previous, sample, weight) == previous + (sample - previous) / weight
  {
    var change := sample - previous;
    var q := change / weight;
    assert change == weight * q + change % weight;
    assert weight * (previous + q) == weight * previous + weight * q;
    QuotientUnique(weight * previous + change, weight, previous + q);
  }

  lemma MeanBetween(previous: nat, sample: nat, weight: nat)
    requires weight > 0
    ensures Min(previous, sample) <= Mean(previous, sample, weight) <= Max(previous, sample)
  {
    MeanByChange(previous, sample, weight);
    ShareBounded(sample - previous, weight);
  }

  lemma ShareBounded(change: int, weight: nat)
    requires weight > 0
    ensures Min(0, change) <= change / weight <= Max(0, change)
  {
    var q, r := change / weight, change % weight;
    assert change == weight * q + r;
    Scaled(weight, q);
    Scaled(weight, q + 1);
    assert weight * (q + 1) == weight * q + weight;
  }

  lemma Scaled(weight: nat, x: int)
    requires weight > 0
    ensures x >= 0 ==> weight * x >= x
    ensures x <= 0 ==> weight * x <= x
  {
    assert weight * x == (weight - 1) * x + x;
  }

  /** In every run the effective timeout stays within the configured limits, and a new
      sample always removes earlier backoff. */
  lemma {:induction false} RunInRange(c: Config, events: seq<Event>)
    requires ValidConfig(c)
    ensures InRange(c, Run(c, events))
    ensures events != [] && events[|events| - 1].Sample? && events[|events| - 1].rtt <= MAX_INT64 ==>
      Run(c, events).current == Run(c, events).base
    decreases |events|
  {
    if events != [] {
      var before := Run(c, events[..|events| - 1]);
      RunInRange(c, events[..|events| - 1]);
      var e := events[|events| - 1];
      if e.Sample? && e.rtt <= MAX_INT64 {
        ObservedInRange(c, before, e.rtt);
      }
    }
  }

  lemma ObservedInRange(c: Config, s: State, rtt: nat)
    requires ValidConfig(c) && InRange(c, s) && rtt <= MAX_INT64
    ensures InRange(c, Observed(c, s, rtt))
    ensures s.samples > 0 ==>
      && 0 <= Mean(s.variation, Distance(s.smoothed, rtt), 4) <= MAX_INT64
      && 0 <= Mean(s.smoothed, rtt, 8) <= MAX_INT64
  {
    MeanBetween(s.variation, Distance(s.smoothed, rtt), 4);
    MeanBetween(s.smoothed, rtt, 8);
    hide Mean;
  }

  function Doubled(n: nat, times: nat): nat {
    if times == 0 then n else 2 * Doubled(n, times - 1)
  }

  function BackedOffTimes(c: Config, s: State, times: nat): State {
    if times == 0 then s else BackedOff(c, BackedOffTimes(c, s, times - 1))
  }

  /** Consecutive timeouts double the wait until it saturates at the maximum. */
  lemma {:induction false} BackoffDoubles(c: Config, s: State, times: nat)
    requires c.backoff && InRange(c, s)
    ensures BackedOffTimes(c, s, times) == s.(current := Min(c.maximum, Doubled(s.current, times)))
    decreases times
  {
    if times > 0 {
      BackoffDoubles(c, s, times - 1);
    }
  }

  lemma MeanFloor(previous: nat, sample: nat, weight: nat)
    requires weight > 0
    ensures var m := Mean(previous, sample, weight);
      weight * m <= weight * previous - previous + sample < weight * m + weight
  {
    var a := weight * previous - previous + sample;
    assert a == weight * (a / weight) + a % weight;
  }

  /** Section 2.2 and 2.3 of RFC 6298 in whole nanoseconds: the first sample R gives the mean R and
      the deviation R/2; a later one moves the mean by an eighth and the deviation by a quarter,
      the deviation measured against the mean before it moves. */
  lemma SampleRule(c: Config, s: State, rtt: nat)
    requires ValidConfig(c) && InRange(c, s) && rtt <= MAX_INT64
    ensures var t := Step(c, s, Sample(rtt)); var distance := if s.smoothed < rtt then rtt - s.smoothed else s.smoothed - rtt;
      && t.samples == s.samples + 1 && t.latest == rtt
      && (if s.samples == 0 then t.smoothed == rtt && 2 * t.variation <= rtt < 2 * t.variation + 2
          else
            && 8 * t.smoothed <= 7 * s.smoothed + rtt < 8 * t.smoothed + 8
            && 4 * t.variation <= 3 * s.variation + distance < 4 * t.variation + 4)
      && t.current == t.base
      && (!c.adaptive ==> t.base == c.initial)
      && (c.adaptive ==>
            var raw := t.smoothed + (if 4 * t.variation > 1 then 4 * t.variation else 1);
            t.base == if raw < c.minimum then c.minimum else if raw > c.maximum then c.maximum else raw)
  {
    ObservedInRange(c, s, rtt);
    MeanFloor(s.smoothed, rtt, 8);
    MeanFloor(s.variation, Distance(s.smoothed, rtt), 4);
    hide Mean;
  }

  /** A handshake that needed a retry leaves an adaptive timeout of at least three seconds, or the
      maximum if that is less, and never lowers it. */
  lemma HandshakeRule(c: Config, s: State)
    requires ValidConfig(c)
    ensures var t := Step(c, s, HandshakeRetried); var floor := if c.maximum < 3_000_000_000 then c.maximum else 3_000_000_000;
      t == s.(current := if c.adaptive && s.current < floor then floor else s.current)
  {
  }

  /** A constant RTT keeps the mean, and the deviation falls by a quarter with every sample. */
  lemma ConstantRTT(c: Config, s: State, rtt: nat)
    requires ValidConfig(c) && InRange(c, s) && rtt <= MAX_INT64 && s.samples > 0 && s.smoothed == rtt
    ensures var t := Step(c, s, Sample(rtt)); t.smoothed == rtt && 4 * t.variation <= 3 * s.variation < 4 * t.variation + 4
  {
    SampleRule(c, s, rtt);
    hide Mean, Step;
  }

  // ---------- The estimator in 64-bit arithmetic ----------

  /** Go's integer division: toward zero. */
  function Quotient(a: Duration, b: Duration): (q: Duration)
    requires b > 1 && a > -0x8000_0000_0000_0000
    ensures a >= 0 ==> q as int == a as int / b as int
    ensures a < 0 ==> q as int == -((-(a as int)) / b as int)
  {
    ShareBounded(if a >= 0 then a as int else -(a as int), b as int);
    if a >= 0 then a / b else -((-a) / b)
  }

  /** Go's remainder: the sign of the dividend. */
  function Remainder(a: Duration, b: Duration): (r: Duration)
    requires b > 1 && a > -0x8000_0000_0000_0000
    ensures a >= 0 ==> r as int == a as int % b as int
    ensures a < 0 ==> r as int == -((-(a as int)) % b as int)
  {
    if a >= 0 then a % b else -((-a) % b)
  }

  /** Truncation corrected by one below zero is the floor. */
  lemma FloorOfQuotient(a: int, b: nat)
    requires b > 1
    ensures a < 0 ==> a / b == -((-a) / b) - (if (-a) % b != 0 then 1 else 0)
  {
    if a < 0 {
      var q, r := (-a) / b, (-a) % b;
      assert -a == b * q + r;
      if r == 0 {
        assert b * (-q) == -(b * q);
        QuotientUnique(a, b, -q);
      } else {
        assert b * (-q - 1) == -(b * q) - b;
        QuotientUnique(a, b, -q - 1);
      }
    }
  }

  class Estimator {
    const config: Config
    var latestRTT: Duration
    var smoothedRTT: Duration
    var rttVariation: Duration
    var baseRTO: Duration
    var currentRTO: Duration
    var samples: nat

    ghost predicate Valid()
      reads this
    {
      ValidConfig(config) && smoothedRTT >= 0 && rttVariation >= 0 && latestRTT >= 0
      && InRange(config, Value())
    }

    ghost function Value(): State
      reads this
    {
      State(Max(0, latestRTT as int), Max(0, smoothedRTT as int), Max(0, rttVariation as int),
            Max(0, baseRTO as int), Max(0, currentRTO as int), samples)
    }

    constructor (config: Config)
      requires ValidConfig(config)
      ensures Valid() && this.config == config && Value() == Init(config)
    {
      this.config := config;
      latestRTT, smoothedRTT, rttVariation, samples := 0, 0, 0, 0;
      baseRTO, currentRTO := config.initial as Duration, config.initial as Duration;
    }

    /** Adds the floored share of the difference, so no product of both terms is ever formed. */
    static method SmoothDuration(previous: Duration, sample: Duration, weight: Duration) returns (r: Duration)
      requires previous >= 0 && sample >= 0 && weight > 1
      ensures r >= 0 && r as int == Mean(previous as int, sample as int, weight as int)
    {
      var change := sample - previous;
      var weightedChange := Quotient(change, weight);
      if change < 0 && Remainder(change, weight) != 0 {
        weightedChange := weightedChange - 1;
      }
      FloorOfQuotient(change as int, weight as int);
      MeanByChange(previous as int, sample as int, weight as int);
      ShareBounded(change as int, weight as int);
      r := previous + weightedChange;
    }

    method MeasuredTimeout() returns (r: Duration)
      requires ValidConfig(config) && smoothedRTT >= 0 && rttVariation >= 0
      ensures r as int == Timeout(config, smoothedRTT as int, rttVariation as int)
    {
      var maximum := config.maximum as Duration;
      if rttVariation > maximum / 4 {
        return maximum;
      }
      var margin := if 4 * rttVariation > 1 then 4 * rttVariation else 1;
      if smoothedRTT >= maximum || margin >= maximum - smoothedRTT {
        return maximum;
      }
      var minimum := config.minimum as Duration;
      return if smoothedRTT + margin > minimum then smoothedRTT + margin else minimum;
    }

    method ObserveRTT(sample: Duration)
      requires Valid() && sample >= 0
      modifies this
      ensures Valid() && Value() == Observed(config, old(Value()), sample as int)
      ensures old(samples) == 0 ==> smoothedRTT == sample && rttVariation == sample / 2
      ensures old(samples) > 0 ==>
                && 8 * smoothedRTT as int <= 7 * old(smoothedRTT) as int + sample as int < 8 * smoothedRTT as int + 8
                && 4 * rttVariation as int <= 3 * old(rttVariation) as int + Distance(old(smoothedRTT) as int, sample as int)
                   < 4 * rttVariation as int + 4
      ensures latestRTT == sample && samples == old(samples) + 1 && currentRTO == baseRTO
    {
      ObservedInRange(config, Value(), sample as int);
      MeanFloor(Value().smoothed, sample as int, 8);
      MeanFloor(Value().variation, Distance(Value().smoothed, sample as int), 4);
      hide Mean, Timeout;
      UpdateMeans(sample);
      latestRTT := sample;
      samples := samples + 1;
      baseRTO := config.initial as Duration;
      if config.adaptive {
        baseRTO := MeasuredTimeout();
      }
      currentRTO := baseRTO;
    }

    /** The smoothed mean and deviation, rounded as the source rounds them. */
    method UpdateMeans(sample: Duration)
      requires smoothedRTT >= 0 && rttVariation >= 0 && sample >= 0
      modifies this`smoothedRTT, this`rttVariation
      ensures smoothedRTT >= 0 && rttVariation >= 0
      ensures smoothedRTT as int == SmoothedRTT(old(samples), old(smoothedRTT) as int, sample as int)
      ensures rttVariation as int == Variation(old(samples), old(rttVariation) as int, old(smoothedRTT) as int, sample as int)
    {
      if samples == 0 {
        smoothedRTT := sample;
        rttVariation := sample / 2;
      } else {
        var difference := smoothedRTT - sample;
        if difference < 0 {
          difference := -difference;
        }
        rttVariation := SmoothDuration(rttVariation, difference, 4);
        smoothedRTT := SmoothDuration(smoothedRTT, sample, 8);
      }
    }

    method BackOff()
      requires Valid()
      modifies this
      ensures Valid() && Value() == BackedOff(config, old(Value()))
    {
      if !config.backoff {
        return;
      }
      var maximum := config.maximum as Duration;
      if currentRTO >= maximum - currentRTO {
        currentRTO := maximum;
        return;
      }
      currentRTO := currentRTO * 2;
    }

    method ConservativeAfterSYNRetry()
      requires Valid()
      modifies this
      ensures Valid() && Value() == AfterSYNRetry(config, old(Value()))
    {
      if !config.adaptive {
        return;
      }
      var conservative := Min(SYN_RETRY_TIMEOUT, config.maximum) as Duration;
      if currentRTO < conservative {
        currentRTO := conservative;
      }
    }
  }
}
