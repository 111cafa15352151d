/** The arithmetic the estimator does on power samples: sums, the idle mean,
    the maximum, and the two energy integrals (p_est.py:82-86, 101-108, 123-126).
    Powers are in milliwatts, times in seconds, energies in milliwatt-seconds. */
module Accounting {
  import opened Seqs

  function Sum(xs: seq<real>): real
    decreases |xs|
  {
    if xs == [] then 0.0 else Sum(xs[..|xs| - 1]) + xs[|xs| - 1]
  }

  /** Arithmetic mean (the reference definition the idle baseline is held to). */
  function Mean(xs: seq<real>): real
    requires |xs| > 0
  {
    Sum(xs) / |xs| as real
  }

  /** Python's `max` on a non-empty list. */
  function Max(xs: seq<real>): (m: real)
    requires |xs| > 0
    ensures m in xs
    ensures forall k :: 0 <= k < |xs| ==> xs[k] <= m
    decreases |xs|
  {
    if |xs| == 1 then xs[0]
    else
      var init := xs[..|xs| - 1];
      var m := Max(init);
      assert forall k :: 0 <= k < |xs| - 1 ==> xs[k] == init[k];
      if xs[|xs| - 1] > m then xs[|xs| - 1] else m
  }

  lemma {:induction false} SumOfConstant(xs: seq<real>, p: real)
    requires forall k :: 0 <= k < |xs| ==> xs[k] == p
    ensures Sum(xs) == |xs| as real * p
    decreases |xs|
  {
    if xs != [] {
      SumOfConstant(xs[..|xs| - 1], p);
    }
  }

  /** The mean of readings that are all `p` is exactly `p`. */
  lemma MeanOfConstant(xs: seq<real>, p: real)
    requires |xs| > 0
    requires forall k :: 0 <= k < |xs| ==> xs[k] == p
    ensures Mean(xs) == p
  {
    SumOfConstant(xs, p);
  }

  lemma {:induction false} SumNonNegative(xs: seq<real>)
    requires forall k :: 0 <= k < |xs| ==> xs[k] >= 0.0
    ensures Sum(xs) >= 0.0
    decreases |xs|
  {
    if xs != [] {
      SumNonNegative(xs[..|xs| - 1]);
    }
  }

  /** One sampled tick of the monitoring loop: the power read and the
      wall-clock time the read took. */
  datatype Sample = Sample(power: real, overhead: real)

  /** The integration width of a tick: the nominal interval plus the read overhead. */
  function Width(s: Sample, interval: real): real {
    interval + s.overhead
  }

  /** `(total_energy, total_energy_over_idle)`. */
  datatype Totals = Totals(energy: real, energyOverIdle: real)

  /** One sampled tick's update of both accumulators (p_est.py:103-104, 125-126):
      the power times the width, and the power less the baseline times the width. */
  function Accumulate(t: Totals, s: Sample, interval: real, idle: real): Totals {
    Totals(t.energy + s.power * Width(s, interval), t.energyOverIdle + (s.power - idle) * Width(s, interval))
  }

  /** Both accumulators after integrating the samples in order from zero. */
  function Integrate(ss: seq<Sample>, interval: real, idle: real): Totals
    decreases |ss|
  {
    if ss == [] then Totals(0.0, 0.0)
    else Accumulate(Integrate(ss[..|ss| - 1], interval, idle), ss[|ss| - 1], interval, idle)
  }

  /** The time the samples cover, the sum of their widths. */
  function Elapsed(ss: seq<Sample>, interval: real): real
    decreases |ss|
  {
    if ss == [] then 0.0 else Elapsed(ss[..|ss| - 1], interval) + Width(ss[|ss| - 1], interval)
  }

  /** The powers of the samples, in order (`power_list`). */
  function Powers(ss: seq<Sample>): (ps: seq<real>)
    ensures |ps| == |ss|
    decreases |ss|
  {
    if ss == [] then [] else Powers(ss[..|ss| - 1]) + [ss[|ss| - 1].power]
  }

  /** The `k`-th listed power is the `k`-th sample's power. */
  lemma {:induction false} PowersSpec(ss: seq<Sample>)
    ensures forall k :: 0 <= k < |ss| ==> Powers(ss)[k] == ss[k].power
    decreases |ss|
  {
    if ss != [] {
      var init := ss[..|ss| - 1];
      PowersSpec(init);
      assert forall k :: 0 <= k < |init| ==> init[k] == ss[k];
    }
  }

  /** Sampling power `p` with overhead `o` adds `p * (interval + o)` to the raw
      total and `(p - idle) * (interval + o)` to the total over idle. */
  lemma IntegrateStep(ss: seq<Sample>, p: real, o: real, interval: real, idle: real, e: real, eo: real)
    requires Integrate(ss, interval, idle) == Totals(e, eo)
    ensures Integrate(ss + [Sample(p, o)], interval, idle) ==
      Totals(e + p * (interval + o), eo + (p - idle) * (interval + o))
  {
    InitOfSnoc(ss, Sample(p, o));
  }

  /** One more sample appends its power to the list of powers. */
  lemma PowersStep(ss: seq<Sample>, s: Sample)
    ensures Powers(ss + [s]) == Powers(ss) + [s.power]
  {
    InitOfSnoc(ss, s);
  }

  /** The raw total does not depend on the baseline. */
  lemma {:induction false} RawIgnoresBaseline(ss: seq<Sample>, interval: real, idle1: real, idle2: real)
    ensures Integrate(ss, interval, idle1).energy == Integrate(ss, interval, idle2).energy
    decreases |ss|
  {
    if ss != [] {
      RawIgnoresBaseline(ss[..|ss| - 1], interval, idle1, idle2);
    }
  }

  /** The over-idle total is the raw total less the baseline times the
      integrated time. */
  lemma {:induction false} OverIdleIsRawLessBaseline(ss: seq<Sample>, interval: real, idle: real)
    ensures Integrate(ss, interval, idle).energyOverIdle ==
      Integrate(ss, interval, idle).energy - idle * Elapsed(ss, interval)
    decreases |ss|
  {
    if ss != [] {
      var init, last := ss[..|ss| - 1], ss[|ss| - 1];
      OverIdleIsRawLessBaseline(init, interval, idle);
      var t := Integrate(init, interval, idle);
      var w := Width(last, interval);
      assert (last.power - idle) * w == last.power * w - idle * w;
      assert idle * Elapsed(ss, interval) == idle * Elapsed(init, interval) + idle * w;
    }
  }

  /** Integrating `a` then `b` is integrating each from zero and adding. */
  lemma {:induction false} IntegrateAppend(a: seq<Sample>, b: seq<Sample>, interval: real, idle: real)
    ensures var ta, tb := Integrate(a, interval, idle), Integrate(b, interval, idle);
      Integrate(a + b, interval, idle) == Totals(ta.energy + tb.energy, ta.energyOverIdle + tb.energyOverIdle)
    decreases |b|
  {
    if b == [] {
      AppendEmpty(a);
    } else {
      var init, last := b[..|b| - 1], b[|b| - 1];
      InitOfAppend(a, b);
      IntegrateAppend(a, init, interval, idle);
      var ta, ti := Integrate(a, interval, idle), Integrate(init, interval, idle);
      assert Integrate(a + b, interval, idle) == Accumulate(Integrate(a + init, interval, idle), last, interval, idle);
      assert Integrate(b, interval, idle) == Accumulate(ti, last, interval, idle);
    }
  }

  /** Monitoring the same samples twice over doubles both totals. */
  lemma EnergyDoubles(ss: seq<Sample>, interval: real, idle: real)
    ensures Integrate(ss + ss, interval, idle).energy == 2.0 * Integrate(ss, interval, idle).energy
    ensures Integrate(ss + ss, interval, idle).energyOverIdle == 2.0 * Integrate(ss, interval, idle).energyOverIdle
  {
    IntegrateAppend(ss, ss, interval, idle);
  }

  /** With constant power `p` and constant overhead `o`, `n` ticks integrate to
      `n * p * (interval + o)` and `n * (p - idle) * (interval + o)`. */
  lemma {:induction false} ConstantPowerEnergy(ss: seq<Sample>, interval: real, idle: real, p: real, o: real)
    requires forall k :: 0 <= k < |ss| ==> ss[k] == Sample(p, o)
    ensures Integrate(ss, interval, idle) ==
      Totals(|ss| as real * p * (interval + o), |ss| as real * (p - idle) * (interval + o))
    decreases |ss|
  {
    if ss != [] {
      ConstantPowerEnergy(ss[..|ss| - 1], interval, idle, p, o);
    }
  }

  /** Samples of zero power integrate to zero, raw and over a zero baseline. */
  lemma {:induction false} ZeroPowerEnergy(ss: seq<Sample>, interval: real)
    requires forall k :: 0 <= k < |ss| ==> ss[k].power == 0.0
    ensures Integrate(ss, interval, 0.0) == Totals(0.0, 0.0)
    decreases |ss|
  {
    if ss != [] {
      ZeroPowerEnergy(ss[..|ss| - 1], interval);
    }
  }

  /** With non-negative powers, interval and overheads the raw total is never
      negative and never decreases as ticks are added. */
  lemma {:induction false} EnergyNonDecreasing(ss: seq<Sample>, interval: real, idle: real, m: nat)
    requires m <= |ss|
    requires interval >= 0.0
    requires forall k :: 0 <= k < |ss| ==> ss[k].power >= 0.0 && ss[k].overhead >= 0.0
    ensures 0.0 <= Integrate(ss[..m], interval, idle).energy <= Integrate(ss, interval, idle).energy
    decreases |ss|
  {
    TakeAll(ss);
    if ss != [] {
      var init, last := ss[..|ss| - 1], ss[|ss| - 1];
      var step := last.power * Width(last, interval);
      assert step >= 0.0;
      assert Integrate(ss, interval, idle).energy == Integrate(init, interval, idle).energy + step;
      if m == |ss| {
        EnergyNonDecreasing(init, interval, idle, |init|);
        TakeAll(init);
      } else {
        EnergyNonDecreasing(init, interval, idle, m);
        TakeTake(ss, m, |ss| - 1);
      }
    }
  }
}
