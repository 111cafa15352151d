/** The sampling loop shared by `estimate_cmd_power` and `estimate_fn_power`
    (p_est.py:95-106, 119-128), driven by a trace of polls. Each poll says
    whether the workload is still alive, what the sensor files hold if a
    read follows, and how long that read took. */
module Sampling {
  import opened Outcomes
  import opened Seqs
  import opened Discovery
  import opened PowerReader
  import opened Accounting
  import opened Calibration

  datatype Tick = Tick(alive: bool, files: Snapshot, overhead: real)

  /** The workload is seen finished at some poll of the trace. */
  predicate Finishes(trace: seq<Tick>) {
    exists k :: 0 <= k < |trace| && !trace[k].alive
  }

  /** The number of polls before the first one that finds the workload finished. */
  function AliveCount(trace: seq<Tick>): (n: nat)
    ensures n <= |trace|
    ensures forall k :: 0 <= k < n ==> trace[k].alive
    ensures n < |trace| ==> !trace[n].alive
    ensures Finishes(trace) ==> n < |trace|
    decreases |trace|
  {
    if trace == [] || !trace[0].alive then 0
    else
      var n := 1 + AliveCount(trace[1..]);
      assert forall k :: 1 <= k < |trace| ==> trace[k] == trace[1..][k - 1];
      n
  }

  /** The samples taken at the first `n` polls, or the error of the first read that fails. */
  function SamplesUpTo(ch: Channels, trace: seq<Tick>, n: nat): Result<seq<Sample>>
    requires n <= |trace|
    decreases n
  {
    if n == 0 then Ok([])
    else match SamplesUpTo(ch, trace, n - 1)
      case Err(e) => Err(e)
      case Ok(ss) =>
        match InstantPower(ch, trace[n - 1].files)
        case Err(e) => Err(e)
        case Ok(p) => Ok(ss + [Sample(p, trace[n - 1].overhead)])
  }

  /** A successful read at poll `t` extends the samples by one. */
  lemma SampleStep(ch: Channels, trace: seq<Tick>, t: nat, ss: seq<Sample>, p: real)
    requires t < |trace|
    requires SamplesUpTo(ch, trace, t) == Ok(ss)
    requires InstantPower(ch, trace[t].files) == Ok(p)
    ensures SamplesUpTo(ch, trace, t + 1) == Ok(ss + [Sample(p, trace[t].overhead)])
  {
  }

  /** Once a read fails, the failure is the run's result. */
  lemma {:induction false} SamplesFailureSticks(ch: Channels, trace: seq<Tick>, m: nat, n: nat)
    requires m <= n <= |trace|
    requires SamplesUpTo(ch, trace, m).Err?
    ensures SamplesUpTo(ch, trace, n) == SamplesUpTo(ch, trace, m)
    decreases n
  {
    if n > m {
      SamplesFailureSticks(ch, trace, m, n - 1);
    }
  }

  /** The samples of one monitored run: a negative interval makes the first
      sleep fail; otherwise one sample per poll that finds the workload alive,
      ending at the first poll that finds it finished, which reads nothing. */
  function Monitor(ch: Channels, interval: real, trace: seq<Tick>): Result<seq<Sample>> {
    if interval < 0.0 then Err(NegativeSleep)
    else SamplesUpTo(ch, trace, AliveCount(trace))
  }

  /** A failed read at an alive poll, after successful ones, is the run's result. */
  lemma MonitorFailsAt(ch: Channels, interval: real, trace: seq<Tick>, t: nat, ss: seq<Sample>, e: Error)
    requires interval >= 0.0
    requires t < AliveCount(trace)
    requires SamplesUpTo(ch, trace, t) == Ok(ss)
    requires InstantPower(ch, trace[t].files) == Err(e)
    ensures Monitor(ch, interval, trace) == Err(e)
  {
    SamplesFailureSticks(ch, trace, t + 1, AliveCount(trace));
  }

  /** A run that ends, by a finished poll or by a failed read, has a poll
      left at every point its loop can reach. */
  lemma MonitorPollLeft(ch: Channels, interval: real, trace: seq<Tick>, t: nat, ss: seq<Sample>)
    requires interval >= 0.0
    requires Finishes(trace) || Monitor(ch, interval, trace).Err?
    requires t <= AliveCount(trace)
    requires SamplesUpTo(ch, trace, t) == Ok(ss)
    ensures t < |trace|
  {
  }

  /** Reaching a poll that finds the workload finished ends the run with the
      samples taken so far. */
  lemma MonitorEndsAt(ch: Channels, interval: real, trace: seq<Tick>, t: nat, ss: seq<Sample>)
    requires interval >= 0.0
    requires t <= AliveCount(trace) && t < |trace| && !trace[t].alive
    requires SamplesUpTo(ch, trace, t) == Ok(ss)
    ensures Monitor(ch, interval, trace) == Ok(ss)
  {
    assert t == AliveCount(trace);
  }

  lemma {:induction false} SamplesUpToSpec(ch: Channels, trace: seq<Tick>, n: nat)
    requires n <= |trace|
    ensures SamplesUpTo(ch, trace, n).Ok? <==> forall k :: 0 <= k < n ==> InstantPower(ch, trace[k].files).Ok?
    ensures SamplesUpTo(ch, trace, n).Ok? ==>
      var ss := SamplesUpTo(ch, trace, n).value;
      |ss| == n &&
      forall k :: 0 <= k < n ==> ss[k] == Sample(InstantPower(ch, trace[k].files).value, trace[k].overhead)
    ensures SamplesUpTo(ch, trace, n).Err? ==>
      exists k :: 0 <= k < n && InstantPower(ch, trace[k].files) == Err(SamplesUpTo(ch, trace, n).error)
    decreases n
  {
    if n > 0 {
      SamplesUpToSpec(ch, trace, n - 1);
    }
  }

  /** With a non-negative interval the run succeeds iff every alive poll's read
      succeeds, and then it holds one sample per alive poll, in order: the
      power read at that poll and that read's overhead. */
  lemma MonitorSpec(ch: Channels, interval: real, trace: seq<Tick>)
    requires interval >= 0.0
    ensures var n := AliveCount(trace);
      (Monitor(ch, interval, trace).Ok? <==> forall k :: 0 <= k < n ==> InstantPower(ch, trace[k].files).Ok?) &&
      (Monitor(ch, interval, trace).Ok? ==>
        var ss := Monitor(ch, interval, trace).value;
        |ss| == n &&
        forall k :: 0 <= k < n ==> ss[k] == Sample(InstantPower(ch, trace[k].files).value, trace[k].overhead))
  {
    SamplesUpToSpec(ch, trace, AliveCount(trace));
  }

  lemma {:induction false} SamplesUpToPrefix(ch: Channels, t1: seq<Tick>, t2: seq<Tick>, n: nat)
    requires n <= |t1| && n <= |t2|
    requires t1[..n] == t2[..n]
    ensures SamplesUpTo(ch, t1, n) == SamplesUpTo(ch, t2, n)
    decreases n
  {
    if n > 0 {
      assert t1[..n - 1] == t2[..n - 1] by {
        assert t1[..n - 1] == t1[..n][..n - 1];
        assert t2[..n - 1] == t2[..n][..n - 1];
      }
      SamplesUpToPrefix(ch, t1, t2, n - 1);
      assert t1[n - 1] == t1[..n][n - 1];
      assert t2[n - 1] == t2[..n][n - 1];
    }
  }

  lemma {:induction false} AliveCountPrefix(t1: seq<Tick>, t2: seq<Tick>)
    requires Finishes(t1)
    requires AliveCount(t1) < |t2| && t1[..AliveCount(t1) + 1] == t2[..AliveCount(t1) + 1]
    ensures AliveCount(t2) == AliveCount(t1)
  {
    var n := AliveCount(t1);
    assert forall k :: 0 <= k <= n ==> t1[k] == t1[..n + 1][k] && t2[k] == t2[..n + 1][k];
    assert !t2[n].alive;
  }

  /** Nothing after the first finished poll matters: two traces that agree up
      to and including it give the same run. */
  lemma MonitorStopsAtFinish(ch: Channels, interval: real, t1: seq<Tick>, t2: seq<Tick>)
    requires Finishes(t1)
    requires AliveCount(t1) < |t2| && t1[..AliveCount(t1) + 1] == t2[..AliveCount(t1) + 1]
    ensures Monitor(ch, interval, t1) == Monitor(ch, interval, t2)
  {
    var n := AliveCount(t1);
    AliveCountPrefix(t1, t2);
    assert t1[..n] == t1[..n + 1][..n] && t2[..n] == t2[..n + 1][..n];
    SamplesUpToPrefix(ch, t1, t2, n);
  }

  /** Non-negative sensor contents, overheads and interval: every sample's
      power is non-negative, and the raw energy of every prefix of the run is
      non-negative and never above the run's total. */
  lemma MonitorEnergyNonDecreasing(ch: Channels, interval: real, idle: real, trace: seq<Tick>)
    requires interval >= 0.0
    requires forall k :: 0 <= k < |trace| ==> NonNegative(trace[k].files) && trace[k].overhead >= 0.0
    ensures Monitor(ch, interval, trace).Ok? ==>
      var ss := Monitor(ch, interval, trace).value;
      (forall k :: 0 <= k < |ss| ==> ss[k].power >= 0.0) &&
      forall m :: 0 <= m <= |ss| ==>
        0.0 <= Integrate(ss[..m], interval, idle).energy <= Integrate(ss, interval, idle).energy
  {
    MonitorSpec(ch, interval, trace);
    if Monitor(ch, interval, trace).Ok? {
      var ss := Monitor(ch, interval, trace).value;
      forall k | 0 <= k < |ss| ensures ss[k].power >= 0.0 && ss[k].overhead >= 0.0 {
        InstantPowerNonNegative(ch, trace[k].files);
      }
      forall m | 0 <= m <= |ss|
        ensures 0.0 <= Integrate(ss[..m], interval, idle).energy <= Integrate(ss, interval, idle).energy
      {
        EnergyNonDecreasing(ss, interval, idle, m);
      }
    }
  }

  /** Non-negative sensor contents, overheads and interval: the raw energy
      only grows from tick to tick. */
  lemma MonitorEnergyGrows(ch: Channels, interval: real, idle: real, trace: seq<Tick>)
    requires interval >= 0.0
    requires forall k :: 0 <= k < |trace| ==> NonNegative(trace[k].files) && trace[k].overhead >= 0.0
    ensures Monitor(ch, interval, trace).Ok? ==>
      var ss := Monitor(ch, interval, trace).value;
      forall m, n :: 0 <= m <= n <= |ss| ==>
        Integrate(ss[..m], interval, idle).energy <= Integrate(ss[..n], interval, idle).energy
  {
    MonitorEnergyNonDecreasing(ch, interval, idle, trace);
    MonitorSpec(ch, interval, trace);
    if Monitor(ch, interval, trace).Ok? {
      var ss := Monitor(ch, interval, trace).value;
      assert forall k :: 0 <= k < |ss| ==> ss[k].overhead == trace[k].overhead;
      forall m, n | 0 <= m <= n <= |ss|
        ensures Integrate(ss[..m], interval, idle).energy <= Integrate(ss[..n], interval, idle).energy
      {
        EnergyNonDecreasing(ss[..n], interval, idle, m);
        TakeTake(ss, m, n);
      }
    }
  }

  /** No channels discovered: both energies stay zero for any workload,
      given a zero baseline (which `StandbyNoChannels` shows calibration yields). */
  lemma MonitorNoChannels(ch: Channels, interval: real, trace: seq<Tick>)
    requires interval >= 0.0
    requires ch.curr == [] && ch.devices == []
    ensures Monitor(ch, interval, trace).Ok?
    ensures Integrate(Monitor(ch, interval, trace).value, interval, 0.0) == Totals(0.0, 0.0)
  {
    forall k | 0 <= k < |trace| ensures InstantPower(ch, trace[k].files) == Ok(0.0) {
      NoChannelsNoPower(ch, trace[k].files);
    }
    MonitorSpec(ch, interval, trace);
    ZeroPowerEnergy(Monitor(ch, interval, trace).value, interval);
  }

  /** No channels discovered, end to end: calibration, when it succeeds, gives
      the zero baseline, and against it every monitored run succeeds with both
      energies zero. */
  lemma NoChannelsNoEnergy(ch: Channels, duration: real, samples: int, idleFiles: seq<Snapshot>,
                           interval: real, trace: seq<Tick>)
    requires samples <= |idleFiles|
    requires interval >= 0.0
    requires ch.curr == [] && ch.devices == []
    requires StandbyLoad(ch, duration, samples, idleFiles).Ok?
    ensures Monitor(ch, interval, trace).Ok?
    ensures Integrate(Monitor(ch, interval, trace).value, interval, StandbyLoad(ch, duration, samples, idleFiles).value) ==
      Totals(0.0, 0.0)
  {
    StandbyNoChannels(ch, duration, samples, idleFiles);
    MonitorNoChannels(ch, interval, trace);
  }
}
