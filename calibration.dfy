/** Idle-baseline calibration (`PowerEstimator._estimate_standby_load`,
    p_est.py:79-86): `samples` passes, each reading the power and then
    sleeping `duration / samples`, and the mean of the readings. */
module Calibration {
  import opened Outcomes
  import opened Discovery
  import opened PowerReader
  import opened Accounting

  /** `idle_load` after the first `n` passes of the loop at p_est.py:83-85;
      `files[k]` is what the sensor files hold at the `k`-th read, and `wait`
      the length of each sleep, which `time.sleep` refuses when negative. */
  function StandbySum(ch: Channels, files: seq<Snapshot>, n: nat, wait: real): Result<real>
    requires n <= |files|
    decreases n
  {
    if n == 0 then Ok(0.0)
    else match StandbySum(ch, files, n - 1, wait)
      case Err(e) => Err(e)
      case Ok(total) =>
        match InstantPower(ch, files[n - 1])
        case Err(e) => Err(e)
        case Ok(p) => if wait < 0.0 then Err(NegativeSleep) else Ok(total + p)
  }

  /** The value `_estimate_standby_load` stores in `idle_load`. A negative
      count runs no pass and divides zero by it; a zero count divides by zero. */
  function StandbyLoad(ch: Channels, duration: real, samples: int, files: seq<Snapshot>): Result<real>
    requires samples <= |files|
  {
    if samples == 0 then Err(ZeroDivision)
    else if samples < 0 then Ok(0.0)
    else match StandbySum(ch, files, samples, duration / samples as real)
      case Err(e) => Err(e)
      case Ok(total) => Ok(total / samples as real)
  }

  /** Once a pass fails, the failure is calibration's result. */
  lemma {:induction false} StandbySumFailureSticks(ch: Channels, files: seq<Snapshot>, m: nat, n: nat, wait: real)
    requires m <= n <= |files|
    requires StandbySum(ch, files, m, wait).Err?
    ensures StandbySum(ch, files, n, wait) == StandbySum(ch, files, m, wait)
    decreases n
  {
    if n > m {
      StandbySumFailureSticks(ch, files, m, n - 1, wait);
    }
  }

  lemma {:induction false} StandbySumIsSum(ch: Channels, files: seq<Snapshot>, n: nat, wait: real, readings: seq<real>)
    requires n <= |files| && |readings| == n
    requires wait >= 0.0
    requires forall k :: 0 <= k < n ==> InstantPower(ch, files[k]) == Ok(readings[k])
    ensures StandbySum(ch, files, n, wait) == Ok(Sum(readings))
    decreases n
  {
    if n > 0 {
      StandbySumIsSum(ch, files, n - 1, wait, readings[..n - 1]);
      assert Sum(readings) == Sum(readings[..n - 1]) + readings[n - 1];
    }
  }

  lemma {:induction false} StandbySumOk(ch: Channels, files: seq<Snapshot>, n: nat, wait: real)
    requires n <= |files|
    ensures StandbySum(ch, files, n, wait).Ok? <==>
      (n == 0 || wait >= 0.0) && forall k :: 0 <= k < n ==> InstantPower(ch, files[k]).Ok?
    ensures StandbySum(ch, files, n, wait).Err? ==> StandbySum(ch, files, n, wait).error != ZeroDivision
    decreases n
  {
    if n > 0 {
      StandbySumOk(ch, files, n - 1, wait);
      InstantPowerReadable(ch, files[n - 1]);
    }
  }

  /** With a positive count, a non-negative duration and every read
      succeeding, the baseline is the arithmetic mean of exactly `samples`
      readings, the `k`-th taken from `files[k]`. */
  lemma StandbyIsMean(ch: Channels, duration: real, samples: int, files: seq<Snapshot>, readings: seq<real>)
    requires 1 <= samples <= |files| && |readings| == samples
    requires duration >= 0.0
    requires forall k :: 0 <= k < samples ==> InstantPower(ch, files[k]) == Ok(readings[k])
    ensures StandbyLoad(ch, duration, samples, files) == Ok(Mean(readings))
  {
    StandbySumIsSum(ch, files, samples, duration / samples as real, readings);
  }

  /** Sensors that always give `p` give the baseline `p`, exactly. */
  lemma StandbyOfConstant(ch: Channels, duration: real, samples: int, files: seq<Snapshot>, p: real)
    requires 1 <= samples <= |files|
    requires duration >= 0.0
    requires forall k :: 0 <= k < samples ==> InstantPower(ch, files[k]) == Ok(p)
    ensures StandbyLoad(ch, duration, samples, files) == Ok(p)
  {
    var readings := seq(samples, k requires 0 <= k < samples => p);
    StandbyIsMean(ch, duration, samples, files, readings);
    MeanOfConstant(readings, p);
  }

  /** Calibration succeeds exactly when the count is negative, or it is
      positive, the duration is non-negative and every read succeeds; it
      fails with a division by zero exactly when the count is zero. */
  lemma StandbyOutcome(ch: Channels, duration: real, samples: int, files: seq<Snapshot>)
    requires samples <= |files|
    ensures StandbyLoad(ch, duration, samples, files).Ok? <==>
      samples < 0 ||
      (samples >= 1 && duration >= 0.0 && forall k :: 0 <= k < samples ==> InstantPower(ch, files[k]).Ok?)
    ensures StandbyLoad(ch, duration, samples, files) == Err(ZeroDivision) <==> samples == 0
  {
    if samples > 0 {
      var wait := duration / samples as real;
      assert wait >= 0.0 <==> duration >= 0.0;
      StandbySumOk(ch, files, samples, wait);
    }
  }

  /** Each pass reads before it sleeps: with a negative duration the first
      read still happens, and its failure takes precedence over the refused sleep. */
  lemma StandbyReadsBeforeSleeping(ch: Channels, duration: real, samples: int, files: seq<Snapshot>)
    requires 1 <= samples <= |files|
    requires duration < 0.0
    ensures StandbyLoad(ch, duration, samples, files) ==
      match InstantPower(ch, files[0])
      case Err(e) => Err(e)
      case Ok(_) => Err(NegativeSleep)
  {
    var wait := duration / samples as real;
    assert wait < 0.0;
    StandbySumFirstPass(ch, files, samples, wait);
  }

  /** Without channels, a successful calibration yields the zero baseline. */
  lemma StandbyNoChannels(ch: Channels, duration: real, samples: int, files: seq<Snapshot>)
    requires samples <= |files|
    requires ch.curr == [] && ch.devices == []
    ensures StandbyLoad(ch, duration, samples, files).Ok? ==> StandbyLoad(ch, duration, samples, files).value == 0.0
  {
    if samples >= 1 && StandbyLoad(ch, duration, samples, files).Ok? {
      StandbyOutcome(ch, duration, samples, files);
      forall k | 0 <= k < samples ensures InstantPower(ch, files[k]) == Ok(0.0) {
        NoChannelsNoPower(ch, files[k]);
      }
      StandbyOfConstant(ch, duration, samples, files, 0.0);
    }
  }

  /** Non-negative sensor contents give a non-negative baseline. */
  lemma StandbyNonNegative(ch: Channels, duration: real, samples: int, files: seq<Snapshot>)
    requires samples <= |files|
    requires forall k :: 0 <= k < |files| ==> NonNegative(files[k])
    ensures StandbyLoad(ch, duration, samples, files).Ok? ==> StandbyLoad(ch, duration, samples, files).value >= 0.0
  {
    if samples >= 1 && StandbyLoad(ch, duration, samples, files).Ok? {
      StandbyOutcome(ch, duration, samples, files);
      var readings := seq(samples, k requires 0 <= k < samples => InstantPower(ch, files[k]).value);
      forall k | 0 <= k < samples ensures readings[k] >= 0.0 {
        InstantPowerNonNegative(ch, files[k]);
      }
      StandbyIsMean(ch, duration, samples, files, readings);
      SumNonNegative(readings);
    }
  }

  lemma {:induction false} StandbySumFirstPass(ch: Channels, files: seq<Snapshot>, n: nat, wait: real)
    requires 1 <= n <= |files|
    requires wait < 0.0
    ensures StandbySum(ch, files, n, wait) ==
      match InstantPower(ch, files[0])
      case Err(e) => Err(e)
      case Ok(_) => Err(NegativeSleep)
    decreases n
  {
    if n > 1 {
      StandbySumFirstPass(ch, files, n - 1, wait);
    }
  }
}
