/** The `PowerEstimator` object (p_est.py:12-130): discovered channel lists,
    the idle baseline and the sampling interval as fields, and the methods
    that fill them and that monitor a workload. */
module Estimator {
  import opened Outcomes
  import opened Seqs
  import opened SysfsPaths
  import opened Discovery
  import opened PowerReader
  import opened Accounting
  import opened Calibration
  import opened Sampling

  /** A monitored command's totals with the powers it sampled (`power_list`)
      and their maximum (`max_power`). */
  datatype CmdRun = CmdRun(totals: Totals, powers: seq<real>, maxPower: real)

  class PowerEstimator {
    var currChannels: seq<string>
    var inChannels: seq<string>
    var devices: seq<string>
    var isOrin: bool
    var idleLoad: real
    var samplingInterval: real

    /** The fields as a channel set. */
    function ChannelSet(): Channels
      reads this`isOrin, this`currChannels, this`inChannels, this`devices
    {
      Channels(isOrin, currChannels, inChannels, devices)
    }

    /** Fields and discovery, p_est.py:22-29. */
    constructor (orin: bool, existing: set<string>, folders: seq<string>)
      ensures Layout(ChannelSet())
      ensures ChannelSet() == Discover(orin, existing, folders)
      ensures idleLoad == 0.0
    {
      currChannels, inChannels, devices := [], [], [];
      isOrin := orin;
      idleLoad, samplingInterval := 0.0, 0.0;
      new;
      DeviceScan(existing, folders);
      DiscoverLayout(orin, existing, folders);
      ExtendEmpty(Discover(orin, existing, folders));
      idleLoad := 0.0;
    }

    /** The whole of `__init__` (p_est.py:14-31): discovery, calibration, then
        `sampling_interval = 1.0 / sampling_rate`. */
    static method Create(orin: bool, existing: set<string>, folders: seq<string>,
                         idleLoadDuration: real, idleLoadSamples: int, samplingRate: real,
                         idleFiles: seq<Snapshot>) returns (r: Result<PowerEstimator>)
      requires idleLoadSamples <= |idleFiles|
      ensures var ch := Discover(orin, existing, folders);
        match StandbyLoad(ch, idleLoadDuration, idleLoadSamples, idleFiles)
        case Err(e) => r == Err(e)
        case Ok(idle) =>
          if samplingRate == 0.0 then r == Err(ZeroDivision)
          else
            r.Ok? && fresh(r.value) && Layout(r.value.ChannelSet()) && r.value.ChannelSet() == ch &&
            r.value.idleLoad == idle && r.value.samplingInterval == 1.0 / samplingRate
    {
      var e := new PowerEstimator(orin, existing, folders);
      ghost var ch := e.ChannelSet();
      var idle := e.EstimateStandbyLoad(idleLoadDuration, idleLoadSamples, idleFiles);
      assert e.ChannelSet() == ch;
      if idle.Err? {
        return Err(idle.error);
      }
      if samplingRate == 0.0 {
        return Err(ZeroDivision);
      }
      e.samplingInterval := 1.0 / samplingRate;
      assert e.ChannelSet() == ch && Layout(ch);
      r := Ok(e);
    }

    /** `_device_scan` (p_est.py:33-62): appends what discovery finds to the
        lists of the session's layout. */
    method DeviceScan(existing: set<string>, folders: seq<string>)
      modifies this`currChannels, this`inChannels, this`devices
      ensures ChannelSet() == Extend(old(ChannelSet()), Discover(isOrin, existing, folders))
    {
      if isOrin {
        ScanPairs(existing);
      } else {
        ScanFolders(existing, folders);
      }
    }

    /** Topology A (p_est.py:34-45): probes the pairs `curr{j}_input` and
        `in{j}_input` for `j` in `0..2`, keeping the pairs of which both exist. */
    method ScanPairs(existing: set<string>)
      modifies this`currChannels, this`inChannels
      ensures currChannels == old(currChannels) + MapSeq(CurrPath, PairedIndices(existing, PairCount))
      ensures inChannels == old(inChannels) + MapSeq(InPath, PairedIndices(existing, PairCount))
    {
      for j := 0 to PairCount
        invariant currChannels == old(currChannels) + MapSeq(CurrPath, PairedIndices(existing, j))
        invariant inChannels == old(inChannels) + MapSeq(InPath, PairedIndices(existing, j))
      {
        var c, i := CurrPath(j), InPath(j);
        ghost var curr0, in0 := currChannels, inChannels;
        if c in existing && i in existing {
          currChannels := currChannels + [c];
          inChannels := inChannels + [i];
        }
        PairsStep(existing, CurrPath, j, old(currChannels), curr0, currChannels);
        PairsStep(existing, InPath, j, old(inChannels), in0, inChannels);
      }
    }

    /** Topology B (p_est.py:47-62): every folder in the order found. */
    method ScanFolders(existing: set<string>, folders: seq<string>)
      modifies this`devices
      ensures devices == old(devices) + ScanB(existing, folders)
    {
      for f := 0 to |folders|
        invariant devices == old(devices) + ScanB(existing, folders[..f])
      {
        ghost var before := devices;
        ScanFolder(existing, folders[f]);
        ScanBStep(existing, folders, f, old(devices), before, devices);
      }
      assert folders[..|folders|] == folders;
    }

    /** One folder: the candidates `in_power{i}_input` for `i` in `0..4`. */
    method ScanFolder(existing: set<string>, folder: string)
      modifies this`devices
      ensures devices == old(devices) + FolderScan(existing, folder)
    {
      for i := 0 to PowerFileCount
        invariant devices == old(devices) + FolderEntries(existing, folder, i)
      {
        ghost var before := devices;
        ScanCandidate(existing, CandidatePath(folder, i));
        FolderEntriesStep(existing, folder, i, old(devices), before, devices);
      }
    }

    /** One candidate (p_est.py:54-61): the path itself, else its
        `iio:device0` form, then every existing `iio:device1..4` form. */
    method ScanCandidate(existing: set<string>, curPath: string)
      modifies this`devices
      ensures devices == old(devices) + CandidateEntries(existing, curPath)
    {
      if curPath in existing {
        devices := devices + [curPath];
      } else if AliasPath(curPath, 0) in existing {
        devices := devices + [AliasPath(curPath, 0)];
      }
      ghost var start := devices;
      AppendEmpty(start);
      for k := 1 to AliasEnd
        invariant devices == start + AliasEntries(existing, curPath, k)
      {
        ghost var before := devices;
        if AliasPath(curPath, k) in existing {
          devices := devices + [AliasPath(curPath, k)];
        } else {
          AppendEmpty(devices);
        }
        AliasEntriesStep(existing, curPath, k, start, before, devices);
      }
      AppendAssoc(old(devices), PrimaryEntry(existing, curPath), AliasEntries(existing, curPath, AliasEnd));
    }

    /** `_get_instant_power` (p_est.py:64-77) on the given file contents. */
    method GetInstantPower(files: Snapshot) returns (r: Result<real>)
      ensures r == InstantPower(ChannelSet(), files)
    {
      var totalPower := 0.0;
      if isOrin {
        var n := MinLen(currChannels, inChannels);
        for k := 0 to n
          invariant PairPowerUpTo(currChannels, inChannels, files, k).Ok?
          invariant PairPowerUpTo(currChannels, inChannels, files, k).value == totalPower
        {
          var c, i := currChannels[k], inChannels[k];
          if c !in files {
            PairPowerFailureSticks(currChannels, inChannels, files, k + 1, n);
            return Err(ReadError(c));
          }
          if i !in files {
            PairPowerFailureSticks(currChannels, inChannels, files, k + 1, n);
            return Err(ReadError(i));
          }
          totalPower := totalPower + files[c] * files[i] / 1000.0;
        }
      } else {
        for k := 0 to |devices|
          invariant DevicePowerUpTo(devices, files, k).Ok?
          invariant DevicePowerUpTo(devices, files, k).value == totalPower
        {
          var device := devices[k];
          if device !in files {
            DevicePowerFailureSticks(devices, files, k + 1, |devices|);
            return Err(ReadError(device));
          }
          totalPower := totalPower + files[device];
        }
      }
      r := Ok(totalPower);
    }

    /** `_estimate_standby_load` (p_est.py:79-86); `files[k]` is what the
        sensor files hold at the `k`-th read. */
    method EstimateStandbyLoad(duration: real, samples: int, files: seq<Snapshot>) returns (r: Result<real>)
      requires samples <= |files|
      modifies this`idleLoad
      ensures r == StandbyLoad(ChannelSet(), duration, samples, files)
      ensures idleLoad == if r.Ok? then r.value else old(idleLoad)
    {
      var load := 0.0;
      var passes := if samples > 0 then samples else 0;
      ghost var w := if samples > 0 then duration / samples as real else 0.0;
      for k := 0 to passes
        invariant StandbySum(ChannelSet(), files, k, w) == Ok(load)
        invariant idleLoad == old(idleLoad)
      {
        var p := GetInstantPower(files[k]);
        if p.Err? {
          StandbySumFailureSticks(ChannelSet(), files, k + 1, samples, w);
          return Err(p.error);
        }
        load := load + p.value;
        var wait := duration / samples as real;
        if wait < 0.0 {
          StandbySumFailureSticks(ChannelSet(), files, k + 1, samples, w);
          return Err(NegativeSleep);
        }
      }
      if samples == 0 {
        return Err(ZeroDivision);
      }
      idleLoad := load / samples as real;
      r := Ok(idleLoad);
    }

    /** The sampling loop of `estimate_cmd_power` (p_est.py:95-108): the
        totals, the sampled powers in order and their maximum; `max` of no
        samples fails. */
    method EstimateCmdPower(trace: seq<Tick>) returns (r: Result<CmdRun>)
      requires samplingInterval < 0.0 || Finishes(trace) || Monitor(ChannelSet(), samplingInterval, trace).Err?
      ensures match Monitor(ChannelSet(), samplingInterval, trace)
        case Err(e) => r == Err(e)
        case Ok(ss) =>
          if ss == [] then r == Err(EmptyMax)
          else
            r.Ok? &&
            r.value.totals == Integrate(ss, samplingInterval, idleLoad) &&
            r.value.powers == Powers(ss) &&
            r.value.maxPower in r.value.powers &&
            forall k :: 0 <= k < |r.value.powers| ==> r.value.powers[k] <= r.value.maxPower
    {
      var interval, idle := samplingInterval, idleLoad;
      ghost var ch := ChannelSet();
      var totalEnergy, totalEnergyOverIdle := 0.0, 0.0;
      var powerList: seq<real> := [];
      ghost var ss: seq<Sample> := [];
      var t := 0;
      while true
        invariant ch == ChannelSet() && interval == samplingInterval && idle == idleLoad
        invariant interval < 0.0 || Finishes(trace) || Monitor(ch, interval, trace).Err?
        invariant t <= AliveCount(trace)
        invariant SamplesUpTo(ch, trace, t) == Ok(ss)
        invariant Totals(totalEnergy, totalEnergyOverIdle) == Integrate(ss, interval, idle)
        invariant powerList == Powers(ss)
        decreases AliveCount(trace) - t
      {
        if interval < 0.0 {
          return Err(NegativeSleep);
        }
        MonitorPollLeft(ch, interval, trace, t, ss);
        var tick := trace[t];
        if !tick.alive {
          MonitorEndsAt(ch, interval, trace, t, ss);
          break;
        }
        var p := GetInstantPower(tick.files);
        if p.Err? {
          MonitorFailsAt(ch, interval, trace, t, ss, p.error);
          return Err(p.error);
        }
        var currentPower := p.value;
        powerList := powerList + [currentPower];
        var pollTime := tick.overhead;
        IntegrateStep(ss, currentPower, pollTime, interval, idle, totalEnergy, totalEnergyOverIdle);
        totalEnergy := totalEnergy + currentPower * (interval + pollTime);
        totalEnergyOverIdle := totalEnergyOverIdle + (currentPower - idle) * (interval + pollTime);
        SampleStep(ch, trace, t, ss, currentPower);
        PowersStep(ss, Sample(currentPower, pollTime));
        ss := ss + [Sample(currentPower, pollTime)];
        t := t + 1;
      }
      if powerList == [] {
        assert ss == [];
        return Err(EmptyMax);
      }
      var maxPower := Max(powerList);
      r := Ok(CmdRun(Totals(totalEnergy, totalEnergyOverIdle), powerList, maxPower));
    }

    /** The sampling loop of `estimate_fn_power` (p_est.py:119-128): the same
        integration, without the list of powers. */
    method EstimateFnPower(trace: seq<Tick>) returns (r: Result<Totals>)
      requires samplingInterval < 0.0 || Finishes(trace) || Monitor(ChannelSet(), samplingInterval, trace).Err?
      ensures match Monitor(ChannelSet(), samplingInterval, trace)
        case Err(e) => r == Err(e)
        case Ok(ss) => r == Ok(Integrate(ss, samplingInterval, idleLoad))
    {
      var interval, idle := samplingInterval, idleLoad;
      ghost var ch := ChannelSet();
      var totalEnergy, totalEnergyOverIdle := 0.0, 0.0;
      ghost var ss: seq<Sample> := [];
      var t := 0;
      while true
        invariant ch == ChannelSet() && interval == samplingInterval && idle == idleLoad
        invariant interval < 0.0 || Finishes(trace) || Monitor(ch, interval, trace).Err?
        invariant t <= AliveCount(trace)
        invariant SamplesUpTo(ch, trace, t) == Ok(ss)
        invariant Totals(totalEnergy, totalEnergyOverIdle) == Integrate(ss, interval, idle)
        decreases AliveCount(trace) - t
      {
        if interval < 0.0 {
          return Err(NegativeSleep);
        }
        MonitorPollLeft(ch, interval, trace, t, ss);
        var tick := trace[t];
        if !tick.alive {
          MonitorEndsAt(ch, interval, trace, t, ss);
          break;
        }
        var p := GetInstantPower(tick.files);
        if p.Err? {
          MonitorFailsAt(ch, interval, trace, t, ss, p.error);
          return Err(p.error);
        }
        var currentPower := p.value;
        var pollTime := tick.overhead;
        IntegrateStep(ss, currentPower, pollTime, interval, idle, totalEnergy, totalEnergyOverIdle);
        totalEnergy := totalEnergy + currentPower * (interval + pollTime);
        totalEnergyOverIdle := totalEnergyOverIdle + (currentPower - idle) * (interval + pollTime);
        SampleStep(ch, trace, t, ss, currentPower);
        ss := ss + [Sample(currentPower, pollTime)];
        t := t + 1;
      }
      r := Ok(Totals(totalEnergy, totalEnergyOverIdle));
    }
  }
}
