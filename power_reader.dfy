/** One instantaneous power reading over the discovered channels
    (`PowerEstimator._get_instant_power`, p_est.py:64-77). The contents of
    the sensor files at the moment of the read are given as a map from path
    to the number the file holds; a path missing from the map is a file that
    cannot be opened or does not parse, which `p_est.py` raises on. */
module PowerReader {
  import opened Outcomes
  import opened Discovery
  import opened Accounting

  type Snapshot = map<string, real>

  function MinLen(a: seq<string>, b: seq<string>): nat {
    if |a| <= |b| then |a| else |b|
  }

  /** Topology A over the first `n` pairs: each pair's current file is opened
      before its voltage file, and the pair adds `current * voltage / 1000`. */
  function PairPowerUpTo(curr: seq<string>, volt: seq<string>, files: Snapshot, n: nat): Result<real>
    requires n <= |curr| && n <= |volt|
    decreases n
  {
    if n == 0 then Ok(0.0)
    else match PairPowerUpTo(curr, volt, files, n - 1)
      case Err(e) => Err(e)
      case Ok(total) =>
        var c, v := curr[n - 1], volt[n - 1];
        if c !in files then Err(ReadError(c))
        else if v !in files then Err(ReadError(v))
        else Ok(total + files[c] * files[v] / 1000.0)
  }

  /** Topology B over the first `n` power files: each adds its reading as it is. */
  function DevicePowerUpTo(devices: seq<string>, files: Snapshot, n: nat): Result<real>
    requires n <= |devices|
    decreases n
  {
    if n == 0 then Ok(0.0)
    else match DevicePowerUpTo(devices, files, n - 1)
      case Err(e) => Err(e)
      case Ok(total) =>
        var d := devices[n - 1];
        if d !in files then Err(ReadError(d)) else Ok(total + files[d])
  }

  /** The instantaneous total power of a channel set; topology A walks
      `zip(curr, volt)`, which stops at the shorter list. */
  function InstantPower(ch: Channels, files: Snapshot): Result<real> {
    if ch.isOrin then PairPowerUpTo(ch.curr, ch.volt, files, MinLen(ch.curr, ch.volt))
    else DevicePowerUpTo(ch.devices, files, |ch.devices|)
  }

  /** Every file the read opens can be read. */
  predicate Readable(ch: Channels, files: Snapshot) {
    if ch.isOrin then
      forall k :: 0 <= k < MinLen(ch.curr, ch.volt) ==> ch.curr[k] in files && ch.volt[k] in files
    else
      forall k :: 0 <= k < |ch.devices| ==> ch.devices[k] in files
  }

  /** Every reading in the snapshot is non-negative. */
  predicate NonNegative(files: Snapshot) {
    forall p :: p in files ==> files[p] >= 0.0
  }

  lemma {:induction false} PairPowerReadable(curr: seq<string>, volt: seq<string>, files: Snapshot, n: nat)
    requires n <= |curr| && n <= |volt|
    ensures PairPowerUpTo(curr, volt, files, n).Ok? <==> forall k :: 0 <= k < n ==> curr[k] in files && volt[k] in files
    ensures PairPowerUpTo(curr, volt, files, n).Err? ==>
      exists k :: 0 <= k < n &&
        ((PairPowerUpTo(curr, volt, files, n).error == ReadError(curr[k]) && curr[k] !in files) ||
         (PairPowerUpTo(curr, volt, files, n).error == ReadError(volt[k]) && volt[k] !in files))
    decreases n
  {
    if n > 0 {
      PairPowerReadable(curr, volt, files, n - 1);
    }
  }

  /** When every file is readable, topology A's reading is the sum of the
      pair products, each divided by 1000. */
  lemma {:induction false} PairPowerIsSum(curr: seq<string>, volt: seq<string>, files: Snapshot, n: nat, terms: seq<real>)
    requires n <= |curr| && n <= |volt|
    requires |terms| == n
    requires forall k :: 0 <= k < n ==> curr[k] in files && volt[k] in files && terms[k] == files[curr[k]] * files[volt[k]] / 1000.0
    ensures PairPowerUpTo(curr, volt, files, n) == Ok(Sum(terms))
    decreases n
  {
    if n > 0 {
      var init := terms[..n - 1];
      PairPowerIsSum(curr, volt, files, n - 1, init);
      var c, v := curr[n - 1], volt[n - 1];
      var term := files[c] * files[v] / 1000.0;
      assert terms[n - 1] == term;
      assert Sum(terms) == Sum(init) + term;
      var r := PairPowerUpTo(curr, volt, files, n);
      assert r.Ok? && r.value == Sum(init) + term;
    }
  }

  lemma {:induction false} DevicePowerReadable(devices: seq<string>, files: Snapshot, n: nat)
    requires n <= |devices|
    ensures DevicePowerUpTo(devices, files, n).Ok? <==> forall k :: 0 <= k < n ==> devices[k] in files
    ensures DevicePowerUpTo(devices, files, n).Err? ==>
      exists k :: 0 <= k < n &&
        DevicePowerUpTo(devices, files, n).error == ReadError(devices[k]) && devices[k] !in files
    decreases n
  {
    if n > 0 {
      DevicePowerReadable(devices, files, n - 1);
    }
  }

  /** When every file is readable, topology B's reading is the plain sum of
      the power files' contents. */
  lemma {:induction false} DevicePowerIsSum(devices: seq<string>, files: Snapshot, n: nat, readings: seq<real>)
    requires n <= |devices|
    requires |readings| == n
    requires forall k :: 0 <= k < n ==> devices[k] in files && readings[k] == files[devices[k]]
    ensures DevicePowerUpTo(devices, files, n) == Ok(Sum(readings))
    decreases n
  {
    if n > 0 {
      DevicePowerIsSum(devices, files, n - 1, readings[..n - 1]);
      assert Sum(readings) == Sum(readings[..n - 1]) + readings[n - 1];
    }
  }

  /** Once a read fails, the failure is the read's result. */
  lemma {:induction false} PairPowerFailureSticks(curr: seq<string>, volt: seq<string>, files: Snapshot, m: nat, n: nat)
    requires m <= n <= |curr| && n <= |volt|
    requires PairPowerUpTo(curr, volt, files, m).Err?
    ensures PairPowerUpTo(curr, volt, files, n) == PairPowerUpTo(curr, volt, files, m)
    decreases n
  {
    if n > m {
      PairPowerFailureSticks(curr, volt, files, m, n - 1);
    }
  }

  lemma {:induction false} DevicePowerFailureSticks(devices: seq<string>, files: Snapshot, m: nat, n: nat)
    requires m <= n <= |devices|
    requires DevicePowerUpTo(devices, files, m).Err?
    ensures DevicePowerUpTo(devices, files, n) == DevicePowerUpTo(devices, files, m)
    decreases n
  {
    if n > m {
      DevicePowerFailureSticks(devices, files, m, n - 1);
    }
  }

  /** A read succeeds exactly when every channel file it opens is readable;
      otherwise it fails naming an unreadable channel file. */
  lemma InstantPowerReadable(ch: Channels, files: Snapshot)
    ensures InstantPower(ch, files).Ok? <==> Readable(ch, files)
    ensures InstantPower(ch, files).Err? ==> exists p :: p !in files && InstantPower(ch, files).error == ReadError(p)
  {
    if ch.isOrin {
      var n := MinLen(ch.curr, ch.volt);
      PairPowerReadable(ch.curr, ch.volt, files, n);
      if InstantPower(ch, files).Err? {
        var k :| 0 <= k < n && ((InstantPower(ch, files).error == ReadError(ch.curr[k]) && ch.curr[k] !in files) ||
          (InstantPower(ch, files).error == ReadError(ch.volt[k]) && ch.volt[k] !in files));
      }
    } else {
      DevicePowerReadable(ch.devices, files, |ch.devices|);
    }
  }

  lemma {:induction false} PairPowerNonNegative(curr: seq<string>, volt: seq<string>, files: Snapshot, n: nat)
    requires n <= |curr| && n <= |volt|
    requires NonNegative(files)
    ensures PairPowerUpTo(curr, volt, files, n).Ok? ==> PairPowerUpTo(curr, volt, files, n).value >= 0.0
    decreases n
  {
    if n > 0 {
      PairPowerNonNegative(curr, volt, files, n - 1);
      var c, v := curr[n - 1], volt[n - 1];
      if c in files && v in files {
        assert files[c] * files[v] >= 0.0;
      }
    }
  }

  lemma {:induction false} DevicePowerNonNegative(devices: seq<string>, files: Snapshot, n: nat)
    requires n <= |devices|
    requires NonNegative(files)
    ensures DevicePowerUpTo(devices, files, n).Ok? ==> DevicePowerUpTo(devices, files, n).value >= 0.0
    decreases n
  {
    if n > 0 {
      DevicePowerNonNegative(devices, files, n - 1);
    }
  }

  /** Non-negative sensor contents give a non-negative total on both layouts. */
  lemma InstantPowerNonNegative(ch: Channels, files: Snapshot)
    requires NonNegative(files)
    ensures InstantPower(ch, files).Ok? ==> InstantPower(ch, files).value >= 0.0
  {
    if ch.isOrin {
      PairPowerNonNegative(ch.curr, ch.volt, files, MinLen(ch.curr, ch.volt));
    } else {
      DevicePowerNonNegative(ch.devices, files, |ch.devices|);
    }
  }

  /** No channels: every read gives zero. */
  lemma NoChannelsNoPower(ch: Channels, files: Snapshot)
    requires ch.curr == [] && ch.devices == []
    ensures InstantPower(ch, files) == Ok(0.0)
  {
  }

  /** One pair reading 2.0 (current) and 1000.0 (voltage) gives 2.0 mW. */
  lemma OnePairExample(c: string, v: string)
    requires c != v
    ensures InstantPower(Channels(true, [c], [v], []), map[c := 2.0, v := 1000.0]) == Ok(2.0)
  {
    PairPowerIsSum([c], [v], map[c := 2.0, v := 1000.0], 1, [2.0]);
    assert Sum([2.0]) == Sum([]) + 2.0;
  }
}
