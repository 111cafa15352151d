# jetson_power `PowerEstimator` in Dafny

`p_est.py` defines one class, `PowerEstimator`. It measures the energy a
workload uses on an NVIDIA Jetson board by polling the INA3221 power monitor
through sysfs, and it works in four steps:

1. It discovers the sensor files. Topology A has pairs of current and voltage
   files under one `hwmon` directory. Topology B has `in_power{i}_input` files
   under `iio_device` / `iio:device{k}` folders.
2. It calibrates an idle baseline, the mean of a fixed number of readings.
3. It runs a command or a Python callable.
4. While the workload is alive, it polls the total power and integrates it into
   two energies: the raw total and the total over the baseline. For a command
   it also keeps the list of sampled powers and their maximum.

This project models that class imperatively: a `class PowerEstimator` with the
source's fields and one method per source method, each loop with its
invariants. Each method is proved against a specification function written
on values, and the properties of those functions are proved as lemmas.

The world outside the process is passed in as data:

- `existing: set<string>` is what `os.path.exists` says.
- `folders: seq<string>` is the folder names `os.walk` yields, in order.
- A `Snapshot` (`map<string, real>`) is what the sensor files hold at one read.
  A missing path is a file that cannot be opened or parsed.
- A trace of `Tick(alive, files, overhead)` is, for each poll, what the
  workload's liveness poll answered, what the files held, and how long the
  read took.

Python exceptions become `Result` errors:

- `ReadError(path)`: a sensor file cannot be read.
- `ZeroDivision`: `samples == 0` or `sampling_rate == 0`.
- `NegativeSleep`: `time.sleep` refuses a negative argument.
- `EmptyMax`: `max([])`.

Modules:

- `Outcomes`: the `Error` and `Result` types.
- `Seqs`: generic sequence facts.
- `SysfsPaths`: the file names, built with `str`, `os.path.join` and `str.replace`.
- `Discovery`: the channel lists `_device_scan` builds, as functions.
- `PowerReader`: `_get_instant_power` as a function.
- `Accounting`: sums, the mean, the maximum, and the energy integrals.
- `Calibration`: `_estimate_standby_load` as a function.
- `Sampling`: the alive-prefix sampling of a trace.
- `Estimator`: the class.

## Model

| member | source | states |
|---|---|---|
| Estimator.PowerEstimator.constructor | p_est.py:22-29 | The fields start as empty lists. Discovery fills them with exactly `Discover(orin, existing, folders)`, which has its topology's layout. `idle_load` then becomes 0. |
| Estimator.PowerEstimator.Create | p_est.py:14-31 | The whole of `__init__`. A failed calibration is the result. Otherwise a zero `sampling_rate` is `ZeroDivision`. Otherwise the new object holds the discovered channels, the calibrated baseline and `1 / sampling_rate`. |
| Estimator.PowerEstimator.DeviceScan | p_est.py:33-62 | The channel lists become the old lists with what discovery finds for the object's topology appended. |
| Estimator.PowerEstimator.ScanPairs | p_est.py:34-45 | Each current and voltage list gets the paths of the paired indices `0..2` appended, in index order. |
| Estimator.PowerEstimator.ScanFolders | p_est.py:47-62 | `devices` gets the topology-B scan of every folder appended, in folder order. Repeats are kept. |
| Estimator.PowerEstimator.ScanFolder | p_est.py:51-62 | `devices` gets the entries of the five candidates `in_power0..4_input` of one folder appended, in order. |
| Estimator.PowerEstimator.ScanCandidate | p_est.py:52-62 | `devices` gets one candidate's entries appended: the `iio_device` path, else its `iio:device0` form, then each existing `iio:device1..4` form. |
| Estimator.PowerEstimator.GetInstantPower | p_est.py:64-77 | The result equals `InstantPower` on the object's channels: the sum over `zip(curr, in)` of `c*v/1000`, or the plain sum of the power files. The first unreadable file is the error. |
| Estimator.PowerEstimator.EstimateStandbyLoad | p_est.py:79-86 | The result equals `StandbyLoad`. `idle_load` takes the result when it succeeds and is unchanged otherwise. |
| Estimator.PowerEstimator.EstimateCmdPower | p_est.py:89-110 | Monitoring fails when `Monitor` fails. No samples means `max([])` fails. Otherwise the totals are `Integrate` of the samples, `power_list` is exactly their powers in order, and `max_power` is in it and at least every entry. |
| Estimator.PowerEstimator.EstimateFnPower | p_est.py:112-130 | Fails when `Monitor` fails, else returns `Integrate` of the same samples. Whenever the command loop succeeds on the same trace, this gives the same totals. With no samples the command loop fails on `max([])`, while this one returns zero totals. |
| Discovery.DiscoverLayout | p_est.py:22-26 | Discovery keeps the topology it was asked for. It yields equal-length pair lists and no power files on A, and power files only on B. |
| Discovery.PairedIndicesSpec | p_est.py:39-44 | The registered pair indices are exactly the indices whose two files both exist, strictly increasing and below the bound. |
| Discovery.DiscoverPairs | p_est.py:34-45 | Topology A registers equally many current and voltage files, at most three, entry `k` of both lists from the same pair index, indices increasing. Both files of pair `j` are registered iff both exist. |
| Discovery.CandidateEntriesSpec | p_est.py:52-61 | A candidate registers exactly these paths, each only if it exists: the `iio_device` path, the `iio:device0` form, which is probed only when the `iio_device` path is missing, and every `iio:device1..4` form. At most five entries. |
| Discovery.AliasEntriesSpec | p_est.py:59-61 | The alias loop registers exactly the existing `iio:device{k}` forms for `1 <= k < n`, fewer than `n`. |
| Discovery.FolderEntriesBound | p_est.py:51-61 | The first `n` candidates of a folder register at most `5n` entries. |
| Discovery.FolderEntriesMember | p_est.py:51-61 | A folder registers a path iff one of its first `n` candidates does. |
| Discovery.ScanBSpec | p_est.py:47-62 | Topology B registers a path iff some folder's candidate registers it. At most 25 entries per folder. |
| Discovery.ScanBExisting | p_est.py:53-61 | Every path topology B registers existed at discovery time. |
| Discovery.ScanBAppend | p_est.py:49-51 | The scan is folder-major: scanning `a + b` is the scan of `a` followed by the scan of `b`, so a folder listed twice registers twice. |
| Discovery.MapSeqMember | p_est.py:42-44 | For a map injective at `x`, `f(x)` is an image iff `x` is in the list. |
| Discovery.IndicesBelowSpec | p_est.py:39-42 | The filtered index list holds exactly the satisfying indices below `n`, strictly increasing. |
| SysfsPaths.JoinPath | p_est.py:40-52 | The joined path ends with the file name. A relative file name keeps the directory as a prefix. |
| SysfsPaths.PairPathsInjective | p_est.py:36-41 | Distinct single-digit pair indices give distinct current paths and distinct voltage paths. |
| PowerReader.InstantPowerReadable | p_est.py:64-77 | A read succeeds iff every file it opens is readable. Otherwise it fails naming an unreadable file. |
| PowerReader.PairPowerIsSum | p_est.py:66-71 | With every pair readable, topology A's total is the sum of `current*voltage/1000` over the pairs. |
| PowerReader.DevicePowerIsSum | p_est.py:73-77 | With every file readable, topology B's total is the sum of the readings. |
| PowerReader.PairPowerFailureSticks | p_est.py:67-70 | Once a pair read fails, that failure is the result. |
| PowerReader.DevicePowerFailureSticks | p_est.py:74-76 | Once a power-file read fails, that failure is the result. |
| PowerReader.InstantPowerNonNegative | p_est.py:64-77 | Non-negative file contents give a non-negative total on both topologies. |
| PowerReader.OnePairExample | p_est.py:70 | One pair reading 2.0 and 1000.0 gives 2.0. |
| Accounting.Max | p_est.py:108 | `max` of a non-empty list is an element of it and at least every element. |
| Accounting.MeanOfConstant | p_est.py:86 | The mean of readings that are all `p` is `p`. |
| Accounting.SumNonNegative | p_est.py:82-84 | A sum of non-negative readings is non-negative. |
| Accounting.PowersSpec | p_est.py:101 | The `k`-th listed power is the `k`-th sample's power. |
| Accounting.PowersStep | p_est.py:101 | Sampling once more appends that sample's power to the list. |
| Accounting.IntegrateStep | p_est.py:103-104 | A sample of power `p` and poll time `o` adds `p*(interval+o)` to the raw total and `(p-idle)*(interval+o)` to the total over idle. |
| Accounting.RawIgnoresBaseline | p_est.py:103 | The raw total does not depend on the baseline. |
| Accounting.OverIdleIsRawLessBaseline | p_est.py:103-104 | The total over idle is the raw total minus `idle` times the integrated time. |
| Accounting.IntegrateAppend | p_est.py:103-104 | Integrating `a + b` adds the totals of `a` and of `b`. |
| Accounting.EnergyDoubles | p_est.py:103-104 | The same samples twice over give twice both totals. |
| Accounting.ConstantPowerEnergy | p_est.py:103-104 | `n` samples of power `p` and overhead `o` give `n*p*(interval+o)` and `n*(p-idle)*(interval+o)`. |
| Accounting.ZeroPowerEnergy | p_est.py:103-104 | Zero-power samples give zero totals over a zero baseline. |
| Accounting.EnergyNonDecreasing | p_est.py:103 | With non-negative powers, overheads and interval, the raw total of every prefix is non-negative and never more than the whole. |
| Calibration.StandbySumFailureSticks | p_est.py:83-85 | Once a calibration pass fails, that failure is the result. |
| Calibration.StandbyIsMean | p_est.py:82-86 | With `samples >= 1`, a non-negative duration and readable files, the baseline is the mean of exactly `samples` readings, the `k`-th from the `k`-th read. |
| Calibration.StandbyOfConstant | p_est.py:82-86 | Readings that are all `p` give the baseline `p`. |
| Calibration.StandbyOutcome | p_est.py:79-86 | Calibration succeeds iff `samples < 0`, or `samples >= 1` with a non-negative duration and every read succeeding. It fails with a division by zero iff `samples == 0`. |
| Calibration.StandbyNoChannels | p_est.py:82-86 | Without channels, a successful calibration gives the baseline 0. |
| Calibration.StandbyNonNegative | p_est.py:82-86 | Non-negative sensor contents at every read give a non-negative baseline. |
| Calibration.StandbyReadsBeforeSleeping | p_est.py:83-85 | With a negative duration the first read still happens, and its failure comes before the refused sleep. |
| Sampling.AliveCount | p_est.py:95-106 | The length of the poll prefix that finds the workload alive. It is inside the trace when the workload finishes, and the poll after it finds it finished. |
| Sampling.SamplesFailureSticks | p_est.py:99-101 | Once a read fails, that failure is the run's result. |
| Sampling.MonitorFailsAt | p_est.py:99-101 | A failed read at an alive poll, after successful ones, is the run's result. |
| Sampling.MonitorEndsAt | p_est.py:105-106 | The first poll that finds the workload finished ends the run with the samples taken so far. |
| Sampling.SamplesUpToSpec | p_est.py:95-104 | The first `n` polls succeed iff every read succeeds. Then there is one sample per poll, in order; otherwise one of the reads' errors is the result. |
| Sampling.MonitorSpec | p_est.py:95-106 | With a non-negative interval, a run succeeds iff every alive poll's read succeeds. Then it has exactly one sample per alive poll, in order: that poll's power and overhead. |
| Sampling.MonitorStopsAtFinish | p_est.py:98-106 | Traces that agree up to the first finished poll give the same run, so later polls are never read. |
| Sampling.MonitorEnergyNonDecreasing | p_est.py:100-104 | Non-negative sensor contents and overheads give non-negative powers. The raw energy of every prefix is non-negative and never more than the run's total. |
| Sampling.MonitorEnergyGrows | p_est.py:100-104 | Non-negative sensor contents and overheads: the raw energy grows from tick to tick, `Integrate(ss[..m]).energy <= Integrate(ss[..n]).energy` for `m <= n`. |
| Sampling.MonitorNoChannels | p_est.py:100-104 | Without channels every run succeeds and integrates to zero over a zero baseline. |
| Sampling.NoChannelsNoEnergy | p_est.py:82-104 | Without channels, a successful calibration gives the zero baseline. Against that baseline every monitored run succeeds, and both energies are zero. |

## Left out

- File I/O, `os.walk`, `time.time` and the hardware are parameters, as described above. The recursion of `os.walk` is folded into one ordered list of folder names.
- The `total_time` result of both estimators is left out (wall-clock time). The per-poll `poll_time` is modelled as each tick's `overhead`.
- `subprocess.Popen` and `threading.Thread` are not modelled. The workload only shows up through the trace of liveness polls. An error starting the workload is left out.
- `print` output, the `__main__` block and the `chmod_hw_files.sh` call are not modelled. `max_power` is returned (in `CmdRun`) instead of printed.
- Floating point is modelled as exact reals. Rounding, NaN and infinities are not modelled. `float(readline())` is the snapshot's number, or a failure.
- `is_orin` is hard-coded `True` in the source. Here it is a constructor parameter, so that topology B is reachable.
- Estimator.PowerEstimator.EstimateCmdPower and Estimator.PowerEstimator.EstimateFnPower require that the run ends: the interval is negative (the first sleep fails), the workload is eventually seen finished, or some alive poll's read fails. The only traces refused are those with a non-negative interval, every poll alive, and every read succeeding; for those the source loops forever.
- Estimator.PowerEstimator.constructor: `sampling_interval` is a placeholder 0 until `Create` sets it. That matches the source's own order: it is set last.
- Duplicates: discovery keeps a path as often as the code appends it, for example when a folder name is listed twice. It does not deduplicate.
- A lemma relating the command and function estimators' totals is not written separately. Lemmas cannot call methods, and the two methods' postconditions already name the same `Integrate` of the same `Monitor` samples.
- Estimator.PowerEstimator.GetInstantPower: one snapshot per read gives each path either a number or a failure. Opening a file and parsing it are not separated, so when the current file opens but holds no number and the voltage file cannot be opened, the model names the current file, while the source fails opening the voltage file. A path listed twice in `devices` is read twice by the source, possibly with different values; in the model both reads see the snapshot's one value.
- Estimator.PowerEstimator.Create: the defaults of `__init__` (`idle_load_duration=3`, `idle_load_samples=10`, `sampling_rate=30`) are not modelled; the caller passes all three. The sample count is an integer, so the `TypeError` that `range` raises on a float count is not modelled, such as `_estimate_standby_load`'s own unused default `samples=10.0`.
