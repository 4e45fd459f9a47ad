// The guards of the historical reprice supervisor and its day windows
// (buildUtcWindows, evaluatePreflight, evaluateRuntimeSafety, shouldRunPreflight and
// resetStageAfterSafetyStop in scripts/ops/historical-reprice-supervisor.ts).
module SupervisorGuards {
  import opened JsonValues

  // ---- Day windows ---------------------------------------------------------------

  const DAY_MS: int := 24 * 60 * 60 * 1000
  const MAX_SAFE_INTEGER: int := 9007199254740991
  // The largest instant a Date can hold; it is a whole number of days.
  const MAX_DATE_MS: int := 100_000_000 * DAY_MS

  datatype Window = Window(fromMs: int, toMs: int)

  datatype WindowError = InvalidRange | NotMidnight

  predicate IsSafeInteger(n: int) {
    -MAX_SAFE_INTEGER <= n <= MAX_SAFE_INTEGER
  }

  function Min(a: int, b: int): int {
    if a <= b then a else b
  }

  // A Date outside the representable range has no hours to compare with midnight.
  predicate IsUtcMidnight(ms: int) {
    -MAX_DATE_MS <= ms <= MAX_DATE_MS && ms % DAY_MS == 0
  }

  predicate Representable(startMs: int, cutoffMs: int) {
    startMs % DAY_MS == 0 && -MAX_DATE_MS <= startMs && cutoffMs <= MAX_DATE_MS + DAY_MS
  }

  // The windows follow each other from start to cutoff without a gap, each one UTC day,
  // the last one possibly cut short.
  ghost predicate Tiles(windows: seq<Window>, startMs: int, cutoffMs: int) {
    && windows != []
    && (forall i :: 0 <= i < |windows| ==> windows[i].fromMs == startMs + i * DAY_MS)
    && (forall i :: 0 <= i < |windows| ==> windows[i].toMs == Min(windows[i].fromMs + DAY_MS, cutoffMs))
    && windows[|windows| - 1].fromMs < cutoffMs <= windows[|windows| - 1].fromMs + DAY_MS
  }

  lemma AppendWindow(windows: seq<Window>, startMs: int, fromMs: int, cutoffMs: int)
    requires windows == [] ==> fromMs == startMs
    requires windows != [] ==> Tiles(windows, startMs, fromMs) && windows[|windows| - 1].fromMs == fromMs - DAY_MS
    requires fromMs < cutoffMs
    ensures Tiles(windows + [Window(fromMs, Min(fromMs + DAY_MS, cutoffMs))], startMs, Min(fromMs + DAY_MS, cutoffMs))
  {
    var all := windows + [Window(fromMs, Min(fromMs + DAY_MS, cutoffMs))];
    if windows != [] {
      var last := |windows| - 1;
      assert windows[last].fromMs == startMs + last * DAY_MS;
      forall i | 0 <= i < last
        ensures windows[i].toMs == windows[i].fromMs + DAY_MS && windows[i].fromMs + DAY_MS <= fromMs
      {
        assert windows[i + 1].fromMs == startMs + (i + 1) * DAY_MS;
      }
    }
  }

  method BuildUtcWindows(startMs: int, cutoffMs: int) returns (r: Result<seq<Window>, WindowError>)
    ensures r.Ok? ==> Tiles(r.value, startMs, cutoffMs)
    ensures r.Ok? <==>
            IsSafeInteger(startMs) && IsSafeInteger(cutoffMs) && startMs < cutoffMs && Representable(startMs, cutoffMs)
    ensures r == Err(InvalidRange) <==> !IsSafeInteger(startMs) || !IsSafeInteger(cutoffMs) || cutoffMs <= startMs
  {
    hide Tiles;
    if !IsSafeInteger(startMs) || !IsSafeInteger(cutoffMs) || cutoffMs <= startMs {
      return Err(InvalidRange);
    }
    var windows: seq<Window> := [];
    var fromMs := startMs;
    while fromMs < cutoffMs
      invariant startMs <= fromMs && (fromMs == startMs <==> windows == [])
      invariant fromMs % DAY_MS == startMs % DAY_MS
      invariant windows != [] ==>
                  && IsUtcMidnight(startMs) && IsUtcMidnight(fromMs - DAY_MS) && fromMs - DAY_MS < cutoffMs
                  && Tiles(windows, startMs, Min(fromMs, cutoffMs))
                  && windows[|windows| - 1].fromMs == fromMs - DAY_MS
    {
      if !IsUtcMidnight(fromMs) {
        return Err(NotMidnight);
      }
      AppendWindow(windows, startMs, fromMs, cutoffMs);
      windows := windows + [Window(fromMs, Min(fromMs + DAY_MS, cutoffMs))];
      fromMs := fromMs + DAY_MS;
    }
    return Ok(windows);
  }

  ghost predicate Within(w: Window, t: int) {
    w.fromMs <= t < w.toMs
  }

  // A window says which instants it holds: those of one day of the range.
  lemma WindowOfInstant(windows: seq<Window>, startMs: int, cutoffMs: int, i: nat, t: int)
    requires Tiles(windows, startMs, cutoffMs) && i < |windows|
    ensures Within(windows[i], t) <==> startMs <= t < cutoffMs && i == (t - startMs) / DAY_MS
  {
    assert windows[i].fromMs == startMs + i * DAY_MS;
  }

  lemma InstantHasWindow(windows: seq<Window>, startMs: int, cutoffMs: int, t: int)
    requires Tiles(windows, startMs, cutoffMs) && startMs <= t < cutoffMs
    ensures 0 <= (t - startMs) / DAY_MS < |windows|
  {
    var last := |windows| - 1;
    assert windows[last].fromMs == startMs + last * DAY_MS;
  }

  // The windows partition the range: an instant is in the range exactly when it is in
  // some window, and then it is in no other.
  lemma WindowsPartitionTheRange(windows: seq<Window>, startMs: int, cutoffMs: int, t: int)
    requires Tiles(windows, startMs, cutoffMs)
    ensures startMs <= t < cutoffMs <==> exists i :: 0 <= i < |windows| && Within(windows[i], t)
    ensures forall i, j :: 0 <= i < j < |windows| ==> !(Within(windows[i], t) && Within(windows[j], t))
  {
    hide Tiles, Within;
    forall i | 0 <= i < |windows|
      ensures Within(windows[i], t) <==> startMs <= t < cutoffMs && i == (t - startMs) / DAY_MS
    {
      WindowOfInstant(windows, startMs, cutoffMs, i, t);
    }
    if startMs <= t < cutoffMs {
      InstantHasWindow(windows, startMs, cutoffMs, t);
      assert Within(windows[(t - startMs) / DAY_MS], t);
    }
  }

  // ---- Safety --------------------------------------------------------------------

  const MIB: int := 1024 * 1024
  const GIB: int := 1024 * MIB

  datatype Sample = Sample(
    load1: real, memAvailableBytes: real, helmCpuPercent: real, helmMemoryPercent: real, healthStatus: int,
    walBytes: real, diskFreeBytes: real, restarts: int, oomKilled: bool, gatewayFaults: int, sqliteBusy: int)

  datatype Thresholds = Thresholds(
    preflightLoad1: real, preflightMemBytes: real, preflightCpuPercent: real, preflightHelmMemoryPercent: real,
    preflightWalBytes: real, preflightDiskBytes: real,
    stopLoad1: real, stopMemBytes: real, stopCpuPercent: real, stopHelmMemoryPercent: real,
    stopWalBytes: real, stopDiskBytes: real)

  const DEFAULT_THRESHOLDS := Thresholds(
    1.2, (512 * MIB) as real, 75.0, 55.0, (640 * MIB) as real, (13 * GIB) as real,
    1.5, (384 * MIB) as real, 75.0, 60.0, (768 * MIB) as real, (12 * GIB) as real)

  datatype Check = Load | Memory | Cpu | HelmMemory | Health | Wal | Disk | Restarts | Oom | Faults | Busy

  datatype Reason = NeedThreeSamples(got: nat) | SampleFails(index: nat, check: Check)

  // Whether one sample fails a check before a stage. The disk limit itself already fails.
  predicate FailsBefore(check: Check, sample: Sample, baselineRestarts: int, t: Thresholds) {
    match check
    case Load => sample.load1 >= t.preflightLoad1
    case Memory => sample.memAvailableBytes < t.preflightMemBytes
    case Cpu => sample.helmCpuPercent >= t.preflightCpuPercent
    case HelmMemory => sample.helmMemoryPercent >= t.preflightHelmMemoryPercent
    case Health => sample.healthStatus != 200
    case Wal => sample.walBytes >= t.preflightWalBytes
    case Disk => sample.diskFreeBytes <= t.preflightDiskBytes
    case Restarts => sample.restarts != baselineRestarts
    case Oom => sample.oomKilled
    case Faults => sample.gatewayFaults > 0
    case Busy => sample.sqliteBusy > 0
  }

  // Whether one sample fails a check during a stage. Here the disk limit itself is enough,
  // and a busy processor stops the stage only at the second sample in a row.
  predicate FailsDuring(check: Check, sample: Sample, baselineRestarts: int, highCpuSamples: nat, t: Thresholds) {
    match check
    case Load => sample.load1 >= t.stopLoad1
    case Memory => sample.memAvailableBytes < t.stopMemBytes
    case Cpu => highCpuSamples >= 2
    case HelmMemory => sample.helmMemoryPercent >= t.stopHelmMemoryPercent
    case Health => sample.healthStatus != 200
    case Wal => sample.walBytes >= t.stopWalBytes
    case Disk => sample.diskFreeBytes < t.stopDiskBytes
    case Restarts => sample.restarts != baselineRestarts
    case Oom => sample.oomKilled
    case Faults => sample.gatewayFaults > 0
    case Busy => sample.sqliteBusy > 0
  }

  // A host on which a stage may begin.
  predicate Ready(sample: Sample, baselineRestarts: int, t: Thresholds) {
    && sample.load1 < t.preflightLoad1 && sample.memAvailableBytes >= t.preflightMemBytes
    && sample.helmCpuPercent < t.preflightCpuPercent && sample.helmMemoryPercent < t.preflightHelmMemoryPercent
    && sample.healthStatus == 200
    && sample.walBytes < t.preflightWalBytes && sample.diskFreeBytes > t.preflightDiskBytes
    && sample.restarts == baselineRestarts && !sample.oomKilled
    && sample.gatewayFaults <= 0 && sample.sqliteBusy <= 0
  }

  // A host on which a stage may go on, after so many samples in a row with a busy processor.
  predicate NothingStops(sample: Sample, baselineRestarts: int, highCpuSamples: nat, t: Thresholds) {
    && sample.load1 < t.stopLoad1 && sample.memAvailableBytes >= t.stopMemBytes
    && highCpuSamples < 2 && sample.helmMemoryPercent < t.stopHelmMemoryPercent
    && sample.healthStatus == 200
    && sample.walBytes < t.stopWalBytes && sample.diskFreeBytes >= t.stopDiskBytes
    && sample.restarts == baselineRestarts && !sample.oomKilled
    && sample.gatewayFaults <= 0 && sample.sqliteBusy <= 0
  }

  // Three samples of a ready host, taken without a restart between them.
  ghost predicate SafePreflight(samples: seq<Sample>, t: Thresholds) {
    |samples| == 3 && forall i :: 0 <= i < 3 ==> Ready(samples[i], samples[0].restarts, t)
  }

  lemma ReadyPassesEveryCheck(sample: Sample, baselineRestarts: int, t: Thresholds)
    ensures Ready(sample, baselineRestarts, t) <==> forall check :: !FailsBefore(check, sample, baselineRestarts, t)
  {
    if forall check :: !FailsBefore(check, sample, baselineRestarts, t) {
      assert !FailsBefore(Load, sample, baselineRestarts, t) && !FailsBefore(Memory, sample, baselineRestarts, t);
      assert !FailsBefore(Cpu, sample, baselineRestarts, t) && !FailsBefore(HelmMemory, sample, baselineRestarts, t);
      assert !FailsBefore(Health, sample, baselineRestarts, t) && !FailsBefore(Wal, sample, baselineRestarts, t);
      assert !FailsBefore(Disk, sample, baselineRestarts, t) && !FailsBefore(Restarts, sample, baselineRestarts, t);
      assert !FailsBefore(Oom, sample, baselineRestarts, t) && !FailsBefore(Faults, sample, baselineRestarts, t);
      assert !FailsBefore(Busy, sample, baselineRestarts, t);
    }
  }

  lemma NothingStopsPassesEveryCheck(sample: Sample, baselineRestarts: int, high: nat, t: Thresholds)
    ensures NothingStops(sample, baselineRestarts, high, t) <==>
            forall check :: !FailsDuring(check, sample, baselineRestarts, high, t)
  {
    if forall check :: !FailsDuring(check, sample, baselineRestarts, high, t) {
      var r := baselineRestarts;
      assert !FailsDuring(Load, sample, r, high, t) && !FailsDuring(Memory, sample, r, high, t);
      assert !FailsDuring(Cpu, sample, r, high, t) && !FailsDuring(HelmMemory, sample, r, high, t);
      assert !FailsDuring(Health, sample, r, high, t) && !FailsDuring(Wal, sample, r, high, t);
      assert !FailsDuring(Disk, sample, r, high, t) && !FailsDuring(Restarts, sample, r, high, t);
      assert !FailsDuring(Oom, sample, r, high, t) && !FailsDuring(Faults, sample, r, high, t);
      assert !FailsDuring(Busy, sample, r, high, t);
    }
  }

  // `better` is a host no worse off than `sample`, as healthy and restarted as often.
  predicate NoWorse(better: Sample, sample: Sample) {
    && better.load1 <= sample.load1 && better.memAvailableBytes >= sample.memAvailableBytes
    && better.helmCpuPercent <= sample.helmCpuPercent && better.helmMemoryPercent <= sample.helmMemoryPercent
    && better.walBytes <= sample.walBytes && better.diskFreeBytes >= sample.diskFreeBytes
    && better.healthStatus == sample.healthStatus && better.restarts == sample.restarts
    && (better.oomKilled ==> sample.oomKilled)
    && better.gatewayFaults <= sample.gatewayFaults && better.sqliteBusy <= sample.sqliteBusy
  }

  // A host no worse than a safe one is safe, and what does not stop a stage on a host does
  // not stop it on one that is no worse.
  lemma NoWorseIsSafe(better: seq<Sample>, samples: seq<Sample>, t: Thresholds)
    requires |better| == |samples| && forall i :: 0 <= i < |samples| ==> NoWorse(better[i], samples[i])
    ensures SafePreflight(samples, t) ==> SafePreflight(better, t)
    ensures forall i, r, fewer: nat, high: nat ::
              0 <= i < |samples| && fewer <= high && NothingStops(samples[i], r, high, t) ==>
                NothingStops(better[i], r, fewer, t)
  {
  }

  // The limits before a stage lie inside those during it.
  predicate Inside(t: Thresholds) {
    && t.preflightLoad1 <= t.stopLoad1 && t.preflightMemBytes >= t.stopMemBytes
    && t.preflightCpuPercent <= t.stopCpuPercent && t.preflightHelmMemoryPercent <= t.stopHelmMemoryPercent
    && t.preflightWalBytes <= t.stopWalBytes && t.preflightDiskBytes >= t.stopDiskBytes
  }

  // With such limits, and the default ones are such, a host that may begin a stage may go
  // on with it, and does not count as busy.
  lemma PreflightIsStricter(sample: Sample, baselineRestarts: int, t: Thresholds)
    requires Inside(t) && Ready(sample, baselineRestarts, t)
    ensures NothingStops(sample, baselineRestarts, 0, t) && sample.helmCpuPercent < t.stopCpuPercent
    ensures Inside(DEFAULT_THRESHOLDS)
  {
  }

  // The checks of a list that fail, in its order.
  function Failing(checks: seq<Check>, fails: Check -> bool): (failed: seq<Check>)
    ensures forall check :: check in failed <==> check in checks && fails(check)
  {
    if checks == [] then []
    else (if fails(checks[0]) then [checks[0]] else []) + Failing(checks[1..], fails)
  }

  // The orders in which the source makes its checks.
  const PREFLIGHT_CHECKS := [Load, Memory, Cpu, HelmMemory, Health, Wal, Disk, Restarts, Oom, Faults, Busy]
  const RUNTIME_CHECKS := [Load, Memory, HelmMemory, Cpu, Health, Wal, Disk, Restarts, Oom, Faults, Busy]

  lemma EveryCheckIsMade(check: Check)
    ensures check in PREFLIGHT_CHECKS && check in RUNTIME_CHECKS
  {
    var p, r := PREFLIGHT_CHECKS, RUNTIME_CHECKS;
    match check
    case Load => assert p[0] == r[0] == Load;
    case Memory => assert p[1] == r[1] == Memory;
    case Cpu => assert p[2] == r[3] == Cpu;
    case HelmMemory => assert p[3] == r[2] == HelmMemory;
    case Health => assert p[4] == r[4] == Health;
    case Wal => assert p[5] == r[5] == Wal;
    case Disk => assert p[6] == r[6] == Disk;
    case Restarts => assert p[7] == r[7] == Restarts;
    case Oom => assert p[8] == r[8] == Oom;
    case Faults => assert p[9] == r[9] == Faults;
    case Busy => assert p[10] == r[10] == Busy;
  }

  // Which reasons the first `n` samples give.
  ghost predicate ReasonsUpTo(reasons: seq<Reason>, samples: seq<Sample>, n: nat, t: Thresholds)
    requires |samples| == 3 && n <= 3
  {
    && (forall r :: r in reasons ==> r.SampleFails? && r.index < n)
    && (forall i, check :: 0 <= i < n ==>
          (SampleFails(i, check) in reasons <==> FailsBefore(check, samples[i], samples[0].restarts, t)))
  }

  method EvaluatePreflight(samples: seq<Sample>, t: Thresholds := DEFAULT_THRESHOLDS)
    returns (safe: bool, reasons: seq<Reason>)
    ensures safe <==> SafePreflight(samples, t)
    ensures safe <==> reasons == []
    ensures |samples| != 3 ==> reasons == [NeedThreeSamples(|samples|)]
    ensures |samples| == 3 ==> ReasonsUpTo(reasons, samples, 3, t)
  {
    hide FailsBefore, Ready, Failing, SampleReasons;
    if |samples| != 3 {
      return false, [NeedThreeSamples(|samples|)];
    }
    reasons := [];
    var baselineRestarts := samples[0].restarts;
    var index := 0;
    while index < |samples|
      invariant 0 <= index <= 3
      invariant ReasonsUpTo(reasons, samples, index, t)
    {
      var sample := samples[index];
      ChecksBefore(sample, baselineRestarts, t);
      var failed := Failing(PREFLIGHT_CHECKS, check => FailsBefore(check, sample, baselineRestarts, t));
      reasons := reasons + SampleReasons(failed, index);
      index := index + 1;
    }
    safe := |reasons| == 0;
    if !safe { assert reasons[0] in reasons && SampleFails(reasons[0].index, reasons[0].check) in reasons; }
    forall i | 0 <= i < 3
      ensures Ready(samples[i], samples[0].restarts, t) <==> forall check :: SampleFails(i, check) !in reasons
    {
      ReadyPassesEveryCheck(samples[i], samples[0].restarts, t);
    }
  }

  // The reasons one sample gives, each naming the sample.
  function SampleReasons(failed: seq<Check>, index: nat): (reasons: seq<Reason>)
    ensures forall r :: r in reasons ==> r.SampleFails? && r.index == index
    ensures forall check :: SampleFails(index, check) in reasons <==> check in failed
  {
    if failed == [] then [] else [SampleFails(index, failed[0])] + SampleReasons(failed[1..], index)
  }

  lemma ChecksBefore(sample: Sample, baselineRestarts: int, t: Thresholds)
    ensures var failed := Failing(PREFLIGHT_CHECKS, check => FailsBefore(check, sample, baselineRestarts, t));
            forall check :: check in failed <==> FailsBefore(check, sample, baselineRestarts, t)
  {
    hide Failing, FailsBefore;
    forall check ensures check in PREFLIGHT_CHECKS { EveryCheckIsMade(check); }
  }

  datatype RuntimeState = RuntimeState(highCpuSamples: nat, baselineRestarts: int)

  method EvaluateRuntimeSafety(sample: Sample, previous: RuntimeState, t: Thresholds := DEFAULT_THRESHOLDS)
    returns (stop: bool, reasons: seq<Check>, state: RuntimeState)
    ensures state.baselineRestarts == previous.baselineRestarts
    ensures state.highCpuSamples == if sample.helmCpuPercent >= t.stopCpuPercent then previous.highCpuSamples + 1 else 0
    ensures stop <==> reasons != []
    ensures stop <==> !NothingStops(sample, previous.baselineRestarts, state.highCpuSamples, t)
    ensures forall check :: check in reasons <==>
              FailsDuring(check, sample, previous.baselineRestarts, state.highCpuSamples, t)
  {
    hide FailsDuring, NothingStops, Failing;
    state := RuntimeState(if sample.helmCpuPercent >= t.stopCpuPercent then previous.highCpuSamples + 1 else 0,
                          previous.baselineRestarts);
    reasons := Failing(RUNTIME_CHECKS,
                       check => FailsDuring(check, sample, previous.baselineRestarts, state.highCpuSamples, t));
    forall check
      ensures check in reasons <==> FailsDuring(check, sample, previous.baselineRestarts, state.highCpuSamples, t)
    {
      EveryCheckIsMade(check);
    }
    NothingStopsPassesEveryCheck(sample, previous.baselineRestarts, state.highCpuSamples, t);
    stop := |reasons| > 0;
    assert stop ==> reasons[0] in reasons;
    assert !stop ==> reasons == [];
  }

  predicate ShouldRunPreflight(stageBatches: nat, recoveryRequired: bool) {
    stageBatches == 0 || recoveryRequired
  }
}
