/**
 * The per-category formulas of the recalculation: each parameter's value for one
 * workload type, as a function of the profile, and the version-keyed defaults.
 */
module Formulas {
  import opened Decimal
  import opened Memory
  import opened Profile
  import Params

  // ---------------------------------------------------------------------------
  // Memory parameters
  // ---------------------------------------------------------------------------

  const WinSharedBuffersLimit: nat := 512 * MB

  /** shared_buffers before the Windows cap: a quarter of memory, a sixteenth for desktop. */
  function SharedBuffersBase(memory: nat, t: DbType): nat {
    if t == Desktop then memory / 16 else memory / 4
  }

  /** Below version 10, Windows caps shared_buffers. */
  predicate CapsSharedBuffers(p: Profile) {
    Tenths(p.version) < 100 && p.platform == Windows
  }

  /** shared_buffers for one workload type. */
  function SharedBuffers(p: Profile, t: DbType): (r: nat)
    ensures r <= SharedBuffersBase(p.memory, t) <= p.memory
    ensures CapsSharedBuffers(p) ==> r <= WinSharedBuffersLimit
    ensures r == SharedBuffersBase(p.memory, t) || (CapsSharedBuffers(p) && r == WinSharedBuffersLimit)
  {
    var base := SharedBuffersBase(p.memory, t);
    if CapsSharedBuffers(p) && base > WinSharedBuffersLimit then WinSharedBuffersLimit else base
  }

  /** max_connections when none is given. */
  function DefaultConnections(t: DbType): nat {
    match t
    case Web => 200
    case Oltp => 300
    case Dw => 40
    case Mixed => 100
    case Desktop => 20
  }

  /** max_connections: a positive connection count overrides every workload type's default. */
  function ConnectionCount(p: Profile, t: DbType): (n: nat)
    ensures n > 0
    ensures p.connections > 0 ==> n == p.connections
  {
    if p.connections > 0 then p.connections else DefaultConnections(t)
  }

  /** effective_cache_size: three quarters of memory, a quarter for desktop. */
  function EffectiveCacheSize(memory: nat, t: DbType): (r: nat)
    ensures r <= memory
  {
    if t == Desktop then memory / 4 else memory * 3 / 4
  }

  const MaintenanceLimit: nat := 2 * GB

  /** maintenance_work_mem before its cap: an eighth of memory for dw, a sixteenth otherwise. */
  function MaintenanceBase(memory: nat, t: DbType): nat {
    if t == Dw then memory / 8 else memory / 16
  }

  /**
   * maintenance_work_mem for one workload type: values above 2 GiB are cut to 2 GiB, or to
   * 2 GiB - 1 MiB on Windows. The test is strict, so exactly 2 GiB is kept everywhere.
   */
  function MaintenanceWorkMem(p: Profile, t: DbType): (r: nat)
    ensures r <= MaintenanceLimit
    ensures MaintenanceBase(p.memory, t) <= MaintenanceLimit ==> r == MaintenanceBase(p.memory, t)
    ensures MaintenanceBase(p.memory, t) > MaintenanceLimit ==>
              r == (if p.platform == Windows then MaintenanceLimit - MB else MaintenanceLimit)
  {
    var base := MaintenanceBase(p.memory, t);
    if base > MaintenanceLimit then
      if p.platform == Windows then MaintenanceLimit - MB else MaintenanceLimit
    else base
  }

  const MaxWalBuffer: nat := 16 * MB
  const WalBufferNear: nat := 14 * MB
  const MinWalBuffer: nat := 32

  /**
   * wal_buffers from a shared_buffers value: 3% of it, cut to 16 MiB, values just under
   * 16 MiB (above 14 MiB) raised to 16 MiB, and anything under 32 bytes raised to 32.
   */
  function WalBuffers(sharedBuffers: nat): (r: nat)
    ensures MinWalBuffer <= r <= MaxWalBuffer
    ensures !(WalBufferNear < r < MaxWalBuffer)
    ensures MinWalBuffer <= 3 * sharedBuffers / 100 <= WalBufferNear ==> r == 3 * sharedBuffers / 100
    ensures 3 * sharedBuffers / 100 > WalBufferNear ==> r == MaxWalBuffer
    ensures 3 * sharedBuffers / 100 < MinWalBuffer ==> r == MinWalBuffer
  {
    var w0 := 3 * sharedBuffers / 100;
    var w1 := if w0 > MaxWalBuffer then MaxWalBuffer else w0;
    var w2 := if WalBufferNear < w1 < MaxWalBuffer then MaxWalBuffer else w1;
    if w2 < MinWalBuffer then MinWalBuffer else w2
  }

  /** A larger shared_buffers never gives a smaller wal_buffers. */
  lemma WalBuffersMonotone(a: nat, b: nat)
    requires a <= b
    ensures WalBuffers(a) <= WalBuffers(b)
  {
    assert 3 * a <= 3 * b;
    DivMonotone(3 * a, 3 * b, 100);
  }

  lemma DivMonotone(x: nat, y: nat, d: nat)
    requires x <= y && d > 0
    ensures x / d <= y / d
  {
    var qx, qy := x / d, y / d;
    assert x == d * qx + x % d;
    assert y == d * qy + y % d;
    if qx > qy {
      assert d * qx >= d * (qy + 1) by {
        MulMonotone(d, qy + 1, qx);
      }
    }
  }

  lemma MulMonotone(d: nat, a: nat, b: nat)
    requires a <= b
    ensures d * a <= d * b
  {
  }

  function DefaultStatisticsTarget(t: DbType): string {
    if t == Dw then "500" else "100"
  }

  /** checkpoint_segments (versions before 9.5). */
  function CheckpointSegments(t: DbType): nat {
    match t
    case Web => 32
    case Oltp => 64
    case Dw => 128
    case Mixed => 32
    case Desktop => 3
  }

  /** min_wal_size (versions from 9.5 on). */
  function MinWalSize(t: DbType): nat {
    match t
    case Web => 1024 * MB
    case Oltp => 2048 * MB
    case Dw => 4096 * MB
    case Mixed => 1024 * MB
    case Desktop => 100 * MB
  }

  /** max_wal_size (versions from 9.5 on). */
  function MaxWalSize(t: DbType): nat {
    match t
    case Web => 4096 * MB
    case Oltp => 8192 * MB
    case Dw => 16384 * MB
    case Mixed => 4096 * MB
    case Desktop => 2048 * MB
  }

  /** `math.Ceil(n / 2)` on a count. */
  function CeilHalf(n: nat): (r: nat)
    ensures n <= 2 * r <= n + 1
  {
    (n + 1) / 2
  }

  /**
   * max_parallel_workers_per_gather: half the CPUs rounded up, capped at 4 unless the
   * PROFILE's workload type is dw. The same value goes into every workload type's column.
   */
  function GatherWorkers(p: Profile): (n: nat)
    requires p.cpu > 2
    ensures n >= 2
    ensures n <= CeilHalf(p.cpu)
    ensures p.dbType != Dw ==> n <= 4 && (n == CeilHalf(p.cpu) || n == 4)
    ensures p.dbType == Dw ==> n == CeilHalf(p.cpu)
  {
    var workers := CeilHalf(p.cpu);
    if p.dbType != Dw && workers > 4 then 4 else workers
  }

  /** max_parallel_maintenance_workers: half the CPUs rounded up, capped at 4. */
  function MaintenanceWorkers(p: Profile): (n: nat)
    requires p.cpu > 2
    ensures 2 <= n <= 4
    ensures n <= CeilHalf(p.cpu)
    ensures n == CeilHalf(p.cpu) || n == 4
  {
    var workers := CeilHalf(p.cpu);
    if workers > 4 then 4 else workers
  }

  // ---------------------------------------------------------------------------
  // Version-keyed defaults (`DbDefaultValues`)
  // ---------------------------------------------------------------------------

  const DbDefaultValues: map<string, map<Params.Param, string>> := map[
    "9.5" := map[Params.MaxWorkerProcesses := "8"],
    "9.6" := map[Params.MaxWorkerProcesses := "8", Params.MaxParallelWorkersPerGather := "0"],
    "10" := map[Params.MaxWorkerProcesses := "8", Params.MaxParallelWorkersPerGather := "2", Params.MaxParallelWorkers := "8"],
    "11" := map[Params.MaxWorkerProcesses := "8", Params.MaxParallelWorkersPerGather := "2", Params.MaxParallelWorkers := "8"],
    "12" := map[Params.MaxWorkerProcesses := "8", Params.MaxParallelWorkersPerGather := "2", Params.MaxParallelWorkers := "8"],
    "13" := map[Params.MaxWorkerProcesses := "8", Params.MaxParallelWorkersPerGather := "2", Params.MaxParallelWorkers := "8"],
    "14" := map[Params.MaxWorkerProcesses := "8", Params.MaxParallelWorkersPerGather := "2", Params.MaxParallelWorkers := "8"]
  ]

  /** Nested lookup in the defaults, with Go's empty-string result for a missing key. */
  function DefaultValue(versionKey: string, name: Params.Param): string {
    if versionKey in DbDefaultValues && name in DbDefaultValues[versionKey]
    then DbDefaultValues[versionKey][name] else ""
  }

  /** A looked-up worker count, with the fallback of 1 for a missing or zero value. */
  function ParallelFrom(text: string): int {
    var n := AtoiOrZero(text);
    if n == 0 then 1 else n
  }

  /**
   * The parallelism work_mem assumes when no gather table exists. The defaults are keyed
   * by `Itoa(int(version))`, so every 9.x version looks up the key "9".
   */
  function DefaultParallel(v: Version): int {
    ParallelFrom(DefaultValue(Show(Tenths(v) / 10), Params.MaxParallelWorkersPerGather))
  }

  /** The same lookup keyed by the exact version name instead. */
  function ExactKeyParallel(v: Version): int {
    ParallelFrom(DefaultValue(VersionName(v), Params.MaxParallelWorkersPerGather))
  }

  /**
   * The default parallelism is 2 from version 10 on and 1 before, and keying the defaults
   * by the truncated version gives the same value as keying them by the exact version name.
   */
  lemma DefaultParallelValues(v: Version)
    ensures DefaultParallel(v) == (if Tenths(v) >= 100 then 2 else 1)
    ensures ExactKeyParallel(v) == DefaultParallel(v)
  {
    if Tenths(v) >= 100 {
      TruncatedKey(v);
      ExactKeyModern(v);
    } else {
      assert Tenths(v) / 10 == 9;
      NineKeyMissing();
      ExactKeyNine(v);
    }
  }

  /** From version 10 on, `Itoa(int(version))` is the version's own name. */
  lemma TruncatedKey(v: Version)
    requires Tenths(v) >= 100
    ensures Show(Tenths(v) / 10) == VersionName(v)
  {
    var n := Tenths(v) / 10;
    match v
    case V10 => assert n == 10; TwoDigitKey(1, 0, "10");
    case V11 => assert n == 11; TwoDigitKey(1, 1, "11");
    case V12 => assert n == 12; TwoDigitKey(1, 2, "12");
    case V13 => assert n == 13; TwoDigitKey(1, 3, "13");
    case V14 => assert n == 14; TwoDigitKey(1, 4, "14");
  }

  lemma ExactKeyModern(v: Version)
    requires Tenths(v) >= 100
    ensures ExactKeyParallel(v) == 2
  {
    match v
    case V10 => TwoDigitKey(1, 0, "10");
    case V11 => TwoDigitKey(1, 1, "11");
    case V12 => TwoDigitKey(1, 2, "12");
    case V13 => TwoDigitKey(1, 3, "13");
    case V14 => TwoDigitKey(1, 4, "14");
  }

  lemma ExactKeyNine(v: Version)
    requires Tenths(v) < 100
    ensures ExactKeyParallel(v) == 1
  {
    match v
    case V9_4 => MissingDefault("9.4");
    case V9_5 => MissingDefault("9.5");
    case V9_6 => DefaultZeroGather("9.6");
  }

  /** No default is kept under the truncated key "9". */
  lemma NineKeyMissing()
    ensures ParallelFrom(DefaultValue(Show(9), Params.MaxParallelWorkersPerGather)) == 1
  {
    assert Show(9) == "9";
    assert "9" !in DbDefaultValues;
    AtoiRejectsEmpty();
  }

  /** Neither 9.4 nor 9.5 has a gather default. */
  lemma MissingDefault(key: string)
    requires key == "9.4" || key == "9.5"
    ensures ParallelFrom(DefaultValue(key, Params.MaxParallelWorkersPerGather)) == 1
  {
    assert DefaultValue(key, Params.MaxParallelWorkersPerGather) == "";
    AtoiRejectsEmpty();
  }

  lemma DefaultZeroGather(key: string)
    requires key == "9.6"
    ensures ParallelFrom(DefaultValue(key, Params.MaxParallelWorkersPerGather)) == 1
  {
    AtoiOfShow(0);
    assert Show(0) == "0";
  }

  lemma TwoDigitKey(tens: nat, units: nat, key: string)
    requires tens == 1 && units < 5 && key == [DigitChar(tens), DigitChar(units)]
    ensures Show(10 * tens + units) == key
    ensures ParallelFrom(DefaultValue(key, Params.MaxParallelWorkersPerGather)) == 2
  {
    assert Show(1) == [DigitChar(1)];
    assert Show(10 * tens + units) == Show(1) + [DigitChar(units)];
    AtoiOfShow(2);
    assert Show(2) == "2";
  }

  // ---------------------------------------------------------------------------
  // work_mem
  // ---------------------------------------------------------------------------

  /** Division of a byte count by a positive divisor; Go's truncation and Dafny's agree here. */
  function Quotient(a: nat, b: nat): (q: nat)
    requires b > 0
    ensures q <= a
  {
    DivMonotone(a, a * b, b);
    a / b
  }

  /** A byte count rounded down to whole KiB, as `(x / KB) * KB`. */
  function FloorKb(x: nat): (r: nat)
    ensures r % KB == 0
    ensures r <= x < r + KB
  {
    var q := x / KB;
    assert x == q * KB + x % KB;
    q * KB
  }

  /** The final per-type division of work_mem, truncated to whole KiB. */
  function ScaleWorkMem(workMem: nat, t: DbType): (r: nat)
    ensures r % KB == 0
    ensures r <= workMem
  {
    match t
    case Web => FloorKb(workMem)
    case Oltp => FloorKb(workMem)
    case Dw => FloorKb(Quotient(workMem, 2))
    case Mixed => FloorKb(Quotient(workMem, 2))
    case Desktop => FloorKb(Quotient(workMem, 6))
  }

  /**
   * The parallelism work_mem divides by: the gather value when the gather table exists,
   * else the version's default.
   */
  function Parallelism(p: Profile): (n: nat)
    ensures n > 0
  {
    DefaultParallelValues(p.version);
    if p.cpu > 2 then GatherWorkers(p) else DefaultParallel(p.version)
  }

  /**
   * The work_mem formula: memory left after shared_buffers, over three times the connection
   * count, over the parallelism, then scaled per type to whole KiB.
   */
  function WorkMemFrom(spare: nat, connections: int, parallel: int, t: DbType): (r: nat)
    requires connections > 0 && parallel > 0
    ensures r % KB == 0
    ensures r <= spare
  {
    ScaleWorkMem(Quotient(Quotient(spare, connections * 3), parallel), t)
  }

  /** work_mem for one workload type, in closed form over the profile. */
  function WorkMem(p: Profile, t: DbType): (r: nat)
    ensures r % KB == 0
    ensures r <= p.memory
  {
    WorkMemFrom(p.memory - SharedBuffers(p, t), ConnectionCount(p, t), Parallelism(p), t)
  }
}
