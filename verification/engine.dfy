/**
 * The recalculation engine (`recalculate`): from a profile it derives, in dependency
 * order, one table of memory quantities and one table of plain strings per parameter,
 * each keyed by workload type or by storage class.
 */
module Engine {
  import opened Decimal
  import opened Memory
  import opened Profile
  import opened Formulas
  import Params

  /** A key of a per-parameter table: a workload type or a storage class, never both in one table. */
  datatype Category = TypeKey(dbType: DbType) | StorageKey(storage: Storage)

  type MemTable = map<Category, nat>

  type StrTable = map<Category, string>

  /** The derived parameter tables (`memSettings` and `strSettings`). */
  datatype Tables = Tables(mem: map<Params.Param, MemTable>, str: map<Params.Param, StrTable>)

  const TypeKeys: set<Category> :=
    {TypeKey(Web), TypeKey(Oltp), TypeKey(Dw), TypeKey(Mixed), TypeKey(Desktop)}

  const StorageKeys: set<Category> := {StorageKey(Ssd), StorageKey(Hdd), StorageKey(San)}

  /** Reading a memory table: a missing category reads as a zero byte count. */
  function MemAt(table: MemTable, c: Category): nat {
    if c in table then table[c] else 0
  }

  /** Reading a string table: a missing category reads as the empty string. */
  function StrAt(table: StrTable, c: Category): string {
    if c in table then table[c] else ""
  }

  /** Reading a string parameter: a missing parameter reads as an empty table. */
  function Entry(str: map<Params.Param, StrTable>, name: Params.Param, c: Category): string {
    if name in str then StrAt(str[name], c) else ""
  }

  /** Every workload type is in the iteration order `AllTypes`, and has its key among the type keys. */
  lemma TypesComplete()
    ensures forall t :: t in AllTypes && TypeKey(t) in TypeKeys
  {
    forall t
      ensures t in AllTypes && TypeKey(t) in TypeKeys
    {
      match t
      case Web =>
      case Oltp =>
      case Dw =>
      case Mixed =>
      case Desktop =>
    }
  }

  /** Every storage class has its key among the storage keys. */
  lemma StoragesComplete()
    ensures forall st :: StorageKey(st) in StorageKeys
  {
    forall st
      ensures StorageKey(st) in StorageKeys
    {
      match st
      case Ssd =>
      case Hdd =>
      case San =>
    }
  }

  function ByType<V>(web: V, oltp: V, dw: V, mixed: V, desktop: V): (m: map<Category, V>)
    ensures m.Keys == TypeKeys
    ensures m[TypeKey(Web)] == web && m[TypeKey(Oltp)] == oltp && m[TypeKey(Dw)] == dw
    ensures m[TypeKey(Mixed)] == mixed && m[TypeKey(Desktop)] == desktop
  {
    map[TypeKey(Web) := web, TypeKey(Oltp) := oltp, TypeKey(Dw) := dw,
        TypeKey(Mixed) := mixed, TypeKey(Desktop) := desktop]
  }

  function ByStorage<V>(ssd: V, hdd: V, san: V): (m: map<Category, V>)
    ensures m.Keys == StorageKeys
    ensures m[StorageKey(Ssd)] == ssd && m[StorageKey(Hdd)] == hdd && m[StorageKey(San)] == san
  {
    map[StorageKey(Ssd) := ssd, StorageKey(Hdd) := hdd, StorageKey(San) := san]
  }

  /** A table with one entry per workload type, computed by `f`. */
  function PerType<V>(f: DbType -> V): (m: map<Category, V>)
    ensures m.Keys == TypeKeys
    ensures forall t :: TypeKey(t) in m && m[TypeKey(t)] == f(t)
    ensures forall c :: c in m ==> c.TypeKey? && m[c] == f(c.dbType)
  {
    var m := ByType(f(Web), f(Oltp), f(Dw), f(Mixed), f(Desktop));
    ByTypeLookup(f, m);
    m
  }

  lemma ByTypeLookup<V>(f: DbType -> V, m: map<Category, V>)
    requires m == ByType(f(Web), f(Oltp), f(Dw), f(Mixed), f(Desktop))
    ensures forall t :: TypeKey(t) in m && m[TypeKey(t)] == f(t)
  {
    forall t
      ensures TypeKey(t) in m && m[TypeKey(t)] == f(t)
    {
      match t
      case Web =>
      case Oltp =>
      case Dw =>
      case Mixed =>
      case Desktop =>
    }
  }

  // ---------------------------------------------------------------------------
  // The per-parameter tables
  // ---------------------------------------------------------------------------

  function SharedBuffersTable(p: Profile): MemTable {
    PerType(t => SharedBuffers(p, t))
  }

  function EffectiveCacheSizeTable(p: Profile): MemTable {
    PerType(t => EffectiveCacheSize(p.memory, t))
  }

  function MaintenanceWorkMemTable(p: Profile): MemTable {
    PerType(t => MaintenanceWorkMem(p, t))
  }

  /** wal_buffers reads each type's entry of the shared_buffers table. */
  function WalBuffersTable(p: Profile): MemTable {
    PerType(t => WalBuffers(MemAt(SharedBuffersTable(p), TypeKey(t))))
  }

  function MinWalSizeTable(): MemTable {
    PerType(t => MinWalSize(t))
  }

  function MaxWalSizeTable(): MemTable {
    PerType(t => MaxWalSize(t))
  }

  function MaxConnectionsTable(p: Profile): StrTable {
    PerType(t => Show(ConnectionCount(p, t)))
  }

  function CheckpointCompletionTargetTable(): StrTable {
    PerType(t => "0.9")
  }

  function DefaultStatisticsTargetTable(): StrTable {
    PerType(DefaultStatisticsTarget)
  }

  function RandomPageCostTable(): StrTable {
    ByStorage("1.1", "4", "1.1")
  }

  function CheckpointSegmentsTable(): StrTable {
    PerType(t => Show(CheckpointSegments(t)))
  }

  function EffectiveIoConcurrencyTable(): StrTable {
    ByStorage("200", "2", "300")
  }

  function WorkerProcessesTable(p: Profile): StrTable
    requires p.cpu > 2
  {
    PerType(t => Show(p.cpu))
  }

  /** The gather cap looks at the profile's workload type, so every column holds the same value. */
  function GatherTable(p: Profile): StrTable
    requires p.cpu > 2
  {
    PerType(t => Show(GatherWorkers(p)))
  }

  function ParallelWorkersTable(p: Profile): StrTable
    requires p.cpu > 2
  {
    PerType(t => Show(p.cpu))
  }

  function MaintenanceWorkersTable(p: Profile): StrTable
    requires p.cpu > 2
  {
    PerType(t => Show(MaintenanceWorkers(p)))
  }

  // ---------------------------------------------------------------------------
  // Which parameters a profile gets
  // ---------------------------------------------------------------------------

  /** Whether the CPU-driven parameters are produced: version above 9.5 and more than 2 CPUs. */
  predicate HasCpuSettings(p: Profile) {
    Tenths(p.version) > 95 && p.cpu > 2
  }

  /**
   * The memory parameters of a profile: four always, min_wal_size and max_wal_size from
   * version 9.5 on, work_mem above version 9.5.
   */
  predicate MemPresent(p: Profile, k: Params.Param) {
    match k
    case SharedBuffers | EffectiveCacheSize | MaintenanceWorkMem | WalBuffers => true
    case MinWalSize | MaxWalSize => Tenths(p.version) >= 95
    case WorkMem => Tenths(p.version) > 95
    case _ => false
  }

  /**
   * The string parameters of a profile: four always, checkpoint_segments before 9.5,
   * effective_io_concurrency on Linux, and the worker counts when there are CPU settings,
   * each from the version that introduced it.
   */
  predicate StrPresent(p: Profile, k: Params.Param) {
    match k
    case MaxConnections | CheckpointCompletionTarget | DefaultStatisticsTarget | RandomPageCost => true
    case CheckpointSegments => Tenths(p.version) < 95
    case EffectiveIoConcurrency => p.platform == Linux
    case MaxWorkerProcesses => HasCpuSettings(p)
    case MaxParallelWorkersPerGather => HasCpuSettings(p) && Tenths(p.version) >= 96
    case MaxParallelWorkers => HasCpuSettings(p) && Tenths(p.version) >= 100
    case MaxParallelMaintenanceWorkers => HasCpuSettings(p) && Tenths(p.version) >= 110
    case _ => false
  }

  /** The string table of each string parameter. */
  function StrTableOf(p: Profile, k: Params.Param): StrTable {
    match k
    case MaxConnections => MaxConnectionsTable(p)
    case CheckpointCompletionTarget => CheckpointCompletionTargetTable()
    case DefaultStatisticsTarget => DefaultStatisticsTargetTable()
    case RandomPageCost => RandomPageCostTable()
    case CheckpointSegments => CheckpointSegmentsTable()
    case EffectiveIoConcurrency => EffectiveIoConcurrencyTable()
    case MaxWorkerProcesses => if p.cpu > 2 then WorkerProcessesTable(p) else map[]
    case MaxParallelWorkersPerGather => if p.cpu > 2 then GatherTable(p) else map[]
    case MaxParallelWorkers => if p.cpu > 2 then ParallelWorkersTable(p) else map[]
    case MaxParallelMaintenanceWorkers => if p.cpu > 2 then MaintenanceWorkersTable(p) else map[]
    case _ => map[]
  }

  /** All string parameters (`strSettings`). */
  function StrSettings(p: Profile): map<Params.Param, StrTable> {
    map k | k in Params.AllParams && StrPresent(p, k) :: StrTableOf(p, k)
  }

  // ---------------------------------------------------------------------------
  // The work_mem loop
  // ---------------------------------------------------------------------------

  /** For one workload type, the divisors of the work_mem formula are positive and nothing goes negative. */
  ghost predicate TypeReady(memory: nat, sharedBuffers: MemTable, str: map<Params.Param, StrTable>, t: DbType) {
    && MemAt(sharedBuffers, TypeKey(t)) <= memory
    && AtoiOrZero(Entry(str, Params.MaxConnections, TypeKey(t))) > 0
    && (Entry(str, Params.MaxParallelWorkersPerGather, TypeKey(t)) != "" ==>
          AtoiOrZero(Entry(str, Params.MaxParallelWorkersPerGather, TypeKey(t))) > 0)
  }

  /** The work_mem loop is safe for every one of these types, starting from `parallel`. */
  ghost predicate WorkMemReady(memory: nat, sharedBuffers: MemTable, str: map<Params.Param, StrTable>,
                               types: seq<DbType>, parallel: int)
  {
    && parallel > 0
    && forall t :: t in types ==> TypeReady(memory, sharedBuffers, str, t)
  }

  /** `parallelForWorkMem` after one iteration: a non-empty gather entry replaces it. */
  function NextParallel(str: map<Params.Param, StrTable>, t: DbType, parallel: int): int {
    var gather := Entry(str, Params.MaxParallelWorkersPerGather, TypeKey(t));
    if gather != "" then AtoiOrZero(gather) else parallel
  }

  /** One iteration's work_mem entry, from the entries it reads back out of the tables. */
  function TypeWorkMem(memory: nat, sharedBuffers: MemTable, str: map<Params.Param, StrTable>,
                       t: DbType, parallel: int): (r: nat)
    requires TypeReady(memory, sharedBuffers, str, t) && parallel > 0
    ensures r % KB == 0
    ensures r <= memory
  {
    var connections := AtoiOrZero(Entry(str, Params.MaxConnections, TypeKey(t)));
    WorkMemFrom(memory - MemAt(sharedBuffers, TypeKey(t)), connections, parallel, t)
  }

  /**
   * The work_mem loop over the workload types, in order. `parallel` carries
   * `parallelForWorkMem` from one iteration to the next.
   */
  function WorkMemEntries(memory: nat, sharedBuffers: MemTable, str: map<Params.Param, StrTable>,
                          types: seq<DbType>, parallel: int, acc: MemTable): (r: MemTable)
    requires WorkMemReady(memory, sharedBuffers, str, types, parallel)
    ensures forall c :: c in r <==> c in acc || (c.TypeKey? && c.dbType in types)
    ensures (forall c :: c in acc ==> acc[c] % KB == 0) ==> forall c :: c in r ==> r[c] % KB == 0
    decreases |types|
  {
    if types == [] then acc
    else
      var t := types[0];
      assert TypeReady(memory, sharedBuffers, str, t);
      var par := NextParallel(str, t, parallel);
      var acc' := acc[TypeKey(t) := TypeWorkMem(memory, sharedBuffers, str, t, par)];
      TailMembers(types);
      assert forall c :: c in acc' ==> acc'[c] % KB == 0 || (c in acc && acc'[c] == acc[c]);
      WorkMemEntries(memory, sharedBuffers, str, types[1..], par, acc')
  }

  /** The members of a non-empty sequence are its head and the members of its tail. */
  lemma TailMembers<T>(s: seq<T>)
    requires s != []
    ensures forall u :: u in s <==> u == s[0] || u in s[1..]
  {
  }

  /** The entries the work_mem loop reads, for one workload type. */
  lemma WorkMemInputs(p: Profile, t: DbType)
    ensures MemAt(SharedBuffersTable(p), TypeKey(t)) == SharedBuffers(p, t)
    ensures Entry(StrSettings(p), Params.MaxConnections, TypeKey(t)) == Show(ConnectionCount(p, t))
    ensures HasCpuSettings(p) ==>
              Entry(StrSettings(p), Params.MaxParallelWorkersPerGather, TypeKey(t)) == Show(GatherWorkers(p))
    ensures !HasCpuSettings(p) ==> Entry(StrSettings(p), Params.MaxParallelWorkersPerGather, TypeKey(t)) == ""
  {
    ConnectionsEntry(p, t);
    GatherEntry(p, t);
  }

  lemma ConnectionsEntry(p: Profile, t: DbType)
    ensures Entry(StrSettings(p), Params.MaxConnections, TypeKey(t)) == Show(ConnectionCount(p, t))
  {
    assert Params.MaxConnections in Params.AllParams;
  }

  lemma GatherEntry(p: Profile, t: DbType)
    ensures HasCpuSettings(p) ==>
              Entry(StrSettings(p), Params.MaxParallelWorkersPerGather, TypeKey(t)) == Show(GatherWorkers(p))
    ensures !HasCpuSettings(p) ==> Entry(StrSettings(p), Params.MaxParallelWorkersPerGather, TypeKey(t)) == ""
  {
    if HasCpuSettings(p) {
      assert Params.MaxParallelWorkersPerGather in Params.AllParams;
      assert Tenths(p.version) >= 96;
    }
  }

  /** In a recalculation the work_mem loop's divisors are positive and nothing goes negative. */
  lemma WorkMemReadyInRecalculate(p: Profile)
    ensures WorkMemReady(p.memory, SharedBuffersTable(p), StrSettings(p), AllTypes, DefaultParallel(p.version))
  {
    DefaultParallelValues(p.version);
    forall t | t in AllTypes
      ensures TypeReady(p.memory, SharedBuffersTable(p), StrSettings(p), t)
    {
      WorkMemInputs(p, t);
      AtoiOfShow(ConnectionCount(p, t));
      if HasCpuSettings(p) {
        AtoiOfShow(GatherWorkers(p));
      }
    }
  }

  /**
   * The work_mem table: the loop over the workload types, reading shared_buffers and the
   * string tables back as `recalculate` does.
   */
  function WorkMemTable(p: Profile): MemTable {
    WorkMemReadyInRecalculate(p);
    WorkMemEntries(p.memory, SharedBuffersTable(p), StrSettings(p), AllTypes, DefaultParallel(p.version), map[])
  }

  /** The memory table of each memory parameter. */
  function MemTableOf(p: Profile, k: Params.Param): MemTable {
    match k
    case SharedBuffers => SharedBuffersTable(p)
    case EffectiveCacheSize => EffectiveCacheSizeTable(p)
    case MaintenanceWorkMem => MaintenanceWorkMemTable(p)
    case WalBuffers => WalBuffersTable(p)
    case MinWalSize => MinWalSizeTable()
    case MaxWalSize => MaxWalSizeTable()
    case WorkMem => WorkMemTable(p)
    case _ => map[]
  }

  /** `recalculate`: every table rebuilt from the profile alone. */
  function Recalculate(p: Profile): Tables {
    Tables(
      map k | k in Params.AllParams && MemPresent(p, k) :: MemTableOf(p, k),
      StrSettings(p))
  }

  // ---------------------------------------------------------------------------
  // Properties of the recalculation
  // ---------------------------------------------------------------------------

  /** The parameters in a recalculation are those the presence predicates admit. */
  lemma PresentKeys(p: Profile)
    ensures forall k :: k in Recalculate(p).mem <==> MemPresent(p, k)
    ensures forall k :: k in Recalculate(p).str <==> StrPresent(p, k)
  {
    Params.AllParamsComplete();
  }

  /** The parameters `recalculate` can put in the memory table. */
  const MemParams: set<Params.Param> := {
    Params.SharedBuffers, Params.EffectiveCacheSize, Params.MaintenanceWorkMem, Params.WalBuffers,
    Params.MinWalSize, Params.MaxWalSize, Params.WorkMem}

  /** The parameters `recalculate` can put in the string table. */
  const StrParams: set<Params.Param> := {
    Params.MaxConnections, Params.CheckpointCompletionTarget, Params.DefaultStatisticsTarget,
    Params.RandomPageCost, Params.CheckpointSegments, Params.EffectiveIoConcurrency,
    Params.MaxWorkerProcesses, Params.MaxParallelWorkersPerGather, Params.MaxParallelWorkers,
    Params.MaxParallelMaintenanceWorkers}

  /**
   * Which parameters a profile gets: the four memory and four string parameters of the base
   * maps always, and each conditional one exactly when its version, platform or CPU test
   * holds.
   */
  lemma ParamPresence(p: Profile)
    ensures && Params.SharedBuffers in Recalculate(p).mem
            && Params.EffectiveCacheSize in Recalculate(p).mem
            && Params.MaintenanceWorkMem in Recalculate(p).mem
            && Params.WalBuffers in Recalculate(p).mem
    ensures && Params.MaxConnections in Recalculate(p).str
            && Params.CheckpointCompletionTarget in Recalculate(p).str
            && Params.DefaultStatisticsTarget in Recalculate(p).str
            && Params.RandomPageCost in Recalculate(p).str
    ensures Params.CheckpointSegments in Recalculate(p).str <==> Tenths(p.version) < 95
    ensures Params.MinWalSize in Recalculate(p).mem <==> Tenths(p.version) >= 95
    ensures Params.MaxWalSize in Recalculate(p).mem <==> Tenths(p.version) >= 95
    ensures Params.EffectiveIoConcurrency in Recalculate(p).str <==> p.platform == Linux
    ensures Params.MaxWorkerProcesses in Recalculate(p).str <==> Tenths(p.version) > 95 && p.cpu > 2
    ensures Params.MaxParallelWorkersPerGather in Recalculate(p).str <==>
              Tenths(p.version) > 95 && p.cpu > 2 && Tenths(p.version) >= 96
    ensures Params.MaxParallelWorkers in Recalculate(p).str <==>
              Tenths(p.version) > 95 && p.cpu > 2 && Tenths(p.version) >= 100
    ensures Params.MaxParallelMaintenanceWorkers in Recalculate(p).str <==>
              Tenths(p.version) > 95 && p.cpu > 2 && Tenths(p.version) >= 110
    ensures Params.WorkMem in Recalculate(p).mem <==> Tenths(p.version) > 95
  {
    PresentKeys(p);
    MemPresenceRules(p, Recalculate(p).mem.Keys);
    StrPresenceRules(p, Recalculate(p).str.Keys);
  }

  /** The memory presence predicate, read as the tests of `recalculate`. */
  lemma MemPresenceRules(p: Profile, keys: set<Params.Param>)
    requires forall k :: k in keys <==> MemPresent(p, k)
    ensures && Params.SharedBuffers in keys && Params.EffectiveCacheSize in keys
            && Params.MaintenanceWorkMem in keys && Params.WalBuffers in keys
    ensures Params.MinWalSize in keys <==> Tenths(p.version) >= 95
    ensures Params.MaxWalSize in keys <==> Tenths(p.version) >= 95
    ensures Params.WorkMem in keys <==> Tenths(p.version) > 95
  {
    assert MemPresent(p, Params.SharedBuffers) && MemPresent(p, Params.EffectiveCacheSize);
    assert MemPresent(p, Params.MaintenanceWorkMem) && MemPresent(p, Params.WalBuffers);
  }

  /** The string presence predicate, read as the tests of `recalculate`. */
  lemma StrPresenceRules(p: Profile, keys: set<Params.Param>)
    requires forall k :: k in keys <==> StrPresent(p, k)
    ensures && Params.MaxConnections in keys && Params.CheckpointCompletionTarget in keys
            && Params.DefaultStatisticsTarget in keys && Params.RandomPageCost in keys
    ensures Params.CheckpointSegments in keys <==> Tenths(p.version) < 95
    ensures Params.EffectiveIoConcurrency in keys <==> p.platform == Linux
    ensures Params.MaxWorkerProcesses in keys <==> Tenths(p.version) > 95 && p.cpu > 2
    ensures Params.MaxParallelWorkersPerGather in keys <==>
              Tenths(p.version) > 95 && p.cpu > 2 && Tenths(p.version) >= 96
    ensures Params.MaxParallelWorkers in keys <==>
              Tenths(p.version) > 95 && p.cpu > 2 && Tenths(p.version) >= 100
    ensures Params.MaxParallelMaintenanceWorkers in keys <==>
              Tenths(p.version) > 95 && p.cpu > 2 && Tenths(p.version) >= 110
  {
    assert StrPresent(p, Params.MaxConnections) && StrPresent(p, Params.CheckpointCompletionTarget);
    assert StrPresent(p, Params.DefaultStatisticsTarget) && StrPresent(p, Params.RandomPageCost);
  }

  /** Nothing outside the two parameter sets is ever added to a recalculation. */
  lemma PresentKeysWithin(p: Profile)
    ensures Recalculate(p).mem.Keys <= MemParams
    ensures Recalculate(p).str.Keys <= StrParams
  {
    PresentKeys(p);
    forall k | k in Recalculate(p).mem
      ensures k in MemParams
    {
      assert MemPresent(p, k);
    }
    forall k | k in Recalculate(p).str
      ensures k in StrParams
    {
      assert StrPresent(p, k);
    }
  }

  /** No parameter is both a memory parameter and a string parameter. */
  lemma MemStrDisjoint(p: Profile)
    ensures Recalculate(p).mem.Keys !! Recalculate(p).str.Keys
  {
    forall k | k in Recalculate(p).mem
      ensures k !in Recalculate(p).str
    {
      assert MemPresent(p, k);
    }
  }

  /** The gates between the presence predicates. */
  lemma PresenceGates(p: Profile)
    ensures MemPresent(p, Params.MinWalSize) <==> !StrPresent(p, Params.CheckpointSegments)
    ensures MemPresent(p, Params.MinWalSize) <==> MemPresent(p, Params.MaxWalSize)
    ensures MemPresent(p, Params.WorkMem) ==> MemPresent(p, Params.MinWalSize)
    ensures StrPresent(p, Params.MaxWorkerProcesses) ==> MemPresent(p, Params.WorkMem)
    ensures StrPresent(p, Params.MaxParallelWorkersPerGather) ==> StrPresent(p, Params.MaxWorkerProcesses)
    ensures StrPresent(p, Params.MaxParallelWorkers) ==> StrPresent(p, Params.MaxParallelWorkersPerGather)
    ensures StrPresent(p, Params.MaxParallelMaintenanceWorkers) ==> StrPresent(p, Params.MaxParallelWorkers)
  {
  }

  /**
   * The version gates: checkpoint_segments until 9.5 and the WAL size pair from then on,
   * work_mem only above 9.5.
   */
  lemma VersionGates(p: Profile)
    ensures Params.MinWalSize in Recalculate(p).mem <==> Params.CheckpointSegments !in Recalculate(p).str
    ensures Params.MinWalSize in Recalculate(p).mem <==> Params.MaxWalSize in Recalculate(p).mem
    ensures Params.WorkMem in Recalculate(p).mem ==> Params.MinWalSize in Recalculate(p).mem
  {
    PresenceGates(p);
    assert Params.MinWalSize in Params.AllParams;
    assert Params.MaxWalSize in Params.AllParams;
    assert Params.WorkMem in Params.AllParams;
    assert Params.CheckpointSegments in Params.AllParams;
  }

  /** Each worker count is produced only together with the ones introduced before it, and with work_mem. */
  lemma WorkerGates(p: Profile)
    ensures Params.MaxWorkerProcesses in Recalculate(p).str ==> Params.WorkMem in Recalculate(p).mem
    ensures Params.MaxParallelWorkersPerGather in Recalculate(p).str ==> Params.MaxWorkerProcesses in Recalculate(p).str
    ensures Params.MaxParallelWorkers in Recalculate(p).str ==> Params.MaxParallelWorkersPerGather in Recalculate(p).str
    ensures Params.MaxParallelMaintenanceWorkers in Recalculate(p).str ==> Params.MaxParallelWorkers in Recalculate(p).str
  {
    PresenceGates(p);
    assert Params.MaxWorkerProcesses in Params.AllParams;
    assert Params.MaxParallelWorkersPerGather in Params.AllParams;
    assert Params.MaxParallelWorkers in Params.AllParams;
    assert Params.MaxParallelMaintenanceWorkers in Params.AllParams;
    assert Params.WorkMem in Params.AllParams;
  }

  /** A memory table has one entry per workload type. */
  predicate GoodMemTable(table: MemTable) {
    table.Keys == TypeKeys
  }

  /** A string table has one non-empty entry per workload type or one per storage class. */
  predicate GoodStrTable(table: StrTable) {
    && (table.Keys == TypeKeys || table.Keys == StorageKeys)
    && forall c :: c in table ==> table[c] != ""
  }

  /** The shape every recalculation produces. */
  predicate WellFormed(tables: Tables) {
    && tables.mem.Keys !! tables.str.Keys
    && (forall k :: k in tables.mem ==> GoodMemTable(tables.mem[k]))
    && (forall k :: k in tables.str ==> GoodStrTable(tables.str[k]))
  }

  lemma MemTablesGood(p: Profile, k: Params.Param)
    requires MemPresent(p, k)
    ensures GoodMemTable(MemTableOf(p, k))
  {
    if k == Params.WorkMem {
      TypesComplete();
    }
  }

  lemma StrTablesGood(p: Profile, k: Params.Param)
    requires StrPresent(p, k)
    ensures GoodStrTable(StrTableOf(p, k))
  {
  }

  /** Every recalculation is well formed. */
  lemma RecalculateWellFormed(p: Profile)
    ensures WellFormed(Recalculate(p))
  {
    var r := Recalculate(p);
    MemStrDisjoint(p);
    forall k | k in r.mem
      ensures GoodMemTable(r.mem[k])
    {
      MemTablesGood(p, k);
    }
    forall k | k in r.str
      ensures GoodStrTable(r.str[k])
    {
      StrTablesGood(p, k);
    }
  }

  /** The byte count a memory parameter holds for one workload type; zero when absent. */
  function MemEntry(tables: Tables, k: Params.Param, t: DbType): nat {
    if k in tables.mem then MemAt(tables.mem[k], TypeKey(t)) else 0
  }

  /** The text a string parameter holds for one category; empty when absent. */
  function StrEntry(tables: Tables, k: Params.Param, c: Category): string {
    Entry(tables.str, k, c)
  }

  /** The table a present memory parameter holds. */
  lemma MemTableIs(p: Profile, k: Params.Param)
    requires MemPresent(p, k)
    ensures k in Recalculate(p).mem && Recalculate(p).mem[k] == MemTableOf(p, k)
  {
    Params.AllParamsComplete();
  }

  /**
   * shared_buffers is a quarter of memory, a sixteenth for desktop; before version 10 on
   * Windows it is cut to 512 MiB, and that is the only way it falls below that share.
   */
  lemma SharedBuffersEntries(p: Profile)
    ensures forall t :: MemEntry(Recalculate(p), Params.SharedBuffers, t) <= (if t == Desktop then p.memory / 16 else p.memory / 4)
    ensures forall t :: MemEntry(Recalculate(p), Params.SharedBuffers, t) < (if t == Desktop then p.memory / 16 else p.memory / 4) ==>
              CapsSharedBuffers(p) && MemEntry(Recalculate(p), Params.SharedBuffers, t) == 512 * MB
    ensures CapsSharedBuffers(p) ==> forall t :: MemEntry(Recalculate(p), Params.SharedBuffers, t) <= 512 * MB
  {
    MemTableIs(p, Params.SharedBuffers);
  }

  /**
   * max_connections: a positive connection count is written into every column, otherwise
   * each workload type gets its default; every entry reads back as a positive number.
   */
  lemma MaxConnectionsEntries(p: Profile)
    ensures p.connections > 0 ==>
              forall t :: StrEntry(Recalculate(p), Params.MaxConnections, TypeKey(t)) == Show(p.connections)
    ensures p.connections <= 0 ==>
              forall t :: StrEntry(Recalculate(p), Params.MaxConnections, TypeKey(t)) == Show(DefaultConnections(t))
    ensures forall t :: AtoiOrZero(StrEntry(Recalculate(p), Params.MaxConnections, TypeKey(t))) > 0
  {
    forall t
      ensures StrEntry(Recalculate(p), Params.MaxConnections, TypeKey(t)) == Show(ConnectionCount(p, t))
      ensures AtoiOrZero(StrEntry(Recalculate(p), Params.MaxConnections, TypeKey(t))) > 0
    {
      ConnectionsEntry(p, t);
      AtoiOfShow(ConnectionCount(p, t));
    }
  }

  /**
   * maintenance_work_mem is an eighth of memory for dw and a sixteenth otherwise, never
   * above 2 GiB.
   */
  lemma MaintenanceEntries(p: Profile)
    ensures forall t :: MemEntry(Recalculate(p), Params.MaintenanceWorkMem, t) <= 2 * GB
    ensures forall t :: MemEntry(Recalculate(p), Params.MaintenanceWorkMem, t) <= (if t == Dw then p.memory / 8 else p.memory / 16)
    ensures forall t :: (if t == Dw then p.memory / 8 else p.memory / 16) <= 2 * GB ==>
              MemEntry(Recalculate(p), Params.MaintenanceWorkMem, t) == (if t == Dw then p.memory / 8 else p.memory / 16)
  {
    MemTableIs(p, Params.MaintenanceWorkMem);
  }

  /**
   * The cut is strict: a share of exactly 2 GiB is kept, on Windows too, while a larger share
   * becomes 2 GiB less 1 MiB on Windows and 2 GiB elsewhere.
   */
  lemma MaintenanceLimitExamples()
    ensures MemEntry(Recalculate(Profile(Web, V13, Windows, 32 * GB, 0, Ssd, 0)), Params.MaintenanceWorkMem, Web) == 2 * GB
    ensures MemEntry(Recalculate(Profile(Web, V13, Windows, 48 * GB, 0, Ssd, 0)), Params.MaintenanceWorkMem, Web) == 2 * GB - MB
    ensures MemEntry(Recalculate(Profile(Web, V13, Linux, 48 * GB, 0, Ssd, 0)), Params.MaintenanceWorkMem, Web) == 2 * GB
  {
    MaintenanceEntryOf(Profile(Web, V13, Windows, 32 * GB, 0, Ssd, 0), Web);
    MaintenanceEntryOf(Profile(Web, V13, Windows, 48 * GB, 0, Ssd, 0), Web);
    MaintenanceEntryOf(Profile(Web, V13, Linux, 48 * GB, 0, Ssd, 0), Web);
  }

  /** A recalculated maintenance_work_mem entry is the per-type formula. */
  lemma MaintenanceEntryOf(p: Profile, t: DbType)
    ensures MemEntry(Recalculate(p), Params.MaintenanceWorkMem, t) == MaintenanceWorkMem(p, t)
  {
    MemTableIs(p, Params.MaintenanceWorkMem);
  }

  /**
   * wal_buffers is derived from each type's shared_buffers entry, lies between 32 bytes and
   * 16 MiB, never just under 16 MiB, and is smallest for desktop.
   */
  lemma WalBuffersEntries(p: Profile)
    ensures forall t :: MemEntry(Recalculate(p), Params.WalBuffers, t) ==
                        WalBuffers(MemEntry(Recalculate(p), Params.SharedBuffers, t))
    ensures forall t :: 32 <= MemEntry(Recalculate(p), Params.WalBuffers, t) <= 16 * MB
    ensures forall t :: !(14 * MB < MemEntry(Recalculate(p), Params.WalBuffers, t) < 16 * MB)
    ensures forall t :: MemEntry(Recalculate(p), Params.WalBuffers, Desktop) <= MemEntry(Recalculate(p), Params.WalBuffers, t)
  {
    WalEntryOf(p, Desktop);
    forall t
      ensures MemEntry(Recalculate(p), Params.WalBuffers, t) ==
              WalBuffers(MemEntry(Recalculate(p), Params.SharedBuffers, t))
      ensures MemEntry(Recalculate(p), Params.WalBuffers, Desktop) <= MemEntry(Recalculate(p), Params.WalBuffers, t)
    {
      WalEntryOf(p, t);
      WalBuffersMonotone(SharedBuffers(p, Desktop), SharedBuffers(p, t));
    }
  }

  /** One type's wal_buffers entry, read from its shared_buffers entry. */
  lemma WalEntryOf(p: Profile, t: DbType)
    ensures MemEntry(Recalculate(p), Params.SharedBuffers, t) == SharedBuffers(p, t)
    ensures MemEntry(Recalculate(p), Params.WalBuffers, t) == WalBuffers(SharedBuffers(p, t))
  {
    MemTableIs(p, Params.WalBuffers);
    MemTableIs(p, Params.SharedBuffers);
  }

  /** Before version 9.5 checkpoint_segments holds each type's segment count; from 9.5 on the WAL sizes do. */
  lemma CheckpointEntries(p: Profile)
    ensures Tenths(p.version) < 95 ==>
              forall t :: StrEntry(Recalculate(p), Params.CheckpointSegments, TypeKey(t)) == Show(CheckpointSegments(t))
    ensures Tenths(p.version) >= 95 ==>
              forall t :: && MemEntry(Recalculate(p), Params.MinWalSize, t) == MinWalSize(t)
                          && MemEntry(Recalculate(p), Params.MaxWalSize, t) == MaxWalSize(t)
  {
    assert Params.CheckpointSegments in Params.AllParams;
    if Tenths(p.version) >= 95 {
      MemTableIs(p, Params.MinWalSize);
      MemTableIs(p, Params.MaxWalSize);
    }
  }

  /** random_page_cost is keyed by storage class: 4 on spinning disks, 1.1 otherwise. */
  lemma RandomPageCostEntries(p: Profile)
    ensures StrEntry(Recalculate(p), Params.RandomPageCost, StorageKey(Ssd)) == "1.1"
    ensures StrEntry(Recalculate(p), Params.RandomPageCost, StorageKey(Hdd)) == "4"
    ensures StrEntry(Recalculate(p), Params.RandomPageCost, StorageKey(San)) == "1.1"
    ensures forall t :: StrEntry(Recalculate(p), Params.RandomPageCost, TypeKey(t)) == ""
  {
    assert Params.RandomPageCost in Params.AllParams;
  }

  /** effective_io_concurrency exists on Linux only, keyed by storage class. */
  lemma IoConcurrencyEntries(p: Profile)
    ensures p.platform == Linux ==>
              && StrEntry(Recalculate(p), Params.EffectiveIoConcurrency, StorageKey(Ssd)) == "200"
              && StrEntry(Recalculate(p), Params.EffectiveIoConcurrency, StorageKey(Hdd)) == "2"
              && StrEntry(Recalculate(p), Params.EffectiveIoConcurrency, StorageKey(San)) == "300"
    ensures p.platform != Linux ==> Params.EffectiveIoConcurrency !in Recalculate(p).str
  {
    assert Params.EffectiveIoConcurrency in Params.AllParams;
  }

  /**
   * The worker counts: max_worker_processes and max_parallel_workers are the CPU count,
   * max_parallel_workers_per_gather the profile's gather value in every column (capped at 4
   * unless the profile itself is dw), max_parallel_maintenance_workers half the CPUs capped at 4.
   */
  lemma WorkerEntries(p: Profile)
    requires HasCpuSettings(p)
    ensures forall t :: StrEntry(Recalculate(p), Params.MaxWorkerProcesses, TypeKey(t)) == Show(p.cpu)
    ensures forall t :: StrEntry(Recalculate(p), Params.MaxParallelWorkersPerGather, TypeKey(t)) == Show(GatherWorkers(p))
    ensures Tenths(p.version) >= 100 ==>
              forall t :: StrEntry(Recalculate(p), Params.MaxParallelWorkers, TypeKey(t)) == Show(p.cpu)
    ensures Tenths(p.version) >= 110 ==>
              forall t :: StrEntry(Recalculate(p), Params.MaxParallelMaintenanceWorkers, TypeKey(t)) == Show(MaintenanceWorkers(p))
  {
    forall t
      ensures StrEntry(Recalculate(p), Params.MaxWorkerProcesses, TypeKey(t)) == Show(p.cpu)
      ensures StrEntry(Recalculate(p), Params.MaxParallelWorkersPerGather, TypeKey(t)) == Show(GatherWorkers(p))
      ensures Tenths(p.version) >= 100 ==> StrEntry(Recalculate(p), Params.MaxParallelWorkers, TypeKey(t)) == Show(p.cpu)
      ensures Tenths(p.version) >= 110 ==>
                StrEntry(Recalculate(p), Params.MaxParallelMaintenanceWorkers, TypeKey(t)) == Show(MaintenanceWorkers(p))
    {
      CpuEntries(p, t);
      GatherEntry(p, t);
    }
  }

  lemma CpuEntries(p: Profile, t: DbType)
    requires HasCpuSettings(p)
    ensures Entry(StrSettings(p), Params.MaxWorkerProcesses, TypeKey(t)) == Show(p.cpu)
    ensures Tenths(p.version) >= 100 ==> Entry(StrSettings(p), Params.MaxParallelWorkers, TypeKey(t)) == Show(p.cpu)
    ensures Tenths(p.version) >= 110 ==>
              Entry(StrSettings(p), Params.MaxParallelMaintenanceWorkers, TypeKey(t)) == Show(MaintenanceWorkers(p))
  {
    WorkerProcessesEntry(p, t);
    ParallelWorkersEntry(p, t);
    MaintenanceWorkersEntry(p, t);
  }

  lemma WorkerProcessesEntry(p: Profile, t: DbType)
    requires HasCpuSettings(p)
    ensures Entry(StrSettings(p), Params.MaxWorkerProcesses, TypeKey(t)) == Show(p.cpu)
  {
    assert Params.MaxWorkerProcesses in Params.AllParams;
  }

  lemma ParallelWorkersEntry(p: Profile, t: DbType)
    requires HasCpuSettings(p)
    ensures Tenths(p.version) >= 100 ==> Entry(StrSettings(p), Params.MaxParallelWorkers, TypeKey(t)) == Show(p.cpu)
  {
    assert Params.MaxParallelWorkers in Params.AllParams;
  }

  lemma MaintenanceWorkersEntry(p: Profile, t: DbType)
    requires HasCpuSettings(p)
    ensures Tenths(p.version) >= 110 ==>
              Entry(StrSettings(p), Params.MaxParallelMaintenanceWorkers, TypeKey(t)) == Show(MaintenanceWorkers(p))
  {
    assert Params.MaxParallelMaintenanceWorkers in Params.AllParams;
  }

  /**
   * Because the gather cap tests the profile's workload type, a dw profile with 16 CPUs puts
   * 8 in the web column too, while a web profile puts 4 in the dw column.
   */
  lemma GatherQuirkExample()
    ensures StrEntry(Recalculate(Profile(Dw, V13, Linux, 16 * GB, 0, Ssd, 16)), Params.MaxParallelWorkersPerGather, TypeKey(Web)) == "8"
    ensures StrEntry(Recalculate(Profile(Web, V13, Linux, 16 * GB, 0, Ssd, 16)), Params.MaxParallelWorkersPerGather, TypeKey(Dw)) == "4"
  {
    GatherEntry(Profile(Dw, V13, Linux, 16 * GB, 0, Ssd, 16), Web);
    GatherEntry(Profile(Web, V13, Linux, 16 * GB, 0, Ssd, 16), Dw);
    assert Show(8) == "8" && Show(4) == "4";
  }

  /**
   * Once no gather entry changes the carried parallelism, the loop writes each of its types
   * the entry for that parallelism and leaves every other entry alone.
   */
  lemma {:induction false} WorkMemFold(memory: nat, sharedBuffers: MemTable, str: map<Params.Param, StrTable>,
                                      types: seq<DbType>, parallel: int, acc: MemTable, par: int)
    requires WorkMemReady(memory, sharedBuffers, str, types, parallel) && par > 0
    requires forall t :: t in types ==> NextParallel(str, t, par) == par
    requires types != [] ==> NextParallel(str, types[0], parallel) == par
    ensures forall t :: t in types ==>
              && TypeKey(t) in WorkMemEntries(memory, sharedBuffers, str, types, parallel, acc)
              && WorkMemEntries(memory, sharedBuffers, str, types, parallel, acc)[TypeKey(t)]
                 == TypeWorkMem(memory, sharedBuffers, str, t, par)
    ensures forall c :: c in acc && !(c.TypeKey? && c.dbType in types) ==>
              && c in WorkMemEntries(memory, sharedBuffers, str, types, parallel, acc)
              && WorkMemEntries(memory, sharedBuffers, str, types, parallel, acc)[c] == acc[c]
    decreases |types|
  {
    if types != [] {
      var t := types[0];
      var acc' := acc[TypeKey(t) := TypeWorkMem(memory, sharedBuffers, str, t, par)];
      TailMembers(types);
      assert types[1..] != [] ==> types[1..][0] in types;
      WorkMemFold(memory, sharedBuffers, str, types[1..], par, acc', par);
    }
  }

  /** In a recalculation no gather entry changes the parallelism `Parallelism` names. */
  lemma ParallelismSettled(p: Profile)
    requires Tenths(p.version) > 95
    ensures forall t :: NextParallel(StrSettings(p), t, Parallelism(p)) == Parallelism(p)
    ensures NextParallel(StrSettings(p), Web, DefaultParallel(p.version)) == Parallelism(p)
  {
    if HasCpuSettings(p) {
      AtoiOfShow(GatherWorkers(p));
    }
    forall t
      ensures NextParallel(StrSettings(p), t, Parallelism(p)) == Parallelism(p)
    {
      GatherEntry(p, t);
    }
    GatherEntry(p, Web);
  }

  /**
   * One step of the loop agrees with the closed form once the shared_buffers entry and the
   * connection count it reads are those of the profile.
   */
  lemma WorkMemStep(p: Profile, t: DbType, sharedBuffers: MemTable, str: map<Params.Param, StrTable>)
    requires TypeReady(p.memory, sharedBuffers, str, t)
    requires MemAt(sharedBuffers, TypeKey(t)) == SharedBuffers(p, t)
    requires AtoiOrZero(Entry(str, Params.MaxConnections, TypeKey(t))) == ConnectionCount(p, t)
    ensures TypeWorkMem(p.memory, sharedBuffers, str, t, Parallelism(p)) == WorkMem(p, t)
  {
    TypeWorkMemFrom(p.memory, sharedBuffers, str, t, Parallelism(p), p.memory - SharedBuffers(p, t), ConnectionCount(p, t));
  }

  /** The spare memory and connection count a loop step reads are those of the closed form. */
  lemma StepInputs(p: Profile, t: DbType)
    ensures MemAt(SharedBuffersTable(p), TypeKey(t)) == SharedBuffers(p, t)
    ensures AtoiOrZero(Entry(StrSettings(p), Params.MaxConnections, TypeKey(t))) == ConnectionCount(p, t)
  {
    WorkMemInputs(p, t);
    AtoiOfShow(ConnectionCount(p, t));
  }

  /** A loop step computes the closed form from the spare memory and connection count it reads. */
  lemma TypeWorkMemFrom(memory: nat, sharedBuffers: MemTable, str: map<Params.Param, StrTable>,
                        t: DbType, parallel: int, spare: nat, connections: int)
    requires TypeReady(memory, sharedBuffers, str, t) && parallel > 0
    requires memory - MemAt(sharedBuffers, TypeKey(t)) == spare
    requires AtoiOrZero(Entry(str, Params.MaxConnections, TypeKey(t))) == connections
    ensures TypeWorkMem(memory, sharedBuffers, str, t, parallel) == WorkMemFrom(spare, connections, parallel, t)
  {
  }

  /**
   * Above version 9.5 the work_mem table holds, for every workload type, the closed form:
   * memory left after that type's shared_buffers, over three times its connections, over
   * the gather value (or the version's default), scaled per type to whole KiB.
   */
  lemma WorkMemValues(p: Profile)
    requires Tenths(p.version) > 95
    ensures forall t :: MemEntry(Recalculate(p), Params.WorkMem, t) == WorkMem(p, t)
    ensures forall t :: MemEntry(Recalculate(p), Params.WorkMem, t) % KB == 0
  {
    var sb, str, par := SharedBuffersTable(p), StrSettings(p), Parallelism(p);
    MemTableIs(p, Params.WorkMem);
    WorkMemReadyInRecalculate(p);
    ParallelismSettled(p);
    WorkMemFold(p.memory, sb, str, AllTypes, DefaultParallel(p.version), map[], par);
    TypesComplete();
    forall t
      ensures MemEntry(Recalculate(p), Params.WorkMem, t) == WorkMem(p, t)
    {
      StepInputs(p, t);
      WorkMemStep(p, t, sb, str);
    }
  }
}
