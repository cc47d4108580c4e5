/**
 * The configuration parameters the engine derives, as a closed enumeration, with the
 * PostgreSQL name each one is stored and looked up under.
 */
module Params {
  import opened Results

  datatype Param =
    | SharedBuffers
    | EffectiveCacheSize
    | MaintenanceWorkMem
    | WalBuffers
    | MinWalSize
    | MaxWalSize
    | WorkMem
    | MaxConnections
    | CheckpointCompletionTarget
    | DefaultStatisticsTarget
    | RandomPageCost
    | CheckpointSegments
    | EffectiveIoConcurrency
    | MaxWorkerProcesses
    | MaxParallelWorkersPerGather
    | MaxParallelWorkers
    | MaxParallelMaintenanceWorkers

  /** Every parameter, in declaration order. */
  const AllParams: seq<Param> := [
    SharedBuffers, EffectiveCacheSize, MaintenanceWorkMem, WalBuffers, MinWalSize, MaxWalSize,
    WorkMem, MaxConnections, CheckpointCompletionTarget, DefaultStatisticsTarget, RandomPageCost,
    CheckpointSegments, EffectiveIoConcurrency, MaxWorkerProcesses, MaxParallelWorkersPerGather,
    MaxParallelWorkers, MaxParallelMaintenanceWorkers
  ]

  lemma AllParamsComplete()
    ensures forall k :: k in AllParams
  {
    forall k
      ensures k in AllParams
    {
      match k
      case SharedBuffers =>
      case EffectiveCacheSize =>
      case MaintenanceWorkMem =>
      case WalBuffers =>
      case MinWalSize =>
      case MaxWalSize =>
      case WorkMem =>
      case MaxConnections =>
      case CheckpointCompletionTarget =>
      case DefaultStatisticsTarget =>
      case RandomPageCost =>
      case CheckpointSegments =>
      case EffectiveIoConcurrency =>
      case MaxWorkerProcesses =>
      case MaxParallelWorkersPerGather =>
      case MaxParallelWorkers =>
      case MaxParallelMaintenanceWorkers =>
    }
  }

  /** The parameter's name in `postgresql.conf`, the key of the settings maps. */
  function Name(k: Param): string {
    match k
    case SharedBuffers => "shared_buffers"
    case EffectiveCacheSize => "effective_cache_size"
    case MaintenanceWorkMem => "maintenance_work_mem"
    case WalBuffers => "wal_buffers"
    case MinWalSize => "min_wal_size"
    case MaxWalSize => "max_wal_size"
    case WorkMem => "work_mem"
    case MaxConnections => "max_connections"
    case CheckpointCompletionTarget => "checkpoint_completion_target"
    case DefaultStatisticsTarget => "default_statistics_target"
    case RandomPageCost => "random_page_cost"
    case CheckpointSegments => "checkpoint_segments"
    case EffectiveIoConcurrency => "effective_io_concurrency"
    case MaxWorkerProcesses => "max_worker_processes"
    case MaxParallelWorkersPerGather => "max_parallel_workers_per_gather"
    case MaxParallelWorkers => "max_parallel_workers"
    case MaxParallelMaintenanceWorkers => "max_parallel_maintenance_workers"
  }

  /** The parameter a settings-map key names, if any. */
  function Lookup(name: string): (r: Option<Param>)
    ensures r.Some? ==> Name(r.value) == name
  {
    if name == "shared_buffers" then Some(SharedBuffers)
    else if name == "effective_cache_size" then Some(EffectiveCacheSize)
    else if name == "maintenance_work_mem" then Some(MaintenanceWorkMem)
    else if name == "wal_buffers" then Some(WalBuffers)
    else if name == "min_wal_size" then Some(MinWalSize)
    else if name == "max_wal_size" then Some(MaxWalSize)
    else if name == "work_mem" then Some(WorkMem)
    else if name == "max_connections" then Some(MaxConnections)
    else if name == "checkpoint_completion_target" then Some(CheckpointCompletionTarget)
    else if name == "default_statistics_target" then Some(DefaultStatisticsTarget)
    else if name == "random_page_cost" then Some(RandomPageCost)
    else if name == "checkpoint_segments" then Some(CheckpointSegments)
    else if name == "effective_io_concurrency" then Some(EffectiveIoConcurrency)
    else if name == "max_worker_processes" then Some(MaxWorkerProcesses)
    else if name == "max_parallel_workers_per_gather" then Some(MaxParallelWorkersPerGather)
    else if name == "max_parallel_workers" then Some(MaxParallelWorkers)
    else if name == "max_parallel_maintenance_workers" then Some(MaxParallelMaintenanceWorkers)
    else None
  }

  /** Every parameter's name looks up that parameter, so no two parameters share a name. */
  lemma LookupName(k: Param)
    ensures Lookup(Name(k)) == Some(k)
  {
    LookupMemoryNames();
    LookupPlannerNames();
    LookupIoNames();
    LookupWorkerNames();
    LookupParallelNames();
  }

  /** The memory-valued parameters are found under their names. */
  lemma LookupMemoryNames()
    ensures Lookup(Name(SharedBuffers)) == Some(SharedBuffers)
    ensures Lookup(Name(EffectiveCacheSize)) == Some(EffectiveCacheSize)
    ensures Lookup(Name(MaintenanceWorkMem)) == Some(MaintenanceWorkMem)
    ensures Lookup(Name(WalBuffers)) == Some(WalBuffers)
    ensures Lookup(Name(MinWalSize)) == Some(MinWalSize)
    ensures Lookup(Name(MaxWalSize)) == Some(MaxWalSize)
    ensures Lookup(Name(WorkMem)) == Some(WorkMem)
  {
  }

  /** The connection, checkpoint and planner parameters are found under their names. */
  lemma LookupPlannerNames()
    ensures Lookup(Name(MaxConnections)) == Some(MaxConnections)
    ensures Lookup(Name(CheckpointCompletionTarget)) == Some(CheckpointCompletionTarget)
    ensures Lookup(Name(DefaultStatisticsTarget)) == Some(DefaultStatisticsTarget)
  {
  }

  /** The cost, segment and I/O parameters are found under their names. */
  lemma LookupIoNames()
    ensures Lookup(Name(RandomPageCost)) == Some(RandomPageCost)
    ensures Lookup(Name(CheckpointSegments)) == Some(CheckpointSegments)
    ensures Lookup(Name(EffectiveIoConcurrency)) == Some(EffectiveIoConcurrency)
  {
  }

  /** The worker-process and gather parameters are found under their names. */
  lemma LookupWorkerNames()
    ensures Lookup(Name(MaxWorkerProcesses)) == Some(MaxWorkerProcesses)
    ensures Lookup(Name(MaxParallelWorkersPerGather)) == Some(MaxParallelWorkersPerGather)
  {
  }

  /** The parallel-worker parameters are found under their names. */
  lemma LookupParallelNames()
    ensures Lookup(Name(MaxParallelWorkers)) == Some(MaxParallelWorkers)
    ensures Lookup(Name(MaxParallelMaintenanceWorkers)) == Some(MaxParallelMaintenanceWorkers)
  {
  }

  /** A key that is no parameter's name looks up nothing, and only such a key does. */
  lemma LookupNone(name: string)
    ensures Lookup(name).None? <==> forall k :: Name(k) != name
  {
    if Lookup(name).None? {
      forall k
        ensures Name(k) != name
      {
        LookupName(k);
      }
    }
  }

  /** Distinct parameters have distinct names. */
  lemma NameInjective(a: Param, b: Param)
    requires Name(a) == Name(b)
    ensures a == b
  {
    LookupName(a);
    LookupName(b);
  }

  /** No other parameter shares `k`'s name. */
  lemma NameInjectiveAll(k: Param)
    ensures forall j :: Name(j) == Name(k) ==> j == k
  {
    forall j | Name(j) == Name(k)
      ensures j == k
    {
      NameInjective(j, k);
    }
  }
}
