/**
 * The public face of the tuner (`PGSettings`): the constructor that validates a whole
 * profile and recalculates, the public setters, and the accessors that resolve a
 * parameter's value for the profile's workload type or, failing that, its storage class.
 */
module Settings {
  import opened Results
  import opened Ascii
  import opened Decimal
  import opened Memory
  import opened Profile
  import opened Formulas
  import opened Engine
  import Params

  /** A profile together with the tables derived from it when they were last recalculated. */
  datatype PgSettings = PgSettings(profile: Profile, tables: Tables)

  /** The tables are those the current profile yields. */
  predicate Consistent(s: PgSettings) {
    s.tables == Recalculate(s.profile)
  }

  // ---------------------------------------------------------------------------
  // Construction
  // ---------------------------------------------------------------------------

  /** Every field of a constructor call is acceptable. */
  predicate ValidInput(dbType: string, dbVersion: string, platform: string, memory: string,
                       connections: string, storage: string, cpu: string)
  {
    && ParseDbType(dbType).Ok?
    && ParseVersion(dbVersion).Ok?
    && ParsePlatform(platform).Ok?
    && ParseMemory(memory).Ok?
    && ParseCount(connections, 0).Ok?
    && ParseStorage(storage).Ok?
    && ParseCount(cpu, 0).Ok?
  }

  /**
   * `NewPGSettings`: validate the fields in order, stop at the first that fails with its
   * error, and recalculate once all are set. Connections and CPU count start at zero, so
   * the empty string leaves them at zero.
   */
  function NewPgSettings(dbType: string, dbVersion: string, platform: string, memory: string,
                         connections: string, storage: string, cpu: string): (r: Result<PgSettings>)
    ensures r.Ok? <==> ValidInput(dbType, dbVersion, platform, memory, connections, storage, cpu)
    ensures ParseDbType(dbType).Err? ==> r == Err(InvalidType(Lower(dbType)))
    ensures ParseDbType(dbType).Ok? && ParseVersion(dbVersion).Err? ==> r == Err(InvalidVersion(dbVersion))
    ensures (ParseDbType(dbType).Ok? && ParseVersion(dbVersion).Ok? && ParsePlatform(platform).Err?) ==>
              r == Err(InvalidPlatform(Lower(platform)))
    ensures (ParseDbType(dbType).Ok? && ParseVersion(dbVersion).Ok? && ParsePlatform(platform).Ok? &&
             ParseMemory(memory).Err?) ==> r == Err(BadMemory(memory))
    ensures (ParseDbType(dbType).Ok? && ParseVersion(dbVersion).Ok? && ParsePlatform(platform).Ok? &&
             ParseMemory(memory).Ok? && ParseCount(connections, 0).Err?) ==> r == Err(BadInteger(connections))
    ensures (ParseDbType(dbType).Ok? && ParseVersion(dbVersion).Ok? && ParsePlatform(platform).Ok? &&
             ParseMemory(memory).Ok? && ParseCount(connections, 0).Ok? && ParseStorage(storage).Err?) ==>
              r == Err(InvalidStorage(Lower(storage)))
    ensures r.Err? && ValidInput(dbType, dbVersion, platform, memory, connections, storage, "") ==>
              r == Err(BadInteger(cpu))
    ensures r.Ok? ==> && TypeName(r.value.profile.dbType) == Lower(dbType)
                      && VersionName(r.value.profile.version) == dbVersion
                      && PlatformName(r.value.profile.platform) == Lower(platform)
                      && ParseMemory(memory) == Ok(r.value.profile.memory)
                      && ParseCount(connections, 0) == Ok(r.value.profile.connections)
                      && StorageName(r.value.profile.storage) == Lower(storage)
                      && ParseCount(cpu, 0) == Ok(r.value.profile.cpu)
    ensures r.Ok? ==> Consistent(r.value)
  {
    var t :- ParseDbType(dbType);
    var v :- ParseVersion(dbVersion);
    var pl :- ParsePlatform(platform);
    var m :- ParseMemory(memory);
    var c :- ParseCount(connections, 0);
    var st :- ParseStorage(storage);
    var n :- ParseCount(cpu, 0);
    var p := Profile(t, v, pl, m, c, st, n);
    Ok(PgSettings(p, Recalculate(p)))
  }

  /**
   * A profile written out field by field, with memory in its rendered form and the counts
   * in decimal, builds the settings of that very profile.
   */
  lemma NewFromNames(p: Profile)
    requires p.connections >= 0 && p.cpu >= 0
    ensures NewPgSettings(TypeName(p.dbType), VersionName(p.version), PlatformName(p.platform), Format(p.memory),
                          Show(p.connections), StorageName(p.storage), Show(p.cpu))
            == Ok(PgSettings(p, Recalculate(p)))
  {
    NamesParse(p.dbType, p.version, p.platform, p.storage);
    FormatRoundTrip(p.memory);
    AtoiOfShow(p.connections);
    AtoiOfShow(p.cpu);
  }

  /** Empty connection and CPU fields leave both counts at zero. */
  lemma NewWithEmptyCounts(dbType: string, dbVersion: string, platform: string, memory: string, storage: string)
    requires ValidInput(dbType, dbVersion, platform, memory, "", storage, "")
    ensures NewPgSettings(dbType, dbVersion, platform, memory, "", storage, "").Ok?
    ensures NewPgSettings(dbType, dbVersion, platform, memory, "", storage, "").value.profile.connections == 0
    ensures NewPgSettings(dbType, dbVersion, platform, memory, "", storage, "").value.profile.cpu == 0
  {
  }

  // ---------------------------------------------------------------------------
  // Public setters
  // ---------------------------------------------------------------------------

  /** The settings after a public setter ran, with the error it returned, if any. */
  datatype Outcome = Outcome(settings: PgSettings, err: Option<Error>)

  /** A setter that recalculates: on success the tables are rebuilt for the new profile. */
  function Recalculated(s: PgSettings, step: Step): (r: Outcome)
    ensures r.err == step.err
    ensures step.err.Some? ==> r.settings == s
    ensures step.err.None? ==> r.settings.profile == step.profile && Consistent(r.settings)
  {
    if step.err.Some? then Outcome(s, step.err)
    else Outcome(PgSettings(step.profile, Recalculate(step.profile)), None)
  }

  /** A setter that does not recalculate: the profile changes, the tables stay as they were. */
  function Stale(s: PgSettings, step: Step): (r: Outcome)
    ensures r.err == step.err
    ensures r.settings.tables == s.tables
    ensures step.err.Some? ==> r.settings == s
    ensures step.err.None? ==> r.settings.profile == step.profile
  {
    if step.err.Some? then Outcome(s, step.err)
    else Outcome(s.(profile := step.profile), None)
  }

  /** `SetDbType`: validate, set, recalculate. */
  function SetDbType(s: PgSettings, text: string): (r: Outcome)
    ensures r.err.Some? <==> ParseDbType(text).Err?
    ensures r.err.Some? ==> r.settings == s && r.err.value == InvalidType(Lower(text))
    ensures r.err.None? ==> && r.settings.profile == s.profile.(dbType := ParseDbType(text).value)
                            && Consistent(r.settings)
  {
    Recalculated(s, SetType(s.profile, text))
  }

  /** `SetDbVersion`: validate, set, recalculate. */
  function SetDbVersion(s: PgSettings, text: string): (r: Outcome)
    ensures r.err.Some? <==> ParseVersion(text).Err?
    ensures r.err.Some? ==> r.settings == s && r.err.value == InvalidVersion(text)
    ensures r.err.None? ==> && r.settings.profile == s.profile.(version := ParseVersion(text).value)
                            && Consistent(r.settings)
  {
    Recalculated(s, SetVersion(s.profile, text))
  }

  /** `SetDbPlatform`: validate and set; the tables are not recalculated. */
  function SetDbPlatform(s: PgSettings, text: string): (r: Outcome)
    ensures r.err.Some? <==> ParsePlatform(text).Err?
    ensures r.err.Some? ==> r.settings == s && r.err.value == InvalidPlatform(Lower(text))
    ensures r.err.None? ==> r.settings.profile == s.profile.(platform := ParsePlatform(text).value)
    ensures r.settings.tables == s.tables
  {
    Stale(s, SetPlatform(s.profile, text))
  }

  /** `SetDBMemory`: validate and set; the tables are not recalculated. */
  function SetDbMemory(s: PgSettings, text: string): (r: Outcome)
    ensures r.err.Some? <==> !Matches(Lower(text))
    ensures r.err.Some? ==> r.settings == s && r.err.value == BadMemory(text)
    ensures r.err.None? ==> r.settings.profile == s.profile.(memory := ParseMemory(text).value)
    ensures r.settings.tables == s.tables
  {
    Stale(s, SetMemory(s.profile, text))
  }

  /** `SetDBStorage`: validate and set; the tables are not recalculated. */
  function SetDbStorage(s: PgSettings, text: string): (r: Outcome)
    ensures r.err.Some? <==> ParseStorage(text).Err?
    ensures r.err.Some? ==> r.settings == s && r.err.value == InvalidStorage(Lower(text))
    ensures r.err.None? ==> r.settings.profile == s.profile.(storage := ParseStorage(text).value)
    ensures r.settings.tables == s.tables
  {
    Stale(s, SetStorage(s.profile, text))
  }

  /**
   * Changing the platform alone leaves the tables of the old platform behind: settings built
   * for Linux keep effective_io_concurrency after a switch to Windows, though a recalculation
   * for Windows has none.
   */
  lemma PlatformChangeIsStale(s: PgSettings)
    requires Consistent(s) && s.profile.platform == Linux
    ensures SetDbPlatform(s, "windows").err.None?
    ensures Params.EffectiveIoConcurrency in SetDbPlatform(s, "windows").settings.tables.str
    ensures !Consistent(SetDbPlatform(s, "windows").settings)
  {
    NamesParse(Web, V14, Windows, Ssd);
    IoConcurrencyEntries(s.profile);
    IoConcurrencyEntries(s.profile.(platform := Windows));
  }

  // ---------------------------------------------------------------------------
  // Accessors
  // ---------------------------------------------------------------------------

  /**
   * `GetMemSetting`: the parameter's entry for the profile's workload type, rendered; if
   * that rendering were empty, the entry for the storage class. A missing entry reads as
   * zero bytes, which renders as "0GB", so the storage fallback never decides the result.
   */
  function GetMemSetting(s: PgSettings, name: string): (r: Result<string>)
    ensures forall k :: Params.Name(k) == name ==>
              && (r.Ok? <==> k in s.tables.mem)
              && (r.Ok? ==> r.value == Format(MemAt(s.tables.mem[k], TypeKey(s.profile.dbType))))
    ensures (forall k :: Params.Name(k) != name) ==> r.Err?
    ensures r.Err? ==> r.error == UnknownSetting(name)
  {
    Params.LookupNone(name);
    match Params.Lookup(name)
    case None => Err(UnknownSetting(name))
    case Some(k) =>
      Params.NameInjectiveAll(k);
      if k !in s.tables.mem then Err(UnknownSetting(name))
      else
        var table := s.tables.mem[k];
        var typed := Format(MemAt(table, TypeKey(s.profile.dbType)));
        if typed != "" then Ok(typed)
        else
          var stored := Format(MemAt(table, StorageKey(s.profile.storage)));
          if stored != "" then Ok(stored) else Err(UnknownSetting(name))
  }

  /**
   * `GetStrSetting`: the parameter's entry for the profile's workload type if non-empty,
   * else its entry for the storage class if non-empty, else an error.
   */
  function GetStrSetting(s: PgSettings, name: string): (r: Result<string>)
    ensures forall k :: Params.Name(k) == name ==>
              && (r.Ok? <==> k in s.tables.str && (StrAt(s.tables.str[k], TypeKey(s.profile.dbType)) != "" ||
                                                   StrAt(s.tables.str[k], StorageKey(s.profile.storage)) != ""))
              && (r.Ok? && StrAt(s.tables.str[k], TypeKey(s.profile.dbType)) != "" ==>
                    r.value == StrAt(s.tables.str[k], TypeKey(s.profile.dbType)))
              && (r.Ok? && StrAt(s.tables.str[k], TypeKey(s.profile.dbType)) == "" ==>
                    r.value == StrAt(s.tables.str[k], StorageKey(s.profile.storage)))
    ensures (forall k :: Params.Name(k) != name) ==> r.Err?
    ensures r.Ok? ==> r.value != ""
    ensures r.Err? ==> r.error == UnknownSetting(name)
  {
    Params.LookupNone(name);
    match Params.Lookup(name)
    case None => Err(UnknownSetting(name))
    case Some(k) =>
      Params.NameInjectiveAll(k);
      if k !in s.tables.str then Err(UnknownSetting(name))
      else
        var table := s.tables.str[k];
        var typed := StrAt(table, TypeKey(s.profile.dbType));
        if typed != "" then Ok(typed)
        else
          var stored := StrAt(table, StorageKey(s.profile.storage));
          if stored != "" then Ok(stored) else Err(UnknownSetting(name))
  }

  /** The value of an accessor call with its error discarded, as `v, _ :=` does. */
  function ValueOrEmpty(r: Result<string>): string {
    if r.Ok? then r.value else ""
  }

  /** The names of the parameters a settings value holds. */
  function MemNames(s: PgSettings): set<string> {
    set k | k in s.tables.mem :: Params.Name(k)
  }

  function StrNames(s: PgSettings): set<string> {
    set k | k in s.tables.str :: Params.Name(k)
  }

  /**
   * `GetSettings`: every parameter name with the value its accessor gives; a string
   * parameter's value is written last, so it wins over a memory parameter of the same name.
   */
  function GetSettings(s: PgSettings): (r: map<string, string>)
    ensures forall k :: Params.Name(k) in r <==> k in s.tables.mem || k in s.tables.str
    ensures forall name :: name in r ==> Params.Lookup(name).Some?
    ensures forall k :: k in s.tables.str ==> r[Params.Name(k)] == ValueOrEmpty(GetStrSetting(s, Params.Name(k)))
    ensures forall k :: k in s.tables.mem && k !in s.tables.str ==>
              r[Params.Name(k)] == ValueOrEmpty(GetMemSetting(s, Params.Name(k)))
  {
    NamesLookUp(s);
    map name | name in MemNames(s) + StrNames(s) ::
      if name in StrNames(s) then ValueOrEmpty(GetStrSetting(s, name)) else ValueOrEmpty(GetMemSetting(s, name))
  }

  lemma NamesLookUp(s: PgSettings)
    ensures forall k :: Params.Name(k) in MemNames(s) <==> k in s.tables.mem
    ensures forall k :: Params.Name(k) in StrNames(s) <==> k in s.tables.str
    ensures forall name :: name in MemNames(s) + StrNames(s) ==> Params.Lookup(name).Some?
  {
    forall k
      ensures Params.Name(k) in MemNames(s) <==> k in s.tables.mem
      ensures Params.Name(k) in StrNames(s) <==> k in s.tables.str
    {
      Params.NameInjectiveAll(k);
    }
    forall name | name in MemNames(s) + StrNames(s)
      ensures Params.Lookup(name).Some?
    {
      Params.LookupNone(name);
    }
  }

  // ---------------------------------------------------------------------------
  // Accessors over recalculated tables
  // ---------------------------------------------------------------------------

  /**
   * With consistent tables, a memory parameter resolves exactly when the profile gets it,
   * to its entry for the profile's workload type.
   */
  lemma MemSettingResolves(s: PgSettings, k: Params.Param)
    requires Consistent(s)
    ensures GetMemSetting(s, Params.Name(k)).Ok? <==> MemPresent(s.profile, k)
    ensures MemPresent(s.profile, k) ==>
              GetMemSetting(s, Params.Name(k)).value == Format(MemEntry(s.tables, k, s.profile.dbType))
  {
    PresentKeys(s.profile);
  }

  /**
   * In well-formed tables a string parameter resolves exactly when it is present: to the
   * workload type's entry in a type-keyed table, to the storage class's entry in a
   * storage-keyed one.
   */
  lemma StrSettingWellFormed(s: PgSettings, k: Params.Param)
    requires WellFormed(s.tables)
    ensures GetStrSetting(s, Params.Name(k)).Ok? <==> k in s.tables.str
    ensures k in s.tables.str && s.tables.str[k].Keys == TypeKeys ==>
              GetStrSetting(s, Params.Name(k)).value == StrEntry(s.tables, k, TypeKey(s.profile.dbType))
    ensures k in s.tables.str && s.tables.str[k].Keys == StorageKeys ==>
              GetStrSetting(s, Params.Name(k)).value == StrEntry(s.tables, k, StorageKey(s.profile.storage))
  {
    if k in s.tables.str {
      var table := s.tables.str[k];
      assert GoodStrTable(table);
      TypesComplete();
      StoragesComplete();
      assert StrAt(table, TypeKey(s.profile.dbType)) != "" || StrAt(table, StorageKey(s.profile.storage)) != "";
      if table.Keys == TypeKeys {
        StrSettingByType(s, k);
      } else if table.Keys == StorageKeys {
        StrSettingByStorage(s, k);
      }
    }
  }

  lemma StrSettingByType(s: PgSettings, k: Params.Param)
    requires WellFormed(s.tables)
    requires k in s.tables.str && s.tables.str[k].Keys == TypeKeys
    ensures GetStrSetting(s, Params.Name(k)) == Ok(StrEntry(s.tables, k, TypeKey(s.profile.dbType)))
  {
    var table := s.tables.str[k];
    assert GoodStrTable(table);
    TypesComplete();
    StoragesComplete();
    assert StrAt(table, TypeKey(s.profile.dbType)) != "";
  }

  lemma StrSettingByStorage(s: PgSettings, k: Params.Param)
    requires WellFormed(s.tables)
    requires k in s.tables.str && s.tables.str[k].Keys == StorageKeys
    ensures GetStrSetting(s, Params.Name(k)) == Ok(StrEntry(s.tables, k, StorageKey(s.profile.storage)))
  {
    var table := s.tables.str[k];
    assert GoodStrTable(table);
    TypesComplete();
    StoragesComplete();
    assert StrAt(table, TypeKey(s.profile.dbType)) == "";
    assert StrAt(table, StorageKey(s.profile.storage)) != "";
  }

  /** With consistent tables, a string parameter resolves exactly when the profile gets it. */
  lemma StrSettingResolves(s: PgSettings, k: Params.Param)
    requires Consistent(s)
    ensures GetStrSetting(s, Params.Name(k)).Ok? <==> StrPresent(s.profile, k)
    ensures StrPresent(s.profile, k) && s.tables.str[k].Keys == TypeKeys ==>
              GetStrSetting(s, Params.Name(k)).value == StrEntry(s.tables, k, TypeKey(s.profile.dbType))
    ensures StrPresent(s.profile, k) && s.tables.str[k].Keys == StorageKeys ==>
              GetStrSetting(s, Params.Name(k)).value == StrEntry(s.tables, k, StorageKey(s.profile.storage))
  {
    PresentKeys(s.profile);
    RecalculateWellFormed(s.profile);
    StrSettingWellFormed(s, k);
  }

  /** random_page_cost resolves through the storage class: 4 on hdd, 1.1 on ssd and san. */
  lemma RandomPageCostSetting(s: PgSettings)
    requires Consistent(s)
    ensures GetStrSetting(s, "random_page_cost") == Ok(if s.profile.storage == Hdd then "4" else "1.1")
  {
    RandomPageCostEntries(s.profile);
    assert Params.Name(Params.RandomPageCost) == "random_page_cost";
    StrSettingResolves(s, Params.RandomPageCost);
  }

  /** A name that is no parameter's is refused by both accessors and never listed. */
  lemma UnknownSettingName(s: PgSettings)
    ensures GetMemSetting(s, "nonexistent_key") == Err(UnknownSetting("nonexistent_key"))
    ensures GetStrSetting(s, "nonexistent_key") == Err(UnknownSetting("nonexistent_key"))
    ensures "nonexistent_key" !in GetSettings(s)
  {
    UnknownNameLooksUpNothing();
  }

  lemma UnknownNameLooksUpNothing()
    ensures forall k :: Params.Name(k) != "nonexistent_key"
  {
    assert Params.Lookup("nonexistent_key") == None;
    Params.LookupNone("nonexistent_key");
  }

  /**
   * With consistent tables, the listing holds exactly the parameters the profile gets, each
   * with a non-empty value.
   */
  lemma SettingsListing(s: PgSettings)
    requires Consistent(s)
    ensures forall k :: Params.Name(k) in GetSettings(s) <==> MemPresent(s.profile, k) || StrPresent(s.profile, k)
    ensures forall name :: name in GetSettings(s) ==> GetSettings(s)[name] != ""
  {
    PresentKeys(s.profile);
    var r := GetSettings(s);
    forall name | name in r
      ensures r[name] != ""
    {
      var k := Params.Lookup(name).value;
      if k in s.tables.str {
        StrSettingResolves(s, k);
      } else {
        MemSettingResolves(s, k);
      }
    }
  }

  // ---------------------------------------------------------------------------
  // A worked example: a 16 GiB web server on Linux with 4 CPUs
  // ---------------------------------------------------------------------------

  /** The profile of the example; connections unset, storage on SSD. */
  predicate IsWebServer(p: Profile) {
    && p.dbType == Web && p.version == V13 && p.platform == Linux && p.memory == 16 * GB
    && p.connections == 0 && p.storage == Ssd && p.cpu == 4
  }

  /** The constructor accepts the fields of the example and leaves the connection count unset. */
  lemma WebServerBuilds()
    ensures NewPgSettings("web", "13", "linux", "16GB", "", "ssd", "4").Ok?
    ensures IsWebServer(NewPgSettings("web", "13", "linux", "16GB", "", "ssd", "4").value.profile)
  {
    NamesParse(Web, V13, Linux, Ssd);
    ParseMemoryExample();
    AtoiOfShow(4);
    assert Show(4) == "4";
    BuildsWebServer("web", "13", "linux", "16GB", "ssd", "4");
  }

  /** Fields that parse to the example's values build the example's profile. */
  lemma BuildsWebServer(dbType: string, dbVersion: string, platform: string, memory: string,
                        storage: string, cpu: string)
    requires ParseDbType(dbType) == Ok(Web) && ParseVersion(dbVersion) == Ok(V13)
    requires ParsePlatform(platform) == Ok(Linux) && ParseMemory(memory) == Ok(16 * GB)
    requires ParseStorage(storage) == Ok(Ssd) && ParseCount(cpu, 0) == Ok(4)
    ensures NewPgSettings(dbType, dbVersion, platform, memory, "", storage, cpu).Ok?
    ensures IsWebServer(NewPgSettings(dbType, dbVersion, platform, memory, "", storage, cpu).value.profile)
  {
  }

  /** Its memory settings: a quarter of memory as shared_buffers, three quarters as cache. */
  lemma WebServerMemory(s: PgSettings)
    requires Consistent(s) && IsWebServer(s.profile)
    ensures GetMemSetting(s, "shared_buffers") == Ok("4GB")
    ensures GetMemSetting(s, "effective_cache_size") == Ok("12GB")
  {
    WebServerMemoryEntries(s);
    assert Params.Name(Params.SharedBuffers) == "shared_buffers";
    assert Params.Name(Params.EffectiveCacheSize) == "effective_cache_size";
    MemSettingValue(s, Params.SharedBuffers);
    MemSettingValue(s, Params.EffectiveCacheSize);
    FormatGigabytes();
  }

  lemma WebServerMemoryEntries(s: PgSettings)
    requires Consistent(s) && IsWebServer(s.profile)
    ensures MemEntry(s.tables, Params.SharedBuffers, Web) == 4 * GB
    ensures MemEntry(s.tables, Params.EffectiveCacheSize, Web) == 12 * GB
  {
    MemTableIs(s.profile, Params.SharedBuffers);
    MemTableIs(s.profile, Params.EffectiveCacheSize);
  }

  /** 4 GiB and 12 GiB render in gigabytes. */
  lemma FormatGigabytes()
    ensures Format(4 * GB) == "4GB"
    ensures Format(12 * GB) == "12GB"
  {
    assert Show(4) == "4";
    assert Show(1) == "1" && Show(2) == "2";
    assert Show(12) == "12";
    assert Show(4) + "GB" == "4GB";
    assert Show(12) + "GB" == "12GB";
  }

  /** A present memory parameter's accessor value is its rendered entry for the profile's type. */
  lemma MemSettingValue(s: PgSettings, k: Params.Param)
    requires Consistent(s) && MemPresent(s.profile, k)
    ensures GetMemSetting(s, Params.Name(k)) == Ok(Format(MemEntry(s.tables, k, s.profile.dbType)))
  {
    MemSettingResolves(s, k);
  }

  /** Its string settings: the web default of 200 connections, and workers from the 4 CPUs. */
  lemma WebServerCounts(s: PgSettings)
    requires Consistent(s) && IsWebServer(s.profile)
    ensures GetStrSetting(s, "max_connections") == Ok("200")
    ensures GetStrSetting(s, "max_worker_processes") == Ok("4")
    ensures GetStrSetting(s, "max_parallel_workers_per_gather") == Ok("2")
  {
    WebServerConnections(s);
    WebServerWorkers(s);
    WebServerGather(s);
  }

  lemma WebServerConnections(s: PgSettings)
    requires Consistent(s) && IsWebServer(s.profile)
    ensures GetStrSetting(s, "max_connections") == Ok("200")
  {
    ConnectionsEntry(s.profile, Web);
    assert Params.MaxConnections in Params.AllParams;
    assert Params.Name(Params.MaxConnections) == "max_connections";
    StrSettingValue(s, Params.MaxConnections);
    ShowExamples();
  }

  lemma WebServerWorkers(s: PgSettings)
    requires Consistent(s) && IsWebServer(s.profile)
    ensures GetStrSetting(s, "max_worker_processes") == Ok("4")
  {
    WorkerProcessesEntry(s.profile, Web);
    assert Params.MaxWorkerProcesses in Params.AllParams;
    assert Params.Name(Params.MaxWorkerProcesses) == "max_worker_processes";
    StrSettingValue(s, Params.MaxWorkerProcesses);
    ShowExamples();
  }

  lemma WebServerGather(s: PgSettings)
    requires Consistent(s) && IsWebServer(s.profile)
    ensures GetStrSetting(s, "max_parallel_workers_per_gather") == Ok("2")
  {
    WebServerGatherTable(s);
    assert Params.Name(Params.MaxParallelWorkersPerGather) == "max_parallel_workers_per_gather";
    StrSettingValue(s, Params.MaxParallelWorkersPerGather);
  }

  lemma WebServerGatherTable(s: PgSettings)
    requires Consistent(s) && IsWebServer(s.profile)
    ensures Params.MaxParallelWorkersPerGather in s.tables.str
    ensures s.tables.str[Params.MaxParallelWorkersPerGather].Keys == TypeKeys
    ensures StrEntry(s.tables, Params.MaxParallelWorkersPerGather, TypeKey(Web)) == "2"
  {
    GatherEntry(s.profile, Web);
    assert CeilHalf(4) == 2;
    assert GatherWorkers(s.profile) == 2;
    assert Params.MaxParallelWorkersPerGather in Params.AllParams;
    ShowExamples();
  }

  lemma ShowExamples()
    ensures Show(200) == "200" && Show(4) == "4" && Show(2) == "2"
  {
    assert Show(2) == "2";
    assert Show(20) == Show(2) + "0" == "20";
    assert Show(200) == Show(20) + "0" == "200";
  }

  /** A present string parameter with a type-keyed table resolves to the profile type's entry. */
  lemma StrSettingValue(s: PgSettings, k: Params.Param)
    requires Consistent(s) && k in s.tables.str && s.tables.str[k].Keys == TypeKeys
    ensures GetStrSetting(s, Params.Name(k)) == Ok(StrEntry(s.tables, k, TypeKey(s.profile.dbType)))
  {
    RecalculateWellFormed(s.profile);
    StrSettingByType(s, k);
  }
}
