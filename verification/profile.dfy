/**
 * The hardware/workload profile: closed enumerations for workload type, engine version,
 * platform and storage class, the parsers that admit their textual names, and the
 * per-field setters (`setDbType`, ..., `setDBCPU`) that validate one field at a time.
 */
module Profile {
  import opened Results
  import opened Ascii
  import opened Decimal
  import opened Memory

  datatype DbType = Web | Oltp | Dw | Mixed | Desktop

  datatype Version = V9_4 | V9_5 | V9_6 | V10 | V11 | V12 | V13 | V14

  datatype Platform = Linux | Darwin | Windows

  datatype Storage = Ssd | Hdd | San

  /** The workload types in the order the engine iterates them (`DbTypes`). */
  const AllTypes: seq<DbType> := [Web, Oltp, Dw, Mixed, Desktop]

  function TypeName(t: DbType): string {
    match t
    case Web => "web"
    case Oltp => "oltp"
    case Dw => "dw"
    case Mixed => "mixed"
    case Desktop => "desktop"
  }

  function VersionName(v: Version): string {
    match v
    case V9_4 => "9.4"
    case V9_5 => "9.5"
    case V9_6 => "9.6"
    case V10 => "10"
    case V11 => "11"
    case V12 => "12"
    case V13 => "13"
    case V14 => "14"
  }

  /**
   * The version number times ten. Every supported version has one decimal at most, so
   * comparisons such as `version < 9.5` become exact comparisons on this count, and the
   * truncation `int(version)` is `Tenths(v) / 10`.
   */
  function Tenths(v: Version): nat {
    match v
    case V9_4 => 94
    case V9_5 => 95
    case V9_6 => 96
    case V10 => 100
    case V11 => 110
    case V12 => 120
    case V13 => 130
    case V14 => 140
  }

  function PlatformName(p: Platform): string {
    match p
    case Linux => "linux"
    case Darwin => "darwin"
    case Windows => "windows"
  }

  function StorageName(s: Storage): string {
    match s
    case Ssd => "ssd"
    case Hdd => "hdd"
    case San => "san"
  }

  /** `setDbType`'s check: the lower-cased text must name a workload type. */
  function ParseDbType(s: string): (r: Result<DbType>)
    ensures r.Ok? ==> TypeName(r.value) == Lower(s)
    ensures r.Err? ==> r.error == InvalidType(Lower(s)) && forall t :: TypeName(t) != Lower(s)
  {
    var l := Lower(s);
    if l == "web" then Ok(Web)
    else if l == "oltp" then Ok(Oltp)
    else if l == "dw" then Ok(Dw)
    else if l == "mixed" then Ok(Mixed)
    else if l == "desktop" then Ok(Desktop)
    else Err(InvalidType(l))
  }

  /** `setDbVersion`'s check: the text must be one of the version names exactly (no case folding). */
  function ParseVersion(s: string): (r: Result<Version>)
    ensures r.Ok? ==> VersionName(r.value) == s
    ensures r.Err? ==> r.error == InvalidVersion(s) && forall v :: VersionName(v) != s
  {
    if s == "9.4" then Ok(V9_4)
    else if s == "9.5" then Ok(V9_5)
    else if s == "9.6" then Ok(V9_6)
    else if s == "10" then Ok(V10)
    else if s == "11" then Ok(V11)
    else if s == "12" then Ok(V12)
    else if s == "13" then Ok(V13)
    else if s == "14" then Ok(V14)
    else Err(InvalidVersion(s))
  }

  /** `setDbPlatform`'s check: the lower-cased text must name a platform. */
  function ParsePlatform(s: string): (r: Result<Platform>)
    ensures r.Ok? ==> PlatformName(r.value) == Lower(s)
    ensures r.Err? ==> r.error == InvalidPlatform(Lower(s)) && forall p :: PlatformName(p) != Lower(s)
  {
    var l := Lower(s);
    if l == "linux" then Ok(Linux)
    else if l == "darwin" then Ok(Darwin)
    else if l == "windows" then Ok(Windows)
    else Err(InvalidPlatform(l))
  }

  /** `setDBStorage`'s check: the lower-cased text must name a storage class. */
  function ParseStorage(s: string): (r: Result<Storage>)
    ensures r.Ok? ==> StorageName(r.value) == Lower(s)
    ensures r.Err? ==> r.error == InvalidStorage(Lower(s)) && forall st :: StorageName(st) != Lower(s)
  {
    var l := Lower(s);
    if l == "ssd" then Ok(Ssd)
    else if l == "hdd" then Ok(Hdd)
    else if l == "san" then Ok(San)
    else Err(InvalidStorage(l))
  }

  /**
   * The check of `setDBConnections` and `setDBCPU`: the empty string keeps the current
   * value; anything else must be an integer.
   */
  function ParseCount(s: string, current: int): (r: Result<int>)
    ensures s == "" ==> r == Ok(current)
    ensures s != "" ==> (r.Ok? <==> IsIntLiteral(s))
    ensures s != "" && r.Err? ==> r.error == BadInteger(s)
  {
    if s == "" then Ok(current) else Atoi(s)
  }

  /** Every name is accepted back, in any letter case for the case-insensitive fields. */
  lemma NamesParse(t: DbType, v: Version, p: Platform, st: Storage)
    ensures ParseDbType(TypeName(t)) == Ok(t)
    ensures ParseVersion(VersionName(v)) == Ok(v)
    ensures ParsePlatform(PlatformName(p)) == Ok(p)
    ensures ParseStorage(StorageName(st)) == Ok(st)
  {
    TypeNameParses(t);
    PlatformNameParses(p);
    StorageNameParses(st);
  }

  lemma TypeNameParses(t: DbType)
    ensures ParseDbType(TypeName(t)) == Ok(t)
  {
    LowerNoCapitals(TypeName(t));
  }

  lemma PlatformNameParses(p: Platform)
    ensures ParsePlatform(PlatformName(p)) == Ok(p)
  {
    LowerNoCapitals(PlatformName(p));
  }

  lemma StorageNameParses(st: Storage)
    ensures ParseStorage(StorageName(st)) == Ok(st)
  {
    LowerNoCapitals(StorageName(st));
  }

  /** Workload type, platform and storage are matched after lower-casing; the version is not. */
  lemma CaseInsensitiveExamples()
    ensures ParseDbType("OLTP") == Ok(Oltp)
    ensures ParsePlatform("Windows") == Ok(Windows)
    ensures ParseStorage("SSD") == Ok(Ssd)
    ensures ParseVersion("9.6") == Ok(V9_6)
    ensures ParseVersion("9.60").Err?
  {
    assert Lower("OLTP") == "oltp";
    assert Lower("Windows") == "windows";
    assert Lower("SSD") == "ssd";
  }

  /** Lower-casing also folds the Kelvin sign to 'k' and the dotted capital I to 'i'. */
  lemma NonAsciiCapitalExamples()
    ensures ParseDbType(['D', 'E', 'S', KelvinSign, 'T', 'O', 'P']) == Ok(Desktop)
    ensures ParsePlatform(['L', DottedCapitalI, 'N', 'U', 'X']) == Ok(Linux)
  {
    assert Lower(['D', 'E', 'S', KelvinSign, 'T', 'O', 'P']) == "desktop";
    assert Lower(['L', DottedCapitalI, 'N', 'U', 'X']) == "linux";
  }

  /** A validated profile. Connections and CPU count are Go `int`s; 0 means "not given". */
  datatype Profile = Profile(
    dbType: DbType,
    version: Version,
    platform: Platform,
    memory: nat,
    connections: int,
    storage: Storage,
    cpu: int)

  /** A profile after a setter ran, with the error the setter returned, if any. */
  datatype Step = Step(profile: Profile, err: Option<Error>)

  /** `setDbType`. */
  function SetType(p: Profile, s: string): (r: Step)
    ensures r.err.None? <==> ParseDbType(s).Ok?
    ensures r.err.Some? ==> r.profile == p && r.err.value == InvalidType(Lower(s))
    ensures r.err.None? ==> r.profile == p.(dbType := r.profile.dbType) && TypeName(r.profile.dbType) == Lower(s)
  {
    match ParseDbType(s)
    case Ok(t) => Step(p.(dbType := t), None)
    case Err(e) => Step(p, Some(e))
  }

  /** `setDbVersion`. */
  function SetVersion(p: Profile, s: string): (r: Step)
    ensures r.err.None? <==> ParseVersion(s).Ok?
    ensures r.err.Some? ==> r.profile == p && r.err.value == InvalidVersion(s)
    ensures r.err.None? ==> r.profile == p.(version := r.profile.version) && VersionName(r.profile.version) == s
  {
    match ParseVersion(s)
    case Ok(v) => Step(p.(version := v), None)
    case Err(e) => Step(p, Some(e))
  }

  /** `setDbPlatform`. */
  function SetPlatform(p: Profile, s: string): (r: Step)
    ensures r.err.None? <==> ParsePlatform(s).Ok?
    ensures r.err.Some? ==> r.profile == p && r.err.value == InvalidPlatform(Lower(s))
    ensures r.err.None? ==> r.profile == p.(platform := r.profile.platform) && PlatformName(r.profile.platform) == Lower(s)
  {
    match ParsePlatform(s)
    case Ok(pl) => Step(p.(platform := pl), None)
    case Err(e) => Step(p, Some(e))
  }

  /** `setDBMemory`. */
  function SetMemory(p: Profile, s: string): (r: Step)
    ensures r.err.None? <==> Matches(Lower(s))
    ensures r.err.Some? ==> r.profile == p && r.err.value == BadMemory(s)
    ensures r.err.None? ==> r.profile == p.(memory := r.profile.memory) && ParseMemory(s) == Ok(r.profile.memory)
  {
    match ParseMemory(s)
    case Ok(m) => Step(p.(memory := m), None)
    case Err(e) => Step(p, Some(e))
  }

  /** `setDBConnections`: the empty string leaves the count as it was. */
  function SetConnections(p: Profile, s: string): (r: Step)
    ensures s == "" ==> r == Step(p, None)
    ensures s != "" ==> (r.err.None? <==> IsIntLiteral(s))
    ensures r.err.Some? ==> r.profile == p && r.err.value == BadInteger(s)
    ensures r.err.None? && s != "" ==> r.profile == p.(connections := Atoi(s).value)
  {
    match ParseCount(s, p.connections)
    case Ok(n) => Step(p.(connections := n), None)
    case Err(e) => Step(p, Some(e))
  }

  /** `setDBStorage`. */
  function SetStorage(p: Profile, s: string): (r: Step)
    ensures r.err.None? <==> ParseStorage(s).Ok?
    ensures r.err.Some? ==> r.profile == p && r.err.value == InvalidStorage(Lower(s))
    ensures r.err.None? ==> r.profile == p.(storage := r.profile.storage) && StorageName(r.profile.storage) == Lower(s)
  {
    match ParseStorage(s)
    case Ok(st) => Step(p.(storage := st), None)
    case Err(e) => Step(p, Some(e))
  }

  /** `setDBCPU`: the empty string leaves the count as it was. */
  function SetCpu(p: Profile, s: string): (r: Step)
    ensures s == "" ==> r == Step(p, None)
    ensures s != "" ==> (r.err.None? <==> IsIntLiteral(s))
    ensures r.err.Some? ==> r.profile == p && r.err.value == BadInteger(s)
    ensures r.err.None? && s != "" ==> r.profile == p.(cpu := Atoi(s).value)
  {
    match ParseCount(s, p.cpu)
    case Ok(n) => Step(p.(cpu := n), None)
    case Err(e) => Step(p, Some(e))
  }
}
