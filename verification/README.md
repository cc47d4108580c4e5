# pgotune settings engine in Dafny

This project models the settings engine of pgotune (`settings.go`), a PostgreSQL tuning
helper. A profile is:

- a workload type (web, oltp, dw, mixed, desktop);
- an engine version (9.4 to 14);
- a platform (linux, darwin, windows);
- a total memory size, written like "16GB";
- a connection count;
- a storage class (ssd, hdd, san);
- a CPU count.

From the profile the engine derives `postgresql.conf` values: shared_buffers,
effective_cache_size, maintenance_work_mem, wal_buffers, min/max_wal_size, work_mem,
max_connections, checkpoint settings, random_page_cost, effective_io_concurrency and
the parallel worker counts. Each parameter is a table with one column per workload type or
one per storage class. Accessors resolve a parameter for the profile's own type, falling
back to its storage class.

Modules, in dependency order:

- `Results`: `Option`, `Result` (usable with `:-`) and the error values.
- `Ascii`: lower-casing (`strings.ToLower` on every character whose lower-case form is ASCII:
  A-Z, the Kelvin sign U+212A and the dotted capital I U+0130).
- `Decimal`: `strconv.Itoa` (`Show`) and `strconv.Atoi` (`Atoi`).
- `Memory`: `DbMemory`.
  - Parsing with the grammar `^[0-9]+[kmg]?b?$` (`ParseMemory`).
  - The truncating unit conversions.
  - Rendering in the largest unit that divides the count (`Format`).
- `Profile`:
  - the enumerations, with the version as `Tenths` (version × 10);
  - the field parsers;
  - the private setters `setDbType` … `setDBCPU`.
- `Params`: the closed set of parameters and their names in `postgresql.conf`.
- `Formulas`: each parameter's value for one workload type, and the version-keyed defaults
  `DbDefaultValues`.
- `Engine`: `recalculate`.
  - Presence: which parameters a profile gets.
  - The tables.
  - The work_mem loop, which reads shared_buffers, max_connections and the gather counts
    back out of the tables built before it.
- `Settings`: `PGSettings`.
  - The fail-fast constructor.
  - The public setters.
  - `GetMemSetting`, `GetStrSetting` and `GetSettings`.

The model follows the code's quirks:

- The gather cap tests the PROFILE's workload type, so every column holds the same value.
- The work_mem default parallelism is looked up under `Itoa(int(version))`. Every 9.x
  version therefore reads the missing key "9". This is proved to give the same result as
  the exact version key.
- Only `SetDbType` and `SetDbVersion` recalculate. `SetDbPlatform`, `SetDBMemory` and
  `SetDBStorage` leave the tables stale.
- A memory entry that is absent reads as zero bytes. Zero renders as "0GB", so
  `GetMemSetting` never reaches its storage-class fallback.

Two behaviours of the code that a reader may not expect:

- maintenance_work_mem is cut only when it is strictly above 2 GiB. On Windows an
  eighth or sixteenth of memory that is exactly 2 GiB is kept at 2 GiB, not
  2 GiB − 1 MiB (`Engine.MaintenanceLimitExamples`).
- The connection and CPU counts accept any integer `strconv.Atoi` accepts, negative ones
  included. Counts that are not positive behave like "unset".

## Model

| member | source | states |
|---|---|---|
| Ascii.Lower | settings.go:176 | lower-casing keeps the length; each capital A-Z, the Kelvin sign and the dotted capital I becomes its ASCII lower-case letter, and every other character is kept |
| Ascii.ToLowerChar | settings.go:176 | a capital whose lower-case form is ASCII becomes a letter a-z (A-Z shifted by 32), and any other character is unchanged |
| Decimal.Atoi | settings.go:221-229 | an integer is read exactly when the text is an optional sign followed by digits; otherwise the error names the text; a negative result needs a leading minus |
| Decimal.ValueOfShow | settings.go:313-321 | the digits `Itoa` writes denote the number written |
| Decimal.AtoiOfShow | settings.go:488-489 | reading back an entry written by `Itoa` gives the original count |
| Memory.ParseMemory | settings.go:72-96 | a memory text parses exactly when its lower-cased form matches `^[0-9]+[kmg]?b?$`; the value is the digits times the unit's multiplier; otherwise the error names the original text |
| Memory.SplitsAtDigitRun | settings.go:74-78 | the grammar splits digits from unit in at most one way |
| Memory.ParseMemoryRejects | settings.go:74-93 | empty text, a sign and an unknown unit are refused with the original text |
| Memory.ParseMemoryExample | settings.go:74-85 | "16GB" is 16 GiB: units are case-insensitive |
| Memory.ParseMemoryKelvinSign | settings.go:74-85 | "16KB" written with the Kelvin sign lower-cases to "16kb" and is 16 KiB |
| Memory.InKbytes | settings.go:99 | the result is the whole number of KiB, truncated |
| Memory.InMbytes | settings.go:100 | the result is the whole number of MiB, truncated |
| Memory.InGbytes | settings.go:101 | the result is the whole number of GiB, truncated |
| Memory.FormatRoundTrip | settings.go:103-114 | parsing the rendered form of any byte count gives the count back |
| Memory.FormatLargestUnit | settings.go:103-114 | the rendering is the count in a unit that divides it, and no larger unit divides it |
| Memory.FormatZero | settings.go:104-106 | zero bytes renders as "0GB" |
| Profile.ParseDbType | settings.go:175-184 | the lower-cased text must name a workload type; otherwise the error carries the lower-cased text and no type has that name |
| Profile.ParseVersion | settings.go:186-198 | the text must be a supported version exactly; otherwise the error carries the text and no version has that name |
| Profile.ParsePlatform | settings.go:200-209 | the lower-cased text must name a platform; otherwise no platform has that name |
| Profile.ParseStorage | settings.go:232-241 | the lower-cased text must name a storage class; otherwise no class has that name |
| Profile.ParseCount | settings.go:221-230 | the empty string keeps the current count; other text must be an integer, or the error names it |
| Profile.NamesParse | settings.go:37-42 | every supported name parses back to its value |
| Profile.CaseInsensitiveExamples | settings.go:175-209 | type, platform and storage ignore letter case; the version does not |
| Profile.NonAsciiCapitalExamples | settings.go:175-209 | "DESKTOP" with a Kelvin sign is the desktop type, and "LINUX" with a dotted capital I is the linux platform |
| Profile.SetType | settings.go:175-184 | on success only the type changes and it names the lower-cased text; on failure the profile is unchanged and the error is returned |
| Profile.SetVersion | settings.go:186-198 | on success only the version changes; on failure nothing changes |
| Profile.SetPlatform | settings.go:200-209 | on success only the platform changes; on failure nothing changes |
| Profile.SetMemory | settings.go:211-219 | succeeds exactly when the text matches the memory grammar; then only memory changes, to the parsed count |
| Profile.SetConnections | settings.go:221-230 | the empty string changes nothing; an integer replaces the count; anything else is an error and changes nothing |
| Profile.SetStorage | settings.go:232-241 | on success only the storage class changes; on failure nothing changes |
| Profile.SetCpu | settings.go:243-252 | the empty string changes nothing; an integer replaces the count; anything else is an error and changes nothing |
| Params.LookupName | settings.go:394-405 | every parameter is found under its name, so no two parameters share a name |
| Params.LookupNone | settings.go:254-265 | a name finds no parameter exactly when no parameter has that name |
| Params.NameInjective | settings.go:394-405 | distinct parameters have distinct names |
| Formulas.SharedBuffers | settings.go:296-310 | shared_buffers is at most a quarter of memory (a sixteenth for desktop); it falls below that share only under the Windows cap below version 10, and then it is 512 MiB |
| Formulas.ConnectionCount | settings.go:312-323 | max_connections is always positive, and a positive connection count overrides every default |
| Formulas.EffectiveCacheSize | settings.go:325-331 | effective_cache_size never exceeds memory |
| Formulas.MaintenanceWorkMem | settings.go:333-349 | maintenance_work_mem never exceeds 2 GiB; a share up to 2 GiB is kept; a larger one becomes 2 GiB, or 2 GiB − 1 MiB on Windows |
| Formulas.WalBuffers | settings.go:365-384 | wal_buffers lies between 32 bytes and 16 MiB, is never strictly between 14 and 16 MiB, equals 3% of shared_buffers when that lies in range, is 16 MiB when the share is above 14 MiB, and is exactly 32 bytes when the share is below 32 |
| Formulas.WalBuffersMonotone | settings.go:365-384 | a larger shared_buffers never gives a smaller wal_buffers |
| Formulas.CeilHalf | settings.go:448 | the result is half the count rounded up |
| Formulas.GatherWorkers | settings.go:446-456 | the gather count is at least 2 and at most half the CPUs rounded up; a dw profile gets the full half, and any other profile gets the smaller of the half and 4 |
| Formulas.MaintenanceWorkers | settings.go:465-474 | maintenance workers are between 2 and 4, and are the smaller of half the CPUs rounded up and 4 |
| Formulas.DefaultParallelValues | settings.go:480-483 | the default parallelism is 2 from version 10 on and 1 before; the truncated key gives the same value as the exact version name |
| Formulas.FloorKb | settings.go:492-496 | the result is a whole number of KiB and within one KiB below its input |
| Formulas.ScaleWorkMem | settings.go:491-497 | the per-type scaling yields a whole number of KiB no larger than its input |
| Formulas.Parallelism | settings.go:480-487 | work_mem's divisor is always positive |
| Formulas.WorkMem | settings.go:477-499 | every work_mem value is a whole number of KiB and never exceeds total memory |
| Engine.PerType | settings.go:296-302 | a per-type table has exactly the five type columns, each holding its type's value |
| Engine.TypeWorkMem | settings.go:485-497 | one work_mem step yields a whole number of KiB that never exceeds memory |
| Engine.WorkMemEntries | settings.go:484-498 | the loop adds exactly one column per workload type it visits and keeps every value a whole number of KiB |
| Engine.WorkMemReadyInRecalculate | settings.go:484-490 | in a recalculation the loop never divides by zero and never subtracts past zero |
| Engine.WorkMemFold | settings.go:484-498 | once the carried parallelism is settled, the loop writes each visited type its own entry and leaves every other column alone |
| Engine.ParallelismSettled | settings.go:480-487 | in a recalculation the gather entries never change the carried parallelism after the first type |
| Engine.WorkMemStep | settings.go:488-497 | a loop step, fed the profile's shared_buffers and connection count, gives the closed-form work_mem |
| Engine.WorkMemValues | settings.go:477-499 | above version 9.5 every work_mem column is the closed form for its type and a whole number of KiB |
| Engine.ParamPresence | settings.go:394-475 | the base maps' eight parameters are always present; checkpoint_segments exactly below 9.5; min_wal_size and max_wal_size exactly from 9.5; effective_io_concurrency exactly on Linux; max_worker_processes exactly above 9.5 with more than 2 CPUs, and the gather, parallel and maintenance worker counts additionally from 9.6, 10 and 11; work_mem exactly above 9.5 |
| Engine.PresentKeysWithin | settings.go:394-475 | a recalculation adds no parameter beyond the seven memory and ten string parameters `recalculate` writes |
| Engine.MemStrDisjoint | settings.go:394-405 | no parameter is both a memory and a string parameter |
| Engine.PresenceGates | settings.go:407-475 | checkpoint_segments excludes the WAL size pair; min and max WAL size come together; work_mem implies the WAL sizes; each worker count implies the ones introduced before it |
| Engine.VersionGates | settings.go:407-430 | the version gates hold of the recalculated tables |
| Engine.WorkerGates | settings.go:440-475 | each worker count in the tables comes with the earlier ones and with work_mem |
| Engine.RecalculateWellFormed | settings.go:295-475 | every memory table has the five type columns; every string table has the five type columns or the three storage columns, all non-empty |
| Engine.SharedBuffersEntries | settings.go:296-310 | every shared_buffers column is at most its share of memory, below it only when capped to 512 MiB, and never above 512 MiB under the cap |
| Engine.MaxConnectionsEntries | settings.go:312-323 | a positive connection count fills every column; otherwise each type has its default; every entry reads back as a positive number |
| Engine.MaintenanceEntries | settings.go:333-349 | every maintenance_work_mem column is at most 2 GiB and at most its share, and equals the share when that is at most 2 GiB |
| Engine.MaintenanceLimitExamples | settings.go:340-349 | a share of exactly 2 GiB is kept on Windows; a larger one becomes 2 GiB − 1 MiB on Windows and 2 GiB on Linux |
| Engine.WalBuffersEntries | settings.go:365-384 | each wal_buffers column derives from that type's shared_buffers column, stays in range, and desktop's is the smallest |
| Engine.CheckpointEntries | settings.go:407-430 | before 9.5 checkpoint_segments holds each type's count; from 9.5 on the WAL size columns hold each type's sizes |
| Engine.RandomPageCostEntries | settings.go:359-363 | random_page_cost is 4 for hdd and 1.1 for ssd and san, with no type columns |
| Engine.IoConcurrencyEntries | settings.go:432-438 | effective_io_concurrency exists on Linux only, with 200, 2 and 300 for ssd, hdd and san |
| Engine.WorkerEntries | settings.go:440-475 | the worker counts hold the CPU count, the profile's gather value in every column, and the capped maintenance count |
| Engine.GatherQuirkExample | settings.go:446-456 | a dw profile with 16 CPUs puts 8 in the web column; a web profile puts 4 in the dw column |
| Settings.NewPgSettings | settings.go:116-145 | construction succeeds exactly when every field is valid; otherwise it returns the error of the first invalid field in the fixed order; on success each field is the parsed input and the tables are the recalculation |
| Settings.NewFromNames | settings.go:116-145 | a profile written out field by field constructs the settings of that same profile |
| Settings.NewWithEmptyCounts | settings.go:221-252 | empty connection and CPU fields leave both counts at zero |
| Settings.SetDbType | settings.go:147-153 | on success only the type changes and the tables are rebuilt for the new profile; on failure nothing changes |
| Settings.SetDbVersion | settings.go:155-161 | on success only the version changes and the tables are rebuilt; on failure nothing changes |
| Settings.SetDbPlatform | settings.go:163-165 | the platform is set or the error returned, and the tables are never touched |
| Settings.SetDbMemory | settings.go:167-169 | the memory is set or the error returned, and the tables are never touched |
| Settings.SetDbStorage | settings.go:171-173 | the storage class is set or the error returned, and the tables are never touched |
| Settings.PlatformChangeIsStale | settings.go:163-165 | after a switch from Linux to Windows the tables still hold effective_io_concurrency and no longer match the profile |
| Settings.GetMemSetting | settings.go:254-266 | a name resolves exactly when it names a memory parameter in the tables, to the rendered entry for the profile's type; otherwise the error names it |
| Settings.GetStrSetting | settings.go:268-280 | a name resolves exactly when its table has a non-empty entry for the profile's type or storage class; the type entry wins; the value is never empty |
| Settings.GetSettings | settings.go:282-293 | the listing holds the name of every parameter in the tables and nothing else, each with its accessor's value; a string parameter's value wins |
| Settings.MemSettingResolves | settings.go:254-266 | with current tables a memory parameter resolves exactly when the profile gets it |
| Settings.StrSettingWellFormed | settings.go:268-280 | in well-formed tables a string parameter resolves exactly when present: type-keyed tables by type, storage-keyed ones by storage class |
| Settings.StrSettingResolves | settings.go:268-280 | with current tables a string parameter resolves exactly when the profile gets it |
| Settings.RandomPageCostSetting | settings.go:268-280 | random_page_cost resolves through the storage class: 4 on hdd, 1.1 otherwise |
| Settings.UnknownSettingName | settings.go:254-293 | "nonexistent_key" is refused by both accessors and never listed |
| Settings.SettingsListing | settings.go:282-293 | with current tables the listing holds exactly the parameters the profile gets, each with a non-empty value |
| Settings.WebServerBuilds | settings.go:116-145 | "web", "13", "linux", "16GB", "", "ssd", "4" builds a 16 GiB web profile with no connection count and 4 CPUs |
| Settings.WebServerMemory | settings.go:296-331 | that profile gets shared_buffers "4GB" and effective_cache_size "12GB" |
| Settings.WebServerCounts | settings.go:312-456 | that profile gets max_connections "200", max_worker_processes "4" and max_parallel_workers_per_gather "2" |

## Left out

- Command-line handling and printing: main.go is not part of this model.
- The caller-visible error texts (`fmt.Errorf` messages). Each error is a value that carries
  the offending text, in the form the message prints it.
- Integer width. Go's `int` is 64 bits: a huge byte count can overflow `num * GB`, and
  `strconv.Atoi` refuses out-of-range text. The model uses unbounded integers.
- Decimal.Atoi: out-of-range text is accepted. Only the 64-bit range check of `strconv.Atoi` is missing.
- Ascii.Lower: keeps every capital whose lower-case form is not ASCII (for example "É"), where
  `strings.ToLower` folds it. No such character can reach an accepted name or unit, which are
  all ASCII, so acceptance and every parsed value are exact; only the text carried by an error
  can differ, for input that holds such a capital.
- Floating point.
  - The version is an enumeration with `Tenths(v)` standing for `dbVersion × 10`; the
    `strconv.ParseFloat` in `setDbVersion` cannot fail on a listed name.
  - `math.Ceil(cpu / 2)` is `CeilHalf`, the integer half rounded up.
- Map iteration order. The capping loops over shared_buffers, max_connections and
  maintenance_work_mem change each column independently, so they are modelled per column.
- Open-ended parameter names inside the tables. The tables are keyed by the closed `Param`
  enumeration; an arbitrary name reaches them through `Params.Lookup`.
- The zero-valued `PGSettings` that the constructor fills in. When a field fails, Go returns
  nil, so the partly filled value is never seen; the model returns only the error.
- Engine.WorkMemEntries: requires positive divisors and enough memory for shared_buffers.
  Go would panic on a zero divisor, but `Engine.WorkMemReadyInRecalculate` shows a
  recalculation always meets these requirements.
- `InBytes`, the plain byte-count accessor, is the `memory` field itself.
