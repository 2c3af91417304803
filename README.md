# p-monitor core, modelled in Dafny

p-monitor is a Linux system-tray monitor. On every tick it collects one
snapshot of the machine:

- disk usage of `/`;
- virtual memory;
- CPU usage and temperature;
- one entry per GPU.

It then shows each figure as a menu item. This project models the logic
between the system probes and the menu.

- **GPU discovery** (`pkg/gpu/gpu.go`):
  - parsing of `nvidia-smi` CSV lines, one line after another;
  - the first `gpu\s+(\d+\.?\d*)%` reading in `radeontop` output;
  - the `lspci` keyword test for an integrated GPU;
  - the aggregate in vendor order: NVIDIA, AMD, integrated.
- **CPU probes** (`pkg/monitor/system.go`):
  - choice of the first CPU-usage sample;
  - the ordered search of four fixed sensor files, one of them a glob pattern;
  - the fallback scan of `thermal_zone*` directories for a zone whose type
    names a CPU;
  - the millidegree-to-degree conversion.
- **Collection cycle** (`pkg/monitor/monitor.go`):
  - a `Monitor` class whose `latest` field is replaced by a brand-new
    `SystemMetrics` object each cycle;
  - each record is built field by field from its own probe outcome.
- **Configuration** (`pkg/config/config.go`, `pkg/display/display.go`):
  - the default configuration and the interval in seconds;
  - the interval "dialog", a step machine over (interval, unit) that cycles
    with period 19 from the default;
  - the temperature-unit toggle;
  - the GPU labels and the fixed "n/a" texts of the menu items.

The modules follow the program's packages:

- `Wrappers`: Option and Result.
- `Text`: the part of Go's `strings` and `strconv` the core uses.
- `Types`: `pkg/types/metrics.go`.
- `Config`, `Gpu`, `System`, `Monitor`, `Display`: one each for the packages
  above.

Everything the program asks of the operating system becomes a parameter:

- **External tools.** Each tool is a `ToolRun`: absent from `PATH`, failed,
  or its standard output.
- **Filesystem.** A `FileSystem` value holds three maps:
  - file contents by path;
  - glob pattern to its ordered matches;
  - directory to its ordered entry names.
- **Probe results.** The disk, memory and CPU-sampler results are `Result`
  values.
- **Clock.** The timestamp is an integer.

The loops of the source become methods with loop invariants:
- the `nvidia-smi` line loop;
- the radeontop line scan;
- the fixed sensor paths;
- the zone scan.

The aggregate `CollectAllGPUMetrics` has no loop; its three appends are a
method too. Each method is proved equal to a specification function, and the
lemmas state what that function promises.

## Model

| member | source | states |
|---|---|---|
| `Config.Default` | pkg/config/config.go:18-24 | the default is 5 with unit "seconds" and "celsius", so its interval is 5 seconds |
| `Config.GetUpdateIntervalSeconds` | pkg/config/config.go:27-32 | "minutes" multiplies by 60; any other unit leaves the interval as is; no clamping: the sign (positive, zero, negative) is preserved |
| `Gpu.ParseFloatOrZero` | pkg/gpu/gpu.go:136-148 | a number that parses is kept; one that does not becomes 0 |
| `Gpu.ParseNVIDIALine` | pkg/gpu/gpu.go:127-155 | every entry it yields is of type "nvidia" with no error |
| `Gpu.ParseNvidiaCsv` | pkg/gpu/gpu.go:127-131 | a line of fewer than 4 ", "-separated fields yields nothing; with 4 or more, the entry (the helper `Gpu.NvidiaEntry`, lines 133-154: trimmed index and name, usage and temperature parsed or 0, type "nvidia", no error) is built from the first four and the rest are ignored |
| `Gpu.ParseNvidiaFields` | pkg/gpu/gpu.go:133-155 | for fields without commas or edge blanks, the entry is named "NVIDIA GPU index (name)", has type "nvidia", and holds the parsed usage and temperature (0 when unparsable) |
| `Gpu.ParseNvidiaSample` | pkg/gpu/gpu.go:133-155 | "0, Test GPU, 45.5, 62.0" gives "NVIDIA GPU 0 (Test GPU)" with usage 45.5 and temperature 62.0 |
| `Gpu.FourFields` | pkg/gpu/gpu.go:127-155 | a line of exactly four comma-free fields joined by ", " yields the entry built from those four fields |
| `Gpu.ParseTwoPlaceDecimal` | pkg/gpu/gpu.go:137 | a reading "dd.d" parses to its decimal value |
| `Gpu.ParseNvidiaUnavailableNumbers` | pkg/gpu/gpu.go:136-148 | "[N/A]" usage and temperature still give an entry, with both at 0 |
| `Gpu.CsvSeparatorUnbordered` | pkg/gpu/gpu.go:127 | ", " cannot overlap itself, which is what SplitJoin needs: a join of separator-free fields is undone by a split on ", " |
| `Gpu.LineEntries` | pkg/gpu/gpu.go:55-62 | each output line contributes at most one entry |
| `Gpu.NvidiaEntries` | pkg/gpu/gpu.go:54-63 | at most one entry per line |
| `Gpu.NvidiaEntriesTyped` | pkg/gpu/gpu.go:54-63 | every entry the lines give has type "nvidia" and no error |
| `Gpu.NvidiaEntriesAppend` | pkg/gpu/gpu.go:54-63 | entries keep line order: the entries of a + b are those of a followed by those of b |
| `Gpu.NvidiaEntriesSnoc` | pkg/gpu/gpu.go:59-62 | one more line appends exactly that line's entry, if any |
| `Gpu.NvidiaBlankOutput` | pkg/gpu/gpu.go:53-57 | blank (all-whitespace) output gives no GPU |
| `Gpu.NvidiaGPUs` | pkg/gpu/gpu.go:40-63 | a missing or failing nvidia-smi gives no entry; otherwise at most one entry per line of the trimmed output, each of type "nvidia" with no error |
| `Gpu.CollectNVIDIAGPUs` | pkg/gpu/gpu.go:36-66 | the collector yields the entries of the trimmed, "\n"-split output, or none when nvidia-smi is missing or fails |
| `Gpu.CollectNvidiaLines` | pkg/gpu/gpu.go:54-63 | the loop that skips blank lines and appends each parsed entry yields the entries of the lines, in order |
| `Gpu.SpanEnd` | pkg/gpu/gpu.go:167 | the end of a maximal run of class characters (the greedy `\s+`, `\d+`, `\d*`) |
| `Gpu.UsageGroupParses` | pkg/gpu/gpu.go:167-173 | a group of the captured shape (a digit, then digits with at most one point) always parses, to a value of at least 0 |
| `Gpu.UsageMatchAt` | pkg/gpu/gpu.go:167-168 | a capture at a position needs "gpu" there, and has the shape of the group: a leading digit, then digits with at most one point |
| `Gpu.UsageMatchAtSound` | pkg/gpu/gpu.go:167-168 | a capture found at a position is a match of `gpu\s+(\d+\.?\d*)%` there, and the capture is its group |
| `Gpu.UsageMatchAtComplete` | pkg/gpu/gpu.go:167-168 | every match of the pattern at a position is found, with that group |
| `Gpu.SpanEndUnique` | pkg/gpu/gpu.go:167 | a run bounded by a non-class character ends where SpanEnd says |
| `Gpu.SpanEndBound` | pkg/gpu/gpu.go:167 | a run stops at the first non-class character |
| `Gpu.FindUsageFromLeftmost` | pkg/gpu/gpu.go:168 | the search returns the leftmost match |
| `Gpu.FindUsageFromNone` | pkg/gpu/gpu.go:168-169 | the search finds nothing exactly when no position matches |
| `Gpu.FindUsageFrom` | pkg/gpu/gpu.go:168 | whatever the search from a position captures has the shape of the group |
| `Gpu.FindUsage` | pkg/gpu/gpu.go:168-169 | whatever FindStringSubmatch captures has the shape of the group |
| `Gpu.RadeonLineUsage` | pkg/gpu/gpu.go:165-173 | a line gives a usage only if it contains "gpu" and "%" and the pattern matches; the usage is then ParseFloat of the captured group, and at least 0 |
| `Gpu.RadeonUsageWhenMatched` | pkg/gpu/gpu.go:165-173 | a line gives a usage exactly when it contains "gpu" and "%" and the pattern matches: with exact reals the captured group always parses, so in this model the `continue` on a parse error is never taken |
| `Gpu.FirstRadeonUsage` | pkg/gpu/gpu.go:163-185 | the first usage found is at least 0 |
| `Gpu.FirstRadeonUsageAt` | pkg/gpu/gpu.go:163-181 | the reading is that of the first line, in order, that has one |
| `Gpu.FirstRadeonUsageNone` | pkg/gpu/gpu.go:163-185 | there is no reading exactly when no line has one |
| `Gpu.RadeontopEntry` | pkg/gpu/gpu.go:163-185 | there is an entry exactly when some line reports a usage; it is "AMD GPU" of type "amd" with temperature 0, no error, and the usage of the first such line |
| `Gpu.SampleCapture` | pkg/gpu/gpu.go:167-168 | in "gpu 12.50%" the pattern captures "12.50" |
| `Gpu.SampleUsageValue` | pkg/gpu/gpu.go:170 | "12.50" parses to 12.5 |
| `Gpu.SampleLineUsage` | pkg/gpu/gpu.go:165-173 | the line "gpu 12.50%" reports a usage of 12.5 |
| `Gpu.RadeontopSample` | pkg/gpu/gpu.go:159-180 | radeontop output "gpu 12.50%" gives "AMD GPU" of type "amd" at 12.5 % usage, temperature 0 and no error |
| `Gpu.ParseRadeontopOutput` | pkg/gpu/gpu.go:159-186 | the early-return line scan yields the entry of the first line with a usage reading |
| `Gpu.AmdGPUs` | pkg/gpu/gpu.go:69-92 | AMD contributes at most one entry, of type "amd" |
| `Gpu.CollectAMDGPUs` | pkg/gpu/gpu.go:69-92 | the collector appends the parsed entry if any, and nothing when radeontop is missing or fails |
| `Gpu.CollectIntegratedGPU` | pkg/gpu/gpu.go:95-123 | an entry exists exactly when lspci output contains "VGA" and ("Intel" or "AMD"), case-sensitively; it has type "integrated", usage 0, temperature 0 and a non-empty error |
| `Gpu.AllGPUs` | pkg/gpu/gpu.go:15-33 | the NVIDIA entries come first, unchanged, and at most two entries follow them |
| `Gpu.CollectAllGPUMetrics` | pkg/gpu/gpu.go:15-33 | the appends give NVIDIA entries, then AMD entries, then the optional integrated entry |
| `Gpu.AllGPUsByVendor` | pkg/gpu/gpu.go:15-33 | every entry has a known type, the list is ordered NVIDIA, AMD, integrated, and non-NVIDIA vendors add at most two entries |
| `Gpu.NoToolsNoGPUs` | pkg/gpu/gpu.go:40-43 | missing or failing tools contribute nothing, so with none running the list is empty |
| `System.ReadFile` | pkg/monitor/system.go:76-79 | a read succeeds exactly for a path that exists, and yields its content |
| `System.ReadDir` | pkg/monitor/system.go:95-98 | a listing succeeds exactly for a directory that exists, and yields its entry names; otherwise it is a not-found error for that directory |
| `System.GetCPUUsage` | pkg/monitor/system.go:27-38 | succeeds exactly on a non-empty sample list, with its first element; a sampler error passes through; an empty list is the "no CPU usage data" error |
| `System.ResolveThermalPath` | pkg/monitor/system.go:68-74 | a path without "*" is used as is; with "*", the first glob match is used, and no match is an error (`System.Glob`, line 69, is a lookup of the pattern in the filesystem value, no entry meaning no match) |
| `System.ReadMillidegrees` | pkg/monitor/system.go:76-89 | reading a resolved path succeeds exactly when the file exists and its trimmed content parses, and the value is then that number divided by 1000; a missing file is the not-found error and unparsable content the parse error naming the trimmed text |
| `System.ReadThermalFile` | pkg/monitor/system.go:66-90 | a read succeeds exactly when the path resolves to an existing file whose trimmed content parses, and its value is then that number divided by 1000; a glob with no match is the "no thermal files found" error |
| `System.ReadThermalFileMillidegrees` | pkg/monitor/system.go:82-89 | a file holding n millidegrees plus trailing whitespace reads as n/1000 degrees |
| `System.ReadThermalFileExample` | pkg/monitor/system.go:82-89 | "45000\n" reads as 45 degrees |
| `System.ReadThermalFileNotANumber` | pkg/monitor/system.go:83-86 | "not-a-number" is an error |
| `System.ReadThermalFileNoMatch` | pkg/monitor/system.go:69-72 | a glob with no match is the "no thermal files found" error |
| `System.ReadThermalFileFirstMatch` | pkg/monitor/system.go:73 | a glob reads its first match |
| `System.FirstThermalReading` | pkg/monitor/system.go:51-55 | a reading found is the reading of one of the paths |
| `System.FirstThermalReadingAt` | pkg/monitor/system.go:51-55 | the first fixed path that reads wins, once all before it fail |
| `System.FirstThermalReadingNone` | pkg/monitor/system.go:51-55 | the fixed paths give nothing exactly when every one fails |
| `System.ZoneReading` | pkg/monitor/system.go:101-113 | a zone gives a reading exactly when its name starts with "thermal_zone", its temp file reads, and its type file exists with a trimmed, lowercased content that contains "cpu", "x86" or "core"; the reading is then its temp file's |
| `System.FirstCpuZone` | pkg/monitor/system.go:100-116 | a reading found is the reading of one of the entries |
| `System.FirstCpuZoneAt` | pkg/monitor/system.go:100-116 | the scan returns the first qualifying zone in directory order |
| `System.FirstCpuZoneNone` | pkg/monitor/system.go:100-118 | the scan finds nothing exactly when no entry qualifies |
| `System.NonCpuZoneSkipped` | pkg/monitor/system.go:103-114 | a zone with a readable temp but an unreadable or non-CPU type is skipped |
| `System.OtherEntrySkipped` | pkg/monitor/system.go:101 | an entry not named thermal_zone* is skipped |
| `System.ThermalZoneTemperature` | pkg/monitor/system.go:93-119 | an unreadable thermal directory is its not-found error; otherwise a failure is "no CPU thermal zone found", and a success is the reading of one of its entries |
| `System.FindThermalZone` | pkg/monitor/system.go:93-119 | the zone loop with early return computes the zone-scan result, and the error when there is none |
| `System.GetCPUTemperature` | pkg/monitor/system.go:41-63 | the fixed-path loop, then the zone scan, then the error, compute the CPU temperature |
| `System.CpuTemperature` | pkg/monitor/system.go:41-63 | the only error is "CPU temperature not available"; a success is the reading of one of the four fixed paths, or the zone-scan result |
| `System.CpuTemperatureFailure` | pkg/monitor/system.go:44-62 | the result is an error exactly when all four paths fail and no zone qualifies; the error is "CPU temperature not available" |
| `System.CpuTemperatureIgnoresZones` | pkg/monitor/system.go:51-55 | once a fixed path reads, that reading is the result, and the zones are never consulted |
| `System.FirstThermalReadingIgnoresDirs` | pkg/monitor/system.go:51-55 | the fixed-path search does not depend on directory listings |
| `System.CpuTemperatureFallback` | pkg/monitor/system.go:57-60 | when all four fixed paths fail, the first qualifying zone is the result |
| `System.ToLowerIdempotent` | pkg/monitor/system.go:108-110 | lowercasing twice is lowercasing once |
| `System.IsCpuZoneTypeIgnoresCase` | pkg/monitor/system.go:107-110 | the CPU type test `System.IsCpuZoneType` (the lowercased, trimmed type contains "cpu", "x86" or "core") does not depend on letter case |
| `System.X86PackageIsCpu` | pkg/monitor/system.go:109 | "x86_pkg_temp" names a CPU zone |
| `System.AcpiIsNotCpu` | pkg/monitor/system.go:108-110 | "acpitz" does not name a CPU zone |
| `Monitor.UsageRecords` | pkg/monitor/monitor.go:101-133 | disk and memory records carry an error exactly when their probe failed; on failure the error is the message and the figures are 0; on success the figures are copied |
| `Monitor.DiskResult` | pkg/monitor/monitor.go:101-116 | a disk record with an error has zero figures, and a successful probe leaves no error |
| `Monitor.MemoryResult` | pkg/monitor/monitor.go:119-133 | a memory record with an error has zero figures, and a successful probe leaves no error |
| `Monitor.CpuResult` | pkg/monitor/monitor.go:136-158 | a CPU record with an error has zero usage and temperature; a non-empty sample list gives no error and its first sample; a non-zero temperature is the reading of the sensors |
| `Monitor.CpuUsageFailure` | pkg/monitor/monitor.go:140-145 | a usage failure is the record's error, usage and temperature are 0, and the temperature sensors are not consulted |
| `Monitor.CpuTemperatureOptional` | pkg/monitor/monitor.go:146-155 | after a successful usage read the record has no error; temperature failure leaves 0, and success stores the reading |
| `Monitor.CpuNoSamples` | pkg/monitor/monitor.go:140-145 | an empty sample list gives a record with the "no CPU usage data" error |
| `Monitor.SystemMetrics.constructor` | pkg/monitor/monitor.go:73-75 | a new snapshot is stamped with the time and holds nothing yet |
| `Monitor.Monitor.constructor` | pkg/monitor/monitor.go:30-38 | a new monitor keeps its configuration and has no latest snapshot |
| `Monitor.Monitor.GetMetrics` | pkg/monitor/monitor.go:67-69 | returns the latest snapshot, nil before the first cycle |
| `Monitor.Monitor.CollectMetrics` | pkg/monitor/monitor.go:72-98 | latest becomes a fresh snapshot stamped with the time; each field holds its own probe's record; the previous snapshot is not modified |
| `Monitor.Monitor.CollectDiskMetrics` | pkg/monitor/monitor.go:101-116 | the field-by-field build gives the disk record of the probe outcome |
| `Monitor.Monitor.CollectMemoryMetrics` | pkg/monitor/monitor.go:119-133 | the field-by-field build gives the memory record of the probe outcome |
| `Monitor.Monitor.CollectCPUMetrics` | pkg/monitor/monitor.go:136-158 | usage first, returning on its error, then the optional temperature, gives the CPU record |
| `Monitor.Monitor.CollectGPUMetrics` | pkg/monitor/monitor.go:161-163 | the snapshot's GPU list is the aggregate of all vendors |
| `Monitor.DiskProbeIsolated` | pkg/monitor/monitor.go:78-87 | changing the disk outcome changes only the disk field of a snapshot |
| `Display.DiskItem` | pkg/display/display.go:144-160 | the disk item shows "HDD: n/a" exactly when the record has an error, the error icon exactly then, and otherwise "HDD" with the total in GiB and the used percentage |
| `Display.MemoryItem` | pkg/display/display.go:163-179 | the memory item shows "RAM: n/a" exactly when the record has an error, the error icon exactly then, and otherwise "RAM" with the total in GiB and the used percentage |
| `Display.CpuItem` | pkg/display/display.go:182-201 | the CPU item shows "n/a" exactly when the record has an error, the error icon exactly then; without an error it shows "CPU" with the usage, and the temperature exactly when it is above 0 |
| `Display.GpuLabel` | pkg/display/display.go:231-242 | the label is "NVIDIA GPU ", "AMD GPU ", "iGPU " or, for any other type, "GPU ", followed by the entry's position in decimal |
| `Display.GpuItem` | pkg/display/display.go:204-228 | the GPU item shows "n/a" exactly when the entry has an error, the error icon exactly then; without an error it shows the vendor label with the usage, and the temperature exactly when it is above 0 |
| `Display.ErrorShowsNotAvailable` | pkg/display/display.go:144-228 | a record with an error shows "HDD: n/a", "RAM: n/a", "CPU: n/a" or "label: n/a" with the error icon, whatever its figures; a record without an error shows a reading |
| `Display.CpuItemShowsTemperature` | pkg/display/display.go:189-194 | the CPU item shows a temperature exactly when there is no error and the temperature is above 0 |
| `Display.FailedProbeShowsNotAvailable` | pkg/display/display.go:144-179 | a failed disk or memory probe ends as "n/a" in the menu |
| `Display.IntegratedAlwaysNotAvailable` | pkg/display/display.go:204-242 | the placeholder integrated GPU always shows "iGPU i: n/a" |
| `Display.GpuLabelDistinct` | pkg/display/display.go:231-241 | entries of one vendor at different positions get different labels |
| `Display.GpuLabelExample` | pkg/display/display.go:233-234 | entry 0 of type "nvidia" is labelled "NVIDIA GPU 0" |
| `Display.StepInterval` | pkg/display/display.go:291-305 | a step keeps the temperature unit and adds 5 within the unit while the interval is below the threshold; from seconds at 60 or more it goes to 1 minute, and from any other unit at 30 or more it goes to 5 seconds |
| `Display.StepIntervalPositive` | pkg/display/display.go:291-305 | a positive interval stays positive after a step, in both units, and the temperature unit is untouched |
| `Display.OrbitStep` | pkg/display/display.go:291-305 | each of the 19 states from 5 seconds to 31 minutes steps to the next, and 31 minutes steps back to 5 seconds |
| `Display.OrbitStepN` | pkg/display/display.go:291-305 | n steps advance n places around the 19-state cycle |
| `Display.OrbitDistinct` | pkg/display/display.go:291-305 | the 19 states of the cycle are pairwise distinct |
| `Display.DefaultCyclePeriod` | pkg/display/display.go:291-305 | from the default, n steps return to the default exactly when n is a multiple of 19 |
| `Display.DefaultCycleBounds` | pkg/display/display.go:291-305 | from the default, the interval always stays between 5 and 1860 seconds |
| `Display.ToggledUnit` | pkg/display/display.go:316-320 | "celsius" becomes "fahrenheit" and any other unit becomes "celsius", so the unit always changes; the interval and its unit are left alone |
| `Display.ToggleTwice` | pkg/display/display.go:316-320 | toggling twice from "celsius" or "fahrenheit" gives back the configuration |
| `Display.Display.constructor` | pkg/display/display.go:29-36 | the display holds the configuration it is given |
| `Display.Display.ShowIntervalDialog` | pkg/display/display.go:288-305 | the in-place field updates perform one step of the interval machine |
| `Display.Display.ToggleTemperatureUnit` | pkg/display/display.go:315-320 | the in-place update performs the toggle |
| `Text.Contains` | pkg/gpu/gpu.go:110-111 | a string contains only patterns no longer than itself (IndexSpec states the rest) |
| `Text.HasPrefix` | pkg/monitor/system.go:101 | a string that starts with a prefix contains it |
| `Text.Split` | pkg/gpu/gpu.go:53 | a split gives at least one piece, and exactly one, the string itself, when the separator does not occur |
| `Text.IndexSpec` | pkg/gpu/gpu.go:110-111 | the index found by `Text.Index` (`strings.Index`) is the first occurrence, and none exactly when there is no occurrence (`strings.Contains`) |
| `Text.IndexFirst` | pkg/gpu/gpu.go:127 | a first occurrence is what the index finds |
| `Text.JoinSplit` | pkg/gpu/gpu.go:127 | joining the pieces of a split gives back the string |
| `Text.SplitPiecesFree` | pkg/gpu/gpu.go:127 | no piece of a split contains the separator |
| `Text.SplitJoin` | pkg/gpu/gpu.go:127 | splitting the join of separator-free fields recovers the fields, for a separator that cannot overlap itself |
| `Text.IndexAfterField` | pkg/gpu/gpu.go:127 | the first separator follows the first separator-free field |
| `Text.TrimSpace` | pkg/monitor/system.go:82 | trimming never lengthens a string (TrimSpaceSpec states what is cut) |
| `Text.TrimSpaceSpec` | pkg/monitor/system.go:82 | the trimmed string is a slice of the input with only whitespace cut on each side, and its ends are not whitespace |
| `Text.TrimLeftSpec` | pkg/monitor/system.go:82 | left trimming cuts exactly the leading whitespace |
| `Text.TrimRightSpec` | pkg/monitor/system.go:82 | right trimming cuts exactly the trailing whitespace |
| `Text.TrimSpaceNoop` | pkg/gpu/gpu.go:133-143 | a string with no whitespace at its ends is unchanged |
| `Text.TrimSpaceTrailing` | pkg/monitor/system.go:82 | trailing whitespace such as a newline is removed and nothing else is |
| `Text.ToLower` | pkg/monitor/system.go:108-110 | same length, each character lowercased |
| `Text.ParseUnsignedDecimal` | pkg/monitor/system.go:83 | a parsed unsigned decimal is not negative; what it accepts and rejects is stated by UnsignedDecimalPoint, UnsignedDecimalRejects and UnsignedDecimalTwoPoints |
| `Text.ParseFloat` | pkg/monitor/system.go:83 | the empty string does not parse; signed decimals parse to their value (ParseFloatDecimal, ParseFloatInteger), and foreign characters, two points, a lone point or a lone sign are rejected (ParseFloatRejects, ParseFloatTwoPoints, ParseFloatNoDigits) |
| `Text.DecimalValue` | pkg/monitor/system.go:83 | the value of whole and fraction digits, whole + fraction / 10^(fraction length), is at least the whole part |
| `Text.UnsignedDecimalPoint` | pkg/monitor/system.go:83 | digits, a point and digits, with at least one digit, parse to their decimal value |
| `Text.ParseFloatSign` | pkg/monitor/system.go:83 | a leading "+" keeps and a leading "-" negates the value of the unsigned rest |
| `Text.ParseFloatDecimal` | pkg/monitor/system.go:83 | every [+-]digits.digits numeral with at least one digit parses to its decimal value, negated after "-" |
| `Text.ParseFloatInteger` | pkg/monitor/system.go:83 | every [+-]digits numeral parses to the value of its digits, negated after "-" |
| `Text.UnsignedDecimalRejects` | pkg/monitor/system.go:83 | one character that is neither a digit nor a point makes the unsigned parse fail |
| `Text.UnsignedDecimalTwoPoints` | pkg/monitor/system.go:83 | a second point makes the unsigned parse fail |
| `Text.ParseFloatTwoPoints` | pkg/monitor/system.go:83 | a number with two points, such as "1.2.3", does not parse |
| `Text.ParseFloatNoDigits` | pkg/monitor/system.go:83 | ".", "+" and "-" do not parse |
| `Text.ParseFloatRejects` | pkg/monitor/system.go:83 | one character that is neither a digit nor a point, and not a leading sign, makes the parse fail |
| `Text.NatToString` | pkg/display/display.go:234 | a decimal rendering is non-empty, all digits, and has no leading zero |
| `Text.DigitsValueOfNatToString` | pkg/display/display.go:234 | reading a rendered number back gives the number |
| `Text.ParseFloatNatToString` | pkg/monitor/system.go:83 | a rendered natural number parses as itself |
| `Text.NatToStringInjective` | pkg/display/display.go:234 | different numbers render differently |

## Left out

- External processes and `PATH` lookup (`exec.LookPath`, `exec.Command`): a tool is absent, failed, or its standard output, given as input.
- The gopsutil probes (disk usage, virtual memory, `cpu.Percent` with its one-second sampling): their outcomes are inputs.
- The real filesystem: `os.ReadFile`, `filepath.Glob` and `os.ReadDir` are lookups in maps. A glob syntax error is folded into "no match" (the source treats both alike). The texts of OS errors are placeholders.
- Listing order: `os.ReadDir` and `filepath.Glob` return names sorted, but the model takes any order the filesystem value gives. So the model also admits orders Go never returns, such as "thermal_zone10" before "thermal_zone2". Every statement about the first match or first qualifying zone holds for whichever order is given.
- `filepath.Join` path cleaning: zone file paths are plain concatenations "/sys/class/thermal/" + entry + "/temp", which is what Join gives for the plain entry names a directory listing holds.
- Text.ParseFloat: accepts only an optional sign, digits, and an optional point with digits. Go's `strconv.ParseFloat` also accepts exponents, hexadecimal, underscores between digits ("1_000"), "inf", "infinity" and "nan" in any letter case, rounds to 64-bit floating point, and reports a range error (ErrRange) for a number too large for float64; readings are exact reals here, so no reading overflows. This touches the thermal, nvidia-smi and radeontop readings alike; in particular an over-long radeontop group, which Go rejects and skips with `continue`, parses in the model.
- Text.ToLower: lowercases ASCII letters only. Go's `strings.ToLower` is Unicode-aware; the zone-type keywords are ASCII.
- Gpu.ParseNVIDIALine: its own contract states only the type and the empty error. Names and readings are stated by two lemmas. Gpu.ParseNvidiaCsv covers lines joined from fields free of ", ", which the entry then trims itself. Gpu.ParseNvidiaFields covers four fields free of commas and of white space at their ends, spelling the entry out.
- Floating-point formatting (`%.1f`) and float rounding in the menu texts: a reading item holds the exact figures it would print (the total divided by GiB as an exact real, and the percentages), not the printed text.
- The `Start` ticker loop, `Stop` and context cancellation, the drop-on-full channel send of each snapshot, and the unsynchronised read of `latest` from another goroutine: timing and concurrency.
- `time.Now()`: the snapshot time is a parameter.
- Logging (internal/logs/logger.go and every `logs.*` call): output only, no effect on results.
- Config `Load`, `Save` and the config path lookup, and the `Save` and `updateMenu` calls after each dialog: file I/O and rendering.
- GetUpdateIntervalSeconds keeps a zero or negative interval (pkg/config/config.go:27-32), and `time.NewTicker` panics for such a duration (pkg/monitor/monitor.go:44). The ticker loop is not modelled; the proved sign preservation of `Config.GetUpdateIntervalSeconds` is what records that consequence.
- The sharing of one `*Config` between the monitor and the display: the display owns its configuration value here; the monitor reads the interval only in the ticker loop, which is not modelled.
- Fyne rendering: icon loading, menu construction, `recreateMenuItems`, the menu labels of the configuration items, and the two-second update loop. Icons are an enumeration.
- Integer widths: byte counts are unbounded naturals rather than `uint64`, intervals unbounded integers rather than `int`, and GPU positions naturals rather than `int`.
- The process entry point, cmd/main.go.
