/**
 * CPU readings (pkg/monitor/system.go): the first CPU-usage sample, and the
 * CPU temperature from a fixed list of sensor files with a fallback scan of
 * the thermal zones. The filesystem is a read-only value: file contents by
 * path, the ordered matches of each glob pattern, and the ordered entry names
 * of each directory.
 */
module System {
  import opened Wrappers
  import opened Text

  /**
   * files: content of each readable file; globs: the matches of a pattern, in
   * the order filepath.Glob returns them (a pattern not in the map matches
   * nothing); dirs: the entry names of each readable directory, in order.
   */
  datatype FileSystem = FileSystem(files: map<string, string>, globs: map<string, seq<string>>, dirs: map<string, seq<string>>)

  /** The error text of a failed read; the wording stands in for the OS's. */
  function NotFound(path: string): string {
    "open " + path + ": no such file or directory"
  }

  /** os.ReadFile. */
  function ReadFile(fs: FileSystem, path: string): (r: Result<string, string>)
    ensures r.Success? <==> path in fs.files
    ensures r.Success? ==> r.value == fs.files[path]
  {
    if path in fs.files then Success(fs.files[path]) else Failure(NotFound(path))
  }

  /** filepath.Glob; an erroneous pattern is folded into "no match". */
  function Glob(fs: FileSystem, pattern: string): seq<string> {
    if pattern in fs.globs then fs.globs[pattern] else []
  }

  /** os.ReadDir, names only. */
  function ReadDir(fs: FileSystem, dir: string): (r: Result<seq<string>, string>)
    ensures r.Success? <==> dir in fs.dirs
    ensures r.Success? ==> r.value == fs.dirs[dir]
    ensures r.Failure? ==> r.error == NotFound(dir)
  {
    if dir in fs.dirs then Success(fs.dirs[dir]) else Failure(NotFound(dir))
  }

  // ---------------------------------------------------------------------
  // CPU usage
  // ---------------------------------------------------------------------

  const NoCpuData := "no CPU usage data available"

  /** getCPUUsage: the first of the per-CPU samples; the sampler's error passes through. */
  function GetCPUUsage(percentages: Result<seq<real>, string>): (r: Result<real, string>)
    ensures r.Success? <==> percentages.Success? && percentages.value != []
    ensures r.Success? ==> r.value == percentages.value[0]
    ensures percentages.Failure? ==> r == Failure(percentages.error)
    ensures percentages == Success([]) ==> r == Failure(NoCpuData)
  {
    match percentages
    case Failure(e) => Failure(e)
    case Success(p) => if |p| == 0 then Failure(NoCpuData) else Success(p[0])
  }

  // ---------------------------------------------------------------------
  // Thermal files
  // ---------------------------------------------------------------------

  const NoThermalFiles := "no thermal files found"

  /** The error strconv.ParseFloat reports for text it cannot read. */
  function ParseFloatError(s: string): string {
    "strconv.ParseFloat: parsing \"" + s + "\": invalid syntax"
  }

  /** The file a thermal path names: itself, or the first match when it holds a `*`. */
  function ResolveThermalPath(fs: FileSystem, path: string): (r: Result<string, string>)
    ensures !Contains(path, "*") ==> r == Success(path)
    ensures Contains(path, "*") ==> (r.Failure? <==> Glob(fs, path) == [])
    ensures Contains(path, "*") && r.Success? ==> r.value == Glob(fs, path)[0]
  {
    if Contains(path, "*") then
      var matches := Glob(fs, path);
      if |matches| == 0 then Failure(NoThermalFiles) else Success(matches[0])
    else Success(path)
  }

  /** The degrees a sensor file holds: its trimmed content read as millidegrees. */
  function ReadMillidegrees(fs: FileSystem, path: string): (r: Result<real, string>)
    ensures r.Success? <==> path in fs.files && ParseFloat(TrimSpace(fs.files[path])).Some?
    ensures r.Success? ==> ParseFloat(TrimSpace(fs.files[path])) == Some(r.value * 1000.0)
    ensures path !in fs.files ==> r == Failure(NotFound(path))
    ensures path in fs.files && r.Failure? ==> r.error == ParseFloatError(TrimSpace(fs.files[path]))
  {
    match ReadFile(fs, path)
    case Failure(e) => Failure(e)
    case Success(data) =>
      var tempStr := TrimSpace(data);
      match ParseFloat(tempStr)
      case None => Failure(ParseFloatError(tempStr))
      case Some(temp) => Success(temp / 1000.0)
  }

  /** readThermalFile: resolve a glob, read the file, trim, parse, divide by 1000. */
  function ReadThermalFile(fs: FileSystem, path: string): (r: Result<real, string>)
    ensures r.Success? ==> (
      var file := ResolveThermalPath(fs, path);
      && file.Success? && file.value in fs.files
      && ParseFloat(TrimSpace(fs.files[file.value])) == Some(r.value * 1000.0))
    ensures (
      var file := ResolveThermalPath(fs, path);
      file.Success? && file.value in fs.files && ParseFloat(TrimSpace(fs.files[file.value])).Some?
      ==> r == Success(ParseFloat(TrimSpace(fs.files[file.value])).value / 1000.0))
    ensures ResolveThermalPath(fs, path).Failure? ==> r == Failure(NoThermalFiles)
  {
    match ResolveThermalPath(fs, path)
    case Failure(e) => Failure(e)
    case Success(file) => ReadMillidegrees(fs, file)
  }

  /** A file holding a whole number of millidegrees, with trailing white space, reads as that number / 1000. */
  lemma ReadThermalFileMillidegrees(fs: FileSystem, path: string, n: nat, ws: string)
    requires !Contains(path, "*")
    requires forall i :: 0 <= i < |ws| ==> IsSpace(ws[i])
    requires path in fs.files && fs.files[path] == NatToString(n) + ws
    ensures ReadThermalFile(fs, path) == Success(n as real / 1000.0)
  {
    var s := NatToString(n);
    assert IsDigit(s[0]) && IsDigit(s[|s| - 1]);
    TrimSpaceTrailing(s, ws);
    ParseFloatNatToString(n);
  }

  /** "45000\n" in a sensor file reads as 45 degrees. */
  lemma ReadThermalFileExample(fs: FileSystem, path: string)
    requires !Contains(path, "*")
    requires path in fs.files && fs.files[path] == "45000\n"
    ensures ReadThermalFile(fs, path) == Success(45.0)
  {
    assert NatToString(45000) + "\n" == "45000\n";
    ReadThermalFileMillidegrees(fs, path, 45000, "\n");
  }

  /** Content that is not a number is an error for that file. */
  lemma ReadThermalFileNotANumber(fs: FileSystem, path: string)
    requires !Contains(path, "*")
    requires path in fs.files && fs.files[path] == "not-a-number"
    ensures ReadThermalFile(fs, path).Failure?
  {
    var s := fs.files[path];
    TrimSpaceNoop(s);
    assert !IsDigit(s[0]);
  }

  /** A glob path with no match is an error, whatever the files hold. */
  lemma ReadThermalFileNoMatch(fs: FileSystem, path: string)
    requires Contains(path, "*") && Glob(fs, path) == []
    ensures ReadThermalFile(fs, path) == Failure(NoThermalFiles)
  {
  }

  /** A glob path reads the first of its matches and no other. */
  lemma ReadThermalFileFirstMatch(fs: FileSystem, path: string)
    requires Contains(path, "*") && Glob(fs, path) != []
    ensures ReadThermalFile(fs, path) == ReadMillidegrees(fs, Glob(fs, path)[0])
  {
  }

  // ---------------------------------------------------------------------
  // The fixed sensor paths
  // ---------------------------------------------------------------------

  const CoretempGlob := "/sys/devices/platform/coretemp.0/hwmon/hwmon*/temp1_input"

  /** The sensor files tried first, in order. */
  const ThermalPaths: seq<string> := [
    "/sys/class/thermal/thermal_zone0/temp",
    "/sys/class/thermal/thermal_zone1/temp",
    CoretempGlob,
    "/sys/devices/virtual/thermal/thermal_zone0/temp"
  ]

  /** The reading of the first path, in order, that reads. */
  function FirstThermalReading(fs: FileSystem, paths: seq<string>): (r: Option<real>)
    ensures r.Some? ==> exists k :: 0 <= k < |paths| && ReadThermalFile(fs, paths[k]) == Success(r.value)
  {
    if paths == [] then None
    else match ReadThermalFile(fs, paths[0])
      case Success(t) => Some(t)
      case Failure(_) => FirstThermalReading(fs, paths[1..])
  }

  /** The first path that reads, with every earlier one failing, gives the reading. */
  lemma {:induction false} FirstThermalReadingAt(fs: FileSystem, paths: seq<string>, k: nat)
    requires k < |paths| && ReadThermalFile(fs, paths[k]).Success?
    requires forall j :: 0 <= j < k ==> ReadThermalFile(fs, paths[j]).Failure?
    ensures FirstThermalReading(fs, paths) == Some(ReadThermalFile(fs, paths[k]).value)
  {
    if k > 0 {
      assert forall j :: 0 <= j < k - 1 ==> paths[1..][j] == paths[j + 1];
      FirstThermalReadingAt(fs, paths[1..], k - 1);
    }
  }

  /** No reading at all exactly when every path fails. */
  lemma {:induction false} FirstThermalReadingNone(fs: FileSystem, paths: seq<string>)
    ensures FirstThermalReading(fs, paths).None? <==>
            forall j :: 0 <= j < |paths| ==> ReadThermalFile(fs, paths[j]).Failure?
  {
    if paths != [] {
      FirstThermalReadingNone(fs, paths[1..]);
      assert forall j :: 1 <= j < |paths| ==> paths[j] == paths[1..][j - 1];
    }
  }

  // ---------------------------------------------------------------------
  // The thermal-zone scan
  // ---------------------------------------------------------------------

  const ThermalDir := "/sys/class/thermal"
  const ZonePrefix := "thermal_zone"
  const NoCpuZone := "no CPU thermal zone found"

  /** filepath.Join of the thermal directory, an entry name and a file name. */
  function ZoneFile(name: string, leaf: string): string {
    ThermalDir + "/" + name + "/" + leaf
  }

  /** A zone type names a CPU sensor when, lower-cased, it mentions cpu, x86 or core. */
  predicate IsCpuZoneType(zoneType: string) {
    var t := ToLower(zoneType);
    Contains(t, "cpu") || Contains(t, "x86") || Contains(t, "core")
  }

  /** The temperature one directory entry contributes to the scan, if it qualifies. */
  function ZoneReading(fs: FileSystem, name: string): (r: Option<real>)
    ensures r.Some? ==> (
      && HasPrefix(name, ZonePrefix)
      && ReadThermalFile(fs, ZoneFile(name, "temp")) == Success(r.value)
      && ZoneFile(name, "type") in fs.files
      && IsCpuZoneType(TrimSpace(fs.files[ZoneFile(name, "type")])))
    ensures (
      && HasPrefix(name, ZonePrefix)
      && ReadThermalFile(fs, ZoneFile(name, "temp")).Success?
      && ZoneFile(name, "type") in fs.files
      && IsCpuZoneType(TrimSpace(fs.files[ZoneFile(name, "type")])))
      ==> r == Some(ReadThermalFile(fs, ZoneFile(name, "temp")).value)
  {
    if !HasPrefix(name, ZonePrefix) then None
    else match ReadThermalFile(fs, ZoneFile(name, "temp"))
      case Failure(_) => None
      case Success(temp) =>
        match ReadFile(fs, ZoneFile(name, "type"))
        case Failure(_) => None
        case Success(typeData) => if IsCpuZoneType(TrimSpace(typeData)) then Some(temp) else None
  }

  /** The reading of the first qualifying zone among the entries, in order. */
  function FirstCpuZone(fs: FileSystem, entries: seq<string>): (r: Option<real>)
    ensures r.Some? ==> exists k :: 0 <= k < |entries| && ZoneReading(fs, entries[k]) == r
  {
    if entries == [] then None
    else if ZoneReading(fs, entries[0]).Some? then ZoneReading(fs, entries[0])
    else FirstCpuZone(fs, entries[1..])
  }

  /** The first qualifying entry gives the reading. */
  lemma {:induction false} FirstCpuZoneAt(fs: FileSystem, entries: seq<string>, k: nat)
    requires k < |entries| && ZoneReading(fs, entries[k]).Some?
    requires forall j :: 0 <= j < k ==> ZoneReading(fs, entries[j]).None?
    ensures FirstCpuZone(fs, entries) == ZoneReading(fs, entries[k])
  {
    if k > 0 {
      assert forall j :: 0 <= j < k - 1 ==> entries[1..][j] == entries[j + 1];
      FirstCpuZoneAt(fs, entries[1..], k - 1);
    }
  }

  /** No reading exactly when no entry qualifies. */
  lemma {:induction false} FirstCpuZoneNone(fs: FileSystem, entries: seq<string>)
    ensures FirstCpuZone(fs, entries).None? <==>
            forall j :: 0 <= j < |entries| ==> ZoneReading(fs, entries[j]).None?
  {
    if entries != [] {
      FirstCpuZoneNone(fs, entries[1..]);
      assert forall j :: 1 <= j < |entries| ==> entries[j] == entries[1..][j - 1];
    }
  }

  /** What findThermalZone returns. */
  function ThermalZoneTemperature(fs: FileSystem): (r: Result<real, string>)
    ensures ThermalDir !in fs.dirs ==> r == Failure(NotFound(ThermalDir))
    ensures ThermalDir in fs.dirs && r.Failure? ==> r.error == NoCpuZone
    ensures r.Success? ==> exists name :: name in fs.dirs[ThermalDir] && ZoneReading(fs, name) == Some(r.value)
  {
    match ReadDir(fs, ThermalDir)
    case Failure(e) => Failure(e)
    case Success(entries) =>
      match FirstCpuZone(fs, entries)
      case Some(t) => Success(t)
      case None => Failure(NoCpuZone)
  }

  /** findThermalZone: scan the thermal_zone entries in directory order, stop at the first CPU zone. */
  method FindThermalZone(fs: FileSystem) returns (r: Result<real, string>)
    ensures r == ThermalZoneTemperature(fs)
  {
    var dir := ReadDir(fs, ThermalDir);
    if dir.Failure? {
      return Failure(dir.error);
    }
    var entries := dir.value;
    for i := 0 to |entries|
      invariant FirstCpuZone(fs, entries[i..]) == FirstCpuZone(fs, entries)
    {
      var name := entries[i];
      assert entries[i..][1..] == entries[i + 1..];
      if HasPrefix(name, ZonePrefix) {
        var temp := ReadThermalFile(fs, ZoneFile(name, "temp"));
        if temp.Success? {
          var typeData := ReadFile(fs, ZoneFile(name, "type"));
          if typeData.Success? {
            var zoneType := TrimSpace(typeData.value);
            if Contains(ToLower(zoneType), "cpu") || Contains(ToLower(zoneType), "x86")
               || Contains(ToLower(zoneType), "core") {
              return Success(temp.value);
            }
          }
        }
      }
    }
    return Failure(NoCpuZone);
  }

  /** An entry whose temperature reads but whose type does not name a CPU is passed over. */
  lemma NonCpuZoneSkipped(fs: FileSystem, name: string, rest: seq<string>)
    requires ReadThermalFile(fs, ZoneFile(name, "temp")).Success?
    requires ZoneFile(name, "type") !in fs.files || !IsCpuZoneType(TrimSpace(fs.files[ZoneFile(name, "type")]))
    ensures FirstCpuZone(fs, [name] + rest) == FirstCpuZone(fs, rest)
  {
    assert ([name] + rest)[1..] == rest;
  }

  /** An entry without the thermal_zone prefix is passed over. */
  lemma OtherEntrySkipped(fs: FileSystem, name: string, rest: seq<string>)
    requires !HasPrefix(name, ZonePrefix)
    ensures FirstCpuZone(fs, [name] + rest) == FirstCpuZone(fs, rest)
  {
    assert ([name] + rest)[1..] == rest;
  }

  // ---------------------------------------------------------------------
  // CPU temperature
  // ---------------------------------------------------------------------

  const NoCpuTemperature := "CPU temperature not available"

  /** What getCPUTemperature returns: a fixed sensor, else the zone scan, else an error. */
  function CpuTemperature(fs: FileSystem): (r: Result<real, string>)
    ensures r.Failure? ==> r.error == NoCpuTemperature
    ensures r.Success? ==>
      || (exists k :: 0 <= k < |ThermalPaths| && ReadThermalFile(fs, ThermalPaths[k]) == Success(r.value))
      || ThermalZoneTemperature(fs) == r
  {
    match FirstThermalReading(fs, ThermalPaths)
    case Some(t) => Success(t)
    case None =>
      match ThermalZoneTemperature(fs)
      case Success(t) => Success(t)
      case Failure(_) => Failure(NoCpuTemperature)
  }

  /** getCPUTemperature: the four paths in order, then the zone scan. */
  method GetCPUTemperature(fs: FileSystem) returns (r: Result<real, string>)
    ensures r == CpuTemperature(fs)
  {
    var paths := ThermalPaths;
    for i := 0 to |paths|
      invariant FirstThermalReading(fs, paths[i..]) == FirstThermalReading(fs, paths)
    {
      assert paths[i..][1..] == paths[i + 1..];
      var temp := ReadThermalFile(fs, paths[i]);
      if temp.Success? {
        return Success(temp.value);
      }
    }
    var zone := FindThermalZone(fs);
    if zone.Success? {
      return Success(zone.value);
    }
    return Failure(NoCpuTemperature);
  }

  /** The only error getCPUTemperature reports is its own, and then no sensor or zone reads. */
  lemma CpuTemperatureFailure(fs: FileSystem)
    ensures CpuTemperature(fs).Failure? ==> CpuTemperature(fs).error == NoCpuTemperature
    ensures CpuTemperature(fs).Failure? <==>
            (forall j :: 0 <= j < |ThermalPaths| ==> ReadThermalFile(fs, ThermalPaths[j]).Failure?) &&
            ThermalZoneTemperature(fs).Failure?
  {
    FirstThermalReadingNone(fs, ThermalPaths);
  }

  /**
   * When one of the fixed sensors reads, the first that does decides the
   * result, and the thermal directory is never consulted.
   */
  lemma CpuTemperatureIgnoresZones(fs: FileSystem, k: nat, dirs: map<string, seq<string>>)
    requires k < |ThermalPaths| && ReadThermalFile(fs, ThermalPaths[k]).Success?
    requires forall j :: 0 <= j < k ==> ReadThermalFile(fs, ThermalPaths[j]).Failure?
    ensures CpuTemperature(fs) == ReadThermalFile(fs, ThermalPaths[k])
    ensures CpuTemperature(fs.(dirs := dirs)) == CpuTemperature(fs)
  {
    FirstThermalReadingAt(fs, ThermalPaths, k);
    FirstThermalReadingIgnoresDirs(fs, dirs, ThermalPaths);
  }

  /** The sensor files are read without listing any directory. */
  lemma {:induction false} FirstThermalReadingIgnoresDirs(fs: FileSystem, dirs: map<string, seq<string>>, paths: seq<string>)
    ensures FirstThermalReading(fs.(dirs := dirs), paths) == FirstThermalReading(fs, paths)
  {
    if paths != [] {
      var fs' := fs.(dirs := dirs);
      assert ResolveThermalPath(fs', paths[0]) == ResolveThermalPath(fs, paths[0]);
      assert ReadThermalFile(fs', paths[0]) == ReadThermalFile(fs, paths[0]);
      FirstThermalReadingIgnoresDirs(fs, dirs, paths[1..]);
    }
  }

  /**
   * With none of the fixed sensors readable, the first thermal zone whose type
   * names a CPU gives the temperature.
   */
  lemma CpuTemperatureFallback(fs: FileSystem, k: nat)
    requires forall j :: 0 <= j < |ThermalPaths| ==> ReadThermalFile(fs, ThermalPaths[j]).Failure?
    requires ThermalDir in fs.dirs
    requires k < |fs.dirs[ThermalDir]| && ZoneReading(fs, fs.dirs[ThermalDir][k]).Some?
    requires forall j :: 0 <= j < k ==> ZoneReading(fs, fs.dirs[ThermalDir][j]).None?
    ensures CpuTemperature(fs) == Success(ZoneReading(fs, fs.dirs[ThermalDir][k]).value)
  {
    FirstThermalReadingNone(fs, ThermalPaths);
    FirstCpuZoneAt(fs, fs.dirs[ThermalDir], k);
  }

  // ---------------------------------------------------------------------
  // Zone types
  // ---------------------------------------------------------------------

  /** Lower-casing is idempotent. */
  lemma {:induction false} ToLowerIdempotent(s: string)
    ensures ToLower(ToLower(s)) == ToLower(s)
  {
    if s != [] {
      ToLowerIdempotent(s[1..]);
    }
  }

  /** The keyword test ignores case. */
  lemma IsCpuZoneTypeIgnoresCase(zoneType: string)
    ensures IsCpuZoneType(ToLower(zoneType)) == IsCpuZoneType(zoneType)
  {
    ToLowerIdempotent(zoneType);
  }

  /** Intel's package sensor "x86_pkg_temp" is a CPU zone. */
  lemma X86PackageIsCpu(t: string)
    requires t == "x86_pkg_temp"
    ensures IsCpuZoneType(t)
  {
    assert ToLower(t) == t;
    IndexFirst(t, "x86", 0);
  }

  /** A pattern with a character `s` lacks does not occur in `s`. */
  lemma MissingChar(s: string, t: string, k: nat)
    requires k < |t| && forall i :: 0 <= i < |s| ==> s[i] != t[k]
    ensures !Contains(s, t)
  {
    forall j | 0 <= j <= |s|
      ensures !OccursAt(s, t, j)
    {
      if j + |t| <= |s| {
        assert s[j..j + |t|][k] == s[j + k];
      }
    }
    IndexSpec(s, t);
  }

  /** "acpitz", the ACPI board sensor, is not a CPU zone. */
  lemma AcpiIsNotCpu(t: string)
    requires t == "acpitz"
    ensures !IsCpuZoneType(t)
  {
    assert ToLower(t) == t;
    MissingChar(t, "cpu", 2);
    MissingChar(t, "x86", 0);
    MissingChar(t, "core", 1);
  }
}
