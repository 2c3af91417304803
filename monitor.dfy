/**
 * The collection cycle (pkg/monitor/monitor.go): each cycle turns the outcome
 * of every probe into its metric record, assembles them in a new snapshot and
 * makes that snapshot the latest one. What the system probes return (disk and
 * memory usage, the CPU samples, the sensor files, the GPU tools) and the
 * clock are parameters.
 */
module Monitor {
  import opened Wrappers
  import opened Types
  import opened Config
  import opened Gpu
  import opened System

  /** What a disk or memory probe reports on success. */
  datatype UsageStat = UsageStat(Total: nat, Used: nat, UsedPercent: real)

  /**
   * The outcome of every probe in one cycle: disk usage of "/", virtual
   * memory, the CPU percentages (one per sampler result), the filesystem the
   * temperature is read from, and the GPU tools.
   */
  datatype Probes = Probes(
    disk: Result<UsageStat, string>,
    memory: Result<UsageStat, string>,
    cpuPercent: Result<seq<real>, string>,
    fs: FileSystem,
    gpuTools: GpuTools)

  // ---------------------------------------------------------------------
  // The record each probe yields
  // ---------------------------------------------------------------------

  /** The disk record: the probe's error with zero figures, or its figures with no error. */
  function DiskResult(probe: Result<UsageStat, string>): (d: DiskMetrics)
    ensures d.Error != "" ==> d.Total == 0 && d.Used == 0 && d.UsedPercent == 0.0
    ensures probe.Success? ==> d.Error == ""
  {
    match probe
    case Failure(e) => DiskMetrics(0, 0, 0.0, e)
    case Success(u) => DiskMetrics(u.Total, u.Used, u.UsedPercent, "")
  }

  /** The memory record, built like the disk record. */
  function MemoryResult(probe: Result<UsageStat, string>): (m: MemoryMetrics)
    ensures m.Error != "" ==> m.Total == 0 && m.Used == 0 && m.UsedPercent == 0.0
    ensures probe.Success? ==> m.Error == ""
  {
    match probe
    case Failure(e) => MemoryMetrics(0, 0, 0.0, e)
    case Success(u) => MemoryMetrics(u.Total, u.Used, u.UsedPercent, "")
  }

  /**
   * A disk or memory record has an error exactly when its probe failed (with
   * a message); its figures are then zero, and otherwise they are the probe's.
   */
  lemma UsageRecords(probe: Result<UsageStat, string>)
    requires probe.Failure? ==> probe.error != ""
    ensures (DiskResult(probe).Error != "") <==> probe.Failure?
    ensures (MemoryResult(probe).Error != "") <==> probe.Failure?
    ensures probe.Failure? ==> DiskResult(probe).Error == probe.error && MemoryResult(probe).Error == probe.error
    ensures probe.Failure? ==> DiskResult(probe).Total == 0 && DiskResult(probe).Used == 0 && DiskResult(probe).UsedPercent == 0.0
    ensures probe.Failure? ==> MemoryResult(probe).Total == 0 && MemoryResult(probe).Used == 0 && MemoryResult(probe).UsedPercent == 0.0
    ensures probe.Success? ==> DiskResult(probe).Total == probe.value.Total && DiskResult(probe).Used == probe.value.Used
    ensures probe.Success? ==> DiskResult(probe).UsedPercent == probe.value.UsedPercent
    ensures probe.Success? ==> MemoryResult(probe).Total == probe.value.Total && MemoryResult(probe).Used == probe.value.Used
    ensures probe.Success? ==> MemoryResult(probe).UsedPercent == probe.value.UsedPercent
  {
  }

  /**
   * The CPU record: a usage failure is its error, with nothing else read; a
   * temperature failure is no error at all, only a temperature of 0.
   */
  function CpuResult(cpuPercent: Result<seq<real>, string>, fs: FileSystem): (c: CPUMetrics)
    ensures c.Error != "" ==> c.UsagePercent == 0.0 && c.Temperature == 0.0
    ensures cpuPercent.Success? && cpuPercent.value != [] ==> c.Error == "" && c.UsagePercent == cpuPercent.value[0]
    ensures c.Temperature != 0.0 ==> CpuTemperature(fs) == Success(c.Temperature)
  {
    match GetCPUUsage(cpuPercent)
    case Failure(e) => CPUMetrics(0.0, 0.0, e)
    case Success(usage) =>
      match CpuTemperature(fs)
      case Failure(_) => CPUMetrics(usage, 0.0, "")
      case Success(t) => CPUMetrics(usage, t, "")
  }

  /** A failed usage probe is the record's error, and the temperature sensors are not consulted. */
  lemma CpuUsageFailure(cpuPercent: Result<seq<real>, string>, fs: FileSystem, fs': FileSystem)
    requires GetCPUUsage(cpuPercent).Failure?
    ensures CpuResult(cpuPercent, fs) == CPUMetrics(0.0, 0.0, GetCPUUsage(cpuPercent).error)
    ensures CpuResult(cpuPercent, fs) == CpuResult(cpuPercent, fs')
  {
  }

  /**
   * Once usage is read the record has no error, whatever the sensors do: it
   * holds the first sample and the temperature when one is available, else 0.
   */
  lemma CpuTemperatureOptional(cpuPercent: Result<seq<real>, string>, fs: FileSystem)
    requires cpuPercent.Success? && cpuPercent.value != []
    ensures CpuResult(cpuPercent, fs).Error == ""
    ensures CpuResult(cpuPercent, fs).UsagePercent == cpuPercent.value[0]
    ensures CpuTemperature(fs).Success? ==> CpuResult(cpuPercent, fs).Temperature == CpuTemperature(fs).value
    ensures CpuTemperature(fs).Failure? ==> CpuResult(cpuPercent, fs).Temperature == 0.0
  {
  }

  /** With no CPU sample at all, the record carries that error. */
  lemma CpuNoSamples(fs: FileSystem)
    ensures CpuResult(Success([]), fs) == CPUMetrics(0.0, 0.0, NoCpuData)
  {
  }

  // ---------------------------------------------------------------------
  // Snapshot and monitor
  // ---------------------------------------------------------------------

  /** One snapshot; a field is None until the cycle that builds it fills it in. */
  class SystemMetrics {
    var Disk: Option<DiskMetrics>
    var Memory: Option<MemoryMetrics>
    var CPU: Option<CPUMetrics>
    var GPUs: seq<GPUMetrics>
    var Updated: int

    /** A snapshot stamped with `updated` and nothing collected yet. */
    constructor (updated: int)
      ensures Disk == None && Memory == None && CPU == None && GPUs == [] && Updated == updated
    {
      Disk, Memory, CPU, GPUs, Updated := None, None, None, [], updated;
    }

    /** Every field holds what its own probe of `env` gave, stamped `now`. */
    predicate Reflects(now: int, env: Probes)
      reads this
    {
      && Updated == now
      && Disk == Some(DiskResult(env.disk))
      && Memory == Some(MemoryResult(env.memory))
      && CPU == Some(CpuResult(env.cpuPercent, env.fs))
      && GPUs == AllGPUs(env.gpuTools)
    }
  }

  class Monitor {
    const config: Config
    var latest: SystemMetrics?

    /** New: a monitor that has not collected anything. */
    constructor (cfg: Config)
      ensures config == cfg && latest == null
    {
      config := cfg;
      latest := null;
    }

    /** GetMetrics: the latest snapshot, or null before the first cycle. */
    method GetMetrics() returns (m: SystemMetrics?)
      ensures m == latest
    {
      return latest;
    }

    /**
     * collectMetrics: build a new snapshot from this cycle's probes and make
     * it the latest; the snapshot it replaces is left as it was.
     */
    method CollectMetrics(now: int, env: Probes)
      modifies this`latest
      ensures latest != null && fresh(latest)
      ensures latest.Reflects(now, env)
      ensures old(latest) != null ==> unchanged(old(latest))
    {
      var metrics := new SystemMetrics(now);
      var disk := CollectDiskMetrics(env.disk);
      metrics.Disk := Some(disk);
      var memory := CollectMemoryMetrics(env.memory);
      metrics.Memory := Some(memory);
      var cpu := CollectCPUMetrics(env.cpuPercent, env.fs);
      metrics.CPU := Some(cpu);
      metrics.GPUs := CollectGPUMetrics(env.gpuTools);
      latest := metrics;
    }

    /** collectDiskMetrics: start from an empty record, then fill in the error or the figures. */
    method CollectDiskMetrics(probe: Result<UsageStat, string>) returns (disk: DiskMetrics)
      ensures disk == DiskResult(probe)
    {
      disk := DiskMetrics(0, 0, 0.0, "");
      if probe.Failure? {
        disk := disk.(Error := probe.error);
        return;
      }
      var usage := probe.value;
      disk := disk.(Total := usage.Total);
      disk := disk.(Used := usage.Used);
      disk := disk.(UsedPercent := usage.UsedPercent);
    }

    /** collectMemoryMetrics, the same steps for memory. */
    method CollectMemoryMetrics(probe: Result<UsageStat, string>) returns (memory: MemoryMetrics)
      ensures memory == MemoryResult(probe)
    {
      memory := MemoryMetrics(0, 0, 0.0, "");
      if probe.Failure? {
        memory := memory.(Error := probe.error);
        return;
      }
      var usage := probe.value;
      memory := memory.(Total := usage.Total);
      memory := memory.(Used := usage.Used);
      memory := memory.(UsedPercent := usage.UsedPercent);
    }

    /** collectCPUMetrics: usage first, returning on its error; then the optional temperature. */
    method CollectCPUMetrics(cpuPercent: Result<seq<real>, string>, fs: FileSystem) returns (cpu: CPUMetrics)
      ensures cpu == CpuResult(cpuPercent, fs)
    {
      cpu := CPUMetrics(0.0, 0.0, "");
      var usage := GetCPUUsage(cpuPercent);
      if usage.Failure? {
        cpu := cpu.(Error := usage.error);
        return;
      }
      cpu := cpu.(UsagePercent := usage.value);
      var temp := GetCPUTemperature(fs);
      if temp.Success? {
        cpu := cpu.(Temperature := temp.value);
      }
    }

    /** collectGPUMetrics: the aggregate of all vendors. */
    method CollectGPUMetrics(tools: GpuTools) returns (gpus: seq<GPUMetrics>)
      ensures gpus == AllGPUs(tools)
    {
      gpus := CollectAllGPUMetrics(tools);
    }
  }

  /**
   * Each field of a snapshot depends on its own probe only: changing the
   * disk outcome changes the disk record and nothing else.
   */
  lemma DiskProbeIsolated(m: SystemMetrics, m': SystemMetrics, now: int, env: Probes, disk: Result<UsageStat, string>)
    requires m.Reflects(now, env) && m'.Reflects(now, env.(disk := disk))
    ensures m'.Memory == m.Memory && m'.CPU == m.CPU && m'.GPUs == m.GPUs
    ensures m'.Disk == Some(DiskResult(disk))
  {
  }
}
