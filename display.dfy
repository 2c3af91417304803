/**
 * The tray menu's logic (pkg/display/display.go): which text and icon each
 * metric record shows, the short GPU labels, and the two configuration
 * controls — the interval button, which steps (interval, unit) through a
 * fixed cycle, and the temperature-unit toggle.
 */
module Display {
  import opened Wrappers
  import opened Text
  import opened Types
  import opened Config
  import opened Gpu
  import opened Monitor

  // ---------------------------------------------------------------------
  // Menu items
  // ---------------------------------------------------------------------

  /**
   * The text of a menu item: a fixed "n/a" text, or a reading whose numbers
   * the menu prints with one decimal (the printing is not modelled).
   */
  datatype MenuText =
    | NotAvailable(text: string)
    | Capacity(title: string, totalGB: real, percent: real)
    | Usage(title: string, percent: real)
    | UsageAndTemperature(title: string, percent: real, temperature: real)

  datatype MenuItem = MenuItem(text: MenuText, icon: string)

  const ErrorIcon := "error-icon.png"
  const DriveIcon := "drive-icon.png"
  const CpuIcon := "cpu-icon.png"
  const GpuIcon := "gpu-icon.png"

  /** Bytes per gigabyte in the menu's figures. */
  const GiB: real := 1073741824.0

  /** createDiskMenuItem. */
  function DiskItem(disk: DiskMetrics): (item: MenuItem)
    ensures item.text.NotAvailable? <==> disk.Error != ""
    ensures (item.icon == ErrorIcon) <==> disk.Error != ""
    ensures item.text.Capacity? ==> item.text.percent == disk.UsedPercent
    ensures disk.Error == "" ==> item.text == Capacity("HDD", disk.Total as real / GiB, disk.UsedPercent)
  {
    if disk.Error != "" then MenuItem(NotAvailable("HDD: n/a"), ErrorIcon)
    else MenuItem(Capacity("HDD", disk.Total as real / GiB, disk.UsedPercent), DriveIcon)
  }

  /** createMemoryMenuItem (memory reuses the drive icon). */
  function MemoryItem(memory: MemoryMetrics): (item: MenuItem)
    ensures item.text.NotAvailable? <==> memory.Error != ""
    ensures (item.icon == ErrorIcon) <==> memory.Error != ""
    ensures item.text.Capacity? ==> item.text.percent == memory.UsedPercent
    ensures memory.Error == "" ==> item.text == Capacity("RAM", memory.Total as real / GiB, memory.UsedPercent)
  {
    if memory.Error != "" then MenuItem(NotAvailable("RAM: n/a"), ErrorIcon)
    else MenuItem(Capacity("RAM", memory.Total as real / GiB, memory.UsedPercent), DriveIcon)
  }

  /** createCPUMenuItem: the temperature is shown only when it is above 0. */
  function CpuItem(cpu: CPUMetrics): (item: MenuItem)
    ensures item.text.NotAvailable? <==> cpu.Error != ""
    ensures (item.icon == ErrorIcon) <==> cpu.Error != ""
    ensures item.text.UsageAndTemperature? <==> cpu.Error == "" && cpu.Temperature > 0.0
    ensures cpu.Error == "" && cpu.Temperature > 0.0 ==> item.text == UsageAndTemperature("CPU", cpu.UsagePercent, cpu.Temperature)
    ensures cpu.Error == "" && cpu.Temperature <= 0.0 ==> item.text == Usage("CPU", cpu.UsagePercent)
  {
    if cpu.Error != "" then MenuItem(NotAvailable("CPU: n/a"), ErrorIcon)
    else if cpu.Temperature > 0.0 then MenuItem(UsageAndTemperature("CPU", cpu.UsagePercent, cpu.Temperature), CpuIcon)
    else MenuItem(Usage("CPU", cpu.UsagePercent), CpuIcon)
  }

  /** getSimplifiedGPULabel: a vendor prefix and the entry's position in the list. */
  function GpuLabel(gpuType: string, index: nat): (l: string)
    ensures gpuType == NvidiaType ==> l == "NVIDIA GPU " + NatToString(index)
    ensures gpuType == AmdType ==> l == "AMD GPU " + NatToString(index)
    ensures gpuType == IntegratedType ==> l == "iGPU " + NatToString(index)
    ensures !KnownGpuType(gpuType) ==> l == "GPU " + NatToString(index)
    ensures |l| > |NatToString(index)|
    ensures l[|l| - |NatToString(index)|..] == NatToString(index)
  {
    var prefix :=
      if gpuType == NvidiaType then "NVIDIA GPU "
      else if gpuType == AmdType then "AMD GPU "
      else if gpuType == IntegratedType then "iGPU "
      else "GPU ";
    prefix + NatToString(index)
  }

  /** createGPUMenuItem. */
  function GpuItem(gpu: GPUMetrics, index: nat): (item: MenuItem)
    ensures item.text.NotAvailable? <==> gpu.Error != ""
    ensures (item.icon == ErrorIcon) <==> gpu.Error != ""
    ensures item.text.UsageAndTemperature? <==> gpu.Error == "" && gpu.Temperature > 0.0
    ensures gpu.Error == "" && gpu.Temperature > 0.0 ==>
      item.text == UsageAndTemperature(GpuLabel(gpu.Type, index), gpu.UsagePercent, gpu.Temperature)
    ensures gpu.Error == "" && gpu.Temperature <= 0.0 ==> item.text == Usage(GpuLabel(gpu.Type, index), gpu.UsagePercent)
  {
    var gpuLabel := GpuLabel(gpu.Type, index);
    if gpu.Error != "" then MenuItem(NotAvailable(gpuLabel + ": n/a"), ErrorIcon)
    else if gpu.Temperature > 0.0 then MenuItem(UsageAndTemperature(gpuLabel, gpu.UsagePercent, gpu.Temperature), GpuIcon)
    else MenuItem(Usage(gpuLabel, gpu.UsagePercent), GpuIcon)
  }

  /**
   * A record with an error always shows its fixed "n/a" text with the error
   * icon, whatever its figures hold; one without shows a reading.
   */
  lemma ErrorShowsNotAvailable(disk: DiskMetrics, memory: MemoryMetrics, cpu: CPUMetrics, gpu: GPUMetrics, index: nat)
    ensures DiskItem(disk).text.NotAvailable? <==> disk.Error != ""
    ensures disk.Error != "" ==> DiskItem(disk) == MenuItem(NotAvailable("HDD: n/a"), ErrorIcon)
    ensures MemoryItem(memory).text.NotAvailable? <==> memory.Error != ""
    ensures memory.Error != "" ==> MemoryItem(memory) == MenuItem(NotAvailable("RAM: n/a"), ErrorIcon)
    ensures CpuItem(cpu).text.NotAvailable? <==> cpu.Error != ""
    ensures cpu.Error != "" ==> CpuItem(cpu) == MenuItem(NotAvailable("CPU: n/a"), ErrorIcon)
    ensures GpuItem(gpu, index).text.NotAvailable? <==> gpu.Error != ""
    ensures gpu.Error != "" ==> GpuItem(gpu, index) == MenuItem(NotAvailable(GpuLabel(gpu.Type, index) + ": n/a"), ErrorIcon)
    ensures (GpuItem(gpu, index).icon == ErrorIcon) <==> gpu.Error != ""
  {
  }

  /** The CPU item shows a temperature exactly when there is no error and the temperature is above 0. */
  lemma CpuItemShowsTemperature(cpu: CPUMetrics)
    ensures CpuItem(cpu).text.UsageAndTemperature? <==> cpu.Error == "" && cpu.Temperature > 0.0
    ensures CpuItem(cpu).text.UsageAndTemperature? ==> CpuItem(cpu).text.temperature == cpu.Temperature
  {
  }

  /** A failed disk or memory probe with a message shows "n/a". */
  lemma FailedProbeShowsNotAvailable(e: string)
    requires e != ""
    ensures DiskItem(DiskResult(Failure(e))).text == NotAvailable("HDD: n/a")
    ensures MemoryItem(MemoryResult(Failure(e))).text == NotAvailable("RAM: n/a")
  {
  }

  /** The placeholder integrated GPU always shows "iGPU i: n/a". */
  lemma IntegratedAlwaysNotAvailable(run: ToolRun, index: nat)
    requires CollectIntegratedGPU(run).Some?
    ensures GpuItem(CollectIntegratedGPU(run).value, index).text == NotAvailable("iGPU " + NatToString(index) + ": n/a")
  {
  }

  /** Two entries of the same vendor at different positions get different labels. */
  lemma GpuLabelDistinct(gpuType: string, i: nat, j: nat)
    requires GpuLabel(gpuType, i) == GpuLabel(gpuType, j)
    ensures i == j
  {
    var a, b := GpuLabel(gpuType, i), GpuLabel(gpuType, j);
    var k := |a| - |NatToString(i)|;
    assert a[k..] == NatToString(i);
    assert b[|b| - |NatToString(j)|..] == NatToString(j);
    assert |a| - |NatToString(j)| == k;
    NatToStringInjective(i, j);
  }

  /** The NVIDIA label of entry 0 is "NVIDIA GPU 0". */
  lemma GpuLabelExample()
    ensures GpuLabel(NvidiaType, 0) == "NVIDIA GPU 0"
  {
    assert NatToString(0) == "0";
  }

  // ---------------------------------------------------------------------
  // The interval button
  // ---------------------------------------------------------------------

  /**
   * One press of the interval button: in seconds, add 5 below 60 and switch
   * to 1 minute from 60 on; in any other unit, add 5 below 30 and switch back
   * to 5 seconds from 30 on. The temperature unit is untouched.
   */
  function StepInterval(c: Config): (r: Config)
    ensures r.TemperatureUnit == c.TemperatureUnit
    ensures c.TimeUnit == Seconds ==> (r.TimeUnit == Seconds <==> c.UpdateInterval < 60)
    ensures c.TimeUnit != Seconds ==> (r.TimeUnit == c.TimeUnit <==> c.UpdateInterval < 30)
    ensures c.TimeUnit == Seconds && c.UpdateInterval >= 60 ==> r == c.(UpdateInterval := 1, TimeUnit := Minutes)
    ensures c.TimeUnit != Seconds && c.UpdateInterval >= 30 ==> r == c.(UpdateInterval := 5, TimeUnit := Seconds)
    ensures r.TimeUnit == c.TimeUnit ==> r.UpdateInterval == c.UpdateInterval + 5
    ensures r.TimeUnit != c.TimeUnit ==>
      (r.TimeUnit == Minutes && r.UpdateInterval == 1) || (r.TimeUnit == Seconds && r.UpdateInterval == 5)
  {
    if c.TimeUnit == Seconds then
      if c.UpdateInterval >= 60 then c.(UpdateInterval := 1, TimeUnit := Minutes)
      else c.(UpdateInterval := c.UpdateInterval + 5)
    else
      if c.UpdateInterval >= 30 then c.(UpdateInterval := 5, TimeUnit := Seconds)
      else c.(UpdateInterval := c.UpdateInterval + 5)
  }

  /** A positive interval stays positive, in the unit and in seconds, and the temperature unit is kept. */
  lemma StepIntervalPositive(c: Config)
    requires c.UpdateInterval > 0
    ensures StepInterval(c).UpdateInterval > 0
    ensures GetUpdateIntervalSeconds(StepInterval(c)) > 0
    ensures StepInterval(c).TemperatureUnit == c.TemperatureUnit
  {
  }

  /** `n` presses in a row. */
  function StepN(c: Config, n: nat): Config
    decreases n
  {
    if n == 0 then c else StepN(StepInterval(c), n - 1)
  }

  /**
   * The k-th state of the cycle that starts at 5 seconds: 5, 10, ..., 60
   * seconds (k < 12), then 1, 6, ..., 31 minutes (12 <= k < 19).
   */
  function Orbit(k: nat, temperatureUnit: string): (c: Config)
    requires k < 19
  {
    if k < 12 then Config(5 * (k + 1), Seconds, temperatureUnit)
    else Config(1 + 5 * (k - 12), Minutes, temperatureUnit)
  }

  /** Each press moves one place along the cycle, and the 19th press closes it. */
  lemma OrbitStep(k: nat, temperatureUnit: string)
    requires k < 19
    ensures StepInterval(Orbit(k, temperatureUnit)) == Orbit((k + 1) % 19, temperatureUnit)
  {
  }

  /** After `n` presses from the k-th state the configuration is the (k + n) mod 19-th. */
  lemma {:induction false} OrbitStepN(k: nat, n: nat, temperatureUnit: string)
    requires k < 19
    ensures StepN(Orbit(k, temperatureUnit), n) == Orbit((k + n) % 19, temperatureUnit)
    decreases n
  {
    if n > 0 {
      OrbitStep(k, temperatureUnit);
      OrbitStepN((k + 1) % 19, n - 1, temperatureUnit);
      assert ((k + 1) % 19 + (n - 1)) % 19 == (k + n) % 19;
    }
  }

  /** The states of the cycle are pairwise different. */
  lemma OrbitDistinct(i: nat, j: nat, temperatureUnit: string)
    requires i < 19 && j < 19 && Orbit(i, temperatureUnit) == Orbit(j, temperatureUnit)
    ensures i == j
  {
  }

  /**
   * From the default configuration the presses cycle with period exactly 19:
   * n presses bring it back exactly when n is a multiple of 19.
   */
  lemma DefaultCyclePeriod(n: nat)
    ensures StepN(Default(), n) == Default() <==> n % 19 == 0
  {
    assert Default() == Orbit(0, Celsius);
    OrbitStepN(0, n, Celsius);
    if StepN(Default(), n) == Default() {
      OrbitDistinct(n % 19, 0, Celsius);
    }
  }

  /** Along the cycle from the default, the period stays between 5 seconds and 31 minutes. */
  lemma DefaultCycleBounds(n: nat)
    ensures 5 <= GetUpdateIntervalSeconds(StepN(Default(), n)) <= 1860
  {
    assert Default() == Orbit(0, Celsius);
    OrbitStepN(0, n, Celsius);
  }

  // ---------------------------------------------------------------------
  // The temperature-unit toggle
  // ---------------------------------------------------------------------

  /** toggleTemperatureUnit on the configuration: celsius becomes fahrenheit, anything else celsius. */
  function ToggledUnit(c: Config): (r: Config)
    ensures r.TemperatureUnit == Celsius || r.TemperatureUnit == Fahrenheit
    ensures r.TemperatureUnit != c.TemperatureUnit
    ensures c.TemperatureUnit != Celsius ==> r.TemperatureUnit == Celsius
    ensures r.UpdateInterval == c.UpdateInterval && r.TimeUnit == c.TimeUnit
  {
    c.(TemperatureUnit := if c.TemperatureUnit == Celsius then Fahrenheit else Celsius)
  }

  /** Toggling twice restores a known unit. */
  lemma ToggleTwice(c: Config)
    ensures (c.TemperatureUnit == Celsius || c.TemperatureUnit == Fahrenheit) ==> ToggledUnit(ToggledUnit(c)) == c
  {
  }

  // ---------------------------------------------------------------------
  // The display and its configuration
  // ---------------------------------------------------------------------

  /** The tray display's configuration, which its two controls update in place. */
  class Display {
    var config: Config

    constructor (cfg: Config)
      ensures config == cfg
    {
      config := cfg;
    }

    /** showIntervalDialog: update the interval and unit one field at a time. */
    method ShowIntervalDialog()
      modifies this
      ensures config == StepInterval(old(config))
    {
      if config.TimeUnit == Seconds {
        if config.UpdateInterval >= 60 {
          config := config.(UpdateInterval := 1);
          config := config.(TimeUnit := Minutes);
        } else {
          config := config.(UpdateInterval := config.UpdateInterval + 5);
        }
      } else {
        if config.UpdateInterval >= 30 {
          config := config.(UpdateInterval := 5);
          config := config.(TimeUnit := Seconds);
        } else {
          config := config.(UpdateInterval := config.UpdateInterval + 5);
        }
      }
    }

    /** toggleTemperatureUnit. */
    method ToggleTemperatureUnit()
      modifies this
      ensures config == ToggledUnit(old(config))
    {
      if config.TemperatureUnit == Celsius {
        config := config.(TemperatureUnit := Fahrenheit);
      } else {
        config := config.(TemperatureUnit := Celsius);
      }
    }
  }
}
