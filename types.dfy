/**
 * The metric records shared by the collectors and the tray display. As in
 * the Go records, an empty Error string means "no error"; byte counts are
 * naturals (uint64 without its upper bound) and percentages and degrees are
 * reals (float64 without rounding).
 */
module Types {

  datatype DiskMetrics = DiskMetrics(Total: nat, Used: nat, UsedPercent: real, Error: string)

  datatype MemoryMetrics = MemoryMetrics(Total: nat, Used: nat, UsedPercent: real, Error: string)

  datatype CPUMetrics = CPUMetrics(UsagePercent: real, Temperature: real, Error: string)

  /** Type is the vendor tag: "nvidia", "amd" or "integrated". */
  datatype GPUMetrics = GPUMetrics(Name: string, Type: string, UsagePercent: real, Temperature: real, Error: string)

  const NvidiaType := "nvidia"
  const AmdType := "amd"
  const IntegratedType := "integrated"

  /** The tags the collectors produce. */
  predicate KnownGpuType(t: string) {
    t == NvidiaType || t == AmdType || t == IntegratedType
  }

  /** Position of a vendor tag in the aggregation order: NVIDIA, AMD, integrated. */
  function VendorRank(t: string): nat {
    if t == NvidiaType then 0 else if t == AmdType then 1 else 2
  }
}
