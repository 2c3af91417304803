/** The user configuration: sampling interval with its unit, and the temperature unit. */
module Config {

  /** TimeUnit is "seconds" or "minutes"; TemperatureUnit "celsius" or "fahrenheit". */
  datatype Config = Config(UpdateInterval: int, TimeUnit: string, TemperatureUnit: string)

  const Seconds := "seconds"
  const Minutes := "minutes"
  const Celsius := "celsius"
  const Fahrenheit := "fahrenheit"

  /** The configuration used when none is stored: every 5 seconds, in Celsius. */
  function Default(): (c: Config)
    ensures GetUpdateIntervalSeconds(c) == 5
    ensures c.TimeUnit == Seconds && c.TemperatureUnit == Celsius
  {
    Config(5, Seconds, Celsius)
  }

  /**
   * The sampling period in seconds: minutes are scaled by 60, any other unit
   * string is read as seconds. Nothing is clamped: the sign of the interval
   * is kept.
   */
  function GetUpdateIntervalSeconds(c: Config): (r: int)
    ensures c.TimeUnit == Minutes ==> r == 60 * c.UpdateInterval
    ensures c.TimeUnit != Minutes ==> r == c.UpdateInterval
    ensures (r > 0 <==> c.UpdateInterval > 0) && (r == 0 <==> c.UpdateInterval == 0)
  {
    if c.TimeUnit == Minutes then c.UpdateInterval * 60 else c.UpdateInterval
  }
}
