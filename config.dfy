/**
 * The configuration record (internal/config/config.go): API settings and
 * display settings, their defaults, validation, and where the API key comes
 * from. Reading and writing the file are not part of this model; the
 * HEVYCLI_API_KEY environment value is a parameter.
 */
module Config {
  import opened Common

  datatype ApiConfig = ApiConfig(key: string, baseUrl: string)

  datatype DisplayConfig = DisplayConfig(outputFormat: string, color: bool, units: string, dateFormat: string, timeFormat: string)

  datatype Config = Config(api: ApiConfig, display: DisplayConfig)

  const DefaultBaseUrl: string := "https://api.hevyapp.com/v1"

  /** DefaultConfig: no key, the public API, table output in colour, metric units, ISO dates and 24-hour times. */
  function DefaultConfig(): Config
  {
    Config(ApiConfig("", DefaultBaseUrl), DisplayConfig("table", true, "metric", "2006-01-02", "15:04"))
  }

  predicate IsOutputFormat(f: string) { f == "json" || f == "table" || f == "plain" }

  predicate IsUnits(u: string) { u == "metric" || u == "imperial" }

  function OutputFormatError(f: string): string
  {
    "invalid output format: " + f + " (must be json, table, or plain)"
  }

  function UnitsError(u: string): string
  {
    "invalid units: " + u + " (must be metric or imperial)"
  }

  /** Validate: None for a valid configuration, otherwise the first problem, the output format before the units. */
  function Validate(c: Config): (err: Option<string>)
    ensures err.None? <==> IsOutputFormat(c.display.outputFormat) && IsUnits(c.display.units)
    ensures !IsOutputFormat(c.display.outputFormat) ==> err == Some(OutputFormatError(c.display.outputFormat))
    ensures IsOutputFormat(c.display.outputFormat) && !IsUnits(c.display.units) ==> err == Some(UnitsError(c.display.units))
  {
    if !IsOutputFormat(c.display.outputFormat) then Some(OutputFormatError(c.display.outputFormat))
    else if !IsUnits(c.display.units) then Some(UnitsError(c.display.units))
    else None
  }

  /** The configuration tests: the defaults, which validate, and the two rejected configurations. */
  lemma ConfigFixtures()
    ensures var d := DefaultConfig();
      d.api.baseUrl == "https://api.hevyapp.com/v1" && d.api.key == "" &&
      d.display.outputFormat == "table" && d.display.units == "metric" && d.display.color &&
      d.display.dateFormat == "2006-01-02" && d.display.timeFormat == "15:04" &&
      Validate(d).None?
    ensures Validate(Config(ApiConfig("", ""), DisplayConfig("xml", false, "metric", "", ""))) == Some(OutputFormatError("xml"))
    ensures Validate(Config(ApiConfig("", ""), DisplayConfig("table", false, "stones", "", ""))) == Some(UnitsError("stones"))
  {
  }

  /** GetAPIKey: a non-empty environment key wins over the configured one. */
  function GetAPIKey(c: Config, envKey: string): (key: string)
    ensures envKey != "" ==> key == envKey
    ensures envKey == "" ==> key == c.api.key
  {
    if envKey != "" then envKey else c.api.key
  }
}
