/**
 * The config subcommands (cmd/config): `set` changes one field of the
 * stored configuration, `show` prints it with the API key masked, and
 * `init` builds a new one from answers read line by line.
 *
 * The stored configuration arrives as a parameter (None when it could not be
 * loaded) and the command's outcome is the configuration it would save. The
 * API key check against the service is a parameter too: None when the service
 * accepts the key, otherwise the reason it gave.
 */
module ConfigCmd {
  import opened Common
  import opened Config

  // ---------------------------------------------------------------- config set

  /** The fields `config set` can change. */
  datatype Field = ApiKeyField | OutputField | UnitsField | ColorField | DateFormatField | TimeFormatField | BaseUrlField

  /** The key names, aliases included. */
  function FieldOf(key: string): Option<Field>
  {
    if key == "api-key" || key == "apikey" || key == "key" then Some(ApiKeyField)
    else if key == "default-output" || key == "output-format" || key == "output" then Some(OutputField)
    else if key == "units" then Some(UnitsField)
    else if key == "color" then Some(ColorField)
    else if key == "date-format" then Some(DateFormatField)
    else if key == "time-format" then Some(TimeFormatField)
    else if key == "base-url" || key == "baseurl" then Some(BaseUrlField)
    else None
  }

  /** The aliases name the same field. */
  lemma Aliases()
    ensures FieldOf("api-key") == FieldOf("apikey") == FieldOf("key") == Some(ApiKeyField)
    ensures FieldOf("default-output") == FieldOf("output-format") == FieldOf("output") == Some(OutputField)
    ensures FieldOf("base-url") == FieldOf("baseurl") == Some(BaseUrlField)
  {
  }

  function UnknownKeyError(key: string): string
  {
    "unknown configuration key: " + key + "\n\nAvailable keys: api-key, default-output, units, color, date-format, time-format"
  }

  predicate IsTruthy(v: string) { v == "true" || v == "1" || v == "yes" || v == "on" }

  /** Two configurations agree on every field except, possibly, `f`. */
  predicate SameExcept(a: Config, b: Config, f: Field)
  {
    (f == ApiKeyField || a.api.key == b.api.key) &&
    (f == BaseUrlField || a.api.baseUrl == b.api.baseUrl) &&
    (f == OutputField || a.display.outputFormat == b.display.outputFormat) &&
    (f == ColorField || a.display.color == b.display.color) &&
    (f == UnitsField || a.display.units == b.display.units) &&
    (f == DateFormatField || a.display.dateFormat == b.display.dateFormat) &&
    (f == TimeFormatField || a.display.timeFormat == b.display.timeFormat)
  }

  /**
   * What `config set key value` promises for a key already lowercased,
   * starting from `cfg`: an unknown key is an error; otherwise only the
   * named field may change. The API key is stored unless the service
   * refuses it; the output format and the units are lowercased and must be
   * one of the accepted values; color is on exactly for a truthy value; the
   * formats and the base URL are stored as given.
   */
  predicate SetOutcome(cfg: Config, key: string, value: string, validateKey: bool, authError: Option<string>, r: Result<Config>)
  {
    (FieldOf(key).None? ==> r == Err(UnknownKeyError(key))) &&
    (r.Ok? ==> FieldOf(key).Some? && SameExcept(cfg, r.value, FieldOf(key).value)) &&
    (FieldOf(key) == Some(ApiKeyField) ==>
      r == if validateKey && value != "" && authError.Some? then Err("invalid API key: " + authError.value)
           else Ok(cfg.(api := cfg.api.(key := value)))) &&
    (FieldOf(key) == Some(OutputField) ==>
      (r.Ok? <==> IsOutputFormat(Lower(value))) &&
      (r.Ok? ==> r.value.display.outputFormat == Lower(value)) &&
      (r.Err? ==> r.msg == OutputFormatError(Lower(value)))) &&
    (FieldOf(key) == Some(UnitsField) ==>
      (r.Ok? <==> IsUnits(Lower(value))) &&
      (r.Ok? ==> r.value.display.units == Lower(value)) &&
      (r.Err? ==> r.msg == UnitsError(Lower(value)))) &&
    (FieldOf(key) == Some(ColorField) ==> r.Ok? && (r.value.display.color <==> IsTruthy(Lower(value)))) &&
    (FieldOf(key) == Some(DateFormatField) ==> r == Ok(cfg.(display := cfg.display.(dateFormat := value)))) &&
    (FieldOf(key) == Some(TimeFormatField) ==> r == Ok(cfg.(display := cfg.display.(timeFormat := value)))) &&
    (FieldOf(key) == Some(BaseUrlField) ==> r == Ok(cfg.(api := cfg.api.(baseUrl := value))))
  }

  /**
   * The key switch of runSet on the loaded configuration (or the defaults
   * when none could be loaded), for a key already lowercased. The result is
   * the configuration to save, or the error that stops the command.
   */
  method ApplySetting(cfg: Config, key: string, value: string, validateKey: bool, authError: Option<string>) returns (r: Result<Config>)
    ensures SetOutcome(cfg, key, value, validateKey, authError, r)
    ensures Validate(cfg).None? && r.Ok? ==> Validate(r.value).None?
  {
    var c := cfg;
    var v := value;
    match FieldOf(key) {
      case None =>
        return Err(UnknownKeyError(key));
      case Some(ApiKeyField) =>
        if validateKey && v != "" && authError.Some? {
          return Err("invalid API key: " + authError.value);
        }
        c := c.(api := c.api.(key := v));
      case Some(OutputField) =>
        v := Lower(v);
        if v != "json" && v != "table" && v != "plain" {
          return Err(OutputFormatError(v));
        }
        c := c.(display := c.display.(outputFormat := v));
      case Some(UnitsField) =>
        v := Lower(v);
        if v != "metric" && v != "imperial" {
          return Err(UnitsError(v));
        }
        c := c.(display := c.display.(units := v));
      case Some(ColorField) =>
        v := Lower(v);
        c := c.(display := c.display.(color := v == "true" || v == "1" || v == "yes" || v == "on"));
      case Some(DateFormatField) =>
        c := c.(display := c.display.(dateFormat := v));
      case Some(TimeFormatField) =>
        c := c.(display := c.display.(timeFormat := v));
      case Some(BaseUrlField) =>
        c := c.(api := c.api.(baseUrl := v));
    }
    return Ok(c);
  }

  /** runSet with both arguments given: the key is lowercased, and a configuration that cannot be loaded is replaced by the defaults. */
  method RunSet(loaded: Option<Config>, keyArg: string, value: string, validateKey: bool, authError: Option<string>) returns (r: Result<Config>)
    ensures SetOutcome(if loaded.Some? then loaded.value else DefaultConfig(), Lower(keyArg), value, validateKey, authError, r)
    ensures loaded.None? && r.Ok? ==> Validate(r.value).None?
  {
    var key := Lower(keyArg);
    var cfg := if loaded.Some? then loaded.value else DefaultConfig();
    r := ApplySetting(cfg, key, value, validateKey, authError);
  }

  // ---------------------------------------------------------------- config show

  /** The key as `show` prints it: "***" and the last four characters, "****" for a short key, unchanged when empty or when secrets are shown. */
  function MaskedKey(key: string, showSecrets: bool): (m: string)
    ensures showSecrets || key == "" ==> m == key
    ensures !showSecrets && |key| > 4 ==> m == "***" + key[|key| - 4..]
    ensures !showSecrets && 1 <= |key| <= 4 ==> m == "****"
  {
    if showSecrets || key == "" then key
    else if |key| > 4 then "***" + key[|key| - 4..]
    else "****"
  }

  /** A masked key shows nothing but stars and, for a key longer than four characters, its last four. */
  lemma MaskRevealsAtMostFour(key: string)
    requires key != ""
    ensures var m := MaskedKey(key, false);
      |m| <= 7 && (forall i :: 0 <= i < |m| - 4 ==> m[i] == '*') &&
      (m[|m| - 4..] == "****" || m[|m| - 4..] == key[|key| - 4..])
  {
  }

  /** runShow: a copy of the configuration with only its key masked. */
  method ShowConfig(cfg: Config, showSecrets: bool) returns (shown: Config)
    ensures shown == cfg.(api := cfg.api.(key := MaskedKey(cfg.api.key, showSecrets)))
  {
    shown := cfg;
    if !showSecrets && shown.api.key != "" {
      var keyLen := |shown.api.key|;
      if keyLen > 4 {
        shown := shown.(api := shown.api.(key := "***" + shown.api.key[keyLen - 4..]));
      } else {
        shown := shown.(api := shown.api.(key := "****"));
      }
    }
  }

  // ---------------------------------------------------------------- config init

  datatype InitOutcome = Unchanged | Failed(msg: string) | Saved(cfg: Config)

  /** The answer normalisation: trimmed and lowercased. */
  function Answer(line: string): string
  {
    TrimSpace(Lower(line))
  }

  function InitUnits(line: string): string
  {
    if Answer(line) == "imperial" then "imperial" else "metric"
  }

  function InitOutput(line: string): string
  {
    if Answer(line) == "json" || Answer(line) == "plain" then Answer(line) else "table"
  }

  /** An existing configuration with a key is only replaced after a y or yes. */
  predicate KeepsExisting(existing: Option<Config>, overwriteLine: string)
  {
    existing.Some? && existing.value.api.key != "" && Answer(overwriteLine) != "y" && Answer(overwriteLine) != "yes"
  }

  /**
   * runInit on the answers it reads: whether to overwrite, the API key, the
   * units and the output format. The overwrite answer is only read when a
   * configuration with a key exists.
   */
  method RunInit(existing: Option<Config>, overwriteLine: string, keyLine: string, authError: Option<string>,
                 unitsLine: string, outputLine: string) returns (r: InitOutcome)
    ensures KeepsExisting(existing, overwriteLine) ==> r == Unchanged
    ensures !KeepsExisting(existing, overwriteLine) && TrimSpace(keyLine) == "" ==> r == Failed("API key is required")
    ensures !KeepsExisting(existing, overwriteLine) && TrimSpace(keyLine) != "" && authError.Some? ==>
      r == Failed("invalid API key: " + authError.value)
    ensures r.Saved? <==> !KeepsExisting(existing, overwriteLine) && TrimSpace(keyLine) != "" && authError.None?
    ensures r.Saved? ==> r.cfg == DefaultConfig().(
      api := DefaultConfig().api.(key := TrimSpace(keyLine)),
      display := DefaultConfig().display.(units := InitUnits(unitsLine), outputFormat := InitOutput(outputLine)))
    ensures r.Saved? ==> Validate(r.cfg).None? && r.cfg.api.key != ""
  {
    var cfg := DefaultConfig();
    if existing.Some? && existing.value.api.key != "" {
      var answer := TrimSpace(Lower(overwriteLine));
      if answer != "y" && answer != "yes" {
        return Unchanged;
      }
    }
    var apiKey := TrimSpace(keyLine);
    if apiKey == "" {
      return Failed("API key is required");
    }
    if authError.Some? {
      return Failed("invalid API key: " + authError.value);
    }
    cfg := cfg.(api := cfg.api.(key := apiKey));
    var units := TrimSpace(Lower(unitsLine));
    if units == "imperial" {
      cfg := cfg.(display := cfg.display.(units := "imperial"));
    } else {
      cfg := cfg.(display := cfg.display.(units := "metric"));
    }
    var outputFmt := TrimSpace(Lower(outputLine));
    if outputFmt == "json" || outputFmt == "plain" {
      cfg := cfg.(display := cfg.display.(outputFormat := outputFmt));
    } else {
      cfg := cfg.(display := cfg.display.(outputFormat := "table"));
    }
    return Saved(cfg);
  }

  /** An answer typed as "Imperial" with its line end normalises to imperial units. */
  lemma InitUnitsExample()
    ensures InitUnits("Imperial\n") == "imperial"
  {
    TrimLowerWord("Imperial", "\n");
    assert Lower("Imperial") == "imperial";
  }
}
