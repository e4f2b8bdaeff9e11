/**
 * Start-up of every command (cmd/root.go, initializeApp): the
 * configuration is loaded (or the defaults used), the --output and
 * --no-color flags and the NO_COLOR variables are applied, and the formatter
 * is built from the result.
 *
 * The package's globals are the fields of `App`; the flag values are
 * the fields' starting values, as in the source, where the flags are bound to
 * those globals. The loaded configuration and the two environment values are
 * parameters.
 */
module Root {
  import opened Common
  import opened Config
  import opened Output

  /** The configuration after the flags and the environment, from the loaded one (or the defaults). */
  function EffectiveConfig(loaded: Option<Config>, outputChanged: bool, outputFlag: string,
                           noColorChanged: bool, noColorFlag: bool, hevyNoColor: string, noColorEnv: string): Config
  {
    var base := if loaded.Some? then loaded.value else DefaultConfig();
    var c1 := if outputChanged then base.(display := base.display.(outputFormat := outputFlag)) else base;
    var c2 := if noColorChanged then c1.(display := c1.display.(color := !noColorFlag)) else c1;
    if hevyNoColor != "" || noColorEnv != "" then c2.(display := c2.display.(color := false)) else c2
  }

  /**
   * Precedence: an explicit --output wins over the configured format; an
   * explicit --no-color sets the colour; a non-empty HEVYCLI_NO_COLOR or
   * NO_COLOR turns colour off whatever the flag says; a configuration that
   * cannot be loaded is replaced by the defaults; nothing else changes.
   */
  lemma EffectiveConfigPrecedence(loaded: Option<Config>, outputChanged: bool, outputFlag: string,
                                  noColorChanged: bool, noColorFlag: bool, hevyNoColor: string, noColorEnv: string)
    ensures var base := if loaded.Some? then loaded.value else DefaultConfig();
      var c := EffectiveConfig(loaded, outputChanged, outputFlag, noColorChanged, noColorFlag, hevyNoColor, noColorEnv);
      c.display.outputFormat == (if outputChanged then outputFlag else base.display.outputFormat) &&
      (hevyNoColor != "" || noColorEnv != "" ==> !c.display.color) &&
      (hevyNoColor == "" && noColorEnv == "" ==> c.display.color == (if noColorChanged then !noColorFlag else base.display.color)) &&
      c.api == base.api && c.display.units == base.display.units &&
      c.display.dateFormat == base.display.dateFormat && c.display.timeFormat == base.display.timeFormat
  {
  }

  /** `hevycli config init` skips start-up. */
  predicate IsConfigInit(name: string, parent: Option<string>)
  {
    name == "init" && parent == Some("config")
  }

  class App {
    var cfg: Option<Config>
    var outputFmt: string
    var noColor: bool
    var formatter: Option<Formatter>

    /** The globals before start-up: the parsed flag values, no configuration and no formatter. */
    constructor (outputFlag: string, noColorFlag: bool)
      ensures cfg.None? && formatter.None? && outputFmt == outputFlag && noColor == noColorFlag
    {
      cfg := None;
      outputFmt := outputFlag;
      noColor := noColorFlag;
      formatter := None;
    }

    method InitializeApp(name: string, parent: Option<string>, loaded: Option<Config>,
                         outputChanged: bool, noColorChanged: bool, quiet: bool, verbose: bool,
                         hevyNoColor: string, noColorEnv: string)
      modifies this
      ensures IsConfigInit(name, parent) ==> cfg == old(cfg) && outputFmt == old(outputFmt) && noColor == old(noColor) && formatter == old(formatter)
      ensures !IsConfigInit(name, parent) ==>
        var c := EffectiveConfig(loaded, outputChanged, old(outputFmt), noColorChanged, old(noColor), hevyNoColor, noColorEnv);
        cfg == Some(c) &&
        outputFmt == (if !outputChanged && old(outputFmt) == "" then c.display.outputFormat else old(outputFmt)) &&
        noColor == (old(noColor) || hevyNoColor != "" || noColorEnv != "") &&
        formatter == Some(NewFormatter(Options(c.display.outputFormat, !c.display.color, quiet, verbose, Some(Stdout))))
    {
      if IsConfigInit(name, parent) {
        return;
      }
      var c: Config;
      if loaded.Some? {
        c := loaded.value;
      } else {
        c := DefaultConfig();
      }
      if outputChanged {
        c := c.(display := c.display.(outputFormat := outputFmt));
      } else if outputFmt == "" {
        outputFmt := c.display.outputFormat;
      }
      if noColorChanged {
        c := c.(display := c.display.(color := !noColor));
      }
      if hevyNoColor != "" {
        c := c.(display := c.display.(color := false));
        noColor := true;
      }
      if noColorEnv != "" {
        c := c.(display := c.display.(color := false));
        noColor := true;
      }
      cfg := Some(c);
      formatter := Some(NewFormatter(Options(c.display.outputFormat, !c.display.color, quiet, verbose, Some(Stdout))));
    }
  }

  /** An unknown --output value reaches the formatter as it is, which makes it a table formatter. */
  lemma UnknownOutputGivesTable(loaded: Option<Config>, quiet: bool, verbose: bool)
    ensures var c := EffectiveConfig(loaded, true, "xml", false, false, "", "");
      NewFormatter(Options(c.display.outputFormat, !c.display.color, quiet, verbose, Some(Stdout))).kind == TableKind
  {
  }
}
