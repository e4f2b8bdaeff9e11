/**
 * Argument checks (internal/cmdutil/args.go, cmd/completion/completion.go).
 * Whether standard input is a terminal is a parameter; an error is the
 * message it carries, and None means the arguments are accepted.
 */
module CmdUtil {
  import opened Common

  /**
   * RequireArgs(n, names): too few arguments are accepted when interactive,
   * so that the command can ask for them, and are an error otherwise; more
   * than n are always an error.
   */
  function RequireArgs(n: int, argNames: string, argCount: nat, interactive: bool): (err: Option<string>)
    ensures err.None? <==> argCount == n || (argCount < n && interactive)
    ensures argCount < n && !interactive ==>
      err == Some(if n == 1 then "missing required argument: " + argNames else "missing required arguments: " + argNames)
    ensures argCount > n ==> err == Some("too many arguments provided")
  {
    if argCount < n then
      if interactive then None
      else if n == 1 then Some("missing required argument: " + argNames)
      else Some("missing required arguments: " + argNames)
    else if argCount > n then Some("too many arguments provided")
    else None
  }

  /** NeedsMissingArg: the command must prompt for what is missing. */
  function NeedsMissingArg(argCount: nat, required: int, interactive: bool): bool
  {
    argCount < required && interactive
  }

  /** A command that has to prompt is one whose arguments RequireArgs let through although some are missing. */
  lemma PromptExactlyWhenLetThrough(n: int, argNames: string, argCount: nat, interactive: bool)
    ensures NeedsMissingArg(argCount, n, interactive) <==> RequireArgs(n, argNames, argCount, interactive).None? && argCount != n
  {
  }

  // ---------------------------------------------------------------- completion

  const Shells: seq<string> := ["bash", "zsh", "fish", "powershell"]

  /** The membership loop over the four shells. */
  method IsShell(arg: string) returns (found: bool)
    ensures found <==> arg in Shells
  {
    var i := 0;
    while i < |Shells|
      invariant 0 <= i <= |Shells|
      invariant arg !in Shells[..i]
    {
      if arg == Shells[i] {
        return true;
      }
      i := i + 1;
    }
    return false;
  }

  /** The Args check of `completion`: no shell only when interactive, at most one, and one of the four. */
  method CompletionArgs(args: seq<string>, interactive: bool) returns (err: Option<string>)
    ensures err.None? <==> (|args| == 0 && interactive) || (|args| == 1 && args[0] in Shells)
    ensures |args| == 0 && !interactive ==>
      err == Some("please specify a shell: bash, zsh, fish, or powershell\n\nExample: hevycli completion bash")
    ensures |args| > 1 ==> err == Some("only one shell can be specified at a time")
  {
    if |args| == 0 {
      if interactive {
        return None;
      }
      return Some("please specify a shell: bash, zsh, fish, or powershell\n\nExample: hevycli completion bash");
    }
    if |args| > 1 {
      return Some("only one shell can be specified at a time");
    }
    var ok := IsShell(args[0]);
    if ok {
      return None;
    }
    return Some("unknown shell \"" + args[0] + "\"\n\nSupported shells: bash, zsh, fish, powershell");
  }

  /** The completion script generators. */
  datatype Generator = BashScript | ZshScript | FishScript | PowerShellScript

  /** runCompletion's switch: one generator per shell, none for any other name. */
  function GeneratorFor(shell: string): (g: Option<Generator>)
    ensures g.Some? <==> shell in Shells
  {
    if shell == "bash" then Some(BashScript)
    else if shell == "zsh" then Some(ZshScript)
    else if shell == "fish" then Some(FishScript)
    else if shell == "powershell" then Some(PowerShellScript)
    else None
  }

  /** The four shells get four different generators. */
  lemma GeneratorsDistinct()
    ensures forall i, j :: 0 <= i < j < |Shells| ==> GeneratorFor(Shells[i]) != GeneratorFor(Shells[j])
  {
  }
}
