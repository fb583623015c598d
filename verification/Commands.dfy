/**
  Building the shell invocation (`BuildStartInfo`): the chaining token from
  `Options.GetProcessingSymbol`, the argument string, and the merge of the
  option's environment variables into the child's environment.
 */
module Commands {
  import opened Wrappers
  import opened Host
  import Paths

  /**
    `ProcessingSymbolsType`. A C# enum can hold any integer; a value outside
    the three named ones is `Undefined` and takes the switch's default arm.
   */
  datatype ProcessingSymbolsType =
    | OnlyWhenPreCmdSuccess
    | OnlyWhenPreCmdFailure
    | AlwaysExec
    | Undefined(code: int)

  /** A text codec, identified by its code page; never interpreted here. */
  datatype Encoding = Encoding(codePage: int)

  /** `Options`; the nullable fields are `Option`s. */
  datatype Options = Options(
    encoding: Encoding,
    workDirectory: Option<string>,
    environmentVars: Option<map<string, string>>,
    processingSymbolsType: ProcessingSymbolsType)

  /** `new Options()`: the OEM code page of the current culture, "./", no variables, `&&`. */
  function DefaultOptions(oemEncoding: Encoding): Options
  {
    Options(oemEncoding, Some("./"), Some(map[]), OnlyWhenPreCmdSuccess)
  }

  /**
    The list operators the shell offers for chaining: AND-OR lists (`&&`,
    `||`) and sequential lists (`;`) of the POSIX Shell Command Language,
    section 2.9.3; `cmd.exe` writes the unconditional one as `&`.
   */
  function ListOperators(platform: Platform): set<string>
  {
    match platform
    case Windows => {"&&", "||", "&"}
    case Posix => {"&&", "||", ";"}
  }

  /** `Options.GetProcessingSymbol`: the token placed between consecutive commands. */
  function GetProcessingSymbol(policy: ProcessingSymbolsType, platform: Platform): (r: string)
    ensures r in ListOperators(platform)
    ensures r == "&&" <==> policy.OnlyWhenPreCmdSuccess? || policy.Undefined?
    ensures r == "||" <==> policy.OnlyWhenPreCmdFailure?
    ensures policy.AlwaysExec? <==> r == (if platform == Windows then "&" else ";")
  {
    match policy
    case OnlyWhenPreCmdSuccess => "&&"
    case OnlyWhenPreCmdFailure => "||"
    case AlwaysExec => if platform == Windows then "&" else ";"
    case Undefined(_) => "&&"
  }

  /** Reads a chaining token back as the named policy it stands for. */
  function PolicyOf(symbol: string, platform: Platform): Option<ProcessingSymbolsType>
  {
    if symbol == "&&" then Some(OnlyWhenPreCmdSuccess)
    else if symbol == "||" then Some(OnlyWhenPreCmdFailure)
    else if symbol == (if platform == Windows then "&" else ";") then Some(AlwaysExec)
    else None
  }

  /**
    The token determines the named policy: reading it back gives the policy,
    and an out-of-range value reads back as the default policy.
   */
  lemma PolicyOfSymbol(policy: ProcessingSymbolsType, platform: Platform)
    ensures policy.Undefined? ==> PolicyOf(GetProcessingSymbol(policy, platform), platform) == Some(OnlyWhenPreCmdSuccess)
    ensures !policy.Undefined? ==> PolicyOf(GetProcessingSymbol(policy, platform), platform) == Some(policy)
  {
  }

  /** The text that opens the quoted command list, after the shell flag. */
  const OpenQuote: string := " \""
  /** The text that closes it: a space, then the quote. */
  const CloseQuote: string := " \""

  /** `flag + " \"" + string.Join(symbol, cmds) + " \""`, the final `start.Arguments`. */
  function ArgumentString(platform: Platform, symbol: string, cmds: seq<string>): string
  {
    ShellFlag(platform) + OpenQuote + Paths.Join(symbol, cmds) + CloseQuote
  }

  /** The quoted command list of an argument string, when it has the expected frame. */
  function Payload(platform: Platform, arg: string): Option<string>
  {
    var head := ShellFlag(platform) + OpenQuote;
    if |arg| >= |head| + |CloseQuote| && arg[..|head|] == head && arg[|arg| - |CloseQuote|..] == CloseQuote
    then Some(arg[|head|..|arg| - |CloseQuote|])
    else None
  }

  /**
    The argument string is the shell flag, ` "`, the N commands with exactly
    N-1 copies of the chaining token between them, and ` "`.
   */
  lemma ArgumentStringShape(platform: Platform, symbol: string, cmds: seq<string>)
    ensures Payload(platform, ArgumentString(platform, symbol, cmds)) == Some(Paths.Join(symbol, cmds))
    ensures |cmds| == 0 ==> ArgumentString(platform, symbol, cmds) == ShellFlag(platform) + " \" \""
    ensures |cmds| >= 1 ==>
      |ArgumentString(platform, symbol, cmds)|
        == |ShellFlag(platform)| + 4 + Paths.TotalLength(cmds) + (|cmds| - 1) * |symbol|
  {
    var arg := ArgumentString(platform, symbol, cmds);
    var head := ShellFlag(platform) + OpenQuote;
    assert arg == head + Paths.Join(symbol, cmds) + CloseQuote;
    assert arg[..|head|] == head;
    assert arg[|arg| - |CloseQuote|..] == CloseQuote;
    assert arg[|head|..|arg| - |CloseQuote|] == Paths.Join(symbol, cmds);
    if |cmds| >= 1 {
      Paths.JoinLength(symbol, cmds);
    }
  }

  /**
    With a one-character token (the unconditional chaining of either shell)
    and commands that do not contain it, splitting the quoted list on the
    token gives back exactly the commands.
   */
  lemma AlwaysExecRoundTrip(platform: Platform, cmds: seq<string>)
    requires |cmds| >= 1
    requires Paths.FreeOf(cmds, if platform == Windows then '&' else ';')
    ensures var sep := if platform == Windows then '&' else ';';
      Paths.Split(Payload(platform, ArgumentString(platform, GetProcessingSymbol(AlwaysExec, platform), cmds)).value, sep) == cmds
  {
    var sep := if platform == Windows then '&' else ';';
    assert GetProcessingSymbol(AlwaysExec, platform) == [sep];
    ArgumentStringShape(platform, [sep], cmds);
    Paths.SplitJoin(cmds, sep);
  }

  /**
    The child environment after the merge: each option key is bound to its
    expanded value, every other inherited key keeps its value.
   */
  function MergeEnv(env: map<string, string>, vars: map<string, string>, expand: string -> string): (r: map<string, string>)
    ensures r.Keys == env.Keys + vars.Keys
    ensures forall k :: k in vars ==> r[k] == expand(vars[k])
    ensures forall k :: k in env && k !in vars ==> r[k] == env[k]
  {
    map k | k in env.Keys + vars.Keys :: if k in vars then expand(vars[k]) else env[k]
  }

  /** An empty variable map leaves the environment as it was. */
  lemma MergeEmpty(env: map<string, string>, expand: string -> string)
    ensures MergeEnv(env, map[], expand) == env
  {
  }

  /** Merging the same variables twice is the same as merging them once. */
  lemma MergeIdempotent(env: map<string, string>, vars: map<string, string>, expand: string -> string)
    ensures MergeEnv(MergeEnv(env, vars, expand), vars, expand) == MergeEnv(env, vars, expand)
  {
  }

  /**
    Overriding a key keeps the number of entries: an existing key is replaced,
    never added a second time.
   */
  lemma MergeSize(env: map<string, string>, vars: map<string, string>, expand: string -> string)
    ensures vars.Keys <= env.Keys ==> |MergeEnv(env, vars, expand)| == |env|
  {
    if vars.Keys <= env.Keys {
      assert MergeEnv(env, vars, expand).Keys == env.Keys;
    }
  }

  /** A null or empty variable map leaves the inherited environment untouched. */
  lemma ChildEnvironmentUntouched(inherited: map<string, string>, opts: Options, expand: string -> string)
    requires opts.environmentVars.None? || opts.environmentVars == Some(map[])
    ensures ChildEnvironment(inherited, opts, expand) == inherited
  {
    if opts.environmentVars.Some? {
      MergeEmpty(inherited, expand);
    }
  }

  /** The part of `vars` whose keys are in `ks`. */
  function Restrict(vars: map<string, string>, ks: set<string>): map<string, string>
  {
    map k | k in vars && k in ks :: vars[k]
  }

  /** The options in force: `null` stands for `new Options()`. */
  function Effective(options: Option<Options>, oemEncoding: Encoding): Options
  {
    if options.None? then DefaultOptions(oemEncoding) else options.value
  }

  /** The child's environment: the inherited one, merged with the option's map unless it is null. */
  function ChildEnvironment(inherited: map<string, string>, opts: Options, expand: string -> string): map<string, string>
  {
    if opts.environmentVars.None? then inherited else MergeEnv(inherited, opts.environmentVars.value, expand)
  }

  /** `ProcessStartInfo`: the fields `BuildStartInfo` sets. */
  class StartInfo {
    var fileName: string
    var arguments: string
    var environment: map<string, string>
    var workingDirectory: string
    var createNoWindow: bool
    var errorDialog: bool
    var useShellExecute: bool
    var redirectStandardOutput: bool
    var redirectStandardError: bool
    var redirectStandardInput: bool
    var standardOutputEncoding: Option<Encoding>
    var standardErrorEncoding: Option<Encoding>

    /** `new ProcessStartInfo(fileName)`: the child inherits the current environment. */
    constructor (fileName: string, inherited: map<string, string>)
      ensures this.fileName == fileName && arguments == "" && environment == inherited
      ensures workingDirectory == "" && !createNoWindow && !errorDialog && useShellExecute
      ensures !redirectStandardOutput && !redirectStandardError && !redirectStandardInput
      ensures standardOutputEncoding.None? && standardErrorEncoding.None?
    {
      this.fileName := fileName;
      arguments := "";
      environment := inherited;
      workingDirectory := "";
      createNoWindow := false;
      errorDialog := false;
      useShellExecute := true;
      redirectStandardOutput := false;
      redirectStandardError := false;
      redirectStandardInput := false;
      standardOutputEncoding := None;
      standardErrorEncoding := None;
    }

    /** No window, no shell execution, all three streams redirected and decoded with `encoding`. */
    method SetProcessOptions(workDirectory: string, encoding: Encoding)
      modifies this`createNoWindow, this`errorDialog, this`useShellExecute, this`workingDirectory
      modifies this`redirectStandardOutput, this`redirectStandardError, this`redirectStandardInput
      modifies this`standardOutputEncoding, this`standardErrorEncoding
      ensures createNoWindow && errorDialog && !useShellExecute
      ensures this.workingDirectory == workDirectory
      ensures redirectStandardOutput && redirectStandardError && redirectStandardInput
      ensures standardOutputEncoding == standardErrorEncoding == Some(encoding)
    {
      createNoWindow := true;
      errorDialog := true;
      useShellExecute := false;
      this.workingDirectory := workDirectory;
      redirectStandardOutput := true;
      redirectStandardError := true;
      redirectStandardInput := true;
      standardOutputEncoding := Some(encoding);
      standardErrorEncoding := Some(encoding);
    }

    /**
      The `foreach` over the option's variables: each value is expanded, then
      written over an existing key or added as a new one. Either way the key
      ends up bound once, to the expanded value.
     */
    method MergeEnvironment(vars: map<string, string>, expand: string -> string)
      modifies this`environment
      ensures environment == MergeEnv(old(environment), vars, expand)
    {
      var pending := vars.Keys;
      while pending != {}
        invariant pending <= vars.Keys
        invariant environment == MergeEnv(old(environment), Restrict(vars, vars.Keys - pending), expand)
        decreases pending
      {
        var key :| key in pending;
        var value := expand(vars[key]);
        if key in environment {
          environment := environment[key := value];
        } else {
          environment := environment[key := value];
        }
        pending := pending - {key};
      }
      assert Restrict(vars, vars.Keys - pending) == vars;
    }
  }

  /**
    `BuildStartInfo`: a missing `Options` means the defaults; the shell flag,
    the merged environment, the quoted chained commands, the working
    directory ("./" when null), redirection of all three streams, no window.
   */
  method BuildStartInfo(platform: Platform, cmds: seq<string>, options: Option<Options>,
                        inherited: map<string, string>, expand: string -> string,
                        oemEncoding: Encoding)
    returns (start: StartInfo)
    ensures fresh(start)
    ensures start.fileName == ShellApp(platform)
    ensures start.arguments
      == ArgumentString(platform, GetProcessingSymbol(Effective(options, oemEncoding).processingSymbolsType, platform), cmds)
    ensures start.environment == ChildEnvironment(inherited, Effective(options, oemEncoding), expand)
    ensures start.workingDirectory == Effective(options, oemEncoding).workDirectory.GetOr("./")
    ensures start.standardOutputEncoding == start.standardErrorEncoding == Some(Effective(options, oemEncoding).encoding)
    ensures start.createNoWindow && start.errorDialog && !start.useShellExecute
    ensures start.redirectStandardOutput && start.redirectStandardError && start.redirectStandardInput
  {
    var opts := Effective(options, oemEncoding);
    start := new StartInfo(ShellApp(platform), inherited);
    start.arguments := ShellFlag(platform);
    if opts.environmentVars.Some? {
      start.MergeEnvironment(opts.environmentVars.value, expand);
    }
    var symbol := GetProcessingSymbol(opts.processingSymbolsType, platform);
    start.arguments := start.arguments + OpenQuote + Paths.Join(symbol, cmds) + CloseQuote;
    start.SetProcessOptions(opts.workDirectory.GetOr("./"), opts.encoding);
  }
}
