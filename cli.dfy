/**
 * The command-line entry point (src/cli.ts): collect the test files, report
 * them, derive the run options, call `runTests`, and turn a rejection into an
 * error message and exit code 1 (outside dev mode).
 */
module Cli {
  import opened Results
  import opened Terminal
  import opened RunConfig
  import Decimal
  import RunTests

  /** What `require` of the configuration file yields. */
  datatype ConfigExport = ConfigObject(config: WebpackConfig) | ConfigFunction

  /** The parsed command line: glob patterns and options, as the option parser leaves them. */
  datatype CliArgs = CliArgs(
    patterns: seq<string>,
    webpackConfig: Option<string>,
    dev: bool,
    listFiles: bool,
    colors: Option<bool>,
    reporter: Option<string>,
    timeout: Option<int>,
    ui: Option<string>)

  /** The environment: working directory, `glob.sync`, colour support, `require` of a config path, and the help text. */
  datatype Host = Host(
    cwd: string,
    glob: string -> seq<string>,
    supportsColor: bool,
    load: string -> ConfigExport,
    help: string)

  /** The call made to `runTests`. */
  datatype Invocation = Invocation(testFiles: seq<string>, options: RunOptions)

  const NoFilesMessage: string := "Cannot find any test files"
  const FunctionConfigMessage: string := "Webpack configuration file exports a function, which is not yet supported."

  /** Each pattern's matches, pattern after pattern, duplicates kept. */
  function Flatten(patterns: seq<string>, glob: string -> seq<string>): seq<string> {
    if patterns == [] then [] else Flatten(patterns[..|patterns| - 1], glob) + glob(patterns[|patterns| - 1])
  }

  /** Collecting the files of two runs of patterns is collecting each and concatenating, in order. */
  lemma {:induction false} FlattenAppend(first: seq<string>, second: seq<string>, glob: string -> seq<string>)
    ensures Flatten(first + second, glob) == Flatten(first, glob) + Flatten(second, glob)
    decreases |second|
  {
    if second == [] {
      assert first + second == first;
    } else {
      var init := second[..|second| - 1];
      assert (first + second)[..|first + second| - 1] == first + init;
      assert (first + second)[|first + second| - 1] == second[|second| - 1];
      FlattenAppend(first, init, glob);
    }
  }

  /** A file is found exactly when some pattern matches it; a pattern given twice contributes its matches twice. */
  lemma {:induction false} FlattenMembers(patterns: seq<string>, glob: string -> seq<string>, file: string)
    ensures file in Flatten(patterns, glob) <==> exists i :: 0 <= i < |patterns| && file in glob(patterns[i])
  {
    if patterns != [] {
      var init := patterns[..|patterns| - 1];
      FlattenMembers(init, glob, file);
      if file in Flatten(patterns, glob) && file !in glob(patterns[|patterns| - 1]) {
        var i :| 0 <= i < |init| && file in glob(init[i]);
        assert patterns[i] == init[i];
      }
      if exists i :: 0 <= i < |patterns| && file in glob(patterns[i]) {
        var i :| 0 <= i < |patterns| && file in glob(patterns[i]);
        if i < |init| {
          assert init[i] == patterns[i];
        }
      }
    }
  }

  lemma DuplicatesKept(pattern: string, glob: string -> seq<string>)
    ensures Flatten([pattern, pattern], glob) == glob(pattern) + glob(pattern)
    ensures |Flatten([pattern, pattern], glob)| == 2 * |glob(pattern)|
  {
    var once := [pattern];
    assert [pattern, pattern][..1] == once;
    assert once[..0] == [];
    assert Flatten(once, glob) == glob(pattern);
  }

  /** The nested loops that push every match of every pattern onto `foundFiles`. */
  method CollectFiles(patterns: seq<string>, glob: string -> seq<string>) returns (foundFiles: seq<string>)
    ensures foundFiles == Flatten(patterns, glob)
  {
    foundFiles := [];
    for i := 0 to |patterns|
      invariant foundFiles == Flatten(patterns[..i], glob)
    {
      var matches := glob(patterns[i]);
      for j := 0 to |matches|
        invariant foundFiles == Flatten(patterns[..i], glob) + matches[..j]
      {
        foundFiles := foundFiles + [matches[j]];
      }
      assert patterns[..i + 1][..i] == patterns[..i];
    }
    assert patterns[..|patterns|] == patterns;
  }

  /** `colors === undefined ? !!chalk.supportsColor : colors` */
  function ResolveColors(colors: Option<bool>, supportsColor: bool): (resolved: bool)
    ensures colors.Some? ==> resolved == colors.value
    ensures colors.None? ==> resolved == supportsColor
  {
    match colors
    case None => supportsColor
    case Some(c) => c
  }

  /** `userWebpackConfig ? require(path.resolve(userWebpackConfig)) : {}`: an empty path is falsy too. */
  function LoadedConfig(args: CliArgs, host: Host): ConfigExport {
    match args.webpackConfig
    case Some(path) => if path == "" then ConfigObject(EmptyConfig) else host.load(path)
    case None => ConfigObject(EmptyConfig)
  }

  /**
   * The options handed to `runTests`. A configuration that is a function only
   * gets this far in dev mode; it has no `entry` or `plugins` of its own and
   * spreads no fields, so the run treats it as an empty configuration.
   */
  function RunOptionsFor(args: CliArgs, host: Host): (options: RunOptions)
    ensures options.keepOpen == (if args.dev then Some(true) else None)
    ensures options.puppeteerConfig == Some(if args.dev then LaunchOptions(Some(true)) else LaunchOptions(None))
    ensures options.colors == Some(ResolveColors(args.colors, host.supportsColor))
    ensures options.preferredPort.None?
    ensures args.webpackConfig.None? || args.webpackConfig == Some("") ==> options.webpackConfig == Some(EmptyConfig)
    ensures args.webpackConfig.Some? && args.webpackConfig.value != "" ==>
      options.webpackConfig == Some(match host.load(args.webpackConfig.value)
                                    case ConfigObject(c) => c
                                    case ConfigFunction => EmptyConfig)
    ensures options.reporter == args.reporter && options.ui == args.ui && options.timeout == args.timeout
  {
    var webpackConfig := match LoadedConfig(args, host) case ConfigObject(c) => c case ConfigFunction => EmptyConfig;
    RunOptions(
      None,
      Some(if args.dev then LaunchOptions(Some(true)) else LaunchOptions(None)),
      Some(webpackConfig),
      if args.dev then Some(true) else None,
      Some(ResolveColors(args.colors, host.supportsColor)),
      args.reporter,
      args.ui,
      args.timeout)
  }

  function FoundMessage(count: nat, cwd: string): string {
    "Found " + Decimal.NatToString(count) + " test files in " + cwd
  }

  /** One `- <path>` line per file, in order. */
  function ListLines(files: seq<string>): (lines: seq<Line>)
    ensures |lines| == |files|
    ensures forall i :: 0 <= i < |files| ==> lines[i] == Stdout("- " + files[i])
  {
    if files == [] then [] else ListLines(files[..|files| - 1]) + [Stdout("- " + files[|files| - 1])]
  }

  /** What the CLI leaves behind: its output, the code it exits with (if it calls `process.exit`), and the run it starts. */
  datatype CliResult = CliResult(lines: seq<Line>, exitCode: Option<int>, invoked: Option<Invocation>)

  function Transcript(args: CliArgs, host: Host, script: RunTests.Script): CliResult {
    var found := Flatten(args.patterns, host.glob);
    if |found| == 0 && !args.dev then CliResult([Stdout(host.help), Stderr(NoFilesMessage)], Some(1), None)
    else if |found| == 0 then Prefixed([Stdout(host.help), Stderr(NoFilesMessage)], Reported(args, host, script, found))
    else Reported(args, host, script, found)
  }

  function Prefixed(lines: seq<Line>, rest: CliResult): CliResult {
    rest.(lines := lines + rest.lines)
  }

  /** From the `Found ...` line on. */
  function Reported(args: CliArgs, host: Host, script: RunTests.Script, found: seq<string>): CliResult {
    var listed := [Stdout(FoundMessage(|found|, host.cwd))] + (if args.listFiles then ListLines(found) else []);
    Prefixed(listed, Configured(args, host, script, found))
  }

  /** From the check of the configuration's type on. */
  function Configured(args: CliArgs, host: Host, script: RunTests.Script, found: seq<string>): CliResult {
    if LoadedConfig(args, host).ConfigFunction? then
      if args.dev then Prefixed([Stderr(FunctionConfigMessage)], Started(args, host, script, found))
      else CliResult([Stderr(FunctionConfigMessage)], Some(1), None)
    else Started(args, host, script, found)
  }

  /** `runTests(foundFiles, {...}).catch(printErrorAndExit)` */
  function Started(args: CliArgs, host: Host, script: RunTests.Script, found: seq<string>): CliResult {
    var options := RunOptionsFor(args, host);
    var outcome := RunTests.Outcome(found, options, script);
    var printed := RunTests.Printed(RunTests.TryBlock(found, options, script).effects);
    if outcome.Rejected? then
      CliResult(printed + [Stderr(outcome.reason)], if args.dev then None else Some(1), Some(Invocation(found, options)))
    else
      CliResult(printed, None, Some(Invocation(found, options)))
  }

  /** The CLI process: what it has printed, whether it has exited, and the run it started. */
  class CliProcess {
    const dev: bool
    var lines: seq<Line>
    var exitCode: Option<int>
    var invoked: Option<Invocation>

    constructor (dev: bool)
      ensures this.dev == dev && lines == [] && exitCode == None && invoked == None
    {
      this.dev := dev;
      lines, exitCode, invoked := [], None, None;
    }

    method Print(line: Line)
      modifies this
      ensures lines == old(lines) + [line]
      ensures exitCode == old(exitCode) && invoked == old(invoked)
    {
      lines := lines + [line];
    }

    /** Output written by code this process runs. */
    method Echo(more: seq<Line>)
      modifies this
      ensures lines == old(lines) + more
      ensures exitCode == old(exitCode) && invoked == old(invoked)
    {
      lines := lines + more;
    }

    /** `printErrorAndExit`: print the message; exit with code 1 unless in dev mode, which keeps the process open. */
    method PrintErrorAndExit(message: string)
      modifies this
      ensures lines == old(lines) + [Stderr(message)]
      ensures exitCode == if dev then old(exitCode) else Some(1)
      ensures invoked == old(invoked)
    {
      lines := lines + [Stderr(message)];
      if !dev {
        exitCode := Some(1);
      }
    }

    /** `for (const foundFile of foundFiles) console.log(`- ${foundFile}`)` */
    method ListFiles(files: seq<string>)
      modifies this
      ensures lines == old(lines) + ListLines(files)
      ensures exitCode == old(exitCode) && invoked == old(invoked)
    {
      for i := 0 to |files|
        invariant lines == old(lines) + ListLines(files[..i])
        invariant exitCode == old(exitCode) && invoked == old(invoked)
      {
        assert files[..i + 1][..i] == files[..i];
        lines := lines + [Stdout("- " + files[i])];
      }
      assert files[..|files|] == files;
    }

    method Invoke(call: Invocation)
      modifies this
      ensures invoked == Some(call)
      ensures lines == old(lines) && exitCode == old(exitCode)
    {
      invoked := Some(call);
    }
  }

  /** The whole script of src/cli.ts, from the parsed command line to the settled run. */
  method RunCli(args: CliArgs, host: Host, script: RunTests.Script) returns (process: CliProcess)
    ensures fresh(process)
    ensures var result := Transcript(args, host, script);
      process.lines == result.lines && process.exitCode == result.exitCode && process.invoked == result.invoked
  {
    process := new CliProcess(args.dev);
    var foundFiles := CollectFiles(args.patterns, host.glob);
    ghost var missing := [Stdout(host.help), Stderr(NoFilesMessage)];
    if |foundFiles| == 0 {
      process.Print(Stdout(host.help));
      process.PrintErrorAndExit(NoFilesMessage);
      if process.exitCode.Some? {
        return;
      }
      assert process.lines == missing;
      assert Transcript(args, host, script) == Prefixed(missing, Reported(args, host, script, foundFiles));
    } else {
      assert Transcript(args, host, script) == Reported(args, host, script, foundFiles);
    }
    Report(process, args, host, script, foundFiles);
  }

  method Report(process: CliProcess, args: CliArgs, host: Host, script: RunTests.Script, foundFiles: seq<string>)
    requires process.dev == args.dev && process.exitCode.None? && process.invoked.None?
    modifies process
    ensures var result := Reported(args, host, script, foundFiles);
      process.lines == old(process.lines) + result.lines && process.exitCode == result.exitCode && process.invoked == result.invoked
  {
    ghost var listed := [Stdout(FoundMessage(|foundFiles|, host.cwd))] + (if args.listFiles then ListLines(foundFiles) else []);
    process.Print(Stdout(FoundMessage(|foundFiles|, host.cwd)));
    if args.listFiles {
      process.ListFiles(foundFiles);
    }
    assert process.lines == old(process.lines) + listed;
    Configure(process, args, host, script, foundFiles);
    Regroup(old(process.lines), listed, Configured(args, host, script, foundFiles).lines);
  }

  method Configure(process: CliProcess, args: CliArgs, host: Host, script: RunTests.Script, foundFiles: seq<string>)
    requires process.dev == args.dev && process.exitCode.None? && process.invoked.None?
    modifies process
    ensures var result := Configured(args, host, script, foundFiles);
      process.lines == old(process.lines) + result.lines && process.exitCode == result.exitCode && process.invoked == result.invoked
  {
    if LoadedConfig(args, host).ConfigFunction? {
      process.PrintErrorAndExit(FunctionConfigMessage);
      if process.exitCode.Some? {
        return;
      }
      Start(process, args, host, script, foundFiles);
      Regroup(old(process.lines), [Stderr(FunctionConfigMessage)], Started(args, host, script, foundFiles).lines);
    } else {
      Start(process, args, host, script, foundFiles);
    }
  }

  lemma Regroup(a: seq<Line>, b: seq<Line>, c: seq<Line>)
    ensures a + b + c == a + (b + c)
  {
  }

  method Start(process: CliProcess, args: CliArgs, host: Host, script: RunTests.Script, foundFiles: seq<string>)
    requires process.dev == args.dev && process.exitCode.None? && process.invoked.None?
    modifies process
    ensures var result := Started(args, host, script, foundFiles);
      process.lines == old(process.lines) + result.lines && process.exitCode == result.exitCode && process.invoked == result.invoked
  {
    var options := RunOptionsFor(args, host);
    process.Invoke(Invocation(foundFiles, options));
    var settlement, scope := RunTests.RunTests(foundFiles, options, script);
    process.Echo(RunTests.Printed(scope.effects));
    if settlement.Rejected? {
      // `.catch(printErrorAndExit)`
      process.PrintErrorAndExit(settlement.reason);
    }
  }

  /** With no matching file and outside dev mode, the CLI reports the error, exits with 1 and never starts a run. */
  lemma MissingFilesExit(args: CliArgs, host: Host, script: RunTests.Script)
    requires Flatten(args.patterns, host.glob) == [] && !args.dev
    ensures var result := Transcript(args, host, script);
      && result.exitCode == Some(1)
      && result.invoked.None?
      && result.lines[|result.lines| - 1] == Stderr(NoFilesMessage)
  {
  }

  /** In dev mode the error is printed but the CLI goes on and starts a run with no test files. */
  lemma DevModeContinuesPastErrors(args: CliArgs, host: Host, script: RunTests.Script)
    requires Flatten(args.patterns, host.glob) == [] && args.dev
    ensures var result := Transcript(args, host, script);
      && result.exitCode.None?
      && Stderr(NoFilesMessage) in result.lines
      && result.invoked == Some(Invocation([], RunOptionsFor(args, host)))
  {
  }

  /** A configuration file that exports a function is an error: outside dev mode the CLI exits with 1 before any run. */
  lemma FunctionConfigRejected(args: CliArgs, host: Host, script: RunTests.Script)
    requires Flatten(args.patterns, host.glob) != [] && !args.dev
    requires LoadedConfig(args, host).ConfigFunction?
    ensures var result := Transcript(args, host, script);
      result.exitCode == Some(1) && result.invoked.None? && result.lines[|result.lines| - 1] == Stderr(FunctionConfigMessage)
  {
  }

  /** The report of the found files: the count line, then with `--list-files` one line per file, in order. */
  lemma FoundFilesReported(args: CliArgs, host: Host, script: RunTests.Script)
    requires Flatten(args.patterns, host.glob) != []
    ensures var found := Flatten(args.patterns, host.glob);
      var lines := Transcript(args, host, script).lines;
      && lines[0] == Stdout(FoundMessage(|found|, host.cwd))
      && (args.listFiles ==> |lines| > |found| && forall i :: 0 <= i < |found| ==> lines[i + 1] == Stdout("- " + found[i]))
  {
  }

  /** Outside dev mode, once a run starts the CLI exits with 1 exactly when the run rejects; a resolved run leaves the exit to Node (code 0). */
  lemma ExitCodeFollowsRun(args: CliArgs, host: Host, script: RunTests.Script)
    requires Flatten(args.patterns, host.glob) != [] && !args.dev
    requires LoadedConfig(args, host).ConfigObject?
    ensures var found := Flatten(args.patterns, host.glob);
      var outcome := RunTests.Outcome(found, RunOptionsFor(args, host), script);
      && Transcript(args, host, script).invoked == Some(Invocation(found, RunOptionsFor(args, host)))
      && (Transcript(args, host, script).exitCode == Some(1) <==> outcome.Rejected?)
      && (outcome.Rejected? ==> Transcript(args, host, script).lines[|Transcript(args, host, script).lines| - 1] == Stderr(outcome.reason))
  {
  }

  /** Dev mode never exits the process, whatever happens. */
  lemma DevModeNeverExits(args: CliArgs, host: Host, script: RunTests.Script)
    requires args.dev
    ensures Transcript(args, host, script).exitCode.None?
  {
  }
}
