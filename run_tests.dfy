/**
 * `runTests` (src/run-tests.ts): bundle, serve, launch, navigate, collect the
 * failure count, and close what was acquired. The collaborators (webpack,
 * the HTTP server, puppeteer, the page) are reduced to a script of step
 * outcomes; what the run asks of them is recorded as effects.
 */
module RunTests {
  import opened Results
  import opened Terminal
  import opened RunConfig
  import Decimal
  import MochaSetup

  /** The closables, each tracked once acquired. */
  datatype Resource = DevMiddleware | HttpServer | Browser

  const AcquisitionOrder: seq<Resource> := [DevMiddleware, HttpServer, Browser]

  /** What the run prints or asks of a collaborator, in order. */
  datatype Effect =
    | Print(line: Line)
    | Compile(config: CompilerConfig)
    | Listen(preferredPort: int)
    | Launch(launchOptions: LaunchOptions)
    | AttachListeners    // console relay, dialog dismissal and the page-error listener
    | Goto(url: string)

  /** What the `done` hook delivers for the one build pass; `report` is `stats.toString({ colors })`. */
  datatype BuildStats = BuildStats(hasErrors: bool, hasWarnings: bool, report: string)

  /** How the race between the results and a page error is decided. */
  datatype PageRun =
    | PageError(reason: string)            // `pageerror` or `error` fires first
    | Suite(events: seq<MochaSetup.Event>) // the runner's events reach the status object

  /** The outcomes of the awaited steps. */
  datatype Script = Script(
    compileError: Option<string>,       // `webpack(config)` throws, e.g. when the configuration fails validation
    stats: BuildStats,
    listen: Result<nat>,                // the bound port, or the error the server raised
    launchError: Option<string>,
    pagesError: Option<string>,         // `browser.pages()` rejects, or no page is open for the hooks
    navigationError: Option<string>,
    page: PageRun,
    closeErrors: map<Resource, string>) // the closables whose `close()` rejects, with the reason

  /** How the `try` block ends. */
  datatype Exit = Completed | Threw(reason: string) | Suspended

  datatype Attempt = Attempt(effects: seq<Effect>, acquired: seq<Resource>, exit: Exit)

  /** How the promise `runTests` returns settles; `Pending` when it never does. */
  datatype Settlement = Resolved | Rejected(reason: string) | Pending

  const DefaultPort: int := 3000

  function HarnessUrl(port: nat): string {
    "http://localhost:" + Decimal.NatToString(port) + "/mocha.html"
  }

  function FailureMessage(failedCount: nat): string {
    Decimal.NatToString(failedCount) + " tests failed!"
  }

  /** `Promise.race([waitForTestResults(page), failsOnPageError])`, then the failed-count check. */
  function RaceOutcome(page: PageRun): Exit {
    match page
    case PageError(reason) => Threw(reason)
    case Suite(events) =>
      match MochaSetup.ReportedFailures(events)
      case None => Suspended
      case Some(n) => if n == 0 then Completed else Threw(FailureMessage(n))
  }

  /** The effects and acquisitions of one step, followed by the rest of the block. */
  function Then(effects: seq<Effect>, acquired: seq<Resource>, rest: Attempt): Attempt {
    Attempt(effects + rest.effects, acquired + rest.acquired, rest.exit)
  }

  /** The `try` block of `runTests`: build the configuration, compile, and track the dev middleware. */
  function TryBlock(testFiles: seq<string>, options: RunOptions, script: Script): Attempt {
    var bundling := [Print(Stdout("Bundling using webpack..."))];
    match CompilerConfigFor(options.webpackConfig.GetOr(EmptyConfig), testFiles, options)
    case Err(e) => Attempt(bundling, [], Threw(e))
    case Ok(config) =>
      if script.compileError.Some? then Attempt(bundling + [Compile(config)], [], Threw(script.compileError.value))
      else Then(bundling + [Compile(config)], [DevMiddleware], AfterBundling(options, script))
  }

  /** Once the build is done: errors throw, warnings are printed, and a server is asked for. */
  function AfterBundling(options: RunOptions, script: Script): Attempt {
    var done := [Print(Stdout("Done bundling."))];
    var stats := script.stats;
    if stats.hasErrors then Attempt(done, [], Threw(stats.report))
    else
      var warned := done + (if stats.hasWarnings then [Print(Stderr(stats.report))] else []);
      Then(warned + [Listen(options.preferredPort.GetOr(DefaultPort))], [], Serving(options, script))
  }

  /** Once the server is listening: track it, announce the port, and launch the browser. */
  function Serving(options: RunOptions, script: Script): Attempt {
    match script.listen
    case Err(e) => Attempt([], [], Threw(e))
    case Ok(port) =>
      var announced := [Print(Stdout("HTTP server is listening on port " + Decimal.NatToString(port))),
                        Launch(options.puppeteerConfig.GetOr(LaunchOptions(None)))];
      Then(announced, [HttpServer], Browsing(port, script))
  }

  /** Once the browser is up: track it, hook the page, navigate, and wait for the race. */
  function Browsing(port: nat, script: Script): Attempt {
    if script.launchError.Some? then Attempt([], [], Threw(script.launchError.value))
    else if script.pagesError.Some? then Attempt([], [Browser], Threw(script.pagesError.value))
    else
      var rest := if script.navigationError.Some? then Attempt([], [], Threw(script.navigationError.value))
                  else Attempt([], [], RaceOutcome(script.page));
      Then([AttachListeners, Goto(HarnessUrl(port))], [Browser], rest)
  }

  /** `if (!keepOpen)`: only an explicit `true` keeps the resources open. */
  predicate KeepsOpen(options: RunOptions) {
    options.keepOpen == Some(true)
  }

  /**
   * The reason `Promise.all` rejects with when some `close()` rejects. Which
   * rejection comes first depends on timing; the model takes the first
   * failing closable in tracking order.
   */
  function CloseError(closables: seq<Resource>, errors: map<Resource, string>): (e: Option<string>)
    ensures e.Some? <==> exists i :: 0 <= i < |closables| && closables[i] in errors
  {
    if closables == [] then None
    else
      var earlier := CloseError(closables[..|closables| - 1], errors);
      var last := closables[|closables| - 1];
      if earlier.Some? then earlier
      else if last in errors then Some(errors[last])
      else None
  }

  /** The `finally` block runs unless the `try` block never ends. */
  predicate TearsDown(testFiles: seq<string>, options: RunOptions, script: Script) {
    !TryBlock(testFiles, options, script).exit.Suspended? && !KeepsOpen(options)
  }

  /** The closables `close()` is called on, in call order. */
  function CloseCalls(testFiles: seq<string>, options: RunOptions, script: Script): seq<Resource> {
    if TearsDown(testFiles, options, script) then TryBlock(testFiles, options, script).acquired else []
  }

  function TeardownError(testFiles: seq<string>, options: RunOptions, script: Script): Option<string> {
    CloseError(CloseCalls(testFiles, options, script), script.closeErrors)
  }

  /** The closables still tracked when `runTests` returns control. */
  function StillTracked(testFiles: seq<string>, options: RunOptions, script: Script): seq<Resource> {
    if TearsDown(testFiles, options, script) && TeardownError(testFiles, options, script).None? then []
    else TryBlock(testFiles, options, script).acquired
  }

  /** How the returned promise settles: a rejection in `finally` replaces the `try` block's outcome. */
  function Outcome(testFiles: seq<string>, options: RunOptions, script: Script): Settlement {
    var exit := TryBlock(testFiles, options, script).exit;
    var closeError := TeardownError(testFiles, options, script);
    if exit.Suspended? then Pending
    else if closeError.Some? then Rejected(closeError.value)
    else if exit.Threw? then Rejected(exit.reason)
    else Resolved
  }

  /** The lines among the effects. */
  function Printed(effects: seq<Effect>): seq<Line> {
    if effects == [] then []
    else Printed(effects[..|effects| - 1]) + (if effects[|effects| - 1].Print? then [effects[|effects| - 1].line] else [])
  }

  /** The run's own scope: the `closables` array, the close calls made on its members, and the effects. */
  class RunScope {
    var closables: seq<Resource>
    var closeCalls: seq<Resource>
    var effects: seq<Effect>

    constructor ()
      ensures closables == [] && closeCalls == [] && effects == []
    {
      closables, closeCalls, effects := [], [], [];
    }

    method Emit(e: Effect)
      modifies this
      ensures effects == old(effects) + [e]
      ensures closables == old(closables) && closeCalls == old(closeCalls)
    {
      effects := effects + [e];
    }

    /** `closables.push(resource)` */
    method Track(r: Resource)
      modifies this
      ensures closables == old(closables) + [r]
      ensures closeCalls == old(closeCalls) && effects == old(effects)
    {
      closables := closables + [r];
    }

    /** `await Promise.all(closables.map(closable => closable.close())); closables.length = 0` */
    method CloseAll(errors: map<Resource, string>) returns (error: Option<string>)
      modifies this
      ensures closeCalls == old(closeCalls) + old(closables)
      ensures error == CloseError(old(closables), errors)
      ensures closables == if error.None? then [] else old(closables)
      ensures effects == old(effects)
    {
      error := None;
      for i := 0 to |closables|
        invariant closables == old(closables) && effects == old(effects)
        invariant closeCalls == old(closeCalls) + closables[..i]
        invariant error == CloseError(closables[..i], errors)
      {
        assert closables[..i + 1][..i] == closables[..i];
        closeCalls := closeCalls + [closables[i]];
        if error.None? && closables[i] in errors {
          error := Some(errors[closables[i]]);
        }
      }
      assert closables[..|closables|] == closables;
      if error.None? {
        closables := [];
      }
    }
  }

  /**
   * `waitForTestResults`: the page dispatches the runner's events to its status
   * object while `waitForFunction` polls `mochaStatus.finished`; once it holds,
   * `mochaStatus.failed` is read back.
   */
  method WaitForTestResults(events: seq<MochaSetup.Event>) returns (failedCount: Option<nat>)
    ensures failedCount == MochaSetup.ReportedFailures(events)
  {
    var status := new MochaSetup.MochaStatus();
    var i := 0;
    while i < |events| && !status.finished
      invariant 0 <= i <= |events|
      invariant MochaSetup.ReportedFailures(events) == MochaSetup.Settle(status.Snapshot(), events[i..])
    {
      assert events[i..][1..] == events[i + 1..];
      status.Handle(events[i]);
      i := i + 1;
    }
    failedCount := if status.finished then Some(status.failed) else None;
  }

  /** The `try` block, executed against the scope. */
  method ExecuteTryBlock(scope: RunScope, testFiles: seq<string>, options: RunOptions, script: Script) returns (exit: Exit)
    modifies scope
    ensures var attempt := TryBlock(testFiles, options, script);
      && scope.effects == old(scope.effects) + attempt.effects
      && scope.closables == old(scope.closables) + attempt.acquired
      && scope.closeCalls == old(scope.closeCalls)
      && exit == attempt.exit
  {
    scope.Emit(Print(Stdout("Bundling using webpack...")));
    var config := CompilerConfigFor(options.webpackConfig.GetOr(EmptyConfig), testFiles, options);
    if config.Err? {
      return Threw(config.message);
    }
    scope.Emit(Compile(config.value));
    if script.compileError.Some? {
      return Threw(script.compileError.value);
    }
    scope.Track(DevMiddleware);
    exit := AwaitBuild(scope, options, script);
  }

  method AwaitBuild(scope: RunScope, options: RunOptions, script: Script) returns (exit: Exit)
    modifies scope
    ensures var attempt := AfterBundling(options, script);
      && scope.effects == old(scope.effects) + attempt.effects
      && scope.closables == old(scope.closables) + attempt.acquired
      && scope.closeCalls == old(scope.closeCalls)
      && exit == attempt.exit
  {
    var stats := script.stats;
    scope.Emit(Print(Stdout("Done bundling.")));
    if stats.hasErrors {
      return Threw(stats.report);
    } else if stats.hasWarnings {
      scope.Emit(Print(Stderr(stats.report)));
    }
    scope.Emit(Listen(options.preferredPort.GetOr(DefaultPort)));
    exit := Serve(scope, options, script);
  }

  method Serve(scope: RunScope, options: RunOptions, script: Script) returns (exit: Exit)
    modifies scope
    ensures var attempt := Serving(options, script);
      && scope.effects == old(scope.effects) + attempt.effects
      && scope.closables == old(scope.closables) + attempt.acquired
      && scope.closeCalls == old(scope.closeCalls)
      && exit == attempt.exit
  {
    if script.listen.Err? {
      return Threw(script.listen.message);
    }
    var port := script.listen.value;
    scope.Track(HttpServer);
    scope.Emit(Print(Stdout("HTTP server is listening on port " + Decimal.NatToString(port))));
    scope.Emit(Launch(options.puppeteerConfig.GetOr(LaunchOptions(None))));
    exit := Browse(scope, port, script);
  }

  method Browse(scope: RunScope, port: nat, script: Script) returns (exit: Exit)
    modifies scope
    ensures var attempt := Browsing(port, script);
      && scope.effects == old(scope.effects) + attempt.effects
      && scope.closables == old(scope.closables) + attempt.acquired
      && scope.closeCalls == old(scope.closeCalls)
      && exit == attempt.exit
  {
    if script.launchError.Some? {
      return Threw(script.launchError.value);
    }
    scope.Track(Browser);
    if script.pagesError.Some? {
      return Threw(script.pagesError.value);
    }
    scope.Emit(AttachListeners);
    scope.Emit(Goto(HarnessUrl(port)));
    if script.navigationError.Some? {
      return Threw(script.navigationError.value);
    }
    match script.page {
      case PageError(reason) =>
        return Threw(reason);
      case Suite(events) =>
        var failedCount := WaitForTestResults(events);
        if failedCount.None? {
          return Suspended;
        }
        if failedCount.value != 0 {
          return Threw(FailureMessage(failedCount.value));
        }
        return Completed;
    }
  }

  /** `runTests(testFiles, options)`: the `try` block, then the `finally` block. */
  method RunTests(testFiles: seq<string>, options: RunOptions, script: Script) returns (settlement: Settlement, scope: RunScope)
    ensures fresh(scope)
    ensures settlement == Outcome(testFiles, options, script)
    ensures scope.effects == TryBlock(testFiles, options, script).effects
    ensures scope.closeCalls == CloseCalls(testFiles, options, script)
    ensures scope.closables == StillTracked(testFiles, options, script)
  {
    scope := new RunScope();
    var exit := ExecuteTryBlock(scope, testFiles, options, script);
    assert scope.closables == TryBlock(testFiles, options, script).acquired;
    if exit.Suspended? {
      // the race never settles, so the `finally` block is never reached
      return Pending, scope;
    }
    var closeError: Option<string> := None;
    if !KeepsOpen(options) {
      closeError := scope.CloseAll(script.closeErrors);
    }
    settlement := if closeError.Some? then Rejected(closeError.value)
                  else if exit.Threw? then Rejected(exit.reason)
                  else Resolved;
  }

  /** Closables are tracked in acquisition order: dev middleware, then HTTP server, then browser. */
  lemma AcquiredInOrder(testFiles: seq<string>, options: RunOptions, script: Script)
    ensures var acquired := TryBlock(testFiles, options, script).acquired;
      |acquired| <= 3 && acquired == AcquisitionOrder[..|acquired|]
  {
  }

  /** An unsupported entry throws before anything is compiled or acquired. */
  lemma UnsupportedEntryAcquiresNothing(testFiles: seq<string>, options: RunOptions, script: Script)
    requires !Supported(options.webpackConfig.GetOr(EmptyConfig).entry)
    ensures TryBlock(testFiles, options, script).acquired == []
    ensures Outcome(testFiles, options, script) == Rejected(UnsupportedEntry(TypeOf(options.webpackConfig.GetOr(EmptyConfig).entry)))
  {
  }

  /** A configuration webpack rejects throws before the dev middleware exists, so nothing is tracked or closed. */
  lemma CompileErrorAcquiresNothing(testFiles: seq<string>, options: RunOptions, script: Script)
    requires Supported(options.webpackConfig.GetOr(EmptyConfig).entry)
    requires script.compileError.Some?
    ensures TryBlock(testFiles, options, script).acquired == []
    ensures CloseCalls(testFiles, options, script) == []
    ensures Outcome(testFiles, options, script) == Rejected(script.compileError.value)
  {
  }

  /** When no page can be hooked, the browser is already tracked: the run rejects before any listener or navigation, and the browser is closed with the rest. */
  lemma PagesErrorStopsBeforeHooks(testFiles: seq<string>, options: RunOptions, script: Script)
    requires Supported(options.webpackConfig.GetOr(EmptyConfig).entry)
    requires script.compileError.None? && !script.stats.hasErrors && script.listen.Ok?
    requires script.launchError.None? && script.pagesError.Some?
    ensures var attempt := TryBlock(testFiles, options, script);
      && attempt.acquired == AcquisitionOrder
      && attempt.exit == Threw(script.pagesError.value)
      && AttachListeners !in attempt.effects
      && (forall e :: e in attempt.effects ==> !e.Goto?)
    ensures !KeepsOpen(options) ==> CloseCalls(testFiles, options, script) == AcquisitionOrder
  {
  }

  /** A build with errors throws its report with only the dev middleware tracked; no server is asked for. */
  lemma BuildErrorsStopBeforeServer(testFiles: seq<string>, options: RunOptions, script: Script)
    requires Supported(options.webpackConfig.GetOr(EmptyConfig).entry)
    requires script.compileError.None? && script.stats.hasErrors
    ensures var attempt := TryBlock(testFiles, options, script);
      && attempt.acquired == [DevMiddleware]
      && attempt.exit == Threw(script.stats.report)
      && forall e :: e in attempt.effects ==> !e.Listen? && !e.Launch? && !e.Goto?
  {
  }

  /** Warnings are printed to standard error and the run goes on to ask for a server on the preferred port (3000 by default). */
  lemma WarningsDoNotStopRun(testFiles: seq<string>, options: RunOptions, script: Script)
    requires Supported(options.webpackConfig.GetOr(EmptyConfig).entry)
    requires script.compileError.None? && !script.stats.hasErrors
    ensures var attempt := TryBlock(testFiles, options, script);
      && Listen(options.preferredPort.GetOr(3000)) in attempt.effects
      && (script.stats.hasWarnings ==> Print(Stderr(script.stats.report)) in attempt.effects)
      && (script.listen.Ok? ==> HttpServer in attempt.acquired)
  {
  }

  /** The page's console and error listeners are attached before the page navigates. */
  lemma ListenersBeforeNavigation(testFiles: seq<string>, options: RunOptions, script: Script, j: nat)
    requires var effects := TryBlock(testFiles, options, script).effects; j < |effects| && effects[j].Goto?
    ensures var effects := TryBlock(testFiles, options, script).effects;
      exists i :: 0 <= i < j && effects[i] == AttachListeners
  {
    var effects := TryBlock(testFiles, options, script).effects;
    assert effects[j - 1] == AttachListeners;
  }

  /** When every step succeeds, the failure count decides: zero resolves, any other count rejects with `<n> tests failed!`. */
  lemma FailureCountDecides(testFiles: seq<string>, options: RunOptions, script: Script, n: nat)
    requires Supported(options.webpackConfig.GetOr(EmptyConfig).entry)
    requires script.compileError.None? && !script.stats.hasErrors && script.listen.Ok?
    requires script.launchError.None? && script.pagesError.None? && script.navigationError.None?
    requires script.page.Suite? && MochaSetup.ReportedFailures(script.page.events) == Some(n)
    requires KeepsOpen(options) || CloseError(AcquisitionOrder, script.closeErrors).None?
    ensures Outcome(testFiles, options, script) == if n == 0 then Resolved else Rejected(FailureMessage(n))
  {
    assert TryBlock(testFiles, options, script).acquired == AcquisitionOrder;
  }

  /** A page error that wins the race rejects the run with that error. */
  lemma PageErrorRejects(testFiles: seq<string>, options: RunOptions, script: Script)
    requires Supported(options.webpackConfig.GetOr(EmptyConfig).entry)
    requires script.compileError.None? && !script.stats.hasErrors && script.listen.Ok?
    requires script.launchError.None? && script.pagesError.None? && script.navigationError.None?
    requires script.page.PageError?
    requires KeepsOpen(options) || CloseError(AcquisitionOrder, script.closeErrors).None?
    ensures Outcome(testFiles, options, script) == Rejected(script.page.reason)
  {
    assert TryBlock(testFiles, options, script).acquired == AcquisitionOrder;
  }

  /**
   * Teardown runs on normal and exceptional exit alike: every tracked closable
   * is asked to close exactly once, and when all closes succeed none stays tracked.
   */
  lemma TeardownClosesEachOnce(testFiles: seq<string>, options: RunOptions, script: Script)
    requires !TryBlock(testFiles, options, script).exit.Suspended?
    requires !KeepsOpen(options)
    ensures var calls := CloseCalls(testFiles, options, script);
      && calls == TryBlock(testFiles, options, script).acquired
      && (forall i, j :: 0 <= i < j < |calls| ==> calls[i] != calls[j])
      && (TeardownError(testFiles, options, script).None? ==> StillTracked(testFiles, options, script) == [])
  {
    AcquiredInOrder(testFiles, options, script);
  }

  /** With `keepOpen`, nothing is closed and every acquired resource stays tracked. */
  lemma KeepOpenClosesNothing(testFiles: seq<string>, options: RunOptions, script: Script)
    requires KeepsOpen(options)
    ensures CloseCalls(testFiles, options, script) == []
    ensures StillTracked(testFiles, options, script) == TryBlock(testFiles, options, script).acquired
  {
  }

  /** A rejected close replaces the outcome of the `try` block, and the list is not emptied. */
  lemma CloseErrorReplacesOutcome(testFiles: seq<string>, options: RunOptions, script: Script)
    requires TearsDown(testFiles, options, script)
    requires TeardownError(testFiles, options, script).Some?
    ensures Outcome(testFiles, options, script) == Rejected(TeardownError(testFiles, options, script).value)
    ensures StillTracked(testFiles, options, script) == TryBlock(testFiles, options, script).acquired
  {
  }

  /** A suite that never emits `end` and never raises a page error leaves the run pending with nothing closed. */
  lemma UnfinishedSuiteNeverSettles(testFiles: seq<string>, options: RunOptions, script: Script)
    requires Supported(options.webpackConfig.GetOr(EmptyConfig).entry)
    requires script.compileError.None? && !script.stats.hasErrors && script.listen.Ok?
    requires script.launchError.None? && script.pagesError.None? && script.navigationError.None?
    requires script.page.Suite? && MochaSetup.End !in script.page.events
    ensures Outcome(testFiles, options, script) == Pending
    ensures CloseCalls(testFiles, options, script) == []
    ensures StillTracked(testFiles, options, script) == AcquisitionOrder
  {
    MochaSetup.ReportedFailuresCountFails(script.page.events);
  }
}
