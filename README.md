# mocha-pup, modelled in Dafny

mocha-pup runs mocha test files in a headless Chrome from the command line. It
collects the test files named by glob patterns. It bundles them with webpack,
together with a fixed bootstrap script and the user's own webpack
configuration. It serves the bundle over HTTP and opens the generated
`mocha.html` in puppeteer. Then it waits until the page reports that mocha has
finished, and reads back the failure count. Every resource acquired on the way
is closed at the end, unless the run is kept open for debugging.

This project models the logic under that plumbing. Webpack, the HTTP server,
puppeteer, the page and `glob` become abstract inputs.

- `RunConfig` (run_config.dfy) builds the webpack configuration. It turns the
  user's `entry` into an entry map, or into the "unsupported entry" error. It
  lays the `mocha` and `units` chunks over that map. It appends the HTML
  harness plugin and the `DefinePlugin` of mocha settings to the user's
  plugins.
- `JsonText` (json_text.dfy) models the string case of `JSON.stringify`, which
  produces the UI and reporter constants. It also has a reader for the literal
  it writes, so the model can prove that the page reads back the same value.
- `RunTests` (run_tests.dfy) models `runTests`. The `try` block is a chain of
  methods that work on a `RunScope` object. That object holds the `closables`
  list, the `close()` calls made so far, and the effects: lines printed and
  requests made to the collaborators. A `Script` value gives the outcome of
  every step that can fail: whether `webpack(config)` throws, the build stats,
  the bound port, launch, page and navigation errors, the page's race, and
  which closes reject. Each method is proved against a
  specification function: `TryBlock`, `CloseCalls`, `StillTracked` and
  `Outcome`. The lemmas about those functions state the run's promises.
- `MochaSetup` (mocha_setup.dfy) models the in-page `mochaStatus` object as a
  class with the three event handlers. `Replay` and `Settle` give its
  specification.
- `PageConsole` (page_console.dfy) models the table from page console types to
  local console functions, and the `console` handler for one message.
- `Cli` (cli.dfy) models the CLI script. It collects the files, prints the
  "Found" line and the file list, and derives the options. It calls
  `printErrorAndExit`, starts the run, and turns a rejected run into exit
  code 1.
- `Results`, `Terminal` and `Decimal` are shared helpers: `Option` and
  `Result`, standard-output and standard-error lines, and decimal rendering of
  numbers with its inverse.

Three behaviours of the code shape the model:

- Teardown uses `Promise.all`. A rejected `close()` becomes the run's
  rejection, replacing the outcome of the `try` block, and the list is then
  not emptied. Close failures are not swallowed.
- Each console message is handled on its own: nothing chains the handlers, so
  the model states per-message properties only. Every argument goes through
  `jsonValue()`; error objects are not special-cased.
- The CLI has no port option. `runTests` always uses its default port, 3000.

## Model

| member | source | states |
|---|---|---|
| `RunConfig.GetEntryObject` | src/run-tests.ts:116-125 | An absent entry gives `{}`. A string or string array gives `{ main: entry }`. An object comes back unchanged, and `null` contributes no chunk. A function, a number, a boolean, a symbol or a bigint, and nothing else, throws `Unsupported "entry" field type (<typeof>) in webpack configuration.`, e.g. `(function)` or `(number)`. |
| `RunConfig.CompilerEntry` | src/run-tests.ts:32-36 | The compiler entry keeps every user chunk name. It maps `mocha` to the bootstrap script and `units` to exactly the test files, even over user chunks of those names. Every other user chunk is unchanged. The only error is the unsupported entry. |
| `RunConfig.CreatePluginsConfig` | src/run-tests.ts:88-105 | The plugin list is the user's plugins (none when unset), unchanged and in order. Exactly two plugins follow: the `mocha.html` harness with chunks `['mocha','units']`, then the `process.env` definitions. |
| `RunConfig.CompilerConfigFor` | src/run-tests.ts:29-38 | The configuration handed to webpack fails exactly for an unsupported entry, with `getEntryObject`'s message. Otherwise its mode is the user's mode, or `development` when the user sets none. Its entry is the overlay of `mocha` and `units` on the user's chunks (`CompilerEntry`). Its plugins are the user's plugins followed by the harness and the definitions (`CreatePluginsConfig`). |
| `RunConfig.InjectedNamesReadBack` | src/run-tests.ts:96-102 | `MOCHA_UI` and `MOCHA_REPORTER` are string literals that evaluate back to the `ui` and `reporter` options. They are `undefined` when the option is unset. |
| `RunConfig.InjectedRawValues` | src/run-tests.ts:96-102 | The definitions are exactly the four `MOCHA_*` keys. `MOCHA_COLORS` and `MOCHA_TIMEOUT` hold the raw boolean and number, or `undefined`. |
| `RunConfig.HarnessLoadsOnlyInjectedChunks` | src/run-tests.ts:88-93 | The plugins include the harness, and it is the only HTML plugin this code adds. The chunks it names are `mocha`, which the compiler entry maps to the bootstrap script, and `units`, which it maps to the test files. |
| `JsonText.ParseStringify` | src/run-tests.ts:98-100 | Reading back the literal `JSON.stringify` writes for a string gives that string. |
| `JsonText.StringifyInjective` | src/run-tests.ts:98-100 | Different option strings are written as different literals. |
| `Decimal.NatToString` | src/run-tests.ts:59 | A rendered number is a non-empty string of digits. It starts with `0` only when the number is zero. |
| `Decimal.ValueOfNatToString` | src/run-tests.ts:78 | Reading the rendered digits back gives the number, so the port line and the `<n> tests failed!` message carry the exact count. |
| `Decimal.NatToStringInjective` | src/run-tests.ts:78 | Different failure counts give different messages. |
| `RunTests.RunScope.constructor` | src/run-tests.ts:25 | A run starts with no closables, no close calls and no effects. |
| `RunTests.RunScope.Track` | src/run-tests.ts:41 | `push` appends one closable and changes nothing else. |
| `RunTests.RunScope.CloseAll` | src/run-tests.ts:80-85 | `close()` is called once on every tracked closable, in list order. The result is the rejection `Promise.all` sees. The list is emptied only when no close rejects. |
| `RunTests.WaitForTestResults` | src/run-tests.ts:107-110 | The value read back is the status's failure count at the moment `finished` first holds. It is `None` when that never happens. |
| `RunTests.ExecuteTryBlock` | src/run-tests.ts:27-79 | The `try` block's effects, tracked closables and exit are those of `TryBlock`. The block builds the configuration, compiles and tracks the dev middleware, then continues. |
| `RunTests.AwaitBuild` | src/run-tests.ts:47-56 | Build errors throw the stats report. Warnings are printed to standard error and the run goes on to ask for a server on the preferred port. |
| `RunTests.Serve` | src/run-tests.ts:57-61 | A failed listen throws. Otherwise the server is tracked and the bound port is announced before the browser is launched. |
| `RunTests.Browse` | src/run-tests.ts:61-79 | After launch, the browser is tracked. If no page can be hooked, the block throws there. Otherwise the listeners are attached before navigating to `mocha.html` on the bound port. The race then decides the exit: a page error, a count read back, or no end at all. |
| `RunTests.RunTests` | src/run-tests.ts:23-86 | The settlement, close calls, remaining closables and effects of a whole run are those the specification functions give. The `finally` block runs whenever the `try` block ends. |
| `RunTests.AcquiredInOrder` | src/run-tests.ts:41-62 | Tracked closables are always a prefix of dev middleware, HTTP server, browser. |
| `RunTests.UnsupportedEntryAcquiresNothing` | src/run-tests.ts:27-41 | An unsupported entry throws before anything is tracked, and the run rejects with the unsupported-entry message naming its `typeof`. |
| `RunTests.CompileErrorAcquiresNothing` | src/run-tests.ts:29-41 | When `webpack(config)` throws, nothing has been tracked: nothing is closed and the run rejects with that error. |
| `RunTests.PagesErrorStopsBeforeHooks` | src/run-tests.ts:61-73 | When `browser.pages()` fails after launch, all three resources are tracked and the block throws before any listener is attached or any navigation. Without `keepOpen` all three are closed. |
| `RunTests.BuildErrorsStopBeforeServer` | src/run-tests.ts:49-62 | A build with errors makes the `try` block throw its report. Only the dev middleware is tracked. No server, browser or navigation is requested. |
| `RunTests.WarningsDoNotStopRun` | src/run-tests.ts:49-58 | Warnings alone are printed to standard error. The run still asks for a server on the preferred port, 3000 by default. |
| `RunTests.ListenersBeforeNavigation` | src/run-tests.ts:66-73 | Every navigation is preceded by attaching the console, dialog and page-error listeners. |
| `RunTests.FailureCountDecides` | src/run-tests.ts:75-79 | When all steps succeed and closing succeeds, a zero count resolves. A count `n > 0` rejects with `<n> tests failed!`. |
| `RunTests.PageErrorRejects` | src/run-tests.ts:69-75 | A page error that wins the race rejects the run with that error. |
| `RunTests.TeardownClosesEachOnce` | src/run-tests.ts:80-85 | Without `keepOpen`, on normal and exceptional exit alike, the close calls are exactly the tracked closables. None is called twice. When all succeed, nothing stays tracked. |
| `RunTests.KeepOpenClosesNothing` | src/run-tests.ts:81 | With `keepOpen` set, nothing is closed and every acquired resource stays tracked. |
| `RunTests.CloseErrorReplacesOutcome` | src/run-tests.ts:82-83 | A rejected close becomes the run's rejection, whatever the `try` block did. The list is not emptied. |
| `RunTests.UnfinishedSuiteNeverSettles` | src/run-tests.ts:107-110 | If the runner never emits `end` and the page never errs, the run stays pending. Nothing is closed and all three resources stay tracked. |
| `MochaSetup.MochaStatus.constructor` | static/mocha-setup.js:6-10 | The status starts at `completed = 0`, `failed = 0`, `finished = false`. |
| `MochaSetup.MochaStatus.OnTestEnd` | static/mocha-setup.js:13 | `test end` adds one to `completed` and leaves `failed` and `finished` alone. |
| `MochaSetup.MochaStatus.OnFail` | static/mocha-setup.js:14 | `fail` adds one to `failed` and changes nothing else. |
| `MochaSetup.MochaStatus.OnEnd` | static/mocha-setup.js:15 | `end` sets `finished` and leaves both counters alone. |
| `MochaSetup.MochaStatus.Handle` | static/mocha-setup.js:12-15 | Each event runs the handler subscribed to it. |
| `MochaSetup.ReplayCounts` | static/mocha-setup.js:13-15 | After any event sequence, `completed` and `failed` are the numbers of `test end` and `fail` events. `finished` holds exactly when `end` occurred. |
| `MochaSetup.ReplayMonotone` | static/mocha-setup.js:13-15 | As events arrive, neither counter ever decreases, and once `finished` is true it stays true. |
| `MochaSetup.ReportedFailuresCountFails` | static/mocha-setup.js:14-15 | A failure count is reported exactly when `end` occurs. It equals the number of `fail` events before the first `end`. |
| `PageConsole.JsonValues` | src/hook-page-console.ts:11 | The argument values resolve exactly when every fetch succeeds. They are then the fetched values, one per argument, in argument order. |
| `PageConsole.Dispatch` | src/hook-page-console.ts:8-13 | A type outside the table produces no output. A listed type prints once through its table function with all argument values in order when every fetch succeeds. When some fetch rejects, and only then, the handler's promise rejects unhandled instead. |
| `PageConsole.TableShape` | src/hook-page-console.ts:17-38 | `clear` is not in the table. `log`, `warning` and `error` go to `log`, `warn` and `error`. The three group types go to `group`, `groupCollapsed` and `groupEnd`. No two types name the same `console` property. |
| `PageConsole.ClearIsDropped` | src/hook-page-console.ts:36-37 | A `clear` message never reaches the terminal, whatever its arguments. |
| `PageConsole.NodeConsole.OnConsole` | src/hook-page-console.ts:8-13 | Handling one message adds at most one console call, namely the one `Dispatch` determines. |
| `Cli.CollectFiles` | src/cli.ts:30-35 | The nested loops collect every pattern's matches, pattern by pattern, without deduplication. |
| `Cli.FlattenAppend` | src/cli.ts:30-35 | Collecting over two runs of patterns is collecting each and concatenating, in order. |
| `Cli.FlattenMembers` | src/cli.ts:30-35 | A file is found exactly when some pattern matches it. |
| `Cli.DuplicatesKept` | src/cli.ts:30-35 | A pattern given twice contributes its matches twice. |
| `Cli.ResolveColors` | src/cli.ts:61 | An explicit colours option wins. Otherwise colour support of the environment decides. |
| `Cli.RunOptionsFor` | src/cli.ts:50-64 | Dev mode gives `keepOpen = true` and `{ devtools: true }`. Otherwise `keepOpen` is unset and the launch options are `{}`. Colours are resolved. Reporter, UI and timeout pass through. No port is given. Without `-c`, or with an empty path, the webpack configuration is `{}`. Otherwise it is the loaded object, and a loaded function (reachable only in dev mode) contributes no fields. |
| `Cli.ListLines` | src/cli.ts:44-48 | The list has one `- <path>` line per found file, in order. |
| `Cli.CliProcess.PrintErrorAndExit` | src/cli.ts:67-73 | The message goes to standard error. Outside dev mode the process exits with code 1. In dev mode it keeps running. |
| `Cli.CliProcess.ListFiles` | src/cli.ts:44-48 | The loop prints exactly the listing lines. |
| `Cli.RunCli` | src/cli.ts:28-65 | The CLI's own output, exit code and `runTests` call are those of the specification `Transcript`. The page's relayed console output is not part of it. |
| `Cli.Report` | src/cli.ts:43-48 | The `Found <N> test files in <cwd>` line comes first, then the listing when asked for. |
| `Cli.Configure` | src/cli.ts:53-55 | A configuration that is a function is reported as an error before any run. |
| `Cli.Start` | src/cli.ts:57-65 | The run is started with the derived options. A rejection is printed and handled by `printErrorAndExit`. |
| `Cli.MissingFilesExit` | src/cli.ts:37-41 | With no files found, outside dev mode, the last line is `Cannot find any test files`. The exit code is 1 and `runTests` is never called. |
| `Cli.DevModeContinuesPastErrors` | src/cli.ts:67-72 | In dev mode the missing-files error is printed, no exit happens, and a run starts with no test files. |
| `Cli.FunctionConfigRejected` | src/cli.ts:53-55 | Outside dev mode, a configuration that exports a function ends the CLI with code 1 before any run. |
| `Cli.FoundFilesReported` | src/cli.ts:43-48 | With files found, output begins with `Found <N> test files in <cwd>`, where N is the number found. With `--list-files`, one line per file follows in order. |
| `Cli.ExitCodeFollowsRun` | src/cli.ts:57-65 | Outside dev mode, once a run starts, the exit code is 1 exactly when the run rejects. The rejection reason is then the last line the CLI prints to standard error. |
| `Cli.DevModeNeverExits` | src/cli.ts:67-72 | In dev mode the CLI never calls `process.exit`. |

## Left out

- Webpack compilation, `webpack-dev-middleware`, express and the port fallback of `safeListeningHttpServer` are foreign libraries. The model takes their results as script inputs: whether `webpack(config)` throws, the build stats, and the bound port or the error. The only request recorded is the preferred port. A throw from `webpackDevMiddleware(...)` or `express()` itself is not modelled.
- Puppeteer launch, `browser.pages()`, navigation and `waitForFunction` polling are abstract steps. Launch, `pages()` and navigation either succeed or throw the scripted error. An empty page list, which makes `hookPageConsole(undefined)` throw, is the scripted `pages()` error. `waitForFunction` is taken never to time out, as `timeout: 0` asks.
- The race between the results and the `pageerror`/`error` listener is event-driven and concurrent. The script decides it: either a page error wins, or the runner's events reach the status object.
- `RunTests.CloseError`: which rejection `Promise.all` reports depends on timing. The model takes the first failing closable in tracking order.
- `RunTests.Script`: the model lets any of the three closes reject. `webpack-dev-middleware`'s `close(cb)` returns `undefined` and `http.Server#close` returns the server, so in the real program only `browser.close()` can reject `Promise.all`. The model over-approximates, and the timing tie-break above never arises there.
- `RunTests.WaitForTestResults`: the model reads `failed` at the moment `finished` first holds. The program reads it after `waitForFunction`'s next poll, so a `fail` event that mocha emits after `end` (an uncaught error after the run) can be counted there but never in the model.
- A `close()` that throws synchronously, and so stops `map` from calling the remaining closes, is not modelled. Every close is taken to return a promise.
- `stats.toString({ colors })` is a scripted text. Its dependence on `colors` is not modelled.
- The ANSI colouring that `chalk.red` adds to error messages is not modelled.
- Console message ordering: each `console` handler awaits its own `Promise.all` and nothing chains them. The model states per-message properties only.
- A rejected argument fetch becomes an unhandled rejection (`PageConsole.Delivery.Unhandled`). What the CLI's `unhandledRejection` handler then does is not composed with the run.
- Dialog dismissal is recorded only as part of attaching listeners.
- A page message type that names an inherited property of a plain object is not modelled. Such a lookup finds `toString` or `constructor` rather than nothing. Puppeteer never produces such types.
- Commander option parsing and its defaults are not modelled; the parsed values are inputs. Neither is `glob.sync` matching, which is an input function of the pattern.
- `--timeout` given on the command line reaches `runTests` as a string. The model types the timeout as a number.
- `process.exit`, `require` of the configuration file and `path.resolve` are not modelled. They become the exit code field and an input function. A `require` that throws is not modelled.
- Natural process exit after a resolved run (code 0) is not modelled. The model records explicit `process.exit` calls only.
- `MochaSetupPath` stands for the absolute path `require.resolve` returns. Webpack configuration fields other than `mode`, `entry` and `plugins` pass through untouched and are not represented.
- The key order of the entry object, and so the order of webpack's chunks, is not represented; Dafny maps are unordered.
- The `mocha.setup` call, static asset serving, and the naming mismatch between the injected `process.env.MOCHA_*` constants and the bootstrap's `mochaOptions` are not modelled.
- `RunConfig.GetEntryObject`: chunk values other than a path or an array of paths, and arrays whose members are not strings, are not represented. `null` is modelled by what spreading it contributes, since the model's entry map cannot hold `null`.
- `Cli.RunCli`: the lines the page's console relay prints, including the mocha reporter's output, are not in the transcript. Only the CLI's and `runTests`'s own lines are.
- `Cli.ExitCodeFollowsRun`: `console.error` of an `Error` rejection prints `Error: <message>` followed by a stack trace. This applies to the unsupported entry, a build error, a page error and most collaborator errors. The model prints the bare reason.
- `Cli.ExitCodeFollowsRun`: a `pageerror` that fires during `page.goto` rejects `failsOnPageError` before `Promise.race` subscribes to it. The CLI's `unhandledRejection` handler then prints it and, outside dev mode, exits with 1 before `finally` closes anything. In dev mode the error is printed twice. The model lets such an error win the race only after navigation.
