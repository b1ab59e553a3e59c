/**
 * The webpack configuration `runTests` builds (src/run-tests.ts): the user's
 * entry normalised to an entry map, the two fixed chunks laid over it, and the
 * two plugins appended to the user's plugin list.
 */
module RunConfig {
  import opened Results
  import JsonText

  /** Where the bootstrap script lives; the source resolves it once, when the module loads. */
  const MochaSetupPath: string := "static/mocha-setup.js"

  /** What one named chunk of an entry map bundles. */
  datatype EntryValue = One(path: string) | Many(paths: seq<string>)

  type EntryMap = map<string, EntryValue>

  /** The primitive JavaScript values other than strings and `undefined`. */
  datatype Primitive = NumberValue | BooleanValue | SymbolValue | BigIntValue

  /** The shapes a webpack configuration's `entry` field can take. */
  datatype Entry =
    | Absent                     // `entry` is not set
    | Path(path: string)         // a string
    | Paths(paths: seq<string>)  // an array of strings
    | Chunks(chunks: EntryMap)   // an object of named chunks
    | Null                       // `null`, whose `typeof` is "object"
    | Producer                   // a function that produces one of the above
    | Scalar(kind: Primitive)    // a number, boolean, symbol or bigint

  /** JavaScript's `typeof` of each shape. */
  function TypeOf(entry: Entry): string {
    match entry
    case Absent => "undefined"
    case Path(_) => "string"
    case Paths(_) => "object"
    case Chunks(_) => "object"
    case Null => "object"
    case Producer => "function"
    case Scalar(NumberValue) => "number"
    case Scalar(BooleanValue) => "boolean"
    case Scalar(SymbolValue) => "symbol"
    case Scalar(BigIntValue) => "bigint"
  }

  /** The entries `getEntryObject` accepts: everything but a function or a non-string primitive. */
  predicate Supported(entry: Entry) {
    !entry.Producer? && !entry.Scalar?
  }

  function UnsupportedEntry(entryType: string): string {
    "Unsupported \"entry\" field type (" + entryType + ") in webpack configuration."
  }

  /**
   * `getEntryObject`: the chunks the user's entry contributes once spread into
   * the compiler entry, or the error it throws. `null` passes the `typeof`
   * check and is returned as is; spreading it contributes no chunk.
   */
  function GetEntryObject(entry: Entry): (r: Result<EntryMap>)
    ensures entry.Absent? || entry.Null? ==> r == Ok(map[])
    ensures entry.Path? ==> r == Ok(map["main" := One(entry.path)])
    ensures entry.Paths? ==> r == Ok(map["main" := Many(entry.paths)])
    ensures entry.Chunks? ==> r == Ok(entry.chunks)
    ensures r.Err? <==> !Supported(entry)
    ensures r.Err? ==> r.message == UnsupportedEntry(TypeOf(entry))
    ensures entry.Producer? ==> r == Err(UnsupportedEntry("function"))
  {
    // the parameter's default value `{}` stands in for an absent entry
    var e := if entry.Absent? then Chunks(map[]) else entry;
    match e
    case Path(p) => Ok(map["main" := One(p)])
    case Paths(ps) => Ok(map["main" := Many(ps)])
    case Chunks(m) => Ok(m)
    case Null => Ok(map[])
    case _ => Err(UnsupportedEntry(TypeOf(e)))
  }

  /** The `entry` handed to webpack: the user's chunks, then `mocha` and `units` written over them. */
  function CompilerEntry(user: Entry, testFiles: seq<string>): (r: Result<EntryMap>)
    ensures r.Err? <==> !Supported(user)
    ensures r.Err? ==> r == GetEntryObject(user)
    ensures r.Ok? ==> "mocha" in r.value && r.value["mocha"] == One(MochaSetupPath)
    ensures r.Ok? ==> "units" in r.value && r.value["units"] == Many(testFiles)
    ensures r.Ok? ==> r.value.Keys == GetEntryObject(user).value.Keys + {"mocha", "units"}
    ensures r.Ok? ==> forall name :: name in GetEntryObject(user).value && name != "mocha" && name != "units" ==>
                                       r.value[name] == GetEntryObject(user).value[name]
  {
    match GetEntryObject(user)
    case Err(e) => Err(e)
    case Ok(m) => Ok(m["mocha" := One(MochaSetupPath)]["units" := Many(testFiles)])
  }

  /** A value given to webpack's DefinePlugin: source text, or a raw boolean, number or `undefined`. */
  datatype Constant = Undefined | Code(source: string) | Flag(on: bool) | Number(n: int)

  datatype Plugin =
    | UserPlugin(name: string)
    | HtmlWebpackPlugin(filename: string, title: string, chunks: seq<string>)
    | DefinePlugin(definitions: map<string, map<string, Constant>>)

  /** Puppeteer launch options; only `devtools` is ever set by this program. */
  datatype LaunchOptions = LaunchOptions(devtools: Option<bool>)

  /** The parts of a user's webpack configuration that `runTests` reads; every other field passes through. */
  datatype WebpackConfig = WebpackConfig(mode: Option<string>, entry: Entry, plugins: Option<seq<Plugin>>)

  const EmptyConfig: WebpackConfig := WebpackConfig(None, Absent, None)

  /** `IRunTestsOptions`: every field is optional. */
  datatype RunOptions = RunOptions(
    preferredPort: Option<int>,
    puppeteerConfig: Option<LaunchOptions>,
    webpackConfig: Option<WebpackConfig>,
    keepOpen: Option<bool>,
    colors: Option<bool>,
    reporter: Option<string>,
    ui: Option<string>,
    timeout: Option<int>)

  /** The HTML page that loads the bootstrap chunk and the test chunk, and nothing else. */
  const HarnessPlugin: Plugin := HtmlWebpackPlugin("mocha.html", "mocha tests", ["mocha", "units"])

  /** `JSON.stringify` of an optional string: `undefined` stays `undefined`. */
  function Stringified(value: Option<string>): Constant {
    match value
    case None => Undefined
    case Some(s) => Code(JsonText.Stringify(s))
  }

  /** The `process.env` constants the bootstrap script reads. */
  function MochaConstants(options: RunOptions): map<string, Constant> {
    map[
      "MOCHA_UI" := Stringified(options.ui),
      "MOCHA_COLORS" := (match options.colors case None => Undefined case Some(b) => Flag(b)),
      "MOCHA_REPORTER" := Stringified(options.reporter),
      "MOCHA_TIMEOUT" := (match options.timeout case None => Undefined case Some(t) => Number(t))
    ]
  }

  /** `createPluginsConfig`: the user's plugins (none when unset) followed by the harness and the constants. */
  function CreatePluginsConfig(existing: Option<seq<Plugin>>, options: RunOptions): (plugins: seq<Plugin>)
    ensures var user := existing.GetOr([]);
      && |plugins| == |user| + 2
      && plugins[..|user|] == user
      && plugins[|user|] == HarnessPlugin
      && plugins[|user| + 1] == DefinePlugin(map["process.env" := MochaConstants(options)])
  {
    existing.GetOr([]) + [HarnessPlugin, DefinePlugin(map["process.env" := MochaConstants(options)])]
  }

  /** The configuration passed to `webpack(...)`. */
  datatype CompilerConfig = CompilerConfig(mode: string, entry: EntryMap, plugins: seq<Plugin>)

  /** `{ mode: 'development', ...webpackConfig, entry: ..., plugins: ... }`. */
  function CompilerConfigFor(user: WebpackConfig, testFiles: seq<string>, options: RunOptions): (r: Result<CompilerConfig>)
    ensures r.Err? <==> !Supported(user.entry)
    ensures r.Err? ==> r.message == GetEntryObject(user.entry).message
    ensures r.Ok? ==> r.value.mode == user.mode.GetOr("development")
    ensures r.Ok? ==> r.value.entry == CompilerEntry(user.entry, testFiles).value
    ensures r.Ok? ==> r.value.plugins == CreatePluginsConfig(user.plugins, options)
  {
    match CompilerEntry(user.entry, testFiles)
    case Err(e) => Err(e)
    case Ok(entry) => Ok(CompilerConfig(user.mode.GetOr("development"), entry, CreatePluginsConfig(user.plugins, options)))
  }

  /** How the bootstrap sees a constant that was meant to carry a string. */
  function ReadString(c: Constant): Option<string> {
    match c
    case Code(source) => JsonText.Parse(source)
    case _ => None
  }

  /** The UI and reporter names the bootstrap reads back are exactly the options given, `undefined` included. */
  lemma InjectedNamesReadBack(options: RunOptions)
    ensures ReadString(MochaConstants(options)["MOCHA_UI"]) == options.ui
    ensures ReadString(MochaConstants(options)["MOCHA_REPORTER"]) == options.reporter
  {
    if options.ui.Some? {
      JsonText.ParseStringify(options.ui.value);
    }
    if options.reporter.Some? {
      JsonText.ParseStringify(options.reporter.value);
    }
  }

  /** Colours and timeout are passed raw: a boolean and a number, or `undefined` when the option is unset. */
  lemma InjectedRawValues(options: RunOptions)
    ensures MochaConstants(options).Keys == {"MOCHA_UI", "MOCHA_COLORS", "MOCHA_REPORTER", "MOCHA_TIMEOUT"}
    ensures MochaConstants(options)["MOCHA_COLORS"] == if options.colors.Some? then Flag(options.colors.value) else Undefined
    ensures MochaConstants(options)["MOCHA_TIMEOUT"] == if options.timeout.Some? then Number(options.timeout.value) else Undefined
  {
  }

  /**
   * The harness page loads only chunks that the compiler entry defines, and they
   * are the bootstrap and the test files, whatever chunks the user configured.
   */
  lemma HarnessLoadsOnlyInjectedChunks(user: WebpackConfig, testFiles: seq<string>, options: RunOptions)
    requires CompilerConfigFor(user, testFiles, options).Ok?
    ensures var config := CompilerConfigFor(user, testFiles, options).value;
      && HarnessPlugin in config.plugins
      && (forall p :: p in config.plugins && p.HtmlWebpackPlugin? && p !in user.plugins.GetOr([]) ==> p == HarnessPlugin)
      && (forall chunk :: chunk in HarnessPlugin.chunks ==> chunk in config.entry)
      && config.entry[HarnessPlugin.chunks[0]] == One(MochaSetupPath)
      && config.entry[HarnessPlugin.chunks[1]] == Many(testFiles)
  {
    var config := CompilerConfigFor(user, testFiles, options).value;
    var existing := user.plugins.GetOr([]);
    assert config.plugins[|existing|] == HarnessPlugin;
    forall p | p in config.plugins && p.HtmlWebpackPlugin? && p !in existing
      ensures p == HarnessPlugin
    {
      var i :| 0 <= i < |config.plugins| && config.plugins[i] == p;
      if i < |existing| {
        assert config.plugins[..|existing|][i] == p;
      }
    }
  }
}
