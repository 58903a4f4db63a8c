/**
 * The configuration object of local-cli/util/Config.js: its defaults, the
 * shallow merge of a loaded `rn-cli.config.js` over them, and the entry
 * points `find`, `findWithPath`, `findOptional` and `loadFile`.
 */
module Config {
  import opened Wrappers
  import opened Paths
  import opened ConfigPath
  import opened Roots

  /**
   * A configuration field's value. Functions that only return a value are
   * `Thunk`s of that value; function values whose behaviour lies outside
   * this model (callbacks, collaborators' results) are `Opaque`, named.
   */
  datatype Value =
    | Null
    | Bool(b: bool)
    | Str(s: string)
    | List(items: seq<string>)
    | Obj(fields: map<string, Value>)
    | Thunk(result: Value)
    | Opaque(name: string)

  /** A configuration object: field name to value. */
  type ConfigT = map<string, Value>

  /** Everything the configuration code reads from outside itself. */
  datatype Host = Host(
    files: set<Path>,                                 // the paths for which fs.existsSync holds
    load: Path -> Result<ConfigT, string>,           // require(path): the exported object, or what it throws
    appRoot: Option<string>,                          // process.env.REACT_NATIVE_APP_ROOT
    dirname: Path,                                    // __dirname of Config.js
    resolvePath: string -> string,                   // path.resolve of a single path
    findSymlinkedModules: Finder,                     // ./findSymlinkedModules
    providesModuleNodeModules: seq<string>,           // metro-bundler's default list
    transformModulePath: string                       // require.resolve('metro-bundler/src/transformer.js')
  )

  /** An error the entry points raise. */
  datatype Error =
    | Invariant(message: string)   // a failed `invariant(...)`: no config file was found
    | LoadFailed(reason: string)   // what evaluating the config file threw, passed on unchanged

  /** The result of `findWithPath`. */
  datatype FoundConfig = FoundConfig(config: ConfigT, projectPath: Path)

  /** The names of the fields `DEFAULTS` defines. */
  const DefaultFieldNames: set<string> := {
    "extraNodeModules", "getAssetExts", "getBlacklistRE", "getEnableBabelRCLookup",
    "getPlatforms", "getPolyfillModuleNames", "getProjectRoots", "getProvidesModuleNodeModules",
    "getSourceExts", "getTransformModulePath", "getTransformOptions", "getPolyfills",
    "postMinifyProcess", "postProcessModules", "postProcessModulesForBuck",
    "postProcessBundleSourcemap", "transformVariants", "getWorkerPath"
  }

  /** The value `Config.DEFAULTS` gives a field. */
  function DefaultValue(field: string, host: Host): Value {
    match field
    case "extraNodeModules" => Obj(map[])
    case "getAssetExts" => Thunk(List([]))
    case "getBlacklistRE" => Thunk(Opaque("blacklist()"))
    case "getEnableBabelRCLookup" => Thunk(Bool(false))
    case "getPlatforms" => Thunk(List([]))
    case "getPolyfillModuleNames" => Thunk(List([]))
    case "getProjectRoots" =>
      Thunk(List(DefaultProjectRoots(host.appRoot, host.dirname, host.resolvePath, host.findSymlinkedModules)))
    case "getProvidesModuleNodeModules" => Thunk(List(host.providesModuleNodeModules))
    case "getSourceExts" => Thunk(List([]))
    case "getTransformModulePath" => Thunk(Str(host.transformModulePath))
    case "getTransformOptions" => Opaque("getTransformOptions")
    case "getPolyfills" => Opaque("getPolyfills")
    case "postMinifyProcess" => Opaque("postMinifyProcess")
    case "postProcessModules" => Opaque("postProcessModules")
    case "postProcessModulesForBuck" => Opaque("postProcessModulesForBuck")
    case "postProcessBundleSourcemap" => Opaque("postProcessBundleSourcemap")
    case "transformVariants" => Thunk(Obj(map["default" := Obj(map[])]))
    case "getWorkerPath" => Thunk(Null)
    case _ => Null
  }

  /** `Config.DEFAULTS`: one value for each of its fields. */
  function Defaults(host: Host): (d: ConfigT)
    ensures d.Keys == DefaultFieldNames
    ensures d["getProjectRoots"] == Thunk(List(DefaultProjectRoots(
      host.appRoot, host.dirname, host.resolvePath, host.findSymlinkedModules)))
    ensures d["getPlatforms"] == Thunk(List([]))
    ensures d["getWorkerPath"] == Thunk(Null)
  {
    map field | field in DefaultFieldNames :: DefaultValue(field, host)
  }

  /**
   * `{...defaults, ...overrides}`: every key of either object; a key the
   * overrides have takes their value whole, every other key keeps the default.
   */
  function ShallowMerge(defaults: ConfigT, overrides: ConfigT): (r: ConfigT)
    ensures r.Keys == defaults.Keys + overrides.Keys
    ensures forall k :: k in overrides ==> r[k] == overrides[k]
    ensures forall k :: k in defaults && k !in overrides ==> r[k] == defaults[k]
  {
    defaults + overrides
  }

  /** `Config.loadFile(pathToConfig)`: load the file and merge what it exports over `DEFAULTS`. */
  function LoadFile(pathToConfig: Path, host: Host): (r: Result<ConfigT, Error>)
    ensures host.load(pathToConfig).Failure? ==> r == Failure(LoadFailed(host.load(pathToConfig).error))
    ensures host.load(pathToConfig).Success? ==>
      r == Success(ShallowMerge(Defaults(host), host.load(pathToConfig).value))
  {
    match host.load(pathToConfig)
    case Failure(e) => Failure(LoadFailed(e))
    case Success(config) => Success(ShallowMerge(Defaults(host), config))
  }

  /** The message of the failed invariant: it names the file and the start directory. */
  function NotFoundMessage(startDir: string): (m: string)
    ensures IsInfix(RnCliConfig, m) && IsInfix(startDir, m)
  {
    InfixOfTemplate("Can't find \"", RnCliConfig, "\" file in any parent folder of \"", startDir, "\"");
    "Can't find \"" + RnCliConfig + "\" file in any parent folder of \"" + startDir + "\""
  }

  /** `t` occurs somewhere in `s`. */
  predicate IsInfix(t: string, s: string)
    decreases |s|
  {
    t <= s || (|s| > 0 && IsInfix(t, s[1..]))
  }

  /** A string occurs in any string built around it. */
  lemma {:induction false} InfixOf(a: string, t: string, b: string)
    ensures IsInfix(t, a + t + b)
    decreases |a|
  {
    if a == [] {
      assert a + t + b == t + b;
    } else {
      InfixOf(a[1..], t, b);
      assert (a + t + b)[1..] == a[1..] + t + b;
    }
  }

  /** Both values filled into a three-piece template occur in the result. */
  lemma InfixOfTemplate(a: string, t: string, b: string, u: string, c: string)
    ensures IsInfix(t, a + t + b + u + c) && IsInfix(u, a + t + b + u + c)
  {
    InfixOf(a, t, b + u + c);
    assert a + t + (b + u + c) == a + t + b + u + c;
    InfixOf(a + t + b, u, c);
  }

  /** `Config.findWithPath(startDir)`. */
  function FindWithPath(startDir: Path, host: Host): (r: Result<FoundConfig, Error>)
    ensures FindParentDirectory(startDir, RnCliConfig, host.files).None? ==>
      r == Failure(Invariant(NotFoundMessage(FullPath(startDir))))
    ensures r.Success? ==>
      && FindParentDirectory(startDir, RnCliConfig, host.files) == Some(r.value.projectPath)
      && host.load(r.value.projectPath + [RnCliConfig]).Success?
      && r.value.config == ShallowMerge(Defaults(host), host.load(r.value.projectPath + [RnCliConfig]).value)
    ensures FindParentDirectory(startDir, RnCliConfig, host.files).Some? ==>
      var d := FindParentDirectory(startDir, RnCliConfig, host.files).value;
      var loaded := host.load(d + [RnCliConfig]);
      && (loaded.Success? ==> r == Success(FoundConfig(ShallowMerge(Defaults(host), loaded.value), d)))
      && (loaded.Failure? ==> r == Failure(LoadFailed(loaded.error)))
  {
    match FindConfigPath(startDir, host.files)
    case None => Failure(Invariant(NotFoundMessage(FullPath(startDir))))
    case Some(configPath) =>
      var projectPath := Dirname(configPath);
      assert configPath == projectPath + [RnCliConfig];
      match LoadFile(configPath, host)
      case Failure(e) => Failure(e)
      case Success(config) => Success(FoundConfig(config, projectPath))
  }

  /** `Config.find(startDir)`: the configuration half of `findWithPath`. */
  function Find(startDir: Path, host: Host): (r: Result<ConfigT, Error>)
    ensures r.Success? <==> FindWithPath(startDir, host).Success?
    ensures r.Success? ==> r.value == FindWithPath(startDir, host).value.config
    ensures r.Failure? ==> r.error == FindWithPath(startDir, host).error
  {
    match FindWithPath(startDir, host)
    case Failure(e) => Failure(e)
    case Success(found) => Success(found.config)
  }

  /** `Config.findOptional(startDir)`: like `find`, but a missing file gives a copy of `DEFAULTS`. */
  function FindOptional(startDir: Path, host: Host): (r: Result<ConfigT, Error>)
    ensures FindConfigPath(startDir, host.files).None? ==> r == Success(Defaults(host))
  {
    match FindConfigPath(startDir, host.files)
    case None => Success(Defaults(host))
    case Some(configPath) => LoadFile(configPath, host)
  }

  /** Merging an empty object over the defaults gives the defaults. */
  lemma MergeEmpty(defaults: ConfigT)
    ensures ShallowMerge(defaults, map[]) == defaults
  {
  }

  /** A loaded configuration keeps every default field. */
  lemma LoadedKeepsDefaultFields(pathToConfig: Path, host: Host)
    requires host.load(pathToConfig).Success?
    ensures LoadFile(pathToConfig, host).Success?
    ensures DefaultFieldNames <= LoadFile(pathToConfig, host).value.Keys
  {
  }

  /**
   * No config file on the ancestor chain: `find` fails with the message that
   * names the file and the start directory, and `findOptional` gives the
   * defaults.
   */
  lemma NotFoundOutcomes(startDir: Path, host: Host)
    requires FindParentDirectory(startDir, RnCliConfig, host.files).None?
    ensures Find(startDir, host) == Failure(Invariant(NotFoundMessage(FullPath(startDir))))
    ensures FindOptional(startDir, host) == Success(Defaults(host))
  {
  }

  /** Whenever a config file is found, `findOptional` and `find` agree. */
  lemma FindOptionalAgreesWhenFound(startDir: Path, host: Host)
    requires FindParentDirectory(startDir, RnCliConfig, host.files).Some?
    ensures FindOptional(startDir, host) == Find(startDir, host)
  {
  }

  /**
   * The project path `findWithPath` reports is the nearest ancestor of the
   * start directory that holds `rn-cli.config.js`.
   */
  lemma ProjectPathIsNearestAncestor(startDir: Path, host: Host)
    requires Normalized(startDir)
    ensures var r := FindWithPath(startDir, host);
      r.Success? ==>
      var p := r.value.projectPath;
      && p <= startDir
      && HasFile(host.files, p, RnCliConfig)
      && forall k :: |p| < k <= |startDir| ==> !HasFile(host.files, startDir[..k], RnCliConfig)
  {
    FindParentDirectoryNearest(startDir, RnCliConfig, host.files);
  }
}
