/**
  * The site configuration loader. It picks a file under `deployments/` from
  * the SITE_CONFIG environment variable, falls back to the development file,
  * resolves the four configured paths against the project root and caches
  * the first configuration it loads. The filesystem and `JSON.parse` are a
  * map from paths to what reading and parsing them gives.
  */
module ConfigLoading {
  import opened Text
  import opened Wrappers
  import opened PosixPath

  /** The `paths` member of a configuration. */
  datatype ConfigPaths = ConfigPaths(content: string, database: string, logs: string, source: string)

  /**
    * A loaded configuration. `server` and `content` are passed through
    * untouched, so they are kept as the JSON text of those members.
    */
  datatype SiteConfig = SiteConfig(environment: string, paths: ConfigPaths, server: string, content: string)

  /** A path member as parsed: `None` when it is missing or not a string. */
  datatype RawPaths = RawPaths(content: Option<string>, database: Option<string>, logs: Option<string>, source: Option<string>)

  /** A parsed file before its paths are resolved; `paths` is `None` when the document has no `paths` object. */
  datatype RawConfig = RawConfig(environment: string, paths: Option<RawPaths>, server: string, content: string)

  /** What `readFileSync` followed by `JSON.parse` gives for a path. */
  datatype FileState = Unreadable | Unparsable | Parsed(config: RawConfig)

  type Files = map<Segments, FileState>

  /** The two ways `loadSiteConfig` throws. */
  datatype LoadError =
    | ConfigNotFound  // neither the chosen file nor the development file could be read and parsed
    | TypeError       // the parsed document lacks `paths`, or a path member is not a string

  datatype Outcome<T> = Threw(error: LoadError) | Done(value: T)

  // ---------------------------------------------------------------------------
  // File selection

  const DefaultFile: string := "site-config.json"
  const DevelopmentFile: string := "site-config.development.json"

  /** The file name SITE_CONFIG selects. */
  function ConfigFile(siteConfig: Option<string>): string {
    if siteConfig.Some? && siteConfig.value != "" then
      if EndsWith(siteConfig.value, ".json") then siteConfig.value
      else "site-config." + siteConfig.value + ".json"
    else DefaultFile
  }

  /**
    * A value ending in `.json` is used as it is, any other value X names
    * `site-config.X.json`, and an unset or empty variable `site-config.json`;
    * the chosen name always ends in `.json`.
    */
  lemma ConfigFileSpec(siteConfig: Option<string>)
    ensures var f := ConfigFile(siteConfig);
      EndsWith(f, ".json") &&
      (siteConfig.None? || siteConfig.value == "" ==> f == DefaultFile) &&
      (siteConfig.Some? && EndsWith(siteConfig.value, ".json") ==> f == siteConfig.value) &&
      (siteConfig.Some? && siteConfig.value != "" && !EndsWith(siteConfig.value, ".json") ==>
        StartsWith(f, "site-config.") && f[|"site-config."|..|f| - |".json"|] == siteConfig.value)
  {
    var f := ConfigFile(siteConfig);
    if siteConfig.Some? && siteConfig.value != "" && !EndsWith(siteConfig.value, ".json") {
      assert f == "site-config." + (siteConfig.value + ".json");
      assert f[|f| - |".json"|..] == ".json";
      assert f[|"site-config."|..|f| - |".json"|] == siteConfig.value;
    }
  }

  /** `resolve(__dirname, '../../../..')` for the directory the module runs from. */
  function ProjectRoot(moduleDir: Segments): (r: Segments)
    ensures Clean(r)
  {
    Normalize(moduleDir + ["..", "..", "..", ".."])
  }

  /** `join(projectRoot, 'deployments')` */
  function DeploymentsDir(root: Segments): Segments {
    root + ["deployments"]
  }

  /** `join(deploymentsDir, configFile)` */
  function ConfigPath(root: Segments, siteConfig: Option<string>): Segments {
    Normalize(DeploymentsDir(root) + SegmentsOf(ConfigFile(siteConfig)))
  }

  /** `join(deploymentsDir, 'site-config.development.json')` */
  function FallbackPath(root: Segments): Segments {
    Normalize(DeploymentsDir(root) + [DevelopmentFile])
  }

  function FileAt(files: Files, path: Segments): FileState {
    if path in files then files[path] else Unreadable
  }

  /** The two `try` blocks: the chosen file, else the development file, else an error. */
  function ReadConfig(files: Files, root: Segments, siteConfig: Option<string>): Outcome<RawConfig> {
    match FileAt(files, ConfigPath(root, siteConfig))
    case Parsed(c) => Done(c)
    case _ =>
      match FileAt(files, FallbackPath(root))
      case Parsed(c) => Done(c)
      case _ => Threw(ConfigNotFound)
  }

  /** The chosen file wins when it parses; the development file is read only when it does not; the error only when neither does. */
  lemma ReadConfigSpec(files: Files, root: Segments, siteConfig: Option<string>)
    ensures var r := ReadConfig(files, root, siteConfig);
      var primary := FileAt(files, ConfigPath(root, siteConfig));
      var fallback := FileAt(files, FallbackPath(root));
      (primary.Parsed? ==> r == Done(primary.config)) &&
      (!primary.Parsed? && fallback.Parsed? ==> r == Done(fallback.config)) &&
      (r == Threw(ConfigNotFound) <==> !primary.Parsed? && !fallback.Parsed?)
  {
  }

  // ---------------------------------------------------------------------------
  // Path resolution

  predicate IsLetter(c: char) {
    'A' <= c <= 'Z' || 'a' <= c <= 'z'
  }

  /** `/^[A-Z]:\\/i`: a drive letter, a colon and a backslash. */
  predicate DriveAbsolute(p: string) {
    |p| >= 3 && IsLetter(p[0]) && p[1] == ':' && p[2] == '\\'
  }

  /** Absolute in either notation. */
  predicate Absolute(p: string) {
    StartsWith(p, "/") || DriveAbsolute(p)
  }

  /** `resolvePath(configPath, projectRoot)` */
  function ResolvePath(p: string, root: Segments): string {
    if Absolute(p) then p else Render(Normalize(root + SegmentsOf(p)))
  }

  /** The result is absolute, and an absolute path comes back as it is. */
  lemma ResolvePathSpec(p: string, root: Segments)
    ensures Absolute(ResolvePath(p, root))
    ensures Absolute(p) ==> ResolvePath(p, root) == p
  {
  }

  /** Resolving again changes nothing, whatever root it is resolved against. */
  lemma ResolvePathIdempotent(p: string, root: Segments, root2: Segments)
    ensures ResolvePath(ResolvePath(p, root), root2) == ResolvePath(p, root)
  {
    ResolvePathSpec(p, root);
  }

  /** A relative path with no `..` segment resolves to a place under the project root. */
  lemma ResolvePathUnderRoot(p: string, root: Segments)
    requires Clean(root) && !Absolute(p)
    requires forall i :: 0 <= i < |SegmentsOf(p)| ==> SegmentsOf(p)[i] != ".."
    ensures StartsWith(ResolvePath(p, root), Render(root))
  {
    NormalizeKeepsRoot(root, SegmentsOf(p));
    RenderPrefix(root, Normalize(root + SegmentsOf(p)));
  }

  /** The four assignments `config.paths.X = resolvePath(config.paths.X, projectRoot)`. */
  function ResolveConfig(raw: RawConfig, root: Segments): Outcome<SiteConfig> {
    match raw.paths
    case None => Threw(TypeError)
    case Some(ps) =>
      if ps.content.None? || ps.database.None? || ps.logs.None? || ps.source.None? then Threw(TypeError)
      else
        var paths := ConfigPaths(ResolvePath(ps.content.value, root), ResolvePath(ps.database.value, root),
                                 ResolvePath(ps.logs.value, root), ResolvePath(ps.source.value, root));
        Done(SiteConfig(raw.environment, paths, raw.server, raw.content))
  }

  /** A configuration that loads has all four paths absolute; a document without usable paths throws rather than falling back. */
  lemma ResolveConfigSpec(raw: RawConfig, root: Segments)
    ensures var r := ResolveConfig(raw, root);
      (r == Threw(TypeError) <==>
        (raw.paths.None? ||
         raw.paths.value.content.None? || raw.paths.value.database.None? ||
         raw.paths.value.logs.None? || raw.paths.value.source.None?)) &&
      (r.Done? ==>
        Absolute(r.value.paths.content) && Absolute(r.value.paths.database) &&
        Absolute(r.value.paths.logs) && Absolute(r.value.paths.source) &&
        r.value.environment == raw.environment && r.value.server == raw.server && r.value.content == raw.content)
  {
    if raw.paths.Some? {
      var ps := raw.paths.value;
      if ps.content.Some? && ps.database.Some? && ps.logs.Some? && ps.source.Some? {
        ResolvePathSpec(ps.content.value, root);
        ResolvePathSpec(ps.database.value, root);
        ResolvePathSpec(ps.logs.value, root);
        ResolvePathSpec(ps.source.value, root);
      }
    }
  }

  /** A fresh load: read, then resolve. */
  function Load(files: Files, moduleDir: Segments, siteConfig: Option<string>): Outcome<SiteConfig> {
    var root := ProjectRoot(moduleDir);
    match ReadConfig(files, root, siteConfig)
    case Threw(e) => Threw(e)
    case Done(raw) => ResolveConfig(raw, root)
  }

  /** Loading a configuration whose paths are all absolute gives the same configuration from any module directory. */
  lemma LoadAbsoluteIgnoresRoot(files: Files, moduleDir: Segments, siteConfig: Option<string>)
    requires ReadConfig(files, ProjectRoot(moduleDir), siteConfig).Done?
    requires var raw := ReadConfig(files, ProjectRoot(moduleDir), siteConfig).value;
      raw.paths.Some? &&
      (forall p :: p in [raw.paths.value.content, raw.paths.value.database, raw.paths.value.logs, raw.paths.value.source] ==>
        p.Some? && Absolute(p.value))
    ensures var raw := ReadConfig(files, ProjectRoot(moduleDir), siteConfig).value;
      Load(files, moduleDir, siteConfig) ==
        Done(SiteConfig(raw.environment, ConfigPaths(raw.paths.value.content.value, raw.paths.value.database.value,
                                                     raw.paths.value.logs.value, raw.paths.value.source.value),
                        raw.server, raw.content))
  {
    var raw := ReadConfig(files, ProjectRoot(moduleDir), siteConfig).value;
    var ps := raw.paths.value;
    assert ps.content in [ps.content, ps.database, ps.logs, ps.source];
    assert ps.database in [ps.content, ps.database, ps.logs, ps.source];
    assert ps.logs in [ps.content, ps.database, ps.logs, ps.source];
    assert ps.source in [ps.content, ps.database, ps.logs, ps.source];
  }

  // ---------------------------------------------------------------------------
  // The module-level cache

  /** The keys of `SiteConfig`, for `getConfigValue`. */
  datatype ConfigKey = EnvironmentKey | PathsKey | ServerKey | ContentKey

  datatype ConfigValue = Setting(text: string) | Paths(paths: ConfigPaths)

  function ValueOf(config: SiteConfig, key: ConfigKey): ConfigValue {
    match key
    case EnvironmentKey => Setting(config.environment)
    case PathsKey => Paths(config.paths)
    case ServerKey => Setting(config.server)
    case ContentKey => Setting(config.content)
  }

  /** `cachedConfig` and the functions that use it. */
  class ConfigLoader {
    var cachedConfig: Option<SiteConfig>

    constructor ()
      ensures cachedConfig == None
    {
      cachedConfig := None;
    }

    /**
      * `loadSiteConfig()`: a cached configuration is returned without reading
      * anything; otherwise the configuration is loaded and cached when the
      * load succeeds.
      */
    method LoadSiteConfig(files: Files, moduleDir: Segments, siteConfig: Option<string>) returns (r: Outcome<SiteConfig>)
      modifies this
      ensures old(cachedConfig).Some? ==> r == Done(old(cachedConfig).value) && cachedConfig == old(cachedConfig)
      ensures old(cachedConfig).None? ==> r == Load(files, moduleDir, siteConfig)
      ensures old(cachedConfig).None? ==> cachedConfig == (if r.Done? then Some(r.value) else None)
    {
      if cachedConfig.Some? {
        return Done(cachedConfig.value);
      }
      var root := ProjectRoot(moduleDir);
      var raw: RawConfig;
      match FileAt(files, ConfigPath(root, siteConfig)) {
        case Parsed(c) =>
          raw := c;
        case _ =>
          match FileAt(files, FallbackPath(root)) {
            case Parsed(c) =>
              raw := c;
            case _ =>
              return Threw(ConfigNotFound);
          }
      }
      if raw.paths.None? {
        return Threw(TypeError);
      }
      var paths := raw.paths.value;
      if paths.content.None? {
        return Threw(TypeError);
      }
      var content := ResolvePath(paths.content.value, root);
      if paths.database.None? {
        return Threw(TypeError);
      }
      var database := ResolvePath(paths.database.value, root);
      if paths.logs.None? {
        return Threw(TypeError);
      }
      var logs := ResolvePath(paths.logs.value, root);
      if paths.source.None? {
        return Threw(TypeError);
      }
      var source := ResolvePath(paths.source.value, root);
      var config := SiteConfig(raw.environment, ConfigPaths(content, database, logs, source), raw.server, raw.content);
      cachedConfig := Some(config);
      r := Done(config);
    }

    /** `getConfigValue(key)`: one member of the (possibly cached) configuration. */
    method GetConfigValue(files: Files, moduleDir: Segments, siteConfig: Option<string>, key: ConfigKey)
      returns (r: Outcome<ConfigValue>)
      modifies this
      ensures var loaded := if old(cachedConfig).Some? then Done(old(cachedConfig).value) else Load(files, moduleDir, siteConfig);
        r == (if loaded.Done? then Done(ValueOf(loaded.value, key)) else Threw(loaded.error))
      ensures old(cachedConfig).Some? ==> cachedConfig == old(cachedConfig)
    {
      var config := LoadSiteConfig(files, moduleDir, siteConfig);
      if config.Threw? {
        return Threw(config.error);
      }
      r := Done(ValueOf(config.value, key));
    }

    /** `clearConfigCache()`: the next load reads the files again. */
    method ClearConfigCache()
      modifies this
      ensures cachedConfig == None
    {
      cachedConfig := None;
    }
  }

  /** Once a load succeeds, a second load returns the same configuration whatever the files then hold. */
  method LoadTwice(loader: ConfigLoader, files1: Files, files2: Files, moduleDir: Segments, siteConfig: Option<string>)
    returns (first: Outcome<SiteConfig>, second: Outcome<SiteConfig>)
    modifies loader
    ensures first.Done? ==> second == first
    ensures old(loader.cachedConfig).None? ==> first == Load(files1, moduleDir, siteConfig)
  {
    first := loader.LoadSiteConfig(files1, moduleDir, siteConfig);
    second := loader.LoadSiteConfig(files2, moduleDir, siteConfig);
  }
}
