/**
  * The frontend logger's filter: a global configuration of a minimum level, a
  * whitelist of modules (or all of them) and a blacklist, and the functions
  * that change it. Console output, colours, timestamps and sending to the
  * backend are left out; only the decision whether a module logs is modelled.
  */
module Logging {
  import opened Wrappers

  /** `LogLevel`: a higher number is more severe. */
  const Debug: int := 0
  const InfoLevel: int := 1
  const Warn: int := 2
  const ErrorLevel: int := 3
  const NoneLevel: int := 999

  /** `LoggerConfig`; `enabledModules` is `None` for 'ALL'. */
  datatype Config = Config(
    level: int,
    enabledModules: Option<set<string>>,
    disabledModules: set<string>,
    useColors: bool,
    sendToBackend: bool,
    backendUrl: Option<string>)

  /** The configuration before any call: INFO and above, every module, none disabled. */
  const Default: Config := Config(InfoLevel, None, {}, true, false, None)

  /** `shouldLog(moduleName, level)` */
  predicate ShouldLog(c: Config, moduleName: string, level: int) {
    if level < c.level then false
    else if moduleName in c.disabledModules then false
    else if c.enabledModules.None? then true
    else moduleName in c.enabledModules.value
  }

  /** A module logs exactly when the level is high enough, it is not disabled, and it is whitelisted or all are. */
  lemma ShouldLogSpec(c: Config, moduleName: string, level: int)
    ensures ShouldLog(c, moduleName, level) <==>
      level >= c.level && moduleName !in c.disabledModules &&
      (c.enabledModules.None? || moduleName in c.enabledModules.value)
  {
  }

  /** A disabled module never logs, even when it is whitelisted. */
  lemma DisabledNeverLogs(c: Config, moduleName: string, level: int)
    requires moduleName in c.disabledModules
    ensures !ShouldLog(c, moduleName, level)
  {
  }

  /** The fields `configureLogger` is given; `None` is a field left out. */
  datatype Options = Options(
    level: Option<int>,
    enabledModules: Option<Option<set<string>>>,
    disabledModules: Option<set<string>>,
    useColors: Option<bool>,
    sendToBackend: Option<bool>,
    backendUrl: Option<string>)

  /** `configureLogger(options)`: each given field replaces the current one; the others stay. */
  function Configured(c: Config, o: Options): (r: Config)
    ensures o.level.None? ==> r.level == c.level
    ensures o.level.Some? ==> r.level == o.level.value
    ensures o.enabledModules.None? ==> r.enabledModules == c.enabledModules
    ensures o.enabledModules.Some? ==> r.enabledModules == o.enabledModules.value
    ensures o.disabledModules.None? ==> r.disabledModules == c.disabledModules
    ensures o.disabledModules.Some? ==> r.disabledModules == o.disabledModules.value
    ensures o.useColors.None? ==> r.useColors == c.useColors
    ensures o.sendToBackend.None? ==> r.sendToBackend == c.sendToBackend
    ensures o.backendUrl.None? ==> r.backendUrl == c.backendUrl
  {
    Config(
      o.level.GetOr(c.level),
      o.enabledModules.GetOr(c.enabledModules),
      o.disabledModules.GetOr(c.disabledModules),
      o.useColors.GetOr(c.useColors),
      o.sendToBackend.GetOr(c.sendToBackend),
      if o.backendUrl.Some? then o.backendUrl else c.backendUrl)
  }

  /** An empty set of options changes nothing. */
  lemma ConfigureNothing(c: Config)
    ensures Configured(c, Options(None, None, None, None, None, None)) == c
  {
  }

  /** The modules of an argument list. */
  function Elems(modules: seq<string>): set<string> {
    set m | m in modules
  }

  lemma ElemsSnoc(modules: seq<string>, m: string)
    ensures Elems(modules + [m]) == Elems(modules) + {m}
  {
  }

  /** `disableAllLogs()` */
  function AllDisabled(c: Config): Config {
    c.(level := NoneLevel)
  }

  /** After `disableAllLogs` no module logs at any of the levels DEBUG to ERROR. */
  lemma DisableAllSilences(c: Config, moduleName: string, level: int)
    requires Debug <= level <= ErrorLevel
    ensures !ShouldLog(AllDisabled(c), moduleName, level)
  {
  }

  /** `enableDebugFor(...modules)` */
  function DebugFor(c: Config, modules: seq<string>): Config {
    c.(level := Debug, enabledModules := Some(Elems(modules)))
  }

  /** After `enableDebugFor`, exactly the given modules log at every level, unless disabled. */
  lemma DebugForSpec(c: Config, modules: seq<string>, moduleName: string, level: int)
    requires level >= Debug
    ensures ShouldLog(DebugFor(c, modules), moduleName, level) <==>
      moduleName in modules && moduleName !in c.disabledModules
  {
  }

  /** `disableModules(...modules)` */
  function ModulesDisabled(c: Config, modules: seq<string>): Config {
    c.(disabledModules := c.disabledModules + Elems(modules))
  }

  /** `disableModules` only silences: a module that logs afterwards logged before, and the named ones no longer log. */
  lemma DisableModulesOnlySilences(c: Config, modules: seq<string>, moduleName: string, level: int)
    ensures ShouldLog(ModulesDisabled(c, modules), moduleName, level) ==> ShouldLog(c, moduleName, level)
    ensures moduleName in modules ==> !ShouldLog(ModulesDisabled(c, modules), moduleName, level)
  {
  }

  /** The global configuration object. */
  class Logger {
    var config: Config

    constructor ()
      ensures config == Default
    {
      config := Default;
    }

    method ConfigureLogger(o: Options)
      modifies this
      ensures config == Configured(old(config), o)
    {
      var c := config;
      var level := if o.level.Some? then o.level.value else c.level;
      var enabled := if o.enabledModules.Some? then o.enabledModules.value else c.enabledModules;
      var disabled := if o.disabledModules.Some? then o.disabledModules.value else c.disabledModules;
      var useColors := if o.useColors.Some? then o.useColors.value else c.useColors;
      var sendToBackend := if o.sendToBackend.Some? then o.sendToBackend.value else c.sendToBackend;
      var backendUrl := if o.backendUrl.Some? then o.backendUrl else c.backendUrl;
      config := Config(level, enabled, disabled, useColors, sendToBackend, backendUrl);
    }

    method DisableAllLogs()
      modifies this
      ensures config == AllDisabled(old(config))
    {
      config := config.(level := NoneLevel);
    }

    method EnableDebugFor(modules: seq<string>)
      modifies this
      ensures config == DebugFor(old(config), modules)
    {
      config := config.(level := Debug, enabledModules := Some(Elems(modules)));
    }

    /** Adds the modules one at a time, as the source's `forEach` does. */
    method DisableModules(modules: seq<string>)
      modifies this
      ensures config == ModulesDisabled(old(config), modules)
    {
      var i := 0;
      while i < |modules|
        invariant 0 <= i <= |modules|
        invariant config == ModulesDisabled(old(config), modules[..i])
      {
        assert modules[..i + 1] == modules[..i] + [modules[i]];
        ElemsSnoc(modules[..i], modules[i]);
        config := config.(disabledModules := config.disabledModules + {modules[i]});
        i := i + 1;
      }
      assert modules[..i] == modules;
    }

    /** `logger.<level>(...)` for a module: whether anything is written. */
    function Logs(moduleName: string, level: int): bool
      reads this
    {
      ShouldLog(config, moduleName, level)
    }
  }
}
