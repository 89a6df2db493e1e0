/**
 * Command-line and file configuration (src/core/config.rs). The parsed
 * arguments and the outcome of reading a configuration file are inputs;
 * what is modelled is how they are layered into one `PocConfig`: defaults,
 * then the global arguments, then a configuration file (which replaces
 * everything built so far), then, under the `scan` subcommand, the
 * subcommand's own arguments.
 *
 * Reading a file is two oracles: `fromFile(path)` is the outcome of
 * `PocConfig::from_file` (its error is discarded by every caller, so only
 * whether it succeeded matters), and `loadYaml(path)` that of
 * `load_yaml_config`.
 */
module Config {
  import opened Wrappers
  import opened CoreTypes

  /** The shells `completion` can generate scripts for. */
  datatype Shell = Bash | Elvish | Fish | PowerShell | Zsh

  /** `Commands`: the subcommands and their arguments. */
  datatype Command =
    | Completion(shell: Shell)
    | Scan(target: Option<string>, ports: Option<string>, threads: nat, output: Option<string>,
           poc: Option<string>, verify: bool, exploit: bool, config: Option<string>)
    | Discover(target: Option<string>, file: Option<string>, ports: Option<string>, threads: nat,
               output: Option<string>)
    | List
    | Search(keyword: string)

  /** `Args`: the global arguments (`timeout` defaults to 30 on the command line). */
  datatype Args = Args(
    command: Option<Command>,
    target: Option<string>,
    timeout: U64,
    verify: bool,
    exploit: bool,
    poc: Option<string>,
    config: Option<string>,
    verbose: bool)

  /** The value of a `PocConfig` (this one's target is optional). */
  datatype Settings = Settings(
    target: Option<string>,
    timeout: U64,
    headers: map<string, string>,
    verify: bool,
    exploit: bool,
    pocName: Option<string>,
    plugins: seq<string>)

  /** `PocConfig::default()` */
  const DefaultSettings: Settings := Settings(None, 0, map[], false, false, None, [])

  /** `YamlConfig`: a configuration file in which every field may be absent. */
  datatype YamlConfig = YamlConfig(
    target: Option<string>,
    timeout: Option<U64>,
    headers: Option<map<string, string>>,
    verify: Option<bool>,
    exploit: Option<bool>,
    pocName: Option<string>,
    plugins: Option<seq<string>>)

  /** The timeout a configuration file gets when it does not give one. */
  const YamlDefaultTimeout: U64 := 30

  /**
   * The fallback conversion of a YAML file: a field the file gives is kept,
   * an absent one gets its default (timeout 30, modes off, no headers, no
   * plugins; target and POC name stay absent).
   */
  function FromYaml(yaml: YamlConfig): (s: Settings)
    ensures s.target == yaml.target && s.pocName == yaml.pocName
    ensures s.timeout == (if yaml.timeout.Some? then yaml.timeout.value else YamlDefaultTimeout)
    ensures yaml.headers.None? ==> s.headers == map[]
    ensures yaml.headers.Some? ==> s.headers == yaml.headers.value
    ensures s.verify <==> yaml.verify == Some(true)
    ensures s.exploit <==> yaml.exploit == Some(true)
    ensures yaml.plugins.None? ==> s.plugins == []
    ensures yaml.plugins.Some? ==> s.plugins == yaml.plugins.value
  {
    Settings(
      yaml.target,
      yaml.timeout.UnwrapOr(YamlDefaultTimeout),
      yaml.headers.UnwrapOr(map[]),
      yaml.verify.UnwrapOr(false),
      yaml.exploit.UnwrapOr(false),
      yaml.pocName,
      yaml.plugins.UnwrapOr([]))
  }

  /**
   * The configuration file at `path`: what `from_file` read, or when that
   * failed, what `load_yaml_config` read, converted by `FromYaml`; `None` when
   * both failed.
   */
  function LoadFileConfig(path: string, fromFile: string -> Option<Settings>, loadYaml: string -> Option<YamlConfig>): (loaded: Option<Settings>)
    ensures loaded.None? <==> fromFile(path).None? && loadYaml(path).None?
    ensures fromFile(path).Some? ==> loaded == fromFile(path)
    ensures fromFile(path).None? && loaded.Some? ==> loaded.value == FromYaml(loadYaml(path).value)
  {
    match fromFile(path)
    case Some(config) => Some(config)
    case None =>
      match loadYaml(path)
      case Some(yaml) => Some(FromYaml(yaml))
      case None => None
  }

  /**
   * `merge_with_args` on a value: the target and POC name are replaced when
   * the arguments give one, the timeout when the argument is positive, and
   * the two modes are switched on, never off. Headers and plugins are kept.
   */
  function Merged(c: Settings, args: Args): (m: Settings)
    ensures args.target.Some? ==> m.target == args.target
    ensures args.target.None? ==> m.target == c.target
    ensures args.poc.Some? ==> m.pocName == args.poc
    ensures args.poc.None? ==> m.pocName == c.pocName
    ensures args.timeout > 0 ==> m.timeout == args.timeout
    ensures args.timeout == 0 ==> m.timeout == c.timeout
    ensures m.verify <==> c.verify || args.verify
    ensures m.exploit <==> c.exploit || args.exploit
    ensures m.headers == c.headers && m.plugins == c.plugins
  {
    c.(target := if args.target.Some? then args.target else c.target,
       timeout := if args.timeout > 0 then args.timeout else c.timeout,
       verify := c.verify || args.verify,
       exploit := c.exploit || args.exploit,
       pocName := if args.poc.Some? then args.poc else c.pocName)
  }

  /** Merging the same arguments a second time changes nothing. */
  lemma MergeIdempotent(c: Settings, args: Args)
    ensures Merged(Merged(c, args), args) == Merged(c, args)
  {
  }

  /** `PocConfig`: a configuration whose fields the framework updates in place. */
  class PocConfig {
    var target: Option<string>
    var timeout: U64
    var headers: map<string, string>
    var verify: bool
    var exploit: bool
    var pocName: Option<string>
    var plugins: seq<string>

    /** The current field values. */
    function Value(): Settings
      reads this
    {
      Settings(target, timeout, headers, verify, exploit, pocName, plugins)
    }

    /** `PocConfig::default()` */
    constructor ()
      ensures Value() == DefaultSettings
    {
      target := None;
      timeout := 0;
      headers := map[];
      verify := false;
      exploit := false;
      pocName := None;
      plugins := [];
    }

    /** `config = file_cfg`: every field is replaced. */
    method Assign(v: Settings)
      modifies this
      ensures Value() == v
    {
      target := v.target;
      timeout := v.timeout;
      headers := v.headers;
      verify := v.verify;
      exploit := v.exploit;
      pocName := v.pocName;
      plugins := v.plugins;
    }

    /** `merge_with_args`, one field at a time. */
    method MergeWithArgs(args: Args)
      modifies this
      ensures Value() == Merged(old(Value()), args)
    {
      if args.target.Some? {
        target := args.target;
      }
      if args.timeout > 0 {
        timeout := args.timeout;
      }
      if args.verify {
        verify := true;
      }
      if args.exploit {
        exploit := true;
      }
      if args.poc.Some? {
        pocName := args.poc;
      }
    }
  }

  /** The configuration after a file at `path` (if any) has been tried: a loaded file replaces `base`. */
  function WithFile(base: Settings, path: Option<string>, fromFile: string -> Option<Settings>, loadYaml: string -> Option<YamlConfig>): Settings {
    if path.Some? && LoadFileConfig(path.value, fromFile, loadYaml).Some? then
      LoadFileConfig(path.value, fromFile, loadYaml).value
    else
      base
  }

  /** The `scan` subcommand's own arguments, applied last. */
  function WithScanArgs(c: Settings, scan: Command): Settings
    requires scan.Scan?
  {
    c.(target := if scan.target.Some? then scan.target else c.target,
       pocName := if scan.poc.Some? then scan.poc else c.pocName,
       verify := c.verify || scan.verify,
       exploit := c.exploit || scan.exploit)
  }

  /**
   * The configuration `ConfigManager::init` builds, layer by layer: the
   * global arguments merged into the defaults; then, under `scan`, the file
   * named by the subcommand or else the global one, and the subcommand's
   * arguments; under any other command, the global file.
   */
  function Initialized(args: Args, fromFile: string -> Option<Settings>, loadYaml: string -> Option<YamlConfig>): (s: Settings)
    ensures !(args.command.Some? && args.command.value.Scan?) ==>
              s == Merged(DefaultSettings, args) ||
              (args.config.Some? && LoadFileConfig(args.config.value, fromFile, loadYaml) == Some(s))
    ensures args.command.Some? && args.command.value.Scan? ==>
              (args.command.value.verify ==> s.verify) && (args.command.value.exploit ==> s.exploit)
  {
    var global := Merged(DefaultSettings, args);
    if args.command.Some? && args.command.value.Scan? then
      var scan := args.command.value;
      var path := if scan.config.Some? then scan.config else args.config;
      WithScanArgs(WithFile(global, path, fromFile, loadYaml), scan)
    else
      WithFile(global, args.config, fromFile, loadYaml)
  }

  /** Step 2 of `init`: the global arguments, in the order `init` applies them. */
  method ApplyGlobalArgs(config: PocConfig, args: Args)
    modifies config
    ensures config.Value() == Merged(old(config.Value()), args)
  {
    if args.target.Some? {
      config.target := args.target;
    }
    if args.poc.Some? {
      config.pocName := args.poc;
    }
    if args.verify {
      config.verify := true;
    }
    if args.exploit {
      config.exploit := true;
    }
    if args.timeout > 0 {
      config.timeout := args.timeout;
    }
  }

  /** The block `init` repeats for each configuration path: a file that loads replaces the configuration. */
  method LoadInto(config: PocConfig, path: string, fromFile: string -> Option<Settings>, loadYaml: string -> Option<YamlConfig>)
    modifies config
    ensures config.Value() == WithFile(old(config.Value()), Some(path), fromFile, loadYaml)
  {
    var fileConfig := LoadFileConfig(path, fromFile, loadYaml);
    if fileConfig.Some? {
      config.Assign(fileConfig.value);
    }
  }

  /** Step 3.3 of `init`: the `scan` subcommand's arguments. */
  method ApplyScanArgs(config: PocConfig, scan: Command)
    requires scan.Scan?
    modifies config
    ensures config.Value() == WithScanArgs(old(config.Value()), scan)
  {
    if scan.target.Some? {
      config.target := scan.target;
    }
    if scan.poc.Some? {
      config.pocName := scan.poc;
    }
    if scan.verify {
      config.verify := true;
    }
    if scan.exploit {
      config.exploit := true;
    }
  }

  /** `ConfigManager::init`, given the parsed arguments and the file oracles. */
  method Init(args: Args, fromFile: string -> Option<Settings>, loadYaml: string -> Option<YamlConfig>) returns (result: Settings)
    ensures result == Initialized(args, fromFile, loadYaml)
  {
    var config := new PocConfig();
    ApplyGlobalArgs(config, args);
    if args.command.Some? && args.command.value.Scan? {
      var scan := args.command.value;
      if scan.config.Some? {
        LoadInto(config, scan.config.value, fromFile, loadYaml);
      } else if args.config.Some? {
        LoadInto(config, args.config.value, fromFile, loadYaml);
      }
      ApplyScanArgs(config, scan);
    } else if args.config.Some? {
      LoadInto(config, args.config.value, fromFile, loadYaml);
    }
    result := config.Value();
  }

  /** Without a file that loads, the global arguments are merged into the defaults. */
  lemma InitWithoutFile(args: Args, fromFile: string -> Option<Settings>, loadYaml: string -> Option<YamlConfig>)
    requires args.command.None? || !args.command.value.Scan?
    requires args.config.None? || LoadFileConfig(args.config.value, fromFile, loadYaml).None?
    ensures Initialized(args, fromFile, loadYaml) == Merged(DefaultSettings, args)
  {
  }

  /**
   * Outside `scan`, a file that loads replaces everything: the global
   * target, POC name, modes and timeout are all discarded.
   */
  lemma InitFileReplacesGlobals(args: Args, fromFile: string -> Option<Settings>, loadYaml: string -> Option<YamlConfig>)
    requires args.command.None? || !args.command.value.Scan?
    requires args.config.Some? && LoadFileConfig(args.config.value, fromFile, loadYaml).Some?
    ensures Initialized(args, fromFile, loadYaml) == LoadFileConfig(args.config.value, fromFile, loadYaml).value
  {
  }

  /** Under `scan`, a configuration path given to the subcommand makes the global one irrelevant. */
  lemma ScanConfigPathWins(args: Args, other: Option<string>, fromFile: string -> Option<Settings>, loadYaml: string -> Option<YamlConfig>)
    requires args.command.Some? && args.command.value.Scan? && args.command.value.config.Some?
    ensures Initialized(args, fromFile, loadYaml) == Initialized(args.(config := other), fromFile, loadYaml)
  {
  }

  /**
   * Under `scan`, the file named by the subcommand, or else the global one, is
   * loaded; when it loads it replaces the global layer (and supplies the
   * headers, the plugins and every field the subcommand leaves unset), and
   * otherwise the global layer stays; the subcommand's arguments come last.
   */
  lemma ScanLoadsFile(args: Args, fromFile: string -> Option<Settings>, loadYaml: string -> Option<YamlConfig>)
    requires args.command.Some? && args.command.value.Scan?
    ensures var scan := args.command.value;
            var path := if scan.config.Some? then scan.config else args.config;
            if path.Some? && LoadFileConfig(path.value, fromFile, loadYaml).Some? then
              Initialized(args, fromFile, loadYaml) == WithScanArgs(LoadFileConfig(path.value, fromFile, loadYaml).value, scan)
            else
              Initialized(args, fromFile, loadYaml) == WithScanArgs(Merged(DefaultSettings, args), scan)
  {
  }

  /**
   * Under `scan`, the subcommand's target, POC name and modes win over both
   * the global arguments and the file.
   */
  lemma ScanArgsWin(args: Args, fromFile: string -> Option<Settings>, loadYaml: string -> Option<YamlConfig>)
    requires args.command.Some? && args.command.value.Scan?
    ensures var r := Initialized(args, fromFile, loadYaml);
            var scan := args.command.value;
            (scan.target.Some? ==> r.target == scan.target) &&
            (scan.poc.Some? ==> r.pocName == scan.poc) &&
            (scan.verify ==> r.verify) &&
            (scan.exploit ==> r.exploit)
  {
  }
}
