# pocsuite-rs core, modelled in Dafny

pocsuite-rs is a vulnerability-testing toolkit. It discovers live hosts and
their open services on a network, and it runs proof-of-concept (POC) plugins
against a target in two modes: verify (detect only) and exploit. This project
models the logic of that toolkit and proves properties of it. The network,
HTTP, Redis and file I/O it relies on are not modelled; their outcomes are
inputs.

- **Service fingerprinting** (`Service`, over the string helpers in `Text`):
  - The port table names the service.
  - Version parsers read SSH, HTTP, MySQL and Redis banners.
  - They are modelled on Rust's own `starts_with`, `contains`, `trim`,
    `split_whitespace` and `lines`. Whitespace is the Unicode White_Space
    property, as in `char::is_whitespace`.
- **Discovery** (`Scanner`): the loop over the addresses of a parsed network.
  - The liveness probe is a connect to port 80.
  - Ports are scanned into a map.
  - The scanner's own placeholder `identify_service` always names a port
    `unknown_<port>`.
- **POC plugins** (`ExamplePlugin`, `RedisPlugin`): `verify` and `exploit`,
  with the exploit gated on a successful verification.
- **POC registry** (`Registry`): a class holding a name→plugin map.
- **POC manager** (`Manager`): a stub registry with `list` and a
  substring `search`.
- **Configuration layering** (`Config`):
  1. defaults;
  2. global command-line arguments;
  3. a configuration file, which replaces everything;
  4. the `scan` subcommand's arguments.
- **Result table** (`ResultTable`): an append-only list of results and the
  rows that `display` prints.

The shared records (`PocError`, `PocConfig`, `PocResult`, `VulnInfo`) are in
`CoreTypes`. The discovery records (`Host`, `ServiceInfo`, `DiscoveryError`,
`DiscoveryConfig`) are in `DiscoveryTypes`.

## How the environment is represented

- **Connect probe:** a connect attempt within the timeout is the function
  `open(ip, port)`.
- **Network parsing:** parsing the target with the `ipnetwork` crate is
  `parseNetwork(target)`. It returns an error message or the network's
  addresses in iteration order.
- **Banner:** the banner read before fingerprinting is an input of type
  `Result<Option<string>, DiscoveryError>`. That is a network error, no bytes,
  or the decoded text.
- **HTTP GET:** the example plugin's request is an `HttpOutcome`: a response
  status, or a transport failure with its message.
- **Redis sessions:** each Redis session is a `SessionOutcome`. It says whether
  client construction, the connection or the command failed (with the error
  text), or whether the command was answered.
- **Configuration files:** `PocConfig::from_file` is the oracle `fromFile`.
  Only success matters, because callers discard its error. `load_yaml_config`
  is the oracle `loadYaml`.
- **Plugin type:** the plugin trait object in the registry is the closed
  datatype `Registry.Plugin`, which holds one of the two shipped plugins.
- **Probe consistency:** within one scan, every probe of the same address
  and port is assumed to give the same answer. The liveness probe of port 80
  and a later scan probe of port 80 are separate connects in the code, and
  the model does not capture them disagreeing.

What the code does and does not do:

- The code has no target-range or port-list parser. Ports arrive already
  parsed, and the network comes from `ipnetwork`.
- Scanning is sequential, so hosts come out in the network's order.
- No code runs a plugin over several targets.
- `lines` keeps a last line that has no line feed whole, including a bare
  trailing '\r'. A banner cut off by the read buffer can end this way, and
  then the HTTP version ends in '\r'.

## Model

| member | source | states |
|---|---|---|
| Text.Contains | src/discovery/service.rs:89 | `contains` is true exactly when the pattern occurs at some position of the text |
| Text.StartsWith | src/discovery/service.rs:70-81 | `starts_with` is true exactly when the text is the prefix followed by something |
| Text.ContainsEmpty | src/pocs/manager.rs:42 | every name contains the empty keyword |
| Text.Trim | src/discovery/service.rs:90 | `trim` returns a slice of the text with only whitespace removed before and after it, and the slice neither starts nor ends with whitespace |
| Text.TrimKeepsOccurrence | src/discovery/service.rs:89-90 | trimming keeps an occurrence of a keyword that neither starts nor ends with whitespace |
| Text.SplitWhitespace | src/discovery/service.rs:71 | every token of `split_whitespace` is non-empty and contains no whitespace |
| Text.SplitWhitespaceKeepsText | src/discovery/service.rs:71 | the tokens, concatenated, are the text with its whitespace removed (nothing else is lost or added) |
| Text.SplitWhitespaceOfJoined | src/discovery/service.rs:71 | splitting tokens written with whitespace after each one gives back exactly those tokens |
| Text.SplitWhitespaceSkip | src/discovery/service.rs:71 | leading whitespace does not change the tokens |
| Text.SplitWhitespaceDropLeading | src/discovery/service.rs:71 | the tokens of a text are the tokens of the text without its leading whitespace |
| Text.SplitWhitespaceToken | src/discovery/service.rs:71 | a token followed by whitespace or by the end of the text is the first token |
| Text.StripCr | src/discovery/service.rs:81 | a line ending in a carriage return loses exactly that one; any other line is unchanged |
| Text.Lines | src/discovery/service.rs:81 | no line produced by `lines` contains a line feed |
| Text.LinesStep | src/discovery/service.rs:81 | a line ended by "\r\n" (or by "\n" when it does not end in "\r") is the first line, and the rest is split on its own |
| Text.LinesLast | src/discovery/service.rs:81 | a last line without a line feed comes out whole, a bare trailing carriage return included |
| Text.LinesOfJoinTerminated | src/discovery/service.rs:81 | `lines` of text written as "\r\n"-terminated (or "\n"-terminated, carriage-return-free) lines gives back exactly those lines |
| Text.Decimal | src/discovery/service.rs:57 | the rendering of a number is a non-empty run of digits without a leading zero |
| Text.DecimalRoundTrip | src/discovery/service.rs:57 | reading back the decimal rendering of a port gives the port |
| Text.DecimalInjective | src/discovery/service.rs:57 | distinct numbers have distinct renderings |
| Service.UnknownName | src/discovery/service.rs:57 | the name of an unlisted port starts with "unknown_" and the rest spells out the port number |
| Service.ServiceName | src/discovery/service.rs:47-58 | a port missing from the table is named `unknown_<port>` |
| Service.ListedNameIsNotUnknown | src/discovery/service.rs:47-56 | no name in the table looks like the name of an unlisted port |
| Service.ServiceNameDeterminesPort | src/discovery/service.rs:47-58 | two ports share a service name only when they are equal or are 80 and 443 |
| Service.VersionFor | src/discovery/service.rs:48-57 | ports 21, 23, 25, 5432, 27017 and unlisted ports get no version whatever the banner |
| Service.Identify | src/discovery/service.rs:43-65 | a banner read error is passed on unchanged; otherwise the name comes from the port, the version from the port's parser, and the banner is kept as read (an empty read gives no banner, not an error) |
| Service.ParseSshVersion | src/discovery/service.rs:68-76 | a version exists exactly when the banner starts with "SSH-" and has at least two whitespace-separated tokens; it is the second token |
| Service.SshVersionIsSecondToken | src/discovery/service.rs:68-76 | for "SSH-proto-software", whitespace and a comment, the parser returns the comment token, not the software version |
| Service.FindLineStartingWith | src/discovery/service.rs:81 | `find` returns nothing exactly when no line starts with the prefix, and otherwise the first line that does |
| Service.FindFirstLine | src/discovery/service.rs:81 | the first line starting with the prefix is the one found |
| Service.ParseHttpVersion | src/discovery/service.rs:79-84 | no version exactly when there is no banner or no line starts with "Server: "; otherwise the rest of the first such line, which holds no line feed |
| Service.HttpVersionOfFirstServerLine | src/discovery/service.rs:79-84 | when line k of the banner is its first line starting with "Server: ", the version is the rest of line k |
| Service.HttpVersionOfResponseHead | src/discovery/service.rs:79-84 | for a CRLF response head whose first "Server: " header is "Server: X", the version is X (without the carriage return) |
| Service.HttpVersionOfUnterminatedLine | src/discovery/service.rs:79-84 | for a banner that is one unterminated "Server: X" line, the version is X, a trailing carriage return included |
| Service.ParseByKeyword | src/discovery/service.rs:87-106 | a version exists exactly when the banner contains the keyword; it is the trimmed banner, which still contains the keyword |
| Service.ParseMysqlVersion | src/discovery/service.rs:87-95 | the trimmed banner exactly when the banner contains "mysql" (case-sensitive), else nothing |
| Service.ParseRedisVersion | src/discovery/service.rs:98-106 | the trimmed banner exactly when the banner contains "redis" (case-sensitive), else nothing |
| Scanner.IdentifyService | src/discovery/scanner.rs:80-87 | never fails; the service is `unknown_<port>` with no version and no banner |
| Scanner.CheckAlive | src/discovery/scanner.rs:59-63 | never fails; true exactly when port 80 accepts a connection |
| Scanner.ScanPorts | src/discovery/scanner.rs:65-78 | never fails; the map's keys are exactly the requested ports that accept a connection, each mapped to its `unknown_<port>` service |
| Scanner.OpenServicesUnique | src/discovery/scanner.rs:65-78 | a map whose keys are the open requested ports, each mapped to its `unknown_<port>` service, is the port map `scan_ports` builds |
| Scanner.AliveHosts | src/discovery/scanner.rs:41-53 | no more hosts than addresses; every host is a probed address that answered on port 80, is alive, has no hostname and carries its open-port map |
| Scanner.AliveHostsFollowAddresses | src/discovery/scanner.rs:41-53 | the hosts' addresses are exactly the addresses that answered the liveness probe, in the network's order |
| Scanner.AliveAddressHasHost | src/discovery/scanner.rs:43-52 | every address that answers the liveness probe gets a host |
| Scanner.AliveHostsDistinct | src/discovery/scanner.rs:41-53 | a network listing each address once yields each host once |
| Scanner.Discover | src/discovery/scanner.rs:33-57 | an unparsable target is an `InvalidParameter` error with the parser's message and is the only error; otherwise the hosts are those of `AliveHosts` |
| Sequences.SubsequenceMembers | src/pocs/manager.rs:40-43 | every element of a subsequence belongs to the whole |
| Sequences.SubsequenceLength | src/pocs/manager.rs:40-43 | a subsequence is no longer than the whole |
| ExamplePlugin.HttpGet | src/http/mod.rs:22-28 | a transport failure becomes `RequestError` with its message; a response is passed on |
| ExamplePlugin.IsSuccess | src/pocs/example/mod.rs:134 | `is_success` holds exactly for a status in the 2xx class |
| ExamplePlugin.StatusText | src/pocs/example/mod.rs:137-138 | the status text starts with digits that read back as the code, then a space and the canonical reason (or "<unknown status code>") |
| ExamplePlugin.New | src/pocs/example/mod.rs:65-81 | the plugin keeps the timeout and the fixed vulnerability record |
| ExamplePlugin.GetName | src/pocs/example/mod.rs:99-101 | the plugin's name is the name in its record, "Example Vulnerability" for the shipped record |
| ExamplePlugin.GetDescription | src/pocs/example/mod.rs:103-105 | the plugin's description is the one in its record, the fixed text for the shipped record |
| ExamplePlugin.NewPluginIdentity | src/pocs/example/mod.rs:65-81 | the name and description of a built plugin do not depend on the timeout it was built with |
| ExamplePlugin.CheckVersion | src/pocs/example/mod.rs:92-95 | always `Ok(true)` |
| ExamplePlugin.Verify | src/pocs/example/mod.rs:119-142 | fails exactly on a transport failure, with that `RequestError`; otherwise names the plugin and the configured target, succeeds exactly on a 2xx status, and its details give the status and the CVE id |
| ExamplePlugin.VerifyNeverReportsNotAffected | src/pocs/example/mod.rs:121-128 | the "目标版本不受影响" result is never produced |
| ExamplePlugin.Exploit | src/pocs/example/mod.rs:152-161 | never succeeds: passes on `verify`'s error, refuses with "目标不存在漏洞" when verification did not succeed, and otherwise reports the exploit as not implemented |
| ExamplePlugin.ExploitRefusesUnverifiedTarget | src/pocs/example/mod.rs:154-157 | a non-2xx target is refused with "目标不存在漏洞", and a transport failure with its request error |
| RedisPlugin.New | src/pocs/redis/mod.rs:42-56 | the plugin carries the fixed vulnerability record |
| RedisPlugin.GetName | src/pocs/redis/mod.rs:74-76 | the plugin's name is the name in its record, "Redis Unauthorized Access Vulnerability" for the shipped record |
| RedisPlugin.GetDescription | src/pocs/redis/mod.rs:78-80 | the plugin's description is the one in its record, the fixed text for the shipped record |
| RedisPlugin.SessionError | src/pocs/redis/mod.rs:60-69 | a failed step becomes an `ExecutionError` with that step's message prefix and the library's text |
| RedisPlugin.CheckUnauthorizedAccess | src/pocs/redis/mod.rs:59-70 | `Ok(true)` exactly when the command was answered, otherwise the failing step's `ExecutionError`; never `Ok(false)` |
| RedisPlugin.Verify | src/pocs/redis/mod.rs:85-99 | fails exactly when the probe fails, with its error; every result reports success, names the plugin and the configured target, and has the "存在" details |
| RedisPlugin.Exploit | src/pocs/redis/mod.rs:101-126 | succeeds exactly when both the probe and the write are answered; a failed probe gives `verify`'s error, and a failed write gives the write step's error ("Failed to write test data: " for SET); a success names the plugin, the target and the test key and value |
| RedisPlugin.WriteOnlyAfterVerify | src/pocs/redis/mod.rs:103-118 | unless verification succeeded, the write session cannot affect the outcome, which is an error |
| Registry.Name | src/pocs/mod.rs:30 | a plugin is registered under its `get_name`, which is the fixed name of each shipped plugin |
| Registry.ShippedPluginsDoNotCollide | src/pocs/mod.rs:28-31 | the two shipped plugins register under different names |
| Registry.PocRegistry.constructor | src/pocs/mod.rs:21-25 | a new registry is empty |
| Registry.PocRegistry.Register | src/pocs/mod.rs:28-31 | the plugin is stored under its name, replacing any earlier one; all other entries are unchanged |
| Registry.PocRegistry.Get | src/pocs/mod.rs:34-37 | nothing exactly when no plugin is registered under the name, otherwise that plugin; the registry is unchanged |
| Registry.PocRegistry.List | src/pocs/mod.rs:40-43 | every registered name exactly once (no duplicates, as many names as entries), in no particular order; the registry is unchanged |
| Registry.ListOfNewRegistry | src/pocs/mod.rs:21-25 | a new registry lists no names |
| Registry.RegisterThenGet | src/pocs/mod.rs:28-37 | after registering a plugin, looking up its name returns it |
| Registry.RegisterTwice | src/pocs/mod.rs:30 | a second plugin registered under an existing name replaces the first |
| Manager.InfosOf | src/pocs/manager.rs:28-37 | one entry per name, in the same order, each with type "未知" and description "暂无描述" |
| Manager.List | src/pocs/manager.rs:5-8 | exactly the entries for "example" and "redis", in that order |
| Manager.FilterByName | src/pocs/manager.rs:39-44 | the kept entries are exactly those whose name contains the keyword, and they form a subsequence of the input |
| Manager.Search | src/pocs/manager.rs:39-44 | exactly the listed entries whose name contains the keyword, in list order, none added |
| Manager.FilterKeepsMatching | src/pocs/manager.rs:42 | when every name matches, the filter keeps everything |
| Manager.FilterDropsMismatching | src/pocs/manager.rs:42 | when no name matches, the filter keeps nothing |
| Manager.FilterAppend | src/pocs/manager.rs:41-43 | filtering two lists one after the other equals filtering their concatenation, so order is kept |
| Manager.SearchEmptyKeyword | src/pocs/manager.rs:39-44 | `search("")` returns the whole list |
| Manager.SearchRedis | src/pocs/manager.rs:39-44 | `search("redis")` returns only the redis entry |
| Manager.SearchAddsNothing | src/pocs/manager.rs:39-44 | a search result is no longer than the list and holds only listed entries |
| Config.FromYaml | src/core/config.rs:203-211 | a field the YAML file gives is kept; an absent one becomes timeout 30, modes off, no headers or plugins |
| Config.LoadFileConfig | src/core/config.rs:201-212 | `from_file` is tried first and the YAML fallback only when it fails; nothing loads only when both fail |
| Config.Merged | src/core/config.rs:61-77 | target and POC name are replaced exactly when given, timeout exactly when positive, the modes only switched on, and headers and plugins kept |
| Config.MergeIdempotent | src/core/config.rs:61-77 | merging the same arguments twice changes nothing more |
| Config.PocConfig.constructor | src/core/config.rs:43-52 | the default configuration: no target, timeout 0, no headers, modes off, no POC name, no plugins |
| Config.PocConfig.Assign | src/core/config.rs:214-216 | a loaded configuration replaces every field |
| Config.PocConfig.MergeWithArgs | src/core/config.rs:61-77 | the updated fields are those of `Merged` |
| Config.ApplyGlobalArgs | src/core/config.rs:181-195 | the global-argument step of `init` has the same effect as `merge_with_args` |
| Config.LoadInto | src/core/config.rs:200-216 | a file that loads replaces the configuration; otherwise it is left untouched |
| Config.ApplyScanArgs | src/core/config.rs:237-249 | the scan subcommand's target and POC name replace when given, and its modes only switch on |
| Config.Initialized | src/core/config.rs:174-271 | outside `scan` the result is either the global arguments merged into the defaults or a loaded file; under `scan` its modes, when given, are switched on |
| Config.Init | src/core/config.rs:174-271 | the configuration is built by the layers defaults, global arguments, file, scan arguments |
| Config.InitWithoutFile | src/core/config.rs:174-271 | outside `scan`, with no file that loads, the result is the defaults merged with the global arguments |
| Config.InitFileReplacesGlobals | src/core/config.rs:250-268 | outside `scan`, a file that loads is the result: the global arguments are discarded |
| Config.ScanLoadsFile | src/core/config.rs:198-249 | under `scan`, the subcommand's file (else the global one) is loaded and, when it loads, replaces the global layer before the subcommand's arguments apply; otherwise the global layer stays |
| Config.ScanConfigPathWins | src/core/config.rs:198-235 | under `scan`, a subcommand configuration path makes the global path irrelevant |
| Config.ScanArgsWin | src/core/config.rs:237-249 | under `scan`, the subcommand's target, POC name and modes override both the file and the global arguments |
| ResultTable.StatusLabel | src/ui/table.rs:27-31 | "成功" exactly for success, "失败" exactly for failure |
| ResultTable.DetailsText | src/ui/table.rs:33 | the details, or "-" when there are none |
| ResultTable.RowOf | src/ui/table.rs:26-40 | a row shows the result's name and target, the success label exactly when it succeeded, and its details text |
| ResultTable.Rows | src/ui/table.rs:26-41 | one row per result, in order |
| ResultTable.RowsAppend | src/ui/table.rs:16-18 | appending a result appends its row and keeps the earlier rows |
| ResultTable.ResultTable.constructor | src/ui/table.rs:10-14 | a new table has no results |
| ResultTable.ResultTable.AddResult | src/ui/table.rs:16-18 | the result goes at the end; the length grows by one and earlier results are unchanged and in order |
| ResultTable.ResultTable.Display | src/ui/table.rs:20-42 | the printed rows are one per result, in insertion order |
| ResultTable.AddThenDisplay | src/ui/table.rs:16-42 | after `add_result`, `display` shows the earlier rows followed by the new one |

## Left out

- Network I/O is not modelled: the TCP connect, write and read in `get_banner`
  and `check_port`, and the tokio timeout. Their outcomes are inputs.
- Byte decoding is not modelled: `from_utf8_lossy` and the 1024-byte read
  buffer. The banner arrives as text.
- `ipnetwork` parsing and iteration are a foreign crate; they are the input
  `parseNetwork`.
- `Arc`, `RwLock` and async in the registry are not modelled; calls are
  sequential. `list` returns the keys in an arbitrary order, as a `HashMap`
  does.
- The `reqwest` client and the `redis` crate are unseen libraries. Their
  outcomes are inputs.
  - `HttpClient::new` panicking when the client cannot be built is not
    modelled.
  - `HttpClient::post` is unused by the plugins and is not modelled.
- Wrapped library errors (`reqwest::Error`, `url::ParseError`) are their
  message text. The `Display` prefixes of `PocError` are not modelled.
- The following are command-line and file plumbing, so only the layering on
  top of their results is modelled: clap parsing, `print_completions`, the
  serde and YAML readers, file reading in `from_file` and `load_yaml_config`,
  and `eprintln!`. `Args.verbose` and the `scan`/`discover` fields other than
  those `init` reads are carried unused, as in the code.
- `display` output is not modelled beyond the rows: the title, the `=` and `-`
  rules, column padding and colours.
- Terminal UI is not modelled: src/ui/mod.rs (banners, progress bars, random
  banner choice). The file helpers in src/utils/mod.rs, `main` and module
  wiring are not part of this model either.
- `DiscoveryConfig`'s timeout and concurrency are never read by the scanner.
- Both plugin files declare identical `VulnInfo` and `Severity` types. They are
  modelled once, in `CoreTypes`.
- Every probe in the scanner has a 2-second timeout; it is part of the oracle
  `open`.
- The `?` after `check_alive` and `scan_ports` in `discover` is not written
  out. Those contracts show neither call can fail, so the model reads their
  values directly.
- Text is a sequence of Unicode scalar values. Rust's byte offsets agree with
  character offsets here, because the only slice, after "Server: ", follows an
  ASCII prefix.
