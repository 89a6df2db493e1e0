/**
 * The Redis unauthorised-access POC plugin (src/pocs/redis/mod.rs). `verify`
 * opens a client for the target, connects and sends INFO; any reply means the
 * server accepted a command without a password. `exploit` runs `verify`
 * first, refuses unless it succeeded, and then opens a second session and
 * writes a fixed test key.
 *
 * The `redis` crate is not modelled: each session is an input that says at
 * which step it stopped (client construction, connection, command) with the
 * library's error text, or that the command was answered.
 */
module RedisPlugin {
  import opened Wrappers
  import opened CoreTypes

  /** How one Redis session went: the step that failed, or a reply. */
  datatype SessionOutcome =
    | OpenFailed(error: string)
    | ConnectFailed(error: string)
    | CommandFailed(error: string)
    | Replied

  const OpenErrorPrefix: string := "Failed to connect to Redis: "
  const ConnectErrorPrefix: string := "Failed to establish connection: "
  const CommandErrorPrefix: string := "Failed to execute command: "
  const WriteErrorPrefix: string := "Failed to write test data: "

  const VulnerableDetails: string := "目标Redis服务存在未授权访问漏洞"
  const NotVulnerableDetails: string := "目标Redis服务不存在未授权访问漏洞"
  const NotVulnerableMessage: string := "目标不存在漏洞"

  const TestKey: string := "pocsuite_test_key"
  const TestValue: string := "pocsuite_test_value"

  /** The details of a successful exploit: "成功写入测试数据: <key> = <value>". */
  const WrittenDetails: string := "成功写入测试数据: " + TestKey + " = " + TestValue

  /** The plugin's vulnerability record, fixed when the plugin is built. */
  const Info: VulnInfo := VulnInfo(
    None,
    Some("CWE-306"),
    "Redis Unauthorized Access Vulnerability",
    "Redis服务未配置访问密码，导致可以未经授权访问并操作Redis服务器。",
    High,
    ["All"],
    ["https://redis.io/topics/security"])

  /** `RedisPoc`: only its vulnerability record. */
  datatype RedisPoc = RedisPoc(info: VulnInfo)

  /** `RedisPoc::new` */
  function New(): (poc: RedisPoc)
    ensures poc.info == Info
  {
    RedisPoc(Info)
  }

  /** `get_name`: the name in the plugin's record, fixed by `New`. */
  function GetName(poc: RedisPoc): (name: string)
    ensures poc.info == Info ==> name == "Redis Unauthorized Access Vulnerability"
  {
    poc.info.name
  }

  /** `get_description`: the description in the plugin's record, fixed by `New`. */
  function GetDescription(poc: RedisPoc): (description: string)
    ensures poc.info == Info ==> description == "Redis服务未配置访问密码，导致可以未经授权访问并操作Redis服务器。"
  {
    poc.info.description
  }

  /** The error a failed session step is reported as, each step with its own prefix. */
  function SessionError(session: SessionOutcome, commandPrefix: string): (e: PocError)
    requires !session.Replied?
    ensures e.ExecutionError?
    ensures session.OpenFailed? ==> e.message == OpenErrorPrefix + session.error
    ensures session.ConnectFailed? ==> e.message == ConnectErrorPrefix + session.error
    ensures session.CommandFailed? ==> e.message == commandPrefix + session.error
  {
    match session
    case OpenFailed(error) => ExecutionError(OpenErrorPrefix + error)
    case ConnectFailed(error) => ExecutionError(ConnectErrorPrefix + error)
    case CommandFailed(error) => ExecutionError(commandPrefix + error)
  }

  /**
   * `check_unauthorized_access`: `Ok(true)` when INFO was answered, otherwise
   * the `ExecutionError` of the step that failed. It never yields `Ok(false)`.
   */
  function CheckUnauthorizedAccess(probe: SessionOutcome): (r: Result<bool, PocError>)
    ensures r.Ok? <==> probe.Replied?
    ensures r.Ok? ==> r.value
    ensures r.Err? ==> r.error.ExecutionError? && r.error == SessionError(probe, CommandErrorPrefix)
  {
    if probe.Replied? then Ok(true) else Err(SessionError(probe, CommandErrorPrefix))
  }

  /**
   * `verify`: a failed probe is passed on as the error; every result names
   * the plugin and the configured target and reports the vulnerability
   * present, so the "不存在" details are never produced.
   */
  function Verify(poc: RedisPoc, config: PocConfig, probe: SessionOutcome): (r: Result<PocResult, PocError>)
    ensures r.Err? <==> !probe.Replied?
    ensures r.Err? ==> r.error == SessionError(probe, CommandErrorPrefix)
    ensures r.Ok? ==> r.value.success && r.value.name == GetName(poc) && r.value.target == config.target
    ensures r.Ok? ==> r.value.details == Some(VulnerableDetails)
  {
    match CheckUnauthorizedAccess(probe)
    case Err(e) => Err(e)
    case Ok(isVulnerable) =>
      Ok(PocResult(isVulnerable, GetName(poc), config.target,
        Some(if isVulnerable then VulnerableDetails else NotVulnerableDetails)))
  }

  /**
   * `exploit`: passes on `verify`'s error and refuses when verification did
   * not succeed; otherwise the write session decides: a failed step is its
   * `ExecutionError` (a failed SET with "Failed to write test data: "), and
   * an answered SET is a successful result naming the test key and value.
   */
  function Exploit(poc: RedisPoc, config: PocConfig, probe: SessionOutcome, write: SessionOutcome): (r: Result<PocResult, PocError>)
    ensures r.Ok? <==> probe.Replied? && write.Replied?
    ensures !probe.Replied? ==> r == Verify(poc, config, probe)
    ensures probe.Replied? && !write.Replied? ==> r == Err(SessionError(write, WriteErrorPrefix))
    ensures r.Ok? ==> r.value == PocResult(true, GetName(poc), config.target, Some(WrittenDetails))
  {
    match Verify(poc, config, probe)
    case Err(e) => Err(e)
    case Ok(verified) =>
      if !verified.success then
        Err(ExecutionError(NotVulnerableMessage))
      else if !write.Replied? then
        Err(SessionError(write, WriteErrorPrefix))
      else
        Ok(PocResult(true, GetName(poc), config.target, Some(WrittenDetails)))
  }

  /**
   * The test key is written only after verification succeeded: while the
   * probe fails, the write session cannot influence the outcome.
   */
  lemma WriteOnlyAfterVerify(poc: RedisPoc, config: PocConfig, probe: SessionOutcome, write1: SessionOutcome, write2: SessionOutcome)
    requires Verify(poc, config, probe).Err? || !Verify(poc, config, probe).value.success
    ensures Exploit(poc, config, probe, write1) == Exploit(poc, config, probe, write2)
    ensures Exploit(poc, config, probe, write1).Err?
  {
  }
}
