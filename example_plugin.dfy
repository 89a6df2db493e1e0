/**
 * The example POC plugin (src/pocs/example/mod.rs): `verify` checks the
 * target's version (a stub that always says "affected") and then sends one
 * HTTP GET to the target; the vulnerability is reported present when the
 * response status is 2xx. `exploit` runs `verify` first and refuses unless it
 * succeeded; the exploit itself is not implemented and always refuses.
 *
 * The HTTP exchange (src/http/mod.rs) is an input: the status the server
 * answered with, or the transport failure that `reqwest` reported.
 */
module ExamplePlugin {
  import opened Wrappers
  import opened Text
  import opened CoreTypes

  /**
   * `reqwest::StatusCode`: a three-digit code and its canonical reason phrase,
   * if the code has one.
   */
  datatype StatusCode = StatusCode(code: int, canonicalReason: Option<string>)

  /** What the HTTP GET observed. */
  datatype HttpOutcome =
    | Responded(status: StatusCode)
    | TransportFailed(reason: string)

  /** `HttpClient::get`: a transport failure becomes `PocError::RequestError`. */
  function HttpGet(outcome: HttpOutcome): (r: Result<StatusCode, PocError>)
    ensures r.Ok? <==> outcome.Responded?
    ensures r.Ok? ==> r.value == outcome.status
    ensures r.Err? ==> r.error == RequestError(outcome.reason)
  {
    match outcome
    case Responded(status) => Ok(status)
    case TransportFailed(reason) => Err(RequestError(reason))
  }

  /** `StatusCode::is_success`: the code is in 200..=299, i.e. its class is 2xx. */
  function IsSuccess(status: StatusCode): (ok: bool)
    ensures ok <==> status.code / 100 == 2
  {
    200 <= status.code <= 299
  }

  /**
   * `Display` of a status code: "<code> <reason>", e.g. "200 OK". The leading
   * digits read back as the code, and the reason follows the first space.
   */
  function StatusText(status: StatusCode): (text: string)
    requires 100 <= status.code
    ensures var n := |Decimal(status.code)|;
            n < |text| && IsDigits(text[..n]) && DecimalValue(text[..n]) == status.code && text[n] == ' ' &&
            text[n + 1..] == status.canonicalReason.UnwrapOr("<unknown status code>")
  {
    var text := Decimal(status.code) + " " + status.canonicalReason.UnwrapOr("<unknown status code>");
    DecimalRoundTrip(status.code);
    assert text[..|Decimal(status.code)|] == Decimal(status.code);
    text
  }

  const NotAffectedDetails: string := "目标版本不受影响"
  const NotVulnerableMessage: string := "目标不存在漏洞"
  const NotImplementedMessage: string := "漏洞利用功能尚未实现"

  /** The plugin's vulnerability record, fixed when the plugin is built. */
  const Info: VulnInfo := VulnInfo(
    Some("CVE-2023-XXXXX"),
    Some("CWE-XXX"),
    "Example Vulnerability",
    "This is an example vulnerability for demonstration purposes.",
    High,
    ["1.0.0", "1.1.0"],
    ["https://example.com/advisory", "https://example.com/patch"])

  /** `ExamplePoc`: an HTTP client with a request timeout, and `Info`. */
  datatype ExamplePoc = ExamplePoc(timeout: U64, info: VulnInfo)

  /** `ExamplePoc::new` */
  function New(timeout: U64): (poc: ExamplePoc)
    ensures poc.timeout == timeout && poc.info == Info
  {
    ExamplePoc(timeout, Info)
  }

  /** `get_name`: the name in the plugin's record, "Example Vulnerability" for a plugin built by `New`. */
  function GetName(poc: ExamplePoc): (name: string)
    ensures poc.info == Info ==> name == "Example Vulnerability"
  {
    poc.info.name
  }

  /** `get_description`: the description in the plugin's record. */
  function GetDescription(poc: ExamplePoc): (description: string)
    ensures poc.info == Info ==> description == "This is an example vulnerability for demonstration purposes."
  {
    poc.info.description
  }

  /** The request timeout a plugin is built with does not change its name or description. */
  lemma NewPluginIdentity(t1: U64, t2: U64)
    ensures GetName(New(t1)) == GetName(New(t2))
    ensures GetDescription(New(t1)) == GetDescription(New(t2))
  {
  }

  /** `check_version`: a stub that reports every target as affected. */
  function CheckVersion(target: string): (r: Result<bool, PocError>)
    ensures r == Ok(true)
  {
    Ok(true)
  }

  /** The details of a verify call that reached the server. */
  function ResponseDetails(poc: ExamplePoc, status: StatusCode): string
    requires 100 <= status.code
  {
    "响应状态: " + StatusText(status) + ", CVE编号: " + poc.info.cveId.UnwrapOr("N/A")
  }

  /**
   * `verify`: a transport failure is passed on as the error; otherwise the
   * result names the plugin and the configured target, and succeeds exactly
   * when the status is 2xx. Because `check_version` always says "affected",
   * the "not affected" result is never produced.
   */
  function Verify(poc: ExamplePoc, config: PocConfig, http: HttpOutcome): (r: Result<PocResult, PocError>)
    requires http.Responded? ==> 100 <= http.status.code
    ensures r.Err? <==> http.TransportFailed?
    ensures r.Err? ==> r.error == RequestError(http.reason)
    ensures r.Ok? ==> r.value.name == GetName(poc) && r.value.target == config.target
    ensures r.Ok? ==> (r.value.success <==> IsSuccess(http.status))
    ensures r.Ok? ==> r.value.details == Some(ResponseDetails(poc, http.status))
  {
    match CheckVersion(config.target)
    case Err(e) => Err(e)
    case Ok(affected) =>
      if !affected then
        Ok(PocResult(false, GetName(poc), config.target, Some(NotAffectedDetails)))
      else
        match HttpGet(http)
        case Err(e) => Err(e)
        case Ok(status) =>
          Ok(PocResult(IsSuccess(status), GetName(poc), config.target, Some(ResponseDetails(poc, status))))
  }

  /** Since `check_version` always says "affected", `verify` never reports "目标版本不受影响". */
  lemma VerifyNeverReportsNotAffected(poc: ExamplePoc, config: PocConfig, http: HttpOutcome)
    requires http.Responded? ==> 100 <= http.status.code
    ensures Verify(poc, config, http).Ok? ==> Verify(poc, config, http).value.details != Some(NotAffectedDetails)
  {
    if http.Responded? {
      assert ResponseDetails(poc, http.status)[0] == '响';
    }
  }

  /**
   * `exploit`: runs `verify` first and passes on its error; refuses with
   * "目标不存在漏洞" when verification did not succeed; otherwise refuses with
   * "not implemented". It never returns a result.
   */
  function Exploit(poc: ExamplePoc, config: PocConfig, http: HttpOutcome): (r: Result<PocResult, PocError>)
    requires http.Responded? ==> 100 <= http.status.code
    ensures r.Err?
    ensures Verify(poc, config, http).Err? ==> r.error == Verify(poc, config, http).error
    ensures Verify(poc, config, http).Ok? && !Verify(poc, config, http).value.success ==>
              r.error == ExecutionError(NotVulnerableMessage)
    ensures Verify(poc, config, http).Ok? && Verify(poc, config, http).value.success ==>
              r.error == ExecutionError(NotImplementedMessage)
  {
    match Verify(poc, config, http)
    case Err(e) => Err(e)
    case Ok(verified) =>
      if !verified.success then
        Err(ExecutionError(NotVulnerableMessage))
      else
        Err(ExecutionError(NotImplementedMessage))
  }

  /**
   * A target whose server answers with a non-2xx status is refused with
   * "目标不存在漏洞", and a transport failure with the request error.
   */
  lemma ExploitRefusesUnverifiedTarget(poc: ExamplePoc, config: PocConfig, http: HttpOutcome)
    requires http.Responded? ==> 100 <= http.status.code
    requires !(http.Responded? && IsSuccess(http.status))
    ensures Exploit(poc, config, http).error ==
              if http.Responded? then ExecutionError(NotVulnerableMessage) else RequestError(http.reason)
  {
  }
}
