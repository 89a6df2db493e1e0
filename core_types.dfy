/**
 * The framework's shared POC types (src/core/mod.rs): the error a plugin can
 * report, the per-target configuration a plugin runs with, and the result
 * record it produces. Also the descriptive record each plugin carries.
 */
module CoreTypes {
  import opened Wrappers

  /** Rust's `u64`. */
  type U64 = n: int | 0 <= n < 0x1_0000_0000_0000_0000

  /**
   * `PocError`. The two wrapped library errors (`reqwest::Error`,
   * `url::ParseError`) are represented by their message text.
   */
  datatype PocError =
    | RequestError(message: string)
    | UrlError(message: string)
    | ExecutionError(message: string)

  /** `core::PocConfig`: what one plugin run is given. */
  datatype PocConfig = PocConfig(
    target: string,
    timeout: U64,
    headers: map<string, string>,
    verify: bool,
    exploit: bool)

  /** `PocResult`: the outcome of one verify or exploit call. */
  datatype PocResult = PocResult(
    success: bool,
    name: string,
    target: string,
    details: Option<string>)

  /** `Severity`, declared identically by both plugins. */
  datatype Severity = Critical | High | Medium | Low | Info

  /** `VulnInfo`, declared identically by both plugins. */
  datatype VulnInfo = VulnInfo(
    cveId: Option<string>,
    cweId: Option<string>,
    name: string,
    description: string,
    severity: Severity,
    affectedVersions: seq<string>,
    references: seq<string>)
}
