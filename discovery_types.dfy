/**
 * The asset-discovery records (src/discovery/mod.rs): the errors a discovery
 * step can report, a discovered host and the service found on one of its
 * ports, and the configuration a discovery run is given.
 */
module DiscoveryTypes {
  import opened Wrappers

  /** Rust's `u16`, the type of a port number. */
  type Port = p: int | 0 <= p < 0x1_0000

  /** The value of a 32-bit IPv4 address. */
  type V4Bits = b: int | 0 <= b < 0x1_0000_0000

  /** The value of a 128-bit IPv6 address. */
  type V6Bits = b: int | 0 <= b < 0x1_0000_0000_0000_0000_0000_0000_0000_0000

  /** `std::net::IpAddr`: an IPv4 or IPv6 address, as its 32- or 128-bit value. */
  datatype IpAddr =
    | V4(v4: V4Bits)
    | V6(v6: V6Bits)

  /** `DiscoveryError` */
  datatype DiscoveryError =
    | NetworkError(message: string)
    | TimeoutError
    | InvalidParameter(message: string)

  /** `ServiceInfo`: what was learned about the service on one open port. */
  datatype ServiceInfo = ServiceInfo(
    name: string,
    version: Option<string>,
    banner: Option<string>)

  /** `Host`: one discovered address and its open ports. */
  datatype Host = Host(
    ip: IpAddr,
    hostname: Option<string>,
    isAlive: bool,
    ports: map<Port, ServiceInfo>)

  /**
   * `DiscoveryConfig`. The port list arrives already parsed; the timeout and
   * the concurrency limit are carried but never read by the scanner.
   */
  datatype DiscoveryConfig = DiscoveryConfig(
    target: string,
    ports: seq<Port>,
    timeoutSecs: nat,
    concurrency: nat)
}
