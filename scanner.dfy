/**
 * The port scanner (src/discovery/scanner.rs): parse the target as a network,
 * keep every address whose liveness probe (a TCP connect to port 80)
 * succeeds, and record a service for every requested port that accepts a
 * connection.
 *
 * The network is not modelled: a connect attempt is the oracle
 * `open(ip, port)`, true exactly when the connection was accepted within the
 * timeout, and parsing the target with the `ipnetwork` crate is the oracle
 * `parseNetwork`, which yields an error or the addresses of the network in
 * iteration order.
 */
module Scanner {
  import opened Wrappers
  import opened DiscoveryTypes
  import opened Sequences
  import Service

  /** The outcome of `config.target.parse::<IpNetwork>()` followed by `iter()`. */
  datatype NetworkParse =
    | Unparsable(message: string)
    | Network(addresses: seq<IpAddr>)

  /** The port whose probe decides whether a host is alive. */
  const LivenessPort: Port := 80

  /**
   * The scanner's own `identify_service`: a placeholder that never reads a
   * banner and never fails. (It does not call `Service.Identify`.)
   */
  function IdentifyService(ip: IpAddr, port: Port): (r: Result<ServiceInfo, DiscoveryError>)
    ensures r.Ok? && r.value.version == None && r.value.banner == None
    ensures r.value.name == Service.UnknownName(port)
  {
    Ok(ServiceInfo(Service.UnknownName(port), None, None))
  }

  /** `check_alive`: the host answers on the liveness port; never an error. */
  function CheckAlive(open: (IpAddr, Port) -> bool, ip: IpAddr): (r: Result<bool, DiscoveryError>)
    ensures r.Ok? && (r.value <==> open(ip, LivenessPort))
  {
    Ok(open(ip, LivenessPort))
  }

  /** The service map `scan_ports` builds: one entry for each requested port that is open. */
  function OpenServices(open: (IpAddr, Port) -> bool, ip: IpAddr, ports: seq<Port>): map<Port, ServiceInfo> {
    map p | p in ports && open(ip, p) :: IdentifyService(ip, p).value
  }

  /** A map with the keys and values of `OpenServices` is `OpenServices`. */
  lemma OpenServicesUnique(open: (IpAddr, Port) -> bool, ip: IpAddr, ports: seq<Port>, m: map<Port, ServiceInfo>)
    requires forall p :: p in m <==> p in ports && open(ip, p)
    requires forall p :: p in m ==> m[p] == ServiceInfo(Service.UnknownName(p), None, None)
    ensures m == OpenServices(open, ip, ports)
  {
    var expected := OpenServices(open, ip, ports);
    assert m.Keys == expected.Keys;
    forall p | p in m
      ensures m[p] == expected[p]
    {
    }
  }

  /**
   * `scan_ports`: probes the requested ports in order and inserts the
   * identified service of each one that accepts a connection.
   */
  method ScanPorts(open: (IpAddr, Port) -> bool, ip: IpAddr, ports: seq<Port>)
    returns (r: Result<map<Port, ServiceInfo>, DiscoveryError>)
    ensures r.Ok?
    ensures forall p :: p in r.value <==> p in ports && open(ip, p)
    ensures forall p :: p in r.value ==> r.value[p] == ServiceInfo(Service.UnknownName(p), None, None)
    ensures r.value == OpenServices(open, ip, ports)
  {
    var openPorts: map<Port, ServiceInfo> := map[];
    for i := 0 to |ports|
      invariant forall p :: p in openPorts <==> p in ports[..i] && open(ip, p)
      invariant forall p :: p in openPorts ==> openPorts[p] == ServiceInfo(Service.UnknownName(p), None, None)
    {
      var port := ports[i];
      assert ports[..i + 1] == ports[..i] + [port];
      if open(ip, port) {
        var service := IdentifyService(ip, port);
        if service.Ok? {
          openPorts := openPorts[port := service.value];
        }
      }
    }
    assert ports[..|ports|] == ports;
    OpenServicesUnique(open, ip, ports, openPorts);
    r := Ok(openPorts);
  }

  /** The host `discover` records for an address that answered the liveness probe. */
  function AliveHost(open: (IpAddr, Port) -> bool, ip: IpAddr, ports: seq<Port>): Host {
    Host(ip, None, true, OpenServices(open, ip, ports))
  }

  /** The hosts `discover` emits for `addresses`, in the order they are visited. */
  function AliveHosts(open: (IpAddr, Port) -> bool, addresses: seq<IpAddr>, ports: seq<Port>): (hosts: seq<Host>)
    ensures |hosts| <= |addresses|
    ensures forall h :: h in hosts ==> h.ip in addresses && open(h.ip, LivenessPort)
    ensures forall h :: h in hosts ==> h.isAlive && h.hostname == None && h.ports == OpenServices(open, h.ip, ports)
  {
    if addresses == [] then []
    else
      var earlier := AliveHosts(open, addresses[..|addresses| - 1], ports);
      var ip := addresses[|addresses| - 1];
      if open(ip, LivenessPort) then earlier + [AliveHost(open, ip, ports)] else earlier
  }

  /** The addresses that answer the liveness probe, in order. */
  function AliveAddresses(open: (IpAddr, Port) -> bool, addresses: seq<IpAddr>): seq<IpAddr> {
    if addresses == [] then []
    else
      var earlier := AliveAddresses(open, addresses[..|addresses| - 1]);
      var ip := addresses[|addresses| - 1];
      if open(ip, LivenessPort) then earlier + [ip] else earlier
  }

  function Ips(hosts: seq<Host>): (ips: seq<IpAddr>)
    ensures |ips| == |hosts|
    ensures forall i :: 0 <= i < |hosts| ==> ips[i] == hosts[i].ip
  {
    seq(|hosts|, i requires 0 <= i < |hosts| => hosts[i].ip)
  }

  /**
   * The hosts are exactly the addresses that answer the liveness probe, in
   * the network's order, one host per such address visited.
   */
  lemma {:induction false} AliveHostsFollowAddresses(open: (IpAddr, Port) -> bool, addresses: seq<IpAddr>, ports: seq<Port>)
    ensures Ips(AliveHosts(open, addresses, ports)) == AliveAddresses(open, addresses)
  {
    if addresses != [] {
      var front := addresses[..|addresses| - 1];
      AliveHostsFollowAddresses(open, front, ports);
      var ip := addresses[|addresses| - 1];
      if open(ip, LivenessPort) {
        var earlier := AliveHosts(open, front, ports);
        assert Ips(earlier + [AliveHost(open, ip, ports)]) == Ips(earlier) + [ip];
      }
    }
  }

  /** Every address that answers the liveness probe gets a host. */
  lemma {:induction false} AliveAddressHasHost(open: (IpAddr, Port) -> bool, addresses: seq<IpAddr>, ports: seq<Port>, ip: IpAddr)
    requires ip in addresses && open(ip, LivenessPort)
    ensures AliveHost(open, ip, ports) in AliveHosts(open, addresses, ports)
  {
    var last := addresses[|addresses| - 1];
    if last != ip {
      var front := addresses[..|addresses| - 1];
      assert addresses == front + [last];
      AliveAddressHasHost(open, front, ports, ip);
    }
  }

  /** A network that lists each address once yields each host once. */
  lemma {:induction false} AliveHostsDistinct(open: (IpAddr, Port) -> bool, addresses: seq<IpAddr>, ports: seq<Port>)
    requires NoDuplicates(addresses)
    ensures NoDuplicates(Ips(AliveHosts(open, addresses, ports)))
  {
    if addresses != [] {
      var front := addresses[..|addresses| - 1];
      var ip := addresses[|addresses| - 1];
      AliveHostsDistinct(open, front, ports);
      var earlier := AliveHosts(open, front, ports);
      if open(ip, LivenessPort) {
        assert ip !in front;
        var hosts := earlier + [AliveHost(open, ip, ports)];
        forall i, j | 0 <= i < j < |hosts|
          ensures Ips(hosts)[i] != Ips(hosts)[j]
        {
          if j == |hosts| - 1 {
            assert hosts[i] in earlier;
          }
        }
      }
    }
  }

  /**
   * `discover`: a target that does not parse as a network is an
   * `InvalidParameter` error; otherwise the hosts that answer the liveness
   * probe, in the network's order, each with the services of its open
   * requested ports.
   */
  method Discover(open: (IpAddr, Port) -> bool, parseNetwork: string -> NetworkParse, config: DiscoveryConfig)
    returns (r: Result<seq<Host>, DiscoveryError>)
    ensures parseNetwork(config.target).Unparsable? <==> r.Err?
    ensures r.Err? ==> r.error == InvalidParameter(parseNetwork(config.target).message)
    ensures r.Ok? ==> r.value == AliveHosts(open, parseNetwork(config.target).addresses, config.ports)
  {
    var network := parseNetwork(config.target);
    if network.Unparsable? {
      return Err(InvalidParameter(network.message));
    }
    var addresses := network.addresses;
    var hosts: seq<Host> := [];
    for i := 0 to |addresses|
      invariant hosts == AliveHosts(open, addresses[..i], config.ports)
    {
      var ip := addresses[i];
      assert addresses[..i + 1][..i] == addresses[..i];
      // The code propagates an error of `check_alive` or `scan_ports` with
      // `?`; their contracts show that neither returns one.
      var alive := CheckAlive(open, ip);
      if alive.value {
        var ports := ScanPorts(open, ip, config.ports);
        hosts := hosts + [Host(ip, None, true, ports.value)];
      }
    }
    assert addresses[..|addresses|] == addresses;
    r := Ok(hosts);
  }
}
