// Gateway configuration, the declarative firewall policy, and gateway health.
module Gateway {
  import opened Errors

  type Port = p: nat | p < 0x1_0000

  datatype NetworkMode = Tor | Vpn | Proxy

  datatype Ipv6Policy = Block | RouteThroughTunnel

  datatype GatewayConfig = GatewayConfig(mode: NetworkMode, ipv6: Ipv6Policy, downstreamCidr: string)

  datatype DefaultPolicy = DropByDefault | AcceptByDefault

  // Why a policy is not fail-closed.
  datatype Objection = OpenByDefault | DirectUdpAllowed | HostTrafficAllowed

  datatype FirewallPolicy = FirewallPolicy(
    defaultPolicy: DefaultPolicy,
    redirectDnsTo: Option<Port>,
    redirectTcpTo: Option<Port>,
    blockDirectUdp: bool,
    ipv6: Ipv6Policy,
    rejectHostInitiated: bool)
  {
    function Validate(): Option<Objection> {
      if defaultPolicy != DropByDefault then Some(OpenByDefault)
      else if !blockDirectUdp then Some(DirectUdpAllowed)
      else if !rejectHostInitiated then Some(HostTrafficAllowed)
      else None
    }

    predicate Validates() {
      Validate().None?
    }
  }

  function FailClosedPolicy(cfg: GatewayConfig): FirewallPolicy {
    var (dns, tcp) := if cfg.mode == Tor then (Some(5353), Some(9040)) else (None, None);
    FirewallPolicy(DropByDefault, dns, tcp, true, cfg.ipv6, true)
  }

  datatype TunnelState = Down | Connecting | Up | TunnelFailed

  datatype KillSwitch = Armed | Engaged

  datatype GatewayHealth = GatewayHealth(
    gatewayUp: bool, firewallApplied: bool, tunnel: TunnelState, killSwitch: KillSwitch)
  {
    predicate IsReady() {
      gatewayUp && firewallApplied && tunnel == Up && killSwitch == Armed
    }
  }
}
