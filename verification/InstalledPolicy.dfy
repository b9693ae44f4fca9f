// What the rules of the policy a session asks for do to packets, in terms of the network
// mode and IPv6 choice the session was started with.
module InstalledPolicy {
  import opened Gateway
  import opened Firewall

  predicate Known(ct: CtState) {
    ct == Established || ct == Related
  }

  predicate InSubnet(cidr: string, h: Header, inside: Meaning) {
    h.family == V4 && inside(cidr, h.source)
  }

  // Apart from known connections: nothing leaves through the forward chain but what the
  // subnet sends by other means than UDP, and, where IPv6 is routed, traffic between
  // link-local addresses; the gateway is reached only on loopback or from the subnet; and
  // it sends itself only on loopback or over IPv4.
  predicate Confined(rs: Ruleset, cidr: string, ipv6: Ipv6Policy, h: Header, ct: CtState, inside: Meaning) {
    !Known(ct) ==>
      && (HookVerdict(rs, Forward, h, ct, inside) == Accept <==>
            || (InSubnet(cidr, h, inside) && h.protocol != Udp)
            || (ipv6 == RouteThroughTunnel && IsLinkLocalPair(h)))
      && (HookVerdict(rs, Input, h, ct, inside) == Accept ==> h.inLoopback || InSubnet(cidr, h, inside))
      && (HookVerdict(rs, Output, h, ct, inside) == Accept ==> h.outLoopback || (h.family == V4 && ct == New))
  }

  // Name lookups and other TCP openings of the subnet go to two different ports of the
  // gateway, and are let in there.
  predicate Redirects(rs: Ruleset, cidr: string, dns: Port, tcp: Port, h: Header, inside: Meaning) {
    InSubnet(cidr, h, inside) ==>
      && ((h.protocol == Udp || h.protocol == Tcp) && h.port == 53 ==>
            && HookVerdict(rs, Prerouting, h, New, inside) == RedirectTo(dns)
            && HookVerdict(rs, Input, h.(port := dns), New, inside) == Accept)
      && (h.protocol == Tcp && h.syn && h.port != 53 ==>
            && HookVerdict(rs, Prerouting, h, New, inside) == RedirectTo(tcp)
            && HookVerdict(rs, Input, h.(port := tcp), New, inside) == Accept)
  }

  ghost predicate RedirectsAll(rs: Ruleset, cidr: string, dns: Port, tcp: Port) {
    dns != tcp && forall h, inside :: Redirects(rs, cidr, dns, tcp, h, inside)
  }

  ghost predicate Protects(rs: Ruleset, cidr: string, mode: NetworkMode, ipv6: Ipv6Policy) {
    && (forall h, ct, inside :: Confined(rs, cidr, ipv6, h, ct, inside))
    && (mode == Tor ==> exists dns: Port, tcp: Port :: RedirectsAll(rs, cidr, dns, tcp))
    && (mode != Tor ==> forall h, inside :: HookVerdict(rs, Prerouting, h, New, inside) == Accept)
  }

  lemma PolicyConfines(asked: GatewayConfig, cfg: GatewayConfig, h: Header, ct: CtState, inside: Meaning)
    ensures Confined(Compile(FailClosedPolicy(asked), cfg), cfg.downstreamCidr, asked.ipv6, h, ct, inside)
  {
    hide HookVerdict, Compile;
    var policy := FailClosedPolicy(asked);
    ForwardVerdict(policy, cfg, h, ct, inside);
    InputVerdict(policy, cfg, h, ct, inside);
    OutputVerdict(policy, cfg, h, ct, inside);
  }

  lemma PolicyRedirects(asked: GatewayConfig, cfg: GatewayConfig, h: Header, inside: Meaning)
    requires asked.mode == Tor
    ensures Redirects(Compile(FailClosedPolicy(asked), cfg), cfg.downstreamCidr, 5353, 9040, h, inside)
  {
    hide HookVerdict, Compile;
    var policy := FailClosedPolicy(asked);
    PreroutingVerdict(policy, cfg, h, New, inside);
    InputVerdict(policy, cfg, h.(port := 5353), New, inside);
    InputVerdict(policy, cfg, h.(port := 9040), New, inside);
  }

  lemma PolicyRedirectsNothing(asked: GatewayConfig, cfg: GatewayConfig, h: Header, inside: Meaning)
    requires asked.mode != Tor
    ensures HookVerdict(Compile(FailClosedPolicy(asked), cfg), Prerouting, h, New, inside) == Accept
  {
    hide HookVerdict, Compile;
    PreroutingVerdict(FailClosedPolicy(asked), cfg, h, New, inside);
  }

  // Whatever policy validates confines as much, by its own IPv6 choice.
  lemma ValidPolicyConfines(policy: FirewallPolicy, cfg: GatewayConfig, h: Header, ct: CtState, inside: Meaning)
    requires policy.Validates()
    ensures Confined(Compile(policy, cfg), cfg.downstreamCidr, policy.ipv6, h, ct, inside)
  {
    hide HookVerdict, Compile;
    ForwardVerdict(policy, cfg, h, ct, inside);
    InputVerdict(policy, cfg, h, ct, inside);
    OutputVerdict(policy, cfg, h, ct, inside);
  }

  // The policy made for one configuration protects by that configuration's mode and IPv6
  // choice, over the subnet of whatever configuration it is compiled under.
  lemma FailClosedProtects(asked: GatewayConfig, cfg: GatewayConfig)
    ensures Protects(Compile(FailClosedPolicy(asked), cfg), cfg.downstreamCidr, asked.mode, asked.ipv6)
  {
    hide HookVerdict, Compile, Confined, Redirects, FailClosedPolicy;
    var rs, cidr := Compile(FailClosedPolicy(asked), cfg), cfg.downstreamCidr;
    forall h, ct, inside ensures Confined(rs, cidr, asked.ipv6, h, ct, inside) {
      PolicyConfines(asked, cfg, h, ct, inside);
    }
    if asked.mode == Tor {
      forall h, inside ensures Redirects(rs, cidr, 5353, 9040, h, inside) {
        PolicyRedirects(asked, cfg, h, inside);
      }
      assert RedirectsAll(rs, cidr, 5353, 9040);
    } else {
      forall h, inside ensures HookVerdict(rs, Prerouting, h, New, inside) == Accept {
        PolicyRedirectsNothing(asked, cfg, h, inside);
      }
    }
  }
}
