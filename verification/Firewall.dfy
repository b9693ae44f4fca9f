// The firewall compiler: a declarative policy becomes an ordered list of chains and
// rules, in the order the generated nftables script lists them.
module Firewall {
  import opened Errors
  import opened Gateway

  datatype Hook = Prerouting | Input | Forward | Output

  datatype Match =
    | SourceIn(cidr: string)      // ip saddr CIDR: an IPv4 source inside the CIDR
    | UdpTo(port: Port)           // udp dport
    | TcpTo(port: Port)           // tcp dport
    | TcpNotTo(port: Port)        // tcp dport !=
    | TcpSyn                      // tcp flags syn
    | EstablishedOrRelated        // ct state established,related
    | NewConnection               // ct state new
    | InLoopback                  // iif "lo"
    | OutLoopback                 // oif "lo"
    | FamilyV4                    // meta nfproto ipv4
    | FamilyV6                    // meta nfproto ipv6
    | ProtocolUdp                 // meta l4proto udp
    | LinkLocalPair               // ip6 saddr fe80::/10 ip6 daddr fe80::/10

  datatype Verdict = Accept | Drop | RejectProhibited | RedirectTo(port: Port)

  datatype Rule = Rule(matches: seq<Match>, verdict: Verdict)

  // Prerouting is the only nat chain; the others are filter chains.
  datatype Chain = Chain(hook: Hook, policy: Verdict, rules: seq<Rule>)

  type Ruleset = seq<Chain>

  // ---- the compiled form ------------------------------------------------

  function PreroutingRules(policy: FirewallPolicy, cidr: string): seq<Rule> {
    (match policy.redirectDnsTo
     case Some(dns) => [Rule([SourceIn(cidr), UdpTo(53)], RedirectTo(dns)),
                        Rule([SourceIn(cidr), TcpTo(53)], RedirectTo(dns))]
     case None => []) +
    (match policy.redirectTcpTo
     case Some(tcp) => [Rule([SourceIn(cidr), TcpSyn, TcpNotTo(53)], RedirectTo(tcp))]
     case None => [])
  }

  function InputRules(policy: FirewallPolicy, cidr: string): seq<Rule> {
    [Rule([EstablishedOrRelated], Accept), Rule([InLoopback], Accept)] +
    (match policy.redirectDnsTo
     case Some(dns) => [Rule([SourceIn(cidr), UdpTo(dns)], Accept), Rule([SourceIn(cidr), TcpTo(dns)], Accept)]
     case None => []) +
    (match policy.redirectTcpTo
     case Some(tcp) => [Rule([SourceIn(cidr), TcpTo(tcp)], Accept)]
     case None => []) +
    (if policy.rejectHostInitiated then [Rule([FamilyV4], RejectProhibited)] else [])
  }

  function ForwardRules(policy: FirewallPolicy, cidr: string): seq<Rule> {
    [Rule([EstablishedOrRelated], Accept)] +
    (match policy.ipv6
     case Block => [Rule([FamilyV6], Drop)]
     case RouteThroughTunnel => [Rule([LinkLocalPair], Accept)]) +
    (if policy.blockDirectUdp then [Rule([SourceIn(cidr), ProtocolUdp], Drop)] else []) +
    [Rule([SourceIn(cidr)], Accept)]
  }

  function OutputRules(policy: FirewallPolicy): seq<Rule> {
    [Rule([EstablishedOrRelated], Accept), Rule([OutLoopback], Accept)] +
    (match policy.ipv6
     case Block => [Rule([FamilyV6], Drop)]
     case RouteThroughTunnel => []) +
    [Rule([FamilyV4, NewConnection], Accept)]
  }

  function Compile(policy: FirewallPolicy, cfg: GatewayConfig): Ruleset {
    [Chain(Prerouting, Accept, PreroutingRules(policy, cfg.downstreamCidr)),
     Chain(Input, Drop, InputRules(policy, cfg.downstreamCidr)),
     Chain(Forward, Drop, ForwardRules(policy, cfg.downstreamCidr)),
     Chain(Output, Drop, OutputRules(policy))]
  }

  function KillSwitchRuleset(): Ruleset {
    [Chain(Input, Drop, []), Chain(Forward, Drop, []), Chain(Output, Drop, [])]
  }

  // ---- the renderers, appending to one buffer in source order -----------

  method RenderNftables(policy: FirewallPolicy, cfg: GatewayConfig) returns (out: Ruleset)
    ensures out == Compile(policy, cfg)
  {
    var cidr := cfg.downstreamCidr;
    var rules := [];
    if policy.redirectDnsTo.Some? {
      var dns := policy.redirectDnsTo.value;
      rules := rules + [Rule([SourceIn(cidr), UdpTo(53)], RedirectTo(dns))];
      rules := rules + [Rule([SourceIn(cidr), TcpTo(53)], RedirectTo(dns))];
    }
    if policy.redirectTcpTo.Some? {
      rules := rules + [Rule([SourceIn(cidr), TcpSyn, TcpNotTo(53)], RedirectTo(policy.redirectTcpTo.value))];
    }
    assert rules == PreroutingRules(policy, cidr);
    out := [Chain(Prerouting, Accept, rules)];

    rules := [Rule([EstablishedOrRelated], Accept)];
    rules := rules + [Rule([InLoopback], Accept)];
    if policy.redirectDnsTo.Some? {
      var dns := policy.redirectDnsTo.value;
      rules := rules + [Rule([SourceIn(cidr), UdpTo(dns)], Accept)];
      rules := rules + [Rule([SourceIn(cidr), TcpTo(dns)], Accept)];
    }
    if policy.redirectTcpTo.Some? {
      rules := rules + [Rule([SourceIn(cidr), TcpTo(policy.redirectTcpTo.value)], Accept)];
    }
    if policy.rejectHostInitiated {
      rules := rules + [Rule([FamilyV4], RejectProhibited)];
    }
    assert rules == InputRules(policy, cidr);
    out := out + [Chain(Input, Drop, rules)];

    rules := [Rule([EstablishedOrRelated], Accept)];
    match policy.ipv6 {
      case Block => rules := rules + [Rule([FamilyV6], Drop)];
      case RouteThroughTunnel => rules := rules + [Rule([LinkLocalPair], Accept)];
    }
    if policy.blockDirectUdp {
      rules := rules + [Rule([SourceIn(cidr), ProtocolUdp], Drop)];
    }
    rules := rules + [Rule([SourceIn(cidr)], Accept)];
    assert rules == ForwardRules(policy, cidr);
    out := out + [Chain(Forward, Drop, rules)];

    rules := [Rule([EstablishedOrRelated], Accept)];
    rules := rules + [Rule([OutLoopback], Accept)];
    match policy.ipv6 {
      case Block => rules := rules + [Rule([FamilyV6], Drop)];
      case RouteThroughTunnel =>
    }
    rules := rules + [Rule([FamilyV4, NewConnection], Accept)];
    assert rules == OutputRules(policy);
    out := out + [Chain(Output, Drop, rules)];
  }

  method RenderKillSwitch() returns (out: Ruleset)
    ensures out == KillSwitchRuleset()
  {
    var hooks := [Input, Forward, Output];
    out := [];
    for i := 0 to |hooks|
      invariant |out| == i
      invariant forall k | 0 <= k < i :: out[k] == Chain(hooks[k], Drop, [])
    {
      out := out + [Chain(hooks[i], Drop, [])];
    }
  }

  // ---- what a packet meets ----------------------------------------------

  datatype Family = V4 | V6
  datatype Protocol = Udp | Tcp | Icmp | OtherProtocol

  // `related` covers ICMP errors and expected connections; `invalid` is a packet
  // the connection tracker could not classify.
  datatype CtState = New | Established | Related | Invalid

  datatype Header = Header(
    family: Family,
    protocol: Protocol,
    source: nat,
    destination: nat,
    port: Port,
    syn: bool,
    inLoopback: bool,
    outLoopback: bool)

  // What a CIDR text denotes: the IPv4 addresses inside it.
  type Meaning = (string, nat) -> bool

  const LINK_LOCAL_PREFIX := 0x3fa
  const TWO_TO_THE_118 := 0x40_0000_0000_0000_0000_0000_0000_0000

  predicate LinkLocal(address: nat) {
    address / TWO_TO_THE_118 == LINK_LOCAL_PREFIX
  }

  predicate Matches(m: Match, h: Header, ct: CtState, inside: Meaning) {
    match m
    case SourceIn(cidr) => h.family == V4 && inside(cidr, h.source)
    case UdpTo(port) => h.protocol == Udp && h.port == port
    case TcpTo(port) => h.protocol == Tcp && h.port == port
    case TcpNotTo(port) => h.protocol == Tcp && h.port != port
    case TcpSyn => h.protocol == Tcp && h.syn
    case EstablishedOrRelated => ct == Established || ct == Related
    case NewConnection => ct == New
    case InLoopback => h.inLoopback
    case OutLoopback => h.outLoopback
    case FamilyV4 => h.family == V4
    case FamilyV6 => h.family == V6
    case ProtocolUdp => h.protocol == Udp
    case LinkLocalPair => h.family == V6 && LinkLocal(h.source) && LinkLocal(h.destination)
  }

  predicate AllMatch(ms: seq<Match>, h: Header, ct: CtState, inside: Meaning) {
    ms == [] || (Matches(ms[0], h, ct, inside) && AllMatch(ms[1..], h, ct, inside))
  }

  predicate Fires(r: Rule, h: Header, ct: CtState, inside: Meaning) {
    AllMatch(r.matches, h, ct, inside)
  }

  // The verdict of the first rule that fires, else the chain policy.
  function FirstVerdict(rules: seq<Rule>, policy: Verdict, h: Header, ct: CtState, inside: Meaning): Verdict {
    if rules == [] then policy
    else if Fires(rules[0], h, ct, inside) then rules[0].verdict
    else FirstVerdict(rules[1..], policy, h, ct, inside)
  }

  // A hook with no chain of this table lets the packet pass.
  function HookVerdict(rs: Ruleset, hook: Hook, h: Header, ct: CtState, inside: Meaning): Verdict {
    if rs == [] then Accept
    else if rs[0].hook == hook then FirstVerdict(rs[0].rules, rs[0].policy, h, ct, inside)
    else HookVerdict(rs[1..], hook, h, ct, inside)
  }

  lemma {:induction false} FirstVerdictAppend(a: seq<Rule>, b: seq<Rule>, policy: Verdict, h: Header, ct: CtState,
                                              inside: Meaning)
    ensures FirstVerdict(a + b, policy, h, ct, inside)
            == FirstVerdict(a, FirstVerdict(b, policy, h, ct, inside), h, ct, inside)
  {
    if a == [] {
      assert a + b == b;
    } else {
      FirstVerdictAppend(a[1..], b, policy, h, ct, inside);
      assert (a + b)[1..] == a[1..] + b;
    }
  }

  lemma AllMatchCons(m: Match, rest: seq<Match>, h: Header, ct: CtState, inside: Meaning)
    ensures AllMatch([m] + rest, h, ct, inside) == (Matches(m, h, ct, inside) && AllMatch(rest, h, ct, inside))
  {
    assert ([m] + rest)[1..] == rest;
  }

  lemma FiresEach(a: Match, b: Match, c: Match, v: Verdict, h: Header, ct: CtState, inside: Meaning)
    ensures Fires(Rule([a], v), h, ct, inside) == Matches(a, h, ct, inside)
    ensures Fires(Rule([a, b], v), h, ct, inside) == (Matches(a, h, ct, inside) && Matches(b, h, ct, inside))
    ensures Fires(Rule([a, b, c], v), h, ct, inside)
            == (Matches(a, h, ct, inside) && Matches(b, h, ct, inside) && Matches(c, h, ct, inside))
  {
    AllMatchCons(a, [], h, ct, inside);
    AllMatchCons(b, [], h, ct, inside);
    AllMatchCons(c, [], h, ct, inside);
    AllMatchCons(a, [b], h, ct, inside);
    AllMatchCons(b, [c], h, ct, inside);
    AllMatchCons(a, [b, c], h, ct, inside);
    assert [a] == [a] + [] && [b] == [b] + [] && [c] == [c] + [];
    assert [a, b] == [a] + [b] && [b, c] == [b] + [c] && [a, b, c] == [a] + [b, c];
  }

  // One rule in front of the rest of its chain.
  lemma FirstVerdictCons(r: Rule, rest: seq<Rule>, policy: Verdict, h: Header, ct: CtState, inside: Meaning)
    ensures FirstVerdict([r], policy, h, ct, inside) == if Fires(r, h, ct, inside) then r.verdict else policy
    ensures FirstVerdict([r] + rest, policy, h, ct, inside)
            == if Fires(r, h, ct, inside) then r.verdict else FirstVerdict(rest, policy, h, ct, inside)
  {
    FirstVerdictAppend([r], rest, policy, h, ct, inside);
    assert [r][1..] == [];
  }

  lemma NoRules(policy: Verdict, h: Header, ct: CtState, inside: Meaning)
    ensures FirstVerdict([], policy, h, ct, inside) == policy
  {}

  lemma TwoRules(r: Rule, r': Rule, policy: Verdict, h: Header, ct: CtState, inside: Meaning)
    ensures FirstVerdict([r, r'], policy, h, ct, inside)
            == if Fires(r, h, ct, inside) then r.verdict
               else if Fires(r', h, ct, inside) then r'.verdict else policy
  {
    assert [r, r'] == [r] + [r'];
    FirstVerdictCons(r, [r'], policy, h, ct, inside);
    FirstVerdictCons(r', [], policy, h, ct, inside);
  }

  // The only chain on a hook decides there.
  lemma {:induction false} HookAt(rs: Ruleset, k: nat, h: Header, ct: CtState, inside: Meaning)
    requires k < |rs| && forall j | 0 <= j < k :: rs[j].hook != rs[k].hook
    ensures HookVerdict(rs, rs[k].hook, h, ct, inside) == FirstVerdict(rs[k].rules, rs[k].policy, h, ct, inside)
  {
    if k > 0 {
      HookAt(rs[1..], k - 1, h, ct, inside);
    }
  }

  lemma {:induction false} HookUnused(rs: Ruleset, hook: Hook, h: Header, ct: CtState, inside: Meaning)
    requires forall c | c in rs :: c.hook != hook
    ensures HookVerdict(rs, hook, h, ct, inside) == Accept
  {
    if rs != [] {
      HookUnused(rs[1..], hook, h, ct, inside);
    }
  }

  lemma CompiledHooks(policy: FirewallPolicy, cfg: GatewayConfig, h: Header, ct: CtState, inside: Meaning)
    ensures HookVerdict(Compile(policy, cfg), Prerouting, h, ct, inside)
            == FirstVerdict(PreroutingRules(policy, cfg.downstreamCidr), Accept, h, ct, inside)
    ensures HookVerdict(Compile(policy, cfg), Input, h, ct, inside)
            == FirstVerdict(InputRules(policy, cfg.downstreamCidr), Drop, h, ct, inside)
    ensures HookVerdict(Compile(policy, cfg), Forward, h, ct, inside)
            == FirstVerdict(ForwardRules(policy, cfg.downstreamCidr), Drop, h, ct, inside)
    ensures HookVerdict(Compile(policy, cfg), Output, h, ct, inside)
            == FirstVerdict(OutputRules(policy), Drop, h, ct, inside)
  {
    var rs := Compile(policy, cfg);
    HookAt(rs, 0, h, ct, inside);
    HookAt(rs, 1, h, ct, inside);
    HookAt(rs, 2, h, ct, inside);
    HookAt(rs, 3, h, ct, inside);
  }

  // What the compiled chains decide, hook by hook.

  predicate FromSubnet(cfg: GatewayConfig, h: Header, inside: Meaning) {
    h.family == V4 && inside(cfg.downstreamCidr, h.source)
  }

  lemma PreroutingVerdict(policy: FirewallPolicy, cfg: GatewayConfig, h: Header, ct: CtState, inside: Meaning)
    ensures HookVerdict(Compile(policy, cfg), Prerouting, h, ct, inside) ==
            if !FromSubnet(cfg, h, inside) then Accept
            else if policy.redirectDnsTo.Some? && (h.protocol == Udp || h.protocol == Tcp) && h.port == 53
            then RedirectTo(policy.redirectDnsTo.value)
            else if policy.redirectTcpTo.Some? && h.protocol == Tcp && h.syn && h.port != 53
            then RedirectTo(policy.redirectTcpTo.value)
            else Accept
  {
    hide FirstVerdict, HookVerdict, Fires, Compile;
    NoRules(Accept, h, ct, inside);
    CompiledHooks(policy, cfg, h, ct, inside);
    var cidr := cfg.downstreamCidr;
    var dnsRules, tcpRules := [], [];
    if policy.redirectDnsTo.Some? {
      var v := RedirectTo(policy.redirectDnsTo.value);
      dnsRules := [Rule([SourceIn(cidr), UdpTo(53)], v), Rule([SourceIn(cidr), TcpTo(53)], v)];
      FiresEach(SourceIn(cidr), UdpTo(53), TcpSyn, v, h, ct, inside);
      FiresEach(SourceIn(cidr), TcpTo(53), TcpSyn, v, h, ct, inside);
      TwoRules(dnsRules[0], dnsRules[1], FirstVerdict(tcpRules, Accept, h, ct, inside), h, ct, inside);
    }
    if policy.redirectTcpTo.Some? {
      var v := RedirectTo(policy.redirectTcpTo.value);
      tcpRules := [Rule([SourceIn(cidr), TcpSyn, TcpNotTo(53)], v)];
      FiresEach(SourceIn(cidr), TcpSyn, TcpNotTo(53), v, h, ct, inside);
      FirstVerdictCons(tcpRules[0], [], Accept, h, ct, inside);
    }
    if policy.redirectDnsTo.Some? {
      TwoRules(dnsRules[0], dnsRules[1], FirstVerdict(tcpRules, Accept, h, ct, inside), h, ct, inside);
    }
    NoRules(FirstVerdict(tcpRules, Accept, h, ct, inside), h, ct, inside);
    assert PreroutingRules(policy, cidr) == dnsRules + tcpRules;
    FirstVerdictAppend(dnsRules, tcpRules, Accept, h, ct, inside);
  }

  predicate IsLinkLocalPair(h: Header) {
    h.family == V6 && LinkLocal(h.source) && LinkLocal(h.destination)
  }

  // What may leave through the forward chain without belonging to a known connection:
  // what the subnet sends by other means than UDP, and, where IPv6 is routed, traffic
  // between link-local addresses.
  predicate MayForward(policy: FirewallPolicy, cfg: GatewayConfig, h: Header, inside: Meaning) {
    || (FromSubnet(cfg, h, inside) && h.protocol != Udp)
    || (policy.ipv6 == RouteThroughTunnel && IsLinkLocalPair(h))
  }

  lemma ForwardVerdict(policy: FirewallPolicy, cfg: GatewayConfig, h: Header, ct: CtState, inside: Meaning)
    requires policy.Validates()
    ensures HookVerdict(Compile(policy, cfg), Forward, h, ct, inside) ==
            if ct == Established || ct == Related || MayForward(policy, cfg, h, inside) then Accept else Drop
  {
    hide FirstVerdict, HookVerdict, Fires, Compile;
    CompiledHooks(policy, cfg, h, ct, inside);
    var cidr := cfg.downstreamCidr;
    var r0 := Rule([EstablishedOrRelated], Accept);
    var r1 := if policy.ipv6 == Block then Rule([FamilyV6], Drop) else Rule([LinkLocalPair], Accept);
    var r2, r3 := Rule([SourceIn(cidr), ProtocolUdp], Drop), Rule([SourceIn(cidr)], Accept);
    FiresEach(EstablishedOrRelated, TcpSyn, TcpSyn, Accept, h, ct, inside);
    FiresEach(FamilyV6, TcpSyn, TcpSyn, Drop, h, ct, inside);
    FiresEach(LinkLocalPair, TcpSyn, TcpSyn, Accept, h, ct, inside);
    FiresEach(SourceIn(cidr), ProtocolUdp, TcpSyn, Drop, h, ct, inside);
    FiresEach(SourceIn(cidr), TcpSyn, TcpSyn, Accept, h, ct, inside);
    TwoRules(r2, r3, Drop, h, ct, inside);
    TwoRules(r0, r1, FirstVerdict([r2, r3], Drop, h, ct, inside), h, ct, inside);
    FirstVerdictAppend([r0, r1], [r2, r3], Drop, h, ct, inside);
    assert ForwardRules(policy, cidr) == [r0, r1] + [r2, r3];
  }

  // The output chain lets the gateway's own traffic out: known connections and loopback,
  // and new IPv4 connections; under a blocking policy no other IPv6.
  lemma OutputVerdict(policy: FirewallPolicy, cfg: GatewayConfig, h: Header, ct: CtState, inside: Meaning)
    ensures HookVerdict(Compile(policy, cfg), Output, h, ct, inside) ==
            if ct == Established || ct == Related || h.outLoopback then Accept
            else if h.family == V4 && ct == New then Accept
            else Drop
  {
    hide FirstVerdict, HookVerdict, Fires, Compile;
    var r0, r1 := Rule([EstablishedOrRelated], Accept), Rule([OutLoopback], Accept);
    var r2, r3 := Rule([FamilyV6], Drop), Rule([FamilyV4, NewConnection], Accept);
    FiresEach(EstablishedOrRelated, TcpSyn, TcpSyn, Accept, h, ct, inside);
    FiresEach(OutLoopback, TcpSyn, TcpSyn, Accept, h, ct, inside);
    FiresEach(FamilyV6, TcpSyn, TcpSyn, Drop, h, ct, inside);
    FiresEach(FamilyV4, NewConnection, TcpSyn, Accept, h, ct, inside);
    CompiledHooks(policy, cfg, h, ct, inside);
    var rest := (if policy.ipv6 == Block then [r2] else []) + [r3];
    FirstVerdictCons(r3, [], Drop, h, ct, inside);
    FirstVerdictCons(r2, [r3], Drop, h, ct, inside);
    TwoRules(r0, r1, FirstVerdict(rest, Drop, h, ct, inside), h, ct, inside);
    FirstVerdictAppend([r0, r1], rest, Drop, h, ct, inside);
    assert OutputRules(policy) == [r0, r1] + rest;
    assert [] + [r3] == [r3];
  }

  // A packet the subnet sends to one of the ports the redirects lead to.
  predicate ToRedirectPort(policy: FirewallPolicy, cfg: GatewayConfig, h: Header, inside: Meaning) {
    && FromSubnet(cfg, h, inside)
    && (|| (policy.redirectDnsTo == Some(h.port) && (h.protocol == Udp || h.protocol == Tcp))
        || (policy.redirectTcpTo == Some(h.port) && h.protocol == Tcp))
  }

  lemma DnsRules(cfg: GatewayConfig, dns: Port, onward: Verdict, h: Header, ct: CtState, inside: Meaning)
    ensures var cidr := cfg.downstreamCidr;
            FirstVerdict([Rule([SourceIn(cidr), UdpTo(dns)], Accept), Rule([SourceIn(cidr), TcpTo(dns)], Accept)],
                         onward, h, ct, inside)
            == if FromSubnet(cfg, h, inside) && (h.protocol == Udp || h.protocol == Tcp) && h.port == dns
               then Accept else onward
  {
    var cidr := cfg.downstreamCidr;
    FiresEach(SourceIn(cidr), UdpTo(dns), TcpSyn, Accept, h, ct, inside);
    FiresEach(SourceIn(cidr), TcpTo(dns), TcpSyn, Accept, h, ct, inside);
    TwoRules(Rule([SourceIn(cidr), UdpTo(dns)], Accept), Rule([SourceIn(cidr), TcpTo(dns)], Accept), onward,
             h, ct, inside);
  }

  lemma PortRules(policy: FirewallPolicy, cfg: GatewayConfig, dnsRules: seq<Rule>, tcpRules: seq<Rule>, onward: Verdict,
                  h: Header, ct: CtState, inside: Meaning)
    requires var cidr := cfg.downstreamCidr;
             && dnsRules == (match policy.redirectDnsTo
                             case Some(p) =>
                               [Rule([SourceIn(cidr), UdpTo(p)], Accept), Rule([SourceIn(cidr), TcpTo(p)], Accept)]
                             case None => [])
             && tcpRules == (match policy.redirectTcpTo
                             case Some(p) => [Rule([SourceIn(cidr), TcpTo(p)], Accept)]
                             case None => [])
    ensures FirstVerdict(dnsRules + tcpRules, onward, h, ct, inside)
            == if ToRedirectPort(policy, cfg, h, inside) then Accept else onward
  {
    hide FirstVerdict, Fires;
    var cidr := cfg.downstreamCidr;
    NoRules(onward, h, ct, inside);
    NoRules(FirstVerdict(tcpRules, onward, h, ct, inside), h, ct, inside);
    FirstVerdictAppend(dnsRules, tcpRules, onward, h, ct, inside);
    if policy.redirectTcpTo.Some? {
      FiresEach(SourceIn(cidr), TcpTo(policy.redirectTcpTo.value), TcpSyn, Accept, h, ct, inside);
      FirstVerdictCons(tcpRules[0], [], onward, h, ct, inside);
    }
    if policy.redirectDnsTo.Some? {
      DnsRules(cfg, policy.redirectDnsTo.value, FirstVerdict(tcpRules, onward, h, ct, inside), h, ct, inside);
    }
  }

  // The input chain admits the redirect ports from the subnet, loopback, and traffic of
  // known connections; every other IPv4 packet is rejected.
  lemma InputVerdict(policy: FirewallPolicy, cfg: GatewayConfig, h: Header, ct: CtState, inside: Meaning)
    requires policy.Validates()
    ensures HookVerdict(Compile(policy, cfg), Input, h, ct, inside) ==
            if ct == Established || ct == Related || h.inLoopback then Accept
            else if ToRedirectPort(policy, cfg, h, inside) then Accept
            else if h.family == V4 then RejectProhibited
            else Drop
  {
    hide FirstVerdict, HookVerdict, Fires, Compile;
    var cidr := cfg.downstreamCidr;
    var r0, r1, r5 := Rule([EstablishedOrRelated], Accept), Rule([InLoopback], Accept),
      Rule([FamilyV4], RejectProhibited);
    FiresEach(EstablishedOrRelated, TcpSyn, TcpSyn, Accept, h, ct, inside);
    FiresEach(InLoopback, TcpSyn, TcpSyn, Accept, h, ct, inside);
    FiresEach(FamilyV4, TcpSyn, TcpSyn, RejectProhibited, h, ct, inside);
    CompiledHooks(policy, cfg, h, ct, inside);
    var dnsRules := match policy.redirectDnsTo
      case Some(p) => [Rule([SourceIn(cidr), UdpTo(p)], Accept), Rule([SourceIn(cidr), TcpTo(p)], Accept)]
      case None => [];
    var tcpRules := match policy.redirectTcpTo
      case Some(p) => [Rule([SourceIn(cidr), TcpTo(p)], Accept)]
      case None => [];
    var last := FirstVerdict([r5], Drop, h, ct, inside);
    FirstVerdictCons(r5, [], Drop, h, ct, inside);
    PortRules(policy, cfg, dnsRules, tcpRules, last, h, ct, inside);
    var ports := dnsRules + tcpRules;
    FirstVerdictAppend(ports, [r5], Drop, h, ct, inside);
    FirstVerdictAppend([r0, r1], ports + [r5], Drop, h, ct, inside);
    TwoRules(r0, r1, FirstVerdict(ports + [r5], Drop, h, ct, inside), h, ct, inside);
    assert InputRules(policy, cidr) == [r0, r1] + (ports + [r5]);
  }

  // The kill switch drops every packet on every filter hook, whatever its connection state.
  lemma KillSwitchDropsEverything(hook: Hook, h: Header, ct: CtState, inside: Meaning)
    ensures HookVerdict(KillSwitchRuleset(), hook, h, ct, inside) == if hook == Prerouting then Accept else Drop
  {
    var rs := KillSwitchRuleset();
    HookAt(rs, 0, h, ct, inside);
    HookAt(rs, 1, h, ct, inside);
    HookAt(rs, 2, h, ct, inside);
    HookUnused(rs, Prerouting, h, ct, inside);
  }
}
