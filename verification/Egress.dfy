// What the gateway itself may send, and where IPv6 is confined to while it is blocked.
module Egress {
  import opened Gateway
  import opened Firewall
  import opened Traffic
  import opened ForwardPath

  // Exactly which packets the gateway sends under a policy: those of known connections,
  // those on loopback, and what opens an IPv4 connection.
  lemma GatewaySendsIff(policy: FirewallPolicy, cfg: GatewayConfig, t: Table, p: Packet, inside: Meaning)
    requires p.fromGateway
    ensures Passes(Compile(policy, cfg), t, p, inside) <==>
              || StateOf(t, p) == Established || StateOf(t, p) == Related
              || p.header.outLoopback
              || (p.header.family == V4 && StateOf(t, p) == New)
  {
    hide HookVerdict, Compile;
    OutputVerdict(policy, cfg, p.header, StateOf(t, p), inside);
  }

  predicate OnLoopback(h: Header) {
    h.inLoopback || h.outLoopback
  }

  // Every IPv6 connection in the table was opened on loopback.
  ghost predicate LoopbackOnly(t: Table) {
    forall f | f in t && f.family == V6 :: t[f].root.header.family == V6 && OnLoopback(t[f].root.header)
  }

  // A new or unclassifiable IPv6 packet passes only on loopback.
  lemma NewIpv6NeedsLoopback(l: Loaded, t: Table, p: Packet, inside: Meaning)
    requires Lawful(l) && BlocksIpv6(l) && p.header.family == V6
    requires StateOf(t, p) == New || StateOf(t, p) == Invalid
    requires Passes(Rules(l), t, p, inside)
    ensures OnLoopback(p.header)
  {
    hide HookVerdict, Compile;
    if l.Blocked? {
      KillSwitchStopsEverything(t, p, inside);
    } else {
      var path := Route(Rules(l), t, p, inside);
      InputVerdict(l.policy, l.cfg, path.header, StateOf(t, p), inside);
      ForwardVerdict(l.policy, l.cfg, path.header, StateOf(t, p), inside);
      OutputVerdict(l.policy, l.cfg, path.header, StateOf(t, p), inside);
    }
  }

  lemma TrackKeepsLoopbackOnly(l: Loaded, t: Table, p: Packet, inside: Meaning)
    requires Lawful(l) && BlocksIpv6(l) && WellFormed(p) && LoopbackOnly(t)
    ensures LoopbackOnly(Track(Rules(l), t, p, inside))
  {
    hide HookVerdict, Compile, Route;
    var t' := Track(Rules(l), t, p, inside);
    TrackTouchesOwnFlow(Rules(l), t, p, inside);
    if Passes(Rules(l), t, p, inside) && p.header.family == V6 && StateOf(t, p) == New {
      NewIpv6NeedsLoopback(l, t, p, inside);
    }
  }

  lemma {:induction false} TracesKeepLoopbackOnly(start: Loaded, trace: seq<Event>, inside: Meaning)
    requires LawfulTrace(start, trace)
    requires BlocksIpv6(start) && forall e | e in trace && e.Loads? :: BlocksIpv6(e.loaded)
    ensures LoopbackOnly(KernelAfter(start, trace, inside).table)
  {
    hide Track, LoopbackOnly;
    if trace == [] {
      assert LoopbackOnly(map[]) by { NothingOpen(); }
    } else {
      var n := |trace| - 1;
      var k, e := KernelAfter(start, trace[..n], inside), trace[n];
      LawfulPrefix(start, trace, n);
      assert forall e | e in trace[..n] :: e in trace;
      assert e in trace;
      TracesKeepLoopbackOnly(start, trace[..n], inside);
      LoadedIsLawful(start, trace[..n], inside);
      LoadedBlocksIpv6(start, trace[..n], inside);
      match e
      case Arrives(p) => TrackKeepsLoopbackOnly(k.loaded, k.table, p, inside);
      case Expires(f) => ExpiryKeepsLoopbackOnly(k.table, f);
      case Loads(_) =>
    }
  }

  lemma NothingOpen()
    ensures LoopbackOnly(map[])
  {}

  lemma ExpiryKeepsLoopbackOnly(t: Table, f: Flow)
    requires LoopbackOnly(t)
    ensures LoopbackOnly(t - {f})
  {}

  // While every loaded policy blocks IPv6, no IPv6 packet passes the gateway in any
  // direction unless it is on loopback or belongs to a connection that was opened there.
  lemma BlockedIpv6StaysOnLoopback(start: Loaded, trace: seq<Event>, p: Packet, inside: Meaning)
    requires LawfulTrace(start, trace) && WellFormed(p) && p.header.family == V6
    requires BlocksIpv6(start) && forall e | e in trace && e.Loads? :: BlocksIpv6(e.loaded)
    requires var k := KernelAfter(start, trace, inside); Passes(Rules(k.loaded), k.table, p, inside)
    ensures var k := KernelAfter(start, trace, inside);
            match Master(k.table, p)
            case Some(c) => c.root.header.family == V6 && OnLoopback(c.root.header)
            case None => OnLoopback(p.header)
  {
    hide KernelAfter, Rules, Passes;
    var k := KernelAfter(start, trace, inside);
    TracesKeepLoopbackOnly(start, trace, inside);
    LoadedIsLawful(start, trace, inside);
    LoadedBlocksIpv6(start, trace, inside);
    if Master(k.table, p).None? {
      NewIpv6NeedsLoopback(k.loaded, k.table, p, inside);
    }
  }
}
