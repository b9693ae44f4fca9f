// Packets travelling through a loaded ruleset, with the kernel's connection table.
//
// A table entry is tagged local or forwarded by the path its first packet took, and
// remembers the redirect it was given; later packets of the flow, and packets related
// to it, follow that tag. The nat chain is consulted for the first packet only.
module Traffic {
  import opened Errors
  import opened Gateway
  import opened Firewall

  // A flow is one connection, both directions; its family is part of its identity.
  datatype Flow = Flow(family: Family, id: nat)

  datatype Packet = Packet(
    header: Header,
    flow: Flow,
    parent: Option<Flow>,    // the flow an ICMP error or expected connection refers to
    fromGateway: bool,       // generated on the gateway itself
    toGateway: bool,         // addressed to the gateway before any redirect
    reply: bool,             // travels against the direction of the flow's first packet
    unclassifiable: bool,
    opensFlow: bool)         // a related packet that starts a connection of its own

  predicate WellFormed(p: Packet) {
    p.header.family == p.flow.family && (p.parent.Some? ==> p.parent.value.family == p.flow.family)
  }

  datatype Role = LocalFlow(redirect: Option<Port>) | ForwardedFlow

  // `root` is the packet that opened the flow, or, for an expected connection, the
  // one that opened the flow it descends from.
  datatype Connection = Connection(role: Role, root: Packet, replied: bool)

  type Table = map<Flow, Connection>

  function StateOf(t: Table, p: Packet): CtState {
    if p.flow in t then (if p.reply || t[p.flow].replied then Established else New)
    else if p.parent.Some? && p.parent.value in t then Related
    else if p.unclassifiable then Invalid
    else New
  }

  // The connection a packet belongs or relates to.
  function Master(t: Table, p: Packet): Option<Connection> {
    if p.flow in t then Some(t[p.flow])
    else if p.parent.Some? && p.parent.value in t then Some(t[p.parent.value])
    else None
  }

  datatype Path = Path(hook: Hook, header: Header, redirect: Option<Port>)

  // Which filter hook a packet meets, with which destination port.
  function Route(rs: Ruleset, t: Table, p: Packet, inside: Meaning): Path {
    if p.fromGateway then Path(Output, p.header, None)
    else
      match Master(t, p)
      case Some(Connection(LocalFlow(redirect), _, _)) =>
        if redirect.Some? && p.flow in t && !p.reply
        then Path(Input, p.header.(port := redirect.value), redirect)
        else Path(Input, p.header, None)
      case Some(Connection(ForwardedFlow, _, _)) =>
        if p.flow !in t && p.toGateway then Path(Input, p.header, None) else Path(Forward, p.header, None)
      case None =>
        var v := if StateOf(t, p) == New then HookVerdict(rs, Prerouting, p.header, New, inside) else Accept;
        if v.RedirectTo? then Path(Input, p.header.(port := v.port), Some(v.port))
        else Path(if p.toGateway then Input else Forward, p.header, None)
  }

  predicate Passes(rs: Ruleset, t: Table, p: Packet, inside: Meaning) {
    var path := Route(rs, t, p, inside);
    HookVerdict(rs, path.hook, path.header, StateOf(t, p), inside) == Accept
  }

  predicate Forwards(rs: Ruleset, t: Table, p: Packet, inside: Meaning) {
    Route(rs, t, p, inside).hook == Forward && Passes(rs, t, p, inside)
  }

  // The table after a packet: only accepted packets open or confirm connections.
  function Track(rs: Ruleset, t: Table, p: Packet, inside: Meaning): Table {
    if !Passes(rs, t, p, inside) then t
    else if p.flow in t then
      (if p.reply then t[p.flow := t[p.flow].(replied := true)] else t)
    else
      var path := Route(rs, t, p, inside);
      var role := if path.hook == Forward then ForwardedFlow else LocalFlow(path.redirect);
      match StateOf(t, p)
      case New => t[p.flow := Connection(role, p, false)]
      case Related => if p.opensFlow then t[p.flow := Connection(role, Master(t, p).value.root, false)] else t
      case Established => t
      case Invalid => t
  }

  // Where the transparent redirects send a packet: port-53 traffic to the resolver,
  // other TCP openings to the tunnel.
  function RedirectOf(policy: FirewallPolicy, h: Header): Option<Port> {
    if h.port == 53 && (h.protocol == Udp || h.protocol == Tcp) then policy.redirectDnsTo
    else if h.port != 53 && h.protocol == Tcp && h.syn then policy.redirectTcpTo
    else None
  }

  // A packet the redirects are meant to capture.
  predicate Captured(policy: FirewallPolicy, cfg: GatewayConfig, p: Packet, inside: Meaning) {
    FromSubnet(cfg, p.header, inside) && !p.fromGateway && RedirectOf(policy, p.header).Some?
  }

  // ---- traces -------------------------------------------------------------

  // What the controller ever loads: the total block, or the rules of a policy under a
  // configuration.
  datatype Loaded = Blocked | Compiled(policy: FirewallPolicy, cfg: GatewayConfig)

  function Rules(l: Loaded): Ruleset {
    match l
    case Blocked => KillSwitchRuleset()
    case Compiled(policy, cfg) => Compile(policy, cfg)
  }

  // A load replaces the rules and leaves the connection table as it is.
  datatype Kernel = Kernel(loaded: Loaded, table: Table)

  datatype Event = Arrives(packet: Packet) | Expires(flow: Flow) | Loads(loaded: Loaded)

  function After(k: Kernel, e: Event, inside: Meaning): Kernel {
    match e
    case Arrives(p) => k.(table := Track(Rules(k.loaded), k.table, p, inside))
    case Expires(f) => k.(table := k.table - {f})
    case Loads(l) => k.(loaded := l)
  }

  // The kernel after a whole trace that began with an empty table under `start`.
  function KernelAfter(start: Loaded, trace: seq<Event>, inside: Meaning): Kernel {
    if trace == [] then Kernel(start, map[])
    else After(KernelAfter(start, trace[..|trace| - 1], inside), trace[|trace| - 1], inside)
  }

  // Only validated policies are loaded.
  predicate Lawful(l: Loaded) {
    l.Compiled? ==> l.policy.Validates()
  }

  ghost predicate LawfulTrace(start: Loaded, trace: seq<Event>) {
    && Lawful(start)
    && (forall e | e in trace && e.Loads? :: Lawful(e.loaded))
    && (forall e | e in trace && e.Arrives? :: WellFormed(e.packet))
  }

  lemma KernelNext(start: Loaded, trace: seq<Event>, e: Event, inside: Meaning)
    ensures KernelAfter(start, trace + [e], inside) == After(KernelAfter(start, trace, inside), e, inside)
  {
    assert (trace + [e])[..|trace|] == trace;
  }

  lemma LawfulPrefix(start: Loaded, trace: seq<Event>, i: nat)
    requires LawfulTrace(start, trace) && i <= |trace|
    ensures LawfulTrace(start, trace[..i])
  {
    assert forall e | e in trace[..i] :: e in trace;
  }

  lemma {:induction false} LoadedIsLawful(start: Loaded, trace: seq<Event>, inside: Meaning)
    requires LawfulTrace(start, trace)
    ensures Lawful(KernelAfter(start, trace, inside).loaded)
  {
    hide Track;
    if trace != [] {
      var n := |trace| - 1;
      LawfulPrefix(start, trace, n);
      LoadedIsLawful(start, trace[..n], inside);
      assert trace[n] in trace;
    }
  }

  // A packet changes at most the entry of its own flow.
  lemma TrackTouchesOwnFlow(rs: Ruleset, t: Table, p: Packet, inside: Meaning)
    ensures var t' := Track(rs, t, p, inside);
            && (forall f | f in t :: f in t' && t'[f].role == t[f].role && t'[f].root == t[f].root)
            && (forall f | f in t' && f !in t ::
                  f == p.flow && (t'[f].role == ForwardedFlow <==> Forwards(rs, t, p, inside))
                  && (StateOf(t, p) == New ==> t'[f].root == p)
                  && (StateOf(t, p) == Related ==> Master(t, p).Some? && t'[f].root == Master(t, p).value.root)
                  && (StateOf(t, p) == New || StateOf(t, p) == Related))
  {
    hide HookVerdict;
  }
}
