// Which packets leave through the forward chain, over every trace: only those that
// descend from a packet the loaded rules allowed to open a connection.
module ForwardPath {
  import opened Gateway
  import opened Firewall
  import opened Traffic

  // ---- who may be forwarded -------------------------------------------------

  // A packet that may open a forwarded flow under what is loaded.
  predicate Opener(l: Loaded, p: Packet, inside: Meaning) {
    l.Compiled? && MayForward(l.policy, l.cfg, p.header, inside)
  }

  // The packet arrived as the j-th event, when the rules loaded then let it open a flow.
  ghost predicate OpenedAt(start: Loaded, trace: seq<Event>, j: nat, root: Packet, inside: Meaning) {
    j < |trace| && trace[j] == Arrives(root) && Opener(KernelAfter(start, trace[..j], inside).loaded, root, inside)
  }

  ghost predicate Lineage(start: Loaded, trace: seq<Event>, f: Flow, c: Connection, inside: Meaning) {
    c.role == ForwardedFlow ==>
      f.family == c.root.header.family && exists j: nat :: OpenedAt(start, trace, j, c.root, inside)
  }

  ghost predicate TableInv(start: Loaded, trace: seq<Event>, t: Table, inside: Meaning) {
    forall f | f in t :: Lineage(start, trace, f, t[f], inside)
  }

  // What one forwarded packet owes its passage to.
  ghost predicate Accounted(start: Loaded, trace: seq<Event>, k: Kernel, p: Packet, inside: Meaning) {
    match Master(k.table, p)
    case Some(c) =>
      && c.role == ForwardedFlow && p.header.family == c.root.header.family
      && exists j: nat :: OpenedAt(start, trace, j, c.root, inside)
    case None => Opener(k.loaded, p, inside)
  }

  lemma LineageExtends(start: Loaded, trace: seq<Event>, e: Event, f: Flow, c: Connection, inside: Meaning)
    requires Lineage(start, trace, f, c, inside)
    ensures Lineage(start, trace + [e], f, c, inside)
  {
    hide KernelAfter;
    if c.role == ForwardedFlow {
      var j: nat :| OpenedAt(start, trace, j, c.root, inside);
      assert (trace + [e])[..j] == trace[..j];
      assert OpenedAt(start, trace + [e], j, c.root, inside);
    }
  }

  // With the kill switch loaded nothing passes any hook and no connection is opened,
  // whatever the table already holds.
  lemma KillSwitchStopsEverything(t: Table, p: Packet, inside: Meaning)
    ensures !Passes(KillSwitchRuleset(), t, p, inside)
    ensures Track(KillSwitchRuleset(), t, p, inside) == t
  {
    var path := Route(KillSwitchRuleset(), t, p, inside);
    KillSwitchDropsEverything(path.hook, path.header, StateOf(t, p), inside);
  }

  lemma BlockedForwardsNothing(t: Table, p: Packet, inside: Meaning)
    ensures !Forwards(Rules(Blocked), t, p, inside)
  {
    KillSwitchStopsEverything(t, p, inside);
  }

  lemma ForwardedIsAccounted(start: Loaded, trace: seq<Event>, k: Kernel, p: Packet, inside: Meaning)
    requires Lawful(k.loaded) && WellFormed(p) && TableInv(start, trace, k.table, inside)
    requires Forwards(Rules(k.loaded), k.table, p, inside)
    ensures k.loaded.Compiled? && Accounted(start, trace, k, p, inside)
  {
    hide KernelAfter, HookVerdict, Compile;
    if k.loaded.Blocked? {
      BlockedForwardsNothing(k.table, p, inside);
    } else {
      ForwardVerdict(k.loaded.policy, k.loaded.cfg, p.header, StateOf(k.table, p), inside);
      if p.flow in k.table {
        assert Lineage(start, trace, p.flow, k.table[p.flow], inside);
      } else if p.parent.Some? && p.parent.value in k.table {
        assert Lineage(start, trace, p.parent.value, k.table[p.parent.value], inside);
      }
    }
  }

  lemma TrackKeepsInv(start: Loaded, trace: seq<Event>, k: Kernel, p: Packet, inside: Meaning)
    requires Lawful(k.loaded) && WellFormed(p) && TableInv(start, trace, k.table, inside)
    requires k == KernelAfter(start, trace, inside)
    ensures TableInv(start, trace + [Arrives(p)], Track(Rules(k.loaded), k.table, p, inside), inside)
  {
    hide KernelAfter, Rules, Track, Forwards, Opener;
    var rs, e := Rules(k.loaded), Arrives(p);
    var t' := Track(rs, k.table, p, inside);
    TrackTouchesOwnFlow(rs, k.table, p, inside);
    forall f | f in t' ensures Lineage(start, trace + [e], f, t'[f], inside) {
      if f in k.table {
        assert Lineage(start, trace, f, k.table[f], inside);
        assert Lineage(start, trace, f, t'[f], inside);
        LineageExtends(start, trace, e, f, t'[f], inside);
      } else if Forwards(rs, k.table, p, inside) {
        ForwardedIsAccounted(start, trace, k, p, inside);
        if StateOf(k.table, p) == New {
          assert (trace + [e])[..|trace|] == trace;
          assert OpenedAt(start, trace + [e], |trace|, p, inside);
        } else {
          assert Lineage(start, trace, f, t'[f], inside);
          LineageExtends(start, trace, e, f, t'[f], inside);
        }
      }
    }
  }

  lemma {:induction false} TraceKeepsInv(start: Loaded, trace: seq<Event>, inside: Meaning)
    requires LawfulTrace(start, trace)
    ensures TableInv(start, trace, KernelAfter(start, trace, inside).table, inside)
  {
    hide Track, Lineage;
    if trace != [] {
      var n := |trace| - 1;
      var prefix, last := trace[..n], trace[n];
      assert trace == prefix + [last] && last in trace;
      LawfulPrefix(start, trace, n);
      TraceKeepsInv(start, prefix, inside);
      LoadedIsLawful(start, prefix, inside);
      var k := KernelAfter(start, prefix, inside);
      if last.Arrives? {
        TrackKeepsInv(start, prefix, k, last.packet, inside);
      } else {
        forall f | f in KernelAfter(start, trace, inside).table ensures Lineage(start, trace, f, k.table[f], inside) {
          LineageExtends(start, prefix, last, f, k.table[f], inside);
        }
      }
    }
  }

  // Over any trace from an empty table, reloads of validated policies and of the kill
  // switch included: a packet leaves through the forward chain only while a policy is
  // loaded, and only if it belongs or relates to a forwarded flow descending from a
  // packet that was allowed to open one by the rules loaded when it arrived, or is
  // itself such a packet.
  lemma OnlyTheSubnetIsForwarded(start: Loaded, trace: seq<Event>, p: Packet, inside: Meaning)
    requires LawfulTrace(start, trace) && WellFormed(p)
    requires var k := KernelAfter(start, trace, inside); Forwards(Rules(k.loaded), k.table, p, inside)
    ensures var k := KernelAfter(start, trace, inside);
            k.loaded.Compiled? && Accounted(start, trace, k, p, inside)
  {
    TraceKeepsInv(start, trace, inside);
    LoadedIsLawful(start, trace, inside);
    ForwardedIsAccounted(start, trace, KernelAfter(start, trace, inside), p, inside);
  }

  ghost predicate BlocksIpv6(l: Loaded) {
    l.Compiled? ==> l.policy.ipv6 == Block
  }

  lemma {:induction false} LoadedBlocksIpv6(start: Loaded, trace: seq<Event>, inside: Meaning)
    requires BlocksIpv6(start) && forall e | e in trace && e.Loads? :: BlocksIpv6(e.loaded)
    ensures BlocksIpv6(KernelAfter(start, trace, inside).loaded)
  {
    hide Track;
    if trace != [] {
      var n := |trace| - 1;
      assert forall e | e in trace[..n] :: e in trace;
      LoadedBlocksIpv6(start, trace[..n], inside);
      assert trace[n] in trace;
    }
  }

  // When every loaded policy blocks IPv6, a forwarded packet is IPv4, and what it
  // descends from was a non-UDP packet of the subnet configured at the time.
  lemma OnlyIpv4IsForwarded(start: Loaded, trace: seq<Event>, p: Packet, inside: Meaning)
    requires LawfulTrace(start, trace) && WellFormed(p)
    requires BlocksIpv6(start) && forall e | e in trace && e.Loads? :: BlocksIpv6(e.loaded)
    requires var k := KernelAfter(start, trace, inside); Forwards(Rules(k.loaded), k.table, p, inside)
    ensures p.header.family == V4
    ensures var k := KernelAfter(start, trace, inside);
            match Master(k.table, p)
            case Some(c) => exists j: nat :: OpenedAt(start, trace, j, c.root, inside) && c.root.header.protocol != Udp
                              && var l := KernelAfter(start, trace[..j], inside).loaded;
                                 l.Compiled? && FromSubnet(l.cfg, c.root.header, inside)
            case None => k.loaded.Compiled? && FromSubnet(k.loaded.cfg, p.header, inside) && p.header.protocol != Udp
  {
    hide KernelAfter, Forwards, Rules;
    OnlyTheSubnetIsForwarded(start, trace, p, inside);
    LoadedBlocksIpv6(start, trace, inside);
    var m := Master(KernelAfter(start, trace, inside).table, p);
    if m.Some? {
      var j: nat :| OpenedAt(start, trace, j, m.value.root, inside);
      assert forall e | e in trace[..j] :: e in trace;
      LoadedBlocksIpv6(start, trace[..j], inside);
    }
  }

  // The exact first-packet rule of the forward path: what is neither addressed to the
  // gateway nor redirected leaves exactly when it may open a forwarded flow. ICMP and
  // non-SYN TCP from the subnet do leave this way.
  lemma FirstPacketForwardedIff(policy: FirewallPolicy, cfg: GatewayConfig, t: Table, p: Packet, inside: Meaning)
    requires policy.Validates()
    requires !p.fromGateway && Master(t, p).None?
    ensures Forwards(Compile(policy, cfg), t, p, inside) <==>
            && !p.toGateway
            && MayForward(policy, cfg, p.header, inside)
            && (StateOf(t, p) == New ==> !Captured(policy, cfg, p, inside))
  {
    hide HookVerdict, Compile;
    PreroutingVerdict(policy, cfg, p.header, New, inside);
    ForwardVerdict(policy, cfg, p.header, StateOf(t, p), inside);
  }
}
