// Which packets the redirect rules capture, and what becomes of them over every trace.
module Capture {
  import opened Errors
  import opened Gateway
  import opened Firewall
  import opened Traffic
  import opened ForwardPath

  // ---- redirect and admission -------------------------------------------

  // The captured packets that leave the gateway all the same.
  predicate Escapes(t: Table, p: Packet) {
    match Master(t, p)
    case Some(c) =>
      && c.role == ForwardedFlow
      && if p.flow in t then StateOf(t, p) == Established || p.header.protocol == Tcp else !p.toGateway
    case None => p.unclassifiable && !p.toGateway && p.header.protocol == Tcp
  }

  // Exactly when a captured packet is forwarded, whatever its connection state; and what
  // happens to it otherwise when it opens a connection.
  lemma CapturedForwardedIff(policy: FirewallPolicy, cfg: GatewayConfig, t: Table, p: Packet, inside: Meaning)
    requires policy.Validates() && Captured(policy, cfg, p, inside)
    ensures Forwards(Compile(policy, cfg), t, p, inside) <==> Escapes(t, p)
  {
    hide HookVerdict, Compile;
    PreroutingVerdict(policy, cfg, p.header, New, inside);
    ForwardVerdict(policy, cfg, p.header, StateOf(t, p), inside);
  }

  ghost predicate RedirectedAndAdmitted(rs: Ruleset, t: Table, p: Packet, port: Port, inside: Meaning) {
    && Route(rs, t, p, inside) == Path(Input, p.header.(port := port), Some(port))
    && Passes(rs, t, p, inside)
    && Track(rs, t, p, inside) == t[p.flow := Connection(LocalFlow(Some(port)), p, false)]
  }

  lemma FreshCaptureIsRedirected(policy: FirewallPolicy, cfg: GatewayConfig, t: Table, p: Packet, inside: Meaning)
    requires policy.Validates() && Captured(policy, cfg, p, inside)
    requires p.flow !in t && StateOf(t, p) == New
    ensures RedirectedAndAdmitted(Compile(policy, cfg), t, p, RedirectOf(policy, p.header).value, inside)
  {
    hide HookVerdict, Compile;
    var port := RedirectOf(policy, p.header).value;
    PreroutingVerdict(policy, cfg, p.header, New, inside);
    InputVerdict(policy, cfg, p.header.(port := port), New, inside);
  }

  // ---- where a forwarded entry comes from ------------------------------------

  // The j-th event opened the flow through the forward chain, and its entry has not
  // expired since.
  ghost predicate OpenedForwarded(start: Loaded, trace: seq<Event>, f: Flow, j: nat, inside: Meaning) {
    && j < |trace| && trace[j].Arrives? && trace[j].packet.flow == f
    && Expires(f) !in trace[j + 1..]
    && var k := KernelAfter(start, trace[..j], inside);
       var p := trace[j].packet;
       && f !in k.table && Forwards(Rules(k.loaded), k.table, p, inside)
       && (StateOf(k.table, p) == New || (StateOf(k.table, p) == Related && p.opensFlow))
  }

  ghost predicate HoldsForwarded(t: Table, f: Flow) {
    f in t && t[f].role == ForwardedFlow
  }

  lemma OpenedForwardedExtends(start: Loaded, trace: seq<Event>, e: Event, f: Flow, j: nat, inside: Meaning)
    requires j < |trace| && e != Expires(f)
    ensures OpenedForwarded(start, trace + [e], f, j, inside) <==> OpenedForwarded(start, trace, f, j, inside)
  {
    hide KernelAfter, Forwards;
    assert (trace + [e])[..j] == trace[..j] && (trace + [e])[j + 1..] == trace[j + 1..] + [e];
  }

  // A new entry is a forwarded one exactly when the packet that made it was forwarded
  // and opened it.
  lemma TrackOpensForwarded(rs: Ruleset, t: Table, p: Packet, f: Flow, inside: Meaning)
    requires f !in t
    ensures HoldsForwarded(Track(rs, t, p, inside), f) <==>
              && p.flow == f && Forwards(rs, t, p, inside)
              && (StateOf(t, p) == New || (StateOf(t, p) == Related && p.opensFlow))
  {
    hide HookVerdict;
  }

  // A flow stands in the table as forwarded exactly when an earlier forwarded packet
  // opened it and it has not expired since.
  lemma {:induction false} ForwardedEntryIff(start: Loaded, trace: seq<Event>, f: Flow, inside: Meaning)
    ensures HoldsForwarded(KernelAfter(start, trace, inside).table, f)
       <==> exists j: nat :: OpenedForwarded(start, trace, f, j, inside)
    decreases |trace|
  {
    if trace == [] {
    } else {
      var n := |trace| - 1;
      var prefix, last := trace[..n], trace[n];
      assert trace == prefix + [last];
      ForwardedEntryIff(start, prefix, f, inside);
      ForwardedEntryNext(start, prefix, last, f, inside);
    }
  }

  lemma ForwardedEntryNext(start: Loaded, prefix: seq<Event>, last: Event, f: Flow, inside: Meaning)
    requires HoldsForwarded(KernelAfter(start, prefix, inside).table, f)
        <==> exists j: nat :: OpenedForwarded(start, prefix, f, j, inside)
    ensures HoldsForwarded(KernelAfter(start, prefix + [last], inside).table, f)
       <==> exists j: nat :: OpenedForwarded(start, prefix + [last], f, j, inside)
  {
    hide KernelAfter, Track, Forwards, Rules;
    var k, n, trace := KernelAfter(start, prefix, inside), |prefix|, prefix + [last];
    KernelNext(start, prefix, last, inside);
    assert trace[..n] == prefix && trace[n + 1..] == [];
    if last == Expires(f) {
      forall j: nat | j < |trace| && trace[j].Arrives?
        ensures Expires(f) in trace[j + 1..]
      {
        assert trace[j + 1..][n - j - 1] == last;
      }
    } else {
      forall j: nat | j < n
        ensures OpenedForwarded(start, trace, f, j, inside) <==> OpenedForwarded(start, prefix, f, j, inside)
      {
        OpenedForwardedExtends(start, prefix, last, f, j, inside);
      }
      OpenedLastIff(start, prefix, last, f, inside);
    }
  }

  // What the last event does to the entry of a flow, when it is not its expiry.
  lemma OpenedLastIff(start: Loaded, prefix: seq<Event>, last: Event, f: Flow, inside: Meaning)
    requires last != Expires(f)
    ensures var k := KernelAfter(start, prefix, inside);
            && (HoldsForwarded(After(k, last, inside).table, f) <==>
                  HoldsForwarded(k.table, f) || OpenedForwarded(start, prefix + [last], f, |prefix|, inside))
  {
    hide KernelAfter, Track, Forwards, Rules;
    var k, n, trace := KernelAfter(start, prefix, inside), |prefix|, prefix + [last];
    assert trace[..n] == prefix && trace[n + 1..] == [];
    if last.Arrives? {
      TrackTouchesOwnFlow(Rules(k.loaded), k.table, last.packet, inside);
      if f !in k.table {
        TrackOpensForwarded(Rules(k.loaded), k.table, last.packet, f, inside);
      }
    }
  }

  // ---- the main results on capture ---------------------------------------------

  // Prerouting, forward and input compose, over every trace from an empty table and
  // whatever was loaded on the way: a captured packet that opens a connection, or comes
  // while its flow is still unanswered, is forwarded exactly when it is TCP and an
  // earlier forwarded packet opened its flow, which has not expired. If its flow is not
  // in the table it is redirected to its port, admitted there, and recorded with that
  // redirect; if the flow is local it follows the redirect recorded for it.
  lemma CapturedIsRedirectedAndAdmitted(start: Loaded, trace: seq<Event>, p: Packet, inside: Meaning)
    requires LawfulTrace(start, trace)
    requires var k := KernelAfter(start, trace, inside);
             && k.loaded.Compiled? && Captured(k.loaded.policy, k.loaded.cfg, p, inside)
             && StateOf(k.table, p) == New
    ensures var k := KernelAfter(start, trace, inside);
            var rs := Rules(k.loaded);
            && (Forwards(rs, k.table, p, inside) <==>
                  p.header.protocol == Tcp && exists j: nat :: OpenedForwarded(start, trace, p.flow, j, inside))
            && (p.flow !in k.table ==>
                  RedirectedAndAdmitted(rs, k.table, p, RedirectOf(k.loaded.policy, p.header).value, inside))
            && (p.flow in k.table && k.table[p.flow].role.LocalFlow? ==>
                  var port := k.table[p.flow].role.redirect;
                  Route(rs, k.table, p, inside)
                  == Path(Input, if port.Some? then p.header.(port := port.value) else p.header, port))
  {
    hide KernelAfter, HookVerdict, Compile, Forwards, OpenedForwarded;
    var k := KernelAfter(start, trace, inside);
    LoadedIsLawful(start, trace, inside);
    CapturedForwardedIff(k.loaded.policy, k.loaded.cfg, k.table, p, inside);
    ForwardedEntryIff(start, trace, p.flow, inside);
    if p.flow !in k.table {
      FreshCaptureIsRedirected(k.loaded.policy, k.loaded.cfg, k.table, p, inside);
    }
  }

  // A captured packet of an expected connection follows the flow it relates to: it is
  // forwarded exactly when it is not for the gateway and that flow stands as forwarded.
  lemma RelatedCaptureForwardedIff(start: Loaded, trace: seq<Event>, p: Packet, inside: Meaning)
    requires LawfulTrace(start, trace)
    requires var k := KernelAfter(start, trace, inside);
             && k.loaded.Compiled? && Captured(k.loaded.policy, k.loaded.cfg, p, inside)
             && StateOf(k.table, p) == Related
    ensures var k := KernelAfter(start, trace, inside);
            Forwards(Rules(k.loaded), k.table, p, inside) <==>
              !p.toGateway && exists j: nat :: OpenedForwarded(start, trace, p.parent.value, j, inside)
  {
    hide KernelAfter, HookVerdict, Compile, Forwards, OpenedForwarded;
    var k := KernelAfter(start, trace, inside);
    LoadedIsLawful(start, trace, inside);
    CapturedForwardedIff(k.loaded.policy, k.loaded.cfg, k.table, p, inside);
    ForwardedEntryIff(start, trace, p.parent.value, inside);
  }

  // The escape is real: a TCP packet of the subnet that does not open a connection is
  // forwarded and opens its flow all the same, and the SYN that follows on that flow,
  // captured and new, leaves past the redirect.
  lemma SynAfterAckIsForwarded(policy: FirewallPolicy, cfg: GatewayConfig, ack: Packet, syn: Packet, inside: Meaning)
    requires policy.Validates() && WellFormed(ack)
    requires FromSubnet(cfg, ack.header, inside) && ack.header.protocol == Tcp && !ack.header.syn
             && ack.header.port != 53
    requires !ack.fromGateway && !ack.toGateway && !ack.unclassifiable && ack.parent.None?
    requires Captured(policy, cfg, syn, inside) && syn.header.protocol == Tcp && syn.flow == ack.flow && !syn.reply
    ensures var k := KernelAfter(Compiled(policy, cfg), [Arrives(ack)], inside);
            StateOf(k.table, syn) == New && Forwards(Rules(k.loaded), k.table, syn, inside)
  {
    hide HookVerdict, Compile;
    var start, trace := Compiled(policy, cfg), [Arrives(ack)];
    assert trace[..0] == [];
    FirstPacketForwardedIff(policy, cfg, map[], ack, inside);
    TrackOpensForwarded(Compile(policy, cfg), map[], ack, ack.flow, inside);
    var t := Track(Compile(policy, cfg), map[], ack, inside);
    CapturedForwardedIff(policy, cfg, t, syn, inside);
  }

  // A local entry keeps its redirect over every later trace in which it does not expire,
  // whatever is loaded meanwhile.
  lemma {:induction false} LocalEntryStays(start: Loaded, before: seq<Event>, later: seq<Event>, f: Flow, port: Port,
                                           inside: Meaning)
    requires var t := KernelAfter(start, before, inside).table; f in t && t[f].role == LocalFlow(Some(port))
    requires Expires(f) !in later
    ensures var t := KernelAfter(start, before + later, inside).table; f in t && t[f].role == LocalFlow(Some(port))
    decreases |later|
  {
    hide KernelAfter, Track;
    if later == [] {
      assert before + later == before;
    } else {
      var n := |later| - 1;
      LocalEntryStays(start, before, later[..n], f, port, inside);
      assert before + later == before + later[..n] + [later[n]] && later[n] in later;
      var k := KernelAfter(start, before + later[..n], inside);
      KernelNext(start, before + later[..n], later[n], inside);
      if later[n].Arrives? {
        TrackTouchesOwnFlow(Rules(k.loaded), k.table, later[n].packet, inside);
      }
    }
  }

  // Once a packet has been captured and redirected, its flow never reaches the forward
  // chain while its entry lives: every later packet of it in that direction goes to the
  // port of the first one, and is admitted there as long as the same rules are loaded,
  // it comes from the subnet and speaks the same protocol.
  lemma CapturedFlowStaysRedirected(start: Loaded, before: seq<Event>, p: Packet, later: seq<Event>, q: Packet,
                                    inside: Meaning)
    requires LawfulTrace(start, before)
    requires var k := KernelAfter(start, before, inside);
             && k.loaded.Compiled? && Captured(k.loaded.policy, k.loaded.cfg, p, inside)
             && p.flow !in k.table && StateOf(k.table, p) == New
    requires Expires(p.flow) !in later && q.flow == p.flow
    ensures var k := KernelAfter(start, before, inside);
            var k' := KernelAfter(start, before + [Arrives(p)] + later, inside);
            var port := RedirectOf(k.loaded.policy, p.header).value;
            && !Forwards(Rules(k'.loaded), k'.table, q, inside)
            && (!q.fromGateway && !q.reply ==>
                  Route(Rules(k'.loaded), k'.table, q, inside) == Path(Input, q.header.(port := port), Some(port)))
            && (!q.fromGateway && !q.reply && k'.loaded == k.loaded
                && FromSubnet(k.loaded.cfg, q.header, inside) && q.header.protocol == p.header.protocol ==>
                  Passes(Rules(k'.loaded), k'.table, q, inside))
  {
    hide KernelAfter, HookVerdict, Compile, Track;
    var k, port := KernelAfter(start, before, inside),
      RedirectOf(KernelAfter(start, before, inside).loaded.policy, p.header).value;
    LoadedIsLawful(start, before, inside);
    FreshCaptureIsRedirected(k.loaded.policy, k.loaded.cfg, k.table, p, inside);
    KernelNext(start, before, Arrives(p), inside);
    LocalEntryStays(start, before + [Arrives(p)], later, p.flow, port, inside);
    var k' := KernelAfter(start, before + [Arrives(p)] + later, inside);
    InputVerdict(k.loaded.policy, k.loaded.cfg, q.header.(port := port), StateOf(k'.table, q), inside);
  }
}
