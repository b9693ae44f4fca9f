// The nftables gateway controller: recorded state, kill switch, and the ruleset the
// kernel really holds. Every privileged command may fail; `nft -f` is atomic, so a
// failed load leaves the kernel's ruleset as it was.
module GatewayController {
  import opened Errors
  import opened Gateway
  import opened Firewall

  // The outcome of one command: it could not be spawned, or it ran and exited.
  datatype Command = NotRun(error: Error) | Exited(success: bool) {
    function AsResult(): Result<()> {
      match this
      case NotRun(e) => Err(e)
      case Exited(success) => if success then Ok(()) else Err(System)
    }
  }

  // The first four fields are the controller's mutex-guarded state. `kernel` is the
  // loaded table; `accepted` and `killLoadFailed` record the past.
  datatype Controller = Controller(
    config: Option<GatewayConfig>,
    firewall: Option<FirewallPolicy>,
    firewallApplied: bool,
    killSwitch: KillSwitch,
    kernel: Option<Ruleset>,
    accepted: set<GatewayConfig>,   // configurations accepted so far
    killLoadFailed: bool)           // whether the latest kill-switch load failed

  const INITIAL := Controller(None, None, false, Armed, None, {}, false)

  function Load(g: Controller, rs: Ruleset, nft: Command): Controller {
    if nft.AsResult().Ok? then g.(kernel := Some(rs)) else g
  }

  // Cut traffic, then record Engaged whether or not the load worked.
  function EngageSwitch(g: Controller, nft: Command): Controller {
    Load(g, KillSwitchRuleset(), nft).(
      killSwitch := Engaged, firewallApplied := false, killLoadFailed := nft.AsResult().Err?)
  }

  function Configure(g: Controller, cfg: GatewayConfig, backend: Command, kill: Command): (Controller, Result<()>) {
    match backend.AsResult()
    case Err(e) => (EngageSwitch(g, kill), Err(e))
    case Ok(_) => (g.(config := Some(cfg), accepted := g.accepted + {cfg}), Ok(()))
  }

  function ApplyFirewall(g: Controller, policy: FirewallPolicy, nft: Command, kill: Command)
    : (Controller, Result<()>)
  {
    if !policy.Validates() then (g, Err(Config))
    else if g.config.None? then (g, Err(Precondition))
    else
      match nft.AsResult()
      case Err(e) => (EngageSwitch(g, kill), Err(e))
      case Ok(_) => (Load(g, Compile(policy, g.config.value), nft).(
                       firewall := Some(policy), firewallApplied := true, killSwitch := Armed), Ok(()))
  }

  function TunnelStatus(g: Controller, probe: Result<TunnelState>, kill: Command): (Controller, Result<TunnelState>) {
    if g.config.None? then (g, Err(Precondition))
    else
      match probe
      case Err(e) => (EngageSwitch(g, kill), Err(e))
      case Ok(s) => (if s == TunnelFailed then EngageSwitch(g, kill) else g, Ok(s))
  }

  function Engage(g: Controller, nft: Command): (Controller, Result<()>) {
    (EngageSwitch(g, nft), nft.AsResult())
  }

  function Release(g: Controller, nft: Command, kill: Command): (Controller, Result<()>) {
    if g.config.None? || g.firewall.None? then (g, Err(Precondition))
    else if !g.firewall.value.Validates() then (EngageSwitch(g, kill), Err(Config))
    else
      match nft.AsResult()
      case Err(e) => (EngageSwitch(g, kill), Err(e))
      case Ok(_) => (Load(g, Compile(g.firewall.value, g.config.value), nft).(
                       firewallApplied := true, killSwitch := Armed), Ok(()))
  }

  function Health(g: Controller, probe: Result<TunnelState>): GatewayHealth {
    var tunnel :=
      if g.config.None? then Down
      else if probe.Ok? then probe.value
      else TunnelFailed;
    GatewayHealth(g.config.Some? && g.killSwitch == Armed, g.firewallApplied, tunnel, g.killSwitch)
  }

  // ---- runs -------------------------------------------------------------

  datatype Call =
    | DoConfigure(cfg: GatewayConfig, backend: Command, kill: Command)
    | DoApply(policy: FirewallPolicy, nft: Command, kill: Command)
    | DoTunnelStatus(probe: Result<TunnelState>, kill: Command)
    | DoEngage(nft: Command)
    | DoRelease(nft: Command, kill: Command)
    | DoHealth(probe: Result<TunnelState>)

  function Step(g: Controller, c: Call): Controller {
    match c
    case DoConfigure(cfg, backend, kill) => Configure(g, cfg, backend, kill).0
    case DoApply(policy, nft, kill) => ApplyFirewall(g, policy, nft, kill).0
    case DoTunnelStatus(probe, kill) => TunnelStatus(g, probe, kill).0
    case DoEngage(nft) => Engage(g, nft).0
    case DoRelease(nft, kill) => Release(g, nft, kill).0
    case DoHealth(_) => g
  }

  function Run(g: Controller, calls: seq<Call>): Controller
    decreases |calls|
  {
    if calls == [] then g else Run(Step(g, calls[0]), calls[1..])
  }

  ghost predicate LoadedUnder(g: Controller, cfg: GatewayConfig) {
    g.firewall.Some? && g.kernel == Some(Compile(g.firewall.value, cfg))
  }

  ghost predicate Inv(g: Controller) {
    && (g.firewall.Some? ==> g.firewall.value.Validates())
    && (g.config.Some? ==> g.config.value in g.accepted)
    && (g.firewallApplied ==>
          g.killSwitch == Armed && g.firewall.Some? && exists cfg | cfg in g.accepted :: LoadedUnder(g, cfg))
    && (g.killSwitch == Engaged ==>
          !g.firewallApplied && (g.kernel == Some(KillSwitchRuleset()) || g.killLoadFailed))
  }

  lemma StepKeepsInv(g: Controller, c: Call)
    requires Inv(g)
    ensures Inv(Step(g, c))
  {
    var g' := Step(g, c);
    if g'.firewallApplied {
      if (c.DoApply? || c.DoRelease?) && g' != g {
        assert LoadedUnder(g', g.config.value);
      } else {
        var cfg :| cfg in g.accepted && LoadedUnder(g, cfg);
        assert LoadedUnder(g', cfg);
      }
    }
  }

  // Over every sequence of calls and command outcomes from a new controller: an applied
  // firewall means an armed switch and a kernel holding the compiled stored policy under
  // a configuration accepted earlier; an engaged switch means a total block in the kernel
  // unless the latest kill-switch load failed.
  lemma {:induction false} RunKeepsInv(g: Controller, calls: seq<Call>)
    requires Inv(g)
    ensures Inv(Run(g, calls))
    decreases |calls|
  {
    if calls != [] {
      StepKeepsInv(g, calls[0]);
      RunKeepsInv(Step(g, calls[0]), calls[1..]);
    }
  }

  // A stored policy always validates, so releasing never takes its re-validation branch:
  // a refusal other than a missing configuration or policy is a failed load.
  lemma ReleaseNeverFindsABadPolicy(calls: seq<Call>, nft: Command, kill: Command)
    ensures var g := Run(INITIAL, calls);
            && (g.firewall.Some? ==> g.firewall.value.Validates())
            && (g.config.Some? && g.firewall.Some? ==> Release(g, nft, kill).1 == nft.AsResult())
  {
    RunKeepsInv(INITIAL, calls);
  }

  // The calls that open the gateway again.
  predicate Reopens(g: Controller, c: Call) {
    || (c.DoApply? && ApplyFirewall(g, c.policy, c.nft, c.kill).1.Ok?)
    || (c.DoRelease? && Release(g, c.nft, c.kill).1.Ok?)
  }

  ghost predicate NeverReopens(g: Controller, calls: seq<Call>)
    decreases |calls|
  {
    calls != [] ==> !Reopens(g, calls[0]) && NeverReopens(Step(g, calls[0]), calls[1..])
  }

  lemma {:induction false} EngagedUntilReopened(g: Controller, calls: seq<Call>)
    requires g.killSwitch == Engaged && !g.firewallApplied && NeverReopens(g, calls)
    ensures Run(g, calls).killSwitch == Engaged && !Run(g, calls).firewallApplied
    decreases |calls|
  {
    if calls != [] {
      EngagedUntilReopened(Step(g, calls[0]), calls[1..]);
    }
  }

  // Once engaged, readiness stays false along every run in which no apply or release
  // succeeds; and whatever reopens the gateway has just loaded the compiled rules of a
  // policy that validates.
  lemma NotReadyUntilReopened(before: seq<Call>, calls: seq<Call>, probe: Result<TunnelState>)
    requires Run(INITIAL, before).killSwitch == Engaged
    requires NeverReopens(Run(INITIAL, before), calls)
    ensures !Health(Run(Run(INITIAL, before), calls), probe).IsReady()
  {
    RunKeepsInv(INITIAL, before);
    EngagedUntilReopened(Run(INITIAL, before), calls);
  }

  lemma ReopeningLoadsAValidPolicy(before: seq<Call>, c: Call)
    requires Reopens(Run(INITIAL, before), c)
    ensures var g, g' := Run(INITIAL, before), Step(Run(INITIAL, before), c);
            && g.config.Some? && g'.firewall.Some? && g'.firewall.value.Validates()
            && g'.kernel == Some(Compile(g'.firewall.value, g.config.value))
            && g'.killSwitch == Armed && g'.firewallApplied
  {
    RunKeepsInv(INITIAL, before);
  }

  // Readiness is never reported over a dead tunnel or an unloaded firewall: along every
  // run a ready gateway has an accepted configuration's rules in the kernel.
  lemma ReadyMeansProtected(calls: seq<Call>, probe: Result<TunnelState>)
    requires Health(Run(INITIAL, calls), probe).IsReady()
    ensures var g := Run(INITIAL, calls);
            && probe == Ok(Up)
            && g.firewall.Some? && g.firewall.value.Validates()
            && exists cfg | cfg in g.accepted :: LoadedUnder(g, cfg)
  {
    RunKeepsInv(INITIAL, calls);
  }

  // The policy a session asks for always validates, so on a configured gateway a refused
  // apply, like a failed configure, a refused release, a probe that errs and one that
  // finds the tunnel failed, has engaged the switch before it returned.
  lemma FailuresEngage(g: Controller, cfg: GatewayConfig, command: Command, kill: Command, probe: Result<TunnelState>)
    ensures Configure(g, cfg, command, kill).1.Err? ==> Configure(g, cfg, command, kill).0.killSwitch == Engaged
    ensures g.config.Some? && ApplyFirewall(g, FailClosedPolicy(cfg), command, kill).1.Err? ==>
              ApplyFirewall(g, FailClosedPolicy(cfg), command, kill).0.killSwitch == Engaged
    ensures g.config.Some? && g.firewall.Some? && Release(g, command, kill).1.Err? ==>
              Release(g, command, kill).0.killSwitch == Engaged
    ensures g.config.Some? && (probe.Err? || probe.value == TunnelFailed) ==>
              TunnelStatus(g, probe, kill).0.killSwitch == Engaged
    ensures Engage(g, command).0.killSwitch == Engaged
  {
    assert FailClosedPolicy(cfg).Validates();
  }

  // On a configured gateway a tunnel check answers what the probe did, and leaves the
  // gateway alone if that is a tunnel that has not failed; on any other it is refused.
  lemma TunnelCheckIsFaithful(g: Controller, probe: Result<TunnelState>, kill: Command)
    ensures var (g', r) := TunnelStatus(g, probe, kill);
            && r == (if g.config.Some? then probe else Err(Precondition))
            && (g.config.None? || (probe.Ok? && probe.value != TunnelFailed) ==> g' == g)
            && (Health(g, probe).tunnel == if r.Ok? then r.value else if g.config.Some? then TunnelFailed else Down)
  {}

  // Readiness is withheld from nobody who has all it asks for.
  lemma ReadyIff(g: Controller, probe: Result<TunnelState>)
    ensures Health(g, probe).IsReady()
       <==> g.config.Some? && g.firewallApplied && g.killSwitch == Armed && probe == Ok(Up)
  {}

  // An apply succeeds exactly for a policy that validates on a configured gateway whose
  // kernel takes the rules; over a live tunnel the gateway is then ready, with those rules.
  lemma ApplyingOpens(g: Controller, policy: FirewallPolicy, nft: Command, kill: Command)
    ensures var (g', r) := ApplyFirewall(g, policy, nft, kill);
            && (r.Ok? <==>
                  && policy.defaultPolicy == DropByDefault && policy.blockDirectUdp && policy.rejectHostInitiated
                  && g.config.Some? && nft == Exited(true))
            && (r.Ok? ==>
                  && Health(g', Ok(Up)).IsReady() && g'.config == g.config && g'.firewall == Some(policy)
                  && g'.kernel == Some(Compile(policy, g.config.value)))
  {}

  // What engaging the switch takes away a release gives back: the gateway is ready again
  // over a live tunnel, with the rules of the policy that was stored before.
  lemma ReleaseUndoesEngage(g: Controller, engage: Command, kill: Command)
    requires Inv(g) && g.firewallApplied && g.config.Some?
    ensures var g1 := Engage(g, engage).0;
            var (g', r) := Release(g1, Exited(true), kill);
            && r.Ok? && !Health(g1, Ok(Up)).IsReady() && Health(g', Ok(Up)).IsReady()
            && g'.firewall == g.firewall && g'.config == g.config && LoadedUnder(g', g.config.value)
  {}

  // ---- the controller object --------------------------------------------

  class NftGatewayController {
    var config: Option<GatewayConfig>
    var firewall: Option<FirewallPolicy>
    var firewallApplied: bool
    var killSwitch: KillSwitch
    var kernel: Option<Ruleset>          // what nft last loaded
    ghost var accepted: set<GatewayConfig>
    ghost var killLoadFailed: bool

    ghost function View(): Controller
      reads this
    {
      Controller(config, firewall, firewallApplied, killSwitch, kernel, accepted, killLoadFailed)
    }

    constructor ()
      ensures View() == INITIAL
    {
      config, firewall, firewallApplied, killSwitch := None, None, false, Armed;
      kernel, accepted, killLoadFailed := None, {}, false;
    }

    method LoadRuleset(rs: Ruleset, nft: Command) returns (r: Result<()>)
      modifies this`kernel
      ensures View() == Load(old(View()), rs, nft) && r == nft.AsResult()
    {
      r := nft.AsResult();
      if r.Ok? {
        kernel := Some(rs);
      }
    }

    method FailClosed(err: Error, kill: Command) returns (r: Error)
      modifies this
      ensures View() == EngageSwitch(old(View()), kill) && r == err
    {
      var rs := RenderKillSwitch();
      var loaded := LoadRuleset(rs, kill);
      killLoadFailed := loaded.Err?;
      killSwitch := Engaged;
      firewallApplied := false;
      r := err;
    }

    method ConfigureTunnel(cfg: GatewayConfig, backend: Command, kill: Command) returns (r: Result<()>)
      modifies this
      ensures (View(), r) == Configure(old(View()), cfg, backend, kill)
    {
      var started := backend.AsResult();
      if started.Err? {
        var e := FailClosed(started.error, kill);
        return Err(e);
      }
      config := Some(cfg);
      accepted := accepted + {cfg};
      return Ok(());
    }

    method ApplyPolicy(policy: FirewallPolicy, nft: Command, kill: Command) returns (r: Result<()>)
      modifies this
      ensures (View(), r) == ApplyFirewall(old(View()), policy, nft, kill)
    {
      if !policy.Validates() {
        return Err(Config);
      }
      if config.None? {
        return Err(Precondition);
      }
      var rs := RenderNftables(policy, config.value);
      var loaded := LoadRuleset(rs, nft);
      if loaded.Err? {
        var e := FailClosed(loaded.error, kill);
        return Err(e);
      }
      firewall := Some(policy);
      firewallApplied := true;
      killSwitch := Armed;
      return Ok(());
    }

    method ProbeTunnel(probe: Result<TunnelState>, kill: Command) returns (r: Result<TunnelState>)
      modifies this
      ensures (View(), r) == TunnelStatus(old(View()), probe, kill)
    {
      if config.None? {
        return Err(Precondition);
      }
      match probe {
        case Ok(status) =>
          if status == TunnelFailed {
            var _ := FailClosed(NetworkContainment, kill);
          }
          return Ok(status);
        case Err(cause) =>
          var e := FailClosed(cause, kill);
          return Err(e);
      }
    }

    method EngageKillSwitch(nft: Command) returns (r: Result<()>)
      modifies this
      ensures (View(), r) == Engage(old(View()), nft)
    {
      var rs := RenderKillSwitch();
      r := LoadRuleset(rs, nft);
      killLoadFailed := r.Err?;
      killSwitch := Engaged;
      firewallApplied := false;
    }

    method ReleaseKillSwitch(nft: Command, kill: Command) returns (r: Result<()>)
      modifies this
      ensures (View(), r) == Release(old(View()), nft, kill)
    {
      if config.None? {
        return Err(Precondition);
      }
      if firewall.None? {
        return Err(Precondition);
      }
      if !firewall.value.Validates() {
        var e := FailClosed(Config, kill);
        return Err(e);
      }
      var rs := RenderNftables(firewall.value, config.value);
      var loaded := LoadRuleset(rs, nft);
      if loaded.Err? {
        var e := FailClosed(loaded.error, kill);
        return Err(e);
      }
      killSwitch := Armed;
      firewallApplied := true;
      return Ok(());
    }

    // Read-only: no `modifies` clause.
    method ReportHealth(probe: Result<TunnelState>) returns (h: GatewayHealth)
      ensures h == Health(View(), probe)
    {
      var configured := config.Some?;
      var tunnel := Down;
      if configured {
        tunnel := if probe.Ok? then probe.value else TunnelFailed;
      }
      h := GatewayHealth(configured && killSwitch == Armed, firewallApplied, tunnel, killSwitch);
    }
  }
}
