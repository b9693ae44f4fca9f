// The route of a start: the points its drive passes, in order, with what its gateway calls
// leave behind on the way, and how each step of the session keeps to it.
module SessionRoute {
  import opened Errors
  import opened Preflight
  import opened Gateway
  import opened Firewall
  import opened InstalledPolicy
  import opened SessionMachine
  import opened SessionSafety
  import opened SessionGateway
  import opened SessionSystem

  // ---- the history of one start -----------------------------------------------------

  // A point of the drive passed with its answer, or the one it failed at; and what a step
  // of the start's own gateway calls put into the controller's record or the kernel.
  datatype Deed =
    | Passed(at: Drive, o: Oracle)
    | FailedAt(at: Drive, o: Oracle, error: Error)
    | ConfigHeld(config: GatewayConfig)
    | RulesLoaded(rules: Ruleset, config: GatewayConfig)
    | RulesHeld

  function GatewayDeed(g: CG.Shared, g': CG.Shared, sid: SessionId): seq<Deed> {
    var who := CG.OfSession(sid);
    if who !in g.tasks || who !in g'.tasks then []
    else
      match g.tasks[who]
      case StartingBackend(_) =>
        if g'.tasks[who].Returned? && g'.controller.config.Some? then [ConfigHeld(g'.controller.config.value)] else []
      case LoadingRules(_, cfg, _) =>
        if g'.tasks[who].RecordingRules? && g'.controller.kernel.Some?
        then [RulesLoaded(g'.controller.kernel.value, cfg)] else []
      case RecordingRules(_, _, _) =>
        if g'.controller.firewallApplied && g'.controller.killSwitch == Armed then [RulesHeld] else []
      case _ => []
  }

  function StartDeed(s: Session, o: Oracle, s': Session): seq<Deed> {
    if !s.start.Driving? then []
    else if s'.start.Failing? then [FailedAt(s.start.at, o, s'.start.error)]
    else [Passed(s.start.at, o)]
  }

  // ---- the route -----------------------------------------------------------------------

  datatype Kind =
    | ProxyResolved | EnteredProvisioning
    | GatewayVmMade | GatewayVmStored | BrowserVmMade | BrowserVmStored | EnteredGatewayStarting
    | ConfigurationHeld | GatewayConfigured | FirewallLoaded | FirewallHeld | FirewallApplied
    | GatewayVmStarted | BrowserVmStarted | EnteredPreflight
    | ChecksAnswered | ChecklistStored | ProxyReached | PartialStored | ModeStored
    | PolicyRendered | BrowserLaunched | HandleStored | BrowserSeen | EnteredBrowsing | LaunchTimed
    | GaveUp

  function KindOfPoint(at: Drive): Kind {
    match at
    case ResolveProxy => ProxyResolved
    case ToProvisioning => EnteredProvisioning
    case ProvisionGateway => GatewayVmMade
    case RecordGateway(_) => GatewayVmStored
    case ProvisionBrowser => BrowserVmMade
    case RecordBrowser(_) => BrowserVmStored
    case ToGatewayStarting => EnteredGatewayStarting
    case ConfigureGateway => GatewayConfigured
    case ApplyPolicy => FirewallApplied
    case StartGateway => GatewayVmStarted
    case StartBrowser => BrowserVmStarted
    case ToPreflight => EnteredPreflight
    case RunChecks => ChecksAnswered
    case StoreChecklist(_) => ChecklistStored
    case ProbeProxy => ProxyReached
    case StorePartial => PartialStored
    case StoreMode => ModeStored
    case RenderPolicy => PolicyRendered
    case Launch => BrowserLaunched
    case RecordHandle(_) => HandleStored
    case CheckRunning => BrowserSeen
    case ToBrowsing => EnteredBrowsing
    case RecordLaunch => LaunchTimed
  }

  function KindOf(d: Deed): Kind {
    match d
    case Passed(at, _) => KindOfPoint(at)
    case FailedAt(_, _, _) => GaveUp
    case ConfigHeld(_) => ConfigurationHeld
    case RulesLoaded(_, _) => FirewallLoaded
    case RulesHeld => FirewallHeld
  }

  function Kinds(deeds: seq<Deed>): seq<Kind> {
    seq(|deeds|, i requires 0 <= i < |deeds| => KindOf(deeds[i]))
  }

  // Everything a start does, in order: a full-VM one makes both VMs, configures the gateway
  // and applies the firewall before it starts either VM, and checks before it launches.
  function Route(host: bool): seq<Kind> {
    if host then
      [ProxyResolved, EnteredProvisioning, EnteredGatewayStarting, EnteredPreflight, ProxyReached,
       PartialStored, ModeStored, PolicyRendered, BrowserLaunched, HandleStored, BrowserSeen,
       EnteredBrowsing, LaunchTimed]
    else
      [EnteredProvisioning, GatewayVmMade, GatewayVmStored, BrowserVmMade, BrowserVmStored,
       EnteredGatewayStarting, ConfigurationHeld, GatewayConfigured, FirewallLoaded, FirewallHeld,
       FirewallApplied, GatewayVmStarted, BrowserVmStarted, EnteredPreflight, ChecksAnswered,
       ChecklistStored, PolicyRendered, BrowserLaunched, HandleStored, BrowserSeen,
       EnteredBrowsing, LaunchTimed]
  }

  // ---- what the deeds hold ----------------------------------------------------------------

  // The points at which a capability is awaited.
  predicate Awaited(at: Drive) {
    at.ProvisionGateway? || at.ProvisionBrowser? || at.ConfigureGateway? || at.ApplyPolicy? || at.StartGateway?
    || at.StartBrowser? || at.RunChecks? || at.ProbeProxy? || at.RenderPolicy? || at.Launch? || at.CheckRunning?
  }

  // A point passed was answered without an error, and with a yes where a yes was asked for.
  predicate Answered(at: Drive, o: Oracle) {
    && (Awaited(at) || at.ResolveProxy? ==> o.fault.None?)
    && (at.ProbeProxy? || at.CheckRunning? ==> o.yes)
    && (at.StoreChecklist? ==> RunPreflight(CONTEXT, at.probes).AllPassed())
  }

  // A start fails with the error of the call it awaited; a checklist that does not permit
  // browsing, and a proxy that cannot be reached, fail it with a containment error, and a
  // browser that is not running with a system error.
  predicate RightError(at: Drive, o: Oracle, e: Error) {
    && (Awaited(at) && o.fault.Some? ==> e == o.fault.value)
    && (at.StoreChecklist? || (at.ProbeProxy? && o.fault.None?) ==> e == NetworkContainment)
    && (at.CheckRunning? && o.fault.None? ==> e == System)
  }

  ghost predicate Sound(spec: Spec, d: Deed) {
    match d
    case Passed(at, o) => Answered(at, o)
    case FailedAt(at, o, e) => RightError(at, o, e)
    case ConfigHeld(config) => config == GatewayConfig(spec.network, spec.ipv6, "10.152.152.0/24")
    case RulesLoaded(rules, config) => Protects(rules, config.downstreamCidr, spec.network, spec.ipv6)
    case RulesHeld => true
  }

  // What is stored is what the call before it gave.
  predicate Links(d: Deed, at: Drive) {
    && (at.RecordGateway? ==> d.Passed? && at.vm == d.o.vm)
    && (at.RecordBrowser? ==> d.Passed? && at.vm == d.o.vm)
    && (at.StoreChecklist? ==> d.Passed? && at.probes == d.o.probes)
    && (at.RecordHandle? ==> d.Passed? && at.handle == d.o.handle)
  }

  predicate LastLinks(deeds: seq<Deed>, at: Drive) {
    && (at.RecordGateway? || at.RecordBrowser? || at.StoreChecklist? || at.RecordHandle? ==> deeds != [])
    && (deeds != [] ==> Links(deeds[|deeds| - 1], at))
  }

  ghost predicate Linked(deeds: seq<Deed>) {
    forall k :: 0 < k < |deeds| && deeds[k].Passed? ==> Links(deeds[k - 1], deeds[k].at)
  }

  ghost predicate OnWay(spec: Spec, deeds: seq<Deed>, n: nat) {
    && |deeds| == n <= |Route(spec.host)|
    && Kinds(deeds) == Route(spec.host)[..n]
    && (forall d | d in deeds :: Sound(spec, d))
    && Linked(deeds)
  }

  // What a deed has left in the row.
  predicate InRow(e: Entry, d: Deed) {
    d.Passed? ==>
      && (d.at.RecordGateway? ==> e.gatewayVm == Some(d.at.vm))
      && (d.at.RecordBrowser? ==> e.browserVm == Some(d.at.vm))
      && (d.at.RecordHandle? ==> e.handle == Some(d.at.handle))
      && (d.at.StoreChecklist? ==>
            e.Summary().publicIp
            == if d.at.probes.publicIp.Ok? && d.at.probes.publicIp.value.Some?
               then Some(d.at.probes.publicIp.value.value.ip) else None)
  }

  ghost predicate RowHolds(s: Session, deeds: seq<Deed>) {
    s.entry.Some? && !s.entry.value.state.ShuttingDown() ==> forall d | d in deeds :: InRow(s.entry.value, d)
  }

  // ---- positions on the route ---------------------------------------------------------------

  function Position(host: bool, at: Drive): nat {
    match at
    case ResolveProxy => 0
    case ToProvisioning => if host then 1 else 0
    case ProvisionGateway => 1
    case RecordGateway(_) => 2
    case ProvisionBrowser => 3
    case RecordBrowser(_) => 4
    case ToGatewayStarting => if host then 2 else 5
    case ConfigureGateway => 6
    case ApplyPolicy => 8
    case StartGateway => 11
    case StartBrowser => 12
    case ToPreflight => if host then 3 else 13
    case RunChecks => 14
    case StoreChecklist(_) => 15
    case ProbeProxy => 4
    case StorePartial => 5
    case StoreMode => 6
    case RenderPolicy => if host then 7 else 16
    case Launch => if host then 8 else 17
    case RecordHandle(_) => if host then 9 else 18
    case CheckRunning => if host then 10 else 19
    case ToBrowsing => if host then 11 else 20
    case RecordLaunch => if host then 12 else 21
  }

  // How far the start's own gateway call has come since its point was reached.
  function CallDeeds(g: CG.Shared, sid: SessionId, at: Drive): nat {
    var who := CG.OfSession(sid);
    if who !in g.tasks then 0
    else if at.ConfigureGateway? then (if g.tasks[who].Returned? && g.tasks[who].answer.None? then 1 else 0)
    else if at.ApplyPolicy? then
      (if g.tasks[who].RecordingRules? then 1
       else if g.tasks[who].Returned? && g.tasks[who].answer.None? then 2
       else 0)
    else 0
  }

  // How many deeds lie between a point and its successor, its own passing included.
  function Stride(at: Drive): nat {
    if at.ConfigureGateway? then 2 else if at.ApplyPolicy? then 3 else 1
  }

  ghost predicate GaveUpOn(spec: Spec, deeds: seq<Deed>, e: Error) {
    deeds != [] ==>
      && var n := |deeds| - 1;
         OnWay(spec, deeds[..n], n) && deeds[n].FailedAt? && deeds[n].error == e && Sound(spec, deeds[n])
  }

  ghost predicate OnRoute(g: CG.Shared, sid: SessionId, s: Session, deeds: seq<Deed>) {
    (deeds != [] ==> s.entry.Some?) &&
    match s.start
    case Locking => deeds == []
    case Keying(_) => deeds == []
    case Unlocking(_, _) => deeds == []
    case Driving(at) =>
      && OnWay(s.spec, deeds, Position(s.spec.host, at) + CallDeeds(g, sid, at))
      && (CallDeeds(g, sid, at) == 0 ==> LastLinks(deeds, at))
      && RowHolds(s, deeds)
    case Failing(e) => GaveUpOn(s.spec, deeds, e)
    case Auditing(e) => GaveUpOn(s.spec, deeds, e)
    case TearingDown(e, _) => GaveUpOn(s.spec, deeds, e)
    case Done(outcome) =>
      if outcome.Some? then GaveUpOn(s.spec, deeds, outcome.value)
      else OnWay(s.spec, deeds, |Route(s.spec.host)|) && RowHolds(s, deeds)
  }

  // ---- one step of the drive ----------------------------------------------------------------

  predicate Setup(at: Drive) {
    at.ResolveProxy? || at.ToProvisioning? || at.ProvisionGateway? || at.RecordGateway? || at.ProvisionBrowser?
    || at.RecordBrowser? || at.ToGatewayStarting?
  }

  predicate Opening(at: Drive) {
    at.ConfigureGateway? || at.ApplyPolicy? || at.StartGateway? || at.StartBrowser? || at.ToPreflight?
  }

  predicate Gate(at: Drive) {
    at.RunChecks? || at.StoreChecklist? || at.ProbeProxy? || at.StorePartial? || at.StoreMode?
  }

  predicate Launching(at: Drive) {
    at.RenderPolicy? || at.Launch? || at.RecordHandle? || at.CheckRunning? || at.ToBrowsing?
  }

  // One step of a drive fails rightly, or passes its point and stands at the next.
  ghost predicate OneOn(s: Session, o: Oracle, s': Session) {
    s.start.Driving? &&
    match s'.start
    case Failing(e) => RightError(s.start.at, o, e)
    case Driving(at) =>
      && Answered(s.start.at, o) && Links(Passed(s.start.at, o), at)
      && Position(s.spec.host, at) == Position(s.spec.host, s.start.at) + Stride(s.start.at)
    case Done(outcome) => outcome.None? && Answered(s.start.at, o) && s.start.at.RecordLaunch?
    case _ => false
  }

  lemma MakingPasses(s: Session, o: Oracle)
    requires s.start.Driving? && OnPath(s.spec, s.start.at)
    requires s.start.at.ResolveProxy? || s.start.at.ProvisionGateway? || s.start.at.ProvisionBrowser?
    ensures OneOn(s, o, StartStep(s, o))
  {
    hide TeardownStep, RunPreflight, StoreResult, MoveTo;
  }

  lemma StoringPasses(s: Session, o: Oracle)
    requires s.start.Driving? && OnPath(s.spec, s.start.at) && Setup(s.start.at)
    requires !(s.start.at.ResolveProxy? || s.start.at.ProvisionGateway? || s.start.at.ProvisionBrowser?)
    ensures OneOn(s, o, StartStep(s, o))
  {
    hide TeardownStep, RunPreflight, StoreResult, Await;
  }

  lemma OpeningPasses(s: Session, o: Oracle)
    requires s.start.Driving? && OnPath(s.spec, s.start.at) && Opening(s.start.at)
    ensures OneOn(s, o, StartStep(s, o))
  {
    hide TeardownStep, RunPreflight, StoreResult;
  }

  lemma GatePasses(s: Session, o: Oracle)
    requires s.start.Driving? && OnPath(s.spec, s.start.at) && Gate(s.start.at)
    ensures OneOn(s, o, StartStep(s, o))
  {
    hide TeardownStep, RunPreflight, MoveTo;
    if s.start.at.StoreChecklist? {
      PermitMeansAll(RunPreflight(CONTEXT, s.start.at.probes));
    }
  }

  lemma PermitMeansAll(list: Checklist)
    ensures list.PermitsBrowsing() <==> list.AllPassed()
  {}

  lemma LaunchPasses(s: Session, o: Oracle)
    requires s.start.Driving? && OnPath(s.spec, s.start.at) && Launching(s.start.at) && !s.start.at.ToBrowsing?
    ensures OneOn(s, o, StartStep(s, o))
  {
    hide TeardownStep, RunPreflight, StoreResult, MoveTo;
  }

  lemma LastPasses(s: Session, o: Oracle)
    requires s.start.Driving? && OnPath(s.spec, s.start.at) && (s.start.at.ToBrowsing? || s.start.at.RecordLaunch?)
    ensures OneOn(s, o, StartStep(s, o))
  {
    hide TeardownStep, RunPreflight, StoreResult;
  }

  lemma DrivePasses(s: Session, o: Oracle)
    requires s.start.Driving? && OnPath(s.spec, s.start.at)
    ensures OneOn(s, o, StartStep(s, o))
  {
    hide OneOn, StartStep, OnPath;
    if s.start.at.ResolveProxy? || s.start.at.ProvisionGateway? || s.start.at.ProvisionBrowser? {
      MakingPasses(s, o);
    } else if Setup(s.start.at) {
      StoringPasses(s, o);
    } else if Opening(s.start.at) {
      OpeningPasses(s, o);
    } else if Gate(s.start.at) {
      GatePasses(s, o);
    } else if Launching(s.start.at) && !s.start.at.ToBrowsing? {
      LaunchPasses(s, o);
    } else {
      LastPasses(s, o);
    }
  }

  lemma RoutePoint(spec: Spec, at: Drive)
    requires OnPath(spec, at)
    ensures var n := Position(spec.host, at) + Stride(at) - 1;
            n < |Route(spec.host)| && Route(spec.host)[n] == KindOfPoint(at)
    ensures at.RecordLaunch? ==> Position(spec.host, at) + 1 == |Route(spec.host)|
  {}

  lemma RouteOfGateway()
    ensures var r := Route(false);
            |r| == 22 && r[6] == ConfigurationHeld && r[8] == FirewallLoaded && r[9] == FirewallHeld
  {}

  // ---- one more deed ---------------------------------------------------------------------------

  lemma OneMoreDeed(spec: Spec, deeds: seq<Deed>, n: nat, d: Deed)
    requires OnWay(spec, deeds, n) && n < |Route(spec.host)| && Route(spec.host)[n] == KindOf(d)
    requires Sound(spec, d) && (d.Passed? ==> LastLinks(deeds, d.at))
    ensures OnWay(spec, deeds + [d], n + 1)
  {
    hide Sound, Links, KindOf, Route;
    var more := deeds + [d];
    assert Kinds(more) == Kinds(deeds) + [KindOf(d)];
    assert Route(spec.host)[..n + 1] == Route(spec.host)[..n] + [Route(spec.host)[n]];
    forall k | 0 < k < |more| && more[k].Passed?
      ensures Links(more[k - 1], more[k].at)
    {
      if k < n {
        assert more[k] == deeds[k] && more[k - 1] == deeds[k - 1];
      }
    }
  }

  // ---- the start's own gateway calls -------------------------------------------------------------

  // A turn that does not end the call adds the deed that belongs at this place of the route,
  // or none.
  ghost predicate NextCallDeed(g: CG.Shared, g': CG.Shared, sid: SessionId, s: Session, at: Drive) {
    var d, n := GatewayDeed(g, g', sid), CallDeeds(g, sid, at);
    if d == [] then CallDeeds(g', sid, at) == n
    else
      && CallDeeds(g', sid, at) == n + 1 < Stride(at)
      && |d| == 1 && !d[0].Passed? && Sound(s.spec, d[0])
      && Position(s.spec.host, at) + n < |Route(s.spec.host)|
      && Route(s.spec.host)[Position(s.spec.host, at) + n] == KindOf(d[0])
  }

  lemma ConfigureMoves(g: CG.Shared, sid: SessionId, s: Session, o: CG.Outcome)
    requires CG.SharedInv(g) && Belongs(g, sid, s) && s.start == Driving(ConfigureGateway) && !s.spec.host
    requires !Turn(g, sid, GatewayCall(s).value, o).done
    ensures NextCallDeed(g, Turn(g, sid, GatewayCall(s).value, o).gateway, sid, s, ConfigureGateway)
  {
    hide Compile, Protects, KillSwitchRuleset, CG.RecordInv;
    RouteOfGateway();
  }

  lemma ApplyMoves(g: CG.Shared, sid: SessionId, s: Session, o: CG.Outcome)
    requires CG.SharedInv(g) && Belongs(g, sid, s) && s.start == Driving(ApplyPolicy) && !s.spec.host
    requires g.controller.config.Some? && !Turn(g, sid, GatewayCall(s).value, o).done
    ensures NextCallDeed(g, Turn(g, sid, GatewayCall(s).value, o).gateway, sid, s, ApplyPolicy)
  {
    hide Compile, Protects, KillSwitchRuleset;
    RouteOfGateway();
    var who := CG.OfSession(sid);
    if who in g.tasks && g.tasks[who].LoadingRules? {
      FailClosedProtects(s.spec.Config(), g.tasks[who].cfg);
    }
  }

  // ---- the row -----------------------------------------------------------------------------------

  // A step of the drive leaves what earlier deeds put into the row, and puts its own.
  ghost predicate RowStep(s: Session, s': Session, d: Deed) {
    && s.entry.Some? && s'.entry.Some? && (s.entry.value.state.ShuttingDown() ==> s'.entry.value.state.ShuttingDown())
    && InRow(s'.entry.value, d)
    && (forall e | InRow(s.entry.value, e) && KindOf(e) != KindOf(d) :: InRow(s'.entry.value, e))
  }

  lemma SetupFillsRow(s: Session, o: Oracle)
    requires s.start.Driving? && s.entry.Some? && Setup(s.start.at)
    requires !StartStep(s, o).start.Failing?
    ensures RowStep(s, StartStep(s, o), Passed(s.start.at, o))
  {
    hide TeardownStep, RunPreflight, StoreResult;
  }

  lemma OpeningFillsRow(s: Session, o: Oracle)
    requires s.start.Driving? && s.entry.Some? && Opening(s.start.at)
    requires !StartStep(s, o).start.Failing?
    ensures RowStep(s, StartStep(s, o), Passed(s.start.at, o))
  {
    hide TeardownStep, RunPreflight, StoreResult;
  }

  lemma ChecklistFillsRow(s: Session, o: Oracle)
    requires s.start.Driving? && s.entry.Some? && s.start.at.StoreChecklist?
    requires !StartStep(s, o).start.Failing?
    ensures RowStep(s, StartStep(s, o), Passed(s.start.at, o))
  {
    hide TeardownStep, MoveTo, Await;
  }

  lemma GateFillsRow(s: Session, o: Oracle)
    requires s.start.Driving? && s.entry.Some? && Gate(s.start.at) && !s.start.at.StoreChecklist?
    requires !StartStep(s, o).start.Failing?
    ensures RowStep(s, StartStep(s, o), Passed(s.start.at, o))
  {
    hide TeardownStep, MoveTo, RunPreflight, StoreResult;
  }

  lemma LaunchFillsRow(s: Session, o: Oracle)
    requires s.start.Driving? && s.entry.Some? && Launching(s.start.at) && !s.start.at.ToBrowsing?
    requires !StartStep(s, o).start.Failing?
    ensures RowStep(s, StartStep(s, o), Passed(s.start.at, o))
  {
    hide TeardownStep, RunPreflight, StoreResult, MoveTo;
  }

  lemma LastFillsRow(s: Session, o: Oracle)
    requires s.start.Driving? && s.entry.Some? && (s.start.at.ToBrowsing? || s.start.at.RecordLaunch?)
    requires !StartStep(s, o).start.Failing?
    ensures RowStep(s, StartStep(s, o), Passed(s.start.at, o))
  {
    hide TeardownStep, RunPreflight, StoreResult;
  }

  lemma DriveFillsRow(s: Session, o: Oracle)
    requires s.start.Driving? && s.entry.Some? && !StartStep(s, o).start.Failing?
    ensures RowStep(s, StartStep(s, o), Passed(s.start.at, o))
  {
    hide StartStep, RowStep;
    if Setup(s.start.at) {
      SetupFillsRow(s, o);
    } else if Opening(s.start.at) {
      OpeningFillsRow(s, o);
    } else if s.start.at.StoreChecklist? {
      ChecklistFillsRow(s, o);
    } else if Gate(s.start.at) {
      GateFillsRow(s, o);
    } else if Launching(s.start.at) && !s.start.at.ToBrowsing? {
      LaunchFillsRow(s, o);
    } else {
      LastFillsRow(s, o);
    }
  }

  lemma NoKindTwice(host: bool, i: nat, j: nat)
    requires i < j < |Route(host)|
    ensures Route(host)[i] != Route(host)[j]
  {}

  lemma EarlierKindsDiffer(spec: Spec, deeds: seq<Deed>, n: nat, d: Deed)
    requires OnWay(spec, deeds, n) && n < |Route(spec.host)| && Route(spec.host)[n] == KindOf(d)
    ensures forall e | e in deeds :: KindOf(e) != KindOf(d)
  {
    hide Route, Sound, Linked, KindOf;
    forall e | e in deeds
      ensures KindOf(e) != KindOf(d)
    {
      var i :| 0 <= i < n && deeds[i] == e;
      assert Kinds(deeds)[i] == Route(spec.host)[..n][i];
      NoKindTwice(spec.host, i, n);
    }
  }

  lemma RowKeeps(s: Session, s': Session, deeds: seq<Deed>, d: Deed)
    requires s.entry.Some? && RowStep(s, s', d) && RowHolds(s, deeds)
    requires forall e | e in deeds :: KindOf(e) != KindOf(d)
    ensures RowHolds(s', deeds + [d])
  {
    hide InRow, KindOf;
  }

  // A step of a stop leaves the row or shuts the session down.
  lemma StopsKeepRow(s: Session, a: Action, deeds: seq<Deed>)
    requires Safe(s) && !a.Advance? && RowHolds(s, deeds)
    ensures RowHolds(Step(s, a), deeds)
  {
    hide InRow, DataInv, TeardownStep;
    if a.AdvanceStop? && StopInFlight(s, a.id) && s.stops[a.id].Stopping? {
      TeardownRow(s, ByStop(a.id), s.stops[a.id].td);
    }
  }

  // ---- every step of the session keeps to the route ------------------------------------------------

  // Outside the drive nothing is done, and no drive begins but at the start of the route.
  ghost predicate SameStory(s: Session, s': Session) {
    match s'.start
    case Locking => s.start.Locking?
    case Keying(_) => s.start.Locking?
    case Unlocking(_, _) => s.start.Keying?
    case Driving(at) =>
      s.start.Keying? && Position(s.spec.host, at) == 0 && LastLinks([], at) && OnPath(s.spec, at)
    case Failing(e) => false
    case Auditing(e) => s.start == Failing(e)
    case TearingDown(e, _) =>
      s.start == Failing(e) || s.start == Auditing(e) || (s.start.TearingDown? && s.start.error == e)
    case Done(outcome) =>
      || s.start == s'.start
      || (outcome.Some?
          && (s.start.Locking? || s.start.Unlocking? || (s.start.TearingDown? && s.start.error == outcome.value)))
  }

  lemma OutsideDriveSameStory(s: Session, o: Oracle)
    requires !s.start.Driving?
    ensures SameStory(s, StartStep(s, o)) && StartStep(s, o).spec == s.spec
    ensures s.start.Done? ==> StartStep(s, o) == s
  {
    hide DriveStep, TeardownStep;
    if s.start.TearingDown? {
      TeardownRow(s, ByStart, s.start.td);
    }
  }

  lemma NothingOnWay(spec: Spec)
    ensures OnWay(spec, [], 0)
  {}

  lemma OutsideDriveKeepsRoute(g: CG.Shared, g': CG.Shared, sid: SessionId, s: Session, o: Oracle, deeds: seq<Deed>)
    requires Safe(s) && !s.start.Driving? && OnRoute(g, sid, s, deeds) && CG.OfSession(sid) !in g'.tasks
    ensures OnRoute(g', sid, StartStep(s, o), deeds)
  {
    hide OnWay, GaveUpOn, StartStep, Safe;
    if deeds != [] {
      RowsStay(s, Advance(o));
    }
    OutsideDriveSameStory(s, o);
    NothingOnWay(s.spec);
    NothingGivenUp(s.spec);
    assert RowHolds(StartStep(s, o), []);
  }

  lemma RowsStay(s: Session, a: Action)
    requires Safe(s) && s.entry.Some?
    ensures Step(s, a).entry.Some?
  {
    hide DataInv, TeardownStep, RunPreflight;
    match a {
      case Advance(o) =>
        if s.start.TearingDown? {
          TeardownRow(s, ByStart, s.start.td);
        } else if s.start.Driving? {
          DriveHasShape(s, o);
        }
      case AdvanceStop(id) =>
        if StopInFlight(s, id) && s.stops[id].Stopping? {
          TeardownRow(s, ByStop(id), s.stops[id].td);
        }
      case Call(_) =>
    }
  }

  lemma NothingGivenUp(spec: Spec)
    ensures forall e :: GaveUpOn(spec, [], e)
  {}

  lemma DriveKeepsSpec(s: Session, o: Oracle)
    requires Safe(s) && s.start.Driving?
    ensures StartStep(s, o).spec == s.spec
  {
    hide DriveStep, TeardownStep;
    DriveHasShape(s, o);
  }

  lemma FailedRightly(spec: Spec, d: Deed)
    requires d.FailedAt? && RightError(d.at, d.o, d.error)
    ensures Sound(spec, d)
  {}

  lemma PassedSoundly(spec: Spec, at: Drive, o: Oracle)
    requires Answered(at, o)
    ensures Sound(spec, Passed(at, o)) && KindOf(Passed(at, o)) == KindOfPoint(at)
  {}

  lemma OnWayLength(spec: Spec, deeds: seq<Deed>, n: nat)
    requires OnWay(spec, deeds, n)
    ensures |deeds| == n && OnWay(spec, deeds, |deeds|)
  {}

  lemma CallsLinkNothing(deeds: seq<Deed>, at: Drive)
    requires at.ConfigureGateway? || at.ApplyPolicy?
    ensures LastLinks(deeds, at)
  {}

  lemma LastDeedLinks(deeds: seq<Deed>, d: Deed, at: Drive)
    requires Links(d, at)
    ensures LastLinks(deeds + [d], at)
  {}

  // A step of the drive that fails.
  lemma FailingKeepsRoute(g: CG.Shared, g': CG.Shared, sid: SessionId, s: Session, o: Oracle, deeds: seq<Deed>)
    requires Safe(s) && s.start.Driving? && OnRoute(g, sid, s, deeds) && StartStep(s, o).start.Failing?
    ensures OnRoute(g', sid, StartStep(s, o), deeds + StartDeed(s, o, StartStep(s, o)))
  {
    hide StartStep, OnWay, Sound, RowHolds, Position, DataInv, LastLinks, Links;
    var at, d := s.start.at, FailedAt(s.start.at, o, StartStep(s, o).start.error);
    DriveKeepsSpec(s, o);
    DrivePasses(s, o);
    RowsStay(s, Advance(o));
    assert (deeds + [d])[..|deeds|] == deeds;
    FailedRightly(s.spec, d);
    OnWayLength(s.spec, deeds, Position(s.spec.host, at) + CallDeeds(g, sid, at));
  }

  // A step of the drive, with its gateway call answered if it made one.
  lemma PassingKeepsRoute(g: CG.Shared, g': CG.Shared, sid: SessionId, s: Session, o: Oracle, deeds: seq<Deed>)
    requires Safe(s) && s.start.Driving? && OnRoute(g, sid, s, deeds) && CG.OfSession(sid) !in g'.tasks
    requires !StartStep(s, o).start.Failing? && CallDeeds(g, sid, s.start.at) == Stride(s.start.at) - 1
    ensures OnRoute(g', sid, StartStep(s, o), deeds + StartDeed(s, o, StartStep(s, o)))
  {
    hide StartStep, OnWay, Sound, RowHolds, RowStep, Position, DataInv, LastLinks, Links;
    var s', at := StartStep(s, o), s.start.at;
    var n, d := Position(s.spec.host, at) + CallDeeds(g, sid, at), Passed(at, o);
    DriveKeepsSpec(s, o);
    DrivePasses(s, o);
    RowsStay(s, Advance(o));
    RoutePoint(s.spec, at);
    PassedSoundly(s.spec, at, o);
    OnWayLength(s.spec, deeds, n);
    if at.ConfigureGateway? || at.ApplyPolicy? {
      CallsLinkNothing(deeds, at);
    }
    OneMoreDeed(s.spec, deeds, n, d);
    EarlierKindsDiffer(s.spec, deeds, n, d);
    DriveFillsRow(s, o);
    RowKeeps(s, s', deeds, d);
    if s'.start.Driving? {
      LastDeedLinks(deeds, d, s'.start.at);
    }
  }

  lemma DriveKeepsRoute(g: CG.Shared, g': CG.Shared, sid: SessionId, s: Session, o: Oracle, deeds: seq<Deed>)
    requires Safe(s) && s.start.Driving? && OnRoute(g, sid, s, deeds) && CG.OfSession(sid) !in g'.tasks
    requires StartStep(s, o).start.Failing? || CallDeeds(g, sid, s.start.at) == Stride(s.start.at) - 1
    ensures OnRoute(g', sid, StartStep(s, o), deeds + StartDeed(s, o, StartStep(s, o)))
  {
    hide StartStep, OnRoute;
    if StartStep(s, o).start.Failing? {
      FailingKeepsRoute(g, g', sid, s, o, deeds);
    } else {
      PassingKeepsRoute(g, g', sid, s, o, deeds);
    }
  }
}
