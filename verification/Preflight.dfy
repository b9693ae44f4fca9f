// The six-check connectivity checklist and the auditor that fills it in.
module Preflight {
  import opened Errors

  datatype CheckId =
    | GatewayReady
    | TunnelReady
    | DnsRouteVerified
    | PublicIpObserved
    | WebrtcPolicyLoaded
    | Ipv6PolicyVerified

  const ALL_CHECKS: seq<CheckId> :=
    [GatewayReady, TunnelReady, DnsRouteVerified, PublicIpObserved, WebrtcPolicyLoaded, Ipv6PolicyVerified]

  datatype Outcome = Pass | Fail | Skipped

  datatype CheckReport = CheckReport(id: CheckId, outcome: Outcome)

  datatype IpObservation = IpObservation(ip: string, viaTunnel: bool, differsFromHost: bool)

  datatype ProtectionStatus = Active | Partial | Unsafe | NoProtection {
    predicate PermitsBrowsing() { Active? }
  }

  // The first report with the wanted id, as an iterator `find` returns it.
  function FirstReport(reports: seq<CheckReport>, id: CheckId): Option<CheckReport> {
    if reports == [] then None
    else if reports[0].id == id then Some(reports[0])
    else FirstReport(reports[1..], id)
  }

  datatype Checklist = Checklist(reports: seq<CheckReport>, observedIp: Option<IpObservation>) {

    function Report(id: CheckId): Option<CheckReport> {
      FirstReport(reports, id)
    }

    predicate Passed(id: CheckId) {
      Report(id).Some? && Report(id).value.outcome.Pass?
    }

    predicate AllPassed() {
      forall id | id in ALL_CHECKS :: Passed(id)
    }

    function Failures(): seq<CheckId> {
      FailuresAmong(ALL_CHECKS)
    }

    function FailuresAmong(ids: seq<CheckId>): seq<CheckId> {
      if ids == [] then []
      else if Passed(ids[0]) then FailuresAmong(ids[1..])
      else [ids[0]] + FailuresAmong(ids[1..])
    }

    function Status(): ProtectionStatus {
      if AllPassed() then Active
      else if !Passed(GatewayReady) || !Passed(TunnelReady) then NoProtection
      else Unsafe
    }

    predicate PermitsBrowsing() {
      Status().PermitsBrowsing()
    }
  }

  // What the auditor is told about the session.
  datatype PreflightContext = PreflightContext(webrtcPolicyInstalled: bool, hostPublicIp: Option<string>)

  // One answer per probe method; any of them may fail to run.
  datatype Probes = Probes(
    gatewayReachable: Result<bool>,
    tunnelUp: Result<bool>,
    dnsRouteOk: Result<bool>,
    publicIp: Result<Option<IpObservation>>,
    ipv6Blocked: Result<bool>)

  function BooleanReport(id: CheckId, result: Result<bool>): CheckReport {
    match result
    case Ok(true) => CheckReport(id, Pass)
    case Ok(false) => CheckReport(id, Fail)
    case Err(_) => CheckReport(id, Fail)
  }

  function CheckWebrtc(ctx: PreflightContext): CheckReport {
    CheckReport(WebrtcPolicyLoaded, if ctx.webrtcPolicyInstalled then Pass else Fail)
  }

  function CheckPublicIp(ctx: PreflightContext, probe: Result<Option<IpObservation>>)
    : (CheckReport, Option<IpObservation>)
  {
    match probe
    case Ok(Some(obs)) =>
      var matchesHost := ctx.hostPublicIp.Some? && ctx.hostPublicIp.value == obs.ip;
      var differs := obs.differsFromHost && !matchesHost;
      (CheckReport(PublicIpObserved, if obs.viaTunnel && differs then Pass else Fail), Some(obs))
    case Ok(None) => (CheckReport(PublicIpObserved, Fail), None)
    case Err(_) => (CheckReport(PublicIpObserved, Fail), None)
  }

  function RunCheck(id: CheckId, ctx: PreflightContext, probes: Probes): CheckReport {
    match id
    case GatewayReady => BooleanReport(GatewayReady, probes.gatewayReachable)
    case TunnelReady => BooleanReport(TunnelReady, probes.tunnelUp)
    case DnsRouteVerified => BooleanReport(DnsRouteVerified, probes.dnsRouteOk)
    case PublicIpObserved => CheckPublicIp(ctx, probes.publicIp).0
    case WebrtcPolicyLoaded => CheckWebrtc(ctx)
    case Ipv6PolicyVerified => BooleanReport(Ipv6PolicyVerified, probes.ipv6Blocked)
  }

  function RunPreflight(ctx: PreflightContext, probes: Probes): Checklist {
    var gateway := BooleanReport(GatewayReady, probes.gatewayReachable);
    var tunnel := BooleanReport(TunnelReady, probes.tunnelUp);
    var dns := BooleanReport(DnsRouteVerified, probes.dnsRouteOk);
    var (publicIp, observedIp) := CheckPublicIp(ctx, probes.publicIp);
    var webrtc := CheckWebrtc(ctx);
    var ipv6 := BooleanReport(Ipv6PolicyVerified, probes.ipv6Blocked);
    Checklist([gateway, tunnel, dns, publicIp, webrtc, ipv6], observedIp)
  }

  // The reduced checklist recorded for a host-process session.
  function HostChecklist(): Checklist {
    Checklist(
      [CheckReport(GatewayReady, Skipped), CheckReport(TunnelReady, Pass), CheckReport(DnsRouteVerified, Skipped),
       CheckReport(PublicIpObserved, Skipped), CheckReport(WebrtcPolicyLoaded, Skipped),
       CheckReport(Ipv6PolicyVerified, Skipped)],
      None)
  }

  // Every guarantee was positively measured (or, for WebRTC, asserted by the context).
  ghost predicate AllPositive(ctx: PreflightContext, probes: Probes) {
    && probes.gatewayReachable == Ok(true)
    && probes.tunnelUp == Ok(true)
    && probes.dnsRouteOk == Ok(true)
    && probes.ipv6Blocked == Ok(true)
    && ctx.webrtcPolicyInstalled
    && probes.publicIp.Ok? && probes.publicIp.value.Some?
    && var obs := probes.publicIp.value.value;
       obs.viaTunnel && obs.differsFromHost && ctx.hostPublicIp != Some(obs.ip)
  }

  lemma {:induction false} ReportOf(reports: seq<CheckReport>, id: CheckId, k: nat)
    requires k < |reports| && reports[k].id == id
    requires forall j | 0 <= j < k :: reports[j].id != id
    ensures FirstReport(reports, id) == Some(reports[k])
  {
    if k > 0 {
      ReportOf(reports[1..], id, k - 1);
    }
  }

  // Running one check alone yields the report the full run files under that id.
  lemma PreflightFilesEveryCheck(ctx: PreflightContext, probes: Probes, id: CheckId)
    ensures RunPreflight(ctx, probes).Report(id) == Some(RunCheck(id, ctx, probes))
  {
    var k: nat :=
      match id
      case GatewayReady => 0
      case TunnelReady => 1
      case DnsRouteVerified => 2
      case PublicIpObserved => 3
      case WebrtcPolicyLoaded => 4
      case Ipv6PolicyVerified => 5;
    ReportOf(RunPreflight(ctx, probes).reports, id, k);
  }

  // Each check passes exactly on a positive answer of its own probe, and fails otherwise.
  lemma EachCheckMeasuresItsOwn(ctx: PreflightContext, probes: Probes, id: CheckId)
    ensures var list := RunPreflight(ctx, probes);
            && list.Report(id).Some? && !list.Report(id).value.outcome.Skipped?
            && (list.Passed(id) <==>
                  match id
                  case GatewayReady => probes.gatewayReachable == Ok(true)
                  case TunnelReady => probes.tunnelUp == Ok(true)
                  case DnsRouteVerified => probes.dnsRouteOk == Ok(true)
                  case PublicIpObserved =>
                    && probes.publicIp.Ok? && probes.publicIp.value.Some?
                    && var obs := probes.publicIp.value.value;
                       obs.viaTunnel && obs.differsFromHost && ctx.hostPublicIp != Some(obs.ip)
                  case WebrtcPolicyLoaded => ctx.webrtcPolicyInstalled
                  case Ipv6PolicyVerified => probes.ipv6Blocked == Ok(true))
  {
    PreflightFilesEveryCheck(ctx, probes, id);
  }

  // What is recorded for a host-process session vouches for its proxy and nothing else.
  lemma HostChecklistVouchesForTheProxy(id: CheckId)
    ensures HostChecklist().Passed(id) <==> id == TunnelReady
    ensures !HostChecklist().PermitsBrowsing() && HostChecklist().observedIp.None?
  {
    var k: nat :=
      match id
      case GatewayReady => 0
      case TunnelReady => 1
      case DnsRouteVerified => 2
      case PublicIpObserved => 3
      case WebrtcPolicyLoaded => 4
      case Ipv6PolicyVerified => 5;
    ReportOf(HostChecklist().reports, id, k);
    ReportOf(HostChecklist().reports, GatewayReady, 0);
    assert GatewayReady in ALL_CHECKS;
  }

  // Fail-closed: the aggregate is Active exactly when all six guarantees were positively measured.
  lemma ActiveIffAllPositive(ctx: PreflightContext, probes: Probes)
    ensures RunPreflight(ctx, probes).Status() == Active <==> AllPositive(ctx, probes)
  {
    var list := RunPreflight(ctx, probes);
    forall id: CheckId ensures list.Report(id) == Some(RunCheck(id, ctx, probes)) {
      PreflightFilesEveryCheck(ctx, probes, id);
    }
    if list.AllPassed() {
      assert GatewayReady in ALL_CHECKS && TunnelReady in ALL_CHECKS && DnsRouteVerified in ALL_CHECKS;
      assert PublicIpObserved in ALL_CHECKS && WebrtcPolicyLoaded in ALL_CHECKS && Ipv6PolicyVerified in ALL_CHECKS;
      assert list.Passed(GatewayReady) && list.Passed(TunnelReady) && list.Passed(DnsRouteVerified);
      assert list.Passed(PublicIpObserved) && list.Passed(WebrtcPolicyLoaded) && list.Passed(Ipv6PolicyVerified);
    }
  }

  lemma {:induction false} FailuresAmongExact(list: Checklist, ids: seq<CheckId>)
    ensures forall id :: id in list.FailuresAmong(ids) <==> id in ids && !list.Passed(id)
  {
    if ids != [] {
      FailuresAmongExact(list, ids[1..]);
      assert ids == [ids[0]] + ids[1..];
    }
  }

  // The status never disagrees with the failure list shown beside it; a missing
  // report counts as a failure.
  lemma StatusMatchesFailures(list: Checklist)
    ensures list.PermitsBrowsing() <==> list.Failures() == []
    ensures list.Status() == NoProtection <==> GatewayReady in list.Failures() || TunnelReady in list.Failures()
  {
    FailuresAmongExact(list, ALL_CHECKS);
    assert GatewayReady in ALL_CHECKS && TunnelReady in ALL_CHECKS;
    if list.Failures() != [] {
      assert list.Failures()[0] in list.Failures();
    }
  }
}
