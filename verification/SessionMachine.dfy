// One session of the orchestrator, as a state machine: its row of the session table,
// the start call that created it, and every stop call made on it. Each critical
// section between two awaits, and each awaited capability call, is one atomic step;
// what a capability answers is given by an oracle.
module SessionMachine {
  import opened Errors
  import opened Preflight
  import opened SessionState
  import opened Gateway
  import opened ProfileStore

  type VmId = nat
  type HandleId = nat
  type CallId = nat

  datatype Engine = Chromium | Firefox

  datatype Mode = FullVm | HostProcess(ephemeral: bool, engine: Engine)

  // What the start call read from the profile.
  datatype Spec = Spec(
      profile: ProfileId, host: bool, engine: Engine, ephemeral: bool, network: NetworkMode, ipv6: Ipv6Policy) {
    function Config(): GatewayConfig {
      GatewayConfig(network, ipv6, "10.152.152.0/24")
    }
  }

  datatype Entry = Entry(
    state: State,
    lease: Lease,
    mode: Mode,
    gatewayVm: Option<VmId>,
    browserVm: Option<VmId>,
    handle: Option<HandleId>,
    protection: ProtectionStatus,
    publicIp: Option<string>,
    checklist: Option<Checklist>)
  {
    function Summary(): SessionSummary {
      SessionSummary(state, protection, publicIp)
    }
  }

  // ---- the critical sections on one row of the table ---------------------

  function NewEntry(lease: Lease): Entry {
    Entry(Requested, lease, FullVm, None, None, None, NoProtection, None, None)
  }

  function Transition(e: Entry, next: State): Result<Entry> {
    if e.state.CanTransitionTo(next) then Ok(e.(state := next)) else Err(Internal)
  }

  function RecordChecklist(e: Entry, list: Checklist): Entry {
    e.(protection := list.Status(),
       publicIp := if list.observedIp.Some? then Some(list.observedIp.value.ip) else None,
       checklist := Some(list))
  }

  function RecordPartial(e: Entry, list: Checklist): Entry {
    e.(protection := Partial, checklist := Some(list))
  }

  datatype Resources = Resources(
    handle: Option<HandleId>, gatewayVm: Option<VmId>, browserVm: Option<VmId>, lease: Lease, mode: Mode)

  // Teardown takes the handle out of the row but only copies the VM ids.
  function TakeResources(e: Entry): (Entry, Resources) {
    (e.(handle := None), Resources(e.handle, e.gatewayVm, e.browserVm, e.lease, e.mode))
  }

  // The final write bypasses the transition table and clears every reference.
  function Finish(e: Entry, final: State): Entry {
    e.(state := final, handle := None, gatewayVm := None, browserVm := None)
  }

  // ---- tasks -------------------------------------------------------------

  datatype Teardown =
    | Snapshot
    | Terminate(r: Resources)
    | RemoveDirectory(r: Resources)
    | DestroyBrowser(r: Resources)
    | DestroyGateway(r: Resources)
    | ReleaseLease(r: Resources)
    | WriteFinal(r: Resources)

  datatype Drive =
    | ResolveProxy
    | ToProvisioning
    | ProvisionGateway
    | RecordGateway(vm: VmId)
    | ProvisionBrowser
    | RecordBrowser(vm: VmId)
    | ToGatewayStarting
    | ConfigureGateway
    | ApplyPolicy
    | StartGateway
    | StartBrowser
    | ToPreflight
    | RunChecks
    | StoreChecklist(probes: Probes)
    | ProbeProxy
    | StorePartial
    | StoreMode
    | RenderPolicy
    | Launch
    | RecordHandle(handle: HandleId)
    | CheckRunning
    | ToBrowsing
    | RecordLaunch

  datatype Start =
    | Locking
    | Keying(lease: Lease)
    | Unlocking(lease: Lease, error: Error)       // key generation failed
    | Driving(at: Drive)
    | Failing(error: Error)                       // the drive returned an error
    | Auditing(error: Error)                      // switch engaged, record next
    | TearingDown(error: Error, td: Teardown)
    | Done(outcome: Option<Error>)

  datatype Stop = Entering | Stopping(td: Teardown) | Stopped

  datatype Caller = ByStart | ByStop(id: CallId)

  datatype Event =
    | SwitchEngaged
    | FailClosedRecorded
    | BrowserTerminated(who: Caller)
    | DirectoryRemoved(who: Caller)
    | VmDestroyed(who: Caller)
    | LockReleased(who: Caller)
    | FinalStateWritten(who: Caller)
    | StartReturned(error: Option<Error>)

  // The fields from `recorded` on describe the past: ids ever stored in the row, calls
  // made on them, the probe answers and the checklist stored, the order of effects, and whether a stop was
  // ever called while some call (or, for `mixed`, the start) was in flight.
  datatype Session = Session(
    spec: Spec,
    backends: set<Engine>,
    entry: Option<Entry>,
    start: Start,
    stops: map<CallId, Stop>,
    recorded: set<VmId>,
    stored: set<HandleId>,
    destroyed: multiset<VmId>,
    terminated: multiset<HandleId>,
    probes: Option<Probes>,
    evidence: Option<Checklist>,
    log: seq<Event>,
    overlapped: bool,
    mixed: bool)

  function NewSession(spec: Spec, backends: set<Engine>): Session {
    Session(spec, backends, None, Locking, map[], {}, {}, multiset{}, multiset{}, None, None, [], false, false)
  }

  // Everything a capability may answer; each step reads what it needs.
  datatype Oracle = Oracle(
    fault: Option<Error>, lock: Result<Lease>, vm: VmId, handle: HandleId, probes: Probes, yes: bool)

  const CONTEXT := PreflightContext(true, None)

  function Emit(s: Session, e: Event): Session {
    s.(log := s.log + [e])
  }

  // ---- the start call ----------------------------------------------------

  function FailWith(s: Session, e: Error): Session {
    s.(start := Failing(e))
  }

  // An awaited capability whose only relevant answer is success or failure.
  function Await(s: Session, o: Oracle, onward: Drive): Session {
    if o.fault.Some? then FailWith(s, o.fault.value) else s.(start := Driving(onward))
  }

  function MoveTo(s: Session, next: State, onward: Drive): Session {
    if s.entry.None? then FailWith(s, NotFound)
    else
      match Transition(s.entry.value, next)
      case Err(e) => FailWith(s, e)
      case Ok(e) => s.(entry := Some(e), start := Driving(onward))
  }

  // The gate: the row always gets the checklist, but only a permitting one leads on.
  function StoreResult(s: Session, list: Checklist): Session {
    var s' := s.(entry := if s.entry.None? then None else Some(RecordChecklist(s.entry.value, list)),
                 evidence := Some(list));
    if list.PermitsBrowsing() then s'.(start := Driving(RenderPolicy)) else FailWith(s', NetworkContainment)
  }

  function DriveStep(s: Session, at: Drive, o: Oracle): Session {
    match at
    case ResolveProxy =>
      if s.spec.engine !in s.backends then FailWith(s, Config) else Await(s, o, ToProvisioning)
    case ToProvisioning => MoveTo(s, Provisioning, if s.spec.host then ToGatewayStarting else ProvisionGateway)
    case ProvisionGateway => Await(s, o, RecordGateway(o.vm))
    case RecordGateway(vm) =>
      if s.entry.None? then FailWith(s, Internal)
      else s.(entry := Some(s.entry.value.(gatewayVm := Some(vm))), recorded := s.recorded + {vm},
              start := Driving(ProvisionBrowser))
    case ProvisionBrowser => Await(s, o, RecordBrowser(o.vm))
    case RecordBrowser(vm) =>
      if s.entry.None? then FailWith(s, Internal)
      else s.(entry := Some(s.entry.value.(browserVm := Some(vm))), recorded := s.recorded + {vm},
              start := Driving(ToGatewayStarting))
    case ToGatewayStarting => MoveTo(s, GatewayStarting, if s.spec.host then ToPreflight else ConfigureGateway)
    case ConfigureGateway => Await(s, o, ApplyPolicy)
    case ApplyPolicy => Await(s, o, StartGateway)
    case StartGateway => Await(s, o, StartBrowser)
    case StartBrowser => Await(s, o, ToPreflight)
    case ToPreflight => MoveTo(s, InPreflight, if s.spec.host then ProbeProxy else RunChecks)
    case RunChecks => Await(s, o, StoreChecklist(o.probes))
    case StoreChecklist(probes) =>
      StoreResult(s.(probes := Some(probes)), RunPreflight(CONTEXT, probes))
    case ProbeProxy =>
      if o.fault.Some? then FailWith(s, o.fault.value)
      else if !o.yes then FailWith(s, NetworkContainment)
      else s.(start := Driving(StorePartial))
    case StorePartial =>
      s.(entry := if s.entry.None? then None else Some(RecordPartial(s.entry.value, HostChecklist())),
         evidence := Some(HostChecklist()), start := Driving(StoreMode))
    case StoreMode =>
      s.(entry := if s.entry.None? then None
                  else Some(s.entry.value.(mode := HostProcess(s.spec.ephemeral, s.spec.engine))),
         start := Driving(RenderPolicy))
    case RenderPolicy => Await(s, o, Launch)
    case Launch => Await(s, o, RecordHandle(o.handle))
    case RecordHandle(h) =>
      if s.entry.None? then FailWith(s, Internal)
      else s.(entry := Some(s.entry.value.(handle := Some(h))), stored := s.stored + {h},
              start := Driving(CheckRunning))
    case CheckRunning =>
      if o.fault.Some? then FailWith(s, o.fault.value)
      else if !o.yes then FailWith(s, System)
      else s.(start := Driving(ToBrowsing))
    case ToBrowsing => MoveTo(s, Browsing, RecordLaunch)
    case RecordLaunch => Emit(s, StartReturned(None)).(start := Done(None))
  }

  // One step of a teardown, whoever runs it; None means it has returned.
  function TeardownStep(s: Session, who: Caller, td: Teardown): (Session, Option<Teardown>) {
    match td
    case Snapshot =>
      if s.entry.None? then (s, None)
      else
        var (e, r) := TakeResources(s.entry.value);
        (s.(entry := Some(e)), Some(Terminate(r)))
    case Terminate(r) =>
      if r.handle.Some? && (r.mode.FullVm? || r.mode.engine in s.backends)
      then (Emit(s, BrowserTerminated(who)).(terminated := s.terminated + multiset{r.handle.value}),
            Some(RemoveDirectory(r)))
      else (s, Some(RemoveDirectory(r)))
    case RemoveDirectory(r) =>
      (if r.mode.HostProcess? && r.mode.ephemeral then Emit(s, DirectoryRemoved(who)) else s, Some(DestroyBrowser(r)))
    case DestroyBrowser(r) => (DestroyVm(s, who, r.browserVm), Some(DestroyGateway(r)))
    case DestroyGateway(r) => (DestroyVm(s, who, r.gatewayVm), Some(ReleaseLease(r)))
    case ReleaseLease(r) => (Emit(s, LockReleased(who)), Some(WriteFinal(r)))
    case WriteFinal(r) =>
      var final := if who.ByStart? then Failed else Destroyed;
      (Emit(s, FinalStateWritten(who)).(entry := if s.entry.None? then None else Some(Finish(s.entry.value, final))),
       None)
  }

  // The step after one past the snapshot, and how many are left.
  function Following(td: Teardown): Teardown {
    match td
    case Terminate(r) => RemoveDirectory(r)
    case RemoveDirectory(r) => DestroyBrowser(r)
    case DestroyBrowser(r) => DestroyGateway(r)
    case DestroyGateway(r) => ReleaseLease(r)
    case ReleaseLease(r) => WriteFinal(r)
    case _ => td
  }

  function StepsLeft(td: Teardown): nat {
    match td
    case Snapshot => 7
    case Terminate(_) => 6
    case RemoveDirectory(_) => 5
    case DestroyBrowser(_) => 4
    case DestroyGateway(_) => 3
    case ReleaseLease(_) => 2
    case WriteFinal(_) => 1
  }

  // Forced power-off and destroy; both results are ignored.
  function DestroyVm(s: Session, who: Caller, vm: Option<VmId>): Session {
    if vm.None? then s else Emit(s, VmDestroyed(who)).(destroyed := s.destroyed + multiset{vm.value})
  }

  function StartStep(s: Session, o: Oracle): Session {
    match s.start
    case Locking =>
      (match o.lock
       case Ok(lease) => s.(start := Keying(lease))
       case Err(e) => Emit(s, StartReturned(Some(e))).(start := Done(Some(e))))
    case Keying(lease) =>
      if o.fault.Some? then s.(start := Unlocking(lease, o.fault.value))
      else s.(entry := Some(NewEntry(lease)), start := Driving(if s.spec.host then ResolveProxy else ToProvisioning))
    case Unlocking(lease, e) => Emit(s, StartReturned(Some(e))).(start := Done(Some(e)))
    case Driving(at) => DriveStep(s, at, o)
    case Failing(e) =>
      if e.RequiresKillSwitch() then Emit(s, SwitchEngaged).(start := Auditing(e))
      else s.(start := TearingDown(e, Snapshot))
    case Auditing(e) => Emit(s, FailClosedRecorded).(start := TearingDown(e, Snapshot))
    case TearingDown(e, td) =>
      var (s', next) := TeardownStep(s, ByStart, td);
      if next.Some? then s'.(start := TearingDown(e, next.value))
      else Emit(s', StartReturned(Some(e))).(start := Done(Some(e)))
    case Done(_) => s
  }

  // ---- stop calls --------------------------------------------------------

  predicate StopInFlight(s: Session, id: CallId) {
    id in s.stops && !s.stops[id].Stopped?
  }

  ghost predicate InFlight(s: Session) {
    !s.start.Done? || exists id :: StopInFlight(s, id)
  }

  // A stop of an unknown session is refused before it does anything.
  ghost function CallStop(s: Session, id: CallId): Session {
    if s.entry.None? || id in s.stops then s
    else s.(stops := s.stops[id := Entering],
            overlapped := s.overlapped || InFlight(s),
            mixed := s.mixed || !s.start.Done?)
  }

  function StopStep(s: Session, id: CallId): Session {
    if !StopInFlight(s, id) then s
    else
      match s.stops[id]
      case Entering =>
        var e := if s.entry.None? then None
                 else if Transition(s.entry.value, Closing).Ok? then Some(Transition(s.entry.value, Closing).value)
                 else s.entry;
        s.(entry := e, stops := s.stops[id := Stopping(Snapshot)])
      case Stopping(td) =>
        var (s', next) := TeardownStep(s, ByStop(id), td);
        s'.(stops := s'.stops[id := if next.Some? then Stopping(next.value) else Stopped])
      case Stopped => s
  }

  datatype Action = Advance(o: Oracle) | Call(id: CallId) | AdvanceStop(id: CallId)

  ghost function Step(s: Session, a: Action): Session {
    match a
    case Advance(o) => StartStep(s, o)
    case Call(id) => CallStop(s, id)
    case AdvanceStop(id) => StopStep(s, id)
  }

  // Fresh identifiers: a lease names the requested profile, and a new VM or handle was
  // never given to this session before.
  predicate Plausible(s: Session, a: Action) {
    a.Advance? ==>
      && (s.start.Locking? && a.o.lock.Ok? ==> a.o.lock.value.profile == s.spec.profile)
      && a.o.vm !in s.recorded
      && a.o.handle !in s.stored
  }
}
