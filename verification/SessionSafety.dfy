// What every step of one session keeps, in every interleaving of its start call with
// any number of stop calls.
module SessionSafety {
  import opened Errors
  import opened Preflight
  import opened SessionState
  import opened SessionMachine

  // ---- control: where each task is and what state the row can be in -------

  function Expected(at: Drive): State {
    match at
    case ResolveProxy => Requested
    case ToProvisioning => Requested
    case ProvisionGateway => Provisioning
    case RecordGateway(_) => Provisioning
    case ProvisionBrowser => Provisioning
    case RecordBrowser(_) => Provisioning
    case ToGatewayStarting => Provisioning
    case ConfigureGateway => GatewayStarting
    case ApplyPolicy => GatewayStarting
    case StartGateway => GatewayStarting
    case StartBrowser => GatewayStarting
    case ToPreflight => GatewayStarting
    case RunChecks => InPreflight
    case StoreChecklist(_) => InPreflight
    case ProbeProxy => InPreflight
    case StorePartial => InPreflight
    case StoreMode => InPreflight
    case RenderPolicy => InPreflight
    case Launch => InPreflight
    case RecordHandle(_) => InPreflight
    case CheckRunning => InPreflight
    case ToBrowsing => InPreflight
    case RecordLaunch => Browsing
  }

  predicate Early(st: State) {
    st.Requested? || st.Provisioning? || st.GatewayStarting? || st.InPreflight?
  }

  // The row state a start call may see at its current point, unless a stop has
  // already pushed the session into shutdown.
  predicate StartAgrees(start: Start, st: State) {
    match start
    case Locking => false
    case Keying(_) => false
    case Unlocking(_, _) => false
    case Driving(at) => st == Expected(at)
    case Failing(_) => Early(st)
    case Auditing(_) => Early(st)
    case TearingDown(_, _) => Early(st)
    case Done(outcome) => outcome.None? && st.Browsing?
  }

  predicate Registered(start: Start) {
    !start.Locking? && !start.Keying? && !start.Unlocking?
  }

  predicate OnPath(spec: Spec, at: Drive) {
    match at
    case ResolveProxy => spec.host
    case ProbeProxy => spec.host
    case StorePartial => spec.host
    case StoreMode => spec.host
    case ProvisionGateway => !spec.host
    case RecordGateway(_) => !spec.host
    case ProvisionBrowser => !spec.host
    case RecordBrowser(_) => !spec.host
    case ConfigureGateway => !spec.host
    case ApplyPolicy => !spec.host
    case StartGateway => !spec.host
    case StartBrowser => !spec.host
    case RunChecks => !spec.host
    case StoreChecklist(_) => !spec.host
    case _ => true
  }

  ghost predicate ControlInv(s: Session) {
    && (s.entry.None? ==> s.stops == map[] && (Registered(s.start) ==> s.start.Done? && s.start.outcome.Some?))
    && (s.entry.Some? ==>
          && Registered(s.start)
          && s.entry.value.lease.profile == s.spec.profile
          && (StartAgrees(s.start, s.entry.value.state) || s.entry.value.state.ShuttingDown())
          && (forall id | id in s.stops :: s.stops[id].Entering? || s.entry.value.state.ShuttingDown()))
    && (s.start.Keying? ==> s.start.lease.profile == s.spec.profile)
    && (s.start.Unlocking? ==> s.start.lease.profile == s.spec.profile)
    && (s.start.Driving? ==> OnPath(s.spec, s.start.at))
    && (!s.mixed && !s.start.Done? ==>
          s.stops == map[] && (s.entry.Some? ==> StartAgrees(s.start, s.entry.value.state)))
  }

  // ---- data: what the row holds by the time it can be Browsing -------------

  predicate PastChecks(start: Start) {
    || (start.Driving? && (start.at.RenderPolicy? || start.at.Launch? || start.at.RecordHandle?
                           || start.at.CheckRunning? || start.at.ToBrowsing? || start.at.RecordLaunch?))
    || start == Done(None)
  }

  predicate PastPartial(start: Start) {
    PastChecks(start) || (start.Driving? && start.at.StoreMode?)
  }

  predicate PastLaunch(start: Start) {
    || (start.Driving? && (start.at.CheckRunning? || start.at.ToBrowsing? || start.at.RecordLaunch?))
    || start == Done(None)
  }

  // What the stored checklist is evidence of.
  ghost predicate EvidenceInv(s: Session) {
    s.evidence.Some? ==>
      if s.spec.host then s.evidence.value == HostChecklist()
      else s.probes.Some? && s.evidence.value == RunPreflight(CONTEXT, s.probes.value)
  }

  ghost predicate DataInv(s: Session) {
    s.entry.Some? ==>
      var e := s.entry.value;
      && (!s.spec.host ==> e.mode == FullVm)
      && (s.spec.host && e.mode != FullVm ==>
            e.mode == HostProcess(s.spec.ephemeral, s.spec.engine) && s.spec.engine in s.backends)
      && (s.spec.host ==> e.protection == NoProtection || e.protection == Partial)
      && (s.spec.host && s.start.Driving? && !s.start.at.ResolveProxy? ==> s.spec.engine in s.backends)
      && (!s.spec.host && PastChecks(s.start) ==> e.protection == Active)
      && (s.spec.host && PastPartial(s.start) ==> e.protection == Partial)
      && (PastPartial(s.start) ==> s.evidence.Some? && e.checklist == s.evidence)
      && (e.protection == Active ==> s.evidence.Some? && s.evidence.value.Status() == Active)
      && (s.spec.host && PastChecks(s.start) ==> e.mode.HostProcess?)
      && (PastLaunch(s.start) && !e.state.ShuttingDown() ==> e.handle.Some?)
  }

  ghost predicate Safe(s: Session) {
    ControlInv(s) && DataInv(s)
  }

  lemma SafeInitially(spec: Spec, backends: set<Engine>)
    ensures Safe(NewSession(spec, backends))
  {
  }

  // ---- the shapes a drive step can take ------------------------------------

  // Two points of the drive that differ in nothing the invariants mention.
  predicate SameStage(spec: Spec, at: Drive, onward: Drive) {
    && Expected(at) == Expected(onward) && OnPath(spec, onward)
    && PastChecks(Driving(at)) == PastChecks(Driving(onward))
    && PastPartial(Driving(at)) == PastPartial(Driving(onward))
    && PastLaunch(Driving(at)) == PastLaunch(Driving(onward))
    && (at.ResolveProxy? ==> onward.ResolveProxy?)
  }

  lemma FailIsSafe(s: Session, e: Error)
    requires Safe(s) && s.start.Driving? && !s.start.at.RecordLaunch?
    ensures Safe(FailWith(s, e))
  {
  }

  lemma AwaitIsSafe(s: Session, o: Oracle, onward: Drive)
    requires Safe(s) && s.start.Driving? && !s.start.at.RecordLaunch? && SameStage(s.spec, s.start.at, onward)
    ensures Safe(Await(s, o, onward))
  {
    if o.fault.Some? {
      FailIsSafe(s, o.fault.value);
    }
  }

  lemma MoveIsSafe(s: Session, next: State, onward: Drive)
    requires Safe(s) && s.start.Driving? && !s.start.at.RecordLaunch?
    requires Expected(s.start.at).CanTransitionTo(next) && next == Expected(onward) && OnPath(s.spec, onward)
    requires !s.start.at.ResolveProxy?
    requires forall st: State :: st.ShuttingDown() ==> !st.CanTransitionTo(next)
    requires PastChecks(Driving(onward)) == PastChecks(s.start) && PastPartial(Driving(onward)) == PastPartial(s.start)
    requires PastLaunch(Driving(onward)) == PastLaunch(s.start)
    ensures Safe(MoveTo(s, next, onward))
  {
    if Transition(s.entry.value, next).Err? {
      FailIsSafe(s, Internal);
    }
  }

  // The recording steps fill one slot of the row and leave its state and lease alone.
  lemma RecordStepIsSafe(s: Session, o: Oracle)
    requires Safe(s) && s.start.Driving? && (s.start.at.RecordGateway? || s.start.at.RecordBrowser?)
    ensures Safe(DriveStep(s, s.start.at, o))
  {
  }

  lemma RecordHandleIsSafe(s: Session, o: Oracle)
    requires Safe(s) && s.start.Driving? && s.start.at.RecordHandle?
    ensures Safe(DriveStep(s, s.start.at, o))
  {
  }

  lemma DrivingHasRow(s: Session)
    requires Safe(s) && s.start.Driving?
    ensures s.entry.Some? && OnPath(s.spec, s.start.at)
  {
  }

  lemma ResolveIsSafe(s: Session, o: Oracle)
    requires Safe(s) && s.start == Driving(ResolveProxy)
    ensures Safe(DriveStep(s, ResolveProxy, o))
  {
    if s.spec.engine !in s.backends {
      FailIsSafe(s, Config);
    } else if o.fault.Some? {
      FailIsSafe(s, o.fault.value);
    }
  }

  lemma SetupStepIsSafe(s: Session, o: Oracle)
    requires Safe(s) && s.start.Driving? && Early(Expected(s.start.at)) && !Expected(s.start.at).InPreflight?
    ensures Safe(DriveStep(s, s.start.at, o))
  {
    hide Safe, Await, MoveTo, StoreResult;
    DrivingHasRow(s);
    match s.start.at {
      case ResolveProxy => ResolveIsSafe(s, o);
      case ToProvisioning =>
        MoveIsSafe(s, Provisioning, if s.spec.host then ToGatewayStarting else ProvisionGateway);
      case ProvisionGateway => AwaitIsSafe(s, o, RecordGateway(o.vm));
      case RecordGateway(_) => RecordStepIsSafe(s, o);
      case ProvisionBrowser => AwaitIsSafe(s, o, RecordBrowser(o.vm));
      case RecordBrowser(_) => RecordStepIsSafe(s, o);
      case ToGatewayStarting =>
        MoveIsSafe(s, GatewayStarting, if s.spec.host then ToPreflight else ConfigureGateway);
      case ConfigureGateway => AwaitIsSafe(s, o, ApplyPolicy);
      case ApplyPolicy => AwaitIsSafe(s, o, StartGateway);
      case StartGateway => AwaitIsSafe(s, o, StartBrowser);
      case StartBrowser => AwaitIsSafe(s, o, ToPreflight);
      case ToPreflight => MoveIsSafe(s, InPreflight, if s.spec.host then ProbeProxy else RunChecks);
    }
  }

  lemma StoreResultIsSafe(s: Session, list: Checklist)
    requires Safe(s) && s.start.Driving? && s.start.at.StoreChecklist?
    ensures Safe(StoreResult(s, list))
  {
    hide RunPreflight;
  }

  lemma StoreChecklistIsSafe(s: Session, o: Oracle)
    requires Safe(s) && s.start.Driving? && s.start.at.StoreChecklist?
    ensures Safe(DriveStep(s, s.start.at, o))
  {
    hide RunPreflight, StoreResult;
    var probes := s.start.at.probes;
    StoreResultIsSafe(s.(probes := Some(probes)), RunPreflight(CONTEXT, probes));
  }

  lemma StorePartialIsSafe(s: Session, o: Oracle)
    requires Safe(s) && s.start == Driving(StorePartial)
    ensures Safe(DriveStep(s, StorePartial, o))
  {
  }

  lemma StoreModeIsSafe(s: Session, o: Oracle)
    requires Safe(s) && s.start == Driving(StoreMode)
    ensures Safe(DriveStep(s, StoreMode, o))
  {
  }

  lemma MeasureIsSafe(s: Session, o: Oracle)
    requires Safe(s) && s.start.Driving? && (s.start.at.ProbeProxy? || s.start.at.CheckRunning?)
    ensures Safe(DriveStep(s, s.start.at, o))
  {
    AwaitIsSafe(s, o, if s.start.at.ProbeProxy? then StorePartial else ToBrowsing);
    FailIsSafe(s, if s.start.at.ProbeProxy? then NetworkContainment else System);
  }

  lemma ReturnIsSafe(s: Session, o: Oracle)
    requires Safe(s) && s.start == Driving(RecordLaunch)
    ensures Safe(DriveStep(s, RecordLaunch, o))
  {
  }

  lemma LaunchStepIsSafe(s: Session, o: Oracle)
    requires Safe(s) && s.start.Driving? && (Expected(s.start.at).InPreflight? || Expected(s.start.at).Browsing?)
    ensures Safe(DriveStep(s, s.start.at, o))
  {
    hide Safe, Await, MoveTo, StoreResult;
    DrivingHasRow(s);
    match s.start.at {
      case RunChecks => AwaitIsSafe(s, o, StoreChecklist(o.probes));
      case StoreChecklist(_) => StoreChecklistIsSafe(s, o);
      case ProbeProxy => MeasureIsSafe(s, o);
      case StorePartial => StorePartialIsSafe(s, o);
      case StoreMode => StoreModeIsSafe(s, o);
      case RenderPolicy => AwaitIsSafe(s, o, Launch);
      case Launch => AwaitIsSafe(s, o, RecordHandle(o.handle));
      case RecordHandle(_) => RecordHandleIsSafe(s, o);
      case CheckRunning => MeasureIsSafe(s, o);
      case ToBrowsing => MoveIsSafe(s, Browsing, RecordLaunch);
      case RecordLaunch => ReturnIsSafe(s, o);
    }
  }

  // A drive never moves the row into shutdown, and stores its mode at one point only.
  ghost predicate NeverEnds(s: Session, s': Session)
    requires s.start.Driving?
  {
    s.entry.Some? ==>
      && s'.entry.Some?
      && (s'.entry.value.state == s.entry.value.state || !s'.entry.value.state.ShuttingDown())
      && (s.start.at.StoreMode? || s'.entry.value.mode == s.entry.value.mode)
  }

  lemma MovesNeverEnd(s: Session, o: Oracle)
    requires s.start.Driving?
    requires s.start.at.ToProvisioning? || s.start.at.ToGatewayStarting? || s.start.at.ToPreflight?
             || s.start.at.ToBrowsing?
    ensures NeverEnds(s, StartStep(s, o))
  {
    hide TeardownStep, StoreResult, Await;
  }

  lemma OthersNeverEnd(s: Session, o: Oracle)
    requires s.start.Driving?
    requires !(s.start.at.ToProvisioning? || s.start.at.ToGatewayStarting? || s.start.at.ToPreflight?
               || s.start.at.ToBrowsing? || s.start.at.StoreChecklist?)
    ensures NeverEnds(s, StartStep(s, o))
  {
    hide TeardownStep, RunPreflight, StoreResult, MoveTo;
  }

  lemma StoringNeverEnds(s: Session, o: Oracle)
    requires s.start.Driving? && s.start.at.StoreChecklist?
    ensures NeverEnds(s, StartStep(s, o))
  {
    hide TeardownStep, RunPreflight, MoveTo;
  }

  lemma DriveNeverEnds(s: Session, o: Oracle)
    requires s.start.Driving?
    ensures NeverEnds(s, StartStep(s, o))
  {
    hide StartStep, NeverEnds;
    var at := s.start.at;
    if at.ToProvisioning? || at.ToGatewayStarting? || at.ToPreflight? || at.ToBrowsing? {
      MovesNeverEnd(s, o);
    } else if at.StoreChecklist? {
      StoringNeverEnds(s, o);
    } else {
      OthersNeverEnd(s, o);
    }
  }

  // ---- teardowns ------------------------------------------------------------

  // All a teardown step does to the row and to the other tasks.
  lemma TeardownRow(s: Session, who: Caller, td: Teardown)
    ensures var (s', next) := TeardownStep(s, who, td);
            && s' == s.(entry := s'.entry, destroyed := s'.destroyed, terminated := s'.terminated, log := s'.log)
            && s'.entry == (if s.entry.None? then None
                            else if td.Snapshot? then Some(s.entry.value.(handle := None))
                            else if td.WriteFinal? then
                              Some(Finish(s.entry.value, if who.ByStart? then Failed else Destroyed))
                            else s.entry)
            && (td.Snapshot? && s.entry.Some? ==> next.Some?)
            && (next.None? ==> td.WriteFinal? || s.entry.None?)
  {
  }

  // A stop past its snapshot takes the steps of its teardown in order.
  lemma StopFollows(s: Session, id: CallId)
    requires s.entry.Some? && id in s.stops && s.stops[id].Stopping? && !s.stops[id].td.Snapshot?
    ensures var s' := StopStep(s, id);
            && s'.entry.Some? && id in s'.stops && s'.stops == s.stops[id := s'.stops[id]]
            && s'.stops[id] == if s.stops[id].td.WriteFinal? then Stopped else Stopping(Following(s.stops[id].td))
  {
    TeardownRow(s, ByStop(id), s.stops[id].td);
  }

  lemma StartTeardownIsSafe(s: Session, o: Oracle)
    requires Safe(s) && s.start.TearingDown?
    ensures Safe(StartStep(s, o))
  {
    TeardownRow(s, ByStart, s.start.td);
  }

  lemma StopStepIsSafe(s: Session, id: CallId)
    requires Safe(s)
    ensures Safe(StopStep(s, id))
  {
    if StopInFlight(s, id) && s.stops[id].Stopping? {
      TeardownRow(s, ByStop(id), s.stops[id].td);
    }
  }

  lemma BeforeDriveIsSafe(s: Session, o: Oracle)
    requires Safe(s) && Plausible(s, Advance(o)) && (s.start.Locking? || s.start.Keying? || s.start.Unlocking?)
    ensures Safe(StartStep(s, o))
  {
    hide DriveStep, TeardownStep;
  }

  lemma AfterDriveIsSafe(s: Session, o: Oracle)
    requires Safe(s) && (s.start.Failing? || s.start.Auditing? || s.start.Done?)
    ensures Safe(StartStep(s, o))
  {
    hide DriveStep, TeardownStep;
  }

  lemma StartStepIsSafe(s: Session, o: Oracle)
    requires Safe(s) && Plausible(s, Advance(o))
    ensures Safe(StartStep(s, o))
  {
    hide Safe, DriveStep, TeardownStep;
    match s.start {
      case Driving(at) =>
        if Expected(at).InPreflight? || Expected(at).Browsing? {
          LaunchStepIsSafe(s, o);
        } else {
          SetupStepIsSafe(s, o);
        }
      case TearingDown(_, _) => StartTeardownIsSafe(s, o);
      case Failing(_) => AfterDriveIsSafe(s, o);
      case Auditing(_) => AfterDriveIsSafe(s, o);
      case Done(_) => AfterDriveIsSafe(s, o);
      case _ => BeforeDriveIsSafe(s, o);
    }
  }

  lemma StepIsSafe(s: Session, a: Action)
    requires Safe(s) && Plausible(s, a)
    ensures Safe(Step(s, a))
  {
    match a {
      case Advance(o) => StartStepIsSafe(s, o);
      case Call(id) =>
      case AdvanceStop(id) => StopStepIsSafe(s, id);
    }
  }

  lemma StopKeepsEvidence(s: Session, id: CallId)
    ensures var s' := StopStep(s, id);
            s'.evidence == s.evidence && s'.probes == s.probes && s'.spec == s.spec
  {
    if StopInFlight(s, id) && s.stops[id].Stopping? {
      TeardownRow(s, ByStop(id), s.stops[id].td);
    }
  }

  lemma StepKeepsEvidence(s: Session, a: Action)
    requires Safe(s) && EvidenceInv(s)
    ensures EvidenceInv(Step(s, a))
  {
    match a {
      case Call(_) =>
      case AdvanceStop(id) => StopKeepsEvidence(s, id);
      case Advance(o) => StartKeepsEvidence(s, o);
    }
  }

  lemma StartKeepsEvidence(s: Session, o: Oracle)
    requires Safe(s) && EvidenceInv(s)
    ensures EvidenceInv(StartStep(s, o))
  {
    hide Safe, StartStep;
    if s.start.Driving? {
      DriveKeepsEvidence(s, o);
    } else {
      OutsideDriveKeepsEvidence(s, o);
    }
  }

  lemma OutsideDriveKeepsEvidence(s: Session, o: Oracle)
    requires !s.start.Driving?
    ensures var s' := StartStep(s, o);
            s'.evidence == s.evidence && s'.probes == s.probes && s'.spec == s.spec
  {
    hide DriveStep, TeardownStep;
    if s.start.TearingDown? {
      TeardownRow(s, ByStart, s.start.td);
    }
  }

  // Which slots of the row are still empty at a point of the drive.
  predicate NoVmYet(at: Drive) {
    Expected(at).Requested? || at.ProvisionGateway? || at.RecordGateway?
  }

  predicate NoBrowserVmYet(at: Drive) {
    NoVmYet(at) || at.ProvisionBrowser? || at.RecordBrowser?
  }

  predicate NoHandleYet(at: Drive) {
    !PastLaunch(Driving(at))
  }

  predicate Recording(at: Drive) {
    at.RecordGateway? || at.RecordBrowser? || at.RecordHandle?
  }

  // The next point never claims an emptier row, and records what the oracle gave.
  predicate Follows(at: Drive, onward: Drive, o: Oracle) {
    && (NoVmYet(onward) ==> NoVmYet(at))
    && (NoBrowserVmYet(onward) ==> NoBrowserVmYet(at))
    && (NoHandleYet(onward) ==> NoHandleYet(at))
    && (onward.ApplyPolicy? ==> at.ConfigureGateway?)
    && (onward.RecordGateway? || onward.RecordBrowser? ==> onward.vm == o.vm)
    && (onward.RecordHandle? ==> onward.handle == o.handle)
  }

  ghost predicate KeepsSlots(s: Session, s': Session)
    requires s.entry.Some?
  {
    && s'.entry.Some?
    && s'.entry.value.gatewayVm == s.entry.value.gatewayVm
    && s'.entry.value.browserVm == s.entry.value.browserVm
    && s'.entry.value.handle == s.entry.value.handle
    && s'.recorded == s.recorded && s'.stored == s.stored
  }

  // All a drive step does: it moves on, fails or returns; it may advance the state along
  // the table and keeps the lease; the recording steps fill one slot each; only the two
  // storing steps touch the evidence.
  ghost predicate DriveShape(s: Session, s': Session, o: Oracle)
    requires s.entry.Some? && s.start.Driving?
  {
    var at := s.start.at;
    && s'.entry.Some?
    && (s'.start.Failing? || (s'.start == Done(None) && at.RecordLaunch?)
        || (s'.start.Driving? && Follows(at, s'.start.at, o)))
    && (at.ConfigureGateway? && s'.start.Driving? ==> o.fault.None?)
    && (s'.entry.value.state == s.entry.value.state || s.entry.value.state.CanTransitionTo(s'.entry.value.state))
    && (s.entry.value.state.ShuttingDown() ==> s'.entry.value.state == s.entry.value.state)
    && s'.entry.value.lease == s.entry.value.lease
    && (Recording(at) || KeepsSlots(s, s'))
    && s'.recorded == s.recorded + (if at.RecordGateway? || at.RecordBrowser? then {at.vm} else {})
    && s'.stored == s.stored + (if at.RecordHandle? then {at.handle} else {})
    && (at.StoreChecklist? || at.StorePartial? || (s'.evidence == s.evidence && s'.probes == s.probes))
    && s' == s.(entry := s'.entry, start := s'.start, recorded := s'.recorded, stored := s'.stored,
                probes := s'.probes, evidence := s'.evidence, log := s'.log)
    && s'.log == (if at.RecordLaunch? then s.log + [StartReturned(None)] else s.log)
  }

  lemma AwaitShape(s: Session, o: Oracle, onward: Drive)
    requires Safe(s) && s.start.Driving? && Follows(s.start.at, onward, o) && !Recording(s.start.at)
             && !s.start.at.RecordLaunch?
    ensures DriveShape(s, Await(s, o, onward), o)
  {
  }

  lemma FailShape(s: Session, e: Error, o: Oracle)
    requires Safe(s) && s.start.Driving? && !Recording(s.start.at) && !s.start.at.RecordLaunch?
    ensures DriveShape(s, FailWith(s, e), o)
  {
  }

  lemma MovedShape(s: Session, next: State, onward: Drive, o: Oracle)
    requires s.entry.Some? && s.start.Driving? && !s.start.at.RecordLaunch? && !Recording(s.start.at)
    requires Follows(s.start.at, onward, o) && !s.start.at.ConfigureGateway?
    requires s.entry.value.state.CanTransitionTo(next) && !s.entry.value.state.ShuttingDown()
    ensures DriveShape(s, s.(entry := Some(s.entry.value.(state := next)), start := Driving(onward)), o)
  {
    hide Follows;
  }

  lemma MoveShape(s: Session, next: State, onward: Drive, o: Oracle)
    requires Safe(s) && s.start.Driving? && Follows(s.start.at, onward, o) && !Recording(s.start.at)
             && !s.start.at.RecordLaunch?
    requires forall st: State :: st.ShuttingDown() ==> !st.CanTransitionTo(next)
    requires !s.start.at.ConfigureGateway?
    ensures DriveShape(s, MoveTo(s, next, onward), o)
  {
    hide DriveShape, Follows, Safe;
    DrivingHasRow(s);
    if s.entry.value.state.CanTransitionTo(next) {
      MovedShape(s, next, onward, o);
    } else {
      FailShape(s, Internal, o);
    }
  }

  lemma RecordShape(s: Session, o: Oracle)
    requires Safe(s) && s.start.Driving? && Recording(s.start.at)
    ensures DriveShape(s, DriveStep(s, s.start.at, o), o)
  {
  }

  lemma ResolveShape(s: Session, o: Oracle)
    requires Safe(s) && s.start == Driving(ResolveProxy)
    ensures DriveShape(s, DriveStep(s, ResolveProxy, o), o)
  {
    FailShape(s, Config, o);
    AwaitShape(s, o, ToProvisioning);
  }

  lemma MeasuredShape(s: Session, o: Oracle)
    requires Safe(s) && s.start.Driving? && (s.start.at.ProbeProxy? || s.start.at.CheckRunning?)
    ensures DriveShape(s, DriveStep(s, s.start.at, o), o)
  {
    AwaitShape(s, o, if s.start.at.ProbeProxy? then StorePartial else ToBrowsing);
    FailShape(s, if s.start.at.ProbeProxy? then NetworkContainment else System, o);
  }

  lemma ReturnShape(s: Session, o: Oracle)
    requires Safe(s) && s.start == Driving(RecordLaunch)
    ensures DriveShape(s, DriveStep(s, RecordLaunch, o), o)
  {
  }

  lemma SetupShape(s: Session, o: Oracle)
    requires Safe(s) && s.start.Driving? && Early(Expected(s.start.at)) && !Expected(s.start.at).InPreflight?
    ensures DriveShape(s, DriveStep(s, s.start.at, o), o)
  {
    hide Safe, DriveShape, Await, MoveTo, StoreResult;
    DrivingHasRow(s);
    match s.start.at {
      case ResolveProxy => ResolveShape(s, o);
      case ToProvisioning => MoveShape(s, Provisioning, if s.spec.host then ToGatewayStarting else ProvisionGateway, o);
      case ProvisionGateway => AwaitShape(s, o, RecordGateway(o.vm));
      case RecordGateway(_) => RecordShape(s, o);
      case ProvisionBrowser => AwaitShape(s, o, RecordBrowser(o.vm));
      case RecordBrowser(_) => RecordShape(s, o);
      case ToGatewayStarting => MoveShape(s, GatewayStarting, if s.spec.host then ToPreflight else ConfigureGateway, o);
      case ConfigureGateway => AwaitShape(s, o, ApplyPolicy);
      case ApplyPolicy => AwaitShape(s, o, StartGateway);
      case StartGateway => AwaitShape(s, o, StartBrowser);
      case StartBrowser => AwaitShape(s, o, ToPreflight);
      case ToPreflight => MoveShape(s, InPreflight, if s.spec.host then ProbeProxy else RunChecks, o);
    }
  }

  lemma StoreShape(s: Session, o: Oracle)
    requires Safe(s) && s.start.Driving? && (s.start.at.StoreChecklist? || s.start.at.StorePartial?)
    ensures DriveShape(s, DriveStep(s, s.start.at, o), o)
  {
    hide RunPreflight;
  }

  lemma StoreModeShape(s: Session, o: Oracle)
    requires Safe(s) && s.start == Driving(StoreMode)
    ensures DriveShape(s, DriveStep(s, StoreMode, o), o)
  {
  }

  lemma LaunchShape(s: Session, o: Oracle)
    requires Safe(s) && s.start.Driving? && (Expected(s.start.at).InPreflight? || Expected(s.start.at).Browsing?)
    ensures DriveShape(s, DriveStep(s, s.start.at, o), o)
  {
    hide Safe, DriveShape, Await, MoveTo, StoreResult;
    DrivingHasRow(s);
    match s.start.at {
      case RunChecks => AwaitShape(s, o, StoreChecklist(o.probes));
      case StoreChecklist(_) => StoreShape(s, o);
      case ProbeProxy => MeasuredShape(s, o);
      case StorePartial => StoreShape(s, o);
      case StoreMode => StoreModeShape(s, o);
      case RenderPolicy => AwaitShape(s, o, Launch);
      case Launch => AwaitShape(s, o, RecordHandle(o.handle));
      case RecordHandle(_) => RecordShape(s, o);
      case CheckRunning => MeasuredShape(s, o);
      case ToBrowsing => MoveShape(s, Browsing, RecordLaunch, o);
      case RecordLaunch => ReturnShape(s, o);
    }
  }

  lemma DriveHasShape(s: Session, o: Oracle)
    requires Safe(s) && s.start.Driving?
    ensures DriveShape(s, DriveStep(s, s.start.at, o), o)
  {
    if Expected(s.start.at).InPreflight? || Expected(s.start.at).Browsing? {
      LaunchShape(s, o);
    } else {
      SetupShape(s, o);
    }
  }

  lemma DriveKeepsEvidence(s: Session, o: Oracle)
    requires Safe(s) && EvidenceInv(s) && s.start.Driving?
    ensures EvidenceInv(StartStep(s, o))
  {
    if s.start.at.StoreChecklist? {
      assert StartStep(s, o).evidence == Some(RunPreflight(CONTEXT, s.start.at.probes));
    } else if s.start.at.StorePartial? {
      assert StartStep(s, o).evidence == Some(HostChecklist());
    } else {
      DriveHasShape(s, o);
    }
  }

  // ---- what Browsing guarantees ---------------------------------------------

  // A browsing session always has a handle to terminate. A full-VM one also has six
  // passing checks on record and the status they earn; a host one is only ever Partial.
  lemma BrowsingIsBacked(s: Session)
    requires Safe(s) && EvidenceInv(s)
    requires s.entry.Some? && s.entry.value.state == Browsing
    ensures var e := s.entry.value;
            && e.handle.Some?
            && e.checklist.Some?
            && (!s.spec.host ==>
                  && e.mode == FullVm && e.protection == Active && e.checklist.value.AllPassed()
                  && s.probes.Some? && e.checklist.value == RunPreflight(CONTEXT, s.probes.value)
                  && AllPositive(CONTEXT, s.probes.value))
            && (s.spec.host ==>
                  && e.mode.HostProcess? && e.protection == Partial && e.checklist.value == HostChecklist())
  {
    if !s.spec.host {
      ActiveIffAllPositive(CONTEXT, s.probes.value);
    }
  }

  // The summary calls a session safe only when it runs in the VMs and every guarantee
  // was positively measured by the auditor.
  lemma SafeSummaryIsMeasured(s: Session)
    requires Safe(s) && EvidenceInv(s)
    requires s.entry.Some? && s.entry.value.Summary().IsSafe()
    ensures s.entry.value.mode == FullVm && !s.spec.host
    ensures s.probes.Some? && AllPositive(CONTEXT, s.probes.value)
    ensures s.entry.value.handle.Some?
  {
    BrowsingIsBacked(s);
  }

  // ---- how a state may change -----------------------------------------------

  // The edge a step may take: one of the transition table, or, once a stop has
  // overlapped the start, the failing start's late write over Destroyed.
  predicate LegalEdge(before: State, after: State, mixed: bool) {
    before == after || before.CanTransitionTo(after) || (mixed && before.Destroyed? && after.Failed?)
  }

  lemma StepTakesALegalEdge(s: Session, a: Action)
    requires Safe(s) && s.entry.Some?
    ensures Step(s, a).entry.Some?
    ensures LegalEdge(s.entry.value.state, Step(s, a).entry.value.state, s.mixed)
    ensures s.entry.value.state.ShuttingDown() ==> Step(s, a).entry.value.state.ShuttingDown()
  {
    match a {
      case Call(_) =>
      case AdvanceStop(id) =>
        if StopInFlight(s, id) && s.stops[id].Stopping? {
          TeardownRow(s, ByStop(id), s.stops[id].td);
        }
      case Advance(o) =>
        match s.start {
          case Driving(_) => DriveHasShape(s, o);
          case TearingDown(_, td) => TeardownRow(s, ByStart, td);
          case _ =>
        }
    }
  }
}
