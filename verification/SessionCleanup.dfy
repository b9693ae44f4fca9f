// Resource accounting of one session: who still has to destroy which VM and terminate
// which browser.
module SessionCleanup {
  import opened Errors
  import opened SessionMachine
  import opened SessionSafety

  function AsSet(x: Option<nat>): set<nat> {
    if x.Some? then {x.value} else {}
  }

  function EntryVms(e: Option<Entry>): set<VmId> {
    if e.None? then {} else AsSet(e.value.gatewayVm) + AsSet(e.value.browserVm)
  }

  function EntryHandles(e: Option<Entry>): set<HandleId> {
    if e.None? then {} else AsSet(e.value.handle)
  }

  // What a teardown past its snapshot still has to destroy or terminate.
  function PendingVms(td: Teardown): set<VmId> {
    match td
    case Snapshot => {}
    case Terminate(r) => AsSet(r.browserVm) + AsSet(r.gatewayVm)
    case RemoveDirectory(r) => AsSet(r.browserVm) + AsSet(r.gatewayVm)
    case DestroyBrowser(r) => AsSet(r.browserVm) + AsSet(r.gatewayVm)
    case DestroyGateway(r) => AsSet(r.gatewayVm)
    case ReleaseLease(_) => {}
    case WriteFinal(_) => {}
  }

  function PendingHandles(td: Teardown): set<HandleId> {
    if td.Terminate? then AsSet(td.r.handle) else {}
  }

  // Exactly the ids outside `alive` and `open` have been dealt with, each of them once.
  ghost predicate Settled(s: Session, alive: set<VmId>, open: set<HandleId>) {
    && alive <= s.recorded && open <= s.stored
    && (forall v :: s.destroyed[v] == if v in s.recorded && v !in alive then 1 else 0)
    && (forall h :: s.terminated[h] == if h in s.stored && h !in open then 1 else 0)
  }

  predicate Distinct(gateway: Option<VmId>, browser: Option<VmId>) {
    gateway.Some? && browser.Some? ==> gateway.value != browser.value
  }

  ghost predicate Holdings(s: Session, td: Teardown) {
    td.Snapshot? ||
      (Distinct(td.r.gatewayVm, td.r.browserVm) && (td.r.mode.HostProcess? ==> td.r.mode.engine in s.backends))
  }

  predicate Working(stop: Stop) {
    stop.Stopping? && !stop.td.Snapshot?
  }

  ghost predicate Idle(s: Session) {
    && !(s.start.TearingDown? && !s.start.td.Snapshot?)
    && (forall id | id in s.stops :: !Working(s.stops[id]))
  }

  ghost predicate AllStopped(s: Session) {
    forall id | id in s.stops :: s.stops[id].Stopped?
  }

  // The slots of the row are filled once each, in order.
  ghost predicate SlotsInOrder(s: Session) {
    && (s.entry.None? ==> s.recorded == {} && s.stored == {})
    && (s.entry.Some? && s.start.Driving? ==>
          var at, e := s.start.at, s.entry.value;
          && (NoVmYet(at) ==> s.recorded == {})
          && (NoBrowserVmYet(at) ==> e.browserVm.None?)
          && (s.recorded == {} ==> e.gatewayVm.None? && e.browserVm.None?)
          && (NoHandleYet(at) ==> s.stored == {} && e.handle.None?)
          && (at.RecordGateway? || at.RecordBrowser? ==> at.vm !in s.recorded)
          && (at.RecordHandle? ==> at.handle !in s.stored))
  }

  ghost predicate Accounts(s: Session) {
    && !s.mixed
    && (!s.start.Done? ==> s.stops == map[])
    && (forall i, j :: StopInFlight(s, i) && StopInFlight(s, j) ==> i == j)
    && SlotsInOrder(s)
    && (s.entry.Some? ==> Distinct(s.entry.value.gatewayVm, s.entry.value.browserVm))
    && (s.start.TearingDown? ==> Holdings(s, s.start.td))
    && (forall id | id in s.stops && s.stops[id].Stopping? :: Holdings(s, s.stops[id].td))
    && (s.start.TearingDown? && !s.start.td.Snapshot? ==>
          Settled(s, PendingVms(s.start.td), PendingHandles(s.start.td)))
    && (forall id | id in s.stops && Working(s.stops[id]) ::
          Settled(s, PendingVms(s.stops[id].td), PendingHandles(s.stops[id].td)))
    && (Idle(s) ==> Settled(s, EntryVms(s.entry), EntryHandles(s.entry)))
    && (s.entry.Some? && s.start.Done? && AllStopped(s) && !s.entry.value.state.Browsing? ==>
          EntryVms(s.entry) == {} && EntryHandles(s.entry) == {})
  }

  // Holds as long as the calls on this session have not overlapped.
  ghost predicate AccountInv(s: Session) {
    (s.mixed ==> s.overlapped) && (!s.overlapped ==> Accounts(s))
  }

  // ---- teardown steps ---------------------------------------------------------

  lemma DestroySettles(s: Session, who: Caller, td: Teardown)
    requires td.DestroyBrowser? || td.DestroyGateway?
    requires Holdings(s, td) && Settled(s, PendingVms(td), PendingHandles(td))
    ensures var (s', next) := TeardownStep(s, who, td);
            && (next.Some? ==> !next.value.Snapshot? && Holdings(s', next.value)
                               && Settled(s', PendingVms(next.value), PendingHandles(next.value)))
            && (next.None? ==> Settled(s', {}, {}) && EntryVms(s'.entry) == {} && EntryHandles(s'.entry) == {})
  {
  }

  lemma TerminateSettles(s: Session, who: Caller, td: Teardown)
    requires td.Terminate? || td.RemoveDirectory?
    requires Holdings(s, td) && Settled(s, PendingVms(td), PendingHandles(td))
    ensures var (s', next) := TeardownStep(s, who, td);
            && (next.Some? ==> !next.value.Snapshot? && Holdings(s', next.value)
                               && Settled(s', PendingVms(next.value), PendingHandles(next.value)))
            && (next.None? ==> Settled(s', {}, {}) && EntryVms(s'.entry) == {} && EntryHandles(s'.entry) == {})
  {
  }

  lemma ClosingSettles(s: Session, who: Caller, td: Teardown)
    requires td.ReleaseLease? || td.WriteFinal?
    requires Holdings(s, td) && Settled(s, PendingVms(td), PendingHandles(td))
    ensures var (s', next) := TeardownStep(s, who, td);
            && (next.Some? ==> !next.value.Snapshot? && Holdings(s', next.value)
                               && Settled(s', PendingVms(next.value), PendingHandles(next.value)))
            && (next.None? ==> Settled(s', {}, {}) && EntryVms(s'.entry) == {} && EntryHandles(s'.entry) == {})
  {
  }

  lemma TeardownSettles(s: Session, who: Caller, td: Teardown)
    requires !td.Snapshot?
    requires Holdings(s, td) && Settled(s, PendingVms(td), PendingHandles(td))
    ensures var (s', next) := TeardownStep(s, who, td);
            && (next.Some? ==> !next.value.Snapshot? && Holdings(s', next.value)
                               && Settled(s', PendingVms(next.value), PendingHandles(next.value)))
            && (next.None? ==> Settled(s', {}, {}) && EntryVms(s'.entry) == {} && EntryHandles(s'.entry) == {})
  {
    hide Settled, TeardownStep, Holdings;
    if td.DestroyBrowser? || td.DestroyGateway? {
      DestroySettles(s, who, td);
    } else if td.Terminate? || td.RemoveDirectory? {
      TerminateSettles(s, who, td);
    } else {
      ClosingSettles(s, who, td);
    }
  }

  lemma SnapshotSettles(s: Session, who: Caller)
    requires Safe(s) && s.entry.Some?
    requires Distinct(s.entry.value.gatewayVm, s.entry.value.browserVm)
    requires Settled(s, EntryVms(s.entry), EntryHandles(s.entry))
    ensures var (s', next) := TeardownStep(s, who, Snapshot);
            && next.Some? && next.value.Terminate? && Holdings(s', next.value)
            && Settled(s', PendingVms(next.value), PendingHandles(next.value))
  {
    var (s', next) := TeardownStep(s, who, Snapshot);
    assert PendingVms(next.value) == EntryVms(s.entry);
  }

  // ---- every step keeps the accounts ------------------------------------------

  lemma RecordingAccounts(s: Session, o: Oracle)
    requires Safe(s) && Accounts(s) && s.start.Driving? && Recording(s.start.at)
    ensures Accounts(StartStep(s, o))
  {
    assert Idle(s);
  }

  lemma DriveAccounts(s: Session, o: Oracle)
    requires Safe(s) && Accounts(s) && s.start.Driving? && Plausible(s, Advance(o))
    requires Safe(StartStep(s, o))
    ensures Accounts(StartStep(s, o))
  {
    if Recording(s.start.at) {
      RecordingAccounts(s, o);
    } else {
      DriveHasShape(s, o);
      assert Idle(s);
    }
  }

  lemma StartTeardownAccounts(s: Session, o: Oracle)
    requires Safe(s) && Accounts(s) && s.start.TearingDown?
    ensures Accounts(StartStep(s, o))
  {
    var td := s.start.td;
    TeardownRow(s, ByStart, td);
    if td.Snapshot? {
      SnapshotSettles(s, ByStart);
    } else {
      TeardownSettles(s, ByStart, td);
    }
  }

  lemma StartStepAccounts(s: Session, o: Oracle)
    requires Safe(s) && Accounts(s) && Plausible(s, Advance(o))
    ensures Accounts(StartStep(s, o))
  {
    StartStepIsSafe(s, o);
    match s.start {
      case Driving(_) => DriveAccounts(s, o);
      case TearingDown(_, _) => StartTeardownAccounts(s, o);
      case _ => assert !s.start.Done? ==> Idle(s);
    }
  }

  // Every other stop has returned: the accounts speak of this one alone.
  ghost predicate Alone(s: Session, id: CallId) {
    id in s.stops && forall other | other in s.stops && other != id :: s.stops[other].Stopped?
  }

  // The accounts when one stop is in flight, and when it has just returned.
  lemma WorkingAccounts(s: Session, id: CallId)
    requires Alone(s, id) && s.start.Done? && s.entry.Some? && !s.mixed
    requires Working(s.stops[id])
    requires Distinct(s.entry.value.gatewayVm, s.entry.value.browserVm) && Holdings(s, s.stops[id].td)
    requires Settled(s, PendingVms(s.stops[id].td), PendingHandles(s.stops[id].td))
    ensures Accounts(s)
  {
    assert !Idle(s);
    assert !AllStopped(s);
  }

  lemma QuietAccounts(s: Session, id: CallId)
    requires Alone(s, id) && s.start.Done? && s.entry.Some? && !s.mixed
    requires !Working(s.stops[id])
    requires Distinct(s.entry.value.gatewayVm, s.entry.value.browserVm)
    requires Settled(s, EntryVms(s.entry), EntryHandles(s.entry))
    requires s.stops[id].Stopped? ==> EntryVms(s.entry) == {} && EntryHandles(s.entry) == {}
    ensures Accounts(s)
  {
    if !s.stops[id].Stopped? {
      assert !AllStopped(s);
    }
  }

  lemma OthersStopped(s: Session, id: CallId)
    requires Accounts(s) && StopInFlight(s, id)
    ensures Alone(s, id) && s.start.Done?
  {
    forall other | other in s.stops && other != id ensures s.stops[other].Stopped? {
      assert StopInFlight(s, other) ==> other == id;
    }
  }

  lemma StopEntersAccounts(s: Session, id: CallId)
    requires Safe(s) && Accounts(s) && Alone(s, id) && s.start.Done? && s.stops[id].Entering?
    ensures Accounts(StopStep(s, id))
  {
    assert Idle(s);
    QuietAccounts(StopStep(s, id), id);
  }

  lemma StopSnapshotAccounts(s: Session, id: CallId)
    requires Safe(s) && Accounts(s) && Alone(s, id) && s.start.Done? && s.stops[id] == Stopping(Snapshot)
    ensures Accounts(StopStep(s, id))
  {
    assert Idle(s);
    SnapshotSettles(s, ByStop(id));
    TeardownRow(s, ByStop(id), Snapshot);
    WorkingAccounts(StopStep(s, id), id);
  }

  lemma StopWorksAccounts(s: Session, id: CallId)
    requires Safe(s) && Accounts(s) && Alone(s, id) && s.start.Done? && Working(s.stops[id])
    ensures Accounts(StopStep(s, id))
  {
    var s' := StopStep(s, id);
    TeardownRow(s, ByStop(id), s.stops[id].td);
    TeardownSettles(s, ByStop(id), s.stops[id].td);
    if s'.stops[id].Stopped? {
      QuietAccounts(s', id);
    } else {
      WorkingAccounts(s', id);
    }
  }

  lemma StopStepAccounts(s: Session, id: CallId)
    requires Safe(s) && Accounts(s) && StopInFlight(s, id)
    ensures Accounts(StopStep(s, id))
  {
    OthersStopped(s, id);
    if s.stops[id].Entering? {
      StopEntersAccounts(s, id);
    } else if s.stops[id].td.Snapshot? {
      StopSnapshotAccounts(s, id);
    } else {
      StopWorksAccounts(s, id);
    }
  }

  // Only the call of a stop can make calls overlap.
  lemma FlagsChangeOnCall(s: Session, a: Action)
    requires Safe(s)
    ensures !a.Call? ==> Step(s, a).overlapped == s.overlapped && Step(s, a).mixed == s.mixed
    ensures s.mixed ==> Step(s, a).mixed
    ensures s.overlapped ==> Step(s, a).overlapped
    ensures (s.mixed ==> s.overlapped) ==> (Step(s, a).mixed ==> Step(s, a).overlapped)
  {
    match a {
      case Call(_) =>
      case AdvanceStop(id) =>
        if StopInFlight(s, id) && s.stops[id].Stopping? {
          TeardownRow(s, ByStop(id), s.stops[id].td);
        }
      case Advance(o) =>
        match s.start {
          case Driving(_) => DriveHasShape(s, o);
          case TearingDown(_, td) => TeardownRow(s, ByStart, td);
          case _ =>
        }
    }
  }

  lemma StepKeepsAccounts(s: Session, a: Action)
    requires Safe(s) && AccountInv(s) && Plausible(s, a)
    ensures AccountInv(Step(s, a))
  {
    FlagsChangeOnCall(s, a);
    if !Step(s, a).overlapped {
      match a {
        case Advance(o) => StartStepAccounts(s, o);
        case AdvanceStop(id) =>
          if StopInFlight(s, id) {
            StopStepAccounts(s, id);
          }
        case Call(id) =>
          if s.entry.Some? && id !in s.stops {
            CallAccounts(s, id);
          }
      }
    }
  }

  lemma CallAccounts(s: Session, id: CallId)
    requires Accounts(s) && s.entry.Some? && id !in s.stops && !InFlight(s)
    ensures Accounts(CallStop(s, id))
  {
    forall other | other in s.stops ensures s.stops[other].Stopped? {
      assert !StopInFlight(s, other);
    }
    assert Idle(s);
    QuietAccounts(CallStop(s, id), id);
  }

  // Exactly-once cleanup: with calls that never overlapped, a session found Failed or
  // Destroyed with no call in flight has made one destroy call for each VM its row ever
  // recorded, and one terminate call for each browser handle it ever stored, whatever
  // failed on the way and however many stops came later.
  lemma CleanedUpExactlyOnce(s: Session)
    requires Safe(s) && AccountInv(s) && !s.overlapped && !InFlight(s)
    requires s.entry.Some? && (s.entry.value.state.Failed? || s.entry.value.state.Destroyed?)
    ensures forall v | v in s.recorded :: s.destroyed[v] == 1
    ensures forall h | h in s.stored :: s.terminated[h] == 1
    ensures s.entry.value.gatewayVm.None? && s.entry.value.browserVm.None? && s.entry.value.handle.None?
  {
    forall id | id in s.stops ensures s.stops[id].Stopped? {
      assert !StopInFlight(s, id);
    }
    assert Idle(s) && AllStopped(s);
    EmptyMeansNone(s.entry.value.gatewayVm);
    EmptyMeansNone(s.entry.value.browserVm);
    EmptyMeansNone(s.entry.value.handle);
  }

  lemma EmptyMeansNone(x: Option<nat>)
    ensures AsSet(x) == {} <==> x.None?
  {
    if x.Some? {
      assert x.value in AsSet(x);
    }
  }
}
