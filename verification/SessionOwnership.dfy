// What belongs to one session: the lease it works under and the ids it may touch, in
// every interleaving of its calls.
module SessionOwnership {
  import opened Errors
  import opened ProfileStore
  import opened SessionMachine
  import opened SessionSafety
  import opened SessionCleanup

  // The lease a session was granted, while anything of it can still use it.
  function LeaseOf(s: Session): Option<Lease> {
    if s.entry.Some? then Some(s.entry.value.lease)
    else if s.start.Keying? || s.start.Unlocking? then Some(s.start.lease)
    else None
  }

  // The lease a session still relies on: no task of it may be releasing the lock.
  function Claim(s: Session): Option<Lease> {
    if s.start.Keying? then Some(s.start.lease)
    else if s.entry.Some? && (s.start.Driving? || s.start == Done(None)) && !s.entry.value.state.ShuttingDown()
    then Some(s.entry.value.lease)
    else None
  }

  // The lease the next step of a task gives back, if that is what it does.
  function Releasing(s: Session, a: Action): Option<Lease> {
    match a
    case Advance(_) =>
      if s.start.Unlocking? then Some(s.start.lease)
      else if s.start.TearingDown? && s.start.td.ReleaseLease? then Some(s.start.td.r.lease)
      else None
    case AdvanceStop(id) =>
      if id in s.stops && s.stops[id].Stopping? && s.stops[id].td.ReleaseLease? then Some(s.stops[id].td.r.lease)
      else None
    case Call(_) => None
  }

  // The ids the session has recorded, with the one its drive holds in hand, if any.
  function OwnedVms(s: Session): set<VmId> {
    s.recorded +
    (if s.start.Driving? && (s.start.at.RecordGateway? || s.start.at.RecordBrowser?) then {s.start.at.vm} else {})
  }

  function OwnedHandles(s: Session): set<HandleId> {
    s.stored + (if s.start.Driving? && s.start.at.RecordHandle? then {s.start.at.handle} else {})
  }

  // A teardown works on what the row held: same lease, only ids the row recorded.
  ghost predicate WorksOnOwn(s: Session, td: Teardown) {
    td.Snapshot? ||
      (&& s.entry.Some? && td.r.lease == s.entry.value.lease
       && AsSet(td.r.gatewayVm) <= s.recorded && AsSet(td.r.browserVm) <= s.recorded
       && AsSet(td.r.handle) <= s.stored)
  }

  ghost predicate OwnInv(s: Session) {
    && EntryVms(s.entry) <= s.recorded && EntryHandles(s.entry) <= s.stored
    && (s.start.TearingDown? ==> WorksOnOwn(s, s.start.td))
    && (forall id | id in s.stops && s.stops[id].Stopping? :: WorksOnOwn(s, s.stops[id].td))
    && (forall v :: s.destroyed[v] > 0 ==> v in s.recorded)
    && (forall h :: s.terminated[h] > 0 ==> h in s.stored)
  }

  lemma TeardownKeepsOwn(s: Session, who: Caller, td: Teardown)
    requires s.entry.Some? && WorksOnOwn(s, td)
    requires EntryVms(s.entry) <= s.recorded && EntryHandles(s.entry) <= s.stored
    requires forall v :: s.destroyed[v] > 0 ==> v in s.recorded
    requires forall h :: s.terminated[h] > 0 ==> h in s.stored
    ensures var (s', next) := TeardownStep(s, who, td);
            && (next.Some? ==> WorksOnOwn(s', next.value))
            && EntryVms(s'.entry) <= s'.recorded && EntryHandles(s'.entry) <= s'.stored
            && (forall v :: s'.destroyed[v] > 0 ==> v in s'.recorded)
            && (forall h :: s'.terminated[h] > 0 ==> h in s'.stored)
  {
    if td.Snapshot? {
      var e := s.entry.value;
      assert AsSet(e.gatewayVm) <= EntryVms(s.entry) && AsSet(e.browserVm) <= EntryVms(s.entry);
      assert AsSet(e.handle) == EntryHandles(s.entry);
    }
  }

  lemma StopKeepsOwn(s: Session, id: CallId)
    requires Safe(s) && OwnInv(s)
    ensures OwnInv(StopStep(s, id))
  {
    if StopInFlight(s, id) && s.stops[id].Stopping? {
      TeardownRow(s, ByStop(id), s.stops[id].td);
      TeardownKeepsOwn(s, ByStop(id), s.stops[id].td);
    }
  }

  lemma RecordingKeepsOwn(s: Session, o: Oracle)
    requires Safe(s) && OwnInv(s) && s.start.Driving? && Recording(s.start.at)
    ensures OwnInv(StartStep(s, o))
  {
  }

  lemma StartTeardownKeepsOwn(s: Session, o: Oracle)
    requires Safe(s) && OwnInv(s) && s.start.TearingDown?
    ensures OwnInv(StartStep(s, o))
  {
    TeardownRow(s, ByStart, s.start.td);
    TeardownKeepsOwn(s, ByStart, s.start.td);
  }

  lemma DriveKeepsOwn(s: Session, o: Oracle)
    requires Safe(s) && OwnInv(s) && s.start.Driving?
    ensures OwnInv(StartStep(s, o))
  {
    if Recording(s.start.at) {
      RecordingKeepsOwn(s, o);
    } else {
      DriveHasShape(s, o);
    }
  }

  lemma StartKeepsOwn(s: Session, o: Oracle)
    requires Safe(s) && OwnInv(s)
    ensures OwnInv(StartStep(s, o))
  {
    match s.start {
      case Driving(_) => DriveKeepsOwn(s, o);
      case TearingDown(_, _) => StartTeardownKeepsOwn(s, o);
      case _ =>
    }
  }

  lemma StepKeepsOwn(s: Session, a: Action)
    requires Safe(s) && OwnInv(s)
    ensures OwnInv(Step(s, a))
  {
    match a {
      case Advance(o) => StartKeepsOwn(s, o);
      case AdvanceStop(id) => StopKeepsOwn(s, id);
      case Call(_) =>
    }
  }

  // How the ownership of one session moves in one step.
  ghost predicate Moves(s: Session, a: Action, s': Session) {
    && s'.spec == s.spec && s'.backends == s.backends
    && OwnedVms(s') <= OwnedVms(s) + (if a.Advance? then {a.o.vm} else {})
    && OwnedHandles(s') <= OwnedHandles(s) + (if a.Advance? then {a.o.handle} else {})
    && (if a.Advance? && s.start.Locking? && a.o.lock.Ok?
        then LeaseOf(s).None? && Claim(s') == LeaseOf(s') == Some(a.o.lock.value)
        else (LeaseOf(s') == LeaseOf(s) || LeaseOf(s').None?) && (Claim(s') == Claim(s) || Claim(s').None?))
  }

  lemma DriveMoves(s: Session, o: Oracle)
    requires Safe(s) && s.start.Driving?
    ensures Moves(s, Advance(o), StartStep(s, o))
  {
    DriveHasShape(s, o);
  }

  lemma StartTeardownMoves(s: Session, o: Oracle)
    requires Safe(s) && s.start.TearingDown?
    ensures Moves(s, Advance(o), StartStep(s, o))
  {
    TeardownRow(s, ByStart, s.start.td);
  }

  lemma StartMoves(s: Session, o: Oracle)
    requires Safe(s) && OwnInv(s)
    ensures Moves(s, Advance(o), StartStep(s, o))
  {
    hide Moves, StartStep, Safe, OwnInv;
    match s.start {
      case Driving(_) => DriveMoves(s, o);
      case TearingDown(_, _) => StartTeardownMoves(s, o);
      case _ => OutsideDriveMoves(s, o);
    }
  }

  lemma OutsideDriveMoves(s: Session, o: Oracle)
    requires Safe(s) && !s.start.Driving? && !s.start.TearingDown?
    ensures Moves(s, Advance(o), StartStep(s, o))
  {
    hide DriveStep, TeardownStep, DataInv;
    match s.start {
      case Locking => LockingMoves(s, o);
      case _ =>
    }
  }

  lemma LockingMoves(s: Session, o: Oracle)
    requires Safe(s) && s.start.Locking?
    ensures Moves(s, Advance(o), StartStep(s, o))
  {
    hide DriveStep, TeardownStep, DataInv;
  }

  lemma StepMoves(s: Session, a: Action)
    requires Safe(s) && OwnInv(s)
    ensures Moves(s, a, Step(s, a))
  {
    match a {
      case Advance(o) => StartMoves(s, o);
      case AdvanceStop(id) =>
        if StopInFlight(s, id) && s.stops[id].Stopping? {
          TeardownRow(s, ByStop(id), s.stops[id].td);
        }
      case Call(_) =>
    }
  }

  // A session gives back only its own lease, and never one it still relies on.
  lemma ReleasesOwnLease(s: Session, a: Action)
    requires Safe(s) && OwnInv(s) && Releasing(s, a).Some?
    ensures Releasing(s, a) == LeaseOf(s) && Claim(s).None?
  {
    if a.AdvanceStop? {
      assert WorksOnOwn(s, s.stops[a.id].td);
    }
  }
}
