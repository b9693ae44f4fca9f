// The way back of a profile's lock: in runs whose lock operations all work, a lock file
// stands exactly as long as a session owes it, and a waiting start gets a free one.
module SessionLocks {
  import opened Errors
  import opened ProfileStore
  import opened SessionMachine
  import opened SessionSafety
  import opened SessionOwnership
  import opened SessionGateway
  import opened SessionSystem
  import opened SessionExclusion

  // ---- what one session owes ----------------------------------------------------------

  ghost predicate GaveBack(log: seq<Event>) {
    exists e :: e in log && e.LockReleased?
  }

  // The lease a session has been granted and not yet given back.
  ghost function Owed(s: Session): Option<Lease> {
    if GaveBack(s.log) then None else LeaseOf(s)
  }

  // A teardown comes to its final write, and a session to a final state, only after the
  // release.
  ghost predicate ReleaseInv(s: Session) {
    && (s.entry.None? ==> !GaveBack(s.log))
    && (s.entry.Some? && (s.entry.value.state.Failed? || s.entry.value.state.Destroyed?) ==> GaveBack(s.log))
    && (s.start.TearingDown? && s.start.td.WriteFinal? ==> GaveBack(s.log))
    && (s.entry.Some? && s.start.Done? && s.start.outcome.Some? ==> GaveBack(s.log))
    && (forall id | id in s.stops && s.stops[id].Stopping? && s.stops[id].td.WriteFinal? :: GaveBack(s.log))
  }

  lemma MoreIsGivenBack(log: seq<Event>, more: seq<Event>)
    ensures GaveBack(log + more) <==> GaveBack(log) || GaveBack(more)
  {
    if e :| e in log + more && e.LockReleased? {
      assert e in log || e in more;
    }
    if e :| e in log && e.LockReleased? {
      assert e in log + more;
    }
    if e :| e in more && e.LockReleased? {
      assert e in log + more;
    }
  }

  lemma OneEvent(e: Event)
    ensures GaveBack([e]) <==> e.LockReleased?
  {
    assert e in [e];
  }

  // Only the releasing step of a teardown gives the lock back.
  lemma TeardownGivesBack(s: Session, who: Caller, td: Teardown)
    ensures GaveBack(TeardownStep(s, who, td).0.log) <==> GaveBack(s.log) || td.ReleaseLease?
    ensures var next := TeardownStep(s, who, td).1;
            next.Some? && next.value.WriteFinal? ==> td.ReleaseLease?
  {
    var log' := TeardownStep(s, who, td).0.log;
    if log' != s.log {
      var e := log'[|s.log|];
      assert log' == s.log + [e];
      MoreIsGivenBack(s.log, [e]);
      OneEvent(e);
    }
  }

  lemma Emitted(s: Session, e: Event)
    ensures GaveBack(Emit(s, e).log) <==> GaveBack(s.log) || e.LockReleased?
  {
    MoreIsGivenBack(s.log, [e]);
    OneEvent(e);
  }

  // What a session step does to the lease it owes.
  ghost predicate OwesOn(s: Session, a: Action, s': Session) {
    && ReleaseInv(s')
    && Owed(s') == if Releasing(s, a).Some? then None
                   else if a.Advance? && s.start.Locking? && a.o.lock.Ok? then Some(a.o.lock.value)
                   else Owed(s)
  }

  lemma DriveOwesOn(s: Session, o: Oracle)
    requires Safe(s) && ReleaseInv(s) && s.start.Driving?
    ensures OwesOn(s, Advance(o), StartStep(s, o))
  {
    hide DriveStep, TeardownStep, GaveBack;
    DriveHasShape(s, o);
    DriveNeverEnds(s, o);
    MoreIsGivenBack(s.log, [StartReturned(None)]);
    OneEvent(StartReturned(None));
  }

  lemma StartTeardownOwesOn(s: Session, o: Oracle)
    requires Safe(s) && ReleaseInv(s) && s.start.TearingDown?
    ensures OwesOn(s, Advance(o), StartStep(s, o))
  {
    hide GaveBack, TeardownStep;
    TeardownRow(s, ByStart, s.start.td);
    TeardownGivesBack(s, ByStart, s.start.td);
    Emitted(TeardownStep(s, ByStart, s.start.td).0, StartReturned(Some(s.start.error)));
  }

  lemma ElsewhereOwesOn(s: Session, o: Oracle)
    requires Safe(s) && ReleaseInv(s) && !s.start.TearingDown? && !s.start.Driving?
    ensures OwesOn(s, Advance(o), StartStep(s, o))
  {
    hide GaveBack, TeardownStep, DriveStep, DataInv;
    forall e ensures GaveBack(Emit(s, e).log) <==> GaveBack(s.log) || e.LockReleased? {
      Emitted(s, e);
    }
  }

  lemma StopOwesOn(s: Session, id: CallId)
    requires Safe(s) && ReleaseInv(s)
    ensures OwesOn(s, AdvanceStop(id), StopStep(s, id))
  {
    hide GaveBack, TeardownStep, DataInv;
    if StopInFlight(s, id) && s.stops[id].Stopping? {
      TeardownRow(s, ByStop(id), s.stops[id].td);
      TeardownGivesBack(s, ByStop(id), s.stops[id].td);
    }
  }

  lemma StepOwesOn(s: Session, a: Action)
    requires Safe(s) && ReleaseInv(s)
    ensures OwesOn(s, a, Step(s, a))
  {
    hide Safe, ReleaseInv, OwesOn, StartStep, StopStep;
    match a {
      case Advance(o) =>
        if s.start.Driving? {
          DriveOwesOn(s, o);
        } else if s.start.TearingDown? {
          StartTeardownOwesOn(s, o);
        } else {
          ElsewhereOwesOn(s, o);
        }
      case AdvanceStop(id) => StopOwesOn(s, id);
      case Call(id) => CallOwesOn(s, id);
    }
  }

  lemma CallOwesOn(s: Session, id: CallId)
    requires ReleaseInv(s)
    ensures OwesOn(s, Call(id), CallStop(s, id))
  {
    hide GaveBack, InFlight;
  }

  // ---- what the locks do --------------------------------------------------------------------

  // The lock operations of a run all work.
  predicate LockWorks(i: Input) {
    i.Proceed? ==> i.env.lock.NoFault?
  }

  predicate LocksWork(inputs: seq<Input>) {
    forall i | i in inputs :: LockWorks(i)
  }

  predicate HeldFor(store: Store, l: Lease) {
    l.profile in store.locks && store.locks[l.profile] == Holding(l.token)
  }

  // The step that gives the lease back removes the lock file if it holds the session's own
  // token, and nothing else does anything to any lock but the taking of a free one.
  lemma EffectOnLocks(y: Daemon, sid: SessionId, s: Session, a: Action, env: Environment)
    requires env.lock.NoFault? && (GatewayCall(s).Some? ==> !s.start.Locking?)
    ensures var (y', a') := Effect(y, sid, s, a, env);
            var locks, locks' := y.store.locks, y'.store.locks;
            var p := s.spec.profile;
            match Releasing(s, a) {
              case Some(l) =>
                && a' == Some(a)
                && locks' == if HeldFor(y.store, l) then locks - {l.profile} else locks
              case None =>
                if a.Advance? && s.start.Locking? then
                  && a'.Some? && a'.value.Advance?
                  && if p in y.store.profiles && p !in locks
                     then locks' == locks[p := Holding(env.token)] && a'.value.o.lock == Ok(Lease(p, env.token))
                     else locks' == locks && a'.value.o.lock.Err?
                          && (p in y.store.profiles ==> a'.value.o.lock == Err(Busy))
                else locks' == locks
            }
  {
    hide Turn;
  }

  // ---- the law ---------------------------------------------------------------------------------

  ghost predicate OwedBy(y: Daemon, sid: SessionId, l: Lease) {
    sid in y.sessions && Owed(y.sessions[sid]) == Some(l)
  }

  // Every lock file is owed by a session, or has been damaged by a halted deletion.
  ghost predicate Explained(y: Daemon, p: ProfileId)
    requires p in y.store.locks
  {
    match y.store.locks[p]
    case Holding(t) => exists sid :: OwedBy(y, sid, Lease(p, t))
    case Torn => p in y.damage.torn
  }

  // Every lease owed has its lock file, unless the profile was deleted or damaged.
  ghost predicate Kept(y: Daemon, l: Lease) {
    l.profile in y.store.profiles && l.profile !in y.damage.torn ==> HeldFor(y.store, l)
  }

  ghost predicate LockInv(y: Daemon) {
    && (forall sid | sid in y.sessions :: ReleaseInv(y.sessions[sid]))
    && (forall p | p in y.store.locks :: Explained(y, p))
    && (forall sid, l | OwedBy(y, sid, l) :: Kept(y, l))
  }

  // All a step of a session does to the locks, in terms of what the session owes: nothing,
  // or it gives its lease back, or it takes the free lock of its profile.
  ghost predicate GivesUp(y: Daemon, y': Daemon, s: Session, s': Session) {
    && LeaseOf(s).Some? && Owed(s').None?
    && y'.store.locks == if HeldFor(y.store, LeaseOf(s).value) then y.store.locks - {LeaseOf(s).value.profile}
                         else y.store.locks
  }

  ghost predicate Takes(y: Daemon, y': Daemon, s': Session) {
    && Owed(s').Some?
    && var l := Owed(s').value;
       && l.profile in y.store.profiles && l.profile !in y.store.locks
       && y'.store.locks == y.store.locks[l.profile := Holding(l.token)]
  }

  ghost predicate LockStep(y: Daemon, y': Daemon, s: Session, s': Session) {
    || (y'.store.locks == y.store.locks && Owed(s') == Owed(s))
    || GivesUp(y, y', s, s')
    || (Owed(s).None? && Takes(y, y', s'))
  }

  lemma CallsAreNoLocking(s: Session)
    ensures GatewayCall(s).Some? ==> !s.start.Locking?
  {}

  lemma SameRelease(s: Session, a: Action, a': Action)
    requires a.Advance? <==> a'.Advance?
    requires !a.Advance? ==> a' == a
    ensures Releasing(s, a') == Releasing(s, a)
  {}

  lemma LockingOwesNothing(s: Session)
    requires Safe(s) && s.start.Locking?
    ensures Owed(s).None?
  {
    hide DataInv;
  }

  lemma StepMovesLocks(y: Daemon, sid: SessionId, a: Action, env: Environment)
    requires Inv(y) && sid in y.sessions && ReleaseInv(y.sessions[sid]) && env.lock.NoFault?
    ensures var y' := Next(y, Proceed(sid, a, env));
            && sid in y'.sessions && y'.sessions == y.sessions[sid := y'.sessions[sid]] && y'.damage == y.damage
            && y'.store.profiles.Keys == y.store.profiles.Keys
            && ReleaseInv(y'.sessions[sid]) && LockStep(y, y', y.sessions[sid], y'.sessions[sid])
  {
    hide Effect, Step, LocalInv, Recorded, ClaimBacked, Apart, GatewayInv, ReleaseInv, Owed, GatewayCall, LeaseOf,
         Releasing, Safe, OwnInv;
    var s := y.sessions[sid];
    assert LocalInv(s);
    LocalParts(s);
    CallsAreNoLocking(s);
    EffectMovesLocks(y, sid, s, a, env);
    EffectOnLocks(y, sid, s, a, env);
    var a' := Effect(y, sid, s, a, env).1;
    if a'.None? {
      assert y.sessions[sid := s] == y.sessions;
    } else {
      SameRelease(s, a, a'.value);
      StepOwesOn(s, a'.value);
      if Releasing(s, a).Some? {
        ReleasesOwnLease(s, a);
      }
      if s.start.Locking? {
        LockingOwesNothing(s);
      }
    }
  }

  lemma StaysExplained(y: Daemon, y': Daemon, sid: SessionId, p: ProfileId)
    requires sid in y.sessions && sid in y'.sessions && y'.sessions == y.sessions[sid := y'.sessions[sid]]
    requires y'.damage == y.damage && LockStep(y, y', y.sessions[sid], y'.sessions[sid])
    requires p in y'.store.locks && (p in y.store.locks ==> Explained(y, p))
    ensures Explained(y', p)
  {
    hide LeaseOf, GaveBack;
    if p in y.store.locks && y.store.locks[p].Holding? && y'.store.locks[p] == y.store.locks[p] {
      var l := Lease(p, y.store.locks[p].token);
      var i :| OwedBy(y, i, l);
      assert OwedBy(y', i, l);
    } else if y'.store.locks[p].Holding? {
      assert OwedBy(y', sid, Lease(p, y'.store.locks[p].token));
    }
  }

  lemma StaysKept(y: Daemon, y': Daemon, sid: SessionId, i: SessionId, l: Lease)
    requires sid in y.sessions && sid in y'.sessions && y'.sessions == y.sessions[sid := y'.sessions[sid]]
    requires y'.damage == y.damage && y'.store.profiles.Keys == y.store.profiles.Keys
    requires LockStep(y, y', y.sessions[sid], y'.sessions[sid])
    requires OwedBy(y', i, l) && (OwedBy(y, i, l) ==> Kept(y, l))
    requires i in y.sessions && (i != sid ==> Apart(y.sessions[sid], y.sessions[i]))
    ensures Kept(y', l)
  {
    hide LeaseOf, GaveBack, OwnedVms, OwnedHandles;
  }

  lemma ProceedKeepsLockInv(y: Daemon, sid: SessionId, a: Action, env: Environment)
    requires Inv(y) && LockInv(y) && sid in y.sessions && env.lock.NoFault?
    ensures LockInv(Next(y, Proceed(sid, a, env)))
  {
    hide Next, LocalInv, Recorded, ClaimBacked, Apart, GatewayInv, StoreInv, ReleaseInv, Owed, LockStep, Kept,
         Explained;
    StepMovesLocks(y, sid, a, env);
    var y' := Next(y, Proceed(sid, a, env));
    forall p | p in y'.store.locks ensures Explained(y', p) {
      StaysExplained(y, y', sid, p);
    }
    forall i, l | OwedBy(y', i, l) ensures Kept(y', l) {
      StaysKept(y, y', sid, i, l);
    }
  }

  // ---- the other inputs ---------------------------------------------------------------------

  lemma DeletionKeepsExplained(y: Daemon, id: ProfileId, shred: Shred, p: ProfileId)
    requires ValidStore(y.store)
    requires var y' := Next(y, DeleteProfile(id, shred)); p in y'.store.locks
    requires p in y.store.locks ==> Explained(y, p)
    ensures Explained(Next(y, DeleteProfile(id, shred)), p)
  {
    hide Owed;
    var y' := Next(y, DeleteProfile(id, shred));
    if y'.store.locks[p].Holding? {
      var i :| OwedBy(y, i, Lease(p, y.store.locks[p].token));
      assert OwedBy(y', i, Lease(p, y.store.locks[p].token));
    }
  }

  lemma DeletionKeepsKept(y: Daemon, id: ProfileId, shred: Shred, l: Lease)
    requires Kept(y, l)
    ensures Kept(Next(y, DeleteProfile(id, shred)), l)
  {}

  lemma DeletionKeepsLockInv(y: Daemon, id: ProfileId, shred: Shred)
    requires Inv(y) && LockInv(y)
    ensures LockInv(Next(y, DeleteProfile(id, shred)))
  {
    hide Owed, Kept, Explained, ReleaseInv, LocalInv, Recorded, ClaimBacked, Apart, GatewayInv, Delete, Damaging;
    var y' := Next(y, DeleteProfile(id, shred));
    forall p | p in y'.store.locks ensures Explained(y', p) {
      DeletionKeepsExplained(y, id, shred, p);
    }
    forall i, l | OwedBy(y', i, l) ensures Kept(y', l) {
      assert OwedBy(y, i, l);
      DeletionKeepsKept(y, id, shred, l);
    }
  }

  // Inputs that leave every lock and every session's debts as they are.
  lemma QuietKeepsLockInv(y: Daemon, y': Daemon)
    requires LockInv(y) && y'.store.locks == y.store.locks && y'.damage == y.damage
    requires forall sid | sid in y'.sessions :: ReleaseInv(y'.sessions[sid])
    requires forall sid, l :: OwedBy(y', sid, l) <==> OwedBy(y, sid, l)
    requires forall sid, l | OwedBy(y, sid, l) ::
               l.profile in y'.store.profiles ==> l.profile in y.store.profiles
    ensures LockInv(y')
  {
    hide Owed, ReleaseInv;
    forall p | p in y'.store.locks ensures Explained(y', p) {
      assert Explained(y, p);
    }
    forall sid, l | OwedBy(y', sid, l) ensures Kept(y', l) {
      assert OwedBy(y, sid, l) && Kept(y, l);
    }
  }

  lemma BegunOwesNothing(spec: Spec, backends: set<Engine>)
    ensures ReleaseInv(NewSession(spec, backends)) && Owed(NewSession(spec, backends)).None?
  {}

  lemma QuietInput(y: Daemon, i: Input)
    requires Inv(y) && LockInv(y) && Admissible(y, i)
    requires i.CreateProfile? || i.RenameProfile? || i.BeginStart? || i.MoveGateway?
             || (i.Proceed? && i.sid !in y.sessions)
    ensures LockInv(Next(y, i))
  {
    hide ReleaseInv, Owed, Kept, Explained, LocalInv, ClaimBacked, Apart, GatewayInv;
    var y' := Next(y, i);
    if i.BeginStart? {
      BegunOwesNothing(i.spec, y.backends);
    }
    forall sid, l | OwedBy(y, sid, l)
      ensures l.profile in y'.store.profiles ==> l.profile in y.store.profiles
    {
      assert Recorded(y, y.sessions[sid]);
      OwedIsOfProfile(y.sessions[sid]) by { assert LocalInv(y.sessions[sid]); }
    }
    QuietKeepsLockInv(y, y');
  }

  lemma OwedIsOfProfile(s: Session)
    requires LocalInv(s)
    ensures LeaseOf(s).Some? ==> LeaseOf(s).value.profile == s.spec.profile
    ensures Owed(s).Some? ==> Owed(s) == LeaseOf(s)
  {
    hide DataInv, EvidenceInv, OwnInv;
  }

  lemma InputKeepsLockInv(y: Daemon, i: Input)
    requires Inv(y) && LockInv(y) && Admissible(y, i) && LockWorks(i)
    ensures LockInv(Next(y, i))
  {
    hide Inv, LockInv, Next, Admissible;
    if i.Proceed? && i.sid in y.sessions {
      ProceedKeepsLockInv(y, i.sid, i.action, i.env);
    } else if i.DeleteProfile? {
      DeletionKeepsLockInv(y, i.id, i.shred);
    } else {
      QuietInput(y, i);
    }
  }

  lemma {:induction false} RunKeepsLockInv(y: Daemon, inputs: seq<Input>)
    requires Inv(y) && LockInv(y) && AllAdmissible(y, inputs) && LocksWork(inputs)
    ensures Inv(After(y, inputs)) && LockInv(After(y, inputs))
    decreases |inputs|
  {
    hide Inv, LockInv, Next, Admissible;
    if inputs != [] {
      assert inputs[0] in inputs;
      NextKeepsInv(y, inputs[0]);
      InputKeepsLockInv(y, inputs[0]);
      assert forall i | i in inputs[1..] :: i in inputs;
      RunKeepsLockInv(Next(y, inputs[0]), inputs[1..]);
    }
  }

  lemma ReachableKeepsLocks(backends: set<Engine>, inputs: seq<Input>)
    requires AllAdmissible(Boot(backends), inputs) && LocksWork(inputs)
    ensures Inv(After(Boot(backends), inputs)) && LockInv(After(Boot(backends), inputs))
  {
    hide Inv;
    ReachableIsInv(backends, []);
    RunKeepsLockInv(Boot(backends), inputs);
  }

  // ---- the main results ---------------------------------------------------------------------------

  // The step that gives a lease back, its file operations working, takes away the lock file
  // with the session's own token, and no other.
  lemma ReleasingUnlocks(y: Daemon, sid: SessionId, a: Action, env: Environment)
    requires sid in y.sessions && Releasing(y.sessions[sid], a).Some? && env.lock.NoFault?
    requires HeldFor(y.store, Releasing(y.sessions[sid], a).value)
    ensures Next(y, Proceed(sid, a, env)).store
         == y.store.(locks := y.store.locks - {Releasing(y.sessions[sid], a).value.profile})
  {
    hide Step, Turn;
  }

  // As long as the lock operations work, an undamaged profile is locked exactly while some
  // session owes its lease: has been granted it and has not given it back.
  lemma LockedIffOwed(backends: set<Engine>, inputs: seq<Input>, p: ProfileId)
    requires AllAdmissible(Boot(backends), inputs) && LocksWork(inputs)
    requires var y := After(Boot(backends), inputs); p in y.store.profiles && p !in y.damage.torn
    ensures var y := After(Boot(backends), inputs);
            && (p in y.store.locks <==> exists sid, t :: OwedBy(y, sid, Lease(p, t)))
            && forall sid, t :: OwedBy(y, sid, Lease(p, t)) ==> HeldFor(y.store, Lease(p, t))
  {
    hide Inv, ReleaseInv, OwedBy;
    ReachableKeepsLocks(backends, inputs);
  }

  // A start that has failed, key drawing included, and a session that has been stopped.
  predicate Settled(s: Session) {
    || (s.start.Done? && s.start.outcome.Some?)
    || (s.entry.Some? && (s.entry.value.state.Failed? || s.entry.value.state.Destroyed?))
  }

  lemma SettledOwesNothing(s: Session)
    requires ReleaseInv(s) && Settled(s)
    ensures Owed(s).None?
  {}

  // So a settled session's token is in no lock file.
  lemma SettledHoldsNoLock(backends: set<Engine>, inputs: seq<Input>, sid: SessionId)
    requires AllAdmissible(Boot(backends), inputs) && LocksWork(inputs)
    requires var y := After(Boot(backends), inputs); sid in y.sessions && Settled(y.sessions[sid])
    ensures var y := After(Boot(backends), inputs);
            LeaseOf(y.sessions[sid]).Some? ==>
              forall p | p in y.store.locks :: y.store.locks[p] != Holding(LeaseOf(y.sessions[sid]).value.token)
  {
    hide LocalInv, Recorded, ClaimBacked, GatewayInv, StoreInv, ReleaseInv, GaveBack;
    ReachableKeepsLocks(backends, inputs);
    var y := After(Boot(backends), inputs);
    SettledOwesNothing(y.sessions[sid]);
    forall p | p in y.store.locks && LeaseOf(y.sessions[sid]).Some?
      ensures y.store.locks[p] != Holding(LeaseOf(y.sessions[sid]).value.token)
    {
      assert Explained(y, p);
      if y.store.locks[p].Holding? {
        var i :| OwedBy(y, i, Lease(p, y.store.locks[p].token));
        assert i != sid ==> Apart(y.sessions[i], y.sessions[sid]);
      }
    }
  }

  // And a waiting start whose profile is there gets the lock exactly if nobody owes it.
  lemma WaitingGetsFreeLock(backends: set<Engine>, inputs: seq<Input>, j: SessionId, p: ProfileId, o: Oracle,
                            env: Environment)
    requires AllAdmissible(Boot(backends), inputs) && LocksWork(inputs) && env.lock.NoFault?
    requires var y := After(Boot(backends), inputs);
             Waits(y, j, p) && p in y.store.profiles && p !in y.damage.torn
    ensures var y := After(Boot(backends), inputs);
            var y' := Next(y, Proceed(j, Advance(o), env));
            && j in y'.sessions
            && if exists sid, t :: OwedBy(y, sid, Lease(p, t))
               then y'.sessions[j].start == Done(Some(Busy)) && y'.store == y.store
               else y'.sessions[j].start == Keying(Lease(p, env.token)) && HeldFor(y'.store, Lease(p, env.token))
  {
    hide Inv, OwedBy, After, AllAdmissible;
    var y := After(Boot(backends), inputs);
    LockedIffOwed(backends, inputs, p);
    TriesLock(y, j, o, env);
  }

  lemma TriesLock(y: Daemon, j: SessionId, o: Oracle, env: Environment)
    requires j in y.sessions && y.sessions[j].start.Locking? && env.lock.NoFault?
    requires y.sessions[j].spec.profile in y.store.profiles
    ensures var p, y' := y.sessions[j].spec.profile, Next(y, Proceed(j, Advance(o), env));
            && j in y'.sessions
            && if p in y.store.locks then y'.sessions[j].start == Done(Some(Busy)) && y'.store == y.store
               else y'.sessions[j].start == Keying(Lease(p, env.token)) && HeldFor(y'.store, Lease(p, env.token))
  {
    hide Turn, DriveStep, TeardownStep;
  }

  // A start whose key draw fails returns that error, unregistered, its lock given back.
  lemma KeyFailureIsReturned(y: Daemon, sid: SessionId, o: Oracle, env: Environment, o': Oracle, env': Environment)
    requires sid in y.sessions && y.sessions[sid].start.Keying? && o.fault.Some? && env'.lock.NoFault?
    requires y.sessions[sid].entry.None? && HeldFor(y.store, y.sessions[sid].start.lease)
    ensures var y1 := Next(y, Proceed(sid, Advance(o), env));
            var y2 := Next(y1, Proceed(sid, Advance(o'), env'));
            && sid in y2.sessions && y2.sessions[sid].start == Done(o.fault) && y2.sessions[sid].entry.None?
            && y2.store == y.store.(locks := y.store.locks - {y.sessions[sid].start.lease.profile})
  {
    hide Turn, DriveStep, TeardownStep;
  }

  // In particular a profile can be started again once all its sessions are settled.
  lemma StartsAgain(backends: set<Engine>, inputs: seq<Input>, j: SessionId, p: ProfileId, o: Oracle, env: Environment)
    requires AllAdmissible(Boot(backends), inputs) && LocksWork(inputs) && env.lock.NoFault?
    requires var y := After(Boot(backends), inputs);
             && Waits(y, j, p) && p in y.store.profiles && p !in y.damage.torn
             && forall i | i in y.sessions && i != j && y.sessions[i].spec.profile == p ::
                  Settled(y.sessions[i]) || Waits(y, i, p)
    ensures var y' := Next(After(Boot(backends), inputs), Proceed(j, Advance(o), env));
            && j in y'.sessions && y'.sessions[j].start == Keying(Lease(p, env.token))
            && HeldFor(y'.store, Lease(p, env.token))
  {
    hide LocalInv, Recorded, ClaimBacked, GatewayInv, StoreInv, Apart, ReleaseInv, Owed, After, AllAdmissible, Next,
         LeaseOf, Settled, Safe;
    var y := After(Boot(backends), inputs);
    ReachableKeepsLocks(backends, inputs);
    forall i, t ensures !OwedBy(y, i, Lease(p, t)) {
      if OwedBy(y, i, Lease(p, t)) {
        assert LocalInv(y.sessions[i]);
        OwedIsOfProfile(y.sessions[i]);
        if y.sessions[i].start.Locking? {
          LocalParts(y.sessions[i]);
          LockingOwesNothing(y.sessions[i]);
        } else {
          SettledOwesNothing(y.sessions[i]);
        }
      }
    }
    WaitingGetsFreeLock(backends, inputs, j, p, o, env);
  }
}
