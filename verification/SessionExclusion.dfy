// Mutual exclusion of the browsers of one profile: it holds in every run, unless a
// deletion of the profile halted, having removed the lock file, just when one session
// held the profile and another had read it and was about to lock it.
module SessionExclusion {
  import opened Errors
  import opened Preflight
  import opened ProfileStore
  import opened SessionMachine
  import opened SessionSafety
  import opened SessionOwnership
  import opened SessionGateway
  import opened SessionSystem

  // ---- who may still come to browse ------------------------------------------------

  // A gateway call that will come back with an error.
  predicate Lost(task: CG.Task) {
    task.LoadingCut? || task.RecordingCut? || (task.Returned? && task.answer.Some?)
  }

  // The session relies on its profile's lock, its gateway call has not failed, and the
  // probe answers it is about to judge are good.
  ghost predicate Hopeful(g: CG.Shared, sid: SessionId, s: Session) {
    && Claim(s).Some?
    && (CG.OfSession(sid) in g.tasks ==> !Lost(g.tasks[CG.OfSession(sid)]))
    && (s.start.Driving? && s.start.at.StoreChecklist? ==>
          RunPreflight(CONTEXT, s.start.at.probes).PermitsBrowsing())
  }

  ghost predicate Holds(y: Daemon, i: SessionId, p: ProfileId) {
    i in y.sessions && y.sessions[i].spec.profile == p && Hopeful(y.gateway, i, y.sessions[i])
  }

  // A start that has read its profile and not yet taken its lock.
  ghost predicate Waits(y: Daemon, j: SessionId, p: ProfileId) {
    j in y.sessions && y.sessions[j].spec.profile == p && y.sessions[j].start.Locking?
  }

  // A deletion that halts, having removed the lock file.
  predicate FreesLock(i: Input, p: ProfileId) {
    i.DeleteProfile? && i.id == p && i.shred.HaltedRemoving? && i.shred.lockRemoved
  }

  ghost predicate Contest(y: Daemon, p: ProfileId) {
    p in y.store.profiles && exists i, j :: Holds(y, i, p) && Waits(y, j, p)
  }

  // The profiles whose lock a run has freed under such a contest.
  ghost function Contested(y: Daemon, done: set<ProfileId>, inputs: seq<Input>): set<ProfileId>
    decreases |inputs|
  {
    if inputs == [] then done else Contested(Next(y, inputs[0]), done + ContestedBy(y, inputs[0]), inputs[1..])
  }

  ghost function ContestedBy(y: Daemon, i: Input): set<ProfileId> {
    if i.DeleteProfile? && FreesLock(i, i.id) && Contest(y, i.id) then {i.id} else {}
  }

  // ---- the invariant -----------------------------------------------------------------

  // The lock file is there, as its holder left it or zeroed by a failed deletion.
  ghost predicate Locked(y: Daemon, l: Lease) {
    && l.profile in y.store.locks
    && (y.store.locks[l.profile] == Holding(l.token)
      || (l.profile in y.damage.torn && y.store.locks[l.profile] == Torn))
  }

  // Who holds an uncontested profile holds it alone, and behind a lock file as long as
  // anybody waits for it.
  ghost predicate Excludes(y: Daemon, done: set<ProfileId>, i: SessionId, j: SessionId)
    requires i in y.sessions && j in y.sessions
  {
    var p := y.sessions[i].spec.profile;
    Holds(y, i, p) && p !in done ==>
      && !Holds(y, j, p)
      && (Waits(y, j, p) && p in y.store.profiles ==> Locked(y, Claim(y.sessions[i]).value))
  }

  // A profile whose lock a failed deletion removed cannot be read any more.
  ghost predicate FreedIsUnreadable(y: Daemon) {
    forall p | p in y.damage.freed :: p in y.profiles && ReadMeta(y.store, p).Err?
  }

  ghost predicate HostsAreWired(y: Daemon) {
    forall i | i in y.sessions && y.sessions[i].spec.host :: y.sessions[i].spec.engine in y.backends
  }

  ghost predicate ExclusionInv(y: Daemon, done: set<ProfileId>) {
    && FreedIsUnreadable(y) && HostsAreWired(y)
    && (forall i, j | i in y.sessions && j in y.sessions && i != j :: Excludes(y, done, i, j))
  }

  // ---- one step of one session ---------------------------------------------------------

  // A lock file gained by a session step, or lost to the release of the session's own lease.
  ghost predicate Acquires(y: Daemon, y': Daemon, s: Session, s': Session) {
    var p := s.spec.profile;
    && s.start.Locking? && p in y.store.profiles && p !in y.store.locks
    && Claim(s').Some? && Claim(s').value.profile == p
    && y'.store.locks == y.store.locks[p := Holding(Claim(s').value.token)]
  }

  ghost predicate Tears(y: Daemon, y': Daemon, s: Session, s': Session) {
    var p := s.spec.profile;
    && s.start.Locking? && p !in y.store.locks && Claim(s').None?
    && y'.store.locks == y.store.locks[p := Torn]
  }

  ghost predicate GivesBack(y: Daemon, y': Daemon, s: Session) {
    && LeaseOf(s).Some? && Claim(s).None?
    && var l := LeaseOf(s).value;
       && l.profile in y.store.locks && y.store.locks[l.profile] == Holding(l.token)
       && y'.store.locks == y.store.locks - {l.profile}
  }

  ghost predicate KeepsUnreadable(store: Store, store': Store) {
    store'.profiles.Keys == store.profiles.Keys
    && forall p :: ReadMeta(store, p).Err? ==> ReadMeta(store', p).Err?
  }

  // All that a step of a session, or of its gateway call, does to holding and waiting.
  ghost predicate Turned(y: Daemon, y': Daemon, sid: SessionId, s: Session, s': Session) {
    && y'.sessions == y.sessions[sid := s']
    && y'.damage == y.damage && y'.profiles == y.profiles && y'.backends == y.backends
    && KeepsUnreadable(y.store, y'.store)
    && (forall who | who != CG.OfSession(sid) ::
          (who in y'.gateway.tasks <==> who in y.gateway.tasks)
          && (who in y.gateway.tasks ==> y'.gateway.tasks[who] == y.gateway.tasks[who]))
    && s'.spec == s.spec && (s'.start.Locking? ==> s.start.Locking?)
    && (y'.store.locks == y.store.locks || Acquires(y, y', s, s') || Tears(y, y', s, s') || GivesBack(y, y', s))
    && (Hopeful(y'.gateway, sid, s') ==>
          (Hopeful(y.gateway, sid, s) && Claim(s') == Claim(s)) || Acquires(y, y', s, s'))
  }

  lemma NeverBackToLocking(s: Session, a: Action)
    requires Safe(s) && !s.start.Locking?
    ensures !Step(s, a).start.Locking?
  {
    if !a.Advance? {
      StopsLeaveTheStart(s, a);
    } else if s.start.Driving? {
      DriveHasShape(s, a.o);
    } else {
      hide DriveStep, TeardownStep;
    }
  }

  lemma BadAnswersFail(s: Session, o: Oracle)
    requires s.start.Driving? && s.start.at.StoreChecklist?
             && !RunPreflight(CONTEXT, s.start.at.probes).PermitsBrowsing()
    ensures Claim(StartStep(s, o)).None?
  {
    hide RunPreflight, TeardownStep;
  }

  lemma FailedCallFails(s: Session, o: Oracle)
    requires s.start == Driving(ConfigureGateway) || s.start == Driving(ApplyPolicy)
    requires o.fault.Some?
    ensures Claim(StartStep(s, o)).None?
  {
    hide RunPreflight, TeardownStep;
  }

  // Hope is not regained: a lost gateway call stays lost until it is answered.
  lemma LostStaysLost(g: CG.Shared, sid: SessionId, s: Session, o: CG.Outcome)
    requires Claim(s).Some? && GatewayCall(s).Some? && Belongs(g, sid, s)
    requires CG.OfSession(sid) in g.tasks && Lost(g.tasks[CG.OfSession(sid)])
    ensures var t := Turn(g, sid, GatewayCall(s).value, o);
            if t.done then t.answer.Some?
            else CG.OfSession(sid) in t.gateway.tasks && Lost(t.gateway.tasks[CG.OfSession(sid)])
  {
  }

  lemma CallingClaims(s: Session)
    requires Claim(s).Some? && GatewayCall(s).Some?
    ensures s.start == Driving(ConfigureGateway) || s.start == Driving(ApplyPolicy)
  {}

  // A waiting session that is hopeful after a turn of its gateway call was so before.
  lemma WaitingKeepsHope(y: Daemon, sid: SessionId, s: Session, a: Action, env: Environment)
    requires CG.SharedInv(y.gateway) && Belongs(y.gateway, sid, s) && Recorded(y, s)
    requires Effect(y, sid, s, a, env).1.None?
    requires a.Advance? && GatewayCall(s).Some?
    ensures Hopeful(Effect(y, sid, s, a, env).0.gateway, sid, s) ==> Hopeful(y.gateway, sid, s)
  {
    hide Turn, Belongs, CG.SharedInv, Effect, GatewayCall, Lost;
    EffectAtGateway(y, sid, s, a.o, env);
    if Claim(s).Some? && CG.OfSession(sid) in y.gateway.tasks && Lost(y.gateway.tasks[CG.OfSession(sid)]) {
      LostStaysLost(y.gateway, sid, s, env.outcome);
    }
  }

  lemma SteppingKeepsHope(y: Daemon, sid: SessionId, s: Session, a: Action, env: Environment)
    requires CG.SharedInv(y.gateway) && Belongs(y.gateway, sid, s) && Recorded(y, s) && Safe(s) && OwnInv(s)
    requires ValidStore(y.store) && Effect(y, sid, s, a, env).1.Some?
    ensures var (y', a') := Effect(y, sid, s, a, env);
            Hopeful(y'.gateway, sid, Step(s, a'.value)) && Claim(s).Some? ==> Hopeful(y.gateway, sid, s)
  {
    hide Turn, Belongs, CG.SharedInv, Effect, GatewayCall, Lost, Claim, Safe, OwnInv, StartStep, Recorded, RunPreflight;
    var (y', a') := Effect(y, sid, s, a, env);
    var s' := Step(s, a'.value);
    if Hopeful(y'.gateway, sid, s') && Claim(s).Some? {
      if !(a.Advance? && GatewayCall(s).Some?) {
        EffectElsewhere(y, sid, s, a, env);
        ElsewhereKeepsHope(y, sid, s, a, env);
      } else {
        EffectAtGateway(y, sid, s, a.o, env);
        CallingClaims(s);
        if CG.OfSession(sid) in y.gateway.tasks && Lost(y.gateway.tasks[CG.OfSession(sid)]) {
          LostStaysLost(y.gateway, sid, s, env.outcome);
          FailedCallFails(s, a'.value.o);
        }
      }
    }
  }

  lemma ElsewhereKeepsHope(y: Daemon, sid: SessionId, s: Session, a: Action, env: Environment)
    requires Belongs(y.gateway, sid, s) && ValidStore(y.store)
    requires !(a.Advance? && GatewayCall(s).Some?) && Claim(s).Some? && Effect(y, sid, s, a, env).1.Some?
    requires Hopeful(y.gateway, sid, Step(s, Effect(y, sid, s, a, env).1.value))
    ensures Hopeful(y.gateway, sid, s)
  {
    hide Turn, Effect, GatewayCall, Lost, Claim, StartStep, RunPreflight;
    EffectMovesLocks(y, sid, s, a, env);
    var a' := Effect(y, sid, s, a, env).1.value;
    if a.Advance? {
      if CG.OfSession(sid) in y.gateway.tasks {
        TaskMeansCall(y.gateway, s, y.gateway.tasks[CG.OfSession(sid)]);
      }
      if s.start.Driving? && s.start.at.StoreChecklist? && !RunPreflight(CONTEXT, s.start.at.probes).PermitsBrowsing() {
        BadAnswersFail(s, a'.o);
      }
    } else {
      StopsLeaveTheStart(s, a);
    }
  }

  lemma EffectKeepsUnreadable(y: Daemon, sid: SessionId, s: Session, a: Action, env: Environment)
    ensures KeepsUnreadable(y.store, Effect(y, sid, s, a, env).0.store)
  {
    hide Turn;
  }

  // How the locks move, in the terms above.
  lemma LocksTurn(y: Daemon, y': Daemon, s: Session, a: Action, a': Action)
    requires Safe(s) && OwnInv(s) && LockMove(y, s, a, y'.store, a')
    requires Moves(s, a', Step(s, a'))
             && (s.start.Locking? && a'.Advance? && a'.o.lock.Err? ==> Claim(Step(s, a')).None?)
    ensures var s' := Step(s, a');
            y'.store.locks == y.store.locks || Acquires(y, y', s, s') || Tears(y, y', s, s') || GivesBack(y, y', s)
    ensures var s' := Step(s, a');
            Claim(s').Some? ==> Claim(s') == Claim(s) || Acquires(y, y', s, s')
  {
    hide Step, Safe, OwnInv;
    if Releasing(s, a).Some? {
      ReleasesOwnLease(s, a);
    }
  }

  lemma RefusedLockClaimsNothing(s: Session, o: Oracle)
    requires s.start.Locking? && o.lock.Err?
    ensures Claim(StartStep(s, o)).None?
  {
    hide DriveStep, TeardownStep;
  }

  lemma LocalParts(s: Session)
    requires LocalInv(s)
    ensures Safe(s) && OwnInv(s)
  {}

  lemma ProceedTurns(y: Daemon, sid: SessionId, action: Action, env: Environment)
    requires Inv(y) && sid in y.sessions
    ensures var y' := Next(y, Proceed(sid, action, env));
            sid in y'.sessions && Turned(y, y', sid, y.sessions[sid], y'.sessions[sid])
  {
    hide Effect, Step, CG.SharedInv, Belongs, Safe, OwnInv, LocalInv, Hopeful, KeepsUnreadable, Acquires, Tears,
         GivesBack, LockMove, Moves, Claim, Apart, ClaimBacked, Recorded;
    var s := y.sessions[sid];
    assert LocalInv(s) && Recorded(y, s) && Belongs(y.gateway, sid, s);
    var (y1, a') := Effect(y, sid, s, action, env);
    EffectMovesLocks(y, sid, s, action, env);
    EffectKeepsGateway(y, sid, s, action, env);
    EffectKeepsUnreadable(y, sid, s, action, env);
    LocalParts(s);
    var y' := Next(y, Proceed(sid, action, env));
    assert y'.store == y1.store && y'.gateway == y1.gateway;
    if a'.None? {
      assert y'.sessions == y.sessions[sid := s];
      WaitingKeepsHope(y, sid, s, action, env);
    } else {
      StepMoves(s, a'.value);
      SteppingTurns(y, sid, s, action, env);
      SameLocks(y, y1, y', s, Step(s, a'.value));
      SteppingKeepsHope(y, sid, s, action, env);
      if Hopeful(y'.gateway, sid, Step(s, a'.value)) {
        HopefulClaims(y'.gateway, sid, Step(s, a'.value));
      }
    }
  }

  lemma SameLocks(y: Daemon, y1: Daemon, y': Daemon, s: Session, s': Session)
    requires y'.store == y1.store
    ensures Acquires(y, y1, s, s') == Acquires(y, y', s, s') && Tears(y, y1, s, s') == Tears(y, y', s, s')
    ensures GivesBack(y, y1, s) == GivesBack(y, y', s)
  {}

  lemma SteppingTurns(y: Daemon, sid: SessionId, s: Session, a: Action, env: Environment)
    requires ValidStore(y.store) && LocalInv(s) && Effect(y, sid, s, a, env).1.Some?
    ensures var (y', a') := Effect(y, sid, s, a, env);
            var s' := Step(s, a'.value);
            && (y'.store.locks == y.store.locks || Acquires(y, y', s, s') || Tears(y, y', s, s') || GivesBack(y, y', s))
            && (Claim(s').Some? ==> Claim(s') == Claim(s) || Acquires(y, y', s, s'))
            && (s'.start.Locking? ==> s.start.Locking?)
            && s'.spec == s.spec
  {
    hide Effect, Step, Safe, OwnInv, LocalInv, Acquires, Tears, GivesBack, Claim;
    LocalParts(s);
    var (y', a') := Effect(y, sid, s, a, env);
    EffectMovesLocks(y, sid, s, a, env);
    StepMoves(s, a'.value);
    if s.start.Locking? && a'.value.Advance? && a'.value.o.lock.Err? {
      RefusedLocks(s, a'.value.o);
    }
    LocksTurn(y, y', s, a, a'.value);
    if !s.start.Locking? {
      NeverBackToLocking(s, a'.value);
    }
  }

  lemma RefusedLocks(s: Session, o: Oracle)
    requires s.start.Locking? && o.lock.Err?
    ensures Claim(Step(s, Advance(o))).None?
  {
    hide StartStep;
    RefusedLockClaimsNothing(s, o);
  }

  // ---- exclusion is kept ------------------------------------------------------------------

  // A lock file somebody else holds stands through the step of a session.
  lemma OthersStayLocked(y: Daemon, y': Daemon, sid: SessionId, s: Session, s': Session, other: Session)
    requires Turned(y, y', sid, s, s') && Apart(s, other)
    requires Claim(other).Some? && LeaseOf(other) == Claim(other) && Locked(y, Claim(other).value)
    ensures Locked(y', Claim(other).value)
  {
    hide Hopeful, Claim, LeaseOf, KeepsUnreadable, OwnedVms, OwnedHandles;
  }

  lemma OwnStaysLocked(y: Daemon, y': Daemon, sid: SessionId, s: Session, s': Session)
    requires Turned(y, y', sid, s, s') && Claim(s).Some? && Claim(s') == Claim(s) && Locked(y, Claim(s).value)
    ensures Locked(y', Claim(s').value)
  {
    hide Hopeful, LeaseOf, KeepsUnreadable;
  }

  lemma ClaimIsLease(s: Session)
    requires Safe(s) && Claim(s).Some?
    ensures LeaseOf(s) == Claim(s)
  {}

  // Between two sessions that did not move.
  lemma OthersStayExcluded(y: Daemon, y': Daemon, done: set<ProfileId>, sid: SessionId, i: SessionId, j: SessionId)
    requires Inv(y) && sid in y.sessions && sid in y'.sessions && i in y.sessions && j in y.sessions
    requires Turned(y, y', sid, y.sessions[sid], y'.sessions[sid]) && i != sid && j != sid
    requires Excludes(y, done, i, j)
    ensures i in y'.sessions && j in y'.sessions && Excludes(y', done, i, j)
  {
    hide LocalInv, ClaimBacked, Recorded, Claim, LeaseOf, Apart, StoreInv, GatewayInv, Acquires, Tears, GivesBack,
         Locked;
    var p := y.sessions[i].spec.profile;
    if Holds(y', i, p) && p !in done && Waits(y', j, p) && p in y'.store.profiles {
      assert LocalInv(y.sessions[i]) && Apart(y.sessions[sid], y.sessions[i]);
      ClaimOfLocal(y.sessions[i]);
      OthersStayLocked(y, y', sid, y.sessions[sid], y'.sessions[sid], y.sessions[i]);
    }
  }

  lemma ClaimOfLocal(s: Session)
    requires LocalInv(s) && Claim(s).Some?
    ensures LeaseOf(s) == Claim(s)
  {
    ClaimIsLease(s);
  }

  // Between the session that moved and another.
  lemma MovedStaysExcluding(y: Daemon, y': Daemon, done: set<ProfileId>, sid: SessionId, j: SessionId)
    requires Inv(y) && sid in y.sessions && sid in y'.sessions && j in y.sessions && j != sid
    requires Turned(y, y', sid, y.sessions[sid], y'.sessions[sid])
    requires Excludes(y, done, sid, j) && Excludes(y, done, j, sid)
    ensures j in y'.sessions && Excludes(y', done, sid, j)
  {
    hide LocalInv, Recorded, Claim, LeaseOf, Apart, GatewayInv, Tears, GivesBack;
    var s, s', p := y.sessions[sid], y'.sessions[sid], y.sessions[sid].spec.profile;
    if Holds(y', sid, p) && p !in done {
      if Acquires(y, y', s, s') {
        assert ClaimBacked(y.damage, y.store, y.sessions[j]);
      } else if Waits(y', j, p) && p in y'.store.profiles {
        hide Acquires, Hopeful, Locked;
        assert Hopeful(y.gateway, sid, s) by { assert !Acquires(y, y', s, s'); }
        assert Claim(s).Some? by { HopefulClaims(y.gateway, sid, s); }
        OwnStaysLocked(y, y', sid, s, s');
      }
    }
  }

  lemma HopefulClaims(g: CG.Shared, sid: SessionId, s: Session)
    requires Hopeful(g, sid, s)
    ensures Claim(s).Some?
  {}

  lemma OtherStaysExcluding(y: Daemon, y': Daemon, done: set<ProfileId>, sid: SessionId, j: SessionId)
    requires Inv(y) && sid in y.sessions && sid in y'.sessions && j in y.sessions && j != sid
    requires Turned(y, y', sid, y.sessions[sid], y'.sessions[sid])
    requires Excludes(y, done, sid, j) && Excludes(y, done, j, sid)
    ensures j in y'.sessions && Excludes(y', done, j, sid)
  {
    hide LocalInv, Recorded, Claim, LeaseOf, Apart, GatewayInv, Tears, GivesBack;
    var s, s', p := y.sessions[sid], y'.sessions[sid], y.sessions[j].spec.profile;
    if Holds(y', j, p) && p !in done {
      assert Holds(y, j, p);
      if Acquires(y, y', s, s') {
        assert ClaimBacked(y.damage, y.store, y.sessions[j]);
      }
      if Waits(y', sid, p) && p in y'.store.profiles {
        hide Acquires, Locked;
        assert LocalInv(y.sessions[j]) && Apart(s, y.sessions[j]);
        ClaimOfLocal(y.sessions[j]);
        OthersStayLocked(y, y', sid, s, s', y.sessions[j]);
      }
    }
  }

  lemma ProceedKeepsExclusion(y: Daemon, done: set<ProfileId>, sid: SessionId, action: Action, env: Environment)
    requires Inv(y) && ExclusionInv(y, done) && sid in y.sessions
    ensures ExclusionInv(Next(y, Proceed(sid, action, env)), done)
  {
    hide Next, Excludes, Hopeful, Inv, Acquires, Tears, GivesBack;
    var y' := Next(y, Proceed(sid, action, env));
    ProceedTurns(y, sid, action, env);
    forall i, j | i in y'.sessions && j in y'.sessions && i != j
      ensures Excludes(y', done, i, j)
    {
      if i == sid {
        MovedStaysExcluding(y, y', done, sid, j);
      } else if j == sid {
        OtherStaysExcluding(y, y', done, sid, i);
      } else {
        OthersStayExcluded(y, y', done, sid, i, j);
      }
    }
  }

  // A start begins only where the metadata can be read, and so where the lock of whoever
  // holds the profile stands.
  lemma BegunIsExcluded(y: Daemon, done: set<ProfileId>, sid: SessionId, spec: Spec, i: SessionId)
    requires Inv(y) && ExclusionInv(y, done) && sid !in y.sessions && ReadMeta(y.store, spec.profile).Ok?
    requires i in y.sessions
    ensures var y' := y.(sessions := y.sessions[sid := NewSession(spec, y.backends)]);
            Excludes(y', done, i, sid) && Excludes(y', done, sid, i)
  {
    hide LocalInv, Recorded, Claim, Apart, GatewayInv;
    assert ClaimBacked(y.damage, y.store, y.sessions[i]);
    NewClaimsNothing(spec, y.backends);
  }

  lemma NewClaimsNothing(spec: Spec, backends: set<Engine>)
    ensures Claim(NewSession(spec, backends)).None?
  {}

  lemma BeginKeepsExclusion(y: Daemon, done: set<ProfileId>, sid: SessionId, spec: Spec, hostAllowed: bool)
    requires Inv(y) && ExclusionInv(y, done) && sid !in y.sessions
    ensures ExclusionInv(Next(y, BeginStart(sid, spec, hostAllowed)), done)
  {
    hide Inv, Excludes;
    var y' := Next(y, BeginStart(sid, spec, hostAllowed));
    if y' != y {
      forall i, j | i in y'.sessions && j in y'.sessions && i != j
        ensures Excludes(y', done, i, j)
      {
        if i == sid {
          BegunIsExcluded(y, done, sid, spec, j);
        } else if j == sid {
          BegunIsExcluded(y, done, sid, spec, i);
        } else {
          UnmovedStaysExcluded(y, y', done, i, j);
        }
      }
    }
  }

  lemma UnmovedStaysExcluded(y: Daemon, y': Daemon, done: set<ProfileId>, i: SessionId, j: SessionId)
    requires i in y.sessions && j in y.sessions && i in y'.sessions && j in y'.sessions
    requires y'.sessions[i] == y.sessions[i] && y'.sessions[j] == y.sessions[j]
    requires y'.gateway == y.gateway && y'.store == y.store && y'.damage == y.damage
    requires Excludes(y, done, i, j)
    ensures Excludes(y', done, i, j)
  {}

  lemma GatewayKeepsExclusion(y: Daemon, done: set<ProfileId>, move: CG.Move)
    requires ExclusionInv(y, done) && move.who.Other?
    ensures ExclusionInv(y.(gateway := CG.MoveOn(y.gateway, move)), done)
  {
    hide Claim, CG.TaskStep, CG.Begin;
    var y' := y.(gateway := CG.MoveOn(y.gateway, move));
    forall sid ensures (CG.OfSession(sid) in y'.gateway.tasks <==> CG.OfSession(sid) in y.gateway.tasks)
      ensures CG.OfSession(sid) in y.gateway.tasks ==>
                y'.gateway.tasks[CG.OfSession(sid)] == y.gateway.tasks[CG.OfSession(sid)]
    {
    }
    forall i, j | i in y.sessions && j in y.sessions && i != j ensures Excludes(y', done, i, j) {
      assert Excludes(y, done, i, j);
    }
  }

  // Creation and renaming leave locks and directories as they are where anybody is.
  lemma MetadataKeepsExclusion(y: Daemon, done: set<ProfileId>, i: Input)
    requires Inv(y) && Admissible(y, i) && ExclusionInv(y, done) && (i.CreateProfile? || i.RenameProfile?)
    ensures ExclusionInv(Next(y, i), done)
  {
    hide LocalInv, ClaimBacked, Claim, Apart, GatewayInv, Hopeful;
    var y' := Next(y, i);
    forall j, k | j in y.sessions && k in y.sessions && j != k ensures Excludes(y', done, j, k) {
      assert Excludes(y, done, j, k) && Recorded(y, y.sessions[j]);
    }
  }

  // A deletion that takes the lock file away takes the directory with it, or is contested,
  // or nobody waits.
  lemma DeletionKeepsExcluding(y: Daemon, done: set<ProfileId>, p: ProfileId, shred: Shred, i: SessionId, j: SessionId)
    requires Inv(y) && i in y.sessions && j in y.sessions && Excludes(y, done, i, j)
    ensures var input := DeleteProfile(p, shred);
            var y' := Next(y, input);
            i in y'.sessions && j in y'.sessions && Excludes(y', done + ContestedBy(y, input), i, j)
  {
    hide LocalInv, Recorded, Claim, Apart, GatewayInv, Hopeful, LockStands;
    var input := DeleteProfile(p, shred);
    var y', q := Next(y, input), y.sessions[i].spec.profile;
    if Holds(y', i, q) && q !in done + ContestedBy(y, input) {
      assert Holds(y, i, q);
      assert Holds(y', j, q) ==> Holds(y, j, q);
      if Waits(y', j, q) && q in y'.store.profiles {
        assert Waits(y, j, q) && q in y.store.profiles;
        HopefulClaims(y.gateway, i, y.sessions[i]);
        assert ClaimBacked(y.damage, y.store, y.sessions[i]);
        hide Holds, Waits;
        DeletionKeepsLocked(y, p, shred, i, j);
      }
    }
  }

  lemma DeletionKeepsLocked(y: Daemon, p: ProfileId, shred: Shred, i: SessionId, j: SessionId)
    requires i in y.sessions && Claim(y.sessions[i]).Some? && ClaimBacked(y.damage, y.store, y.sessions[i])
    requires Locked(y, Claim(y.sessions[i]).value)
    requires var q := y.sessions[i].spec.profile;
             && Holds(y, i, q) && Waits(y, j, q) && q in Next(y, DeleteProfile(p, shred)).store.profiles
             && q !in ContestedBy(y, DeleteProfile(p, shred))
    ensures Locked(Next(y, DeleteProfile(p, shred)), Claim(y.sessions[i]).value)
  {
    hide Holds, Waits, Claim;
  }

  lemma DeletionKeepsFreedUnreadable(y: Daemon, p: ProfileId, shred: Shred)
    requires StoreInv(y) && FreedIsUnreadable(y)
    ensures FreedIsUnreadable(Next(y, DeleteProfile(p, shred)))
  {}

  lemma DeletionKeepsExclusion(y: Daemon, done: set<ProfileId>, p: ProfileId, shred: Shred)
    requires Inv(y) && ExclusionInv(y, done)
    ensures var input := DeleteProfile(p, shred); ExclusionInv(Next(y, input), done + ContestedBy(y, input))
  {
    var input := DeleteProfile(p, shred);
    var y' := Next(y, input);
    DeletionKeepsFreedUnreadable(y, p, shred);
    hide Inv, FreedIsUnreadable, Excludes, ContestedBy, Delete, Damaging;
    forall i, j | i in y.sessions && j in y.sessions && i != j
      ensures Excludes(y', done + ContestedBy(y, input), i, j)
    {
      DeletionKeepsExcluding(y, done, p, shred, i, j);
    }
  }

  lemma InputKeepsExclusion(y: Daemon, done: set<ProfileId>, i: Input)
    requires Inv(y) && Admissible(y, i) && ExclusionInv(y, done)
    ensures ExclusionInv(Next(y, i), done + ContestedBy(y, i))
  {
    hide Inv, Next, ExclusionInv;
    assert !i.DeleteProfile? ==> done + ContestedBy(y, i) == done;
    match i {
      case Proceed(sid, action, env) =>
        if sid in y.sessions {
          ProceedKeepsExclusion(y, done, sid, action, env);
        } else {
          UnknownProceed(y, i);
        }
      case BeginStart(sid, spec, hostAllowed) => BeginKeepsExclusion(y, done, sid, spec, hostAllowed);
      case DeleteProfile(p, shred) => DeletionKeepsExclusion(y, done, p, shred);
      case MoveGateway(move) =>
        GatewayKeepsExclusion(y, done, move);
        GatewayInput(y, move);
      case _ => MetadataKeepsExclusion(y, done, i);
    }
  }

  lemma UnknownProceed(y: Daemon, i: Input)
    requires i.Proceed? && i.sid !in y.sessions
    ensures Next(y, i) == y
  {}

  lemma GatewayInput(y: Daemon, move: CG.Move)
    ensures Next(y, MoveGateway(move)) == y.(gateway := CG.MoveOn(y.gateway, move))
  {}

  lemma {:induction false} RunKeepsExclusion(y: Daemon, done: set<ProfileId>, inputs: seq<Input>)
    requires Inv(y) && AllAdmissible(y, inputs) && ExclusionInv(y, done)
    ensures Inv(After(y, inputs)) && ExclusionInv(After(y, inputs), Contested(y, done, inputs))
    decreases |inputs|
  {
    hide Inv, ExclusionInv, Next, ContestedBy, Admissible;
    if inputs != [] {
      NextKeepsInv(y, inputs[0]);
      InputKeepsExclusion(y, done, inputs[0]);
      RunKeepsExclusion(Next(y, inputs[0]), done + ContestedBy(y, inputs[0]), inputs[1..]);
    }
  }

  // ---- the main results ----------------------------------------------------------------------

  lemma BrowsingHolds(y: Daemon, i: SessionId)
    requires Inv(y) && i in y.sessions && IsBrowsing(y.sessions[i])
    ensures Holds(y, i, y.sessions[i].spec.profile)
  {
    hide Apart, ClaimBacked, Recorded, StoreInv;
    var s := y.sessions[i];
    assert LocalInv(s) && Belongs(y.gateway, i, s);
    BrowsingIsBackedByItsLock(y, i);
    BrowsingHasStarted(s);
  }

  lemma BrowsingHasStarted(s: Session)
    requires Safe(s) && IsBrowsing(s)
    ensures s.start == Done(None) || s.start == Driving(RecordLaunch)
  {}

  // At most one session per profile is ever Browsing, overlapping stops and profile
  // deletions included, unless the profile's lock was freed under a contest; and a
  // browsing session's own token is in its lock file unless the profile directory is gone
  // or a failed deletion has zeroed or removed the file.
  lemma SingleBrowser(backends: set<Engine>, inputs: seq<Input>, i: SessionId, j: SessionId)
    requires AllAdmissible(Boot(backends), inputs)
    requires var y := After(Boot(backends), inputs);
             i in y.sessions && j in y.sessions && IsBrowsing(y.sessions[i]) && IsBrowsing(y.sessions[j])
    ensures var y := After(Boot(backends), inputs);
            && (y.sessions[i].spec.profile == y.sessions[j].spec.profile ==>
                  i == j || y.sessions[i].spec.profile in Contested(Boot(backends), {}, inputs))
            && y.sessions[i].entry.value.lease.profile == y.sessions[i].spec.profile
            && LockStands(y.damage, y.store, y.sessions[i].entry.value.lease)
  {
    hide Inv, Contested, LockStands;
    var y := After(Boot(backends), inputs);
    InvAtBoot(backends);
    RunKeepsExclusion(Boot(backends), {}, inputs);
    BrowsingIsBackedByItsLock(y, i);
    BrowsingHolds(y, i);
    BrowsingHolds(y, j);
    if i != j {
      assert Excludes(y, Contested(Boot(backends), {}, inputs), i, j);
    }
  }

  lemma InvAtBoot(backends: set<Engine>)
    ensures Inv(Boot(backends)) && ExclusionInv(Boot(backends), {})
  {
    hide LocalInv, Recorded, ClaimBacked, Apart;
    ReachableIsInv(backends, []);
  }

  // What a contested profile is: one deletion of it halted, having removed the lock file,
  // when somebody held the profile and somebody waited for it.
  lemma {:induction false} ContestedIff(y: Daemon, done: set<ProfileId>, inputs: seq<Input>, p: ProfileId)
    ensures p in Contested(y, done, inputs)
       <==> p in done || exists k: nat :: k < |inputs| && FreesLock(inputs[k], p) && Contest(After(y, inputs[..k]), p)
    decreases |inputs|
  {
    hide Next, Contest;
    if inputs != [] {
      var y', rest := Next(y, inputs[0]), inputs[1..];
      ContestedIff(y', done + ContestedBy(y, inputs[0]), rest, p);
      assert After(y, inputs[..0]) == y;
      forall k: nat | k < |rest|
        ensures rest[k] == inputs[k + 1] && After(y', rest[..k]) == After(y, inputs[..k + 1])
      {
        assert inputs[..k + 1][1..] == rest[..k];
      }
      if k: nat :| k < |rest| && FreesLock(rest[k], p) && Contest(After(y', rest[..k]), p) {
        assert FreesLock(inputs[k + 1], p);
      }
      if k: nat :| k < |inputs| && FreesLock(inputs[k], p) && Contest(After(y, inputs[..k]), p) {
        if k > 0 {
          assert FreesLock(rest[k - 1], p) && inputs[k] == rest[k - 1];
          assert After(y', rest[..k - 1]) == After(y, inputs[..k]);
        }
      }
    }
  }
}
