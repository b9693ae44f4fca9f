// The daemon at work: any number of sessions over one profile store and one gateway,
// their calls interleaved step by step with profile creation, renaming and deletion.
module SessionSystem {
  import opened Errors
  import opened Preflight
  import opened SessionState
  import opened Gateway
  import opened ProfileStore
  import opened SessionMachine
  import opened SessionSafety
  import opened SessionCleanup
  import opened SessionOrder
  import opened SessionOwnership
  import opened SessionGateway
  import CG = ConcurrentGateway

  type SessionId = nat

  // Profiles whose deletion failed after it had zeroed, or removed, their lock file.
  datatype Damage = Damage(torn: set<ProfileId>, freed: set<ProfileId>)

  function Damaging(d: Damage, store: Store, id: ProfileId, shred: Shred): Damage {
    if id !in store.profiles || shred.Shredded? then d
    else
      Damage(d.torn + (if shred.HaltedRemoving? || shred.lockZeroed then {id} else {}),
             d.freed + (if shred.HaltedRemoving? && shred.lockRemoved then {id} else {}))
  }

  // The fields from `profiles` on remember every id ever handed out and the damage done
  // by failed deletions.
  datatype Daemon = Daemon(
    backends: set<Engine>,
    store: Store,
    gateway: CG.Shared,
    sessions: map<SessionId, Session>,
    profiles: set<ProfileId>,
    tokens: set<Token>,
    vms: set<VmId>,
    handles: set<HandleId>,
    damage: Damage)

  function Boot(backends: set<Engine>): Daemon {
    Daemon(backends, Store(map[], map[]), CG.NEW, map[], {}, {}, {}, {}, Damage({}, {}))
  }

  // What the machine around one step answers: the outcome of the file operations and of
  // its gateway task's next command, the token drawn, and the clock.
  datatype Environment = Environment(lock: LockFault, token: Token, outcome: CG.Outcome, now: nat)

  datatype Input =
    | CreateProfile(id: ProfileId, meta: Metadata)
    | RenameProfile(id: ProfileId, name: string)
    | DeleteProfile(id: ProfileId, shred: Shred)
    | BeginStart(sid: SessionId, spec: Spec, hostAllowed: bool)
    | Proceed(sid: SessionId, action: Action, env: Environment)
    | MoveGateway(move: CG.Move)    // a step of somebody else's gateway call

  // The shared effect of one session step, and the answer the session gets for it; None
  // while its gateway call has not returned and the session waits.
  function Effect(y: Daemon, sid: SessionId, s: Session, a: Action, env: Environment): (Daemon, Option<Action>) {
    if Releasing(s, a).Some? then
      (y.(store := ReleaseLock(y.store, Releasing(s, a).value, env.lock).0), Some(a))
    else if !a.Advance? then (y, Some(a))
    else if GatewayCall(s).Some? then
      var t := Turn(y.gateway, sid, GatewayCall(s).value, env.outcome);
      (y.(gateway := t.gateway), if t.done then Some(Advance(a.o.(fault := t.answer))) else None)
    else
      match s.start
      case Locking =>
        var (store, r) := AcquireLock(y.store, s.spec.profile, env.token, env.lock);
        (y.(store := store), Some(Advance(a.o.(lock := r))))
      case Driving(at) =>
        (if at.RecordLaunch? then y.(store := TouchLaunch(y.store, s.spec.profile, env.now).0) else y, Some(a))
      case _ => (y, Some(a))
  }

  // Requests the daemon refuses, and steps of unknown sessions, change nothing.
  ghost function Next(y: Daemon, i: Input): Daemon {
    match i
    case CreateProfile(id, meta) =>
      y.(store := WriteMeta(y.store, id, meta), profiles := y.profiles + {id})
    case RenameProfile(id, name) => y.(store := Rename(y.store, id, name).0)
    case DeleteProfile(id, shred) =>
      y.(store := Delete(y.store, id, shred).0, damage := Damaging(y.damage, y.store, id, shred))
    case BeginStart(sid, spec, hostAllowed) =>
      if ReadMeta(y.store, spec.profile).Err? then y
      else if spec.host && (!hostAllowed || spec.engine !in y.backends) then y
      else y.(sessions := y.sessions[sid := NewSession(spec, y.backends)])
    case Proceed(sid, action, env) =>
      if sid !in y.sessions then y
      else
        var (y', action') := Effect(y, sid, y.sessions[sid], action, env);
        y'.(sessions := if action'.None? then y.sessions
                        else y.sessions[sid := Step(y.sessions[sid], action'.value)],
            tokens := y.tokens + {env.token},
            vms := y.vms + (if action.Advance? then {action.o.vm} else {}),
            handles := y.handles + (if action.Advance? then {action.o.handle} else {}))
    case MoveGateway(move) => y.(gateway := CG.MoveOn(y.gateway, move))
  }

  // Identifiers are drawn fresh.
  ghost predicate Admissible(y: Daemon, i: Input) {
    match i
    case CreateProfile(id, _) => id !in y.profiles
    case BeginStart(sid, _, _) => sid !in y.sessions
    case Proceed(sid, action, env) =>
      && env.token !in y.tokens
      && (action.Advance? ==> action.o.vm !in y.vms && action.o.handle !in y.handles)
    case MoveGateway(move) => move.who.Other?
    case _ => true
  }

  ghost function After(y: Daemon, inputs: seq<Input>): Daemon
    decreases |inputs|
  {
    if inputs == [] then y else After(Next(y, inputs[0]), inputs[1..])
  }

  ghost predicate AllAdmissible(y: Daemon, inputs: seq<Input>)
    decreases |inputs|
  {
    inputs != [] ==> Admissible(y, inputs[0]) && AllAdmissible(Next(y, inputs[0]), inputs[1..])
  }

  // ---- the invariant --------------------------------------------------------------

  ghost predicate LocalInv(s: Session) {
    Safe(s) && EvidenceInv(s) && AccountInv(s) && OrderInv(s) && OnceInv(s) && OwnInv(s)
  }

  // The lock file of a lease as its holder left it, or as a failed deletion did.
  ghost predicate LockStands(d: Damage, store: Store, l: Lease) {
    l.profile in store.profiles && l.profile !in d.freed ==>
      && l.profile in store.locks
      && (store.locks[l.profile] == Holding(l.token) || (l.profile in d.torn && store.locks[l.profile] == Torn))
  }

  // A claimed profile is locked with the claimant's own token, unless its deletion was
  // at least tried.
  ghost predicate ClaimBacked(d: Damage, store: Store, s: Session) {
    var c := Claim(s);
    c.Some? ==> c.value.profile == s.spec.profile && LockStands(d, store, c.value)
  }

  ghost predicate Apart(s: Session, s': Session) {
    && (LeaseOf(s).Some? && LeaseOf(s').Some? ==> LeaseOf(s).value.token != LeaseOf(s').value.token)
    && OwnedVms(s) !! OwnedVms(s')
    && OwnedHandles(s) !! OwnedHandles(s')
  }

  ghost predicate Recorded(y: Daemon, s: Session) {
    && s.backends == y.backends
    && s.spec.profile in y.profiles
    && (LeaseOf(s).Some? ==> LeaseOf(s).value.token in y.tokens)
    && OwnedVms(s) <= y.vms && OwnedHandles(s) <= y.handles
    && (s.start == Driving(ApplyPolicy) ==> y.gateway.controller.config.Some?)
  }

  ghost predicate StoreInv(y: Daemon) {
    && ValidStore(y.store)
    && y.store.profiles.Keys <= y.profiles
    && (forall p | p in y.store.locks && y.store.locks[p].Holding? :: y.store.locks[p].token in y.tokens)
  }

  // Every task a session has at the gateway is the one its start is waiting for.
  ghost predicate GatewayInv(y: Daemon) {
    && CG.SharedInv(y.gateway)
    && (forall sid | CG.OfSession(sid) in y.gateway.tasks :: sid in y.sessions)
    && (forall sid | sid in y.sessions :: Belongs(y.gateway, sid, y.sessions[sid]))
  }

  ghost predicate Inv(y: Daemon) {
    && StoreInv(y)
    && GatewayInv(y)
    && (forall sid | sid in y.sessions :: LocalInv(y.sessions[sid]))
    && (forall sid | sid in y.sessions :: Recorded(y, y.sessions[sid]))
    && (forall sid | sid in y.sessions :: ClaimBacked(y.damage, y.store, y.sessions[sid]))
    && (forall i, j | i in y.sessions && j in y.sessions && i != j :: Apart(y.sessions[i], y.sessions[j]))
  }

  lemma LocalInvInitially(spec: Spec, backends: set<Engine>)
    ensures LocalInv(NewSession(spec, backends))
  {
    hide ControlInv, DataInv;
    SafeInitially(spec, backends);
  }

  lemma StepKeepsLocalInv(s: Session, a: Action)
    requires LocalInv(s) && Plausible(s, a)
    ensures LocalInv(Step(s, a))
  {
    StepIsSafe(s, a);
    StepKeepsEvidence(s, a);
    StepKeepsAccounts(s, a);
    StepKeepsOrder(s, a);
    StepKeepsOnce(s, a);
    StepKeepsOwn(s, a);
  }

  // ---- one step of one session -----------------------------------------------------

  // What a session step may do to the locks: take the free lock of its own profile,
  // or give back a lock that holds its own token.
  ghost predicate LockMove(y: Daemon, s: Session, a: Action, store: Store, a': Action) {
    && (a.Advance? <==> a'.Advance?)
    && (a.Advance? ==> a'.o.vm == a.o.vm && a'.o.handle == a.o.handle)
    && (!a.Advance? ==> a' == a)
    && ValidStore(store) && store.profiles.Keys == y.store.profiles.Keys
    && (store.locks == y.store.locks
        || (a.Advance? && s.start.Locking? && s.spec.profile in y.store.profiles && s.spec.profile !in y.store.locks
            && (a'.o.lock.Err? ==> store.locks == y.store.locks[s.spec.profile := Torn])
            && (a'.o.lock.Ok? ==>
                  store.locks == y.store.locks[s.spec.profile := Holding(a'.o.lock.value.token)]))
        || (Releasing(s, a).Some?
            && var l := Releasing(s, a).value;
               l.profile in y.store.locks && y.store.locks[l.profile] == Holding(l.token)
               && store.locks == y.store.locks - {l.profile}))
    && (a.Advance? && s.start.Locking? && a'.o.lock.Ok? ==>
          && a'.o.lock.value.profile == s.spec.profile
          && s.spec.profile in y.store.profiles && s.spec.profile !in y.store.locks
          && s.spec.profile in store.locks && store.locks[s.spec.profile] == Holding(a'.o.lock.value.token))
  }

  lemma EffectMovesLocks(y: Daemon, sid: SessionId, s: Session, a: Action, env: Environment)
    requires ValidStore(y.store)
    ensures var (y', a') := Effect(y, sid, s, a, env);
            && y' == y.(store := y'.store, gateway := y'.gateway)
            && (a'.None? ==> y'.store == y.store && a.Advance? && GatewayCall(s).Some?)
            && (a'.Some? ==>
                  && LockMove(y, s, a, y'.store, a'.value)
                  && (s.start.Locking? && a'.value.Advance? && a'.value.o.lock.Ok? ==>
                      a'.value.o.lock.value.token == env.token))
  {
    hide Turn;
  }

  lemma EffectAtGateway(y: Daemon, sid: SessionId, s: Session, o: Oracle, env: Environment)
    requires GatewayCall(s).Some?
    ensures var t := Turn(y.gateway, sid, GatewayCall(s).value, env.outcome);
            Effect(y, sid, s, Advance(o), env)
            == (y.(gateway := t.gateway), if t.done then Some(Advance(o.(fault := t.answer))) else None)
  {
    hide Turn;
  }

  lemma EffectElsewhere(y: Daemon, sid: SessionId, s: Session, a: Action, env: Environment)
    requires !(a.Advance? && GatewayCall(s).Some?)
    ensures Effect(y, sid, s, a, env).0.gateway == y.gateway && Effect(y, sid, s, a, env).1.Some?
  {
    hide Turn;
  }

  // What one step does to the gateway: only the session's own task moves.
  lemma EffectKeepsGateway(y: Daemon, sid: SessionId, s: Session, a: Action, env: Environment)
    requires CG.SharedInv(y.gateway) && Belongs(y.gateway, sid, s) && Recorded(y, s)
    ensures var (y', a') := Effect(y, sid, s, a, env);
            && CG.SharedInv(y'.gateway) && CG.Grows(y.gateway.controller, y'.gateway.controller)
            && (forall who | who != CG.OfSession(sid) ::
                  (who in y'.gateway.tasks <==> who in y.gateway.tasks)
                  && (who in y.gateway.tasks ==> y'.gateway.tasks[who] == y.gateway.tasks[who]))
            && (a'.None? ==> Belongs(y'.gateway, sid, s))
            && (a'.Some? && !(a.Advance? && GatewayCall(s).Some?) ==> y'.gateway == y.gateway)
            && (a'.Some? && a.Advance? && GatewayCall(s).Some? ==>
                  && CG.OfSession(sid) !in y'.gateway.tasks && a'.value.Advance?
                  && (s.start == Driving(ConfigureGateway) && a'.value.o.fault.None? ==>
                      y'.gateway.controller.config.Some?))
  {
    hide Turn, Belongs, CG.SharedInv, Effect, GatewayCall;
    if a.Advance? && GatewayCall(s).Some? {
      EffectAtGateway(y, sid, s, a.o, env);
      TurnKeeps(y.gateway, sid, s, env.outcome);
    } else {
      EffectElsewhere(y, sid, s, a, env);
    }
  }

  // A call or step of a stop leaves the start call where it is.
  lemma StopsLeaveTheStart(s: Session, a: Action)
    requires !a.Advance?
    ensures Step(s, a).start == s.start && Step(s, a).spec == s.spec
  {
    hide TeardownStep;
    if a.AdvanceStop? && StopInFlight(s, a.id) && s.stops[a.id].Stopping? {
      TeardownRow(s, ByStop(a.id), s.stops[a.id].td);
    }
  }

  lemma SteppingBelongs(y: Daemon, sid: SessionId, s: Session, a: Action, env: Environment)
    requires CG.SharedInv(y.gateway) && Belongs(y.gateway, sid, s) && Recorded(y, s)
    requires Effect(y, sid, s, a, env).1.Some?
    ensures var (y', a') := Effect(y, sid, s, a, env); Belongs(y'.gateway, sid, Step(s, a'.value))
  {
    hide Turn, CG.SharedInv, Step, TaskFits;
    EffectKeepsGateway(y, sid, s, a, env);
    var (y', a') := Effect(y, sid, s, a, env);
    if CG.OfSession(sid) in y'.gateway.tasks {
      TaskMeansCall(y.gateway, s, y.gateway.tasks[CG.OfSession(sid)]);
      assert !a.Advance? && a'.value == a;
      StopsLeaveTheStart(s, a);
      StillBelongs(y.gateway, y'.gateway, sid, s, Step(s, a));
    }
  }

  // The stepping session stays backed by the lock.
  lemma SteppingStaysBacked(y: Daemon, s: Session, a: Action, store: Store, a': Action)
    requires LocalInv(s) && LocalInv(Step(s, a')) && Moves(s, a', Step(s, a'))
    requires ClaimBacked(y.damage, y.store, s) && LockMove(y, s, a, store, a')
    ensures ClaimBacked(y.damage, store, Step(s, a'))
  {
    if Releasing(s, a).Some? {
      ReleasesOwnLease(s, a);
    }
  }

  // So does every other session: a release only frees the releaser's own token, and a
  // lock is only taken where nobody else can be relying on it.
  lemma OthersStayBacked(y: Daemon, s: Session, a: Action, store: Store, a': Action, other: Session)
    requires LocalInv(s) && LocalInv(other) && Apart(s, other)
    requires ClaimBacked(y.damage, y.store, other) && LockMove(y, s, a, store, a')
    ensures ClaimBacked(y.damage, store, other)
  {
    if Releasing(s, a).Some? {
      ReleasesOwnLease(s, a);
    }
  }

  lemma StaysApart(y: Daemon, s: Session, a: Action, store: Store, a': Action, other: Session)
    requires LocalInv(s) && LocalInv(other) && Apart(s, other) && Recorded(y, other)
    requires Moves(s, a', Step(s, a')) && LockMove(y, s, a, store, a')
    requires ClaimBacked(y.damage, y.store, other)
    requires a.Advance? ==> a.o.vm !in y.vms && a.o.handle !in y.handles
    requires s.start.Locking? && a'.Advance? && a'.o.lock.Ok? ==> a'.o.lock.value.token !in y.tokens
    ensures Apart(Step(s, a'), other) && Apart(other, Step(s, a'))
  {
  }

  lemma RecordedGrows(y: Daemon, y': Daemon, s: Session)
    requires Recorded(y, s) && y'.backends == y.backends
    requires y.profiles <= y'.profiles && y.tokens <= y'.tokens && y.vms <= y'.vms && y.handles <= y'.handles
    requires y.gateway.controller.config.Some? ==> y'.gateway.controller.config.Some?
    ensures Recorded(y', s)
  {
  }

  // The invariant after one row of the session map has changed.
  lemma InvAfterUpdate(y: Daemon, y': Daemon, sid: SessionId, s': Session)
    requires Inv(y) && y'.sessions == y.sessions[sid := s'] && y'.backends == y.backends
    requires y.profiles <= y'.profiles && y.tokens <= y'.tokens && y.vms <= y'.vms && y.handles <= y'.handles
    requires y.gateway.controller.config.Some? ==> y'.gateway.controller.config.Some?
    requires y'.damage == y.damage
    requires StoreInv(y') && GatewayInv(y')
    requires LocalInv(s') && Recorded(y', s') && ClaimBacked(y'.damage, y'.store, s')
    requires forall j | j in y.sessions && j != sid ::
               ClaimBacked(y'.damage, y'.store, y.sessions[j]) && Apart(s', y.sessions[j]) && Apart(y.sessions[j], s')
    ensures Inv(y')
  {
    hide LocalInv, Recorded, ClaimBacked, Apart, StoreInv, GatewayInv;
    forall j | j in y'.sessions
      ensures LocalInv(y'.sessions[j]) && Recorded(y', y'.sessions[j])
              && ClaimBacked(y'.damage, y'.store, y'.sessions[j])
    {
      if j != sid {
        assert LocalInv(y.sessions[j]) && Recorded(y, y.sessions[j]);
        RecordedGrows(y, y', y.sessions[j]);
      }
    }
    forall i, j | i in y'.sessions && j in y'.sessions && i != j ensures Apart(y'.sessions[i], y'.sessions[j]) {
      if i != sid && j != sid {
        assert Apart(y.sessions[i], y.sessions[j]);
      }
    }
  }

  // A drive comes to applying its firewall only from a configure that succeeded.
  lemma ReachesApplyConfigured(s: Session, a: Action)
    requires Safe(s)
    ensures Step(s, a).start == Driving(ApplyPolicy) ==>
              (s.start == Driving(ApplyPolicy) && !a.Advance?)
              || (s.start == Driving(ConfigureGateway) && a.Advance? && a.o.fault.None?)
  {
    match a {
      case Advance(o) =>
        if s.start.TearingDown? {
          TeardownRow(s, ByStart, s.start.td);
        } else if s.start.Driving? {
          DriveHasShape(s, o);
        }
      case AdvanceStop(id) =>
        if StopInFlight(s, id) && s.stops[id].Stopping? {
          TeardownRow(s, ByStop(id), s.stops[id].td);
        }
      case Call(_) =>
    }
  }

  lemma StoreInvAfter(y: Daemon, y': Daemon, s: Session, a: Action, a': Action, drawn: Token)
    requires StoreInv(y) && LockMove(y, s, a, y'.store, a')
    requires y'.profiles == y.profiles && y'.tokens == y.tokens + {drawn}
    requires s.start.Locking? && a'.Advance? && a'.o.lock.Ok? ==> a'.o.lock.value.token == drawn
    ensures StoreInv(y')
  {
  }

  lemma RecordedAfter(y: Daemon, y': Daemon, s: Session, a: Action, s': Session)
    requires Recorded(y, s) && Moves(s, a, s') && s'.backends == s.backends && y'.backends == y.backends
    requires y'.profiles == y.profiles && y.tokens <= y'.tokens && y.vms <= y'.vms && y.handles <= y'.handles
    requires a.Advance? ==> a.o.vm in y'.vms && a.o.handle in y'.handles
    requires s.start.Locking? && a.Advance? && a.o.lock.Ok? ==> a.o.lock.value.token in y'.tokens
    requires s'.start == Driving(ApplyPolicy) ==> y'.gateway.controller.config.Some?
    ensures Recorded(y', s')
  {
  }

  // The gateway's part of the invariant after a session has stepped or waited.
  lemma GatewayInvAfter(y: Daemon, y': Daemon, sid: SessionId, s': Session)
    requires GatewayInv(y) && sid in y.sessions && y'.sessions == y.sessions[sid := s']
    requires CG.SharedInv(y'.gateway) && CG.Grows(y.gateway.controller, y'.gateway.controller)
    requires forall who | who != CG.OfSession(sid) ::
               (who in y'.gateway.tasks <==> who in y.gateway.tasks)
               && (who in y.gateway.tasks ==> y'.gateway.tasks[who] == y.gateway.tasks[who])
    requires Belongs(y'.gateway, sid, s')
    ensures GatewayInv(y')
  {
    hide Belongs, CG.SharedInv, CG.Grows;
    forall j | j in y'.sessions ensures Belongs(y'.gateway, j, y'.sessions[j]) {
      if j != sid {
        assert Belongs(y.gateway, j, y.sessions[j]);
        StillBelongs(y.gateway, y'.gateway, j, y.sessions[j], y.sessions[j]);
      }
    }
  }

  // A session that waits for the gateway stays as it is.
  lemma WaitingKeepsInv(y: Daemon, sid: SessionId, action: Action, env: Environment)
    requires Inv(y) && sid in y.sessions && Effect(y, sid, y.sessions[sid], action, env).1.None?
    ensures Inv(Next(y, Proceed(sid, action, env)))
  {
    hide LocalInv, ClaimBacked, Apart, Effect, CG.SharedInv, Belongs;
    var s := y.sessions[sid];
    assert LocalInv(s) && Recorded(y, s) && ClaimBacked(y.damage, y.store, s) && Belongs(y.gateway, sid, s);
    var y' := Next(y, Proceed(sid, action, env));
    EffectMovesLocks(y, sid, s, action, env);
    EffectKeepsGateway(y, sid, s, action, env);
    assert y'.sessions == y.sessions[sid := s];
    GatewayInvAfter(y, y', sid, s);
    RecordedGrows(y, y', s);
    forall j | j in y.sessions && j != sid
      ensures ClaimBacked(y'.damage, y'.store, y.sessions[j]) && Apart(s, y.sessions[j]) && Apart(y.sessions[j], s)
    {
    }
    InvAfterUpdate(y, y', sid, s);
  }

  lemma ProceedKeepsInv(y: Daemon, sid: SessionId, action: Action, env: Environment)
    requires Inv(y) && sid in y.sessions && Admissible(y, Proceed(sid, action, env))
    requires Effect(y, sid, y.sessions[sid], action, env).1.Some?
    ensures Inv(Next(y, Proceed(sid, action, env)))
  {
    hide Effect, Step, CG.SharedInv, Belongs, Safe, EvidenceInv, AccountInv, OrderInv, OnceInv, OwnInv;
    var s := y.sessions[sid];
    assert LocalInv(s) && Recorded(y, s) && ClaimBacked(y.damage, y.store, s) && Belongs(y.gateway, sid, s);
    var (y1, answered) := Effect(y, sid, s, action, env);
    var action' := answered.value;
    var y', s' := Next(y, Proceed(sid, action, env)), Step(s, action');
    EffectMovesLocks(y, sid, s, action, env);
    EffectKeepsGateway(y, sid, s, action, env);
    SteppingBelongs(y, sid, s, action, env);
    GatewayInvAfter(y, y', sid, s');
    StepKeepsLocalInv(s, action');
    StepMoves(s, action');
    ReachesApplyConfigured(s, action');
    StoreInvAfter(y, y', s, action, action', env.token);
    RecordedAfter(y, y', s, action', s');
    SteppingStaysBacked(y, s, action, y1.store, action');
    forall j | j in y.sessions && j != sid
      ensures ClaimBacked(y'.damage, y'.store, y.sessions[j]) && Apart(s', y.sessions[j]) && Apart(y.sessions[j], s')
    {
      assert LocalInv(y.sessions[j]) && Recorded(y, y.sessions[j]) && Apart(s, y.sessions[j]);
      OthersStayBacked(y, s, action, y1.store, action', y.sessions[j]);
      StaysApart(y, s, action, y1.store, action', y.sessions[j]);
    }
    InvAfterUpdate(y, y', sid, s');
  }

  lemma BeginKeepsInv(y: Daemon, sid: SessionId, spec: Spec)
    requires Inv(y) && sid !in y.sessions && spec.profile in y.store.profiles
    ensures Inv(y.(sessions := y.sessions[sid := NewSession(spec, y.backends)]))
  {
    hide LocalInv, CG.SharedInv;
    var s' := NewSession(spec, y.backends);
    LocalInvInitially(spec, y.backends);
    forall j | j in y.sessions ensures Apart(s', y.sessions[j]) && Apart(y.sessions[j], s') {
    }
    InvAfterUpdate(y, y.(sessions := y.sessions[sid := s']), sid, s');
  }

  lemma GatewayMoveKeepsInv(y: Daemon, move: CG.Move)
    requires Inv(y) && move.who.Other?
    ensures Inv(y.(gateway := CG.MoveOn(y.gateway, move)))
  {
    hide LocalInv, ClaimBacked, Apart, CG.SharedInv, Belongs, CG.TaskStep, CG.Begin;
    CG.MoveKeepsInv(y.gateway, move);
    var y' := y.(gateway := CG.MoveOn(y.gateway, move));
    assert StoreInv(y');
    forall sid | sid in y'.sessions
      ensures Recorded(y', y'.sessions[sid]) && Belongs(y'.gateway, sid, y'.sessions[sid])
    {
      assert Recorded(y, y.sessions[sid]) && Belongs(y.gateway, sid, y.sessions[sid]);
      RecordedGrows(y, y', y.sessions[sid]);
      StillBelongs(y.gateway, y'.gateway, sid, y.sessions[sid], y.sessions[sid]);
    }
  }

  lemma NextKeepsInv(y: Daemon, i: Input)
    requires Inv(y) && Admissible(y, i)
    ensures Inv(Next(y, i))
  {
    match i {
      case Proceed(sid, action, env) =>
        if sid in y.sessions {
          if Effect(y, sid, y.sessions[sid], action, env).1.Some? {
            ProceedKeepsInv(y, sid, action, env);
          } else {
            WaitingKeepsInv(y, sid, action, env);
          }
        }
      case BeginStart(sid, spec, hostAllowed) =>
        if Next(y, i) != y {
          BeginKeepsInv(y, sid, spec);
        }
      case MoveGateway(move) => GatewayMoveKeepsInv(y, move);
      case _ => StoreInputKeepsInv(y, i);
    }
  }

  // Profile creation, renaming and deletion, whether or not it succeeds: none of them
  // takes a claimed lock away while leaving its profile behind undamaged, and none brings
  // a deleted profile back.
  lemma StoreInputKeepsBacked(y: Daemon, i: Input, s: Session)
    requires StoreInv(y) && Admissible(y, i) && (i.CreateProfile? || i.RenameProfile? || i.DeleteProfile?)
    requires ClaimBacked(y.damage, y.store, s) && Recorded(y, s)
    ensures ClaimBacked(Next(y, i).damage, Next(y, i).store, s) && Recorded(Next(y, i), s)
  {
    hide Claim, LeaseOf;
  }

  lemma StoreInputKeepsStore(y: Daemon, i: Input)
    requires StoreInv(y) && Admissible(y, i) && (i.CreateProfile? || i.RenameProfile? || i.DeleteProfile?)
    ensures var y' := Next(y, i);
            StoreInv(y') && y'.sessions == y.sessions && y'.gateway == y.gateway && y.damage.freed <= y'.damage.freed
  {
  }

  lemma StoreInputKeepsInv(y: Daemon, i: Input)
    requires Inv(y) && Admissible(y, i) && (i.CreateProfile? || i.RenameProfile? || i.DeleteProfile?)
    ensures Inv(Next(y, i))
  {
    hide Next, StoreInv, LocalInv, Recorded, ClaimBacked, Apart, Belongs, CG.SharedInv;
    var y' := Next(y, i);
    StoreInputKeepsStore(y, i);
    forall sid | sid in y.sessions
      ensures ClaimBacked(y'.damage, y'.store, y.sessions[sid]) && Recorded(y', y.sessions[sid])
    {
      StoreInputKeepsBacked(y, i, y.sessions[sid]);
    }
  }

  lemma {:induction false} RunKeepsInv(y: Daemon, inputs: seq<Input>)
    requires Inv(y) && AllAdmissible(y, inputs)
    ensures Inv(After(y, inputs))
    decreases |inputs|
  {
    if inputs != [] {
      NextKeepsInv(y, inputs[0]);
      RunKeepsInv(Next(y, inputs[0]), inputs[1..]);
    }
  }

  lemma ReachableIsInv(backends: set<Engine>, inputs: seq<Input>)
    requires AllAdmissible(Boot(backends), inputs)
    ensures Inv(After(Boot(backends), inputs))
  {
    RunKeepsInv(Boot(backends), inputs);
  }

  // ---- the main results: every state any interleaving can reach -----------------------

  predicate IsBrowsing(s: Session) {
    s.entry.Some? && s.entry.value.state == Browsing
  }

  lemma BrowsingIsBackedByItsLock(y: Daemon, i: SessionId)
    requires Inv(y) && i in y.sessions && IsBrowsing(y.sessions[i])
    ensures var s := y.sessions[i];
            && Claim(s) == Some(s.entry.value.lease) && s.entry.value.lease.profile == s.spec.profile
            && LockStands(y.damage, y.store, s.entry.value.lease)
  {
    assert LocalInv(y.sessions[i]) && ClaimBacked(y.damage, y.store, y.sessions[i]);
  }

  // A lock file changes or disappears only because its own holder released it or because
  // the profile was being deleted: no stale or repeated release frees another holder's lock.
  lemma OnlyTheHolderUnlocks(backends: set<Engine>, inputs: seq<Input>, i: Input, p: ProfileId)
    requires AllAdmissible(Boot(backends), inputs) && Admissible(After(Boot(backends), inputs), i)
    requires var y := After(Boot(backends), inputs);
             p in y.store.locks && (p !in Next(y, i).store.locks || Next(y, i).store.locks[p] != y.store.locks[p])
    ensures var y := After(Boot(backends), inputs);
            || (i.DeleteProfile? && i.id == p && (i.shred.Shredded? ==> p !in Next(y, i).store.profiles))
            || (&& i.Proceed? && i.sid in y.sessions
                && LeaseOf(y.sessions[i.sid]).Some?
                && y.store.locks[p] == Holding(LeaseOf(y.sessions[i.sid]).value.token)
                && Claim(y.sessions[i.sid]).None?
                && forall other | other in y.sessions && other != i.sid && LeaseOf(y.sessions[other]).Some? ::
                     y.store.locks[p] != Holding(LeaseOf(y.sessions[other]).value.token))
  {
    ReachableIsInv(backends, inputs);
    var y := After(Boot(backends), inputs);
    if i.Proceed? && i.sid in y.sessions {
      StepUnlocksItsOwn(y, i.sid, i.action, i.env, p);
    } else {
      OnlyDeletionUnlocks(y, i, p);
    }
  }

  lemma OnlyDeletionUnlocks(y: Daemon, i: Input, p: ProfileId)
    requires p in y.store.locks && (p !in Next(y, i).store.locks || Next(y, i).store.locks[p] != y.store.locks[p])
    requires !(i.Proceed? && i.sid in y.sessions)
    ensures i.DeleteProfile? && i.id == p && (i.shred.Shredded? ==> p !in Next(y, i).store.profiles)
  {
  }

  lemma StepUnlocksItsOwn(y: Daemon, sid: SessionId, action: Action, env: Environment, p: ProfileId)
    requires Inv(y) && sid in y.sessions && p in y.store.locks
    requires var store := Effect(y, sid, y.sessions[sid], action, env).0.store;
             p !in store.locks || store.locks[p] != y.store.locks[p]
    ensures LeaseOf(y.sessions[sid]).Some? && Claim(y.sessions[sid]).None?
    ensures y.store.locks[p] == Holding(LeaseOf(y.sessions[sid]).value.token)
    ensures forall other | other in y.sessions && other != sid && LeaseOf(y.sessions[other]).Some? ::
              y.store.locks[p] != Holding(LeaseOf(y.sessions[other]).value.token)
  {
    hide Effect, LeaseOf, Claim, Releasing, Safe, EvidenceInv, AccountInv, OrderInv, OnceInv, OwnInv;
    var s := y.sessions[sid];
    assert LocalInv(s);
    EffectMovesLocks(y, sid, s, action, env);
    assert Releasing(s, action).Some?;
    ReleasesOwnLease(s, action);
    forall other | other in y.sessions && other != sid && LeaseOf(y.sessions[other]).Some?
      ensures y.store.locks[p] != Holding(LeaseOf(y.sessions[other]).value.token)
    {
      assert Apart(s, y.sessions[other]);
    }
  }

  // Every session a caller may see as Browsing has a browser handle to terminate; a
  // full-VM one has six passing checks, a host one only partial protection; and a
  // summary that calls itself safe was positively measured.
  lemma BrowsingIsMeasured(backends: set<Engine>, inputs: seq<Input>, sid: SessionId)
    requires AllAdmissible(Boot(backends), inputs)
    requires sid in After(Boot(backends), inputs).sessions && IsBrowsing(After(Boot(backends), inputs).sessions[sid])
    ensures var s := After(Boot(backends), inputs).sessions[sid];
            var e := s.entry.value;
            && e.handle.Some? && e.checklist.Some?
            && (if s.spec.host then e.mode.HostProcess? && e.protection == Partial && !e.Summary().IsSafe()
                else e.mode == FullVm && e.protection == Active && e.checklist.value.AllPassed())
            && (e.Summary().IsSafe() ==> s.probes.Some? && AllPositive(CONTEXT, s.probes.value))
  {
    ReachableIsInv(backends, inputs);
    BrowsingIsBacked(After(Boot(backends), inputs).sessions[sid]);
  }

  // In every interleaving a session that has begun to shut down never comes back, and
  // every state change follows the transition table; the one exception, Destroyed to
  // Failed, needs a stop that overlapped the session's own start.
  lemma ShutdownIsAbsorbing(backends: set<Engine>, inputs: seq<Input>, i: Input, sid: SessionId)
    requires AllAdmissible(Boot(backends), inputs) && Admissible(After(Boot(backends), inputs), i)
    requires var y := After(Boot(backends), inputs); sid in y.sessions && y.sessions[sid].entry.Some?
    ensures var y, y' := After(Boot(backends), inputs), Next(After(Boot(backends), inputs), i);
            && sid in y'.sessions && y'.sessions[sid].entry.Some?
            && var before, after := y.sessions[sid].entry.value.state, y'.sessions[sid].entry.value.state;
               && (before.ShuttingDown() ==> after.ShuttingDown())
               && (before == after || before.CanTransitionTo(after)
                   || (before.Destroyed? && after.Failed? && y.sessions[sid].mixed))
  {
    hide Inv, Next, Admissible, AllAdmissible;
    ReachableIsInv(backends, inputs);
    NextTakesALegalEdge(After(Boot(backends), inputs), i, sid);
  }

  lemma NextTakesALegalEdge(y: Daemon, i: Input, sid: SessionId)
    requires Inv(y) && Admissible(y, i) && sid in y.sessions && y.sessions[sid].entry.Some?
    ensures var y' := Next(y, i);
            && sid in y'.sessions && y'.sessions[sid].entry.Some?
            && var before, after := y.sessions[sid].entry.value.state, y'.sessions[sid].entry.value.state;
               && (before.ShuttingDown() ==> after.ShuttingDown())
               && LegalEdge(before, after, y.sessions[sid].mixed)
  {
    hide Step, Effect, CG.MoveOn, Safe, EvidenceInv, AccountInv, OrderInv, OnceInv, OwnInv, LockMove;
    assert LocalInv(y.sessions[sid]);
    if i.Proceed? && i.sid == sid {
      var action := Effect(y, sid, y.sessions[sid], i.action, i.env).1;
      EffectMovesLocks(y, sid, y.sessions[sid], i.action, i.env);
      if action.Some? {
        StepTakesALegalEdge(y.sessions[sid], action.value);
      }
    } else if i.Proceed? && i.sid in y.sessions {
      EffectMovesLocks(y, i.sid, y.sessions[i.sid], i.action, i.env);
    }
  }

  // Exactly-once cleanup across the whole daemon: for a settled session whose calls never
  // overlapped, each of its VMs has had one destroy call and each of its browsers one
  // terminate call, and no other session has ever made one for them.
  lemma EverythingCleanedUpOnce(backends: set<Engine>, inputs: seq<Input>, sid: SessionId)
    requires AllAdmissible(Boot(backends), inputs)
    requires var y := After(Boot(backends), inputs);
             && sid in y.sessions && !y.sessions[sid].overlapped && !InFlight(y.sessions[sid])
             && y.sessions[sid].entry.Some?
             && (y.sessions[sid].entry.value.state.Failed? || y.sessions[sid].entry.value.state.Destroyed?)
    ensures var y := After(Boot(backends), inputs);
            && (forall v | v in y.sessions[sid].recorded :: y.sessions[sid].destroyed[v] == 1)
            && (forall h | h in y.sessions[sid].stored :: y.sessions[sid].terminated[h] == 1)
            && (forall j, v | j in y.sessions && j != sid && v in y.sessions[sid].recorded ::
                  y.sessions[j].destroyed[v] == 0)
            && (forall j, h | j in y.sessions && j != sid && h in y.sessions[sid].stored ::
                  y.sessions[j].terminated[h] == 0)
  {
    ReachableIsInv(backends, inputs);
    var y := After(Boot(backends), inputs);
    assert LocalInv(y.sessions[sid]);
    CleanedUpExactlyOnce(y.sessions[sid]);
    forall j | j in y.sessions && j != sid
      ensures forall v | v in y.sessions[sid].recorded :: y.sessions[j].destroyed[v] == 0
      ensures forall h | h in y.sessions[sid].stored :: y.sessions[j].terminated[h] == 0
    {
      assert Apart(y.sessions[sid], y.sessions[j]) && LocalInv(y.sessions[j]);
    }
  }

  // The step that gives a profile's lock back comes after the cleanup: by then each VM
  // the session recorded has had its destroy call, and each browser it stored its
  // terminate call. The results of these calls are ignored, so this is as much as the next
  // holder of the lock may rely on.
  lemma UnlockedAfterCleanup(backends: set<Engine>, inputs: seq<Input>, sid: SessionId, a: Action)
    requires AllAdmissible(Boot(backends), inputs)
    requires var y := After(Boot(backends), inputs);
             sid in y.sessions && !y.sessions[sid].overlapped && Releasing(y.sessions[sid], a).Some?
    ensures var s := After(Boot(backends), inputs).sessions[sid];
            && (forall v | v in s.recorded :: s.destroyed[v] == 1)
            && (forall h | h in s.stored :: s.terminated[h] == 1)
  {
    ReachableIsInv(backends, inputs);
    var s := After(Boot(backends), inputs).sessions[sid];
    assert LocalInv(s);
    ReleasingMeansSettled(s, a);
  }

  lemma ReleasingMeansSettled(s: Session, a: Action)
    requires Safe(s) && Accounts(s) && OwnInv(s) && Releasing(s, a).Some?
    ensures s.entry.None? || Settled(s, {}, {})
    ensures s.entry.None? ==> s.recorded == {} && s.stored == {}
  {
    if a.AdvanceStop? {
      assert Working(s.stops[a.id]) && PendingVms(s.stops[a.id].td) == {};
    } else if s.start.TearingDown? {
      assert PendingVms(s.start.td) == {};
    }
  }

  // With or without overlap, no browser is ever terminated twice.
  lemma NoBrowserTerminatedTwice(backends: set<Engine>, inputs: seq<Input>, i: SessionId, j: SessionId, h: HandleId)
    requires AllAdmissible(Boot(backends), inputs)
    requires i in After(Boot(backends), inputs).sessions && j in After(Boot(backends), inputs).sessions
    ensures var y := After(Boot(backends), inputs);
            && y.sessions[i].terminated[h] <= 1
            && (i != j && y.sessions[i].terminated[h] == 1 ==> y.sessions[j].terminated[h] == 0)
  {
    ReachableIsInv(backends, inputs);
    var y := After(Boot(backends), inputs);
    assert LocalInv(y.sessions[i]) && LocalInv(y.sessions[j]);
    TerminatedAtMostOnce(y.sessions[i], h);
    if i != j {
      assert Apart(y.sessions[i], y.sessions[j]);
    }
  }

  // Fail-closed across the crates. A start that has failed after registration with a
  // kill-switch class engaged the gateway's switch, and recorded that, before any of its
  // teardown and before it returned; a start failing otherwise engaged nothing itself.
  lemma FailedStartIsFailClosed(backends: set<Engine>, inputs: seq<Input>, sid: SessionId)
    requires AllAdmissible(Boot(backends), inputs)
    requires var y := After(Boot(backends), inputs); sid in y.sessions && y.sessions[sid].start.Done?
    ensures var s := After(Boot(backends), inputs).sessions[sid];
            && (SwitchEngaged in s.log <==>
                  s.entry.Some? && s.start.outcome.Some?
                  && s.start.outcome.value in {NetworkContainment, PreflightFailed, Isolation})
            && (SwitchEngaged in s.log ==> CutFirst(s.log))
  {
    hide Safe, EvidenceInv, AccountInv, OnceInv, OwnInv, CutFirst, StoreInv, GatewayInv, Recorded, ClaimBacked, Apart;
    ReachableIsInv(backends, inputs);
    assert LocalInv(After(Boot(backends), inputs).sessions[sid]);
    FailedStartCutsFirst(After(Boot(backends), inputs).sessions[sid]);
  }

  // The step that logs the engaging, and the step in which a start fails in configure or
  // in applying its firewall, comes after the session's own call recorded Engaged, even
  // when its load failed; and the gateway is still Engaged at that step, unless another
  // call has recorded rules since.
  lemma FailingStepsLeaveTheSwitchEngaged(backends: set<Engine>, inputs: seq<Input>, sid: SessionId, o: Oracle,
                                          env: Environment)
    requires AllAdmissible(Boot(backends), inputs)
    requires sid in After(Boot(backends), inputs).sessions
    requires var y := After(Boot(backends), inputs);
             CutsOff(y.sessions[sid], Next(y, Proceed(sid, Advance(o), env)).sessions[sid])
    ensures var y := After(Boot(backends), inputs);
            var y' := Next(y, Proceed(sid, Advance(o), env));
            && CG.CutStands(y.gateway, CG.OfSession(sid))
            && (y'.gateway.controller.killSwitch == Engaged || y.gateway.cuts[CG.OfSession(sid)] < y.gateway.epoch)
  {
    hide Inv, Effect, Step, CutsOff;
    ReachableIsInv(backends, inputs);
    FailingStepEngages(After(Boot(backends), inputs), sid, o, env);
  }

  // Only the fail-closed step of the start call logs the engaging of the switch.
  lemma EngagingStep(s: Session, o: Oracle)
    requires LocalInv(s)
    ensures var log' := StartStep(s, o).log;
            |log'| == |s.log| + 1 && log'[|s.log|] == SwitchEngaged ==>
              s.start.Failing? && s.start.error.RequiresKillSwitch()
  {
    match s.start {
      case Driving(_) => DriveHasShape(s, o);
      case TearingDown(_, td) =>
        TeardownLogs(s, ByStart, td);
        var more :| TeardownStep(s, ByStart, td).0.log == s.log + more && SwitchEngaged !in more;
        assert |more| > 0 ==> more[0] != SwitchEngaged;
        assert |more| > 0 ==> (s.log + more)[|s.log|] == more[0];
      case _ =>
    }
  }

  // Whether one session step logs the engaging of the switch, or is a start failing in
  // configure or in applying its firewall.
  ghost predicate CutsOff(s: Session, s': Session) {
    || (|s'.log| == |s.log| + 1 && s'.log[|s.log|] == SwitchEngaged)
    || ((s.start == Driving(ConfigureGateway) || s.start == Driving(ApplyPolicy)) && s'.start.Failing?)
  }

  lemma CuttingStep(s: Session, o: Oracle)
    requires LocalInv(s) && CutsOff(s, StartStep(s, o))
    ensures GatewayCall(s).Some? && (s.start.Failing? || o.fault.Some?)
  {
    hide TeardownStep, Safe, EvidenceInv, AccountInv, OrderInv, OnceInv, OwnInv;
    if s.start != Driving(ConfigureGateway) && s.start != Driving(ApplyPolicy) {
      EngagingStep(s, o);
    }
  }

  lemma FailingStepEngages(y: Daemon, sid: SessionId, o: Oracle, env: Environment)
    requires Inv(y) && sid in y.sessions
    requires var y' := Next(y, Proceed(sid, Advance(o), env));
             sid in y'.sessions && CutsOff(y.sessions[sid], y'.sessions[sid])
    ensures var y' := Next(y, Proceed(sid, Advance(o), env));
            && CG.CutStands(y.gateway, CG.OfSession(sid))
            && (y'.gateway.controller.killSwitch == Engaged || y.gateway.cuts[CG.OfSession(sid)] < y.gateway.epoch)
  {
    hide LocalInv, StartStep, Turn, Belongs, CG.SharedInv, CG.CutStands, Effect, CutsOff, GatewayCall;
    var s := y.sessions[sid];
    assert LocalInv(s) && Belongs(y.gateway, sid, s);
    var (y1, a) := Effect(y, sid, s, Advance(o), env);
    NothingIsNoCut(s);
    if GatewayCall(s).Some? {
      EffectAtGateway(y, sid, s, o, env);
      CuttingStep(s, a.value.o);
      FailureComesAfterItsCut(y.gateway, sid, s, env.outcome);
    } else {
      EffectMovesLocks(y, sid, s, Advance(o), env);
      CuttingStep(s, a.value.o);
      assert false;
    }
  }

  lemma NothingIsNoCut(s: Session)
    ensures !CutsOff(s, s)
  {}
}
