// A start in which every capability succeeds and nobody else moves: from the boot of the
// daemon to a browsing session, with the gateway as it then stands.
module FaultlessStart {
  import opened Errors
  import opened Gateway
  import opened Firewall
  import opened InstalledPolicy
  import opened ProfileStore
  import opened SessionMachine
  import opened SessionSafety
  import opened SessionOwnership
  import opened SessionGateway
  import opened SessionSystem
  import opened SessionExclusion
  import opened SessionRoute
  import opened SessionDamage

  // ---- the controller on the way ---------------------------------------------------------

  function Configured(spec: Spec): GC.Controller {
    GC.INITIAL.(config := Some(spec.Config()), accepted := {spec.Config()})
  }

  function Loaded(spec: Spec): GC.Controller {
    Configured(spec).(kernel := Some(Compile(FailClosedPolicy(spec.Config()), spec.Config())))
  }

  function Opened(spec: Spec): GC.Controller {
    Loaded(spec).(firewall := Some(FailClosedPolicy(spec.Config())), firewallApplied := true)
  }

  // The controller while the session's own task is at work, or waits to be collected.
  predicate Tasked(g: CG.Shared, spec: Spec, at: Drive, task: CG.Task) {
    if at.ConfigureGateway? then
      || (task == CG.StartingBackend(spec.Config()) && g.controller == GC.INITIAL)
      || (task == CG.Returned(None, false) && g.controller == Configured(spec))
    else
      && at.ApplyPolicy?
      && var policy, cfg := FailClosedPolicy(spec.Config()), spec.Config();
         || (task == CG.LoadingRules(policy, cfg, true) && g.controller == Configured(spec))
         || (task == CG.RecordingRules(policy, cfg, true) && g.controller == Loaded(spec))
         || (task == CG.Returned(None, false) && g.controller == Opened(spec))
  }

  // The controller at each point of the start, with nobody else's calls.
  predicate Stage(g: CG.Shared, sid: SessionId, s: Session) {
    var who := CG.OfSession(sid);
    match s.start
    case Keying(_) => who !in g.tasks && g.controller == GC.INITIAL
    case Driving(at) =>
      if who in g.tasks then Tasked(g, s.spec, at, g.tasks[who])
      else if s.spec.host || Position(false, at) <= 6 then g.controller == GC.INITIAL
      else if at.ApplyPolicy? then g.controller == Configured(s.spec)
      else g.controller == Opened(s.spec)
    case _ => false
  }

  // A turn of the session's own call, and its answer.
  lemma TurnKeepsStage(g: CG.Shared, sid: SessionId, s: Session, n: nat)
    requires s.start.Driving? && OnPath(s.spec, s.start.at) && GatewayCall(s).Some? && Stage(g, sid, s)
    ensures var t := Turn(g, sid, GatewayCall(s).value, Around(n).outcome);
            if t.done then
              && t.answer.None? && CG.OfSession(sid) !in t.gateway.tasks
              && t.gateway.controller == if s.start.at.ConfigureGateway? then Configured(s.spec) else Opened(s.spec)
            else Stage(t.gateway, sid, s)
  {
    hide Compile, KillSwitchRuleset;
    assert FailClosedPolicy(s.spec.Config()).Validates();
  }

  lemma StepKeepsStage(g: CG.Shared, sid: SessionId, s: Session, s': Session)
    requires s.start.Driving? && s'.start.Driving? && s'.spec == s.spec
    requires OnPath(s.spec, s.start.at)
    requires Position(s.spec.host, s'.start.at) == Position(s.spec.host, s.start.at) + Stride(s.start.at)
    requires CG.OfSession(sid) !in g.tasks
    requires if s.start.at.ConfigureGateway? then g.controller == Configured(s.spec)
             else if s.start.at.ApplyPolicy? then g.controller == Opened(s.spec)
             else Stage(g, sid, s)
    ensures Stage(g, sid, s')
  {}

  // ---- one step, and all of them --------------------------------------------------------------

  // The session has its profile's lock, and the profile is as it was created.
  ghost predicate Alone(y: Daemon, sid: SessionId, spec: Spec, meta: Metadata, n: nat) {
    && Good(y, n) && Holds(y, sid, spec.profile) && y.sessions[sid].spec == spec
    && y.store.profiles == map[spec.profile := meta]
    && Stage(y.gateway, sid, y.sessions[sid])
  }

  lemma MoveKeepsProfiles(y: Daemon, sid: SessionId, n: nat)
    requires sid in y.sessions && y.sessions[sid].start != Driving(RecordLaunch)
    ensures Next(y, Move(sid, n)).store.profiles == y.store.profiles
  {
    hide Turn, Step;
  }

  lemma KeyingMoves(y: Daemon, sid: SessionId, n: nat)
    requires sid in y.sessions && y.sessions[sid].start.Keying?
    ensures var y' := Next(y, Move(sid, n));
            && y'.gateway == y.gateway && sid in y'.sessions && y'.sessions[sid].spec == y.sessions[sid].spec
            && y'.sessions[sid].start
               == Driving(if y.sessions[sid].spec.host then ResolveProxy else ToProvisioning)
  {
    hide Turn, DriveStep, TeardownStep;
  }

  lemma DrivingMoves(y: Daemon, sid: SessionId, n: nat)
    requires Inv(y) && sid in y.sessions && y.sessions[sid].start.Driving? && Stage(y.gateway, sid, y.sessions[sid])
    requires y.sessions[sid].start != Driving(RecordLaunch) && Claim(y.sessions[sid]).Some?
    requires var y' := Next(y, Move(sid, n)); sid in y'.sessions && Claim(y'.sessions[sid]).Some?
    ensures var y' := Next(y, Move(sid, n)); Stage(y'.gateway, sid, y'.sessions[sid])
  {
    hide Turn, StartStep, LocalInv, Apart, ClaimBacked, CG.SharedInv, GatewayCall, Stage, Effect, OneOn,
         Recorded, Belongs, Position, Stride;
    var s, y' := y.sessions[sid], Next(y, Move(sid, n));
    assert LocalInv(s) && Recorded(y, s) && Belongs(y.gateway, sid, s);
    LocalParts(s);
    if GatewayCall(s).Some? {
      CallingClaims(s);
      TurnKeepsStage(y.gateway, sid, s, n);
      EffectAtGateway(y, sid, s, Drawing(n), Around(n));
    } else {
      NoCallNoTask(y.gateway, sid, s);
      EffectElsewhere(y, sid, s, Advance(Drawing(n)), Around(n));
      EffectMovesLocks(y, sid, s, Advance(Drawing(n)), Around(n));
      assert y'.gateway == y.gateway;
    }
    var a := Effect(y, sid, s, Advance(Drawing(n)), Around(n)).1;
    if a.Some? {
      DrivenOn(s, a.value.o);
      StepKeepsStage(y'.gateway, sid, s, StartStep(s, a.value.o));
    }
  }

  lemma NoCallNoTask(g: CG.Shared, sid: SessionId, s: Session)
    requires Belongs(g, sid, s) && GatewayCall(s).None?
    ensures CG.OfSession(sid) !in g.tasks
    ensures s.start.Driving? ==> !s.start.at.ConfigureGateway? && !s.start.at.ApplyPolicy?
  {}

  lemma DrivenOn(s: Session, o: Oracle)
    requires Safe(s) && s.start.Driving? && s.start != Driving(RecordLaunch) && Claim(StartStep(s, o)).Some?
    ensures var s' := StartStep(s, o);
            && s'.start.Driving? && s'.spec == s.spec
            && OnPath(s.spec, s.start.at)
            && Position(s.spec.host, s'.start.at) == Position(s.spec.host, s.start.at) + Stride(s.start.at)
  {
    hide StartStep, Position, DataInv;
    DriveKeepsSpec(s, o);
    DrivePasses(s, o);
  }

  lemma StepKeepsAlone(y: Daemon, sid: SessionId, spec: Spec, meta: Metadata, n: nat)
    requires Alone(y, sid, spec, meta, n) && !IsBrowsing(y.sessions[sid])
    ensures var y' := Next(y, Move(sid, n));
            && Admissible(y, Move(sid, n)) && Alone(y', sid, spec, meta, n + 1) && Rank(y', sid) < Rank(y, sid)
            && y'.store.locks == y.store.locks && y'.sessions.Keys == y.sessions.Keys
  {
    hide Inv, Next, Hopeful, Stage, Rank, IsBrowsing, HostsAreWired, Fresh;
    var s := y.sessions[sid];
    StepsOn(y, sid, n);
    HoldersStand(y, sid);
    MoveKeepsProfiles(y, sid, n);
    var y' := Next(y, Move(sid, n));
    HopefulClaims(y.gateway, sid, s);
    HopefulClaims(y'.gateway, sid, y'.sessions[sid]);
    if s.start.Keying? {
      KeyingMoves(y, sid, n);
      KeyingStage(y.gateway, sid, s, y'.sessions[sid]);
    } else {
      DrivingMoves(y, sid, n);
    }
  }

  lemma KeyingStage(g: CG.Shared, sid: SessionId, s: Session, s': Session)
    requires s.start.Keying? && Stage(g, sid, s)
    requires s'.start == Driving(if s.spec.host then ResolveProxy else ToProvisioning)
    ensures Stage(g, sid, s')
  {}

  // The moves of one session, from the n-th to before the m-th.
  ghost function MovesFrom(sid: SessionId, n: nat, m: nat): seq<Input>
    decreases m - n
  {
    if m <= n then [] else [Move(sid, n)] + MovesFrom(sid, n + 1, m)
  }

  lemma {:induction false} ComesToBrowse(y: Daemon, sid: SessionId, spec: Spec, meta: Metadata, n: nat)
    returns (m: nat)
    requires Alone(y, sid, spec, meta, n)
    ensures n <= m && AllAdmissible(y, MovesFrom(sid, n, m))
    ensures var y' := After(y, MovesFrom(sid, n, m));
            && Alone(y', sid, spec, meta, m) && IsBrowsing(y'.sessions[sid])
            && y'.store.locks == y.store.locks && y'.sessions.Keys == y.sessions.Keys
    decreases Rank(y, sid)
  {
    hide Alone, Next, IsBrowsing, Rank, Inv;
    SpecOf(y, sid, spec, meta, n);
    m := n;
    if !IsBrowsing(y.sessions[sid]) {
      StepKeepsAlone(y, sid, spec, meta, n);
      m := ComesToBrowse(Next(y, Move(sid, n)), sid, spec, meta, n + 1);
      assert MovesFrom(sid, n, m)[1..] == MovesFrom(sid, n + 1, m);
    }
  }

  lemma SpecOf(y: Daemon, sid: SessionId, spec: Spec, meta: Metadata, n: nat)
    requires Alone(y, sid, spec, meta, n)
    ensures sid in y.sessions && y.sessions[sid].spec == spec
  {}

  // ---- the main result ------------------------------------------------------------------------

  // A profile is created and started, and the start makes its moves alone, every capability
  // answering well.
  ghost function StartAlone(spec: Spec, meta: Metadata, m: nat): seq<Input> {
    [CreateProfile(spec.profile, meta), BeginStart(0, spec, true)] + MovesFrom(0, 0, m)
  }

  lemma Begins(backends: set<Engine>, spec: Spec, meta: Metadata)
    requires meta.Metadata? && (spec.host ==> spec.engine in backends)
    ensures var y1 := Next(Boot(backends), CreateProfile(spec.profile, meta));
            var y2 := Next(y1, BeginStart(0, spec, true));
            && Admissible(Boot(backends), CreateProfile(spec.profile, meta))
            && Admissible(y1, BeginStart(0, spec, true))
            && Inv(y2)
            && y2 == Boot(backends).(sessions := map[0 := NewSession(spec, backends)],
                                     store := Store(map[spec.profile := meta], map[]), profiles := {spec.profile})
  {
    hide Inv;
    var y0 := Boot(backends);
    var y1 := Next(y0, CreateProfile(spec.profile, meta));
    ReachableIsInv(backends, []);
    NextKeepsInv(y0, CreateProfile(spec.profile, meta));
    NextKeepsInv(y1, BeginStart(0, spec, true));
  }

  lemma TakesItsLock(y: Daemon, spec: Spec, meta: Metadata)
    requires Inv(y) && meta.Metadata? && (spec.host ==> spec.engine in y.backends)
    requires y == Boot(y.backends).(sessions := map[0 := NewSession(spec, y.backends)],
                                    store := Store(map[spec.profile := meta], map[]), profiles := {spec.profile})
    ensures var y' := Next(y, Move(0, 0));
            && Admissible(y, Move(0, 0)) && Alone(y', 0, spec, meta, 1) && !IsBrowsing(y'.sessions[0])
            && y'.store.locks == map[spec.profile := Holding(0)] && y'.sessions.Keys == {0}
  {
    hide Inv;
    NextKeepsInv(y, Move(0, 0));
    var s := StartStep(NewSession(spec, y.backends), Drawing(0).(lock := Ok(Lease(spec.profile, 0))));
    assert Next(y, Move(0, 0)).sessions == map[0 := s];
  }

  // Returning alone: the session stays as it is.
  lemma Returning(y: Daemon, sid: SessionId, spec: Spec, meta: Metadata, n: nat)
    requires sid in y.sessions && y.sessions[sid].start == Driving(RecordLaunch) && y.sessions[sid].spec == spec
    requires y.store.profiles == map[spec.profile := meta] && meta.Metadata?
    ensures var y' := Next(y, Move(sid, n));
            && y'.sessions == y.sessions[sid := y'.sessions[sid]] && y'.gateway == y.gateway
            && y'.sessions[sid].start == Done(None) && y'.sessions[sid].entry == y.sessions[sid].entry
            && y'.sessions[sid].spec == spec
            && y'.store == Store(map[spec.profile := Metadata(meta.name, Some(n))], y.store.locks)
  {
    hide Turn;
  }

  // In any run, the last step of a start records the time of the launch in the profile, if
  // that can still be read, beside the name it has, and returns in any case.
  lemma ReturningTimesTheLaunch(y: Daemon, sid: SessionId, o: Oracle, env: Environment)
    requires sid in y.sessions && y.sessions[sid].start == Driving(RecordLaunch)
    ensures var y', p := Next(y, Proceed(sid, Advance(o), env)), y.sessions[sid].spec.profile;
            && sid in y'.sessions && y'.sessions[sid].start == Done(None)
            && y'.store.locks == y.store.locks && y'.gateway == y.gateway
            && y'.store.profiles == if p in y.store.profiles && y.store.profiles[p].Metadata?
                                    then y.store.profiles[p := Metadata(y.store.profiles[p].name, Some(env.now))]
                                    else y.store.profiles
  {
    hide Turn;
  }

  lemma BrowsingIsSafeIff(s: Session)
    requires LocalInv(s) && IsBrowsing(s)
    ensures s.entry.value.Summary().IsSafe() <==> !s.spec.host
  {
    BrowsingIsBacked(s);
  }

  ghost predicate Ended(y: Daemon, y': Daemon, sid: SessionId, spec: Spec, meta: Metadata, n: nat)
    requires meta.Metadata?
  {
    && sid in y'.sessions && IsBrowsing(y'.sessions[sid]) && y'.sessions[sid].start == Done(None)
    && y'.sessions.Keys == y.sessions.Keys && y'.sessions[sid].spec == spec
    && (y'.sessions[sid].entry.value.Summary().IsSafe() <==> !spec.host)
    && y'.gateway.controller == (if spec.host then GC.INITIAL else Opened(spec))
    && y'.store == Store(map[spec.profile := Metadata(meta.name, Some(n))], y.store.locks)
  }

  lemma Returns(y: Daemon, sid: SessionId, spec: Spec, meta: Metadata, n: nat)
    requires sid in y.sessions && IsBrowsing(y.sessions[sid]) && meta.Metadata? && Alone(y, sid, spec, meta, n)
    ensures Admissible(y, Move(sid, n)) && Ended(y, Next(y, Move(sid, n)), sid, spec, meta, n)
  {
    hide Next, LocalInv, StoreInv, CG.SharedInv, Compile, Apart, ClaimBacked, Recorded, Hopeful, HostsAreWired,
         Opened;
    var s := y.sessions[sid];
    assert LocalInv(s) && Belongs(y.gateway, sid, s);
    LocalParts(s);
    BrowsingHasStarted(s);
    BrowsingIsSafeIff(s);
    NoCallNoTask(y.gateway, sid, s);
    Returning(y, sid, spec, meta, n);
  }

  // So every admitted start that runs alone and faultlessly comes to browse, behind its own
  // lock, its profile still under its name and now with the time of the launch. A full-VM
  // one has the gateway ready, configured as the profile asks, and rules in the kernel that
  // protect by the profile's mode and IPv6 choice; a host one leaves the gateway alone.
  lemma FaultlessStartBrowses(backends: set<Engine>, spec: Spec, meta: Metadata) returns (m: nat)
    requires meta.Metadata? && (spec.host ==> spec.engine in backends)
    ensures AllAdmissible(Boot(backends), StartAlone(spec, meta, m))
    ensures var y := After(Boot(backends), StartAlone(spec, meta, m));
            && y.sessions.Keys == {0} && y.sessions[0].spec == spec && y.sessions[0].start == Done(None)
            && IsBrowsing(y.sessions[0]) && (y.sessions[0].entry.value.Summary().IsSafe() <==> !spec.host) && m > 0
            && y.store == Store(map[spec.profile := Metadata(meta.name, Some(m - 1))], map[spec.profile := Holding(0)])
            && (spec.host ==> y.gateway.controller == GC.INITIAL)
            && (!spec.host ==>
                  var g := y.gateway.controller;
                  && g.config == Some(GatewayConfig(spec.network, spec.ipv6, "10.152.152.0/24"))
                  && GC.Health(g, Ok(Up)).IsReady()
                  && g.kernel.Some? && Protects(g.kernel.value, "10.152.152.0/24", spec.network, spec.ipv6))
  {
    hide Next, Alone, IsBrowsing, Protects, Opened, GC.Health;
    var y2 := Next(Next(Boot(backends), CreateProfile(spec.profile, meta)), BeginStart(0, spec, true));
    var y3 := Next(y2, Move(0, 0));
    Begins(backends, spec, meta);
    TakesItsLock(y2, spec, meta);
    var n := ComesToBrowse(y3, 0, spec, meta, 1);
    var y4 := After(y3, MovesFrom(0, 1, n));
    Returns(y4, 0, spec, meta, n);
    m := n + 1;
    MovesJoin(y3, 0, 1, n);
    RunOf(backends, spec, meta, m);
    OpenedIsReady(spec);
  }

  lemma RunOf(backends: set<Engine>, spec: Spec, meta: Metadata, m: nat)
    requires m > 0
    requires var y1 := Next(Boot(backends), CreateProfile(spec.profile, meta));
             var y2 := Next(y1, BeginStart(0, spec, true));
             && Admissible(Boot(backends), CreateProfile(spec.profile, meta))
             && Admissible(y1, BeginStart(0, spec, true))
             && Admissible(y2, Move(0, 0)) && AllAdmissible(Next(y2, Move(0, 0)), MovesFrom(0, 1, m))
    ensures AllAdmissible(Boot(backends), StartAlone(spec, meta, m))
    ensures var y1 := Next(Boot(backends), CreateProfile(spec.profile, meta));
            var y2 := Next(y1, BeginStart(0, spec, true));
            After(Boot(backends), StartAlone(spec, meta, m)) == After(Next(y2, Move(0, 0)), MovesFrom(0, 1, m))
  {
    hide Next, Admissible, AllAdmissible, After;
    var y0, c, b := Boot(backends), CreateProfile(spec.profile, meta), BeginStart(0, spec, true);
    StepThen(Next(Next(y0, c), b), Move(0, 0), MovesFrom(0, 1, m));
    StepThen(Next(y0, c), b, MovesFrom(0, 0, m));
    StepThen(y0, c, [b] + MovesFrom(0, 0, m));
    assert StartAlone(spec, meta, m) == [c] + ([b] + MovesFrom(0, 0, m));
  }

  lemma MovesJoin(y: Daemon, sid: SessionId, n: nat, m: nat)
    requires n <= m && AllAdmissible(y, MovesFrom(sid, n, m))
    requires Admissible(After(y, MovesFrom(sid, n, m)), Move(sid, m))
    ensures AllAdmissible(y, MovesFrom(sid, n, m + 1))
    ensures After(y, MovesFrom(sid, n, m + 1)) == Next(After(y, MovesFrom(sid, n, m)), Move(sid, m))
  {
    hide Next, Admissible;
    OneMove(After(y, MovesFrom(sid, n, m)), sid, m);
    RunsJoin(y, MovesFrom(sid, n, m), [Move(sid, m)]);
    LastMove(sid, n, m);
  }

  lemma OpenedIsReady(spec: Spec)
    ensures var g := Opened(spec);
            && g.config == Some(GatewayConfig(spec.network, spec.ipv6, "10.152.152.0/24"))
            && GC.Health(g, Ok(Up)).IsReady()
            && g.kernel.Some? && Protects(g.kernel.value, "10.152.152.0/24", spec.network, spec.ipv6)
  {
    hide Protects, Compile, FailClosedPolicy;
    FailClosedProtects(spec.Config(), spec.Config());
  }

  lemma OneMove(y: Daemon, sid: SessionId, n: nat)
    requires Admissible(y, Move(sid, n))
    ensures AllAdmissible(y, [Move(sid, n)]) && After(y, [Move(sid, n)]) == Next(y, Move(sid, n))
  {
    hide Next, Admissible;
  }

  lemma {:induction false} LastMove(sid: SessionId, n: nat, m: nat)
    requires n <= m
    ensures MovesFrom(sid, n, m + 1) == MovesFrom(sid, n, m) + [Move(sid, m)]
    decreases m - n
  {
    if n < m {
      LastMove(sid, n + 1, m);
    }
  }
}
