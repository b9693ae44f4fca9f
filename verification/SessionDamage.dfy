// How two sessions come to browse with one profile: exactly when the profile's lock is
// freed by a halted deletion while one session holds the profile and another waits for it.
module SessionDamage {
  import opened Errors
  import opened Preflight
  import opened Gateway
  import opened ProfileStore
  import opened SessionMachine
  import opened SessionSafety
  import opened SessionOwnership
  import opened SessionGateway
  import opened SessionSystem
  import opened SessionExclusion
  import opened SessionRoute
  import SessionRaces

  // ---- a start that nothing goes wrong in -------------------------------------------

  const GOOD_PROBES := Probes(Ok(true), Ok(true), Ok(true), Ok(Some(IpObservation("", true, true))), Ok(true))

  lemma GoodProbesPass()
    ensures RunPreflight(CONTEXT, GOOD_PROBES).PermitsBrowsing()
  {
    ActiveIffAllPositive(CONTEXT, GOOD_PROBES);
  }

  // The n-th step of a run draws token, VM and handle n, and nothing fails.
  function Drawing(n: nat): Oracle {
    Oracle(None, Err(Busy), n, n, GOOD_PROBES, true)
  }

  function Around(n: nat): Environment {
    Environment(NoFault, n, CG.Outcome(GC.Exited(true), Ok(Up)), n)
  }

  // How far a drive is from the end.
  function Left(at: Drive): nat {
    match at
    case ResolveProxy => 22
    case ToProvisioning => 21
    case ProvisionGateway => 20
    case RecordGateway(_) => 19
    case ProvisionBrowser => 18
    case RecordBrowser(_) => 17
    case ToGatewayStarting => 16
    case ConfigureGateway => 15
    case ApplyPolicy => 14
    case StartGateway => 13
    case StartBrowser => 12
    case ToPreflight => 11
    case RunChecks => 10
    case StoreChecklist(_) => 9
    case ProbeProxy => 10
    case StorePartial => 9
    case StoreMode => 8
    case RenderPolicy => 7
    case Launch => 6
    case RecordHandle(_) => 5
    case CheckRunning => 4
    case ToBrowsing => 3
    case RecordLaunch => 2
  }

  ghost predicate GoodAnswers(s: Session) {
    s.start.Driving? && s.start.at.StoreChecklist? ==> RunPreflight(CONTEXT, s.start.at.probes).PermitsBrowsing()
  }

  ghost predicate Onward(s: Session, s': Session) {
    && s.start.Driving? && s'.start.Driving? && Left(s'.start.at) < Left(s.start.at)
    && Claim(s') == Claim(s) && GoodAnswers(s')
  }

  lemma SetupGoesOn(s: Session, n: nat)
    requires ControlInv(s) && s.start.Driving? && Setup(s.start.at) && Claim(s).Some?
    requires s.spec.host ==> s.spec.engine in s.backends
    ensures Onward(s, StartStep(s, Drawing(n)))
  {
    hide TeardownStep, RunPreflight, StoreResult;
  }

  lemma OpeningGoesOn(s: Session, n: nat)
    requires ControlInv(s) && s.start.Driving? && Opening(s.start.at) && Claim(s).Some?
    ensures Onward(s, StartStep(s, Drawing(n)))
  {
    hide TeardownStep, RunPreflight, StoreResult;
  }

  lemma GateGoesOn(s: Session, n: nat)
    requires ControlInv(s) && s.start.Driving? && Gate(s.start.at) && Claim(s).Some? && GoodAnswers(s)
    ensures Onward(s, StartStep(s, Drawing(n)))
  {
    hide TeardownStep, RunPreflight, MoveTo;
    GoodProbesPass();
  }

  lemma LaunchingGoesOn(s: Session, n: nat)
    requires ControlInv(s) && s.start.Driving? && Launching(s.start.at) && Claim(s).Some?
    ensures Onward(s, StartStep(s, Drawing(n)))
  {
    hide TeardownStep, RunPreflight, StoreResult;
  }

  lemma DriveGoesOn(s: Session, n: nat)
    requires Safe(s) && s.start.Driving? && !s.start.at.RecordLaunch? && Claim(s).Some? && GoodAnswers(s)
    requires s.spec.host ==> s.spec.engine in s.backends
    ensures Onward(s, StartStep(s, Drawing(n)))
  {
    hide Onward, StartStep, GoodAnswers, ControlInv, DataInv, Claim;
    if Setup(s.start.at) {
      SetupGoesOn(s, n);
    } else if Opening(s.start.at) {
      OpeningGoesOn(s, n);
    } else if Gate(s.start.at) {
      GateGoesOn(s, n);
    } else {
      LaunchingGoesOn(s, n);
    }
  }

  // ---- its gateway calls ----------------------------------------------------------------

  function TaskLeft(g: CG.Shared, sid: SessionId): nat {
    var who := CG.OfSession(sid);
    if who !in g.tasks then 4
    else if g.tasks[who].StartingBackend? || g.tasks[who].LoadingRules? then 3
    else if g.tasks[who].RecordingRules? then 2
    else 1
  }

  lemma CallGoesOn(g: CG.Shared, sid: SessionId, s: Session, n: nat)
    requires Belongs(g, sid, s) && (s.start == Driving(ConfigureGateway) || s.start == Driving(ApplyPolicy))
    requires s.start == Driving(ApplyPolicy) ==> g.controller.config.Some?
    requires CG.OfSession(sid) in g.tasks ==> !Lost(g.tasks[CG.OfSession(sid)])
    ensures var t := Turn(g, sid, GatewayCall(s).value, Around(n).outcome);
            if t.done then t.answer.None?
            else
              && CG.OfSession(sid) in t.gateway.tasks && !Lost(t.gateway.tasks[CG.OfSession(sid)])
              && TaskLeft(t.gateway, sid) < TaskLeft(g, sid)
  {
    hide GC.Load;
    assert FailClosedPolicy(s.spec.Config()).Validates();
  }

  // ---- the same in the daemon --------------------------------------------------------------

  ghost predicate Fresh(y: Daemon, n: nat) {
    forall k: nat | k in y.tokens || k in y.vms || k in y.handles :: k < n
  }

  // Nobody but one session and its gateway call has moved, and no lock and no directory.
  ghost predicate Only(y: Daemon, y': Daemon, sid: SessionId) {
    && sid in y.sessions && sid in y'.sessions && y'.sessions == y.sessions[sid := y'.sessions[sid]]
    && y'.sessions[sid].spec == y.sessions[sid].spec && y'.backends == y.backends
    && y'.store.locks == y.store.locks && y'.store.profiles.Keys == y.store.profiles.Keys
    && (forall who | who != CG.OfSession(sid) ::
          (who in y'.gateway.tasks <==> who in y.gateway.tasks)
          && (who in y.gateway.tasks ==> y'.gateway.tasks[who] == y.gateway.tasks[who]))
  }

  function Rank(y: Daemon, sid: SessionId): nat
    requires sid in y.sessions
  {
    var s := y.sessions[sid];
    if s.start.Keying? then 200
    else if s.start.Driving? then 5 * Left(s.start.at) + (if GatewayCall(s).Some? then TaskLeft(y.gateway, sid) else 0)
    else 0
  }

  // The next step of a session in a run where nothing fails.
  function Move(sid: SessionId, n: nat): Input {
    Proceed(sid, Advance(Drawing(n)), Around(n))
  }

  ghost predicate Good(y: Daemon, n: nat) {
    Inv(y) && HostsAreWired(y) && Fresh(y, n)
  }

  // A session that holds its profile and does not browse yet gets one step closer.
  ghost predicate Closer(y: Daemon, y': Daemon, sid: SessionId) {
    && Only(y, y', sid) && Holds(y', sid, y.sessions[sid].spec.profile) && Rank(y', sid) < Rank(y, sid)
  }

  lemma KeyingGoesOn(y: Daemon, sid: SessionId, n: nat)
    requires Inv(y) && sid in y.sessions && y.sessions[sid].start.Keying?
    requires Holds(y, sid, y.sessions[sid].spec.profile)
    ensures Closer(y, Next(y, Move(sid, n)), sid)
  {
    hide Turn, DriveStep, TeardownStep, LocalInv, Apart, ClaimBacked, Recorded, StoreInv, CG.SharedInv;
    assert Belongs(y.gateway, sid, y.sessions[sid]);
  }

  // After a step of its drive a session is closer, with no task left at the gateway.
  lemma DrivenIsCloser(y: Daemon, y': Daemon, sid: SessionId)
    requires Only(y, y', sid) && Claim(y.sessions[sid]).Some? && Onward(y.sessions[sid], y'.sessions[sid])
    requires CG.OfSession(sid) !in y'.gateway.tasks
    ensures Closer(y, y', sid)
  {
    hide Claim, GatewayCall, RunPreflight, Left;
  }

  lemma OnlyMoves(y: Daemon, sid: SessionId, n: nat, g: CG.Shared)
    requires sid in y.sessions && StartStep(y.sessions[sid], Drawing(n)).spec == y.sessions[sid].spec
    requires Effect(y, sid, y.sessions[sid], Advance(Drawing(n)), Around(n))
             == (y.(gateway := g), Some(Advance(Drawing(n))))
    requires forall who | who != CG.OfSession(sid) ::
               (who in g.tasks <==> who in y.gateway.tasks) && (who in g.tasks ==> g.tasks[who] == y.gateway.tasks[who])
    ensures var y' := Next(y, Move(sid, n));
            Only(y, y', sid) && y'.gateway == g && y'.sessions[sid] == StartStep(y.sessions[sid], Drawing(n))
  {
    hide Effect, StartStep;
  }

  lemma DrivingGoesOn(y: Daemon, sid: SessionId, n: nat)
    requires Inv(y) && HostsAreWired(y) && sid in y.sessions && Holds(y, sid, y.sessions[sid].spec.profile)
    requires y.sessions[sid].start.Driving? && !y.sessions[sid].start.at.RecordLaunch?
             && GatewayCall(y.sessions[sid]).None?
    ensures Closer(y, Next(y, Move(sid, n)), sid)
  {
    hide Turn, StartStep, LocalInv, Apart, ClaimBacked, StoreInv, CG.SharedInv, Claim, RunPreflight, TaskFits,
         GatewayCall, Closer, Onward, Left, Next, Only;
    var s := y.sessions[sid];
    assert Belongs(y.gateway, sid, s) && Recorded(y, s) && LocalInv(s);
    LocalParts(s);
    DriveGoesOn(s, n);
    StepMoves(s, Advance(Drawing(n)));
    if CG.OfSession(sid) in y.gateway.tasks {
      TaskMeansCall(y.gateway, s, y.gateway.tasks[CG.OfSession(sid)]);
    }
    OnlyMoves(y, sid, n, y.gateway);
    DrivenIsCloser(y, Next(y, Move(sid, n)), sid);
  }

  lemma AwaitingGoesOn(y: Daemon, sid: SessionId, n: nat)
    requires Inv(y) && sid in y.sessions && Holds(y, sid, y.sessions[sid].spec.profile)
    requires GatewayCall(y.sessions[sid]).Some?
    requires !Turn(y.gateway, sid, GatewayCall(y.sessions[sid]).value, Around(n).outcome).done
    ensures Closer(y, Next(y, Move(sid, n)), sid)
  {
    hide Turn, StartStep, LocalInv, Apart, ClaimBacked, StoreInv, CG.SharedInv, Claim, RunPreflight, TaskFits, Lost;
    var s := y.sessions[sid];
    assert Belongs(y.gateway, sid, s) && Recorded(y, s);
    CallingClaims(s);
    CallGoesOn(y.gateway, sid, s, n);
    EffectAtGateway(y, sid, s, Drawing(n), Around(n));
    EffectKeepsGateway(y, sid, s, Advance(Drawing(n)), Around(n));
    assert Next(y, Move(sid, n)).sessions == y.sessions[sid := s];
  }

  lemma AnsweredGoesOn(y: Daemon, sid: SessionId, n: nat)
    requires Inv(y) && HostsAreWired(y) && sid in y.sessions && Holds(y, sid, y.sessions[sid].spec.profile)
    requires GatewayCall(y.sessions[sid]).Some?
    requires Turn(y.gateway, sid, GatewayCall(y.sessions[sid]).value, Around(n).outcome).done
    ensures Closer(y, Next(y, Move(sid, n)), sid)
  {
    hide Turn, StartStep, LocalInv, Apart, ClaimBacked, StoreInv, CG.SharedInv, Claim, RunPreflight, TaskFits, Lost,
         GatewayCall, Left, Closer, Onward, Effect, Next, Only;
    var s := y.sessions[sid];
    assert Belongs(y.gateway, sid, s) && Recorded(y, s) && LocalInv(s);
    LocalParts(s);
    CallingClaims(s);
    CallGoesOn(y.gateway, sid, s, n);
    EffectAtGateway(y, sid, s, Drawing(n), Around(n));
    EffectKeepsGateway(y, sid, s, Advance(Drawing(n)), Around(n));
    assert Drawing(n).(fault := None) == Drawing(n);
    DriveGoesOn(s, n);
    StepMoves(s, Advance(Drawing(n)));
    OnlyMoves(y, sid, n, Effect(y, sid, s, Advance(Drawing(n)), Around(n)).0.gateway);
    DrivenIsCloser(y, Next(y, Move(sid, n)), sid);
  }

  lemma StepsOn(y: Daemon, sid: SessionId, n: nat)
    requires Good(y, n) && sid in y.sessions && Holds(y, sid, y.sessions[sid].spec.profile)
    requires !IsBrowsing(y.sessions[sid])
    ensures var y' := Next(y, Move(sid, n));
            Admissible(y, Move(sid, n)) && Good(y', n + 1) && Closer(y, y', sid)
  {
    hide Inv, Next, Hopeful, Closer;
    var s := y.sessions[sid];
    NextIsGood(y, sid, n);
    HoldersStand(y, sid);
    if s.start.Keying? {
      KeyingGoesOn(y, sid, n);
    } else if GatewayCall(s).Some? {
      if Turn(y.gateway, sid, GatewayCall(s).value, Around(n).outcome).done {
        AnsweredGoesOn(y, sid, n);
      } else {
        AwaitingGoesOn(y, sid, n);
      }
    } else {
      DrivingGoesOn(y, sid, n);
    }
  }

  lemma NextIsGood(y: Daemon, sid: SessionId, n: nat)
    requires Good(y, n) && sid in y.sessions
    ensures Admissible(y, Move(sid, n)) && Good(Next(y, Move(sid, n)), n + 1)
  {
    hide Inv, Effect, Step, Hopeful, KeepsUnreadable, Acquires, Tears, GivesBack;
    assert Admissible(y, Move(sid, n));
    NextKeepsInv(y, Move(sid, n));
    ProceedTurns(y, sid, Advance(Drawing(n)), Around(n));
    EffectDraws(y, sid, n);
  }

  lemma EffectDraws(y: Daemon, sid: SessionId, n: nat)
    requires sid in y.sessions
    ensures var y' := Next(y, Move(sid, n));
            y'.tokens == y.tokens + {n} && y'.vms == y.vms + {n} && y'.handles == y.handles + {n}
  {
    hide Turn, Step;
  }

  lemma HoldersStand(y: Daemon, sid: SessionId)
    requires Inv(y) && sid in y.sessions && Holds(y, sid, y.sessions[sid].spec.profile) && !IsBrowsing(y.sessions[sid])
    ensures var s := y.sessions[sid]; s.start.Keying? || (s.start.Driving? && !s.start.at.RecordLaunch?)
  {
    hide Apart, ClaimBacked, Recorded, StoreInv, GatewayInv, LocalInv, Hopeful;
    var s := y.sessions[sid];
    assert LocalInv(s);
    LocalParts(s);
    HopefulClaims(y.gateway, sid, s);
    ClaimingDrives(s);
  }

  lemma ClaimingDrives(s: Session)
    requires ControlInv(s) && Claim(s).Some? && !IsBrowsing(s)
    ensures s.start.Keying? || (s.start.Driving? && !s.start.at.RecordLaunch?)
  {}

  ghost predicate AllBy(inputs: seq<Input>, sid: SessionId) {
    forall i | i in inputs :: i.Proceed? && i.sid == sid
  }

  // So it comes to browse, with nobody else moving.
  lemma {:induction false} BrowsesInTheEnd(y: Daemon, sid: SessionId, n: nat) returns (more: seq<Input>, m: nat)
    requires Good(y, n) && sid in y.sessions && Holds(y, sid, y.sessions[sid].spec.profile)
    ensures AllAdmissible(y, more) && AllBy(more, sid)
    ensures var y' := After(y, more); Good(y', m) && Only(y, y', sid) && IsBrowsing(y'.sessions[sid])
    decreases Rank(y, sid)
  {
    hide Good, Next, Hopeful, Inv, Rank, Only, IsBrowsing;
    more, m := [], n;
    if IsBrowsing(y.sessions[sid]) {
      OnlyItself(y, sid);
    } else {
      StepsOn(y, sid, n);
      var y' := Next(y, Move(sid, n));
      assert sid in y'.sessions && y'.sessions[sid].spec == y.sessions[sid].spec by { SameSpec(y, y', sid); }
      more, m := BrowsesInTheEnd(y', sid, n + 1);
      OnlyTwice(y, y', After(y', more), sid);
      more := [Move(sid, n)] + more;
    }
  }

  lemma OnlyItself(y: Daemon, sid: SessionId)
    requires sid in y.sessions
    ensures Only(y, y, sid)
  {
    assert y.sessions == y.sessions[sid := y.sessions[sid]];
  }

  lemma SameSpec(y: Daemon, y': Daemon, sid: SessionId)
    requires Only(y, y', sid)
    ensures sid in y'.sessions && y'.sessions[sid].spec == y.sessions[sid].spec
  {}

  lemma OnlyTwice(y: Daemon, y': Daemon, z: Daemon, sid: SessionId)
    requires Only(y, y', sid) && Only(y', z, sid)
    ensures Only(y, z, sid)
  {
    assert y.sessions[sid := y'.sessions[sid]][sid := z.sessions[sid]] == y.sessions[sid := z.sessions[sid]];
  }

  // ---- and a second one after it ------------------------------------------------------------

  // Where the directory is there and the lock is free, a waiting start takes it.
  lemma TakesFreeLock(y: Daemon, j: SessionId, p: ProfileId, n: nat)
    requires Good(y, n) && Waits(y, j, p) && p in y.store.profiles && p !in y.store.locks
    ensures var y' := Next(y, Move(j, n));
            && Admissible(y, Move(j, n)) && Good(y', n + 1) && Holds(y', j, p)
            && y'.sessions == y.sessions[j := y'.sessions[j]]
  {
    hide Inv, Turn, DriveStep, TeardownStep, HostsAreWired;
    NextIsGood(y, j, n);
    WaitingHasNoTask(y, j);
  }

  lemma WaitingHasNoTask(y: Daemon, j: SessionId)
    requires Inv(y) && j in y.sessions && y.sessions[j].start.Locking?
    ensures CG.OfSession(j) !in y.gateway.tasks
  {
    hide Apart, ClaimBacked, Recorded, StoreInv, LocalInv, CG.SharedInv;
    assert Belongs(y.gateway, j, y.sessions[j]);
  }

  lemma {:induction false} RunsJoin(y: Daemon, a: seq<Input>, b: seq<Input>)
    requires AllAdmissible(y, a) && AllAdmissible(After(y, a), b)
    ensures AllAdmissible(y, a + b) && After(y, a + b) == After(After(y, a), b)
    decreases |a|
  {
    hide Next, Admissible;
    if a == [] {
      assert a + b == b;
    } else {
      RunsJoin(Next(y, a[0]), a[1..], b);
      assert (a + b)[0] == a[0] && (a + b)[1..] == a[1..] + b;
    }
  }

  lemma FreshFrom(y: Daemon) returns (n: nat)
    ensures Fresh(y, n)
  {
    var a := SessionRaces.Bounded(y.tokens);
    var b := SessionRaces.Bounded(y.vms);
    var c := SessionRaces.Bounded(y.handles);
    n := a + b + c;
  }

  ghost predicate Browses(y: Daemon, i: SessionId, p: ProfileId) {
    i in y.sessions && y.sessions[i].spec.profile == p && IsBrowsing(y.sessions[i])
  }

  ghost predicate TwoBrowse(y: Daemon, p: ProfileId) {
    exists i, j :: i != j && Browses(y, i, p) && Browses(y, j, p)
  }

  // The lock of p is not freed by a halted deletion again.
  ghost predicate FreedNoMore(inputs: seq<Input>, p: ProfileId) {
    forall i | i in inputs :: !FreesLock(i, p)
  }

  // With the lock free and the directory there, a holder and a waiter come to browse both.
  lemma BothBrowse(y: Daemon, p: ProfileId, i: SessionId, j: SessionId, n: nat) returns (more: seq<Input>)
    requires Good(y, n) && p in y.store.profiles && p !in y.store.locks
    requires Holds(y, i, p) && Waits(y, j, p) && i != j
    ensures AllAdmissible(y, more) && FreedNoMore(more, p) && TwoBrowse(After(y, more), p)
  {
    hide Good, Next, Hopeful, Inv, IsBrowsing, AllAdmissible, Admissible;
    var first, m := BrowsesInTheEnd(y, i, n);
    var y1 := After(y, first);
    assert y1.sessions[j] == y.sessions[j] && y1.sessions[i].spec == y.sessions[i].spec;
    TakesFreeLock(y1, j, p, m);
    var y2 := Next(y1, Move(j, m));
    var second, k := BrowsesInTheEnd(y2, j, m + 1);
    var y3 := After(y2, second);
    assert y3.sessions[i] == y1.sessions[i];
    assert Browses(y3, i, p) && Browses(y3, j, p);
    StepThen(y1, Move(j, m), second);
    RunsJoin(y, first, [Move(j, m)] + second);
    more := first + ([Move(j, m)] + second);
  }

  lemma StepThen(y: Daemon, i: Input, rest: seq<Input>)
    requires Admissible(y, i) && AllAdmissible(Next(y, i), rest)
    ensures AllAdmissible(y, [i] + rest) && After(y, [i] + rest) == After(Next(y, i), rest)
  {
    hide Next, Admissible;
    assert ([i] + rest)[1..] == rest;
  }

  lemma ContestAdmitsBoth(y: Daemon, p: ProfileId, metaRemoved: bool) returns (more: seq<Input>)
    requires Inv(y) && HostsAreWired(y) && Contest(y, p)
    ensures var y' := Next(y, DeleteProfile(p, HaltedRemoving(metaRemoved, true)));
            AllAdmissible(y', more) && FreedNoMore(more, p) && TwoBrowse(After(y', more), p)
  {
    hide Inv, HostsAreWired, Hopeful, FreedNoMore, AllAdmissible, TwoBrowse;
    var i, j :| Holds(y, i, p) && Waits(y, j, p);
    HolderIsNoWaiter(y, i, p);
    var n := FreshFrom(y);
    var d := DeleteProfile(p, HaltedRemoving(metaRemoved, true));
    var y' := Next(y, d);
    NextKeepsInv(y, d);
    assert Fresh(y', n);
    assert HostsAreWired(y') by { StillWired(y, y'); }
    more := BothBrowse(y', p, i, j, n);
  }

  lemma StillWired(y: Daemon, y': Daemon)
    requires HostsAreWired(y) && y'.sessions == y.sessions && y'.backends == y.backends
    ensures HostsAreWired(y')
  {}

  lemma HolderIsNoWaiter(y: Daemon, i: SessionId, p: ProfileId)
    requires Inv(y) && Holds(y, i, p)
    ensures !Waits(y, i, p)
  {
    hide Apart, ClaimBacked, Recorded, StoreInv, GatewayInv;
    assert LocalInv(y.sessions[i]);
  }

  lemma {:induction false} FreedNoMoreContests(y: Daemon, done: set<ProfileId>, inputs: seq<Input>, p: ProfileId)
    requires FreedNoMore(inputs, p)
    ensures p in Contested(y, done, inputs) <==> p in done
    decreases |inputs|
  {
    hide Next, Contest;
    if inputs != [] {
      assert !FreesLock(inputs[0], p) && forall i | i in inputs[1..] :: i in inputs;
      FreedNoMoreContests(Next(y, inputs[0]), done + ContestedBy(y, inputs[0]), inputs[1..], p);
    }
  }

  lemma TwoHoldersContested(y: Daemon, done: set<ProfileId>, i: SessionId, j: SessionId, p: ProfileId)
    requires ExclusionInv(y, done) && Holds(y, i, p) && Holds(y, j, p) && i != j
    ensures p in done
  {
    hide Hopeful;
    assert Excludes(y, done, i, j);
  }

  lemma UncontestedStaysSingle(y: Daemon, done: set<ProfileId>, inputs: seq<Input>, p: ProfileId)
    requires Inv(y) && ExclusionInv(y, done) && AllAdmissible(y, inputs) && FreedNoMore(inputs, p) && p !in done
    ensures !TwoBrowse(After(y, inputs), p)
  {
    hide Inv, Contested, Hopeful, IsBrowsing, FreedNoMore;
    RunKeepsExclusion(y, done, inputs);
    FreedNoMoreContests(y, done, inputs, p);
    var z := After(y, inputs);
    if i, j :| i != j && Browses(z, i, p) && Browses(z, j, p) {
      BrowsingHolds(z, i);
      BrowsingHolds(z, j);
      TwoHoldersContested(z, Contested(y, done, inputs), i, j, p);
    }
  }

  // From every reachable state: a deletion that halts, having removed a profile's lock
  // file, lets two sessions of the profile come to browse if and only if just then one
  // session held the profile and another had read it and was waiting for its lock.
  lemma SecondBrowserIff(backends: set<Engine>, inputs: seq<Input>, p: ProfileId, metaRemoved: bool)
    requires AllAdmissible(Boot(backends), inputs) && p in After(Boot(backends), inputs).store.profiles
    requires p !in Contested(Boot(backends), {}, inputs)
    ensures var y := After(Boot(backends), inputs);
            var y' := Next(y, DeleteProfile(p, HaltedRemoving(metaRemoved, true)));
            Contest(y, p) <==>
            exists more :: AllAdmissible(y', more) && FreedNoMore(more, p) && TwoBrowse(After(y', more), p)
  {
    hide Inv, Next, Contested, TwoBrowse, FreedNoMore, AllAdmissible, After;
    var y, done := After(Boot(backends), inputs), Contested(Boot(backends), {}, inputs);
    var d := DeleteProfile(p, HaltedRemoving(metaRemoved, true));
    InvAtBoot(backends);
    RunKeepsExclusion(Boot(backends), {}, inputs);
    if Contest(y, p) {
      var more := ContestAdmitsBoth(y, p, metaRemoved);
    } else {
      NextKeepsInv(y, d);
      InputKeepsExclusion(y, done, d);
      forall more | AllAdmissible(Next(y, d), more) && FreedNoMore(more, p)
        ensures !TwoBrowse(After(Next(y, d), more), p)
      {
        UncontestedStaysSingle(Next(y, d), done + ContestedBy(y, d), more, p);
      }
    }
  }

  // Such a contest arises for every profile whose start is admitted at all: two starts
  // read it and one of them takes the lock.
  lemma ContestArises(backends: set<Engine>, spec: Spec, meta: Metadata) returns (inputs: seq<Input>)
    requires meta.Metadata? && (spec.host ==> spec.engine in backends)
    ensures AllAdmissible(Boot(backends), inputs) && Contest(After(Boot(backends), inputs), spec.profile)
    ensures Contested(Boot(backends), {}, inputs) == {}
  {
    var p, s := spec.profile, NewSession(spec, backends);
    var y0 := Boot(backends);
    var y1 := Next(y0, CreateProfile(p, meta));
    var y2 := Next(y1, BeginStart(0, spec, true));
    var y3 := Next(y2, BeginStart(1, spec, true));
    var y4 := Next(y3, Move(0, 0));
    assert y3.sessions == map[0 := s, 1 := s] && y3.store == Store(map[p := meta], map[]);
    assert y4.sessions == map[0 := StartStep(s, Drawing(0).(lock := Ok(Lease(p, 0)))), 1 := s];
    assert Holds(y4, 0, p) && Waits(y4, 1, p);
    inputs := [];
    hide Next;
    StepThen(y3, Move(0, 0), []);
    StepThen(y2, BeginStart(1, spec, true), [Move(0, 0)]);
    StepThen(y1, BeginStart(0, spec, true), [BeginStart(1, spec, true)] + [Move(0, 0)]);
    inputs := [BeginStart(0, spec, true)] + ([BeginStart(1, spec, true)] + [Move(0, 0)]);
    StepThen(y0, CreateProfile(p, meta), inputs);
    inputs := [CreateProfile(p, meta)] + inputs;
    assert forall i | i in inputs :: !i.DeleteProfile?;
    NothingDeleted(y0, {}, inputs);
  }

  lemma {:induction false} NothingDeleted(y: Daemon, done: set<ProfileId>, inputs: seq<Input>)
    requires forall i | i in inputs :: !i.DeleteProfile?
    ensures Contested(y, done, inputs) == done
    decreases |inputs|
  {
    hide Next, Contest;
    if inputs != [] {
      assert inputs[0] in inputs;
      NothingDeleted(Next(y, inputs[0]), done, inputs[1..]);
      assert done + ContestedBy(y, inputs[0]) == done;
    }
  }

  // So the exception is real: after one such deletion two sessions of the profile browse.
  lemma HaltedDeletionAdmitsASecondBrowser(backends: set<Engine>, spec: Spec, meta: Metadata, metaRemoved: bool)
    returns (inputs: seq<Input>)
    requires meta.Metadata? && (spec.host ==> spec.engine in backends)
    ensures AllAdmissible(Boot(backends), inputs) && TwoBrowse(After(Boot(backends), inputs), spec.profile)
  {
    hide Next, TwoBrowse;
    var before := ContestArises(backends, spec, meta);
    var y, d := After(Boot(backends), before), DeleteProfile(spec.profile, HaltedRemoving(metaRemoved, true));
    InvAtBoot(backends);
    RunKeepsExclusion(Boot(backends), {}, before);
    var more := ContestAdmitsBoth(y, spec.profile, metaRemoved);
    StepThen(y, d, more);
    RunsJoin(Boot(backends), before, [d] + more);
    inputs := before + ([d] + more);
  }
}
