// What a start has done by the time its session browses, in any run of the daemon.
module SessionStory {
  import opened Errors
  import opened Preflight
  import opened Firewall
  import opened ProfileStore
  import opened SessionMachine
  import opened SessionSafety
  import opened SessionOrder
  import opened SessionGateway
  import opened SessionSystem
  import opened SessionRoute

  // The deeds of one input, and of a whole run.
  ghost function DeedsIn(y: Daemon, i: Input, sid: SessionId): seq<Deed> {
    if i.Proceed? && i.sid == sid && sid in y.sessions then
      var a := Effect(y, sid, y.sessions[sid], i.action, i.env).1;
      if a.None? then GatewayDeed(y.gateway, Next(y, i).gateway, sid)
      else if a.value.Advance? then StartDeed(y.sessions[sid], a.value.o, Step(y.sessions[sid], a.value))
      else []
    else []
  }

  ghost function DeedsOf(y: Daemon, done: seq<Deed>, inputs: seq<Input>, sid: SessionId): seq<Deed>
    decreases |inputs|
  {
    if inputs == [] then done
    else DeedsOf(Next(y, inputs[0]), done + DeedsIn(y, inputs[0], sid), inputs[1..], sid)
  }

  // ---- and every input of the daemon ------------------------------------------------------------------

  ghost predicate Told(y: Daemon, deeds: seq<Deed>, sid: SessionId) {
    if sid in y.sessions then OnRoute(y.gateway, sid, y.sessions[sid], deeds) else deeds == []
  }

  // While a start waits for the gateway.
  lemma WaitingKeepsRoute(y: Daemon, sid: SessionId, a: Action, env: Environment, deeds: seq<Deed>)
    requires Inv(y) && sid in y.sessions && OnRoute(y.gateway, sid, y.sessions[sid], deeds)
    requires Effect(y, sid, y.sessions[sid], a, env).1.None?
    ensures var g' := Effect(y, sid, y.sessions[sid], a, env).0.gateway;
            OnRoute(g', sid, y.sessions[sid], deeds + GatewayDeed(y.gateway, g', sid))
  {
    hide LocalInv, StoreInv, ClaimBacked, Apart, CG.SharedInv, Belongs, Turn, OnWay, Sound, RowHolds, LastLinks,
         CallDeeds, Effect, GatewayDeed, KindOf;
    var s := y.sessions[sid];
    assert LocalInv(s) && Recorded(y, s) && Belongs(y.gateway, sid, s);
    EffectMovesLocks(y, sid, s, a, env) by { StoreIsSound(y); }
    EffectAtGateway(y, sid, s, a.o, env);
    var g' := Turn(y.gateway, sid, GatewayCall(s).value, env.outcome).gateway;
    CallsAreVm(s);
    if s.start.Failing? {
      FailingAddsNothing(y.gateway, sid, s, env.outcome);
      assert deeds + [] == deeds;
    } else {
      if s.start == Driving(ConfigureGateway) {
        ConfigureMoves(y.gateway, sid, s, env.outcome);
      } else {
        ApplyMoves(y.gateway, sid, s, env.outcome);
      }
      CallDeedKeepsRoute(y.gateway, g', sid, s, s.start.at, deeds);
    }
  }

  lemma StoreIsSound(y: Daemon)
    requires StoreInv(y)
    ensures ValidStore(y.store)
  {}

  lemma CallsAreVm(s: Session)
    requires LocalInv(s) && GatewayCall(s).Some?
    ensures s.start.Failing? || s.start == Driving(ConfigureGateway) || s.start == Driving(ApplyPolicy)
    ensures s.start.Driving? ==> !s.spec.host && s.entry.Some?
  {
    hide DataInv;
    assert Safe(s);
  }

  lemma FailingAddsNothing(g: CG.Shared, sid: SessionId, s: Session, o: CG.Outcome)
    requires Belongs(g, sid, s) && s.start.Failing? && GatewayCall(s).Some?
    ensures GatewayDeed(g, Turn(g, sid, GatewayCall(s).value, o).gateway, sid) == []
  {
    hide Compile, KillSwitchRuleset;
  }

  lemma CallDeedKeepsRoute(g: CG.Shared, g': CG.Shared, sid: SessionId, s: Session, at: Drive, deeds: seq<Deed>)
    requires s.entry.Some? && s.start == Driving(at) && (at.ConfigureGateway? || at.ApplyPolicy?)
    requires OnRoute(g, sid, s, deeds) && NextCallDeed(g, g', sid, s, at)
    ensures OnRoute(g', sid, s, deeds + GatewayDeed(g, g', sid))
  {
    hide OnWay, Sound, CallDeeds, GatewayDeed, KindOf, Position, Route, InRow;
    var d, n := GatewayDeed(g, g', sid), Position(s.spec.host, at) + CallDeeds(g, sid, at);
    CallsLinkNothing(deeds + d, at);
    if d == [] {
      assert deeds + d == deeds;
    } else {
      assert d == [d[0]];
      OneMoreDeed(s.spec, deeds, n, d[0]);
      NoRowDeed(d[0]);
    }
  }

  lemma NoRowDeed(d: Deed)
    requires !d.Passed?
    ensures forall e :: InRow(e, d)
  {}

  // What own-task facts a step of the session needs.
  lemma TaskAtStep(y: Daemon, sid: SessionId, a: Action, env: Environment)
    requires Inv(y) && sid in y.sessions && Effect(y, sid, y.sessions[sid], a, env).1.Some? && a.Advance?
    ensures var s, g' := y.sessions[sid], Effect(y, sid, y.sessions[sid], a, env).0.gateway;
            && CG.OfSession(sid) !in g'.tasks
            && (GatewayCall(s).None? ==>
                  CG.OfSession(sid) !in y.gateway.tasks
                  && (s.start.Driving? ==> CallDeeds(y.gateway, sid, s.start.at) == 0))
  {
    hide LocalInv, StoreInv, ClaimBacked, Apart, CG.SharedInv, Turn, TaskFits, Effect;
    var s := y.sessions[sid];
    assert Belongs(y.gateway, sid, s) && Recorded(y, s);
    EffectKeepsGateway(y, sid, s, a, env);
    if CG.OfSession(sid) in y.gateway.tasks {
      TaskMeansCall(y.gateway, s, y.gateway.tasks[CG.OfSession(sid)]);
    }
  }

  // An answered call has left all its deeds, or fails the start.
  lemma AnswerMeansAll(y: Daemon, sid: SessionId, a: Action, env: Environment)
    requires Inv(y) && sid in y.sessions && y.sessions[sid].start.Driving? && a.Advance?
    requires Effect(y, sid, y.sessions[sid], a, env).1.Some?
    ensures var s, a' := y.sessions[sid], Effect(y, sid, y.sessions[sid], a, env).1.value;
            && a'.Advance?
            && (StartStep(s, a'.o).start.Failing?
                || CallDeeds(y.gateway, sid, s.start.at) == Stride(s.start.at) - 1)
  {
    hide LocalInv, StoreInv, ClaimBacked, Apart, CG.SharedInv, TaskFits, Effect, StartStep, Turn;
    var s := y.sessions[sid];
    if GatewayCall(s).Some? {
      EffectAtGateway(y, sid, s, a.o, env);
      CallsAnsweredAt(y.gateway, sid, s, a.o, env.outcome);
    } else {
      assert Belongs(y.gateway, sid, s);
      TaskAtStep(y, sid, a, env);
      EffectMovesLocks(y, sid, s, a, env) by { StoreIsSound(y); }
    }
  }

  lemma CallsAnsweredAt(g: CG.Shared, sid: SessionId, s: Session, o: Oracle, outcome: CG.Outcome)
    requires s.start.Driving? && GatewayCall(s).Some? && Turn(g, sid, GatewayCall(s).value, outcome).done
    ensures var t := Turn(g, sid, GatewayCall(s).value, outcome);
            || StartStep(s, o.(fault := t.answer)).start.Failing?
            || CallDeeds(g, sid, s.start.at) == Stride(s.start.at) - 1
  {
    hide RunPreflight, TeardownStep, StoreResult, MoveTo;
  }

  lemma ProceedKeepsRoute(y: Daemon, sid: SessionId, a: Action, env: Environment, deeds: seq<Deed>)
    requires Inv(y) && sid in y.sessions && OnRoute(y.gateway, sid, y.sessions[sid], deeds)
    ensures var i := Proceed(sid, a, env); Told(Next(y, i), deeds + DeedsIn(y, i, sid), sid)
  {
    hide LocalInv, StoreInv, ClaimBacked, Apart, CG.SharedInv, TaskFits, Effect, StartStep, StopStep, OnRoute, Turn,
         GatewayDeed, CallDeeds, Recorded, Belongs;
    var s := y.sessions[sid];
    assert LocalInv(s) && Recorded(y, s) && Belongs(y.gateway, sid, s);
    LocalIsSafe(s);
    var (y1, a') := Effect(y, sid, s, a, env);
    var y' := Next(y, Proceed(sid, a, env));
    EffectMovesLocks(y, sid, s, a, env) by { StoreIsSound(y); }
    assert y'.gateway == y1.gateway;
    if a'.None? {
      WaitingKeepsRoute(y, sid, a, env, deeds);
    } else if !a.Advance? {
      EffectElsewhere(y, sid, s, a, env);
      StopKeepsRoute(y.gateway, sid, s, a, deeds);
      assert deeds + [] == deeds;
    } else {
      TaskAtStep(y, sid, a, env);
      if s.start.Driving? {
        AnswerMeansAll(y, sid, a, env);
        DriveKeepsRoute(y.gateway, y1.gateway, sid, s, a'.value.o, deeds);
      } else {
        OutsideDriveKeepsRoute(y.gateway, y1.gateway, sid, s, a'.value.o, deeds);
        assert deeds + [] == deeds;
      }
    }
  }

  lemma LocalIsSafe(s: Session)
    requires LocalInv(s)
    ensures Safe(s)
  {}

  lemma StopKeepsRoute(g: CG.Shared, sid: SessionId, s: Session, a: Action, deeds: seq<Deed>)
    requires Safe(s) && !a.Advance? && OnRoute(g, sid, s, deeds)
    ensures OnRoute(g, sid, Step(s, a), deeds)
  {
    hide OnWay, GaveUpOn, RowHolds, StopStep, Safe, LastLinks, CallDeeds;
    StopsLeaveTheStart(s, a);
    if deeds != [] {
      RowsStay(s, a);
    }
    if s.start.Driving? || s.start == Done(None) {
      StopsKeepRow(s, a, deeds);
    }
  }

  // Inputs about others leave the session and its task alone.
  lemma OtherInputsKeepRoute(y: Daemon, i: Input, sid: SessionId, deeds: seq<Deed>)
    requires Inv(y) && Admissible(y, i) && sid in y.sessions && OnRoute(y.gateway, sid, y.sessions[sid], deeds)
    requires !(i.Proceed? && i.sid == sid)
    ensures Told(Next(y, i), deeds, sid)
  {
    hide LocalInv, StoreInv, ClaimBacked, Apart, CG.SharedInv, TaskFits, Effect, Step, OnWay, RowHolds, GaveUpOn,
         LastLinks, CG.TaskStep, CG.Begin, Belongs, Recorded;
    var y' := Next(y, i);
    if i.Proceed? && i.sid in y.sessions {
      assert Belongs(y.gateway, i.sid, y.sessions[i.sid]) && Recorded(y, y.sessions[i.sid]);
      EffectKeepsGateway(y, i.sid, y.sessions[i.sid], i.action, i.env);
      EffectMovesLocks(y, i.sid, y.sessions[i.sid], i.action, i.env) by { StoreIsSound(y); }
    }
    assert y'.sessions[sid] == y.sessions[sid];
    SameTaskSameRoute(y.gateway, y'.gateway, sid, y.sessions[sid], deeds);
  }

  lemma SameTaskSameRoute(g: CG.Shared, g': CG.Shared, sid: SessionId, s: Session, deeds: seq<Deed>)
    requires OnRoute(g, sid, s, deeds)
    requires CG.OfSession(sid) in g'.tasks <==> CG.OfSession(sid) in g.tasks
    requires CG.OfSession(sid) in g.tasks ==> g'.tasks[CG.OfSession(sid)] == g.tasks[CG.OfSession(sid)]
    ensures OnRoute(g', sid, s, deeds)
  {
    hide OnWay, RowHolds, GaveUpOn, LastLinks;
  }

  lemma BegunIsTold(y: Daemon, i: Input, sid: SessionId)
    requires sid !in y.sessions
    ensures Told(Next(y, i), [], sid) && DeedsIn(y, i, sid) == []
  {
    hide Effect, Step, CG.MoveOn;
    if i.Proceed? && i.sid in y.sessions {
      EffectKeepsOthers(y, i.sid, y.sessions[i.sid], i.action, i.env);
    }
  }

  lemma EffectKeepsOthers(y: Daemon, sid: SessionId, s: Session, a: Action, env: Environment)
    ensures Effect(y, sid, s, a, env).0.sessions == y.sessions
  {
    hide Turn;
  }

  lemma {:induction false} InputsKeepTold(y: Daemon, deeds: seq<Deed>, inputs: seq<Input>, sid: SessionId)
    requires Inv(y) && AllAdmissible(y, inputs) && Told(y, deeds, sid)
    ensures Told(After(y, inputs), DeedsOf(y, deeds, inputs, sid), sid)
    decreases |inputs|
  {
    hide Inv, Next, Admissible, OnRoute;
    if inputs != [] {
      NextKeepsInv(y, inputs[0]);
      if sid !in y.sessions {
        BegunIsTold(y, inputs[0], sid);
        assert deeds + [] == [];
      } else if inputs[0].Proceed? && inputs[0].sid == sid {
        ProceedKeepsRoute(y, sid, inputs[0].action, inputs[0].env, deeds);
      } else {
        OtherInputsKeepRoute(y, inputs[0], sid, deeds);
        assert deeds + [] == deeds;
      }
      InputsKeepTold(Next(y, inputs[0]), deeds + DeedsIn(y, inputs[0], sid), inputs[1..], sid);
    }
  }

  // ---- what the controller has accepted -------------------------------------------------------------------

  // The configurations a start's calls held, or loaded rules under.
  ghost predicate AllAccepted(y: Daemon, deeds: seq<Deed>) {
    forall d | d in deeds ::
      (d.ConfigHeld? || d.RulesLoaded? ==> d.config in y.gateway.controller.accepted)
  }

  lemma InputGrowsGateway(y: Daemon, i: Input)
    requires Inv(y) && Admissible(y, i)
    ensures CG.Grows(y.gateway.controller, Next(y, i).gateway.controller)
  {
    hide LocalInv, StoreInv, ClaimBacked, Apart, CG.SharedInv, Effect, Step, Belongs, Recorded, CG.MoveOn, CG.Grows;
    CG.NothingGrows(y.gateway.controller);
    match i {
      case Proceed(sid, action, env) =>
        if sid in y.sessions {
          assert Belongs(y.gateway, sid, y.sessions[sid]) && Recorded(y, y.sessions[sid]);
          EffectKeepsGateway(y, sid, y.sessions[sid], action, env);
        }
      case MoveGateway(move) => CG.MoveKeepsInv(y.gateway, move);
      case _ =>
    }
  }

  lemma DeedIsAccepted(g: CG.Shared, g': CG.Shared, sid: SessionId)
    requires CG.SharedInv(g) && CG.SharedInv(g') && CG.Grows(g.controller, g'.controller)
    ensures forall d | d in GatewayDeed(g, g', sid) ::
              (d.ConfigHeld? || d.RulesLoaded? ==> d.config in g'.controller.accepted)
  {
    hide Compile, KillSwitchRuleset;
  }

  lemma InputKeepsAccepted(y: Daemon, i: Input, sid: SessionId, deeds: seq<Deed>)
    requires Inv(y) && Admissible(y, i) && AllAccepted(y, deeds)
    ensures AllAccepted(Next(y, i), deeds + DeedsIn(y, i, sid))
  {
    hide LocalInv, StoreInv, ClaimBacked, Apart, CG.SharedInv, Effect, Step, Belongs, Recorded, GatewayDeed, Next;
    var y' := Next(y, i);
    InputGrowsGateway(y, i);
    NextKeepsInv(y, i);
    DeedIsAccepted(y.gateway, y'.gateway, sid);
    assert y.gateway.controller.accepted <= y'.gateway.controller.accepted;
  }

  lemma {:induction false} InputsKeepAccepted(y: Daemon, deeds: seq<Deed>, inputs: seq<Input>, sid: SessionId)
    requires Inv(y) && AllAdmissible(y, inputs) && AllAccepted(y, deeds)
    ensures AllAccepted(After(y, inputs), DeedsOf(y, deeds, inputs, sid))
    decreases |inputs|
  {
    hide Inv, Next, Admissible, AllAccepted, DeedsIn;
    if inputs != [] {
      NextKeepsInv(y, inputs[0]);
      InputKeepsAccepted(y, inputs[0], sid, deeds);
      InputsKeepAccepted(Next(y, inputs[0]), deeds + DeedsIn(y, inputs[0], sid), inputs[1..], sid);
    }
  }

  // ---- the main results ---------------------------------------------------------------------------------

  ghost function Story(backends: set<Engine>, inputs: seq<Input>, sid: SessionId): seq<Deed> {
    DeedsOf(Boot(backends), [], inputs, sid)
  }

  lemma StoryIsOnRoute(backends: set<Engine>, inputs: seq<Input>, sid: SessionId)
    requires AllAdmissible(Boot(backends), inputs)
    ensures Inv(After(Boot(backends), inputs))
    ensures Told(After(Boot(backends), inputs), Story(backends, inputs, sid), sid)
  {
    hide Inv, OnRoute, Next, Admissible, DeedsIn;
    ReachableIsInv(backends, []);
    ReachableIsInv(backends, inputs);
    InputsKeepTold(Boot(backends), [], inputs, sid);
  }

  // In every run, a session that browses has done all of the route, in its order, each
  // awaited call answered without an error: a full-VM one has had the gateway hold its own
  // configuration, and the kernel loaded with rules that protect by its own mode and IPv6
  // choice, before either VM was started; and its row holds what was stored on the way.
  lemma BrowsingWentAllTheWay(backends: set<Engine>, inputs: seq<Input>, sid: SessionId)
    requires AllAdmissible(Boot(backends), inputs)
    requires sid in After(Boot(backends), inputs).sessions && IsBrowsing(After(Boot(backends), inputs).sessions[sid])
    ensures var s, deeds := After(Boot(backends), inputs).sessions[sid], Story(backends, inputs, sid);
            && |deeds| <= |Route(s.spec.host)| <= |deeds| + 1
            && Kinds(deeds) == Route(s.spec.host)[..|deeds|]
            && (forall d | d in deeds :: Sound(s.spec, d) && InRow(s.entry.value, d))
            && Linked(deeds) && AllAccepted(After(Boot(backends), inputs), deeds)
  {
    hide Inv, Route, Sound, Linked, InRow, Kinds, After, DeedsOf, AllAdmissible;
    var y, deeds := After(Boot(backends), inputs), Story(backends, inputs, sid);
    StoryIsOnRoute(backends, inputs, sid);
    BootIsInv(backends);
    InputsKeepAccepted(Boot(backends), [], inputs, sid);
    var s := y.sessions[sid];
    BrowsingStands(y, sid);
    if s.start.Driving? {
      RoutePoint(s.spec, s.start.at);
      NoCallAtTheEnd(y.gateway, sid);
    }
  }

  lemma BootIsInv(backends: set<Engine>)
    ensures Inv(Boot(backends)) && AllAccepted(Boot(backends), [])
  {
    ReachableIsInv(backends, []);
  }

  lemma NoCallAtTheEnd(g: CG.Shared, sid: SessionId)
    ensures CallDeeds(g, sid, RecordLaunch) == 0
  {}

  lemma BrowsingStands(y: Daemon, sid: SessionId)
    requires Inv(y) && sid in y.sessions && IsBrowsing(y.sessions[sid])
    ensures y.sessions[sid].start == Done(None) || y.sessions[sid].start == Driving(RecordLaunch)
    ensures !y.sessions[sid].entry.value.state.ShuttingDown()
  {
    hide StoreInv, GatewayInv, ClaimBacked, Apart, Recorded, DataInv;
    assert LocalInv(y.sessions[sid]);
    LocalIsSafe(y.sessions[sid]);
  }

  // A start that has failed on the way had gone along the route up to there, and returns
  // the error of the call it awaited; one stopped by its checklist or by an unreachable
  // proxy has engaged the switch, and recorded that, before its teardown.
  lemma FailedGatesEngage(backends: set<Engine>, inputs: seq<Input>, sid: SessionId)
    requires AllAdmissible(Boot(backends), inputs)
    requires var y := After(Boot(backends), inputs);
             sid in y.sessions && y.sessions[sid].start.Done? && y.sessions[sid].start.outcome.Some?
    requires Story(backends, inputs, sid) != []
    ensures var s, deeds := After(Boot(backends), inputs).sessions[sid], Story(backends, inputs, sid);
            var n := |deeds| - 1;
            && n <= |Route(s.spec.host)| && Kinds(deeds[..n]) == Route(s.spec.host)[..n]
            && deeds[n].FailedAt? && deeds[n].error == s.start.outcome.value
            && RightError(deeds[n].at, deeds[n].o, deeds[n].error)
            && (deeds[n].at.StoreChecklist? || (deeds[n].at.ProbeProxy? && deeds[n].o.fault.None?) ==>
                  SwitchEngaged in s.log && CutFirst(s.log))
  {
    hide Inv, Route, Linked, InRow, Kinds, After, Story, CutFirst;
    var y, deeds := After(Boot(backends), inputs), Story(backends, inputs, sid);
    StoryIsOnRoute(backends, inputs, sid);
    FailedStartIsFailClosed(backends, inputs, sid);
    assert GaveUpOn(y.sessions[sid].spec, deeds, y.sessions[sid].start.outcome.value);
  }
}
