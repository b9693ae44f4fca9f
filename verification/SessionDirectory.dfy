// The user-data directory of a host session: removed by its teardown exactly if the
// session is ephemeral.
module SessionDirectory {
  import opened Errors
  import opened Preflight
  import opened SessionMachine
  import opened SessionSafety
  import opened SessionCleanup
  import opened SessionOrder
  import opened SessionOwnership
  import opened SessionGateway
  import opened SessionSystem

  ghost predicate Removed(log: seq<Event>) {
    exists e :: e in log && e.DirectoryRemoved?
  }

  predicate Ephemeral(m: Mode) {
    m.HostProcess? && m.ephemeral
  }

  predicate Past(td: Teardown) {
    td.DestroyBrowser? || td.DestroyGateway? || td.ReleaseLease? || td.WriteFinal?
  }

  // What a teardown took for the session's mode is that mode, unless a stop overlapped the
  // start, and it has removed an ephemeral directory once it is past that step.
  ghost predicate TakesMode(s: Session, td: Teardown) {
    td.Snapshot? ||
      (&& s.entry.Some?
       && (Ephemeral(td.r.mode) ==> Ephemeral(s.entry.value.mode))
       && (Past(td) && Ephemeral(td.r.mode) ==> Removed(s.log))
       && (!s.mixed ==> td.r.mode == s.entry.value.mode))
  }

  ghost predicate DirectoryInv(s: Session) {
    && (Removed(s.log) ==> s.entry.Some? && Ephemeral(s.entry.value.mode))
    && (s.start.TearingDown? ==> TakesMode(s, s.start.td))
    && (forall id | id in s.stops && s.stops[id].Stopping? :: TakesMode(s, s.stops[id].td))
    && (!s.mixed && s.entry.Some? && (s.entry.value.state.Failed? || s.entry.value.state.Destroyed?) ==>
          (Ephemeral(s.entry.value.mode) ==> Removed(s.log)))
  }

  lemma OneMore(log: seq<Event>, e: Event)
    ensures Removed(log + [e]) <==> Removed(log) || e.DirectoryRemoved?
  {
    if x :| x in log + [e] && x.DirectoryRemoved? {
      assert x in log || x == e;
    }
    if x :| x in log && x.DirectoryRemoved? {
      assert x in log + [e];
    }
    assert e in log + [e];
  }

  lemma TeardownRemoves(s: Session, who: Caller, td: Teardown)
    ensures var (s', next) := TeardownStep(s, who, td);
            && (Removed(s'.log) <==> Removed(s.log) || (td.RemoveDirectory? && Ephemeral(td.r.mode)))
            && (next.Some? ==>
                  if td.Snapshot? then
                    s.entry.Some? && next.value.Terminate? && next.value.r.mode == s.entry.value.mode
                  else
                    && !next.value.Snapshot? && next.value.r == td.r
                    && (Past(next.value) ==> Past(td) || td.RemoveDirectory?))
            && (s'.entry.Some? <==> s.entry.Some?)
            && (s.entry.Some? ==> s'.entry.value.mode == s.entry.value.mode)
  {
    var log' := TeardownStep(s, who, td).0.log;
    if log' != s.log {
      assert log' == s.log + [log'[|s.log|]];
      OneMore(s.log, log'[|s.log|]);
    }
  }

  lemma EmitRemovesNothing(s: Session, e: Event)
    ensures Removed(Emit(s, e).log) <==> Removed(s.log) || e.DirectoryRemoved?
  {
    OneMore(s.log, e);
  }

  // The mode of a row changes only in the drive of a host start.
  lemma DriveModes(s: Session, o: Oracle)
    requires Safe(s) && s.start.Driving?
    ensures var s' := StartStep(s, o);
            s.entry.Some? && s'.entry.Some? && (Ephemeral(s.entry.value.mode) ==> Ephemeral(s'.entry.value.mode))
  {
    hide DriveStep, TeardownStep;
    DriveHasShape(s, o);
    DriveNeverEnds(s, o);
    if s.start.at.StoreMode? {
      StoringMode(s, o);
    }
  }

  lemma StoringMode(s: Session, o: Oracle)
    requires Safe(s) && s.start == Driving(StoreMode)
    ensures StartStep(s, o).entry.Some? && s.entry.Some?
    ensures Ephemeral(s.entry.value.mode) ==> Ephemeral(StartStep(s, o).entry.value.mode)
  {
    hide TeardownStep, RunPreflight;
  }

  lemma DriveKeepsDirectory(s: Session, o: Oracle)
    requires Safe(s) && DirectoryInv(s) && s.start.Driving?
    ensures DirectoryInv(StartStep(s, o))
  {
    hide DriveStep, TeardownStep, Removed, DataInv;
    DriveHasShape(s, o);
    DriveModes(s, o);
    DriveNeverEnds(s, o);
    EmitRemovesNothing(s, StartReturned(None));
  }

  lemma StartTeardownKeepsDirectory(s: Session, o: Oracle)
    requires Safe(s) && DirectoryInv(s) && s.start.TearingDown?
    ensures DirectoryInv(StartStep(s, o))
  {
    hide TeardownStep, Removed, DataInv;
    TeardownRow(s, ByStart, s.start.td);
    TeardownRemoves(s, ByStart, s.start.td);
    EmitRemovesNothing(TeardownStep(s, ByStart, s.start.td).0, StartReturned(Some(s.start.error)));
  }

  lemma ElsewhereKeepsDirectory(s: Session, o: Oracle)
    requires Safe(s) && DirectoryInv(s) && !s.start.TearingDown? && !s.start.Driving?
    ensures DirectoryInv(StartStep(s, o))
  {
    hide TeardownStep, DriveStep, Removed, DataInv;
    forall e ensures Removed(Emit(s, e).log) <==> Removed(s.log) || e.DirectoryRemoved? {
      EmitRemovesNothing(s, e);
    }
  }

  lemma StopKeepsDirectory(s: Session, id: CallId)
    requires Safe(s) && DirectoryInv(s)
    ensures DirectoryInv(StopStep(s, id))
  {
    hide TeardownStep, Removed, DataInv;
    if StopInFlight(s, id) && s.stops[id].Stopping? {
      TeardownRow(s, ByStop(id), s.stops[id].td);
      TeardownRemoves(s, ByStop(id), s.stops[id].td);
    }
  }

  lemma CallKeepsDirectory(s: Session, id: CallId)
    requires DirectoryInv(s)
    ensures DirectoryInv(CallStop(s, id))
  {
    hide Removed, InFlight;
  }

  lemma StepKeepsDirectory(s: Session, a: Action)
    requires Safe(s) && DirectoryInv(s)
    ensures DirectoryInv(Step(s, a))
  {
    hide Safe, DirectoryInv, StartStep, StopStep;
    match a {
      case Advance(o) =>
        if s.start.Driving? {
          DriveKeepsDirectory(s, o);
        } else if s.start.TearingDown? {
          StartTeardownKeepsDirectory(s, o);
        } else {
          ElsewhereKeepsDirectory(s, o);
        }
      case AdvanceStop(id) => StopKeepsDirectory(s, id);
      case Call(id) => CallKeepsDirectory(s, id);
    }
  }

  // ---- in every run -----------------------------------------------------------------------

  ghost predicate AllDirectories(y: Daemon) {
    forall sid | sid in y.sessions :: DirectoryInv(y.sessions[sid])
  }

  lemma NewHasNone(spec: Spec, backends: set<Engine>)
    ensures DirectoryInv(NewSession(spec, backends))
  {}

  lemma EffectKeepsSessions(y: Daemon, sid: SessionId, s: Session, a: Action, env: Environment)
    ensures Effect(y, sid, s, a, env).0.sessions == y.sessions
  {
    hide Turn;
  }

  lemma NextKeepsDirectories(y: Daemon, i: Input)
    requires Inv(y) && AllDirectories(y)
    ensures AllDirectories(Next(y, i))
  {
    hide DirectoryInv, Effect, Step, StoreInv, GatewayInv, Recorded, ClaimBacked, Apart, LocalInv;
    match i {
      case Proceed(sid, action, env) =>
        if sid in y.sessions {
          var s, a := y.sessions[sid], Effect(y, sid, y.sessions[sid], action, env).1;
          EffectKeepsSessions(y, sid, s, action, env);
          if a.Some? {
            assert LocalInv(s);
            SafePart(s);
            StepKeepsDirectory(s, a.value);
          }
        }
      case BeginStart(sid, spec, _) => NewHasNone(spec, y.backends);
      case _ =>
    }
  }

  lemma SafePart(s: Session)
    requires LocalInv(s)
    ensures Safe(s)
  {}

  lemma {:induction false} RunKeepsDirectories(y: Daemon, inputs: seq<Input>)
    requires Inv(y) && AllAdmissible(y, inputs) && AllDirectories(y)
    ensures AllDirectories(After(y, inputs))
    decreases |inputs|
  {
    hide Inv, Next, Admissible, AllDirectories;
    if inputs != [] {
      NextKeepsInv(y, inputs[0]);
      NextKeepsDirectories(y, inputs[0]);
      RunKeepsDirectories(Next(y, inputs[0]), inputs[1..]);
    }
  }

  // Only an ephemeral host session has its directory removed; and it is removed by the
  // time such a session, its mode recorded, is Failed or Destroyed, unless a stop was
  // called while the start was under way.
  lemma EphemeralDirectoryIsRemoved(backends: set<Engine>, inputs: seq<Input>, sid: SessionId)
    requires AllAdmissible(Boot(backends), inputs) && sid in After(Boot(backends), inputs).sessions
    ensures var s := After(Boot(backends), inputs).sessions[sid];
            && (Removed(s.log) ==> s.spec.host && s.spec.ephemeral)
            && (!s.mixed && s.entry.Some? && (s.entry.value.state.Failed? || s.entry.value.state.Destroyed?) ==>
                  (Removed(s.log) <==> s.entry.value.mode.HostProcess? && s.spec.ephemeral))
  {
    hide Removed, StoreInv, GatewayInv, Recorded, ClaimBacked, Apart, EvidenceInv, AccountInv, OrderInv, OnceInv,
         OwnInv;
    ReachableIsInv(backends, []);
    ReachableIsInv(backends, inputs);
    RunKeepsDirectories(Boot(backends), inputs);
    var s := After(Boot(backends), inputs).sessions[sid];
    assert DirectoryInv(s) && LocalInv(s);
    if s.entry.Some? && s.entry.value.mode.HostProcess? {
      ModeOfSpec(s);
    }
  }

  lemma ModeOfSpec(s: Session)
    requires Safe(s) && s.entry.Some? && s.entry.value.mode.HostProcess?
    ensures s.spec.host && s.entry.value.mode.ephemeral == s.spec.ephemeral
  {}
}
