// The order of effects of one session, and how often a browser can be terminated, in
// every interleaving of its start call with any number of stop calls.
module SessionOrder {
  import opened Errors
  import opened SessionMachine
  import opened SessionSafety

  // ---- fail-closed ordering ---------------------------------------------------

  // What the start call does to the session after its drive has failed.
  predicate StartEffect(e: Event) {
    match e
    case BrowserTerminated(who) => who.ByStart?
    case DirectoryRemoved(who) => who.ByStart?
    case VmDestroyed(who) => who.ByStart?
    case LockReleased(who) => who.ByStart?
    case FinalStateWritten(who) => who.ByStart?
    case StartReturned(_) => true
    case SwitchEngaged => false
    case FailClosedRecorded => false
  }

  // The switch was engaged and then the critical record written, both before every
  // effect of the start call's teardown and before its return.
  ghost predicate CutFirst(log: seq<Event>) {
    exists i, k ::
      && 0 <= i < k < |log| && log[i] == SwitchEngaged && log[k] == FailClosedRecorded
      && forall j | 0 <= j < |log| && StartEffect(log[j]) :: k < j
  }

  ghost predicate NoEffects(log: seq<Event>) {
    forall e | e in log :: !StartEffect(e)
  }

  ghost predicate NeverCut(log: seq<Event>) {
    SwitchEngaged !in log && FailClosedRecorded !in log
  }

  ghost predicate OrderInv(s: Session) {
    match s.start
    case Auditing(e) => e.RequiresKillSwitch() && NoEffects(s.log) && SwitchEngaged in s.log
    case TearingDown(e, _) => if e.RequiresKillSwitch() then CutFirst(s.log) else NeverCut(s.log)
    case Done(outcome) =>
      if s.entry.Some? && outcome.Some? && outcome.value.RequiresKillSwitch() then CutFirst(s.log) else NeverCut(s.log)
    case _ => NoEffects(s.log) && NeverCut(s.log)
  }

  lemma CutFirstExtends(log: seq<Event>, more: seq<Event>)
    requires CutFirst(log)
    ensures CutFirst(log + more)
  {
    var i, k :|
      && 0 <= i < k < |log| && log[i] == SwitchEngaged && log[k] == FailClosedRecorded
      && forall j | 0 <= j < |log| && StartEffect(log[j]) :: k < j;
    var all := log + more;
    assert all[i] == SwitchEngaged && all[k] == FailClosedRecorded;
    forall j | 0 <= j < |all| && StartEffect(all[j]) ensures k < j {
      if j < |log| {
        assert all[j] == log[j];
      }
    }
  }

  lemma RecordingCutsFirst(log: seq<Event>)
    requires NoEffects(log) && SwitchEngaged in log
    ensures CutFirst(log + [FailClosedRecorded])
  {
    var i :| 0 <= i < |log| && log[i] == SwitchEngaged;
    var all := log + [FailClosedRecorded];
    assert all[i] == SwitchEngaged && all[|log|] == FailClosedRecorded;
    forall j | 0 <= j <= |log| ensures !StartEffect(all[j]) {
      if j < |log| {
        assert all[j] == log[j] && log[j] in log;
      }
    }
  }

  // A teardown step logs at most one event, signed by its caller.
  lemma TeardownLogs(s: Session, who: Caller, td: Teardown)
    ensures var log' := TeardownStep(s, who, td).0.log;
            exists more: seq<Event> ::
              && log' == s.log + more
              && SwitchEngaged !in more && FailClosedRecorded !in more
              && (who.ByStop? ==> NoEffects(more))
  {
    var log' := TeardownStep(s, who, td).0.log;
    if log' == s.log {
      assert log' == s.log + [];
    } else {
      assert log' == s.log + [log'[|s.log|]];
    }
  }

  lemma StopKeepsOrder(s: Session, id: CallId)
    requires Safe(s) && OrderInv(s)
    ensures OrderInv(StopStep(s, id))
  {
    if StopInFlight(s, id) && s.stops[id].Stopping? {
      var td := s.stops[id].td;
      TeardownRow(s, ByStop(id), td);
      TeardownLogs(s, ByStop(id), td);
      var more :|
        && TeardownStep(s, ByStop(id), td).0.log == s.log + more
        && SwitchEngaged !in more && FailClosedRecorded !in more && NoEffects(more);
      if CutFirst(s.log) {
        CutFirstExtends(s.log, more);
      }
    }
  }

  lemma StartTeardownKeepsOrder(s: Session, o: Oracle)
    requires Safe(s) && OrderInv(s) && s.start.TearingDown?
    ensures OrderInv(StartStep(s, o))
  {
    var td := s.start.td;
    TeardownRow(s, ByStart, td);
    TeardownLogs(s, ByStart, td);
    var more :|
      && TeardownStep(s, ByStart, td).0.log == s.log + more
      && SwitchEngaged !in more && FailClosedRecorded !in more;
    if s.start.error.RequiresKillSwitch() {
      CutFirstExtends(s.log, more);
      CutFirstExtends(s.log + more, [StartReturned(Some(s.start.error))]);
    }
  }

  lemma StartKeepsOrder(s: Session, o: Oracle)
    requires Safe(s) && OrderInv(s)
    ensures OrderInv(StartStep(s, o))
  {
    match s.start {
      case Driving(_) => DriveHasShape(s, o);
      case Auditing(_) => RecordingCutsFirst(s.log);
      case TearingDown(_, _) => StartTeardownKeepsOrder(s, o);
      case _ =>
    }
  }

  lemma StepKeepsOrder(s: Session, a: Action)
    requires Safe(s) && OrderInv(s)
    ensures OrderInv(Step(s, a))
  {
    match a {
      case Advance(o) => StartKeepsOrder(s, o);
      case Call(_) =>
      case AdvanceStop(id) => StopKeepsOrder(s, id);
    }
  }

  // When a start call has returned, its orchestrator engaged the kill switch exactly if
  // the session had been registered and the error is of a kill-switch class, and then
  // it did so, and wrote the critical record, before every teardown effect and before
  // the return. An error before registration engages nothing.
  lemma FailedStartCutsFirst(s: Session)
    requires Safe(s) && OrderInv(s) && s.start.Done?
    ensures SwitchEngaged in s.log <==>
              s.entry.Some? && s.start.outcome.Some? && s.start.outcome.value.RequiresKillSwitch()
    ensures SwitchEngaged in s.log ==> CutFirst(s.log)
  {
  }

  // ---- a browser is terminated at most once -------------------------------------

  datatype Holder = TheRow | TheStart | TheStop(id: CallId)

  // Who holds the session's browser handle and may still terminate it.
  ghost predicate Holds(s: Session, w: Holder) {
    match w
    case TheRow => s.entry.Some? && s.entry.value.handle.Some?
    case TheStart => s.start.TearingDown? && s.start.td.Terminate? && s.start.td.r.handle.Some?
    case TheStop(id) =>
      id in s.stops && s.stops[id].Stopping? && s.stops[id].td.Terminate? && s.stops[id].td.r.handle.Some?
  }

  ghost predicate OnceInv(s: Session) {
    && |s.terminated| <= 1
    && (forall w, w' :: Holds(s, w) && Holds(s, w') ==> w == w' && s.terminated == multiset{})
    && (s.entry.None? || (s.start.Driving? && NoHandleYet(s.start.at)) ==>
          s.terminated == multiset{} && forall w :: !Holds(s, w))
  }

  // One teardown step moves the handle from the row to the caller, or uses it up.
  lemma TeardownMovesHandle(s: Session, who: Caller, td: Teardown)
    ensures var (s', next) := TeardownStep(s, who, td);
            && (next.Some? && next.value.Terminate? ==>
                  td.Snapshot? && s.entry.Some? && next.value.r.handle == s.entry.value.handle)
            && (s'.terminated == s.terminated
                || (td.Terminate? && td.r.handle.Some? && s'.terminated == s.terminated + multiset{td.r.handle.value}))
  {
  }

  // All a stop's teardown step does to the handle and its holders.
  lemma StopMovesHandle(s: Session, id: CallId, td: Teardown)
    requires id in s.stops && s.stops[id] == Stopping(td)
    ensures var s' := StopStep(s, id);
            && s'.start == s.start && s'.entry.Some? == s.entry.Some? && id in s'.stops
            && (forall w :: w != TheRow && w != TheStop(id) ==> Holds(s', w) == Holds(s, w))
            && (Holds(s', TheRow) ==> Holds(s, TheRow) && !td.Snapshot?)
            && (Holds(s', TheStop(id)) ==> td.Snapshot? && Holds(s, TheRow))
            && (s'.terminated == s.terminated
                || (Holds(s, TheStop(id)) && exists h :: s'.terminated == s.terminated + multiset{h}))
  {
    hide TeardownStep;
    TeardownRow(s, ByStop(id), td);
    TeardownMovesHandle(s, ByStop(id), td);
  }

  // Moving the handle from the row to one stop, or using up what that stop holds, keeps
  // the count.
  lemma OnceAfterStop(s: Session, s': Session, id: CallId, taking: bool)
    requires OnceInv(s) && s'.start == s.start && s'.entry.Some? == s.entry.Some?
    requires forall w :: w != TheRow && w != TheStop(id) ==> Holds(s', w) == Holds(s, w)
    requires Holds(s', TheRow) ==> Holds(s, TheRow) && !taking
    requires Holds(s', TheStop(id)) ==> taking && Holds(s, TheRow)
    requires s'.terminated == s.terminated
             || (Holds(s, TheStop(id)) && exists h :: s'.terminated == s.terminated + multiset{h})
    ensures OnceInv(s')
  {
    hide Holds, NoHandleYet;
  }

  lemma StopEnteringKeepsOnce(s: Session, id: CallId)
    requires OnceInv(s) && !(StopInFlight(s, id) && s.stops[id].Stopping?)
    ensures OnceInv(StopStep(s, id))
  {
    hide TeardownStep;
    assert forall w :: Holds(StopStep(s, id), w) ==> Holds(s, w);
  }

  lemma StopKeepsOnce(s: Session, id: CallId)
    requires OnceInv(s)
    ensures OnceInv(StopStep(s, id))
  {
    hide OnceInv, StopStep, Holds;
    if StopInFlight(s, id) && s.stops[id].Stopping? {
      StopMovesHandle(s, id, s.stops[id].td);
      OnceAfterStop(s, StopStep(s, id), id, s.stops[id].td.Snapshot?);
    } else {
      StopEnteringKeepsOnce(s, id);
    }
  }

  lemma StartTeardownKeepsOnce(s: Session, o: Oracle)
    requires Safe(s) && OnceInv(s) && s.start.TearingDown?
    ensures OnceInv(StartStep(s, o))
  {
    var s' := StartStep(s, o);
    var td := s.start.td;
    TeardownRow(s, ByStart, td);
    TeardownMovesHandle(s, ByStart, td);
    forall w | Holds(s', w) ensures Holds(s, w) || (w == TheStart && td.Snapshot? && Holds(s, TheRow)) {
    }
    if td.Terminate? && td.r.handle.Some? {
      assert Holds(s, TheStart);
    }
  }

  lemma DriveKeepsOnce(s: Session, o: Oracle)
    requires Safe(s) && OnceInv(s) && s.start.Driving?
    ensures OnceInv(StartStep(s, o))
  {
    var s' := StartStep(s, o);
    DriveHasShape(s, o);
    if s.start.at.RecordHandle? {
      forall w | Holds(s', w) ensures w == TheRow {
        assert !Holds(s, w);
      }
    } else {
      forall w | Holds(s', w) ensures Holds(s, w) {
      }
    }
  }

  lemma StartKeepsOnce(s: Session, o: Oracle)
    requires Safe(s) && OnceInv(s)
    ensures OnceInv(StartStep(s, o))
  {
    match s.start {
      case TearingDown(_, _) => StartTeardownKeepsOnce(s, o);
      case Driving(_) => DriveKeepsOnce(s, o);
      case _ => OutsideDriveKeepsOnce(s, o);
    }
  }

  lemma OutsideDriveKeepsOnce(s: Session, o: Oracle)
    requires Safe(s) && OnceInv(s) && !s.start.Driving? && !s.start.TearingDown?
    ensures OnceInv(StartStep(s, o))
  {
    hide DriveStep, TeardownStep;
    assert forall w :: Holds(StartStep(s, o), w) ==> Holds(s, w);
  }

  lemma StepKeepsOnce(s: Session, a: Action)
    requires Safe(s) && OnceInv(s)
    ensures OnceInv(Step(s, a))
  {
    match a {
      case Advance(o) => StartKeepsOnce(s, o);
      case AdvanceStop(id) => StopKeepsOnce(s, id);
      case Call(id) =>
        forall w | Holds(Step(s, a), w) ensures Holds(s, w) {
        }
    }
  }

  // Overlapping stops never terminate the same browser twice: whatever the interleaving,
  // at most one terminate call is made for the session.
  lemma TerminatedAtMostOnce(s: Session, h: HandleId)
    requires OnceInv(s)
    ensures s.terminated[h] <= 1
  {
    assert |s.terminated[h := 0]| == |s.terminated| - s.terminated[h];
  }
}
