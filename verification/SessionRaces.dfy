// What else overlapping calls do, from any session: two stops destroy whatever it holds
// twice, and a stop at the wrong moment loses its browser.
module SessionRaces {
  import opened Errors
  import opened Preflight
  import opened SessionState
  import opened SessionMachine
  import opened SessionSafety
  import opened SessionCounting
  import opened SessionOverlap

  // ---- from any session -----------------------------------------------------------------

  // What a step of a stop leaves as it was.
  ghost predicate Unmoved(s: Session, s': Session) {
    s.entry.Some? && s'.entry.Some?
    && s' == s.(entry := s'.entry, stops := s'.stops, destroyed := s'.destroyed, terminated := s'.terminated,
                log := s'.log, overlapped := s'.overlapped, mixed := s'.mixed)
  }

  // One step of a stop past its snapshot leaves every other call alone.
  lemma StopMovesOn(from: Session, s: Session, id: CallId, x: Thing)
    returns (s': Session)
    requires Reaches(from, s) && s.entry.Some?
    requires id in s.stops && s.stops[id].Stopping? && !s.stops[id].td.Snapshot?
    ensures Reaches(from, s') && Unmoved(s, s')
    ensures id in s'.stops && s'.stops == s.stops[id := s'.stops[id]]
    ensures s'.stops[id] == if s.stops[id].td.WriteFinal? then Stopped else Stopping(Following(s.stops[id].td))
    ensures s'.entry == if s.stops[id].td.WriteFinal? then Some(Finish(s.entry.value, Destroyed)) else s.entry
    ensures Calls(s', x) + Owed(s', ByStop(id), x) == Calls(s, x) + Owed(s, ByStop(id), x)
  {
    hide Owed, Step, StopStep;
    s' := Go(from, s, AdvanceStop(id));
    StepOfStop(s, id);
    StopTeardownStep(s, id, x);
    NothingTaken(s, AdvanceStop(id), x);
    StopFollows(s, id);
    StopRow(s, id);
  }

  lemma StepOfStop(s: Session, id: CallId)
    ensures Step(s, AdvanceStop(id)) == StopStep(s, id)
  {}

  lemma StopRow(s: Session, id: CallId)
    requires s.entry.Some? && id in s.stops && s.stops[id].Stopping? && !s.stops[id].td.Snapshot?
    ensures var s' := StopStep(s, id);
            && Unmoved(s, s')
            && s'.entry == if s.stops[id].td.WriteFinal? then Some(Finish(s.entry.value, Destroyed)) else s.entry
  {
    hide TeardownStep;
    TeardownRow(s, ByStop(id), s.stops[id].td);
  }

  lemma NothingTaken(s: Session, a: Action, x: Thing)
    requires Stepping(a).Some? && Running(s, Stepping(a).value) != Some(Snapshot)
    ensures SawAll(Taken(s, a), s.backends, x) == 0
  {}

  // A teardown run up to its last step has made the calls its snapshot owed.
  lemma {:induction false} StopRunsToFinal(
      from: Session, s: Session, id: CallId, x: Thing, left: nat)
    returns (s': Session)
    requires Reaches(from, s) && s.entry.Some?
    requires id in s.stops && s.stops[id].Stopping? && !s.stops[id].td.Snapshot? && left == StepsLeft(s.stops[id].td)
    ensures Reaches(from, s') && Unmoved(s, s') && s'.entry == s.entry
    ensures id in s'.stops && s'.stops == s.stops[id := s'.stops[id]] && s'.stops[id].Stopping?
            && s'.stops[id].td.WriteFinal?
    ensures Calls(s', x) == Calls(s, x) + Owed(s, ByStop(id), x)
    decreases left
  {
    hide Calls;
    s' := s;
    if left > 1 {
      hide Owed;
      s' := StopMovesOn(from, s, id, x);
      var t := s';
      s' := StopRunsToFinal(from, s', id, x, left - 1);
      assert s.stops[id := t.stops[id]][id := s'.stops[id]] == s.stops[id := s'.stops[id]];
    }
  }

  lemma StopRunsOut(from: Session, s: Session, id: CallId, x: Thing)
    returns (s': Session)
    requires Reaches(from, s) && s.entry.Some?
    requires id in s.stops && s.stops[id].Stopping? && !s.stops[id].td.Snapshot?
    ensures Reaches(from, s') && Unmoved(s, s') && s'.stops == s.stops[id := Stopped]
    ensures Calls(s', x) == Calls(s, x) + Owed(s, ByStop(id), x)
  {
    hide Calls;
    s' := StopRunsToFinal(from, s, id, x, StepsLeft(s.stops[id].td));
    var t := s';
    s' := StopMovesOn(from, s', id, x);
    assert s.stops[id := t.stops[id]][id := Stopped] == s.stops[id := Stopped];
  }

  // Neither the call nor the step to Closing touches what is in the row or anything else
  // the session holds.
  ghost predicate OnlyTheStop(s: Session, s': Session, id: CallId, stop: Stop) {
    && Unmoved(s, s') && Undisturbed(s, s')
    && s'.entry.value.gatewayVm == s.entry.value.gatewayVm && s'.entry.value.browserVm == s.entry.value.browserVm
    && s'.entry.value.mode == s.entry.value.mode
    && s'.stops == s.stops[id := stop]
  }

  lemma CallOnly(s: Session, id: CallId)
    requires s.entry.Some? && id !in s.stops
    ensures var s' := Step(s, Call(id));
            OnlyTheStop(s, s', id, Entering) && s'.entry.value.handle == s.entry.value.handle
  {}

  lemma EnterOnly(s: Session, id: CallId)
    requires s.entry.Some? && id in s.stops && s.stops[id].Entering?
    ensures var s' := Step(s, AdvanceStop(id));
            OnlyTheStop(s, s', id, Stopping(Snapshot)) && s'.entry.value.handle == s.entry.value.handle
  {}

  lemma SnapshotOnly(s: Session, id: CallId, x: Thing)
    requires s.entry.Some? && id in s.stops && s.stops[id] == Stopping(Snapshot)
    ensures var s', r := Step(s, AdvanceStop(id)), TakeResources(s.entry.value).1;
            && OnlyTheStop(s, s', id, Stopping(Terminate(r))) && s'.entry.value.handle == None
            && Owed(s', ByStop(id), x) == Saw(r, s.backends, x)
  {}

  // Called and through its snapshot: from now on the stop owes everything in the row.
  lemma StopTakes(from: Session, s: Session, id: CallId, x: Thing)
    returns (s': Session)
    requires Reaches(from, s) && s.entry.Some? && id !in s.stops
    ensures Reaches(from, s') && id in s'.stops && OnlyTheStop(s, s', id, s'.stops[id])
    ensures s'.stops[id].Stopping? && s'.stops[id].td.Terminate? && s'.entry.value.handle == None
    ensures Owed(s', ByStop(id), x) == Saw(TakeResources(s.entry.value).1, s.backends, x)
  {
    hide Step, Saw, TakeResources, Owed;
    CallOnly(s, id);
    s' := Go(from, s, Call(id));
    EnterOnly(s', id);
    s' := Go(from, s', AdvanceStop(id));
    SnapshotOnly(s', id, x);
    SameRow(s, s', x);
    s' := Go(from, s', AdvanceStop(id));
  }

  lemma SameRow(s: Session, t: Session, x: Thing)
    requires s.entry.Some? && t.entry.Some? && t.backends == s.backends
    requires t.entry.value.gatewayVm == s.entry.value.gatewayVm && t.entry.value.browserVm == s.entry.value.browserVm
    requires x.TheVm? || (t.entry.value.handle == s.entry.value.handle && t.entry.value.mode == s.entry.value.mode)
    ensures Saw(TakeResources(t.entry.value).1, t.backends, x) == Saw(TakeResources(s.entry.value).1, s.backends, x)
  {}

  lemma OwedByOwn(s: Session, t: Session, id: CallId, x: Thing)
    requires id in s.stops && id in t.stops && s.stops[id] == t.stops[id] && s.backends == t.backends
    ensures Owed(s, ByStop(id), x) == Owed(t, ByStop(id), x)
  {}

  // ---- two stops ------------------------------------------------------------------------

  // Of every session no call is at work on: two stops whose snapshots are both taken
  // before either has written its end make two destroy calls for each VM the row held.
  lemma OverlappingStopsDestroyTwice(s: Session, i: CallId, j: CallId, v: VmId) returns (s': Session)
    requires !InFlight(s) && s.entry.Some? && i != j && i !in s.stops && j !in s.stops
    ensures Reaches(s, s') && !InFlight(s')
    ensures s'.destroyed[v] == s.destroyed[v] + 2 * Saw(TakeResources(s.entry.value).1, s.backends, TheVm(v))
  {
    var x := TheVm(v);
    Stays(s);
    hide Reaches, Step, Saw, TakeResources, Owed;
    var t := StopTakes(s, s, i, x);
    var first := t;
    t := StopTakes(s, t, j, x);
    SameRow(s, first, x);
    OwedByOwn(first, t, i, x);
    var second := t;
    t := StopRunsOut(s, t, i, x);
    OwedByOwn(second, t, j, x);
    s' := StopRunsOut(s, t, j, x);
    assert s'.stops == s.stops[i := Stopped][j := Stopped];
    forall id ensures !StopInFlight(s', id) {
      assert !StopInFlight(s, id);
    }
  }

  // ---- a stop before the browser is recorded ----------------------------------------------

  lemma {:induction false} Bounded(ids: set<nat>) returns (n: nat)
    ensures forall k | k in ids :: k < n
    decreases ids
  {
    if ids == {} {
      n := 0;
    } else {
      var k :| k in ids;
      var m := Bounded(ids - {k});
      n := m + k + 1;
      assert ids == (ids - {k}) + {k};
    }
  }

  // An answer with identifiers the session has never seen.
  function Unseen(n: nat): Action {
    Advance(Oracle(None, Err(Busy), n, n, NO_PROBES, true))
  }

  ghost predicate Below(s: Session, n: nat) {
    (forall v | v in s.recorded :: v < n) && (forall h | h in s.stored :: h < n)
  }

  // A step of the start's teardown past its snapshot.
  lemma StartMovesOn(from: Session, s: Session, n: nat, x: Thing)
    returns (s': Session)
    requires Reaches(from, s) && s.entry.Some? && Below(s, n)
    requires s.start.TearingDown? && !s.start.td.Snapshot?
    ensures Reaches(from, s') && s'.entry.Some? && s'.stops == s.stops
    ensures s'.stored == s.stored && s'.recorded == s.recorded
    ensures if s.start.td.WriteFinal? then s'.start.Done? && s'.entry.value.handle == None
            else s'.start.TearingDown? && s'.start.td == Following(s.start.td)
    ensures Calls(s', x) + Owed(s', ByStart, x) == Calls(s, x) + Owed(s, ByStart, x)
  {
    hide Owed, StartStep;
    assert Plausible(s, Unseen(n));
    s' := Go(from, s, Unseen(n));
    StartTeardownStep(s, Unseen(n).o, x);
    NothingTaken(s, Unseen(n), x);
    StartRow(s, Unseen(n).o);
  }

  lemma TeardownMoves(s: Session, who: Caller, td: Teardown)
    requires s.entry.Some? && !td.Snapshot?
    ensures var next := TeardownStep(s, who, td).1;
            next == if td.WriteFinal? then None else Some(Following(td))
  {}

  lemma StartRow(s: Session, o: Oracle)
    requires s.entry.Some? && s.start.TearingDown? && !s.start.td.Snapshot?
    ensures var s' := StartStep(s, o);
            && s'.entry.Some? && s'.stops == s.stops && s'.stored == s.stored && s'.recorded == s.recorded
            && (if s.start.td.WriteFinal? then s'.start.Done? && s'.entry.value.handle == None
                else s'.start.TearingDown? && s'.start.td == Following(s.start.td))
  {
    hide DriveStep, TeardownStep;
    TeardownRow(s, ByStart, s.start.td);
    TeardownMoves(s, ByStart, s.start.td);
  }

  lemma {:induction false} StartRunsOut(from: Session, s: Session, n: nat, x: Thing, left: nat)
    returns (s': Session)
    requires Reaches(from, s) && s.entry.Some? && Below(s, n)
    requires s.start.TearingDown? && !s.start.td.Snapshot? && left == StepsLeft(s.start.td)
    ensures Reaches(from, s') && s'.entry.Some? && s'.stops == s.stops && s'.stored == s.stored
    ensures s'.start.Done? && s'.entry.value.handle == None
    ensures Calls(s', x) == Calls(s, x) + Owed(s, ByStart, x)
    decreases left
  {
    hide Calls;
    s' := StartMovesOn(from, s, n, x);
    if left > 1 {
      hide Owed;
      s' := StartRunsOut(from, s', n, x, left - 1);
    }
  }

  lemma RecordsHandle(s: Session, h: HandleId, n: nat)
    requires s.entry.Some? && s.start == Driving(RecordHandle(h))
    ensures Step(s, Unseen(n)) == s.(entry := Some(s.entry.value.(handle := Some(h))), stored := s.stored + {h},
                                     start := Driving(CheckRunning))
  {
    hide TeardownStep, RunPreflight, StoreResult;
  }

  // Where a stop has written its end, the start fails at the move to Browsing and comes to
  // its own teardown with nothing in the row.
  lemma FailsAtBrowsing(s: Session, n: nat)
    requires s.entry.Some? && s.entry.value.state == Destroyed
    ensures Step(s.(start := Driving(CheckRunning)), Unseen(n)) == s.(start := Driving(ToBrowsing))
    ensures Step(s.(start := Driving(ToBrowsing)), Unseen(n)) == s.(start := Failing(Internal))
    ensures Step(s.(start := Failing(Internal)), Unseen(n)) == s.(start := TearingDown(Internal, Snapshot))
  {
    hide TeardownStep, RunPreflight, StoreResult;
  }

  lemma SnapshotFindsNothing(s: Session, n: nat)
    requires s.entry.Some? && s.entry.value.handle == None
    ensures var s' := Step(s.(start := TearingDown(Internal, Snapshot)), Unseen(n));
            && Undisturbed(s, s') && s'.entry.Some? && s'.stops == s.stops
            && s'.stored == s.stored && s'.recorded == s.recorded
            && s'.start.TearingDown? && s'.start.td.Terminate? && s'.start.td.r.handle == None
  {
    hide DriveStep;
  }

  // Of every session about to record the browser it has launched: a stop that takes its
  // snapshot just before and writes its end just after loses the browser. The handle was
  // stored, no call is in flight any more, and no terminate call has been made for it.
  lemma OverlapLosesABrowser(s: Session, id: CallId, h: HandleId) returns (s': Session)
    requires s.start == Driving(RecordHandle(h)) && s.entry.Some? && s.entry.value.handle == None
    requires id !in s.stops && forall i | i in s.stops :: s.stops[i].Stopped?
    ensures Reaches(s, s') && !InFlight(s')
    ensures h in s'.stored && s'.terminated[h] == s.terminated[h] && s'.entry.Some? && s'.entry.value.handle == None
  {
    var x := TheBrowser(h);
    var m := Bounded(s.recorded);
    var k := Bounded(s.stored);
    var n := m + k + h + 1;
    Stays(s);
    hide Reaches, Step, TakeResources, Owed, StartStep;
    var t := StopTakes(s, s, id, x);
    NothingSeen(s, h);
    t := StopRunsToFinal(s, t, id, x, StepsLeft(t.stops[id].td));
    RecordsHandle(t, h, n);
    t := Go(s, t, Unseen(n));
    NothingOwedAtTheEnd(t, id, x);
    t := StopMovesOn(s, t, id, x);
    FailsAtBrowsing(t, n);
    SnapshotFindsNothing(t, n);
    t := Go(s, t, Unseen(n));
    t := Go(s, t, Unseen(n));
    t := Go(s, t, Unseen(n));
    t := Go(s, t, Unseen(n));
    NothingToTerminate(t, h);
    s' := StartRunsOut(s, t, n, x, StepsLeft(t.start.td));
    forall i ensures !StopInFlight(s', i) {
    }
  }

  lemma NothingSeen(s: Session, h: HandleId)
    requires s.entry.Some? && s.entry.value.handle == None
    ensures Saw(TakeResources(s.entry.value).1, s.backends, TheBrowser(h)) == 0
  {}

  lemma NothingOwedAtTheEnd(s: Session, id: CallId, x: Thing)
    requires id in s.stops && s.stops[id].Stopping? && s.stops[id].td.WriteFinal?
    ensures Owed(s, ByStop(id), x) == 0
    ensures forall t: Session | id in t.stops && t.stops[id].Stopped? :: Owed(t, ByStop(id), x) == 0
  {}

  lemma NothingToTerminate(s: Session, h: HandleId)
    requires s.start.TearingDown? && s.start.td.Terminate? && s.start.td.r.handle == None
    ensures Owed(s, ByStart, TheBrowser(h)) == 0
  {}
}
