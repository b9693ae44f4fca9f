// How many destroy calls a VM of one session gets, and how many terminate calls a browser
// handle, in every interleaving of its start call with any number of stop calls,
// overlapping or not: as many as teardown snapshots saw it in the row.
module SessionCounting {
  import opened Errors
  import opened Preflight
  import opened SessionMachine
  import opened SessionSafety

  // A snapshot a teardown has taken, and whose.
  datatype Snap = Snap(who: Caller, taken: Resources)

  // A session watched from outside, with the snapshots taken so far.
  datatype Watched = Watched(session: Session, snaps: seq<Snap>)

  // The teardown a caller is running, if it is running one.
  function Running(s: Session, who: Caller): Option<Teardown> {
    match who
    case ByStart => if s.start.TearingDown? then Some(s.start.td) else None
    case ByStop(id) => if id in s.stops && s.stops[id].Stopping? then Some(s.stops[id].td) else None
  }

  // Whose step an action is.
  function Stepping(a: Action): Option<Caller> {
    match a
    case Advance(_) => Some(ByStart)
    case AdvanceStop(id) => Some(ByStop(id))
    case Call(_) => None
  }

  function Taken(s: Session, a: Action): seq<Snap> {
    if Stepping(a).Some? && Running(s, Stepping(a).value) == Some(Snapshot) && s.entry.Some?
    then [Snap(Stepping(a).value, TakeResources(s.entry.value).1)]
    else []
  }

  ghost function Watch(o: Watched, a: Action): Watched {
    Watched(Step(o.session, a), o.snaps + Taken(o.session, a))
  }

  ghost function WatchAll(o: Watched, actions: seq<Action>): Watched
    decreases |actions|
  {
    if actions == [] then o else WatchAll(Watch(o, actions[0]), actions[1..])
  }

  // ---- counting ---------------------------------------------------------------------------

  // What is disposed of: a VM by a destroy call, a browser by a terminate call on its handle.
  datatype Thing = TheVm(vm: VmId) | TheBrowser(handle: HandleId)

  function Calls(s: Session, x: Thing): nat {
    match x
    case TheVm(v) => s.destroyed[v]
    case TheBrowser(h) => s.terminated[h]
  }

  function One(slot: Option<nat>, id: nat): nat {
    if slot == Some(id) then 1 else 0
  }

  // How often a snapshot saw a thing: a VM in one of its two slots, a handle with a
  // back-end to reach it by; and all of them together.
  function Saw(r: Resources, backends: set<Engine>, x: Thing): nat {
    match x
    case TheVm(v) => One(r.browserVm, v) + One(r.gatewayVm, v)
    case TheBrowser(h) => if r.mode.FullVm? || r.mode.engine in backends then One(r.handle, h) else 0
  }

  function SawAll(snaps: seq<Snap>, backends: set<Engine>, x: Thing): nat {
    if snaps == [] then 0
    else SawAll(snaps[..|snaps| - 1], backends, x) + Saw(snaps[|snaps| - 1].taken, backends, x)
  }

  // The calls for a thing a teardown still has to make.
  function Ahead(td: Teardown, backends: set<Engine>, x: Thing): nat {
    match x
    case TheVm(v) =>
      (match td
       case Terminate(r) => Saw(r, backends, x)
       case RemoveDirectory(r) => Saw(r, backends, x)
       case DestroyBrowser(r) => Saw(r, backends, x)
       case DestroyGateway(r) => One(r.gatewayVm, v)
       case _ => 0)
    case TheBrowser(_) => if td.Terminate? then Saw(td.r, backends, x) else 0
  }

  function Owed(s: Session, who: Caller, x: Thing): nat {
    if Running(s, who).Some? then Ahead(Running(s, who).value, s.backends, x) else 0
  }

  function OwedAll(s: Session, snaps: seq<Snap>, x: Thing): nat {
    if snaps == [] then 0 else OwedAll(s, snaps[..|snaps| - 1], x) + Owed(s, snaps[|snaps| - 1].who, x)
  }

  // ---- the invariant ------------------------------------------------------------------------

  // A caller that may still take its snapshot.
  predicate MaySnap(s: Session, who: Caller) {
    match who
    case ByStart => !s.start.Done? && (s.start.TearingDown? ==> s.start.td.Snapshot?)
    case ByStop(id) => id !in s.stops || s.stops[id].Entering? || s.stops[id] == Stopping(Snapshot)
  }

  ghost predicate OncePerCaller(snaps: seq<Snap>) {
    forall i, j :: 0 <= i < j < |snaps| ==> snaps[i].who != snaps[j].who
  }

  predicate Snapped(snaps: seq<Snap>, who: Caller) {
    exists i :: 0 <= i < |snaps| && snaps[i].who == who
  }

  // Every caller takes at most one snapshot, and is working off its own.
  ghost predicate CallersInv(o: Watched) {
    && OncePerCaller(o.snaps)
    && (forall who ::
          && (MaySnap(o.session, who) ==> !Snapped(o.snaps, who))
          && (Running(o.session, who).Some? && !Running(o.session, who).value.Snapshot? ==> Snapped(o.snaps, who)))
  }

  ghost predicate CountInv(o: Watched, x: Thing) {
    Calls(o.session, x) + OwedAll(o.session, o.snaps, x) == SawAll(o.snaps, o.session.backends, x)
  }

  // ---- what one step does --------------------------------------------------------------------

  // Nothing is destroyed, nobody else moves, and the start call does not tear down.
  predicate Undisturbed(s: Session, s': Session) {
    s'.destroyed == s.destroyed && s'.terminated == s.terminated && s'.backends == s.backends
  }

  predicate Quiet(s: Session, s': Session) {
    Undisturbed(s, s') && s'.stops == s.stops && !s'.start.TearingDown?
  }

  lemma SetupIsQuiet(s: Session, at: Drive, o: Oracle)
    requires s.start.Driving?
    requires at.ResolveProxy? || at.ToProvisioning? || at.ProvisionGateway? || at.RecordGateway? || at.ProvisionBrowser?
             || at.RecordBrowser? || at.ToGatewayStarting? || at.ConfigureGateway? || at.ApplyPolicy?
             || at.StartGateway? || at.StartBrowser? || at.ToPreflight?
    ensures Quiet(s, DriveStep(s, at, o))
  {
    hide Transition, StoreResult;
  }

  lemma GateIsQuiet(s: Session, at: Drive, o: Oracle)
    requires s.start.Driving?
    requires at.RunChecks? || at.StoreChecklist? || at.ProbeProxy? || at.StorePartial? || at.StoreMode?
    ensures Quiet(s, DriveStep(s, at, o))
  {
    hide Transition, MoveTo, RunPreflight;
  }

  lemma LaunchIsQuiet(s: Session, at: Drive, o: Oracle)
    requires s.start.Driving?
    requires at.RenderPolicy? || at.Launch? || at.RecordHandle? || at.CheckRunning? || at.ToBrowsing?
             || at.RecordLaunch?
    ensures Quiet(s, DriveStep(s, at, o))
  {
    hide Transition, StoreResult;
  }

  lemma DriveDestroysNothing(s: Session, o: Oracle)
    requires s.start.Driving?
    ensures Quiet(s, StartStep(s, o))
  {
    hide DriveStep;
    match s.start.at {
      case RunChecks | StoreChecklist(_) | ProbeProxy | StorePartial | StoreMode => GateIsQuiet(s, s.start.at, o);
      case RenderPolicy | Launch | RecordHandle(_) | CheckRunning | ToBrowsing | RecordLaunch =>
        LaunchIsQuiet(s, s.start.at, o);
      case _ => SetupIsQuiet(s, s.start.at, o);
    }
  }

  lemma OutsideDriveDestroysNothing(s: Session, o: Oracle)
    requires !s.start.Driving? && !s.start.TearingDown?
    ensures var s' := StartStep(s, o);
            && Undisturbed(s, s') && s'.stops == s.stops
            && (s'.start.TearingDown? ==> s'.start.td.Snapshot? && !s.start.Done?)
            && (s.start.Done? ==> s'.start == s.start)
  {
    hide DriveStep, TeardownStep;
  }

  // One teardown step moves calls from ahead to done, or takes the snapshot.
  lemma TeardownCounts(s: Session, who: Caller, td: Teardown, x: Thing)
    ensures var (s', next) := TeardownStep(s, who, td);
            var ahead := if next.Some? then Ahead(next.value, s.backends, x) else 0;
            && (next.Some? ==> !next.value.Snapshot?)
            && (td.Snapshot? ==>
                  && Undisturbed(s, s')
                  && (s.entry.None? ==> next.None?)
                  && (s.entry.Some? ==> next.Some? && ahead == Saw(TakeResources(s.entry.value).1, s.backends, x)))
            && (!td.Snapshot? ==> Calls(s', x) + ahead == Calls(s, x) + Ahead(td, s.backends, x))
  {}

  // The running teardown of the stepping caller, before and after; everybody else's stays.
  lemma StartTeardownStep(s: Session, o: Oracle, x: Thing)
    requires s.start.TearingDown?
    ensures var s' := StartStep(s, o);
            && s'.stops == s.stops && s'.backends == s.backends
            && (s'.start.Done? || (s'.start.TearingDown? && !s'.start.td.Snapshot?))
            && Calls(s', x) + Owed(s', ByStart, x)
               == Calls(s, x) + Owed(s, ByStart, x) + SawAll(Taken(s, Advance(o)), s.backends, x)
            && (s'.start.TearingDown? ==> !s.start.td.Snapshot? || s.entry.Some?)
  {
    hide TeardownStep, DriveStep, Saw;
    TeardownCounts(s, ByStart, s.start.td, x);
    TeardownRow(s, ByStart, s.start.td);
    SawOne(s, Advance(o), x);
  }

  lemma StopTeardownStep(s: Session, id: CallId, x: Thing)
    requires id in s.stops && s.stops[id].Stopping?
    ensures var s' := StopStep(s, id);
            && s'.start == s.start && s'.backends == s.backends && id in s'.stops
            && s'.stops.Keys == s.stops.Keys && (forall j | j in s.stops && j != id :: s'.stops[j] == s.stops[j])
            && (s'.stops[id].Stopped? || (s'.stops[id].Stopping? && !s'.stops[id].td.Snapshot?))
            && Calls(s', x) + Owed(s', ByStop(id), x)
               == Calls(s, x) + Owed(s, ByStop(id), x) + SawAll(Taken(s, AdvanceStop(id)), s.backends, x)
            && (s'.stops[id].Stopping? ==> !s.stops[id].td.Snapshot? || s.entry.Some?)
  {
    hide TeardownStep, Saw;
    TeardownCounts(s, ByStop(id), s.stops[id].td, x);
    TeardownRow(s, ByStop(id), s.stops[id].td);
    SawOne(s, AdvanceStop(id), x);
  }

  lemma SawOne(s: Session, a: Action, x: Thing)
    ensures SawAll(Taken(s, a), s.backends, x)
         == if Taken(s, a) == [] then 0 else Saw(Taken(s, a)[0].taken, s.backends, x)
  {
    var t := Taken(s, a);
    if t != [] {
      assert t[..0] == [];
    }
  }

  // Any step at all, seen by one thing and by all callers.
  ghost predicate Moved(s: Session, a: Action, s': Session, x: Thing) {
    var taken := Taken(s, a);
    && s'.backends == s.backends
    && (forall who :: Some(who) != Stepping(a) ==>
          && Owed(s', who, x) == Owed(s, who, x)
          && (MaySnap(s', who) ==> MaySnap(s, who))
          && (Running(s', who).Some? && !Running(s', who).value.Snapshot? ==>
                Running(s, who).Some? && !Running(s, who).value.Snapshot?))
    && (Stepping(a).None? ==> Calls(s', x) == Calls(s, x))
    && (Stepping(a).Some? ==>
          var w := Stepping(a).value;
          && Calls(s', x) + Owed(s', w, x) == Calls(s, x) + Owed(s, w, x) + SawAll(taken, s.backends, x)
          && (MaySnap(s', w) ==> MaySnap(s, w) && taken == [])
          && (Running(s', w).Some? && !Running(s', w).value.Snapshot? ==>
                (Running(s, w).Some? && !Running(s, w).value.Snapshot?) || taken != [])
          && (taken != [] ==> MaySnap(s, w) && Owed(s, w, x) == 0 && taken == [Snap(w, taken[0].taken)])
          && (Owed(s, w, x) != 0 || Calls(s', x) != Calls(s, x) ==>
                Running(s, w).Some? && !Running(s, w).value.Snapshot?))
  }

  lemma AdvanceMoves(s: Session, o: Oracle, x: Thing)
    ensures Moved(s, Advance(o), StartStep(s, o), x)
  {
    hide StartStep, Ahead, Saw;
    if s.start.TearingDown? {
      StartTeardownStep(s, o, x);
      SawOne(s, Advance(o), x);
      SnapshotOwesNothing(s.backends, x);
      StartSnapshotDestroysNothing(s, o, x);
    } else if s.start.Driving? {
      DriveDestroysNothing(s, o);
    } else {
      OutsideDriveDestroysNothing(s, o);
      SnapshotOwesNothing(s.backends, x);
    }
  }

  lemma SnapshotOwesNothing(backends: set<Engine>, x: Thing)
    ensures Ahead(Snapshot, backends, x) == 0
  {}

  lemma StartSnapshotDestroysNothing(s: Session, o: Oracle, x: Thing)
    ensures s.start.TearingDown? && s.start.td.Snapshot? ==> Undisturbed(s, StartStep(s, o))
  {
    hide DriveStep;
  }

  lemma StopSnapshotDestroysNothing(s: Session, id: CallId)
    ensures id in s.stops && s.stops[id] == Stopping(Snapshot) ==> Undisturbed(s, StopStep(s, id))
  {}

  lemma EnteringDestroysNothing(s: Session, id: CallId)
    requires !(id in s.stops && s.stops[id].Stopping?)
    ensures var s' := StopStep(s, id);
            && Undisturbed(s, s') && s'.start == s.start
            && (s' == s || (id in s.stops && s.stops[id].Entering? && s'.stops == s.stops[id := Stopping(Snapshot)]))
  {
    hide TeardownStep, Transition;
  }

  lemma StopMoves(s: Session, id: CallId, x: Thing)
    ensures Moved(s, AdvanceStop(id), StopStep(s, id), x)
  {
    hide StopStep, Ahead, Saw;
    SawOne(s, AdvanceStop(id), x);
    SnapshotOwesNothing(s.backends, x);
    if id in s.stops && s.stops[id].Stopping? {
      StopTeardownStep(s, id, x);
      StopSnapshotDestroysNothing(s, id);
    } else {
      EnteringDestroysNothing(s, id);
    }
  }

  lemma StepMovesCounts(s: Session, a: Action, x: Thing)
    ensures Moved(s, a, Step(s, a), x)
  {
    match a {
      case Advance(o) => AdvanceMoves(s, o, x);
      case AdvanceStop(id) => StopMoves(s, id, x);
      case Call(id) =>
        hide StartStep, StopStep, Ahead;
    }
  }

  // ---- sums over the snapshots ------------------------------------------------------------------

  lemma SnappedLast(snaps: seq<Snap>, who: Caller)
    requires snaps != []
    ensures var n := |snaps| - 1; Snapped(snaps, who) <==> Snapped(snaps[..n], who) || snaps[n].who == who
  {
    var n := |snaps| - 1;
    assert snaps == snaps[..n] + [snaps[n]];
    SnappedAppend(snaps[..n], snaps[n], who);
  }

  lemma LastIsNew(snaps: seq<Snap>)
    requires snaps != [] && OncePerCaller(snaps)
    ensures var n := |snaps| - 1; !Snapped(snaps[..n], snaps[n].who)
  {
    var n := |snaps| - 1;
    forall i | 0 <= i < n ensures snaps[..n][i].who != snaps[n].who {
      assert snaps[i].who != snaps[n].who;
    }
  }

  // If only one caller's debt changes, the sum changes by as much, or not at all when
  // that caller has taken no snapshot.
  lemma {:induction false} SumMoves(s: Session, s': Session, snaps: seq<Snap>, w: Caller, x: Thing)
    requires OncePerCaller(snaps)
    requires forall who :: who != w ==> Owed(s', who, x) == Owed(s, who, x)
    ensures if Snapped(snaps, w) then OwedAll(s', snaps, x) + Owed(s, w, x) == OwedAll(s, snaps, x) + Owed(s', w, x)
            else OwedAll(s', snaps, x) == OwedAll(s, snaps, x)
    decreases |snaps|
  {
    hide Owed;
    if snaps != [] {
      SumMoves(s, s', snaps[..|snaps| - 1], w, x);
      SnappedLast(snaps, w);
      LastIsNew(snaps);
    }
  }

  lemma {:induction false} SumSame(s: Session, s': Session, snaps: seq<Snap>, x: Thing)
    requires forall who :: Owed(s', who, x) == Owed(s, who, x)
    ensures OwedAll(s', snaps, x) == OwedAll(s, snaps, x)
    decreases |snaps|
  {
    hide Owed;
    if snaps != [] {
      SumSame(s, s', snaps[..|snaps| - 1], x);
    }
  }

  lemma SumsAppend(s: Session, snaps: seq<Snap>, snap: Snap, x: Thing)
    ensures SawAll(snaps + [snap], s.backends, x) == SawAll(snaps, s.backends, x) + Saw(snap.taken, s.backends, x)
    ensures OwedAll(s, snaps + [snap], x) == OwedAll(s, snaps, x) + Owed(s, snap.who, x)
  {
    assert (snaps + [snap])[..|snaps|] == snaps;
  }

  lemma SnappedAppend(snaps: seq<Snap>, x: Snap, who: Caller)
    ensures Snapped(snaps + [x], who) <==> Snapped(snaps, who) || x.who == who
  {
    var all := snaps + [x];
    assert all[|snaps|] == x;
    if Snapped(snaps, who) {
      var i :| 0 <= i < |snaps| && snaps[i].who == who;
      assert all[i].who == who;
    }
  }

  // ---- every step keeps the count -----------------------------------------------------------------

  lemma WatchKeepsCallers(o: Watched, a: Action, x: Thing)
    requires CallersInv(o)
    ensures CallersInv(Watch(o, a))
  {
    hide Step, Owed, Ahead, MaySnap, Running, Taken;
    var s, s', taken := o.session, Step(o.session, a), Taken(o.session, a);
    StepMovesCounts(s, a, x);
    if taken == [] {
      assert o.snaps + taken == o.snaps;
    } else {
      TakenByStepper(s, a);
      var w := Stepping(a).value;
      assert o.snaps + taken == o.snaps + [taken[0]];
      forall who ensures Snapped(o.snaps + taken, who) <==> Snapped(o.snaps, who) || who == w {
        SnappedAppend(o.snaps, taken[0], who);
      }
      assert !Snapped(o.snaps, w);
    }
  }

  lemma TakenByStepper(s: Session, a: Action)
    ensures |Taken(s, a)| <= 1
    ensures Taken(s, a) != [] ==> Stepping(a) == Some(Taken(s, a)[0].who)
  {}

  lemma WatchKeepsCount(o: Watched, a: Action, x: Thing)
    requires CallersInv(o) && CountInv(o, x)
    ensures CountInv(Watch(o, a), x)
  {
    hide Step, Owed, Ahead, MaySnap, Running, Taken, Saw;
    var s, s', taken := o.session, Step(o.session, a), Taken(o.session, a);
    StepMovesCounts(s, a, x);
    TakenByStepper(s, a);
    if Stepping(a).None? {
      SumSame(s, s', o.snaps, x);
      assert taken == [] by { assert Stepping(a).None?; TakenNeedsStepper(s, a); }
      assert o.snaps + taken == o.snaps;
    } else {
      var w := Stepping(a).value;
      SumMoves(s, s', o.snaps, w, x);
      SawOne(s, a, x);
      if taken == [] {
        assert o.snaps + taken == o.snaps;
      } else {
        assert o.snaps + taken == o.snaps + [taken[0]];
        SumsAppend(s', o.snaps, taken[0], x);
        assert !Snapped(o.snaps, w);
      }
    }
  }

  lemma TakenNeedsStepper(s: Session, a: Action)
    requires Stepping(a).None?
    ensures Taken(s, a) == []
  {}

  lemma {:induction false} RunsKeepCount(o: Watched, actions: seq<Action>, x: Thing)
    requires CallersInv(o) && CountInv(o, x)
    ensures CallersInv(WatchAll(o, actions)) && CountInv(WatchAll(o, actions), x)
    decreases |actions|
  {
    hide CallersInv, CountInv, Watch;
    if actions != [] {
      WatchKeepsCallers(o, actions[0], x);
      WatchKeepsCount(o, actions[0], x);
      RunsKeepCount(Watch(o, actions[0]), actions[1..], x);
    }
  }
}
