// The counting law: a VM or a browser is disposed of as often as teardown snapshots saw
// it, for one session and in the daemon.
module SessionDisposal {
  import opened SessionMachine
  import opened SessionSafety
  import opened SessionSystem
  import opened SessionCounting

  // ---- the law ---------------------------------------------------------------------------------------

  lemma {:induction false} NothingOwed(s: Session, snaps: seq<Snap>, x: Thing)
    requires forall who :: Running(s, who).None?
    ensures OwedAll(s, snaps, x) == 0
    decreases |snaps|
  {
    if snaps != [] {
      NothingOwed(s, snaps[..|snaps| - 1], x);
    }
  }

  ghost function Watching(spec: Spec, backends: set<Engine>): Watched {
    Watched(NewSession(spec, backends), [])
  }

  lemma SettledCount(o: Watched, x: Thing)
    requires CountInv(o, x) && !InFlight(o.session)
    ensures Calls(o.session, x) == SawAll(o.snaps, o.session.backends, x)
  {
    forall who ensures Running(o.session, who).None? {
      if who.ByStop? {
        assert !StopInFlight(o.session, who.id);
      }
    }
    NothingOwed(o.session, o.snaps, x);
  }

  // In every interleaving of every call and outcome: with no call in flight, each VM has
  // had exactly as many destroy calls, and each handle as many terminate calls, as
  // teardown snapshots saw it.
  lemma DisposedAsOftenAsSeen(spec: Spec, backends: set<Engine>, actions: seq<Action>, x: Thing)
    requires !InFlight(WatchAll(Watching(spec, backends), actions).session)
    ensures var o := WatchAll(Watching(spec, backends), actions);
            Calls(o.session, x) == SawAll(o.snaps, o.session.backends, x)
  {
    hide Step;
    RunsKeepCount(Watching(spec, backends), actions, x);
    SettledCount(WatchAll(Watching(spec, backends), actions), x);
  }

  // Exactly one snapshot saw it, and in one slot only.
  ghost predicate SeenByExactlyOne(snaps: seq<Snap>, backends: set<Engine>, x: Thing) {
    exists i :: 0 <= i < |snaps| && Saw(snaps[i].taken, backends, x) == 1
      && forall j :: 0 <= j < |snaps| && j != i ==> Saw(snaps[j].taken, backends, x) == 0
  }

  lemma {:induction false} NoneSaw(snaps: seq<Snap>, backends: set<Engine>, x: Thing)
    ensures SawAll(snaps, backends, x) == 0 <==> forall j :: 0 <= j < |snaps| ==> Saw(snaps[j].taken, backends, x) == 0
    decreases |snaps|
  {
    hide Saw;
    if snaps != [] {
      var n := |snaps| - 1;
      NoneSaw(snaps[..n], backends, x);
      assert forall j :: 0 <= j < n ==> snaps[..n][j] == snaps[j];
    }
  }

  lemma {:induction false} OneSaw(snaps: seq<Snap>, backends: set<Engine>, x: Thing)
    ensures SawAll(snaps, backends, x) == 1 <==> SeenByExactlyOne(snaps, backends, x)
    decreases |snaps|
  {
    hide Saw;
    if snaps != [] {
      var n := |snaps| - 1;
      var front := snaps[..n];
      OneSaw(front, backends, x);
      NoneSaw(front, backends, x);
      assert forall j :: 0 <= j < n ==> front[j] == snaps[j];
      if SawAll(snaps, backends, x) == 1 {
        if Saw(snaps[n].taken, backends, x) == 1 {
          assert SeenByExactlyOne(snaps, backends, x);
        } else {
          var i :| 0 <= i < |front| && Saw(front[i].taken, backends, x) == 1
            && forall j :: 0 <= j < |front| && j != i ==> Saw(front[j].taken, backends, x) == 0;
          assert Saw(snaps[i].taken, backends, x) == 1;
        }
      }
      if SeenByExactlyOne(snaps, backends, x) {
        var i :| 0 <= i < |snaps| && Saw(snaps[i].taken, backends, x) == 1
          && forall j :: 0 <= j < |snaps| && j != i ==> Saw(snaps[j].taken, backends, x) == 0;
        if i < n {
          assert Saw(front[i].taken, backends, x) == 1;
          assert SeenByExactlyOne(front, backends, x);
        }
      }
    }
  }

  // So a VM or a browser has been disposed of exactly once if and only if exactly one
  // snapshot saw it: not at all when none did, and a VM several times when overlapping
  // teardowns all did.
  lemma DisposedOnceIffSeenOnce(spec: Spec, backends: set<Engine>, actions: seq<Action>, x: Thing)
    requires !InFlight(WatchAll(Watching(spec, backends), actions).session)
    ensures var o := WatchAll(Watching(spec, backends), actions);
            Calls(o.session, x) == 1 <==> SeenByExactlyOne(o.snaps, o.session.backends, x)
  {
    hide WatchAll;
    DisposedAsOftenAsSeen(spec, backends, actions, x);
    var o := WatchAll(Watching(spec, backends), actions);
    OneSaw(o.snaps, o.session.backends, x);
  }

  // ---- in the daemon ---------------------------------------------------------------------------------

  // The snapshots one input lets a session take, and those of a whole run of the daemon.
  ghost function TakenIn(y: Daemon, i: Input, sid: SessionId): seq<Snap> {
    if i.Proceed? && i.sid == sid && sid in y.sessions then
      var a := Effect(y, sid, y.sessions[sid], i.action, i.env).1;
      if a.Some? then Taken(y.sessions[sid], a.value) else []
    else []
  }

  ghost function SnapsOf(y: Daemon, taken: seq<Snap>, inputs: seq<Input>, sid: SessionId): seq<Snap>
    decreases |inputs|
  {
    if inputs == [] then taken
    else SnapsOf(Next(y, inputs[0]), taken + TakenIn(y, inputs[0], sid), inputs[1..], sid)
  }

  ghost predicate SessionCounted(y: Daemon, taken: seq<Snap>, sid: SessionId, x: Thing) {
    if sid in y.sessions
    then CallersInv(Watched(y.sessions[sid], taken)) && CountInv(Watched(y.sessions[sid], taken), x)
    else taken == []
  }

  lemma InputKeepsCount(y: Daemon, taken: seq<Snap>, i: Input, sid: SessionId, x: Thing)
    requires Admissible(y, i) && SessionCounted(y, taken, sid, x)
    ensures SessionCounted(Next(y, i), taken + TakenIn(y, i, sid), sid, x)
  {
    hide Effect, Step, Taken, CallersInv, CountInv;
    assert taken + [] == taken;
    match i {
      case Proceed(who, action, env) =>
        if who == sid && sid in y.sessions {
          var s := y.sessions[sid];
          var (y', a) := Effect(y, sid, s, action, env);
          EffectKeepsSessions(y, sid, s, action, env);
          if a.Some? {
            WatchKeepsCallers(Watched(s, taken), a.value, x);
            WatchKeepsCount(Watched(s, taken), a.value, x);
          }
        } else if who in y.sessions {
          EffectKeepsSessions(y, who, y.sessions[who], action, env);
        }
      case BeginStart(who, spec, hostAllowed) =>
        NothingTakenYet(spec, y.backends, x);
      case _ =>
    }
  }

  lemma EffectKeepsSessions(y: Daemon, sid: SessionId, s: Session, a: Action, env: Environment)
    ensures Effect(y, sid, s, a, env).0.sessions == y.sessions
  {
  }

  lemma NothingTakenYet(spec: Spec, backends: set<Engine>, x: Thing)
    ensures CallersInv(Watching(spec, backends)) && CountInv(Watching(spec, backends), x)
  {
  }

  lemma {:induction false} InputsKeepCount(y: Daemon, taken: seq<Snap>, inputs: seq<Input>, sid: SessionId, x: Thing)
    requires AllAdmissible(y, inputs) && SessionCounted(y, taken, sid, x)
    ensures SessionCounted(After(y, inputs), SnapsOf(y, taken, inputs, sid), sid, x)
    decreases |inputs|
  {
    hide SessionCounted, Next, Admissible, TakenIn;
    if inputs != [] {
      InputKeepsCount(y, taken, inputs[0], sid, x);
      InputsKeepCount(Next(y, inputs[0]), taken + TakenIn(y, inputs[0], sid), inputs[1..], sid, x);
    }
  }

  // Every handle a snapshot took can be reached: its engine's back-end is wired.
  ghost predicate AllReach(snaps: seq<Snap>, backends: set<Engine>) {
    forall k :: 0 <= k < |snaps| && snaps[k].taken.mode.HostProcess? ==> snaps[k].taken.mode.engine in backends
  }

  lemma InputKeepsReach(y: Daemon, taken: seq<Snap>, i: Input, sid: SessionId)
    requires Inv(y) && AllReach(taken, y.backends)
    ensures AllReach(taken + TakenIn(y, i, sid), y.backends) && Next(y, i).backends == y.backends
  {
    hide Effect, StoreInv, GatewayInv, ClaimBacked, Apart;
    if i.Proceed? && i.sid in y.sessions {
      StoreIsValid(y);
      EffectMovesLocks(y, i.sid, y.sessions[i.sid], i.action, i.env);
    }
    if TakenIn(y, i, sid) != [] {
      assert Recorded(y, y.sessions[sid]) && LocalInv(y.sessions[sid]);
      TakenReaches(y.sessions[sid], Effect(y, sid, y.sessions[sid], i.action, i.env).1.value);
    }
  }

  lemma StoreIsValid(y: Daemon)
    requires StoreInv(y)
    ensures ProfileStore.ValidStore(y.store)
  {}

  lemma TakenReaches(s: Session, a: Action)
    requires Safe(s)
    ensures AllReach(Taken(s, a), s.backends)
  {}

  lemma {:induction false} InputsKeepReach(y: Daemon, taken: seq<Snap>, inputs: seq<Input>, sid: SessionId)
    requires Inv(y) && AllAdmissible(y, inputs) && AllReach(taken, y.backends)
    ensures AllReach(SnapsOf(y, taken, inputs, sid), y.backends) && After(y, inputs).backends == y.backends
    decreases |inputs|
  {
    hide Inv, Next, Admissible, TakenIn, AllReach;
    if inputs != [] {
      NextKeepsInv(y, inputs[0]);
      InputKeepsReach(y, taken, inputs[0], sid);
      InputsKeepReach(Next(y, inputs[0]), taken + TakenIn(y, inputs[0], sid), inputs[1..], sid);
    }
  }

  lemma BackendsOf(y: Daemon, sid: SessionId)
    requires Inv(y) && sid in y.sessions
    ensures y.sessions[sid].backends == y.backends
  {
    hide StoreInv, GatewayInv, ClaimBacked, Apart, LocalInv;
    assert Recorded(y, y.sessions[sid]);
  }

  // The same law for each session of the daemon, whatever the other sessions, the store
  // and the gateway do in between; there every snapshot that takes a handle counts.
  lemma DaemonDisposesAsOftenAsSeen(backends: set<Engine>, inputs: seq<Input>, sid: SessionId, x: Thing)
    requires AllAdmissible(Boot(backends), inputs)
    requires var y := After(Boot(backends), inputs); sid in y.sessions && !InFlight(y.sessions[sid])
    ensures var snaps := SnapsOf(Boot(backends), [], inputs, sid);
            && Calls(After(Boot(backends), inputs).sessions[sid], x) == SawAll(snaps, backends, x)
            && AllReach(snaps, backends)
  {
    hide Inv, Next, TakenIn, InFlight, AllReach;
    var y := After(Boot(backends), inputs);
    ReachableIsInv(backends, []);
    assert Inv(Boot(backends));
    InputsKeepReach(Boot(backends), [], inputs, sid) by { NothingReaches(backends); }
    ReachableIsInv(backends, inputs);
    BackendsOf(y, sid);
    InputsKeepCount(Boot(backends), [], inputs, sid, x);
    SettledCount(Watched(y.sessions[sid], SnapsOf(Boot(backends), [], inputs, sid)), x);
  }

  lemma NothingReaches(backends: set<Engine>)
    ensures AllReach([], backends)
  {}
}
