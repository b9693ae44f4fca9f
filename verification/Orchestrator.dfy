// The orchestrator object: the shared session table and the critical sections that
// update it. The step functions of SessionMachine are what these sections do to one
// row; a teardown that nothing interrupts is shown as a whole.
module Orchestrator {
  import opened Errors
  import opened Preflight
  import opened SessionState
  import opened ProfileStore
  import opened SessionMachine
  import opened SessionSafety
  import opened SessionOwnership

  type SessionId = nat

  datatype VmRole = GatewayRole | BrowserRole

  // What a teardown does to the world outside the table, in order.
  datatype Effect =
    | BrowserTerminate(handle: HandleId)
    | DirectoryRemove(session: SessionId)
    | VmDestroy(vm: VmId)
    | LeaseRelease(lease: Lease)
    | RowClose(final: State)

  // A handle reaches its terminate call unless its host engine has no backend.
  function HandleEffects(handle: Option<HandleId>, mode: Mode, backends: set<Engine>): seq<Effect> {
    if handle.Some? && (mode.FullVm? || mode.engine in backends) then [BrowserTerminate(handle.value)] else []
  }

  function DirectoryEffects(id: SessionId, mode: Mode): seq<Effect> {
    if mode.HostProcess? && mode.ephemeral then [DirectoryRemove(id)] else []
  }

  function VmEffects(vm: Option<VmId>): seq<Effect> {
    if vm.Some? then [VmDestroy(vm.value)] else []
  }

  function VmsEffects(vms: seq<Option<VmId>>): seq<Effect> {
    if vms == [] then [] else VmsEffects(vms[..|vms| - 1]) + VmEffects(vms[|vms| - 1])
  }

  // A whole teardown of a row.
  function TeardownEffects(id: SessionId, e: Entry, final: State, backends: set<Engine>): seq<Effect> {
    HandleEffects(e.handle, e.mode, backends) + DirectoryEffects(id, e.mode)
    + VmEffects(e.browserVm) + VmEffects(e.gatewayVm) + [LeaseRelease(e.lease), RowClose(final)]
  }

  lemma VmsEffectsPair(a: Option<VmId>, b: Option<VmId>)
    ensures VmsEffects([a, b]) == VmEffects(a) + VmEffects(b)
  {
    assert [a, b][..1] == [a] && [a][..0] == [];
    assert VmsEffects([a]) == VmsEffects([]) + VmEffects(a);
    assert VmsEffects([a, b]) == VmsEffects([a]) + VmEffects(b);
  }

  lemma InOrder(before: seq<Effect>, id: SessionId, e: Entry, final: State, backends: set<Engine>)
    ensures before + HandleEffects(e.handle, e.mode, backends) + DirectoryEffects(id, e.mode)
            + (VmEffects(e.browserVm) + VmEffects(e.gatewayVm)) + [LeaseRelease(e.lease)] + [RowClose(final)]
            == before + TeardownEffects(id, e, final, backends)
  {
    hide HandleEffects, DirectoryEffects, VmEffects;
  }

  // Torn down once more, a closed row has nothing left to terminate or destroy.
  lemma ClosedRowHoldsNothing(id: SessionId, e: Entry, final: State, again: State, backends: set<Engine>)
    ensures TeardownEffects(id, Finish(e, final), again, backends)
            == DirectoryEffects(id, e.mode) + [LeaseRelease(e.lease), RowClose(again)]
  {
  }

  // The row a stop leaves behind its Closing attempt, which it ignores the failure of.
  function TryClose(e: Entry): Entry {
    if e.state.CanTransitionTo(Closing) then e.(state := Closing) else e
  }

  lemma TakenThenClosed(sessions: map<SessionId, Entry>, id: SessionId, final: State)
    requires id in sessions
    ensures var taken := TakeResources(sessions[id]).0;
            sessions[id := taken][id := Finish(taken, final)] == sessions[id := Finish(sessions[id], final)]
  {}

  // A lock taken and given back without a fault leaves the store as it was.
  lemma LockGivenBack(s: Store, profile: ProfileId, token: Token, fault: LockFault)
    ensures var (locked, l) := AcquireLock(s, profile, token, fault);
            l.Ok? ==> ReleaseLock(locked, l.value, NoFault) == (s, Ok(()))
  {
    var (locked, l) := AcquireLock(s, profile, token, fault);
    if l.Ok? {
      assert locked.locks - {profile} == s.locks;
    }
  }

  class SessionTable {
    var sessions: map<SessionId, Entry>
    const store: FileProfileStore
    const backends: set<Engine>
    var effects: seq<Effect>

    constructor (store: FileProfileStore, backends: set<Engine>)
      ensures sessions == map[] && this.store == store && this.backends == backends
      ensures effects == []
    {
      this.sessions := map[];
      this.store := store;
      this.backends := backends;
      this.effects := [];
    }

    method Register(id: SessionId, lease: Lease)
      modifies this`sessions
      ensures sessions == old(sessions)[id := NewEntry(lease)]
    {
      sessions := sessions[id := NewEntry(lease)];
    }

    // The first part of a start: lock the profile, draw the session's key, register the
    // row. A failing key draw gives the lock back.
    method OpenSession(
        id: SessionId, profile: ProfileId, token: Token, fault: LockFault, key: Option<Error>, back: LockFault)
      returns (r: Result<Lease>)
      modifies this`sessions, store
      ensures var (locked, l) := AcquireLock(old(store.View()), profile, token, fault);
              && (l.Err? ==> r == l && store.View() == locked && sessions == old(sessions))
              && (l.Ok? && key.Some? ==>
                    && r == Err(key.value) && sessions == old(sessions)
                    && store.View() == ReleaseLock(locked, l.value, back).0
                    && (back == NoFault ==> store.View() == old(store.View())))
              && (l.Ok? && key.None? ==>
                    r == l && store.View() == locked && sessions == old(sessions)[id := NewEntry(l.value)])
    {
      var l := store.Acquire(profile, token, fault);
      if l.Err? {
        return l;
      }
      if key.Some? {
        LockGivenBack(old(store.View()), profile, token, fault);
        var _ := store.Release(l.value, back);
        return Err(key.value);
      }
      Register(id, l.value);
      return l;
    }

    method MoveState(id: SessionId, next: State) returns (r: Result<()>)
      modifies this`sessions
      ensures r.Ok? <==> id in old(sessions) && old(sessions)[id].state.CanTransitionTo(next)
      ensures r.Ok? ==> sessions == old(sessions)[id := old(sessions)[id].(state := next)]
                        && Transition(old(sessions)[id], next) == Ok(sessions[id])
      ensures r.Err? ==> sessions == old(sessions) && r.error == if id in old(sessions) then Internal else NotFound
    {
      if id !in sessions {
        return Err(NotFound);
      }
      var e := sessions[id];
      if !e.state.CanTransitionTo(next) {
        return Err(Internal);
      }
      sessions := sessions[id := e.(state := next)];
      return Ok(());
    }

    method SetVm(id: SessionId, role: VmRole, vm: VmId) returns (r: Result<()>)
      modifies this`sessions
      ensures id in old(sessions) ==>
                && r == Ok(())
                && var e := old(sessions)[id];
                   sessions == old(sessions)[id := if role == GatewayRole then e.(gatewayVm := Some(vm))
                                                   else e.(browserVm := Some(vm))]
      ensures id !in old(sessions) ==> r == Err(Internal) && sessions == old(sessions)
    {
      if id !in sessions {
        return Err(Internal);
      }
      match role {
        case GatewayRole => sessions := sessions[id := sessions[id].(gatewayVm := Some(vm))];
        case BrowserRole => sessions := sessions[id := sessions[id].(browserVm := Some(vm))];
      }
      return Ok(());
    }

    method SetBrowserHandle(id: SessionId, handle: HandleId) returns (r: Result<()>)
      modifies this`sessions
      ensures id in old(sessions) ==>
                r == Ok(()) && sessions == old(sessions)[id := old(sessions)[id].(handle := Some(handle))]
      ensures id !in old(sessions) ==> r == Err(Internal) && sessions == old(sessions)
    {
      if id !in sessions {
        return Err(Internal);
      }
      sessions := sessions[id := sessions[id].(handle := Some(handle))];
      return Ok(());
    }

    method StoreChecklist(id: SessionId, list: Checklist)
      modifies this`sessions
      ensures sessions == if id in old(sessions) then old(sessions)[id := RecordChecklist(old(sessions)[id], list)]
                          else old(sessions)
    {
      if id in sessions {
        var e := sessions[id];
        e := e.(protection := list.Status());
        e := e.(publicIp := if list.observedIp.Some? then Some(list.observedIp.value.ip) else None);
        e := e.(checklist := Some(list));
        sessions := sessions[id := e];
      }
    }

    // Forced power-off and destroy, browser first; a row holding no VM of a kind makes no call.
    method DestroyVms(vms: seq<Option<VmId>>)
      modifies this`effects
      ensures effects == old(effects) + VmsEffects(vms)
    {
      for i := 0 to |vms|
        invariant effects == old(effects) + VmsEffects(vms[..i])
      {
        assert vms[..i + 1][..i] == vms[..i];
        if vms[i].Some? {
          effects := effects + [VmDestroy(vms[i].value)];
        }
      }
      assert vms[..|vms|] == vms;
    }

    method Take(id: SessionId) returns (r: Resources)
      requires id in sessions
      modifies this`sessions
      ensures r == TakeResources(old(sessions)[id]).1
      ensures sessions == old(sessions)[id := TakeResources(old(sessions)[id]).0]
    {
      var (taken, held) := TakeResources(sessions[id]);
      sessions := sessions[id := taken];
      r := held;
    }

    method Close(id: SessionId, final: State)
      modifies this`sessions, this`effects
      ensures sessions == if id !in old(sessions) then old(sessions)
                          else old(sessions)[id := Finish(old(sessions)[id], final)]
      ensures effects == if id !in old(sessions) then old(effects) else old(effects) + [RowClose(final)]
    {
      if id in sessions {
        sessions := sessions[id := Finish(sessions[id], final)];
        effects := effects + [RowClose(final)];
      }
    }

    method TerminateBrowser(r: Resources)
      modifies this`effects
      ensures effects == old(effects) + HandleEffects(r.handle, r.mode, backends)
    {
      if r.handle.Some? {
        if r.mode.FullVm? || r.mode.engine in backends {
          effects := effects + [BrowserTerminate(r.handle.value)];
        }
      }
    }

    method RemoveHostDirectory(id: SessionId, mode: Mode)
      modifies this`effects
      ensures effects == old(effects) + DirectoryEffects(id, mode)
    {
      if mode.HostProcess? && mode.ephemeral {
        effects := effects + [DirectoryRemove(id)];
      }
    }

    method GiveBack(lease: Lease, fault: LockFault)
      modifies this`effects, store
      ensures store.View() == ReleaseLock(old(store.View()), lease, fault).0
      ensures effects == old(effects) + [LeaseRelease(lease)]
    {
      var _ := store.Release(lease, fault);
      effects := effects + [LeaseRelease(lease)];
    }

    // The whole teardown, run without interruption: the handle is taken and terminated,
    // a disposable host directory removed, both VMs are destroyed, the lease is given
    // back, and the row is closed, in this order.
    method Teardown(id: SessionId, markFailed: bool, fault: LockFault)
      modifies this, store
      ensures id !in old(sessions) ==>
                && sessions == old(sessions) && effects == old(effects) && store.View() == old(store.View())
      ensures id in old(sessions) ==>
                var e, final := old(sessions)[id], if markFailed then Failed else Destroyed;
                && sessions == old(sessions)[id := Finish(e, final)]
                && effects == old(effects) + TeardownEffects(id, e, final, backends)
                && store.View() == ReleaseLock(old(store.View()), e.lease, fault).0
    {
      hide HandleEffects, DirectoryEffects, VmEffects, VmsEffects, TeardownEffects, ReleaseLock;
      if id in sessions {
        var final := if markFailed then Failed else Destroyed;
        TakenThenClosed(sessions, id, final);
        var r := Take(id);
        TerminateBrowser(r);
        RemoveHostDirectory(id, r.mode);
        DestroyVms([r.browserVm, r.gatewayVm]);
        VmsEffectsPair(r.browserVm, r.gatewayVm);
        GiveBack(r.lease, fault);
        Close(id, final);
        InOrder(old(effects), id, old(sessions)[id], final, backends);
      }
    }

    method StopSession(id: SessionId, fault: LockFault) returns (r: Result<SessionSummary>)
      modifies this, store
      ensures r.Err? <==> id !in old(sessions)
      ensures r.Err? ==> r.error == NotFound && sessions == old(sessions) && effects == old(effects)
                         && store.View() == old(store.View())
      ensures r.Ok? ==>
                var e := old(sessions)[id];
                && sessions == old(sessions)[id := Finish(e, Destroyed)]
                && r.value == Finish(e, Destroyed).Summary()
                && effects == old(effects) + TeardownEffects(id, e, Destroyed, backends)
                && store.View() == ReleaseLock(old(store.View()), e.lease, fault).0
    {
      if id !in sessions {
        return Err(NotFound);
      }
      ghost var e := sessions[id];
      var _ := MoveState(id, Closing);
      assert sessions[id] == TryClose(e);
      Teardown(id, false, fault);
      return Ok(sessions[id].Summary());
    }

    // A second stop terminates and destroys nothing more, and the lease it gives back
    // again frees nobody else's lock.
    method StopTwice(id: SessionId, f1: LockFault, f2: LockFault)
      requires id in sessions
      modifies this, store
      ensures var e := old(sessions)[id];
              && effects == old(effects) + TeardownEffects(id, e, Destroyed, backends)
                            + DirectoryEffects(id, e.mode) + [LeaseRelease(e.lease), RowClose(Destroyed)]
              && (old(store.View()).locks.Keys - {e.lease.profile} <= store.View().locks.Keys)
              && (ReleaseLock(old(store.View()), e.lease, NoFault).1.Err? ==> store.View() == old(store.View()))
    {
      var first := StopSession(id, f1);
      ClosedRowHoldsNothing(id, old(sessions)[id], Destroyed, Destroyed, backends);
      var second := StopSession(id, f2);
    }
  }

  // ---- the object and the machine agree -------------------------------------------------

  ghost function StopSteps(s: Session, id: CallId, n: nat): Session
    decreases n
  {
    if n == 0 then s else StopSteps(StopStep(s, id), id, n - 1)
  }

  predicate StopsAt(s: Session, id: CallId, td: Teardown) {
    id in s.stops && s.stops[id] == Stopping(td)
  }

  // What one step past the snapshot does, and all that are left.
  function StepEffects(sid: SessionId, td: Teardown, backends: set<Engine>): seq<Effect> {
    match td
    case Snapshot => []
    case Terminate(r) => HandleEffects(r.handle, r.mode, backends)
    case RemoveDirectory(r) => DirectoryEffects(sid, r.mode)
    case DestroyBrowser(r) => VmEffects(r.browserVm)
    case DestroyGateway(r) => VmEffects(r.gatewayVm)
    case ReleaseLease(r) => [LeaseRelease(r.lease)]
    case WriteFinal(_) => [RowClose(Destroyed)]
  }

  function EffectsLeft(sid: SessionId, td: Teardown, backends: set<Engine>): seq<Effect>
    decreases StepsLeft(td)
  {
    if td.Snapshot? || td.WriteFinal? then StepEffects(sid, td, backends)
    else StepEffects(sid, td, backends) + EffectsLeft(sid, Following(td), backends)
  }

  lemma TeardownStepByStep(sid: SessionId, e: Entry, backends: set<Engine>)
    ensures EffectsLeft(sid, Terminate(TakeResources(e).1), backends) == TeardownEffects(sid, e, Destroyed, backends)
  {
    hide HandleEffects, DirectoryEffects, VmEffects;
    var r := TakeResources(e).1;
    assert EffectsLeft(sid, ReleaseLease(r), backends)
           == [LeaseRelease(r.lease)] + EffectsLeft(sid, WriteFinal(r), backends);
    assert EffectsLeft(sid, DestroyGateway(r), backends)
           == VmEffects(r.gatewayVm) + EffectsLeft(sid, ReleaseLease(r), backends);
    assert EffectsLeft(sid, DestroyBrowser(r), backends)
           == VmEffects(r.browserVm) + EffectsLeft(sid, DestroyGateway(r), backends);
    assert EffectsLeft(sid, RemoveDirectory(r), backends)
           == DirectoryEffects(sid, r.mode) + EffectsLeft(sid, DestroyBrowser(r), backends);
    assert EffectsLeft(sid, Terminate(r), backends)
           == HandleEffects(r.handle, r.mode, backends) + EffectsLeft(sid, RemoveDirectory(r), backends);
  }

  // ---- effects in the machine's own terms ------------------------------------------------

  function EventOf(effect: Effect, who: Caller): Event {
    match effect
    case BrowserTerminate(_) => BrowserTerminated(who)
    case DirectoryRemove(_) => DirectoryRemoved(who)
    case VmDestroy(_) => VmDestroyed(who)
    case LeaseRelease(_) => LockReleased(who)
    case RowClose(_) => FinalStateWritten(who)
  }

  function Events(effects: seq<Effect>, who: Caller): seq<Event> {
    seq(|effects|, i requires 0 <= i < |effects| => EventOf(effects[i], who))
  }

  function VmsIn(effect: Effect): multiset<VmId> {
    if effect.VmDestroy? then multiset{effect.vm} else multiset{}
  }

  function VmsOf(effects: seq<Effect>): multiset<VmId> {
    if effects == [] then multiset{} else VmsIn(effects[0]) + VmsOf(effects[1..])
  }

  function HandlesIn(effect: Effect): multiset<HandleId> {
    if effect.BrowserTerminate? then multiset{effect.handle} else multiset{}
  }

  function HandlesOf(effects: seq<Effect>): multiset<HandleId> {
    if effects == [] then multiset{} else HandlesIn(effects[0]) + HandlesOf(effects[1..])
  }

  // Between two states of a session, `who` had exactly these effects, in this order.
  ghost predicate Had(s: Session, s': Session, effects: seq<Effect>, who: Caller) {
    && s'.log == s.log + Events(effects, who)
    && s'.destroyed == s.destroyed + VmsOf(effects)
    && s'.terminated == s.terminated + HandlesOf(effects)
    && s'.backends == s.backends
  }

  lemma EventsAppend(a: seq<Effect>, b: seq<Effect>, who: Caller)
    ensures Events(a + b, who) == Events(a, who) + Events(b, who)
  {
    hide EventOf;
  }

  lemma {:induction false} VmsAppend(a: seq<Effect>, b: seq<Effect>)
    ensures VmsOf(a + b) == VmsOf(a) + VmsOf(b)
  {
    hide VmsIn;
    if a == [] {
      assert a + b == b;
    } else {
      VmsAppend(a[1..], b);
      assert (a + b)[0] == a[0] && (a + b)[1..] == a[1..] + b;
    }
  }

  lemma {:induction false} HandlesAppend(a: seq<Effect>, b: seq<Effect>)
    ensures HandlesOf(a + b) == HandlesOf(a) + HandlesOf(b)
  {
    hide HandlesIn;
    if a == [] {
      assert a + b == b;
    } else {
      HandlesAppend(a[1..], b);
      assert (a + b)[0] == a[0] && (a + b)[1..] == a[1..] + b;
    }
  }

  lemma OneEffect(x: Effect, who: Caller)
    ensures Events([x], who) == [EventOf(x, who)] && VmsOf([x]) == VmsIn(x) && HandlesOf([x]) == HandlesIn(x)
    ensures Events([], who) == [] && VmsOf([]) == multiset{} && HandlesOf([]) == multiset{}
  {
    assert [x][1..] == [];
  }

  lemma HadBoth(s: Session, t: Session, u: Session, a: seq<Effect>, b: seq<Effect>, who: Caller)
    requires Had(s, t, a, who) && Had(t, u, b, who)
    ensures Had(s, u, a + b, who)
  {
    hide Events, VmsOf, HandlesOf;
    EventsAppend(a, b, who);
    VmsAppend(a, b);
    HandlesAppend(a, b);
  }

  lemma SnapshotStep(s: Session, id: CallId)
    requires s.entry.Some? && StopsAt(s, id, Snapshot)
    ensures var s' := StopStep(s, id);
            && s'.entry == Some(TakeResources(s.entry.value).0) && Had(s, s', [], ByStop(id))
            && StopsAt(s', id, Terminate(TakeResources(s.entry.value).1))
  {}

  lemma NoEffect(s: Session, s': Session, who: Caller)
    requires s' == s
    ensures Had(s, s', [], who)
  {}

  lemma TerminateHad(s: Session, who: Caller, r: Resources)
    ensures Had(s, TeardownStep(s, who, Terminate(r)).0, HandleEffects(r.handle, r.mode, s.backends), who)
  {
    hide Events, VmsOf, HandlesOf;
    if r.handle.Some? && (r.mode.FullVm? || r.mode.engine in s.backends) {
      OneEffect(BrowserTerminate(r.handle.value), who);
    } else {
      hide Had;
      NoEffect(s, s, who);
    }
  }

  lemma DestroyHad(s: Session, who: Caller, vm: Option<VmId>)
    ensures Had(s, DestroyVm(s, who, vm), VmEffects(vm), who)
  {
    hide Events, VmsOf, HandlesOf;
    if vm.Some? {
      OneEffect(VmDestroy(vm.value), who);
    } else {
      hide Had;
      NoEffect(s, s, who);
    }
  }

  lemma DisposingStep(s: Session, id: CallId, td: Teardown, sid: SessionId)
    requires s.entry.Some? && StopsAt(s, id, td) && (td.Terminate? || td.DestroyBrowser? || td.DestroyGateway?)
    ensures var s' := StopStep(s, id);
            Had(s, s', StepEffects(sid, td, s.backends), ByStop(id)) && s'.entry == s.entry
  {
    hide Events, VmsOf, HandlesOf, HandleEffects, VmEffects, DestroyVm;
    TeardownRow(s, ByStop(id), td);
    match td
    case Terminate(r) => TerminateHad(s, ByStop(id), r);
    case DestroyBrowser(r) => DestroyHad(s, ByStop(id), r.browserVm);
    case DestroyGateway(r) => DestroyHad(s, ByStop(id), r.gatewayVm);
  }

  lemma EmitHad(s: Session, s': Session, x: Effect, who: Caller)
    requires x.DirectoryRemove? || x.LeaseRelease? || x.RowClose?
    requires s'.log == s.log + [EventOf(x, who)]
    requires s'.destroyed == s.destroyed && s'.terminated == s.terminated && s'.backends == s.backends
    ensures Had(s, s', [x], who)
  {
    hide Events, VmsOf, HandlesOf;
    OneEffect(x, who);
  }

  lemma ClosingStep(s: Session, id: CallId, td: Teardown, sid: SessionId)
    requires s.entry.Some? && StopsAt(s, id, td) && (td.RemoveDirectory? || td.ReleaseLease? || td.WriteFinal?)
    ensures var s' := StopStep(s, id);
            && Had(s, s', StepEffects(sid, td, s.backends), ByStop(id))
            && s'.entry == if td.WriteFinal? then Some(Finish(s.entry.value, Destroyed)) else s.entry
  {
    hide Events, VmsOf, HandlesOf;
    var effects := StepEffects(sid, td, s.backends);
    if effects != [] {
      hide Had;
      EmitHad(s, StopStep(s, id), effects[0], ByStop(id));
    } else {
      OneEffect(RowClose(Destroyed), ByStop(id));
    }
  }

  lemma {:induction false} TeardownAlone(s: Session, id: CallId, td: Teardown, sid: SessionId)
    requires s.entry.Some? && StopsAt(s, id, td) && !td.Snapshot?
    ensures var s' := StopSteps(s, id, StepsLeft(td));
            && id in s'.stops && s'.stops[id] == Stopped
            && s'.entry == Some(Finish(s.entry.value, Destroyed))
            && Had(s, s', EffectsLeft(sid, td, s.backends), ByStop(id))
    decreases StepsLeft(td)
  {
    hide StopStep, Had, StepEffects, Finish;
    var s' := StopStep(s, id);
    if td.RemoveDirectory? || td.ReleaseLease? || td.WriteFinal? {
      ClosingStep(s, id, td, sid);
    } else {
      DisposingStep(s, id, td, sid);
    }
    StopFollows(s, id);
    if td.WriteFinal? {
      assert StopSteps(s, id, 1) == StopSteps(s', id, 0) == s';
    } else {
      assert s'.backends == s.backends by { BackendsStay(s, s', StepEffects(sid, td, s.backends), ByStop(id)); }
      TeardownAlone(s', id, Following(td), sid);
      HadBoth(s, s', StopSteps(s, id, StepsLeft(td)), StepEffects(sid, td, s.backends),
              EffectsLeft(sid, Following(td), s.backends), ByStop(id));
    }
  }

  lemma BackendsStay(s: Session, s': Session, effects: seq<Effect>, who: Caller)
    requires Had(s, s', effects, who)
    ensures s'.backends == s.backends
  {}

  // Eight uninterrupted steps of one stop call do to the row, and have exactly the effects
  // in exactly the order, that the sequential StopSession does and has.
  lemma StopAloneMatchesStopSession(s: Session, id: CallId, sid: SessionId)
    requires s.entry.Some? && id in s.stops && s.stops[id] == Entering
    ensures var s', e := StopSteps(s, id, 8), s.entry.value;
            && id in s'.stops && s'.stops[id] == Stopped
            && s'.entry == Some(Finish(e, Destroyed))
            && Had(s, s', TeardownEffects(sid, e, Destroyed, s.backends), ByStop(id))
  {
    hide TeardownStep, TeardownEffects, EffectsLeft;
    var closed := StopStep(s, id);
    assert closed.entry == Some(TryClose(s.entry.value));
    assert Had(s, closed, [], ByStop(id));
    SnapshotStep(closed, id);
    var taken := StopStep(closed, id);
    TeardownAlone(taken, id, taken.stops[id].td, sid);
    TeardownStepByStep(sid, closed.entry.value, s.backends);
    SameEffects(sid, s.entry.value, Destroyed, s.backends);
    var s' := StopSteps(s, id, 8);
    HadBoth(s, closed, taken, [], [], ByStop(id));
    HadBoth(s, taken, s', [], TeardownEffects(sid, s.entry.value, Destroyed, s.backends), ByStop(id));
  }

  lemma SameEffects(sid: SessionId, e: Entry, final: State, backends: set<Engine>)
    ensures TeardownEffects(sid, TryClose(e), final, backends) == TeardownEffects(sid, e, final, backends)
  {}

  // The sixth of these steps leaves the stop at the release, of the row's own lease.
  lemma StopAloneReleasesOwnLease(s: Session, id: CallId)
    requires s.entry.Some? && id in s.stops && s.stops[id] == Entering
    ensures Releasing(StopSteps(s, id, 6), AdvanceStop(id)) == Some(s.entry.value.lease)
  {
    hide TeardownStep;
    var closed := StopStep(s, id);
    assert closed.entry == Some(TryClose(s.entry.value));
    SnapshotStep(closed, id);
    var r := TakeResources(closed.entry.value).1;
    ReachesRelease(StopStep(closed, id), id, Terminate(r), r);
  }

  lemma {:induction false} ReachesRelease(s: Session, id: CallId, td: Teardown, r: Resources)
    requires s.entry.Some? && StopsAt(s, id, td) && StepsLeft(td) <= 6
    requires td in [Terminate(r), RemoveDirectory(r), DestroyBrowser(r), DestroyGateway(r), ReleaseLease(r)]
    ensures StopsAt(StopSteps(s, id, StepsLeft(td) - 2), id, ReleaseLease(r))
    decreases StepsLeft(td)
  {
    hide StopStep;
    if !td.ReleaseLease? {
      StopFollows(s, id);
      ReachesRelease(StopStep(s, id), id, Following(td), r);
    }
  }
}
