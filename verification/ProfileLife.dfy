// The life of a profile under the daemon: who may start on it, and that a deletion is final.
module ProfileLife {
  import opened ProfileStore
  import opened SessionMachine
  import opened SessionSafety
  import opened SessionCleanup
  import opened SessionOrder
  import opened SessionOwnership
  import opened SessionGateway
  import opened SessionSystem

  // ---- who starts ---------------------------------------------------------------------

  // A start is admitted on a profile that can be read; one in the host process only if the
  // daemon allows that and has the engine.
  lemma AdmittedIff(y: Daemon, sid: SessionId, spec: Spec, hostAllowed: bool)
    requires sid !in y.sessions
    ensures var y' := Next(y, BeginStart(sid, spec, hostAllowed));
            && (sid in y'.sessions <==>
                  && spec.profile in y.store.profiles && y.store.profiles[spec.profile].Metadata?
                  && (spec.host ==> hostAllowed && spec.engine in y.backends))
            && (sid in y'.sessions ==>
                  y'.sessions[sid].spec == spec && y'.sessions[sid].entry.None? && y'.sessions[sid].start.Locking?)
            && y' == y.(sessions := y'.sessions) && y'.sessions - {sid} == y.sessions
  {}

  ghost predicate Began(i: Input, sid: SessionId, spec: Spec) {
    i.BeginStart? && i.sid == sid && i.spec == spec && (spec.host ==> i.hostAllowed)
  }

  lemma NextHasBegun(y: Daemon, i: Input, sid: SessionId)
    requires Inv(y) && Admissible(y, i) && sid in Next(y, i).sessions
    ensures var s := Next(y, i).sessions[sid];
            || (sid in y.sessions && y.sessions[sid].spec == s.spec && y.sessions[sid].backends == s.backends)
            || (Began(i, sid, s.spec) && s.backends == y.backends && (s.spec.host ==> s.spec.engine in y.backends))
  {
    hide Effect, Step, StoreInv, GatewayInv, Recorded, ClaimBacked, Apart, LocalInv, Moves;
    if i.Proceed? && i.sid in y.sessions {
      var s, a := y.sessions[i.sid], Effect(y, i.sid, y.sessions[i.sid], i.action, i.env).1;
      assert LocalInv(s);
      SessionsUnchanged(y, i.sid, s, i.action, i.env);
      if a.Some? {
        KeepsSpec(s, a.value);
      }
    }
  }

  lemma SessionsUnchanged(y: Daemon, sid: SessionId, s: Session, a: Action, env: Environment)
    ensures Effect(y, sid, s, a, env).0.sessions == y.sessions
  {
    hide Turn;
  }

  lemma KeepsSpec(s: Session, a: Action)
    requires LocalInv(s)
    ensures Step(s, a).spec == s.spec && Step(s, a).backends == s.backends
  {
    hide Step, Safe, EvidenceInv, AccountInv, OrderInv, OnceInv, OwnInv;
    StepMoves(s, a);
  }

  ghost predicate BeganIn(inputs: seq<Input>, sid: SessionId, spec: Spec) {
    exists k :: 0 <= k < |inputs| && Began(inputs[k], sid, spec)
  }

  lemma {:induction false} SessionsHaveBegun(y: Daemon, inputs: seq<Input>, sid: SessionId)
    requires Inv(y) && AllAdmissible(y, inputs) && sid in After(y, inputs).sessions
    ensures var s := After(y, inputs).sessions[sid];
            || (sid in y.sessions && y.sessions[sid].spec == s.spec) || BeganIn(inputs, sid, s.spec)
    decreases |inputs|
  {
    hide Inv, Next, Admissible, Began;
    if inputs != [] {
      var y' := Next(y, inputs[0]);
      NextKeepsInv(y, inputs[0]);
      SessionsHaveBegun(y', inputs[1..], sid);
      var spec := After(y, inputs).sessions[sid].spec;
      if BeganIn(inputs[1..], sid, spec) {
        var k :| 0 <= k < |inputs[1..]| && Began(inputs[1..][k], sid, spec);
        assert inputs[k + 1] == inputs[1..][k];
      } else {
        NextHasBegun(y, inputs[0], sid);
        assert Began(inputs[0], sid, spec) ==> BeganIn(inputs, sid, spec);
      }
    }
  }

  // In every run, each session is the one some caller asked for, and one in the host
  // process was asked for while the daemon allowed that.
  lemma HostSessionsWereAllowed(backends: set<Engine>, inputs: seq<Input>, sid: SessionId)
    requires AllAdmissible(Boot(backends), inputs) && sid in After(Boot(backends), inputs).sessions
    ensures BeganIn(inputs, sid, After(Boot(backends), inputs).sessions[sid].spec)
  {
    hide Inv;
    ReachableIsInv(backends, []);
    SessionsHaveBegun(Boot(backends), inputs, sid);
  }

  // ---- what happens to the profile -----------------------------------------------------------

  // Creating, renaming and deleting act on one profile, and on no session or lock but the
  // deleted profile's.
  lemma InputsActOnTheirProfile(y: Daemon, id: ProfileId, meta: Metadata, name: string)
    ensures Next(y, CreateProfile(id, meta)).store == Store(y.store.profiles[id := meta], y.store.locks)
    ensures id in y.store.profiles && y.store.profiles[id].Metadata? ==>
              Next(y, RenameProfile(id, name)).store
              == Store(y.store.profiles[id := Metadata(name, y.store.profiles[id].lastLaunched)], y.store.locks)
    ensures id in y.store.profiles ==>
              Next(y, DeleteProfile(id, Shredded)).store == Store(y.store.profiles - {id}, y.store.locks - {id})
  {
    if id !in y.store.locks {
      assert y.store.locks - {id} == y.store.locks;
    }
  }

  ghost predicate Gone(y: Daemon, p: ProfileId) {
    p in y.profiles && p !in y.store.profiles && p !in y.store.locks
  }

  lemma NextStaysGone(y: Daemon, i: Input, p: ProfileId)
    requires Inv(y) && Admissible(y, i) && Gone(y, p)
    ensures Gone(Next(y, i), p)
  {
    hide LocalInv, Recorded, ClaimBacked, Apart, GatewayInv, Step;
    if i.Proceed? && i.sid in y.sessions {
      hide Effect;
      EffectMovesLocks(y, i.sid, y.sessions[i.sid], i.action, i.env);
      NextKeepsInv(y, i);
    } else {
      hide StoreInv;
    }
  }

  lemma {:induction false} StaysGone(y: Daemon, inputs: seq<Input>, p: ProfileId)
    requires Inv(y) && AllAdmissible(y, inputs) && Gone(y, p)
    ensures Gone(After(y, inputs), p)
    decreases |inputs|
  {
    hide Inv, Next, Admissible, Gone;
    if inputs != [] {
      NextKeepsInv(y, inputs[0]);
      NextStaysGone(y, inputs[0], p);
      StaysGone(Next(y, inputs[0]), inputs[1..], p);
    }
  }

  // Once a deletion has succeeded, neither the profile nor its lock is ever there again,
  // whatever the sessions that had it still do, and nobody can start on it.
  lemma DeletedIsGone(backends: set<Engine>, before: seq<Input>, p: ProfileId, after: seq<Input>)
    requires AllAdmissible(Boot(backends), before) && p in After(Boot(backends), before).store.profiles
    requires AllAdmissible(Next(After(Boot(backends), before), DeleteProfile(p, Shredded)), after)
    ensures var y := After(Next(After(Boot(backends), before), DeleteProfile(p, Shredded)), after);
            && p !in y.store.profiles && p !in y.store.locks
            && forall sid, spec: Spec, hostAllowed | sid !in y.sessions && spec.profile == p ::
                 sid !in Next(y, BeginStart(sid, spec, hostAllowed)).sessions
  {
    hide LocalInv, Recorded, ClaimBacked, Apart, GatewayInv, Next;
    ReachableIsInv(backends, before);
    var y := After(Boot(backends), before);
    var y' := Next(y, DeleteProfile(p, Shredded));
    NextKeepsInv(y, DeleteProfile(p, Shredded));
    DeletionRemoves(y, p);
    StaysGone(y', after, p);
    var z := After(y', after);
    forall sid, spec: Spec, hostAllowed | sid !in z.sessions && spec.profile == p
      ensures sid !in Next(z, BeginStart(sid, spec, hostAllowed)).sessions
    {
      AdmittedIff(z, sid, spec, hostAllowed);
    }
  }

  lemma DeletionRemoves(y: Daemon, p: ProfileId)
    requires p in y.profiles && p in y.store.profiles
    ensures Gone(Next(y, DeleteProfile(p, Shredded)), p)
  {}

  // ---- damage -------------------------------------------------------------------------------------

  ghost predicate HaltedOn(i: Input, p: ProfileId) {
    i.DeleteProfile? && i.id == p && !i.shred.Shredded?
  }

  ghost predicate HaltedIn(inputs: seq<Input>, p: ProfileId) {
    exists k :: 0 <= k < |inputs| && HaltedOn(inputs[k], p)
  }

  lemma NextDamages(y: Daemon, i: Input, p: ProfileId)
    ensures p in Next(y, i).damage.torn + Next(y, i).damage.freed ==>
              p in y.damage.torn + y.damage.freed || HaltedOn(i, p)
  {
    hide Step;
    if i.Proceed? && i.sid in y.sessions {
      hide Turn;
    }
  }

  // Only a halted deletion of a profile damages it.
  lemma {:induction false} DamageIsHaltedDeletion(y: Daemon, inputs: seq<Input>, p: ProfileId)
    ensures p in After(y, inputs).damage.torn + After(y, inputs).damage.freed ==>
              p in y.damage.torn + y.damage.freed || HaltedIn(inputs, p)
    decreases |inputs|
  {
    hide Next, HaltedOn;
    if inputs != [] {
      DamageIsHaltedDeletion(Next(y, inputs[0]), inputs[1..], p);
      NextDamages(y, inputs[0], p);
      if HaltedIn(inputs[1..], p) {
        var k :| 0 <= k < |inputs[1..]| && HaltedOn(inputs[1..][k], p);
        assert inputs[k + 1] == inputs[1..][k];
      }
      assert HaltedOn(inputs[0], p) ==> HaltedIn(inputs, p);
    }
  }
}
