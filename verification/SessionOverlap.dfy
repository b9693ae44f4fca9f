// Why the cleanup result and the transition-table result ask for calls that do not
// overlap: a run in which a stop overlaps the start of the same session and loses a VM.
module SessionOverlap {
  import opened Errors
  import opened Preflight
  import opened SessionState
  import opened Gateway
  import opened ProfileStore
  import opened SessionMachine

  ghost function Run(s: Session, actions: seq<Action>): Session
    decreases |actions|
  {
    if actions == [] then s else Run(Step(s, actions[0]), actions[1..])
  }

  ghost predicate PlausibleRun(s: Session, actions: seq<Action>)
    decreases |actions|
  {
    actions != [] ==> Plausible(s, actions[0]) && PlausibleRun(Step(s, actions[0]), actions[1..])
  }

  lemma {:induction false} OneMore(s: Session, actions: seq<Action>, a: Action)
    requires PlausibleRun(s, actions) && Plausible(Run(s, actions), a)
    ensures PlausibleRun(s, actions + [a]) && Run(s, actions + [a]) == Step(Run(s, actions), a)
    decreases |actions|
  {
    if actions == [] {
      assert actions + [a] == [a];
      assert [a][1..] == [];
    } else {
      OneMore(Step(s, actions[0]), actions[1..], a);
      assert (actions + [a])[1..] == actions[1..] + [a];
    }
  }

  // Some run takes one state to the other.
  ghost predicate Reaches(from: Session, s: Session) {
    exists actions :: PlausibleRun(from, actions) && Run(from, actions) == s
  }

  lemma Stays(s: Session)
    ensures Reaches(s, s)
  {
    assert PlausibleRun(s, []) && Run(s, []) == s;
  }

  lemma Go(from: Session, s: Session, a: Action) returns (s': Session)
    requires Reaches(from, s) && Plausible(s, a)
    ensures Reaches(from, s') && s' == Step(s, a)
  {
    hide Step;
    var actions :| PlausibleRun(from, actions) && Run(from, actions) == s;
    OneMore(from, actions, a);
    s' := Step(s, a);
  }

  const NO_PROBES := Probes(Err(System), Err(System), Err(System), Err(System), Err(System))

  // An oracle that grants lease 0 and hands out VM 1 and handle 1.
  function Granting(fault: Option<Error>): Action {
    Advance(Oracle(fault, Ok(Lease(0, 0)), if fault.Some? then 2 else 1, 1, NO_PROBES, true))
  }

  const FULL_VM_SPEC := Spec(0, false, Chromium, false, Tor, Block)

  const LEASE := Lease(0, 0)
  const NOTHING := Resources(None, None, None, LEASE, FullVm)
  const START := NewSession(FULL_VM_SPEC, {})

  lemma StartTakesAVm() returns (s: Session)
    ensures Reaches(START, s)
    ensures s == START.(entry := Some(NewEntry(LEASE).(state := Provisioning)), start := Driving(RecordGateway(1)))
  {
    s := START;
    Stays(START);
    s := Go(START, s, Granting(None));
    s := Go(START, s, Granting(None));
    s := Go(START, s, Granting(None));
    s := Go(START, s, Granting(None));
  }

  lemma StopTakesNothing(s: Session) returns (s': Session)
    requires Reaches(START, s) && s.entry == Some(NewEntry(LEASE).(state := Provisioning)) && s.stops == map[]
    requires s.start.Driving?
    ensures Reaches(START, s')
    ensures s' == s.(entry := Some(NewEntry(LEASE).(state := Closing)), stops := map[0 := Stopping(Terminate(NOTHING))],
                     overlapped := true, mixed := true)
  {
    s' := Go(START, s, Call(0));
    s' := Go(START, s', AdvanceStop(0));
    s' := Go(START, s', AdvanceStop(0));
  }

  // With nothing in hand a teardown passes quietly over its first four steps.
  lemma StopPassesOver(s: Session, td: Teardown, onward: Teardown)
    returns (s': Session)
    requires Reaches(START, s) && s.stops == map[0 := Stopping(td)]
    requires (td, onward) == (Terminate(NOTHING), RemoveDirectory(NOTHING))
             || (td, onward) == (RemoveDirectory(NOTHING), DestroyBrowser(NOTHING))
             || (td, onward) == (DestroyBrowser(NOTHING), DestroyGateway(NOTHING))
             || (td, onward) == (DestroyGateway(NOTHING), ReleaseLease(NOTHING))
    ensures Reaches(START, s') && s' == s.(stops := map[0 := Stopping(onward)])
  {
    s' := Go(START, s, AdvanceStop(0));
    assert s'.stops == map[0 := Stopping(onward)];
  }

  lemma StopReleases(s: Session) returns (s': Session)
    requires Reaches(START, s) && s.stops == map[0 := Stopping(Terminate(NOTHING))]
    ensures Reaches(START, s')
    ensures s' == s.(stops := map[0 := Stopping(WriteFinal(NOTHING))], log := s.log + [LockReleased(ByStop(0))])
  {
    s' := StopPassesOver(s, Terminate(NOTHING), RemoveDirectory(NOTHING));
    s' := StopPassesOver(s', RemoveDirectory(NOTHING), DestroyBrowser(NOTHING));
    s' := StopPassesOver(s', DestroyBrowser(NOTHING), DestroyGateway(NOTHING));
    s' := StopPassesOver(s', DestroyGateway(NOTHING), ReleaseLease(NOTHING));
    s' := Go(START, s', AdvanceStop(0));
    assert s'.stops == map[0 := Stopping(WriteFinal(NOTHING))];
  }

  // The start records its VM after the stop took its snapshot, and the stop's final
  // write blindly clears it.
  lemma StopClearsTheVm(s: Session) returns (s': Session)
    requires Reaches(START, s) && s.entry == Some(NewEntry(LEASE).(state := Closing)) && s.recorded == {}
             && s.stored == {}
    requires s.stops == map[0 := Stopping(WriteFinal(NOTHING))] && s.start == Driving(RecordGateway(1))
    ensures Reaches(START, s')
    ensures s' == s.(entry := Some(NewEntry(LEASE).(state := Destroyed)), start := Driving(ProvisionBrowser),
                     stops := map[0 := Stopped], recorded := {1}, log := s.log + [FinalStateWritten(ByStop(0))])
  {
    s' := Go(START, s, Granting(None));
    s' := Go(START, s', AdvanceStop(0));
  }

  lemma StartFailsLate(s: Session) returns (s': Session)
    requires Reaches(START, s) && s.entry == Some(NewEntry(LEASE).(state := Destroyed))
             && s.start == Driving(ProvisionBrowser)
    requires s.recorded == {1} && s.stored == {}
    ensures Reaches(START, s') && s' == s.(start := TearingDown(System, Terminate(NOTHING)))
  {
    var go := Granting(Some(System));
    s' := Go(START, s, go);
    s' := Go(START, s', go);
    s' := Go(START, s', go);
  }

  lemma StartReleases(s: Session) returns (s': Session)
    requires Reaches(START, s) && s.start == TearingDown(System, Terminate(NOTHING))
    requires s.recorded == {1} && s.stored == {}
    ensures Reaches(START, s')
    ensures s' == s.(start := TearingDown(System, WriteFinal(NOTHING)), log := s.log + [LockReleased(ByStart)])
  {
    var go := Granting(Some(System));
    s' := Go(START, s, go);
    s' := Go(START, s', go);
    s' := Go(START, s', go);
    s' := Go(START, s', go);
    s' := Go(START, s', go);
  }

  // Overlap loses a VM and leaves the table: a plausible run ends with no call in
  // flight and the session Failed, its recorded gateway VM never destroyed, and its
  // last state change going from Destroyed to Failed.
  lemma OverlapLosesAVm() returns (before: Session, after: Session)
    ensures Reaches(START, before) && Reaches(START, after)
    ensures exists last :: Plausible(before, last) && after == Step(before, last)
    ensures before.entry.Some? && before.entry.value.state == Destroyed
    ensures after.entry.Some? && after.entry.value.state == Failed && !InFlight(after)
    ensures 1 in after.recorded && after.destroyed[1] == 0
  {
    var s := StartTakesAVm();
    s := StopTakesNothing(s);
    s := StopReleases(s);
    s := StopClearsTheVm(s);
    s := StartFailsLate(s);
    before := StartReleases(s);
    var last := Granting(Some(System));
    assert Plausible(before, last);
    after := Go(START, before, last);
    assert after.stops == map[0 := Stopped];
  }
}
