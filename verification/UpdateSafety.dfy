// What an update leaves on disk, path by path: exactly when a rollback is all-or-nothing,
// and what a successful installation guarantees.
module UpdateSafety {
  import opened Errors
  import opened Bytes
  import opened UpdatePaths
  import opened UpdateClient

  function At(fs: Files, p: Path): Option<Octets> {
    if p in fs then Some(fs[p]) else None
  }

  // ---- keeping artifacts out of each other's way --------------------------------------

  // Two targets are the same, or neither is a sibling of the other.
  predicate Apart(t: Path, u: Path) {
    t != u && t != BackupPath(u) && t != TmpPath(u) && u != BackupPath(t) && u != TmpPath(t)
  }

  predicate Compatible(t: Path, u: Path) {
    t == u || Apart(t, u)
  }

  ghost predicate CompatibleWithAll(c: Config, t: Path, arts: seq<Artifact>) {
    forall i :: 0 <= i < |arts| && Target(c, arts[i]).Ok? ==> Compatible(t, Target(c, arts[i]).value)
  }

  // No resolved target is another's sibling; targets may repeat.
  ghost predicate NoSiblings(c: Config, arts: seq<Artifact>) {
    forall i, j :: 0 <= i < j < |arts| && Target(c, arts[i]).Ok? && Target(c, arts[j]).Ok? ==>
      Compatible(Target(c, arts[i]).value, Target(c, arts[j]).value)
  }

  function Footprint(t: Path): set<Path> {
    {t, BackupPath(t), TmpPath(t)}
  }

  lemma {:induction false} CompatibleRest(c: Config, t: Path, arts: seq<Artifact>)
    requires CompatibleWithAll(c, t, arts) && arts != []
    ensures CompatibleWithAll(c, t, arts[1..])
    ensures Target(c, arts[0]).Ok? ==> Compatible(t, Target(c, arts[0]).value)
  {
    forall i | 0 <= i < |arts[1..]| && Target(c, arts[1..][i]).Ok?
      ensures Compatible(t, Target(c, arts[1..][i]).value)
    {
      assert arts[1..][i] == arts[i + 1];
    }
  }

  lemma {:induction false} NoSiblingsRest(c: Config, arts: seq<Artifact>)
    requires NoSiblings(c, arts) && arts != []
    ensures NoSiblings(c, arts[1..])
    ensures Target(c, arts[0]).Ok? ==> CompatibleWithAll(c, Target(c, arts[0]).value, arts[1..])
  {
    var rest := arts[1..];
    forall i, j | 0 <= i < j < |rest| && Target(c, rest[i]).Ok? && Target(c, rest[j]).Ok?
      ensures Compatible(Target(c, rest[i]).value, Target(c, rest[j]).value)
    {
      assert rest[i] == arts[i + 1] && rest[j] == arts[j + 1];
    }
    if Target(c, arts[0]).Ok? {
      forall i | 0 <= i < |rest| && Target(c, rest[i]).Ok?
        ensures Compatible(Target(c, arts[0]).value, Target(c, rest[i]).value)
      {
        assert rest[i] == arts[i + 1];
      }
    }
  }

  // ---- one artifact, path by path -----------------------------------------------------

  lemma {:induction false} StepRecord(c: Config, fs: Files, a: Artifact, w: World)
    ensures var step := InstallOne(c, fs, a, w);
            && (step.record.None? ==> step.error.Some? && step.fs == fs)
            && (step.record.Some? ==>
                  && Target(c, a).Ok?
                  && var t := Target(c, a).value;
                  && step.record.value.target == t
                  && step.record.value.backup == (if Existed(fs, t, w) then Some(BackupPath(t)) else None)
                  && step.record.value.wroteNew == step.error.None?)
  {}

  // What decides, for an artifact whose target is there or not, whether it is recorded
  // for rollback and whether it gets installed.
  predicate Reaches(c: Config, present: bool, a: Artifact, w: World) {
    && Target(c, a).Ok?
    && (HasParent(Target(c, a).value) ==> w.mkdir)
    && (w.probe && present ==> w.aside)
  }

  predicate Passes(c: Config, present: bool, a: Artifact, w: World) {
    Reaches(c, present, a, w) && CheckedFetch(c, a, w).Ok? && w.write.Written? && w.install
  }

  lemma {:induction false} StepOutcome(c: Config, fs: Files, a: Artifact, w: World)
    ensures var step := InstallOne(c, fs, a, w);
            && (Target(c, a).Err? ==> step.record.None? && step.error.Some?)
            && (Target(c, a).Ok? ==>
                  var present := Target(c, a).value in fs;
                  && (step.record.Some? <==> Reaches(c, present, a, w))
                  && (step.error.None? <==> Passes(c, present, a, w)))
  {}

  lemma {:induction false} StepSucceeds(c: Config, fs: Files, a: Artifact, w: World, p: Path)
    requires InstallOne(c, fs, a, w).error.None?
    ensures Target(c, a).Ok? && CheckedFetch(c, a, w).Ok?
    ensures var t := Target(c, a).value;
            At(InstallOne(c, fs, a, w).fs, p)
            == if p == t then Some(CheckedFetch(c, a, w).value)
               else if p == TmpPath(t) then None
               else if Existed(fs, t, w) && p == BackupPath(t) then At(fs, t)
               else At(fs, p)
  {
    SiblingsAreDistinct(Target(c, a).value, Target(c, a).value);
  }

  lemma {:induction false} StepStops(c: Config, fs: Files, a: Artifact, w: World, p: Path)
    requires InstallOne(c, fs, a, w).error.Some? && InstallOne(c, fs, a, w).record.Some?
    requires Target(c, a).Ok? && p != TmpPath(Target(c, a).value)
    ensures var t := Target(c, a).value;
            At(InstallOne(c, fs, a, w).fs, p)
            == if Existed(fs, t, w) && p == t then None
               else if Existed(fs, t, w) && p == BackupPath(t) then At(fs, t)
               else At(fs, p)
  {
    SiblingsAreDistinct(Target(c, a).value, Target(c, a).value);
  }

  lemma {:induction false} UndoAt(fs: Files, r: Record, w: World, p: Path)
    requires w.unlink && w.restore
    requires r.backup.Some? ==> r.backup.value != r.target
    ensures At(Undo(fs, r, w), p)
         == if r.backup.Some? && r.backup.value in fs then
              (if p == r.target then At(fs, r.backup.value) else if p == r.backup.value then None else At(fs, p))
            else if r.wroteNew && p == r.target then None else At(fs, p)
  {}

  // The failing artifact itself: moved back if it was moved aside.
  lemma {:induction false} UndoneStop(c: Config, fs: Files, a: Artifact, w: World, p: Path)
    requires InstallOne(c, fs, a, w).error.Some? && InstallOne(c, fs, a, w).record.Some?
    requires w.unlink && w.restore && Target(c, a).Ok? && p != TmpPath(Target(c, a).value)
    ensures var step, t := InstallOne(c, fs, a, w), Target(c, a).value;
            At(Undo(step.fs, step.record.value, w), p)
            == if Existed(fs, t, w) && p == BackupPath(t) then None else At(fs, p)
  {
    var step, t := InstallOne(c, fs, a, w), Target(c, a).value;
    StepRecord(c, fs, a, w);
    SiblingsAreDistinct(t, t);
    StepStops(c, fs, a, w, p);
    StepStops(c, fs, a, w, BackupPath(t));
    UndoAt(step.fs, step.record.value, w, p);
  }

  // ---- rollback -----------------------------------------------------------------------

  ghost predicate Fails(c: Config, fs: Files, arts: seq<Artifact>, env: seq<World>)
    requires |env| == |arts|
  {
    InstallAll(c, fs, arts, env).error.Some?
  }

  ghost function Rolled(c: Config, fs: Files, arts: seq<Artifact>, env: seq<World>): Files
    requires |env| == |arts|
  {
    var p := InstallAll(c, fs, arts, env);
    RollBack(p.fs, p.records, env)
  }

  // Every removal and rename of the rollback is carried out when its source is there.
  ghost predicate Restoring(env: seq<World>) {
    forall i :: 0 <= i < |env| ==> env[i].unlink && env[i].restore
  }

  lemma {:induction false} RollBackHead(fs: Files, r: Record, records: seq<Record>, env: seq<World>)
    requires |records| + 1 <= |env|
    ensures RollBack(fs, [r] + records, env) == Undo(RollBack(fs, records, env[1..]), r, env[0])
  {
    assert ([r] + records)[1..] == records;
  }

  lemma {:induction false} RolledHead(c: Config, fs: Files, arts: seq<Artifact>, env: seq<World>)
    requires |env| == |arts| && arts != []
    ensures var step := InstallOne(c, fs, arts[0], env[0]);
            && Fails(c, fs, arts, env) == (step.error.Some? || Fails(c, step.fs, arts[1..], env[1..]))
            && Rolled(c, fs, arts, env)
               == if step.error.None? then Undo(Rolled(c, step.fs, arts[1..], env[1..]), step.record.value, env[0])
                  else if step.record.Some? then Undo(step.fs, step.record.value, env[0])
                  else fs
  {
    var step := InstallOne(c, fs, arts[0], env[0]);
    StepRecord(c, fs, arts[0], env[0]);
    InstallAllHead(c, fs, arts, env);
    if step.error.None? {
      var rest := InstallAll(c, step.fs, arts[1..], env[1..]);
      RollBackHead(rest.fs, step.record.value, rest.records, env);
    } else if step.record.Some? {
      RollBackHead(step.fs, step.record.value, [], env);
      assert [step.record.value] + [] == [step.record.value];
    }
  }

  // ---- what a failed update takes away ---------------------------------------------------

  // Whether a later artifact for t is recorded with a backup of it. `present` are the
  // paths that are there when the first artifact of the list is handled.
  ghost predicate BacksUp(c: Config, present: set<Path>, arts: seq<Artifact>, env: seq<World>, t: Path)
    requires |env| == |arts|
    decreases |arts|
  {
    && arts != [] && Target(c, arts[0]).Ok?
    && var u := Target(c, arts[0]).value;
    || (u == t && u in present && env[0].probe && Reaches(c, true, arts[0], env[0]))
    || (Passes(c, u in present, arts[0], env[0]) && BacksUp(c, present + {u}, arts[1..], env[1..], t))
  }

  // The paths a failed update leaves absent, whatever was there before.
  ghost function Lost(c: Config, present: set<Path>, arts: seq<Artifact>, env: seq<World>): set<Path>
    requires |env| == |arts|
    decreases |arts|
  {
    if arts == [] || Target(c, arts[0]).Err? then {}
    else
      var t := Target(c, arts[0]).value;
      var aside := env[0].probe && t in present;
      if !Reaches(c, t in present, arts[0], env[0]) then {}
      else if !Passes(c, t in present, arts[0], env[0]) then (if aside then {BackupPath(t)} else {})
      else
        var again := BacksUp(c, present + {t}, arts[1..], env[1..], t);
        Lost(c, present + {t}, arts[1..], env[1..]) - {t} + {TmpPath(t)}
        + (if aside then {BackupPath(t)} else {}) + (if aside && !again then {} else {t})
  }

  // The temporary path of the artifact that failed, once it has been recorded.
  ghost function FailingTmp(c: Config, present: set<Path>, arts: seq<Artifact>, env: seq<World>): Option<Path>
    requires |env| == |arts|
    decreases |arts|
  {
    if arts == [] || Target(c, arts[0]).Err? then None
    else
      var t := Target(c, arts[0]).value;
      if Passes(c, t in present, arts[0], env[0]) then FailingTmp(c, present + {t}, arts[1..], env[1..])
      else if Reaches(c, t in present, arts[0], env[0]) then Some(TmpPath(t))
      else None
  }

  // `present` tells which of the targets still to come are there.
  ghost predicate Tells(c: Config, fs: Files, present: set<Path>, arts: seq<Artifact>) {
    forall i :: 0 <= i < |arts| && Target(c, arts[i]).Ok? ==>
      (Target(c, arts[i]).value in fs <==> Target(c, arts[i]).value in present)
  }

  // Installing one artifact makes its own target present and changes no other's presence.
  lemma {:induction false} StepTells(c: Config, fs: Files, present: set<Path>, arts: seq<Artifact>, env: seq<World>)
    requires |env| == |arts| && arts != [] && Tells(c, fs, present, arts) && NoSiblings(c, arts)
    requires InstallOne(c, fs, arts[0], env[0]).error.None?
    ensures Target(c, arts[0]).Ok?
    ensures Tells(c, InstallOne(c, fs, arts[0], env[0]).fs, present + {Target(c, arts[0]).value}, arts[1..])
  {
    hide InstallOne;
    StepSucceeds(c, fs, arts[0], env[0], []);
    NoSiblingsRest(c, arts);
    var t, fs' := Target(c, arts[0]).value, InstallOne(c, fs, arts[0], env[0]).fs;
    forall i | 0 <= i < |arts[1..]| && Target(c, arts[1..][i]).Ok?
      ensures Target(c, arts[1..][i]).value in fs' <==> Target(c, arts[1..][i]).value in present + {t}
    {
      var u := Target(c, arts[1..][i]).value;
      assert arts[1..][i] == arts[i + 1] && Compatible(t, u);
      StepSucceeds(c, fs, arts[0], env[0], u);
      assert u in fs' <==> At(fs', u).Some?;
      assert u in fs <==> At(fs, u).Some?;
    }
  }

  // A backup path of t is lost exactly when some artifact for t is recorded with one.
  lemma {:induction false} LostBackupIff(c: Config, present: set<Path>, arts: seq<Artifact>, env: seq<World>, t: Path)
    requires |env| == |arts| && CompatibleWithAll(c, t, arts)
    ensures BackupPath(t) in Lost(c, present, arts, env) <==> BacksUp(c, present, arts, env, t)
    ensures FailingTmp(c, present, arts, env) != Some(BackupPath(t)) && FailingTmp(c, present, arts, env) != Some(t)
    decreases |arts|
  {
    if arts != [] && Target(c, arts[0]).Ok? {
      var u := Target(c, arts[0]).value;
      CompatibleRest(c, t, arts);
      SiblingsAreDistinct(t, u);
      SiblingsAreDistinct(u, t);
      LostBackupIff(c, present + {u}, arts[1..], env[1..], t);
    }
  }

  // What an installed head loses, next to what the rest loses.
  lemma {:induction false} HeadLoses(c: Config, present: set<Path>, arts: seq<Artifact>, env: seq<World>)
    requires |env| == |arts| && arts != [] && Target(c, arts[0]).Ok?
    requires Passes(c, Target(c, arts[0]).value in present, arts[0], env[0])
    ensures var t := Target(c, arts[0]).value;
            var now := present + {t};
            var aside := env[0].probe && t in present;
            && FailingTmp(c, present, arts, env) == FailingTmp(c, now, arts[1..], env[1..])
            && (forall u :: BacksUp(c, present, arts, env, u) <==>
                  (u == t && aside) || BacksUp(c, now, arts[1..], env[1..], u))
            && (forall p :: p in Lost(c, present, arts, env) <==>
                  || (p in Lost(c, now, arts[1..], env[1..]) && p != t)
                  || p == TmpPath(t)
                  || (p == BackupPath(t) && aside)
                  || (p == t && !(aside && !BacksUp(c, now, arts[1..], env[1..], t))))
  {
    SiblingsAreDistinct(Target(c, arts[0]).value, Target(c, arts[0]).value);
  }

  // After a failed update whose restoring operations succeed, a path holds what it held
  // before, or nothing if it is one of those lost.
  lemma {:induction false} RolledAt(
      c: Config, fs: Files, present: set<Path>, arts: seq<Artifact>, env: seq<World>, p: Path)
    requires |env| == |arts| && NoSiblings(c, arts) && Tells(c, fs, present, arts)
    requires Restoring(env) && Fails(c, fs, arts, env)
    requires FailingTmp(c, present, arts, env) != Some(p)
    ensures At(Rolled(c, fs, arts, env), p) == if p in Lost(c, present, arts, env) then None else At(fs, p)
    decreases |arts|, 1
  {
    hide InstallOne, Undo;
    var a, w := arts[0], env[0];
    var step := InstallOne(c, fs, a, w);
    RolledHead(c, fs, arts, env);
    StepRecord(c, fs, a, w);
    StepOutcome(c, fs, a, w);
    assert env[0].unlink && env[0].restore;
    if step.error.Some? {
      if step.record.Some? {
        UndoneStop(c, fs, a, w, p);
      }
    } else {
      RolledPastInstall(c, fs, present, arts, env, p);
    }
  }

  // An artifact that was installed, undone on top of files r: what comes back depends on
  // whether its backup is still there.
  lemma {:induction false} UndoneInstall(c: Config, fs: Files, a: Artifact, w: World, r: Files, p: Path)
    requires InstallOne(c, fs, a, w).error.None? && w.unlink && w.restore && Target(c, a).Ok?
    ensures var t := Target(c, a).value;
            && InstallOne(c, fs, a, w).record.Some?
            && At(Undo(r, InstallOne(c, fs, a, w).record.value, w), p)
               == if Existed(fs, t, w) && BackupPath(t) in r then
                    (if p == t then At(r, BackupPath(t)) else if p == BackupPath(t) then None else At(r, p))
                  else if p == t then None
                  else At(r, p)
  {
    hide InstallOne, Undo;
    StepRecord(c, fs, a, w);
    SiblingsAreDistinct(Target(c, a).value, Target(c, a).value);
    UndoAt(r, InstallOne(c, fs, a, w).record.value, w, p);
  }

  lemma {:induction false} RolledPastInstall(
      c: Config, fs: Files, present: set<Path>, arts: seq<Artifact>, env: seq<World>, p: Path)
    requires |env| == |arts| && NoSiblings(c, arts) && Tells(c, fs, present, arts)
    requires Restoring(env) && Fails(c, fs, arts, env)
    requires FailingTmp(c, present, arts, env) != Some(p)
    requires arts != [] && InstallOne(c, fs, arts[0], env[0]).error.None?
    ensures At(Rolled(c, fs, arts, env), p) == if p in Lost(c, present, arts, env) then None else At(fs, p)
    decreases |arts|, 0
  {
    hide InstallOne, Undo, BacksUp, Passes, Fails, Rolled, Lost, FailingTmp;
    var a, w := arts[0], env[0];
    var step := InstallOne(c, fs, a, w);
    StepOutcome(c, fs, a, w);
    var t := Target(c, a).value;
    RolledHead(c, fs, arts, env);
    NoSiblingsRest(c, arts);
    StepTells(c, fs, present, arts, env);
    var rest, renv, now := arts[1..], env[1..], present + {t};
    HeadLoses(c, present, arts, env);
    assert t in fs <==> t in present by { assert Target(c, arts[0]) == Ok(t); }
    LostBackupIff(c, now, rest, renv, t);
    SiblingsAreDistinct(t, t);
    var r := Rolled(c, step.fs, rest, renv);
    RolledAt(c, step.fs, now, rest, renv, BackupPath(t));
    RolledAt(c, step.fs, now, rest, renv, p);
    assert env[0].unlink && env[0].restore;
    UndoneInstall(c, fs, a, w, r, p);
    StepSucceeds(c, fs, a, w, p);
    StepSucceeds(c, fs, a, w, BackupPath(t));
    assert BackupPath(t) in r <==> At(r, BackupPath(t)).Some?;
    assert t in fs <==> At(fs, t).Some?;
  }

  // ---- exactly when everything comes back ---------------------------------------------------

  ghost predicate Restored(c: Config, fs: Files, arts: seq<Artifact>, env: seq<World>)
    requires |env| == |arts|
  {
    forall p :: FailingTmp(c, fs.Keys, arts, env) != Some(p) ==> At(Rolled(c, fs, arts, env), p) == At(fs, p)
  }

  // What a caller can see to: for every artifact that gets as far as being recorded, no
  // old backup lies where its backup goes, and if its target was already installed by
  // this update and is moved aside again, it was not there before the update; and for
  // every artifact that gets installed, the probe saw an old target, and no old temporary
  // file lies where its own goes, unless that is the failing one's. `done` are the
  // targets installed so far.
  ghost predicate Recoverable(c: Config, fs: Files, done: set<Path>, arts: seq<Artifact>, env: seq<World>)
    requires |env| == |arts|
    decreases |arts|
  {
    arts == [] || Target(c, arts[0]).Err? ||
    var t := Target(c, arts[0]).value;
    var present := t in fs || t in done;
    Reaches(c, present, arts[0], env[0]) ==>
      && (env[0].probe && present ==> BackupPath(t) !in fs)
      && (env[0].probe && t in done ==> t !in fs)
      && (Passes(c, present, arts[0], env[0]) ==>
            && (t in fs && t !in done ==> env[0].probe)
            && (TmpPath(t) in fs ==> FailingTmp(c, fs.Keys + done, arts, env) == Some(TmpPath(t)))
            && Recoverable(c, fs, done + {t}, arts[1..], env[1..]))
  }

  // Nothing that was there before is lost: neither a path of its own, nor a target
  // installed earlier by this update.
  ghost predicate NothingLost(c: Config, fs: Files, done: set<Path>, arts: seq<Artifact>, env: seq<World>)
    requires |env| == |arts|
  {
    && (forall p | p in Lost(c, fs.Keys + done, arts, env) && p !in done
      && FailingTmp(c, fs.Keys + done, arts, env) != Some(p) ::
          p !in fs)
    && (forall u | u in done && BacksUp(c, fs.Keys + done, arts, env, u) :: u !in fs)
  }

  ghost predicate AllCompatible(c: Config, done: set<Path>, arts: seq<Artifact>) {
    forall u | u in done :: CompatibleWithAll(c, u, arts)
  }

  lemma {:induction false} RecoverableIffNothingLost(
      c: Config, fs: Files, done: set<Path>, arts: seq<Artifact>, env: seq<World>)
    requires |env| == |arts| && NoSiblings(c, arts) && AllCompatible(c, done, arts)
    ensures Recoverable(c, fs, done, arts, env) <==> NothingLost(c, fs, done, arts, env)
    decreases |arts|
  {
    if arts != [] && Target(c, arts[0]).Ok? {
      var t := Target(c, arts[0]).value;
      NoSiblingsRest(c, arts);
      SiblingsAreDistinct(t, t);
      forall u | u in done ensures CompatibleWithAll(c, u, arts[1..]) && Compatible(u, t) {
        CompatibleRest(c, u, arts);
      }
      if Passes(c, t in fs.Keys + done, arts[0], env[0]) {
        RecoverableIffNothingLost(c, fs, done + {t}, arts[1..], env[1..]);
        assert fs.Keys + done + {t} == fs.Keys + (done + {t});
        LossOfOneMore(c, fs, done, arts, env);
      } else {
        LossOfTheLast(c, fs, done, arts, env);
      }
    }
  }

  lemma {:induction false} LossOfTheLast(c: Config, fs: Files, done: set<Path>, arts: seq<Artifact>, env: seq<World>)
    requires |env| == |arts| && arts != [] && Target(c, arts[0]).Ok?
    requires !Passes(c, Target(c, arts[0]).value in fs.Keys + done, arts[0], env[0])
    requires forall u | u in done :: Compatible(u, Target(c, arts[0]).value)
    ensures Recoverable(c, fs, done, arts, env) <==> NothingLost(c, fs, done, arts, env)
  {
    hide Passes;
    var t := Target(c, arts[0]).value;
    SiblingsAreDistinct(t, t);
    assert t in fs.Keys + done <==> t in fs || t in done;
    assert BackupPath(t) !in done;
    if Reaches(c, t in fs.Keys + done, arts[0], env[0]) {
      assert forall u :: BacksUp(c, fs.Keys + done, arts, env, u) <==> u == t && t in fs.Keys + done && env[0].probe;
      assert FailingTmp(c, fs.Keys + done, arts, env) == Some(TmpPath(t));
    }
  }

  // The head is installed: its own conditions, and the rest with its target done.
  lemma {:induction false} LossOfOneMore(c: Config, fs: Files, done: set<Path>, arts: seq<Artifact>, env: seq<World>)
    requires |env| == |arts| && arts != [] && Target(c, arts[0]).Ok?
    requires Passes(c, Target(c, arts[0]).value in fs.Keys + done, arts[0], env[0])
    requires forall u | u in done :: Compatible(u, Target(c, arts[0]).value)
    requires CompatibleWithAll(c, Target(c, arts[0]).value, arts[1..])
    requires var d := done + {Target(c, arts[0]).value};
             Recoverable(c, fs, d, arts[1..], env[1..]) <==> NothingLost(c, fs, d, arts[1..], env[1..])
    ensures Recoverable(c, fs, done, arts, env) <==> NothingLost(c, fs, done, arts, env)
  {
    hide Recoverable, NothingLost, HeadKeeps, Passes;
    RecoverableHead(c, fs, done, arts, env);
    NothingLostHead(c, fs, done, arts, env);
  }

  ghost predicate HeadKeeps(c: Config, fs: Files, done: set<Path>, arts: seq<Artifact>, env: seq<World>)
    requires |env| == |arts| && arts != [] && Target(c, arts[0]).Ok?
  {
    var t := Target(c, arts[0]).value;
    && (env[0].probe && t in fs.Keys + done ==> BackupPath(t) !in fs)
    && (env[0].probe && t in done ==> t !in fs)
    && (t in fs && t !in done ==> env[0].probe)
    && (TmpPath(t) in fs ==> FailingTmp(c, fs.Keys + done, arts, env) == Some(TmpPath(t)))
  }

  lemma {:induction false} RecoverableHead(c: Config, fs: Files, done: set<Path>, arts: seq<Artifact>, env: seq<World>)
    requires |env| == |arts| && arts != [] && Target(c, arts[0]).Ok?
    requires Passes(c, Target(c, arts[0]).value in fs.Keys + done, arts[0], env[0])
    ensures Recoverable(c, fs, done, arts, env)
       <==> (HeadKeeps(c, fs, done, arts, env)
             && Recoverable(c, fs, done + {Target(c, arts[0]).value}, arts[1..], env[1..]))
  {
    hide FailingTmp;
    assert Target(c, arts[0]).value in fs.Keys + done
      <==> Target(c, arts[0]).value in fs || Target(c, arts[0]).value in done;
  }

  lemma {:induction false} NothingLostHead(c: Config, fs: Files, done: set<Path>, arts: seq<Artifact>, env: seq<World>)
    requires |env| == |arts| && arts != [] && Target(c, arts[0]).Ok?
    requires Passes(c, Target(c, arts[0]).value in fs.Keys + done, arts[0], env[0])
    requires forall u | u in done :: Compatible(u, Target(c, arts[0]).value)
    requires CompatibleWithAll(c, Target(c, arts[0]).value, arts[1..])
    ensures NothingLost(c, fs, done, arts, env)
       <==> (HeadKeeps(c, fs, done, arts, env)
             && NothingLost(c, fs, done + {Target(c, arts[0]).value}, arts[1..], env[1..]))
  {
    hide Lost, BacksUp, FailingTmp, Passes, NothingLost, HeadKeeps;
    if NothingLost(c, fs, done, arts, env) {
      LostForward(c, fs, done, arts, env);
    }
    if HeadKeeps(c, fs, done, arts, env) && NothingLost(c, fs, done + {Target(c, arts[0]).value}, arts[1..], env[1..]) {
      LostBackward(c, fs, done, arts, env);
    }
  }

  lemma {:induction false} LostForward(c: Config, fs: Files, done: set<Path>, arts: seq<Artifact>, env: seq<World>)
    requires |env| == |arts| && arts != [] && Target(c, arts[0]).Ok?
    requires Passes(c, Target(c, arts[0]).value in fs.Keys + done, arts[0], env[0])
    requires forall u | u in done :: Compatible(u, Target(c, arts[0]).value)
    requires CompatibleWithAll(c, Target(c, arts[0]).value, arts[1..])
    requires NothingLost(c, fs, done, arts, env)
    ensures HeadKeeps(c, fs, done, arts, env)
            && NothingLost(c, fs, done + {Target(c, arts[0]).value}, arts[1..], env[1..])
  {
    hide Lost, BacksUp, FailingTmp, Passes, Compatible, CompatibleWithAll;
    var t := Target(c, arts[0]).value;
    var rest, renv, d := arts[1..], env[1..], done + {t};
    assert fs.Keys + done + {t} == fs.Keys + d;
    SiblingsAreDistinct(t, t);
    SiblingsNotDone(c, t, done);
    LostBackupIff(c, fs.Keys + d, rest, renv, t);
    HeadLoses(c, fs.Keys + done, arts, env);
    assert TmpPath(t) in Lost(c, fs.Keys + done, arts, env);
    forall p | p in Lost(c, fs.Keys + d, rest, renv) && p !in d && FailingTmp(c, fs.Keys + d, rest, renv) != Some(p)
      ensures p !in fs
    {
      assert p in Lost(c, fs.Keys + done, arts, env);
    }
    forall u | u in d && BacksUp(c, fs.Keys + d, rest, renv, u) ensures u !in fs {
      assert BacksUp(c, fs.Keys + done, arts, env, u);
      if u !in done {
        assert t in Lost(c, fs.Keys + done, arts, env);
      }
    }
  }

  lemma {:induction false} SiblingsNotDone(c: Config, t: Path, done: set<Path>)
    requires forall u | u in done :: Compatible(u, t)
    ensures BackupPath(t) !in done && TmpPath(t) !in done
  {
    SiblingsAreDistinct(t, t);
  }

  lemma {:induction false} LostBackward(c: Config, fs: Files, done: set<Path>, arts: seq<Artifact>, env: seq<World>)
    requires |env| == |arts| && arts != [] && Target(c, arts[0]).Ok?
    requires Passes(c, Target(c, arts[0]).value in fs.Keys + done, arts[0], env[0])
    requires HeadKeeps(c, fs, done, arts, env)
             && NothingLost(c, fs, done + {Target(c, arts[0]).value}, arts[1..], env[1..])
    ensures NothingLost(c, fs, done, arts, env)
  {
    hide Lost, BacksUp, FailingTmp, Passes;
    var t := Target(c, arts[0]).value;
    var rest, renv, d := arts[1..], env[1..], done + {t};
    assert fs.Keys + done + {t} == fs.Keys + d;
    HeadLoses(c, fs.Keys + done, arts, env);
    forall p | p in Lost(c, fs.Keys + done, arts, env) && p !in done
      && FailingTmp(c, fs.Keys + done, arts, env) != Some(p)
      ensures p !in fs
    {
      if p != t && p in Lost(c, fs.Keys + d, rest, renv) {
        assert p !in d;
      }
    }
  }

  // A failed update puts every path outside the failing artifact's temporary file back
  // exactly as it was if and only if it was recoverable. Targets may repeat, as long as
  // none is another's sibling.
  lemma {:induction false} RollbackIsExactIff(c: Config, fs: Files, arts: seq<Artifact>, env: seq<World>)
    requires |env| == |arts| && NoSiblings(c, arts) && Restoring(env) && Fails(c, fs, arts, env)
    ensures Apply(c, fs, arts, env) == (Rolled(c, fs, arts, env), RolledBack)
    ensures Restored(c, fs, arts, env) <==> Recoverable(c, fs, {}, arts, env)
  {
    hide Lost, FailingTmp, Recoverable, InstallAll, RollBack;
    assert fs.Keys + {} == fs.Keys;
    RecoverableIffNothingLost(c, fs, {}, arts, env);
    assert Tells(c, fs, fs.Keys, arts);
    RolledOutcome(c, fs, arts, env);
    forall p | FailingTmp(c, fs.Keys, arts, env) != Some(p)
      ensures At(Rolled(c, fs, arts, env), p) == if p in Lost(c, fs.Keys, arts, env) then None else At(fs, p)
    {
      RolledAt(c, fs, fs.Keys, arts, env, p);
    }
    if Restored(c, fs, arts, env) {
      forall p | p in Lost(c, fs.Keys, arts, env) && FailingTmp(c, fs.Keys, arts, env) != Some(p)
        ensures p !in fs
      {
        assert At(Rolled(c, fs, arts, env), p) == At(fs, p);
      }
    }
  }

  lemma {:induction false} RolledOutcome(c: Config, fs: Files, arts: seq<Artifact>, env: seq<World>)
    requires |env| == |arts| && Fails(c, fs, arts, env)
    ensures Apply(c, fs, arts, env) == (Rolled(c, fs, arts, env), RolledBack)
  {}

  // ---- consequences ---------------------------------------------------------------------------

  ghost predicate Distinct(c: Config, arts: seq<Artifact>) {
    forall i, j :: 0 <= i < j < |arts| && Target(c, arts[i]).Ok? && Target(c, arts[j]).Ok? ==>
      Target(c, arts[i]).value != Target(c, arts[j]).value
  }

  ghost predicate CleanSlate(c: Config, fs: Files, arts: seq<Artifact>, env: seq<World>)
    requires |env| == |arts|
  {
    forall i :: 0 <= i < |arts| && Target(c, arts[i]).Ok? ==>
      && env[i].probe && BackupPath(Target(c, arts[i]).value) !in fs && TmpPath(Target(c, arts[i]).value) !in fs
  }

  // With distinct targets, probes that answer and no siblings lying about are enough.
  lemma {:induction false} CleanSlateIsRecoverable(
      c: Config, fs: Files, done: set<Path>, arts: seq<Artifact>, env: seq<World>)
    requires |env| == |arts| && CleanSlate(c, fs, arts, env) && Distinct(c, arts)
    requires forall i :: 0 <= i < |arts| && Target(c, arts[i]).Ok? ==> Target(c, arts[i]).value !in done
    ensures Recoverable(c, fs, done, arts, env)
    decreases |arts|
  {
    if arts != [] && Target(c, arts[0]).Ok? {
      var t, rest, renv := Target(c, arts[0]).value, arts[1..], env[1..];
      assert forall i :: 0 <= i < |rest| ==> rest[i] == arts[i + 1] && renv[i] == env[i + 1];
      CleanSlateIsRecoverable(c, fs, done + {t}, rest, renv);
    }
  }

  // Whether the j-th artifact of the list is reached and recorded.
  ghost predicate RecordedAt(c: Config, present: set<Path>, arts: seq<Artifact>, env: seq<World>, j: nat)
    requires |env| == |arts| && j < |arts|
    decreases |arts|
  {
    && Target(c, arts[0]).Ok?
    && var t := Target(c, arts[0]).value;
       if j == 0 then Reaches(c, t in present, arts[0], env[0])
       else Passes(c, t in present, arts[0], env[0]) && RecordedAt(c, present + {t}, arts[1..], env[1..], j - 1)
  }

  // A target moved aside a second time cannot come back: if everything is to be restored,
  // neither it nor its backup may have been there.
  lemma {:induction false} RepeatedTargetMustBeNew(
      c: Config, fs: Files, done: set<Path>, arts: seq<Artifact>, env: seq<World>, j: nat)
    requires |env| == |arts| && j < |arts| && Recoverable(c, fs, done, arts, env)
    requires RecordedAt(c, fs.Keys + done, arts, env, j) && env[j].probe
    requires Target(c, arts[j]).Ok?
    requires || Target(c, arts[j]).value in done
             || exists i :: 0 <= i < j && Target(c, arts[i]) == Target(c, arts[j])
    ensures Target(c, arts[j]).value !in fs && BackupPath(Target(c, arts[j]).value) !in fs
    decreases |arts|
  {
    var t := Target(c, arts[0]).value;
    assert t in fs.Keys + done <==> t in fs || t in done;
    if j > 0 {
      assert arts[1..][j - 1] == arts[j] && env[1..][j - 1] == env[j];
      assert fs.Keys + done + {t} == fs.Keys + (done + {t});
      if Target(c, arts[j]).value !in done + {t} {
        var i :| 0 <= i < j && Target(c, arts[i]) == Target(c, arts[j]);
        assert arts[1..][i - 1] == arts[i];
      }
      RepeatedTargetMustBeNew(c, fs, done + {t}, arts[1..], env[1..], j - 1);
    }
  }

  // The plainest case: two artifacts for one target that is there, the second failing.
  // The original is gone although every restoring operation succeeded.
  lemma {:induction false} DuplicateTargetLosesOriginal(
      c: Config, fs: Files, a: Artifact, b: Artifact, v: World, w: World)
    requires Target(c, a).Ok? && Target(c, b) == Target(c, a) && Target(c, a).value in fs
    requires Passes(c, true, a, v) && v.probe && Reaches(c, true, b, w) && !Passes(c, true, b, w) && w.probe
    requires Restoring([v, w])
    ensures Apply(c, fs, [a, b], [v, w]).1 == RolledBack
    ensures At(Apply(c, fs, [a, b], [v, w]).0, Target(c, a).value) == None
  {
    hide InstallOne, Undo, Rolled, Fails;
    var arts, env, t := [a, b], [v, w], Target(c, a).value;
    assert arts[1..] == [b] && env[1..] == [w] && [b][1..] == [] && [w][1..] == [];
    StepOutcome(c, fs, a, v);
    var one := InstallOne(c, fs, a, v);
    StepSucceeds(c, fs, a, v, t);
    StepOutcome(c, one.fs, b, w);
    RolledHead(c, fs, arts, env);
    RolledHead(c, one.fs, [b], [w]);
    RolledOutcome(c, fs, arts, env);
    LostBackupIff(c, fs.Keys, arts, env, t);
    RolledAt(c, fs, fs.Keys, arts, env, t);
  }
}
