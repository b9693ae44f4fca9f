// What a successful update leaves on disk.
module UpdateSuccess {
  import opened Errors
  import opened Bytes
  import opened UpdatePaths
  import opened UpdateClient
  import opened UpdateSafety

  ghost predicate Succeeds(c: Config, fs: Files, arts: seq<Artifact>, env: seq<World>)
    requires |env| == |arts|
  {
    InstallAll(c, fs, arts, env).error.None?
  }

  ghost function Updated(c: Config, fs: Files, arts: seq<Artifact>, env: seq<World>): Files
    requires |env| == |arts|
  {
    var p := InstallAll(c, fs, arts, env);
    CleanUp(p.fs, p.records, env)
  }

  lemma {:induction false} CleanUpAfterRemoval(fs: Files, b: Path, records: seq<Record>, env: seq<World>, p: Path)
    requires |records| <= |env|
    ensures At(CleanUp(fs - {b}, records, env), p) == if p == b then None else At(CleanUp(fs, records, env), p)
    decreases |records|
  {
    if records != [] {
      var next := Forget(fs, records[0], env[0]);
      assert Forget(fs - {b}, records[0], env[0]) == next - {b};
      CleanUpAfterRemoval(next, b, records[1..], env[1..], p);
    }
  }

  // The clean-up of one artifact removes its backup.
  predicate Forgets(fs: Files, t: Path, w: World, p: Path) {
    w.cleanup && Existed(fs, t, w) && p == BackupPath(t)
  }

  lemma {:induction false} UpdatedHead(c: Config, fs: Files, arts: seq<Artifact>, env: seq<World>, p: Path)
    requires |env| == |arts| && arts != []
    ensures var step := InstallOne(c, fs, arts[0], env[0]);
            && Succeeds(c, fs, arts, env) == (step.error.None? && Succeeds(c, step.fs, arts[1..], env[1..]))
            && (step.error.None? ==>
                  && Target(c, arts[0]).Ok?
                  && At(Updated(c, fs, arts, env), p)
                     == if Forgets(fs, Target(c, arts[0]).value, env[0], p) then None
                        else At(Updated(c, step.fs, arts[1..], env[1..]), p))
  {
    hide InstallOne;
    var step := InstallOne(c, fs, arts[0], env[0]);
    StepRecord(c, fs, arts[0], env[0]);
    InstallAllHead(c, fs, arts, env);
    if step.error.None? {
      var rest := InstallAll(c, step.fs, arts[1..], env[1..]);
      var r := step.record.value;
      assert ([r] + rest.records)[1..] == rest.records;
      if r.backup.Some? && env[0].cleanup {
        CleanUpAfterRemoval(rest.fs, r.backup.value, rest.records, env[1..], p);
      }
    }
  }

  // ---- nothing else changes ---------------------------------------------------------------

  ghost predicate OutsideAll(c: Config, arts: seq<Artifact>, p: Path) {
    forall i :: 0 <= i < |arts| && Target(c, arts[i]).Ok? ==> p !in Footprint(Target(c, arts[i]).value)
  }

  // No path that is neither a target nor a sibling of one changes.
  lemma {:induction false} UntouchedElsewhere(c: Config, fs: Files, arts: seq<Artifact>, env: seq<World>, p: Path)
    requires |env| == |arts| && Succeeds(c, fs, arts, env) && OutsideAll(c, arts, p)
    ensures At(Updated(c, fs, arts, env), p) == At(fs, p)
    decreases |arts|
  {
    hide InstallOne;
    if arts != [] {
      var step := InstallOne(c, fs, arts[0], env[0]);
      UpdatedHead(c, fs, arts, env, p);
      StepSucceeds(c, fs, arts[0], env[0], p);
      assert p !in Footprint(Target(c, arts[0]).value);
      assert OutsideAll(c, arts[1..], p) by {
        forall i | 0 <= i < |arts[1..]| && Target(c, arts[1..][i]).Ok?
          ensures p !in Footprint(Target(c, arts[1..][i]).value)
        {
          assert arts[1..][i] == arts[i + 1];
        }
      }
      UntouchedElsewhere(c, step.fs, arts[1..], env[1..], p);
    }
  }

  // ---- one target, through all the artifacts for it -----------------------------------------

  // What stands at t in the end: the bytes of the last artifact for it.
  function Installed(c: Config, content: Option<Octets>, arts: seq<Artifact>, env: seq<World>, t: Path): Option<Octets>
    requires |env| == |arts|
    decreases |arts|
  {
    if arts == [] then content
    else if Target(c, arts[0]) == Ok(t) && env[0].fetched.Ok?
    then Installed(c, Some(env[0].fetched.value), arts[1..], env[1..], t)
    else Installed(c, content, arts[1..], env[1..], t)
  }

  // What stands at its backup path: nothing, once an artifact that moved t aside has been
  // cleaned up; else what the last one to move it aside found; else what was there.
  function BackupLeft(c: Config, content: Option<Octets>, backup: Option<Octets>, arts: seq<Artifact>, env: seq<World>,
                      t: Path): Option<Octets>
    requires |env| == |arts|
    decreases |arts|
  {
    if arts == [] then backup
    else if Target(c, arts[0]) == Ok(t) && env[0].fetched.Ok? then
      var aside := env[0].probe && content.Some?;
      if aside && env[0].cleanup then None
      else BackupLeft(c, Some(env[0].fetched.value), if aside then content else backup, arts[1..], env[1..], t)
    else BackupLeft(c, content, backup, arts[1..], env[1..], t)
  }

  predicate Named(c: Config, arts: seq<Artifact>, t: Path) {
    exists i :: 0 <= i < |arts| && Target(c, arts[i]) == Ok(t)
  }

  ghost predicate InPlace(c: Config, fs: Files, arts: seq<Artifact>, env: seq<World>, t: Path, out: Files)
    requires |env| == |arts|
  {
    && At(out, t) == Installed(c, At(fs, t), arts, env, t)
    && At(out, BackupPath(t)) == BackupLeft(c, At(fs, t), At(fs, BackupPath(t)), arts, env, t)
    && At(out, TmpPath(t)) == if Named(c, arts, t) then None else At(fs, TmpPath(t))
  }

  lemma {:induction false} NamedHead(c: Config, arts: seq<Artifact>, t: Path)
    requires arts != []
    ensures Named(c, arts, t) <==> Target(c, arts[0]) == Ok(t) || Named(c, arts[1..], t)
  {
    if Named(c, arts, t) && Target(c, arts[0]) != Ok(t) {
      var i :| 0 <= i < |arts| && Target(c, arts[i]) == Ok(t);
      assert arts[1..][i - 1] == arts[i];
    }
    if Named(c, arts[1..], t) {
      var i :| 0 <= i < |arts[1..]| && Target(c, arts[1..][i]) == Ok(t);
      assert arts[1..][i] == arts[i + 1];
    }
  }

  lemma {:induction false} EveryTargetInPlace(c: Config, fs: Files, arts: seq<Artifact>, env: seq<World>, t: Path)
    requires |env| == |arts| && CompatibleWithAll(c, t, arts) && Succeeds(c, fs, arts, env)
    ensures InPlace(c, fs, arts, env, t, Updated(c, fs, arts, env))
    decreases |arts|
  {
    hide InstallOne;
    if arts != [] {
      var a, w := arts[0], env[0];
      var step := InstallOne(c, fs, a, w);
      NamedHead(c, arts, t);
      CompatibleRest(c, t, arts);
      UpdatedHead(c, fs, arts, env, t);
      UpdatedHead(c, fs, arts, env, BackupPath(t));
      UpdatedHead(c, fs, arts, env, TmpPath(t));
      StepSucceeds(c, fs, a, w, t);
      StepSucceeds(c, fs, a, w, BackupPath(t));
      StepSucceeds(c, fs, a, w, TmpPath(t));
      SiblingsAreDistinct(t, Target(c, a).value);
      SiblingsAreDistinct(Target(c, a).value, t);
      EveryTargetInPlace(c, step.fs, arts[1..], env[1..], t);
    } else {
      assert !Named(c, arts, t);
    }
  }

  // The last artifact for a target decides its content.
  lemma {:induction false} LastArtifactWins(
      c: Config, content: Option<Octets>, arts: seq<Artifact>, env: seq<World>, t: Path, i: nat)
    requires |env| == |arts| && i < |arts| && Target(c, arts[i]) == Ok(t) && env[i].fetched.Ok?
    requires forall j :: i < j < |arts| ==> Target(c, arts[j]) != Ok(t)
    ensures Installed(c, content, arts, env, t) == Some(env[i].fetched.value)
    decreases |arts|
  {
    var now := if Target(c, arts[0]) == Ok(t) && env[0].fetched.Ok? then Some(env[0].fetched.value) else content;
    if i == 0 {
      assert forall j :: 0 <= j < |arts[1..]| ==> arts[1..][j] == arts[j + 1];
      NoneLeft(c, now, arts[1..], env[1..], t);
    } else {
      assert arts[1..][i - 1] == arts[i] && env[1..][i - 1] == env[i];
      assert forall j :: 0 <= j < |arts[1..]| ==> arts[1..][j] == arts[j + 1];
      LastArtifactWins(c, now, arts[1..], env[1..], t, i - 1);
    }
  }

  lemma {:induction false} NoneLeft(c: Config, content: Option<Octets>, arts: seq<Artifact>, env: seq<World>, t: Path)
    requires |env| == |arts| && forall j :: 0 <= j < |arts| ==> Target(c, arts[j]) != Ok(t)
    ensures Installed(c, content, arts, env, t) == content
    decreases |arts|
  {
    if arts != [] {
      assert forall j :: 0 <= j < |arts[1..]| ==> arts[1..][j] == arts[j + 1];
      NoneLeft(c, content, arts[1..], env[1..], t);
    }
  }

  // Where every removal of the clean-up succeeds, what it leaves of a backup is an old one.
  lemma {:induction false} OnlyOldBackups(
      c: Config, content: Option<Octets>, backup: Option<Octets>, arts: seq<Artifact>, env: seq<World>, t: Path)
    requires |env| == |arts| && forall i :: 0 <= i < |env| ==> env[i].cleanup
    ensures BackupLeft(c, content, backup, arts, env, t) in {None, backup}
    decreases |arts|
  {
    if arts != [] {
      var named := Target(c, arts[0]) == Ok(t) && env[0].fetched.Ok?;
      assert env[0].cleanup && forall i :: 0 <= i < |env[1..]| ==> env[1..][i] == env[i + 1];
      OnlyOldBackups(c, if named then Some(env[0].fetched.value) else content, backup, arts[1..], env[1..], t);
    }
  }

  // ---- the main results -------------------------------------------------------------------------

  // Every operation on every artifact succeeds, with `present` the paths that are there.
  ghost predicate AllPass(c: Config, present: set<Path>, arts: seq<Artifact>, env: seq<World>)
    requires |env| == |arts|
    decreases |arts|
  {
    arts == [] ||
    (&& Target(c, arts[0]).Ok?
     && Passes(c, Target(c, arts[0]).value in present, arts[0], env[0])
     && AllPass(c, present + {Target(c, arts[0]).value}, arts[1..], env[1..]))
  }

  // The update is applied if and only if every operation on every artifact succeeds: one
  // that fails anywhere rolls everything back.
  lemma {:induction false} AppliedIff(c: Config, fs: Files, present: set<Path>, arts: seq<Artifact>, env: seq<World>)
    requires |env| == |arts| && NoSiblings(c, arts) && Tells(c, fs, present, arts)
    ensures Apply(c, fs, arts, env).1 == Applied <==> AllPass(c, present, arts, env)
    decreases |arts|
  {
    hide InstallOne, Passes;
    if arts != [] {
      var step := InstallOne(c, fs, arts[0], env[0]);
      UpdatedHead(c, fs, arts, env, []);
      StepOutcome(c, fs, arts[0], env[0]);
      if step.error.None? {
        NoSiblingsRest(c, arts);
        StepTells(c, fs, present, arts, env);
        AppliedIff(c, step.fs, present + {Target(c, arts[0]).value}, arts[1..], env[1..]);
      }
    }
  }

  lemma {:induction false} PassedFetches(c: Config, present: set<Path>, arts: seq<Artifact>, env: seq<World>, i: nat)
    requires |env| == |arts| && AllPass(c, present, arts, env) && i < |arts|
    ensures Target(c, arts[i]).Ok? && env[i].fetched.Ok? && c.sha(env[i].fetched.value) == Wanted(arts[i])
    decreases |arts|
  {
    if i > 0 {
      assert arts[1..][i - 1] == arts[i] && env[1..][i - 1] == env[i];
      PassedFetches(c, present + {Target(c, arts[0]).value}, arts[1..], env[1..], i - 1);
    }
  }

  // A successful update: at every target stand bytes with the hash stated by the last
  // artifact for it, no path other than targets and their siblings has changed, no
  // temporary file is left, and a backup path holds exactly what the clean-up left there.
  lemma {:induction false} AppliedUpdate(c: Config, fs: Files, arts: seq<Artifact>, env: seq<World>)
    requires |env| == |arts| && NoSiblings(c, arts)
    requires Apply(c, fs, arts, env).1 == Applied
    ensures var out := Apply(c, fs, arts, env).0;
            && (forall i :: 0 <= i < |arts| ==>
                  && Target(c, arts[i]).Ok? && env[i].fetched.Ok? && c.sha(env[i].fetched.value) == Wanted(arts[i])
                  && var t := Target(c, arts[i]).value;
                  && ((forall j :: i < j < |arts| ==> Target(c, arts[j]) != Ok(t)) ==>
                        At(out, t) == Some(env[i].fetched.value))
                  && At(out, TmpPath(t)) == None
                  && At(out, BackupPath(t)) == BackupLeft(c, At(fs, t), At(fs, BackupPath(t)), arts, env, t))
            && (forall p :: OutsideAll(c, arts, p) ==> At(out, p) == At(fs, p))
  {
    hide InstallAll, CleanUp, AllPass, BackupLeft, Installed;
    assert Apply(c, fs, arts, env).0 == Updated(c, fs, arts, env) && Succeeds(c, fs, arts, env);
    AppliedIff(c, fs, fs.Keys, arts, env);
    forall i | 0 <= i < |arts|
      ensures Target(c, arts[i]).Ok? && env[i].fetched.Ok? && c.sha(env[i].fetched.value) == Wanted(arts[i])
      ensures var t := Target(c, arts[i]).value;
              InPlace(c, fs, arts, env, t, Updated(c, fs, arts, env)) && Named(c, arts, t)
    {
      PassedFetches(c, fs.Keys, arts, env, i);
      var t := Target(c, arts[i]).value;
      CompatibleEverywhere(c, arts, i);
      EveryTargetInPlace(c, fs, arts, env, t);
    }
    forall i | 0 <= i < |arts| && forall j :: i < j < |arts| ==> Target(c, arts[j]) != Target(c, arts[i])
      ensures At(Updated(c, fs, arts, env), Target(c, arts[i]).value) == Some(env[i].fetched.value)
    {
      LastArtifactWins(c, At(fs, Target(c, arts[i]).value), arts, env, Target(c, arts[i]).value, i);
    }
    forall p | OutsideAll(c, arts, p)
      ensures At(Updated(c, fs, arts, env), p) == At(fs, p)
    {
      UntouchedElsewhere(c, fs, arts, env, p);
    }
  }

  lemma {:induction false} CompatibleEverywhere(c: Config, arts: seq<Artifact>, i: nat)
    requires NoSiblings(c, arts) && i < |arts| && Target(c, arts[i]).Ok?
    ensures CompatibleWithAll(c, Target(c, arts[i]).value, arts)
  {
    forall j | 0 <= j < |arts| && Target(c, arts[j]).Ok?
      ensures Compatible(Target(c, arts[i]).value, Target(c, arts[j]).value)
    {
    }
  }

  // An applied update whose clean-up removes what it tries to leaves no backup of its own:
  // at each backup path stands nothing, or what stood there before the update.
  lemma NoBackupLeft(c: Config, fs: Files, arts: seq<Artifact>, env: seq<World>)
    requires |env| == |arts| && NoSiblings(c, arts) && forall i :: 0 <= i < |env| ==> env[i].cleanup
    requires Apply(c, fs, arts, env).1 == Applied
    ensures forall i :: 0 <= i < |arts| && Target(c, arts[i]).Ok? ==>
              var backup := BackupPath(Target(c, arts[i]).value);
              At(Apply(c, fs, arts, env).0, backup) in {None, At(fs, backup)}
  {
    hide Apply, BackupLeft, NoSiblings;
    AppliedUpdate(c, fs, arts, env);
    forall i | 0 <= i < |arts| && Target(c, arts[i]).Ok?
      ensures var backup := BackupPath(Target(c, arts[i]).value);
              At(Apply(c, fs, arts, env).0, backup) in {None, At(fs, backup)}
    {
      var t := Target(c, arts[i]).value;
      OnlyOldBackups(c, At(fs, t), At(fs, BackupPath(t)), arts, env, t);
    }
  }

  // Why no target may be another's sibling: an artifact installed where an earlier one
  // keeps its backup is removed by that one's clean-up, although the update is reported
  // as applied.
  lemma {:induction false} SiblingTargetIsRemoved(c: Config, fs: Files, a: Artifact, b: Artifact, v: World, w: World)
    requires Target(c, a).Ok? && Target(c, b) == Ok(BackupPath(Target(c, a).value))
    requires Target(c, a).value in fs && v.probe && v.cleanup
    requires Passes(c, true, a, v) && Passes(c, true, b, w)
    ensures Apply(c, fs, [a, b], [v, w]).1 == Applied
    ensures At(Apply(c, fs, [a, b], [v, w]).0, Target(c, b).value) == None
  {
    hide InstallOne, InstallAll, CleanUp, Passes;
    var arts, env, t := [a, b], [v, w], Target(c, a).value;
    assert arts[1..] == [b] && env[1..] == [w] && [b][1..] == [] && [w][1..] == [];
    var one := InstallOne(c, fs, a, v);
    StepOutcome(c, fs, a, v);
    StepSucceeds(c, fs, a, v, BackupPath(t));
    SiblingsAreDistinct(t, t);
    assert At(one.fs, BackupPath(t)) == At(fs, t) && BackupPath(t) in one.fs;
    StepOutcome(c, one.fs, b, w);
    UpdatedHead(c, fs, arts, env, BackupPath(t));
    UpdatedHead(c, one.fs, [b], [w], BackupPath(t));
    NothingToDo(c, InstallOne(c, one.fs, b, w).fs);
  }

  lemma {:induction false} NothingToDo(c: Config, fs: Files)
    ensures Succeeds(c, fs, [], [])
  {}
}
