// Where an update writes, in terms of the install directory and the artifacts' locations.
module UpdatePlacement {
  import opened Errors
  import opened UpdatePaths
  import opened UpdateClient
  import opened UpdateSafety
  import opened UpdateSuccess

  // ---- nothing but targets and their siblings changes, applied or rolled back ---------------

  lemma {:induction false} OutsideRest(c: Config, arts: seq<Artifact>, p: Path)
    requires OutsideAll(c, arts, p) && arts != []
    ensures OutsideAll(c, arts[1..], p)
  {
    forall i | 0 <= i < |arts[1..]| && Target(c, arts[1..][i]).Ok?
      ensures p !in Footprint(Target(c, arts[1..][i]).value)
    {
      assert arts[1..][i] == arts[i + 1];
    }
  }

  lemma {:induction false} StepOutside(c: Config, fs: Files, a: Artifact, w: World, p: Path)
    requires Target(c, a).Ok? ==> p !in Footprint(Target(c, a).value)
    ensures At(InstallOne(c, fs, a, w).fs, p) == At(fs, p)
  {}

  lemma {:induction false} UndoOutside(fs: Files, r: Record, w: World, p: Path)
    requires p != r.target && (r.backup.Some? ==> p != r.backup.value)
    ensures At(Undo(fs, r, w), p) == At(fs, p)
  {}

  lemma {:induction false} RolledOutside(c: Config, fs: Files, arts: seq<Artifact>, env: seq<World>, p: Path)
    requires |env| == |arts| && OutsideAll(c, arts, p)
    ensures At(Rolled(c, fs, arts, env), p) == At(fs, p)
    decreases |arts|
  {
    hide InstallOne, Undo;
    if arts != [] {
      var step := InstallOne(c, fs, arts[0], env[0]);
      RolledHead(c, fs, arts, env);
      StepRecord(c, fs, arts[0], env[0]);
      StepOutside(c, fs, arts[0], env[0], p);
      if step.error.None? {
        OutsideRest(c, arts, p);
        RolledOutside(c, step.fs, arts[1..], env[1..], p);
        UndoOutside(Rolled(c, step.fs, arts[1..], env[1..]), step.record.value, env[0], p);
      } else if step.record.Some? {
        UndoOutside(step.fs, step.record.value, env[0], p);
      }
    }
  }

  lemma {:induction false} AppliesOutside(c: Config, fs: Files, arts: seq<Artifact>, env: seq<World>, p: Path)
    requires |env| == |arts| && OutsideAll(c, arts, p)
    ensures At(Apply(c, fs, arts, env).0, p) == At(fs, p)
  {
    hide InstallAll, RollBack, CleanUp;
    if Succeeds(c, fs, arts, env) {
      UntouchedElsewhere(c, fs, arts, env, p);
    } else {
      RolledOutside(c, fs, arts, env, p);
    }
  }

  // ---- in terms of names ------------------------------------------------------------------------

  const SUFFIXES := {"", ".aegis-bak", ".aegis-tmp"}

  // The file an artifact's last component names in a directory, or a sibling of it.
  predicate NamedAfter(d: Path, a: Artifact, p: Path) {
    && a.location != [] && a.location[|a.location| - 1].Normal?
    && |p| == |d| + 1 && p[..|d|] == d && p[|d|].Normal?
    && exists suffix | suffix in SUFFIXES :: p[|d|].name == a.location[|a.location| - 1].name + suffix
  }

  lemma TargetIsNamed(c: Config, d: Path, a: Artifact, p: Path)
    requires c.installDir == Some(d) && Target(c, a).Ok? && p in Footprint(Target(c, a).value)
    ensures NamedAfter(d, a, p)
  {
    var n := a.location[|a.location| - 1].name;
    assert n + "" == n;
    var t := Target(c, a).value;
    assert t[..|d|] == d && t[..|t| - 1] == d;
    assert p[|d|].name == n + (if p == t then "" else if p == BackupPath(t) then ".aegis-bak" else ".aegis-tmp");
  }

  // With an install directory, every path whose content an update changes, whether it is
  // applied or rolled back, is a file directly in that directory, named after the last
  // component of an artifact's location.
  lemma OnlyTheDirectoryChanges(c: Config, d: Path, fs: Files, arts: seq<Artifact>, env: seq<World>, p: Path)
    requires |env| == |arts| && c.installDir == Some(d)
    requires At(Apply(c, fs, arts, env).0, p) != At(fs, p)
    ensures exists i :: 0 <= i < |arts| && NamedAfter(d, arts[i], p)
  {
    hide Apply, NamedAfter;
    if OutsideAll(c, arts, p) {
      AppliesOutside(c, fs, arts, env, p);
      assert false;
    }
    var i :| 0 <= i < |arts| && Target(c, arts[i]).Ok? && p in Footprint(Target(c, arts[i]).value);
    TargetIsNamed(c, d, arts[i], p);
  }

  // A path beside another, as its name followed by a suffix; a path without a name takes
  // the suffix below it.
  predicate IsBeside(t: Path, p: Path) {
    p != [] && p[|p| - 1].Normal? &&
    if t != [] && t[|t| - 1].Normal? then
      && p[..|p| - 1] == t[..|t| - 1]
      && exists suffix | suffix in SUFFIXES :: p[|p| - 1].name == t[|t| - 1].name + suffix
    else p[..|p| - 1] == t && p[|p| - 1].name in SUFFIXES
  }

  lemma LocationIsTarget(c: Config, a: Artifact, p: Path)
    requires c.installDir.None? && Target(c, a).Ok? && p in Footprint(Target(c, a).value)
    ensures p == a.location || IsBeside(a.location, p)
  {
    var suffix := if p == BackupPath(a.location) then ".aegis-bak" else ".aegis-tmp";
    if p != a.location {
      assert p == WithFileName(a.location, FileName(a.location) + suffix);
      assert suffix in SUFFIXES && "" + suffix == suffix;
    }
  }

  // Without one, it is a location itself or a sibling of one.
  lemma OnlyTheLocationsChange(c: Config, fs: Files, arts: seq<Artifact>, env: seq<World>, p: Path)
    requires |env| == |arts| && c.installDir.None?
    requires At(Apply(c, fs, arts, env).0, p) != At(fs, p)
    ensures exists i :: 0 <= i < |arts| && (p == arts[i].location || IsBeside(arts[i].location, p))
  {
    hide Apply, IsBeside;
    if OutsideAll(c, arts, p) {
      AppliesOutside(c, fs, arts, env, p);
      assert false;
    }
    var i :| 0 <= i < |arts| && Target(c, arts[i]).Ok? && p in Footprint(Target(c, arts[i]).value);
    LocationIsTarget(c, arts[i], p);
  }

  // ---- what is installed ----------------------------------------------------------------------------

  // No artifact's file name is that of another one with a suffix added.
  ghost predicate PlainNames(arts: seq<Artifact>) {
    forall i, j, suffix | 0 <= i < |arts| && 0 <= j < |arts| && suffix in {".aegis-bak", ".aegis-tmp"} ::
      FileName(arts[i].location) != FileName(arts[j].location) + suffix
  }

  lemma TargetName(c: Config, d: Path, a: Artifact)
    requires c.installDir == Some(d) && Target(c, a).Ok?
    ensures HasName(a.location) && Target(c, a).value == d + [Normal(FileName(a.location))]
  {}

  lemma InDirectory(d: Path, n: Name)
    ensures BackupPath(d + [Normal(n)]) == d + [Normal(n + ".aegis-bak")]
    ensures TmpPath(d + [Normal(n)]) == d + [Normal(n + ".aegis-tmp")]
  {
    assert (d + [Normal(n)])[..|d|] == d;
  }

  lemma DifferentNames(d: Path, m: Name, n: Name)
    requires m != n
    ensures d + [Normal(m)] != d + [Normal(n)]
  {
    assert (d + [Normal(m)])[|d|] != (d + [Normal(n)])[|d|];
  }

  lemma PlainIsCompatible(c: Config, d: Path, a: Artifact, b: Artifact)
    requires c.installDir == Some(d) && Target(c, a).Ok? && Target(c, b).Ok?
    requires PlainNames([a, b])
    ensures Compatible(Target(c, a).value, Target(c, b).value)
  {
    TargetName(c, d, a);
    TargetName(c, d, b);
    var m, n := FileName(a.location), FileName(b.location);
    InDirectory(d, m);
    InDirectory(d, n);
    assert [a, b][0] == a && [a, b][1] == b;
    DifferentNames(d, m, n + ".aegis-bak");
    DifferentNames(d, m, n + ".aegis-tmp");
    DifferentNames(d, n, m + ".aegis-bak");
    DifferentNames(d, n, m + ".aegis-tmp");
  }

  lemma PlainHasNoSiblings(c: Config, d: Path, arts: seq<Artifact>)
    requires c.installDir == Some(d) && PlainNames(arts)
    ensures NoSiblings(c, arts)
  {
    hide Compatible;
    forall i, j | 0 <= i < j < |arts| && Target(c, arts[i]).Ok? && Target(c, arts[j]).Ok?
      ensures Compatible(Target(c, arts[i]).value, Target(c, arts[j]).value)
    {
      PlainIsCompatible(c, d, arts[i], arts[j]);
    }
  }

  // An applied update has, for every artifact, the bytes fetched for the last one of its
  // name standing in the directory under that name, and they hash as stated.
  lemma AppliedStandsInDirectory(c: Config, d: Path, fs: Files, arts: seq<Artifact>, env: seq<World>, i: nat)
    requires |env| == |arts| && c.installDir == Some(d) && PlainNames(arts)
    requires Apply(c, fs, arts, env).1 == Applied && i < |arts|
    requires forall j :: i < j < |arts| ==> FileName(arts[j].location) != FileName(arts[i].location)
    ensures HasName(arts[i].location) && env[i].fetched.Ok?
    ensures At(Apply(c, fs, arts, env).0, d + [Normal(FileName(arts[i].location))]) == Some(env[i].fetched.value)
    ensures c.sha(env[i].fetched.value) == Wanted(arts[i])
  {
    hide Apply, NoSiblings, PlainNames;
    PlainHasNoSiblings(c, d, arts);
    AppliedUpdate(c, fs, arts, env);
    TargetName(c, d, arts[i]);
    forall j | i < j < |arts| ensures Target(c, arts[j]) != Target(c, arts[i]) {
      TargetName(c, d, arts[j]);
      DifferentNames(d, FileName(arts[j].location), FileName(arts[i].location));
    }
  }

  // Without a directory they stand at the location itself.
  lemma AppliedStandsAtLocation(c: Config, fs: Files, arts: seq<Artifact>, env: seq<World>, i: nat)
    requires |env| == |arts| && c.installDir.None?
    requires forall j, k | 0 <= j < k < |arts| :: Compatible(arts[j].location, arts[k].location)
    requires Apply(c, fs, arts, env).1 == Applied && i < |arts|
    requires forall j :: i < j < |arts| ==> arts[j].location != arts[i].location
    ensures env[i].fetched.Ok? && At(Apply(c, fs, arts, env).0, arts[i].location) == Some(env[i].fetched.value)
    ensures c.sha(env[i].fetched.value) == Wanted(arts[i])
  {
    hide Apply, Compatible;
    AppliedUpdate(c, fs, arts, env);
  }

  // A location without a file name cannot be installed in a directory: the update is
  // rolled back, and one that begins with it has changed nothing.
  lemma {:induction false} NamelessRollsBack(c: Config, fs: Files, arts: seq<Artifact>, env: seq<World>, i: nat)
    requires |env| == |arts| && c.installDir.Some? && i < |arts|
    requires arts[i].location == [] || !arts[i].location[|arts[i].location| - 1].Normal?
    ensures Apply(c, fs, arts, env).1 == RolledBack
    ensures i == 0 ==> Apply(c, fs, arts, env).0 == fs
    decreases |arts|
  {
    hide InstallOne, RollBack, CleanUp;
    var step := InstallOne(c, fs, arts[0], env[0]);
    StepOutcome(c, fs, arts[0], env[0]);
    StepRecord(c, fs, arts[0], env[0]);
    InstallAllHead(c, fs, arts, env);
    if i == 0 {
      assert RollBack(fs, [], env) == fs by { NothingToRollBack(fs, env); }
    } else if step.error.None? {
      assert arts[1..][i - 1] == arts[i];
      NamelessRollsBack(c, step.fs, arts[1..], env[1..], i - 1);
    }
  }

  lemma NothingToRollBack(fs: Files, env: seq<World>)
    ensures RollBack(fs, [], env) == fs
  {}
}
