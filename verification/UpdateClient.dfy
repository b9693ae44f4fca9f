// Transactional installation of a verified update: every target is moved aside, its new
// content fetched, re-hashed, written beside it and renamed into place; any failure
// rolls the whole update back in reverse order.
module UpdateClient {
  import opened Errors
  import opened Bytes
  import opened Text
  import opened UpdatePaths

  type Files = map<Path, Octets>

  datatype Artifact = Artifact(location: Path, sha256: string)

  datatype Record = Record(target: Path, backup: Option<Path>, wroteNew: bool)

  datatype ApplyOutcome = Applied | RolledBack

  datatype WriteOutcome = Written | CreateFails | Partial(content: Octets)

  // What the operating system and the transport answer while one artifact is handled,
  // in the order they are asked; a fetch may answer differently every time.
  datatype World = World(
    mkdir: bool, probe: bool, aside: bool, fetched: Result<Octets>, write: WriteOutcome, install: bool,
    unlink: bool, restore: bool, cleanup: bool)

  datatype Version = Version(major: nat, minor: nat, patch: nat) {
    predicate IsNewerThan(other: Version) {
      major > other.major
      || (major == other.major && (minor > other.minor || (minor == other.minor && patch > other.patch)))
    }
  }

  // The hash function and the optional directory everything is installed under.
  datatype Config = Config(installDir: Option<Path>, sha: Octets -> string)

  function Wanted(a: Artifact): string {
    var t := Trim(a.sha256);
    seq(|t|, i requires 0 <= i < |t| => Lower(t[i]))
  }

  // Only the file name of a location is used under an install directory.
  function Target(c: Config, a: Artifact): Result<Path> {
    if c.installDir.None? then Ok(a.location)
    else if !HasName(a.location) then Err(System)
    else Ok(c.installDir.value + [a.location[|a.location| - 1]])
  }

  function CheckedFetch(c: Config, a: Artifact, w: World): Result<Octets> {
    if w.fetched.Ok? && c.sha(w.fetched.value) != Wanted(a) then Err(Integrity) else w.fetched
  }

  // ---- file operations -------------------------------------------------------------

  function Rename(fs: Files, from: Path, to: Path): Files
    requires from in fs
  {
    (fs - {from})[to := fs[from]]
  }

  // ---- specification ---------------------------------------------------------------

  datatype Step = Step(fs: Files, record: Option<Record>, error: Option<Error>)

  function FillIn(c: Config, fs: Files, r: Record, a: Artifact, w: World): Step {
    var got := CheckedFetch(c, a, w);
    if got.Err? then Step(fs, Some(r), Some(got.error))
    else
      var tmp := TmpPath(r.target);
      match w.write
      case CreateFails => Step(fs, Some(r), Some(System))
      case Partial(content) => Step(fs[tmp := content], Some(r), Some(System))
      case Written =>
        if !w.install then Step(fs[tmp := got.value], Some(r), Some(System))
        else Step(Rename(fs[tmp := got.value], tmp, r.target), Some(r.(wroteNew := true)), None)
  }

  // A probe that errors reads as "absent", whatever is there.
  predicate Existed(fs: Files, t: Path, w: World) {
    w.probe && t in fs
  }

  function InstallOne(c: Config, fs: Files, a: Artifact, w: World): Step {
    match Target(c, a)
    case Err(e) => Step(fs, None, Some(e))
    case Ok(t) =>
      if HasParent(t) && !w.mkdir then Step(fs, None, Some(System))
      else if !Existed(fs, t, w) then FillIn(c, fs, Record(t, None, false), a, w)
      else if !w.aside then Step(fs, None, Some(System))
      else FillIn(c, Rename(fs, t, BackupPath(t)), Record(t, Some(BackupPath(t)), false), a, w)
  }

  datatype Progress = Progress(fs: Files, records: seq<Record>, error: Option<Error>)

  function InstallAll(c: Config, fs: Files, todo: seq<Artifact>, env: seq<World>): (p: Progress)
    requires |env| == |todo|
    ensures |p.records| <= |todo|
    decreases |todo|
  {
    if todo == [] then Progress(fs, [], None)
    else
      var step := InstallOne(c, fs, todo[0], env[0]);
      var done := if step.record.Some? then [step.record.value] else [];
      if step.error.Some? then Progress(step.fs, done, step.error)
      else
        var rest := InstallAll(c, step.fs, todo[1..], env[1..]);
        Progress(rest.fs, done + rest.records, rest.error)
  }

  function Onto(done: seq<Record>, p: Progress): Progress {
    p.(records := done + p.records)
  }

  lemma SuccessLeavesRecord(c: Config, fs: Files, a: Artifact, w: World)
    ensures InstallOne(c, fs, a, w).error.None? ==> InstallOne(c, fs, a, w).record.Some?
  {}

  lemma OntoAssociative(done: seq<Record>, r: Record, p: Progress)
    ensures Onto(done, Onto([r], p)) == Onto(done + [r], p)
  {
    assert done + ([r] + p.records) == done + [r] + p.records;
  }

  lemma InstallAllHead(c: Config, fs: Files, todo: seq<Artifact>, env: seq<World>)
    requires |env| == |todo| && todo != []
    ensures var step := InstallOne(c, fs, todo[0], env[0]);
            && (step.error.None? ==> step.record.Some?)
            && InstallAll(c, fs, todo, env)
            == if step.error.Some? then
                 Progress(step.fs, if step.record.Some? then [step.record.value] else [], step.error)
               else Onto([step.record.value], InstallAll(c, step.fs, todo[1..], env[1..]))
  {
    SuccessLeavesRecord(c, fs, todo[0], env[0]);
  }

  function Undo(fs: Files, r: Record, w: World): Files {
    var fs' := if r.wroteNew && w.unlink then fs - {r.target} else fs;
    if r.backup.Some? && w.restore && r.backup.value in fs' then Rename(fs', r.backup.value, r.target) else fs'
  }

  // The newest record is undone first.
  function RollBack(fs: Files, records: seq<Record>, env: seq<World>): Files
    requires |records| <= |env|
    decreases |records|
  {
    if records == [] then fs else Undo(RollBack(fs, records[1..], env[1..]), records[0], env[0])
  }

  function Forget(fs: Files, r: Record, w: World): Files {
    if r.backup.Some? && w.cleanup then fs - {r.backup.value} else fs
  }

  function CleanUp(fs: Files, records: seq<Record>, env: seq<World>): Files
    requires |records| <= |env|
    decreases |records|
  {
    if records == [] then fs else CleanUp(Forget(fs, records[0], env[0]), records[1..], env[1..])
  }

  function Apply(c: Config, fs: Files, artifacts: seq<Artifact>, env: seq<World>): (Files, ApplyOutcome)
    requires |env| == |artifacts|
  {
    var p := InstallAll(c, fs, artifacts, env);
    if p.error.None? then (CleanUp(p.fs, p.records, env), Applied)
    else (RollBack(p.fs, p.records, env), RolledBack)
  }

  // ---- the client --------------------------------------------------------------------

  class SignedUpdateClient {
    var fs: Files
    const config: Config

    constructor (config: Config, fs: Files)
      ensures this.config == config && this.fs == fs
    {
      this.config := config;
      this.fs := fs;
    }

    // Accepts exactly a signed, strictly newer manifest whose every artifact hashes as stated.
    method Verify(signed: bool, offered: Version, current: Version, artifacts: seq<Artifact>, env: seq<World>)
      returns (r: Result<()>)
      requires |env| == |artifacts|
      ensures r.Ok? <==>
                && signed && offered.IsNewerThan(current)
                && forall i :: 0 <= i < |artifacts| ==> CheckedFetch(config, artifacts[i], env[i]).Ok?
      ensures !(signed && offered.IsNewerThan(current)) ==> r == Err(Integrity)
    {
      if !signed {
        return Err(Integrity);
      }
      if !offered.IsNewerThan(current) {
        return Err(Integrity);
      }
      for i := 0 to |artifacts|
        invariant forall j :: 0 <= j < i ==> CheckedFetch(config, artifacts[j], env[j]).Ok?
      {
        var bytes := env[i].fetched;
        if bytes.Err? {
          assert CheckedFetch(config, artifacts[i], env[i]).Err?;
          return Err(bytes.error);
        }
        if config.sha(bytes.value) != Wanted(artifacts[i]) {
          assert CheckedFetch(config, artifacts[i], env[i]).Err?;
          return Err(Integrity);
        }
      }
      return Ok(());
    }

    method WriteNew(a: Artifact, w: World, record: Record) returns (wrote: bool, error: Option<Error>)
      requires !record.wroteNew
      modifies this
      ensures Step(fs, Some(record.(wroteNew := wrote)), error) == FillIn(config, old(fs), record, a, w)
    {
      wrote := false;
      if w.fetched.Err? {
        error := Some(w.fetched.error);
        return;
      }
      var bytes := w.fetched.value;
      if config.sha(bytes) != Wanted(a) {
        error := Some(Integrity);
        return;
      }
      var tmp := TmpPath(record.target);
      match w.write {
        case CreateFails =>
          error := Some(System);
          return;
        case Partial(content) =>
          fs := fs[tmp := content];
          error := Some(System);
          return;
        case Written =>
          fs := fs[tmp := bytes];
      }
      if !w.install {
        error := Some(System);
        return;
      }
      fs := Rename(fs, tmp, record.target);
      wrote := true;
      error := None;
    }

    method Install(a: Artifact, w: World) returns (record: Option<Record>, error: Option<Error>)
      modifies this
      ensures Step(fs, record, error) == InstallOne(config, old(fs), a, w)
    {
      record := None;
      var resolved := Target(config, a);
      if resolved.Err? {
        error := Some(resolved.error);
        return;
      }
      var target := resolved.value;
      if HasParent(target) && !w.mkdir {
        error := Some(System);
        return;
      }
      var r := Record(target, None, false);
      if Existed(fs, target, w) {
        if !w.aside {
          error := Some(System);
          return;
        }
        fs := Rename(fs, target, BackupPath(target));
        r := r.(backup := Some(BackupPath(target)));
      }
      var wrote;
      wrote, error := WriteNew(a, w, r);
      record := Some(r.(wroteNew := wrote));
    }

    method RemoveBackups(records: seq<Record>, env: seq<World>)
      requires |records| <= |env|
      modifies this
      ensures fs == CleanUp(old(fs), records, env)
    {
      for i := 0 to |records|
        invariant CleanUp(fs, records[i..], env[i..]) == CleanUp(old(fs), records, env)
      {
        assert records[i..][1..] == records[i + 1..] && env[i..][1..] == env[i + 1..];
        if records[i].backup.Some? && env[i].cleanup {
          fs := fs - {records[i].backup.value};
        }
      }
    }

    method Restore(records: seq<Record>, env: seq<World>)
      requires |records| <= |env|
      modifies this
      ensures fs == RollBack(old(fs), records, env)
    {
      for i := |records| downto 0
        invariant fs == RollBack(old(fs), records[i..], env[i..])
      {
        assert records[i..][1..] == records[i + 1..] && env[i..][1..] == env[i + 1..];
        ghost var before := fs;
        if records[i].wroteNew && env[i].unlink {
          fs := fs - {records[i].target};
        }
        if records[i].backup.Some? && env[i].restore && records[i].backup.value in fs {
          fs := Rename(fs, records[i].backup.value, records[i].target);
        }
        assert fs == Undo(before, records[i], env[i]);
      }
    }

    method InstallEach(artifacts: seq<Artifact>, env: seq<World>) returns (backups: seq<Record>, error: Option<Error>)
      requires |env| == |artifacts|
      modifies this
      ensures Progress(fs, backups, error) == InstallAll(config, old(fs), artifacts, env)
    {
      backups, error := [], None;
      var i := 0;
      while i < |artifacts| && error.None?
        invariant 0 <= i <= |artifacts| && |backups| <= i
        invariant InstallAll(config, old(fs), artifacts, env)
               == if error.Some? then Progress(fs, backups, error)
                  else Onto(backups, InstallAll(config, fs, artifacts[i..], env[i..]))
        decreases |artifacts| - i
      {
        assert artifacts[i..][1..] == artifacts[i + 1..] && env[i..][1..] == env[i + 1..];
        InstallAllHead(config, fs, artifacts[i..], env[i..]);
        SuccessLeavesRecord(config, fs, artifacts[i], env[i]);
        ghost var done := backups;
        var record;
        record, error := Install(artifacts[i], env[i]);
        if record.Some? {
          backups := backups + [record.value];
        }
        i := i + 1;
        if error.None? {
          OntoAssociative(done, record.value, InstallAll(config, fs, artifacts[i..], env[i..]));
        }
      }
    }

    method ApplyUpdate(artifacts: seq<Artifact>, env: seq<World>) returns (outcome: ApplyOutcome)
      requires |env| == |artifacts|
      modifies this
      ensures (fs, outcome) == Apply(config, old(fs), artifacts, env)
    {
      var backups, error := InstallEach(artifacts, env);
      if error.None? {
        RemoveBackups(backups, env);
        outcome := Applied;
      } else {
        Restore(backups, env);
        outcome := RolledBack;
      }
    }
  }
}
