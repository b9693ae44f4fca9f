// A profile directory as a tree of files on disk, and the two walks over it: measuring
// and shredding. File contents are arrays, so that overwriting happens in place.
module FileTree {
  import opened Errors
  import opened Bytes

  // What the file system answers when a node is opened: it is there, it has vanished
  // since its directory was listed, or the access fails.
  datatype Status = Present | Gone | Broken

  // Entries stand in the order the directory lists them. A link's target lies anywhere.
  // Overwriting a file may fail once it has put down so many bytes, in whichever pass.
  datatype Tree =
    | File(content: array<Byte>, status: Status, failsAfter: Option<nat>)
    | Dir(entries: seq<Tree>, status: Status)
    | Link(target: array<Byte>)

  const U64_MAX: nat := 0xFFFF_FFFF_FFFF_FFFF

  function Cap(n: nat): nat {
    if n > U64_MAX then U64_MAX else n
  }

  // ---- recursive specifications --------------------------------------------------------------

  // Bytes in regular files; a vanished node counts nothing and a link is not followed.
  function Size(t: Tree): nat
    decreases t
  {
    match t
    case File(a, s, _) => if s == Present then a.Length else 0
    case Dir(es, s) => if s == Present then SizeAll(es) else 0
    case Link(_) => 0
  }

  function SizeAll(ts: seq<Tree>): nat
    decreases ts
  {
    if ts == [] then 0 else SizeAll(ts[..|ts| - 1]) + Size(ts[|ts| - 1])
  }

  // Whether measuring meets a node it cannot access.
  predicate Unreadable(t: Tree)
    decreases t
  {
    match t
    case File(_, s, _) => s == Broken
    case Dir(es, s) => s == Broken || (s == Present && UnreadableAny(es))
    case Link(_) => false
  }

  predicate UnreadableAny(ts: seq<Tree>)
    decreases ts
  {
    ts != [] && (UnreadableAny(ts[..|ts| - 1]) || Unreadable(ts[|ts| - 1]))
  }

  function Nodes(t: Tree): nat
    decreases t
  {
    if t.Dir? then 1 + NodesAll(t.entries) else 1
  }

  function NodesAll(ts: seq<Tree>): nat
    decreases ts
  {
    if ts == [] then 0 else NodesAll(ts[..|ts| - 1]) + Nodes(ts[|ts| - 1])
  }

  // ---- measuring ----------------------------------------------------------------------------

  lemma Pushed(ts: seq<Tree>, t: Tree)
    ensures SizeAll(ts + [t]) == SizeAll(ts) + Size(t)
    ensures UnreadableAny(ts + [t]) <==> UnreadableAny(ts) || Unreadable(t)
    ensures NodesAll(ts + [t]) == NodesAll(ts) + Nodes(t)
  {
    assert (ts + [t])[..|ts|] == ts;
  }

  lemma Advanced(ts: seq<Tree>, i: nat)
    requires i < |ts|
    ensures SizeAll(ts[..i + 1]) == SizeAll(ts[..i]) + Size(ts[i])
    ensures UnreadableAny(ts[..i + 1]) <==> UnreadableAny(ts[..i]) || Unreadable(ts[i])
    ensures NodesAll(ts[..i + 1]) == NodesAll(ts[..i]) + Nodes(ts[i])
  {
    assert ts[..i + 1][..i] == ts[..i];
  }

  lemma {:induction false} BrokenPrefix(ts: seq<Tree>, i: nat)
    requires i <= |ts| && UnreadableAny(ts[..i])
    ensures UnreadableAny(ts)
    decreases |ts| - i
  {
    if i < |ts| {
      Advanced(ts, i);
      BrokenPrefix(ts, i + 1);
    } else {
      assert ts[..i] == ts;
    }
  }

  lemma PoppedNodes(ts: seq<Tree>)
    requires ts != [] && ts[|ts| - 1].Dir?
    ensures NodesAll(ts) == NodesAll(ts[..|ts| - 1]) + 1 + NodesAll(ts[|ts| - 1].entries)
  {}

  // Lists one directory: its subdirectories go on the stack, its files into the total.
  method ListEntries(entries: seq<Tree>, pending: seq<Tree>, total: nat, ghost sum: nat)
    returns (r: Result<nat>, stack: seq<Tree>, ghost sum': nat)
    requires total == Cap(sum)
    ensures r.Err? ==> r == Err(System) && UnreadableAny(entries)
    ensures r.Ok? ==>
              && r.value == Cap(sum')
              && sum' + SizeAll(stack) == sum + SizeAll(pending) + SizeAll(entries)
              && (UnreadableAny(stack) <==> UnreadableAny(pending) || UnreadableAny(entries))
              && NodesAll(stack) <= NodesAll(pending) + NodesAll(entries)
              && ((forall t | t in pending :: t.Dir?) ==> forall t | t in stack :: t.Dir?)
  {
    stack, sum' := pending, sum;
    var acc := total;
    for i := 0 to |entries|
      invariant acc == Cap(sum')
      invariant sum' + SizeAll(stack) == sum + SizeAll(pending) + SizeAll(entries[..i])
      invariant UnreadableAny(stack) <==> UnreadableAny(pending) || UnreadableAny(entries[..i])
      invariant NodesAll(stack) <= NodesAll(pending) + NodesAll(entries[..i])
      invariant (forall t | t in pending :: t.Dir?) ==> forall t | t in stack :: t.Dir?
    {
      Advanced(entries, i);
      match entries[i] {
        case Dir(_, _) =>
          Pushed(stack, entries[i]);
          stack := stack + [entries[i]];
        case File(content, status, _) =>
          if status == Broken {
            BrokenPrefix(entries, i + 1);
            return Err(System), stack, sum';
          }
          if status == Present {
            sum' := sum' + content.Length;
            acc := Cap(acc + content.Length);  // saturating_add
          }
        case Link(_) =>
      }
    }
    assert entries[..|entries|] == entries;
    r := Ok(acc);
  }

  method DirSize(root: Tree) returns (r: Result<nat>)
    requires root.Dir?
    ensures r.Ok? <==> !Unreadable(root)
    ensures r.Ok? ==> r.value == Cap(Size(root))
  {
    var total := 0;
    ghost var sum: nat := 0;
    var stack := [root];
    Pushed([], root);
    assert [] + [root] == [root];
    while stack != []
      invariant total == Cap(sum) && forall t | t in stack :: t.Dir?
      invariant sum + SizeAll(stack) == Size(root)
      invariant UnreadableAny(stack) <==> Unreadable(root)
      decreases NodesAll(stack)
    {
      var current := stack[|stack| - 1];
      PoppedNodes(stack);
      stack := stack[..|stack| - 1];
      match current.status {
        case Gone => continue;
        case Broken => return Err(System);
        case Present =>
      }
      var listed;
      listed, stack, sum := ListEntries(current.entries, stack, total, sum);
      if listed.Err? {
        return Err(System);
      }
      total := listed.value;
    }
    r := Ok(total);
  }

  // ---- shredding ----------------------------------------------------------------------------

  // The regular files a shred overwrites.
  function Files(t: Tree): set<array<Byte>>
    decreases t
  {
    match t
    case File(a, s, _) => if s == Present then {a} else {}
    case Dir(es, _) => FilesIn(es)
    case Link(_) => {}
  }

  function FilesIn(ts: seq<Tree>): set<array<Byte>>
    decreases ts
  {
    if ts == [] then {} else FilesIn(ts[..|ts| - 1]) + Files(ts[|ts| - 1])
  }

  // Whether every directory can be listed.
  predicate Listable(t: Tree)
    decreases t
  {
    t.Dir? ==> t.status == Present && AllListable(t.entries)
  }

  predicate AllListable(ts: seq<Tree>)
    decreases ts
  {
    ts == [] || (AllListable(ts[..|ts| - 1]) && Listable(ts[|ts| - 1]))
  }

  // Whether every file takes all its passes; one that has vanished or is empty takes none.
  predicate Writable(t: Tree, passes: nat)
    decreases t
  {
    match t
    case File(a, s, n) => s == Gone || (s == Present && (a.Length == 0 || n.None? || n.value > passes * a.Length))
    case Dir(es, _) => AllWritable(es, passes)
    case Link(_) => true
  }

  predicate AllWritable(ts: seq<Tree>, passes: nat)
    decreases ts
  {
    ts == [] || (AllWritable(ts[..|ts| - 1], passes) && Writable(ts[|ts| - 1], passes))
  }

  predicate Shreddable(t: Tree, passes: nat) {
    t.Dir? ==> Listable(t) && Writable(t, passes)
  }

  lemma PushedFiles(ts: seq<Tree>, t: Tree, passes: nat)
    ensures FilesIn(ts + [t]) == FilesIn(ts) + Files(t)
    ensures AllListable(ts + [t]) <==> AllListable(ts) && Listable(t)
    ensures AllWritable(ts + [t], passes) <==> AllWritable(ts, passes) && Writable(t, passes)
    ensures NodesAll(ts + [t]) == NodesAll(ts) + Nodes(t)
  {
    assert (ts + [t])[..|ts|] == ts;
  }

  lemma AdvancedFiles(ts: seq<Tree>, i: nat, passes: nat)
    requires i < |ts|
    ensures FilesIn(ts[..i + 1]) == FilesIn(ts[..i]) + Files(ts[i])
    ensures AllListable(ts[..i + 1]) <==> AllListable(ts[..i]) && Listable(ts[i])
    ensures AllWritable(ts[..i + 1], passes) <==> AllWritable(ts[..i], passes) && Writable(ts[i], passes)
    ensures NodesAll(ts[..i + 1]) == NodesAll(ts[..i]) + Nodes(ts[i])
  {
    assert ts[..i + 1][..i] == ts[..i];
  }

  // Lists one directory: subdirectories onto the stack, regular files onto the list.
  method CollectEntries(entries: seq<Tree>, pending: seq<Tree>, found: seq<Tree>, ghost passes: nat)
    returns (stack: seq<Tree>, files: seq<Tree>)
    requires (forall t | t in pending :: t.Dir?) && (forall t | t in found :: t.File?)
    ensures (forall t | t in stack :: t.Dir?) && (forall t | t in files :: t.File?)
    ensures FilesIn(stack) + FilesIn(files) == FilesIn(pending) + FilesIn(found) + FilesIn(entries)
    ensures AllListable(stack) <==> AllListable(pending) && AllListable(entries)
    ensures AllWritable(stack, passes) && AllWritable(files, passes)
       <==> AllWritable(pending, passes) && AllWritable(found, passes) && AllWritable(entries, passes)
    ensures NodesAll(stack) <= NodesAll(pending) + NodesAll(entries)
  {
    stack, files := pending, found;
    for i := 0 to |entries|
      invariant (forall t | t in stack :: t.Dir?) && (forall t | t in files :: t.File?)
      invariant FilesIn(stack) + FilesIn(files) == FilesIn(pending) + FilesIn(found) + FilesIn(entries[..i])
      invariant AllListable(stack) <==> AllListable(pending) && AllListable(entries[..i])
      invariant AllWritable(stack, passes) && AllWritable(files, passes)
           <==> AllWritable(pending, passes) && AllWritable(found, passes) && AllWritable(entries[..i], passes)
      invariant NodesAll(stack) <= NodesAll(pending) + NodesAll(entries[..i])
    {
      AdvancedFiles(entries, i, passes);
      if entries[i].Dir? {
        PushedFiles(stack, entries[i], passes);
        stack := stack + [entries[i]];
      } else if entries[i].File? {
        PushedFiles(files, entries[i], passes);
        files := files + [entries[i]];
      }
    }
    assert entries[..|entries|] == entries;
  }

  // The walk only reads: a directory that cannot be listed fails the shred before any
  // file has been touched.
  method CollectFiles(root: Tree, ghost passes: nat) returns (r: Result<seq<Tree>>)
    requires root.Dir?
    ensures r.Ok? <==> Listable(root)
    ensures r.Ok? ==> (forall t | t in r.value :: t.File?) && FilesIn(r.value) == Files(root)
                      && (AllWritable(r.value, passes) <==> Writable(root, passes))
  {
    var stack: seq<Tree> := [root];
    var files: seq<Tree> := [];
    PushedFiles([], root, passes);
    assert [] + [root] == [root];
    while stack != []
      invariant (forall t | t in stack :: t.Dir?) && (forall t | t in files :: t.File?)
      invariant FilesIn(stack) + FilesIn(files) == Files(root)
      invariant AllListable(stack) <==> Listable(root)
      invariant AllWritable(stack, passes) && AllWritable(files, passes) <==> Writable(root, passes)
      decreases NodesAll(stack)
    {
      var current := stack[|stack| - 1];
      PoppedNodes(stack);
      stack := stack[..|stack| - 1];
      if current.status != Present {
        return Err(System);
      }
      stack, files := CollectEntries(current.entries, stack, files, passes);
    }
    r := Ok(files);
  }

  predicate Zeroed(a: array<Byte>)
    reads a
  {
    forall k :: 0 <= k < a.Length ==> a[k] == 0
  }

  lemma {:induction false} FilesAreAllocated(t: Tree)
    ensures forall a | a in Files(t) :: allocated(a)
    decreases t
  {
    if t.Dir? {
      AllFilesAreAllocated(t.entries);
    }
  }

  lemma {:induction false} AllFilesAreAllocated(ts: seq<Tree>)
    ensures forall a | a in FilesIn(ts) :: allocated(a)
    decreases ts
  {
    if ts != [] {
      AllFilesAreAllocated(ts[..|ts| - 1]);
      FilesAreAllocated(ts[|ts| - 1]);
    }
  }

  // What a set of files holds.
  ghost function Image(files: set<array<Byte>>): map<array<Byte>, Octets>
    reads files
  {
    map a | a in files :: a[..]
  }

  // Each byte is zero or what it was.
  predicate Blanked(now: Octets, before: Octets) {
    |now| == |before| && forall k :: 0 <= k < |now| ==> now[k] == 0 || now[k] == before[k]
  }

  // ---- removing ------------------------------------------------------------------------------

  // Removing a tree works, or fails half-way and leaves some nodes, and the directories
  // they stand in, behind.
  datatype Removal = Removes | Sticks(keeps: Tree -> bool)

  function Remnant(ts: seq<Tree>, keeps: Tree -> bool): seq<Tree>
    decreases ts
  {
    if ts == [] then [] else Remnant(ts[..|ts| - 1], keeps) + RemnantOf(ts[|ts| - 1], keeps)
  }

  function RemnantOf(t: Tree, keeps: Tree -> bool): seq<Tree>
    decreases t
  {
    if t.Dir? then
      var left := Remnant(t.entries, keeps);
      if left != [] || keeps(t) then [Dir(left, t.status)] else []
    else if keeps(t) then [t] else []
  }

  function Leftover(root: Tree, removal: Removal): Option<Tree> {
    match removal
    case Removes => None
    case Sticks(keeps) => Some(if root.Dir? then Dir(Remnant(root.entries, keeps), root.status) else root)
  }

  lemma FilesConcat(a: seq<Tree>, t: Tree)
    ensures FilesIn(a + [t]) == FilesIn(a) + Files(t)
  {
    assert (a + [t])[..|a|] == a;
  }

  lemma {:induction false} RemnantHasNoOthers(ts: seq<Tree>, keeps: Tree -> bool)
    ensures FilesIn(Remnant(ts, keeps)) <= FilesIn(ts)
    decreases ts
  {
    if ts != [] {
      var front, last := ts[..|ts| - 1], ts[|ts| - 1];
      RemnantHasNoOthers(front, keeps);
      if last.Dir? {
        RemnantHasNoOthers(last.entries, keeps);
      }
      var left := RemnantOf(last, keeps);
      if left == [] {
        assert Remnant(front, keeps) + left == Remnant(front, keeps);
      } else {
        FilesConcat(Remnant(front, keeps), left[0]);
        assert left == [left[0]];
      }
    }
  }

  const CHUNK: nat := 64 * 1024

  class OverwriteShredder {
    const passes: nat

    constructor (passes: nat)
      ensures this.passes == if passes == 0 then 1 else passes
    {
      this.passes := if passes == 0 then 1 else passes;
    }

    // Writes n zero bytes at the file position.
    method WriteZeros(file: array<Byte>, position: nat, n: nat)
      requires position + n <= file.Length
      modifies file
      ensures forall k :: 0 <= k < file.Length ==>
                file[k] == if position <= k < position + n then 0 else old(file[k])
    {
      for i := 0 to n
        invariant forall k :: 0 <= k < file.Length ==>
                    file[k] == if position <= k < position + i then 0 else old(file[k])
      {
        file[position + i] := 0;
      }
    }

    // One pass from the start of the file, a chunk at a time, over a disk that takes
    // `budget` more bytes: a chunk that does not fit goes down in part.
    method OverwritePass(file: array<Byte>, budget: Option<nat>) returns (r: Result<Option<nat>>)
      modifies file
      ensures r.Ok? <==> budget.None? || budget.value > file.Length
      ensures r.Ok? ==> r.value == if budget.None? then None else Some(budget.value - file.Length)
      ensures forall k :: 0 <= k < file.Length ==>
                file[k] == if budget.None? || k < budget.value then 0 else old(file[k])
    {
      var position: nat, remaining: nat, left: Option<nat> := 0, file.Length, budget;
      while remaining > 0
        invariant position + remaining == file.Length
        invariant if budget.None? then left.None? else left.Some? && left.value + position == budget.value
        invariant forall k :: 0 <= k < file.Length ==> file[k] == if k < position then 0 else old(file[k])
      {
        var n := if remaining < CHUNK then remaining else CHUNK;
        if left.Some? && left.value < n {
          WriteZeros(file, position, left.value);
          return Err(System);
        }
        WriteZeros(file, position, n);
        position := position + n;
        remaining := remaining - n;
        left := if left.Some? then Some(left.value - n) else None;
      }
      if left == Some(0) {  // the flush at the end of the pass
        return Err(System);
      }
      return Ok(left);
    }

    // A failure after n bytes leaves the first n zeroed and the others as they were. With
    // no pass at all, as the derived default has it, nothing is overwritten.
    method OverwriteFile(f: Tree) returns (r: Result<()>)
      requires f.File?
      modifies Files(f)
      ensures r.Ok? <==> Writable(f, passes) || (passes == 0 && f.status != Broken)
      ensures r.Err? ==> r == Err(System)
      ensures forall a | a in Files(f), k | 0 <= k < a.Length ::
                a[k] == if passes > 0 && (f.failsAfter.None? || k < f.failsAfter.value) then 0 else old(a[k])
    {
      if f.status == Gone {
        return Ok(());
      }
      if f.status == Broken {
        return Err(System);
      }
      if f.content.Length == 0 {
        return Ok(());
      }
      var left := f.failsAfter;
      for pass := 0 to passes
        invariant f.failsAfter.None? ==> left.None?
        invariant f.failsAfter.Some? ==> left.Some? && left.value + pass * f.content.Length == f.failsAfter.value
        invariant left.Some? && pass > 0 ==> left.value > 0
        invariant forall k :: 0 <= k < f.content.Length ==>
                    f.content[k] == if pass > 0 then 0 else old(f.content[k])
      {
        var done := OverwritePass(f.content, left);
        if done.Err? {
          MorePasses(f.content.Length, pass, passes);
          return Err(System);
        }
        left := done.value;
      }
      return Ok(());
    }

    // The same in the words of the whole shred.
    method Blank(f: Tree) returns (r: Result<()>)
      requires passes > 0 && f.File?
      modifies Files(f)
      ensures r.Ok? <==> Writable(f, passes)
      ensures r.Err? ==> r == Err(System)
      ensures forall a | a in Files(f) :: (r.Ok? ==> Zeroed(a)) && Blanked(a[..], old(Image(Files(f)))[a])
    {
      MorePasses(f.content.Length, 0, passes);
      r := OverwriteFile(f);
    }

    // Files are overwritten in turn until one fails.
    method OverwriteAll(files: seq<Tree>) returns (r: Result<()>)
      requires passes > 0 && forall t | t in files :: t.File?
      modifies FilesIn(files)
      ensures r.Ok? <==> AllWritable(files, passes)
      ensures r.Ok? ==> forall a | a in FilesIn(files) :: Zeroed(a)
      ensures forall a | a in FilesIn(files) :: Blanked(a[..], old(Image(FilesIn(files)))[a])
    {
      hide Blanked, Zeroed, AllWritable, FilesIn, Files, Writable;
      ghost var before := Image(FilesIn(files));
      forall a | a in FilesIn(files) ensures Blanked(a[..], before[a]) {
        SameIsBlanked(a[..]);
      }
      NothingIn(passes);
      for i := 0 to |files|
        invariant AllWritable(files[..i], passes)
        invariant forall a | a in FilesIn(files[..i]) :: Zeroed(a)
        invariant forall a | a in FilesIn(files) :: Blanked(a[..], before[a])
      {
        AdvancedFiles(files, i, passes);
        FilesOfPrefix(files, i + 1);
        ghost var now := Image(FilesIn(files));
        var done := Blank(files[i]);
        forall a | a in FilesIn(files) ensures Blanked(a[..], before[a]) {
          if a in Files(files[i]) {
            BlankedTwice(a[..], now[a], before[a]);
          } else {
            assert a[..] == now[a];
          }
        }
        if done.Err? {
          NotWritablePrefix(files, i + 1, passes);
          return done;
        }
      }
      assert files[..|files|] == files;
      r := Ok(());
    }

    // Overwrites, then removes. What is not a directory is only removed.
    method ShredDir(volume: Volume, removal: Removal) returns (r: Result<()>)
      requires passes > 0
      modifies volume, volume.Overwritable()
      ensures r.Ok? <==> old(volume.root).None?
                         || (removal.Removes? && Shreddable(old(volume.root).value, passes))
      ensures r.Err? ==> r == Err(System)
      ensures volume.root == (if old(volume.root).Some? && Shreddable(old(volume.root).value, passes)
                              then Leftover(old(volume.root).value, removal)
                              else old(volume.root))
      ensures volume.Overwritable() <= old(volume.Overwritable())
      ensures old(volume.root).Some? && Shreddable(old(volume.root).value, passes) ==>
                forall a | a in old(volume.Overwritable()) :: Zeroed(a)
      ensures old(volume.root).Some? && !Listable(old(volume.root).value) ==>
                Image(old(volume.Overwritable())) == old(Image(volume.Overwritable()))
      ensures forall a | a in old(volume.Overwritable()) :: Blanked(a[..], old(Image(volume.Overwritable()))[a])
    {
      if volume.root.None? {
        return Ok(());
      }
      var root := volume.root.value;
      if root.Dir? {
        FilesAreAllocated(root);
        var files := CollectFiles(root, passes);
        if files.Err? {
          return Err(System);
        }
        assert volume.Overwritable() == FilesIn(files.value);
        var done := OverwriteAll(files.value);
        if done.Err? {
          return Err(System);
        }
        if removal.Sticks? {
          RemnantHasNoOthers(root.entries, removal.keeps);
        }
      }
      volume.root := Leftover(root, removal);
      r := if removal.Removes? then Ok(()) else Err(System);
    }
  }

  lemma SameIsBlanked(x: Octets)
    ensures Blanked(x, x)
  {}

  lemma BlankedTwice(x: Octets, y: Octets, z: Octets)
    requires Blanked(x, y) && Blanked(y, z)
    ensures Blanked(x, z)
  {}

  lemma NothingIn(passes: nat)
    ensures FilesIn([]) == {} && AllWritable([], passes)
  {}

  lemma MorePasses(length: nat, pass: nat, passes: nat)
    requires pass < passes
    ensures (pass + 1) * length <= passes * length
  {}

  // The place a profile directory occupies on disk.
  class Volume {
    var root: Option<Tree>

    constructor (root: Option<Tree>)
      ensures this.root == root
    {
      this.root := root;
    }

    ghost function Overwritable(): set<array<Byte>>
      reads this
    {
      if root.Some? && root.value.Dir? then Files(root.value) else {}
    }
  }

  lemma {:induction false} FilesOfPrefix(ts: seq<Tree>, i: nat)
    requires i <= |ts|
    ensures FilesIn(ts[..i]) <= FilesIn(ts)
    decreases |ts| - i
  {
    if i < |ts| {
      AdvancedFiles(ts, i, 0);
      FilesOfPrefix(ts, i + 1);
    } else {
      assert ts[..i] == ts;
    }
  }

  lemma {:induction false} NotWritablePrefix(ts: seq<Tree>, i: nat, passes: nat)
    requires i <= |ts| && !AllWritable(ts[..i], passes)
    ensures !AllWritable(ts, passes)
    decreases |ts| - i
  {
    if i < |ts| {
      AdvancedFiles(ts, i, passes);
      NotWritablePrefix(ts, i + 1, passes);
    } else {
      assert ts[..i] == ts;
    }
  }
}
