// The file-backed profile repository, seen through its single-writer lock: one
// directory per profile, one lock file per held profile.
module ProfileStore {
  import opened Errors

  type ProfileId = nat
  type Token = nat

  datatype Lease = Lease(profile: ProfileId, token: Token)

  // A lock file holds the token written by its creator, or a torn prefix of one
  // when the write failed after the exclusive create.
  datatype LockFile = Holding(token: Token) | Torn

  // The metadata file of a profile directory: what it says, or what a deletion that
  // failed half-way has left of it.
  datatype Metadata = Metadata(name: string, lastLaunched: Option<nat>) | Zeroed | Absent

  // `profiles` are the directories, `locks` the lock files inside them.
  datatype Store = Store(profiles: map<ProfileId, Metadata>, locks: map<ProfileId, LockFile>)

  ghost predicate ValidStore(s: Store) {
    s.locks.Keys <= s.profiles.Keys
  }

  datatype LockFault = NoFault | OpenFails | WriteFails | ReadFails | RemoveFails

  // Metadata is written through create_dir_all, so this alone would bring a
  // deleted directory back.
  function WriteMeta(s: Store, id: ProfileId, m: Metadata): Store {
    s.(profiles := s.profiles[id := m])
  }

  function ReadMeta(s: Store, id: ProfileId): Result<Metadata> {
    if id !in s.profiles || s.profiles[id].Absent? then Err(NotFound)
    else if s.profiles[id].Zeroed? then Err(Config)
    else Ok(s.profiles[id])
  }

  function TouchLaunch(s: Store, id: ProfileId, at: nat): (Store, Result<()>) {
    match ReadMeta(s, id)
    case Err(e) => (s, Err(e))
    case Ok(m) => (WriteMeta(s, id, Metadata(m.name, Some(at))), Ok(()))
  }

  function Rename(s: Store, id: ProfileId, name: string): (Store, Result<()>) {
    match ReadMeta(s, id)
    case Err(e) => (s, Err(e))
    case Ok(m) => (WriteMeta(s, id, Metadata(name, m.lastLaunched)), Ok(()))
  }

  // How far the shredder gets with a profile directory: all files are overwritten before
  // any is removed, in no particular order. A deletion seen by another task while it is
  // under way is a failed one followed by another.
  datatype Shred =
    | Shredded
    | HaltedOverwriting(metaZeroed: bool, lockZeroed: bool)
    | HaltedRemoving(metaRemoved: bool, lockRemoved: bool)

  function LeftOfMeta(m: Metadata, shred: Shred): Metadata {
    if m.Absent? || (shred.HaltedRemoving? && shred.metaRemoved) then Absent
    else if shred.HaltedRemoving? || (shred.HaltedOverwriting? && shred.metaZeroed) then Zeroed
    else m
  }

  function LeftOfLocks(locks: map<ProfileId, LockFile>, id: ProfileId, shred: Shred): map<ProfileId, LockFile> {
    if id !in locks then locks
    else if shred.Shredded? || (shred.HaltedRemoving? && shred.lockRemoved) then locks - {id}
    else if shred.HaltedRemoving? || shred.lockZeroed then locks[id := Torn]
    else locks
  }

  function Delete(s: Store, id: ProfileId, shred: Shred): (Store, Result<()>) {
    if id !in s.profiles then (s, Err(NotFound))
    else if shred.Shredded? then (Store(s.profiles - {id}, LeftOfLocks(s.locks, id, shred)), Ok(()))
    else (Store(s.profiles[id := LeftOfMeta(s.profiles[id], shred)], LeftOfLocks(s.locks, id, shred)), Err(System))
  }

  function AcquireLock(s: Store, id: ProfileId, token: Token, fault: LockFault): (Store, Result<Lease>) {
    if id !in s.profiles then (s, Err(NotFound))
    else if id in s.locks then (s, Err(Busy))
    else if fault == OpenFails then (s, Err(System))
    else if fault == WriteFails then (s.(locks := s.locks[id := Torn]), Err(System))
    else (s.(locks := s.locks[id := Holding(token)]), Ok(Lease(id, token)))
  }

  function ReleaseLock(s: Store, lease: Lease, fault: LockFault): (Store, Result<()>) {
    if lease.profile !in s.locks then (s, Err(Precondition))
    else if fault == ReadFails then (s, Err(System))
    else if s.locks[lease.profile] != Holding(lease.token) then (s, Err(Precondition))
    else if fault == RemoveFails then (s, Err(System))
    else (s.(locks := s.locks - {lease.profile}), Ok(()))
  }

  // The lock is a test-and-set: a granted lease means nobody held the lock before
  // and the lease's own token is in the file now; a refusal never disturbs a holder.
  lemma AcquireIsTestAndSet(s: Store, id: ProfileId, token: Token, fault: LockFault)
    ensures var (s', r) := AcquireLock(s, id, token, fault);
            && (r.Ok? ==> id in s.profiles && id !in s.locks && s'.locks == s.locks[id := Holding(r.value.token)]
                          && r.value == Lease(id, token))
            && (r == Err(Busy) <==> id in s.profiles && id in s.locks)
            && (id in s.locks ==> s' == s)
            && (r.Err? ==> !r.error.RequiresKillSwitch())
            && s'.profiles == s.profiles
            && (id in s.profiles && id !in s.locks ==>
                  && (r.Ok? <==> !fault.OpenFails? && !fault.WriteFails?)
                  && (fault.WriteFails? ==> s'.locks == s.locks[id := Torn]))
  {
  }

  // A release succeeds exactly over the lease's own token, and then removes the lock file;
  // whatever else happens leaves the store as it was.
  lemma ReleaseIsCompareAndRemove(s: Store, lease: Lease, fault: LockFault)
    ensures var (s', r) := ReleaseLock(s, lease, fault);
            && (r.Ok? <==>
                  && lease.profile in s.locks && s.locks[lease.profile] == Holding(lease.token)
                  && !fault.ReadFails? && !fault.RemoveFails?)
            && (r.Ok? ==> s' == Store(s.profiles, s.locks - {lease.profile}))
            && (r.Err? ==> s' == s)
  {}

  // Releasing twice: after the first release the same lease frees nothing, whoever
  // has taken the lock meanwhile with another token.
  lemma StaleReleaseIsHarmless(s: Store, lease: Lease, f1: LockFault, taker: Token, f2: LockFault, f3: LockFault)
    requires taker != lease.token
    ensures var s1 := ReleaseLock(s, lease, f1).0;
            var s2 := AcquireLock(s1, lease.profile, taker, f2).0;
            AcquireLock(s1, lease.profile, taker, f2).1.Ok? ==>
              ReleaseLock(s2, lease, f3) == (s2, if f3 == ReadFails then Err(System) else Err(Precondition))
  {
  }

  // No operation on a deleted profile brings its directory or its lock back.
  lemma DeletedStaysDeleted(s: Store, id: ProfileId, other: ProfileId, at: nat, name: string, lease: Lease,
                            token: Token, f: LockFault, shred: Shred)
    requires ValidStore(s) && id !in s.profiles
    ensures id !in TouchLaunch(s, other, at).0.profiles
    ensures id !in Rename(s, other, name).0.profiles
    ensures id !in Delete(s, other, shred).0.profiles
    ensures id !in AcquireLock(s, other, token, f).0.profiles && id !in AcquireLock(s, other, token, f).0.locks
    ensures id !in ReleaseLock(s, lease, f).0.profiles
  {
  }

  // A deletion never reports success while anything is left, never leaves a lock file
  // saying what it did not say before, and leaves a profile that cannot be loaded any more
  // as soon as it has removed a file.
  lemma DeletionIsHonest(s: Store, id: ProfileId, shred: Shred)
    requires ValidStore(s)
    ensures var (s', r) := Delete(s, id, shred);
            && ValidStore(s')
            && (r.Ok? ==> id !in s'.profiles && id !in s'.locks)
            && (r.Err? ==> s'.profiles.Keys == s.profiles.Keys)
            && (id in s'.locks ==> id in s.locks && s'.locks[id] in {s.locks[id], Torn})
            && (r.Err? && shred.HaltedRemoving? ==> ReadMeta(s', id).Err?)
            && (id in s.profiles && shred.HaltedOverwriting? ==>
                  && (if shred.metaZeroed then ReadMeta(s', id).Err? else s'.profiles == s.profiles)
                  && (id in s.locks ==>
                        id in s'.locks && s'.locks[id] == if shred.lockZeroed then Torn else s.locks[id]))
            && (id in s.locks && shred.HaltedRemoving? ==>
                  if shred.lockRemoved then id !in s'.locks else id in s'.locks && s'.locks[id] == Torn)
            && (forall p | p != id :: (p in s'.profiles <==> p in s.profiles) && (p in s'.locks <==> p in s.locks)
                  && (p in s.profiles ==> s'.profiles[p] == s.profiles[p])
                  && (p in s.locks ==> s'.locks[p] == s.locks[p]))
  {
  }

  // Recording a launch keeps the name, renaming keeps the time of the last launch, and
  // neither touches another profile or a lock; a profile that cannot be read is refused.
  lemma MetadataIsUpdatedInPlace(s: Store, id: ProfileId, at: nat, name: string)
    ensures var readable := id in s.profiles && s.profiles[id].Metadata?;
            var (t, touched) := TouchLaunch(s, id, at);
            var (u, renamed) := Rename(s, id, name);
            && (touched.Ok? <==> readable) && (renamed.Ok? <==> readable)
            && (if readable then
                  var Metadata(was, launched) := s.profiles[id];
                  && t == Store(s.profiles[id := Metadata(was, Some(at))], s.locks)
                  && u == Store(s.profiles[id := Metadata(name, launched)], s.locks)
                else
                  && t == s && u == s && touched == renamed
                  && touched == Err(if id in s.profiles && s.profiles[id].Zeroed? then Config else NotFound))
  {}

  // The store itself. Each method is one lock operation of the repository, with the
  // outcome of its file operations given by `fault`.
  class FileProfileStore {
    var profiles: map<ProfileId, Metadata>
    var locks: map<ProfileId, LockFile>

    ghost function View(): Store
      reads this
    {
      Store(profiles, locks)
    }

    constructor ()
      ensures View() == Store(map[], map[])
    {
      profiles := map[];
      locks := map[];
    }

    method Acquire(id: ProfileId, token: Token, fault: LockFault) returns (r: Result<Lease>)
      modifies this
      ensures (View(), r) == AcquireLock(old(View()), id, token, fault)
    {
      if id !in profiles {
        return Err(NotFound);
      }
      if id in locks {
        return Err(Busy);
      }
      if fault == OpenFails {
        return Err(System);
      }
      locks := locks[id := Torn];  // the exclusive create
      if fault == WriteFails {
        return Err(System);
      }
      locks := locks[id := Holding(token)];
      assert locks == old(locks)[id := Holding(token)];
      return Ok(Lease(id, token));
    }

    method Release(lease: Lease, fault: LockFault) returns (r: Result<()>)
      modifies this
      ensures (View(), r) == ReleaseLock(old(View()), lease, fault)
    {
      if lease.profile !in locks {
        return Err(Precondition);
      }
      if fault == ReadFails {
        return Err(System);
      }
      var held := locks[lease.profile];
      if held != Holding(lease.token) {
        return Err(Precondition);
      }
      if fault == RemoveFails {
        return Err(System);
      }
      locks := locks - {lease.profile};
      return Ok(());
    }

    method DeleteProfile(id: ProfileId, shred: Shred) returns (r: Result<()>)
      modifies this
      ensures (View(), r) == Delete(old(View()), id, shred)
    {
      if id !in profiles {
        return Err(NotFound);
      }
      locks := LeftOfLocks(locks, id, shred);
      if shred.Shredded? {
        profiles := profiles - {id};
        return Ok(());
      }
      profiles := profiles[id := LeftOfMeta(profiles[id], shred)];
      return Err(System);
    }

    method Touch(id: ProfileId, at: nat) returns (r: Result<()>)
      modifies this
      ensures (View(), r) == TouchLaunch(old(View()), id, at)
    {
      if id !in profiles || profiles[id].Absent? {
        return Err(NotFound);
      }
      if profiles[id].Zeroed? {
        return Err(Config);
      }
      var m := profiles[id].(lastLaunched := Some(at));
      profiles := profiles[id := m];
      return Ok(());
    }
  }
}
