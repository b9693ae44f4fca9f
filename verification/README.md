# Aegis, modelled and proved in Dafny

Aegis runs a hardened browser behind a gateway VM. This project models the parts of it
where a mistake costs the user's safety and proves what those parts promise, for every
input, every interleaving and every pattern of failures. `dafny verify dfyconfig.toml`
checks all of it.

| component | files |
|---|---|
| Session protocol: concurrent starts and stops over one session table, the on-disk profile locks, VMs, browsers and the kill switch | `SessionMachine`, `SessionSafety`, `SessionCleanup`, `SessionOrder`, `SessionOwnership`, `SessionGateway`, `SessionSystem`, `SessionExclusion`, `SessionDamage`, `SessionCounting`, `SessionDisposal`, `SessionOverlap`, `SessionRaces`, `SessionRoute`, `SessionStory`, `FaultlessStart`, `SessionLocks`, `SessionDirectory`, `ProfileLife`, `Orchestrator`, with `SessionState`, `Preflight`, `ProfileStore`, `Errors` |
| Gateway controller and firewall compiler | `Gateway`, `Firewall`, `InstalledPolicy`, `Egress`, `Traffic`, `ForwardPath`, `Capture`, `GatewayController`, `ConcurrentGateway`, `GatewayInterleavings` |
| Transactional update | `UpdatePaths`, `UpdateClient`, `UpdateSafety`, `UpdateSuccess`, `UpdatePlacement`, `UpdateVerification` |
| IPC frames, server loop and client | `Bytes`, `Frame`, `Server`, `Client`, `TokenAuth` |
| Domain XML | `XmlText`, `DomainXml`, `DomainValues`, `DomainText` |
| Walks over a profile directory | `FileTree` |
| Proxy endpoints | `ProxyEndpoint`, `Text`, `Decimal` |

## How the model is built

**Session protocol.** Each critical section between two awaits, and each awaited
capability call, is one atomic step; every task has a program counter; what a capability
answers is an oracle. `SessionMachine` is one session with its start call and any number
of stop calls; `SessionSystem` interleaves any number of sessions over one profile store
and one gateway controller, with profile creation, renaming and deletion and with
foreign gateway calls in between, each gateway call in its own small steps. A deletion
may halt half-way; one that is under way while another task looks is a halted one
followed by another. The critical sections are also written as the methods of the class
`Orchestrator.SessionTable`, and an uninterrupted stop of the machine is shown to have
the effects of its sequential method, in the same order. The counts of destroy and
terminate calls are counts of calls made: their results are ignored by the source.
`SessionStory` tells a run of one start as a list of deeds: each point its drive passes,
with the answer it got, and each thing its gateway calls put into the controller's
record or the kernel. The theorems about locks speak of a lease owed: granted and not
yet given back. Fields of the machine that only record the past (the ids ever stored,
the calls made, the order of effects, whether calls overlapped) decide nothing; the
theorems speak through them. Fresh tokens, session ids, VM ids, browser handles and
profile ids are an assumption about the input of a run, and so is an unpoisoned session
lock.

**Gateway.** The controller's state carries the ruleset the kernel holds; a load
replaces it whole or leaves it. `GatewayController` is the controller called by one task
at a time. The source does not enforce that: its mutex guards single reads and writes of
the record and is free across every command, and all session starts share one
controller. `ConcurrentGateway` therefore splits each call into its commands and records
and interleaves any number of them; `GatewayInterleavings` shows what survives every
interleaving, which loads must not cross for the rest to hold, and a failing run for
each way they can. A health report is made of the record as read before its probe. A
ruleset is the list of rules in the order the renderer writes them. Traces of packets
begin once a ruleset is loaded and may load others on the way, over a connection table
that survives. Packets meet a connection table whose entries are tagged local or
forwarded and remember their redirect; a related packet follows the tag of the
connection it relates to.

**Update.** Files are a map from lexical paths to bytes. Every operation of every
artifact (creating the directory, probing, moving aside, fetching, writing, renaming,
and in the clean-up removing and restoring) has its own answer, a failed write may leave
any partial content, and the transport may answer differently each time. The hash is an
arbitrary function. Targets may repeat.

**IPC.** The body format is an arbitrary codec whose decoder inverts its encoder. The
handler may keep a state. A peer may stop taking bytes at any point. The client is taken
over any stream, and with the server loop at the other end.

**Domain XML.** A document is a template with holes, as the format strings of the source
are; the template depends only on role, GPU and read-only flag. The theorems are about
the rendered text, read character by character.

Where the code differs from its own documentation, or from what one would expect of it,
the model follows the code:

- `crates/aegis-ipc/src/frame.rs:100-105`: a header cut short after one to three bytes
  is reported as a clean close, although the comment says it is told apart from one.
- `crates/aegis-core/src/update.rs:135-136`: `RolledBack` is documented as leaving the
  previous version intact. `RollbackIsExactIff` says exactly when that is so as long as
  no target is another's backup or temporary path, and `DuplicateTargetLosesOriginal`
  shows the plainest updates for which it is not; `SiblingTargetIsRemoved` is why
  targets must not be siblings.
- `crates/gateway-controller/src/render.rs:68-72`: TCP of the subnet is documented as
  entering the redirect port. The redirect matches SYNs only while the forward chain
  accepts any TCP of the subnet, and nat is consulted once per flow: after a TCP packet
  without SYN, the SYN that follows on its flow is forwarded past the redirect
  (`SynAfterAckIsForwarded`). `CapturedIsRedirectedAndAdmitted` says exactly when this
  happens.
- `crates/gateway-controller/src/lib.rs:323-333`: an engage loads the total block and
  then records Engaged. If an apply runs between the two, the switch is recorded Engaged
  over the rules of the policy (`OverlapDisarmsTheSwitch`). `ClearRunsKeepInv` says
  which loads must not cross.
- `crates/profile-store/src/store.rs:318-331`: a deletion that fails after removing the
  lock file leaves a directory whose lock is free, and a start that had already read the
  profile takes it. `SecondBrowserIff` says exactly when two browsers come of that.
- `crates/aegis-daemon/src/orchestrator.rs:1080-1093`: the final write of a teardown
  does not consult the transition table, so a stop overlapping its own session's start
  can take a session from Destroyed to Failed and forget a VM or a browser;
  `OverlapLosesAVm` and `OverlapLosesABrowser` are such runs. Two overlapping stops make
  two destroy calls for each VM (`OverlappingStopsDestroyTwice`).

## Model

| member | source | states |
|---|---|---|
| `SessionExclusion.SingleBrowser` | crates/aegis-daemon/src/orchestrator.rs:490-575 | in every reachable state of every interleaving, overlapping stops and deletions included, at most one session of a profile is Browsing unless the profile's lock was freed under a contest: by a deletion that halted having removed the lock file while one session held the profile and another waited for its lock; a browsing session's own token is in the lock file unless the profile is gone or a failed deletion zeroed or removed the file |
| `SessionExclusion.ContestedIff` | crates/profile-store/src/store.rs:318-331 | a profile is contested exactly when some deletion in the run halted, having removed its lock file, with a holder and a waiter there |
| `SessionDamage.SecondBrowserIff` | crates/profile-store/src/shred.rs:147-152 | from every reachable state in which the profile is uncontested: such a deletion has a continuation in which two sessions of the profile browse if and only if at the deletion one session held the profile and another waited at its lock |
| `SessionDamage.HaltedDeletionAdmitsASecondBrowser` | crates/profile-store/src/shred.rs:147-152 | for every spec a start is admitted with: a run with one such deletion that ends with two sessions of the profile Browsing |
| `SessionStory.BrowsingWentAllTheWay` | crates/aegis-daemon/src/orchestrator.rs:577-703 | in every run, a Browsing session has done all of its route in order: a full-VM one made and stored both VMs, had the gateway hold its own configuration, had rules loaded that protect by its own mode and IPv6 choice, each awaited call answered without error, all before either VM was started, then a passing checklist before the launch; the row holds the VMs, handle and address those calls gave, and every configuration involved was accepted |
| `SessionStory.FailedGatesEngage` | crates/aegis-daemon/src/orchestrator.rs:361-399 | a start that failed on the way had gone along the route up to there and returns the error of the call it awaited; a checklist that does not permit browsing and an unreachable proxy are containment errors, and such a start engaged the switch and recorded that before its teardown |
| `FaultlessStart.FaultlessStartBrowses` | crates/aegis-daemon/src/orchestrator.rs:490-703 | every admitted start that runs alone and faultlessly from the boot of the daemon comes to browse behind its own lock, the profile keeping its name and carrying the launch time, the summary safe exactly for a full-VM one; a full-VM one leaves the gateway ready, configured as the profile asks, with rules in the kernel that protect by its mode and IPv6 choice, and a host one leaves the gateway alone |
| `FaultlessStart.ReturningTimesTheLaunch` | crates/aegis-daemon/src/orchestrator.rs:689-693 | in any run the last step of a start records the launch time beside the name the profile has, in no other profile, and returns even if the profile cannot be read any more |
| `SessionLocks.ReleasingUnlocks` | crates/aegis-daemon/src/orchestrator.rs:1070-1073 | a releasing step whose file operations work takes away the lock file with the session's own token and no other |
| `SessionLocks.LockedIffOwed` | crates/profile-store/src/store.rs:333-388 | in every run whose lock operations work, a profile no deletion has damaged is locked if and only if some session has been granted its lease and not given it back, and then with that session's token |
| `SessionLocks.SettledHoldsNoLock` | crates/aegis-daemon/src/orchestrator.rs:526-536 | in such runs the token of a session that has failed to start (also by its key draw), is Failed or is Destroyed is in no lock file |
| `SessionLocks.WaitingGetsFreeLock` | crates/profile-store/src/store.rs:333-362 | in such runs a waiting start whose profile is there gets the lock if nobody owes it and is refused as busy otherwise |
| `SessionLocks.KeyFailureIsReturned` | crates/aegis-daemon/src/orchestrator.rs:528-536 | a start whose key draw fails returns that error, unregistered, and its lock is gone |
| `SessionLocks.StartsAgain` | crates/aegis-daemon/src/orchestrator.rs:519-520 | in particular a profile can be started again once all its sessions are settled |
| `SessionDirectory.EphemeralDirectoryIsRemoved` | crates/aegis-daemon/src/orchestrator.rs:1018-1036 | only an ephemeral host session has its directory removed; and unless a stop was called during its start, one that is Failed or Destroyed with its mode recorded has had it removed |
| `ProfileLife.AdmittedIff` | crates/aegis-daemon/src/orchestrator.rs:490-517 | a start is admitted exactly on a profile that can be read, one in the host process only if the daemon allows that and has the engine; anything refused changes nothing |
| `ProfileLife.HostSessionsWereAllowed` | crates/aegis-daemon/src/orchestrator.rs:502-517 | in every run each session is one some caller asked for, and a host one was asked for while the daemon allowed it |
| `ProfileLife.DeletedIsGone` | crates/profile-store/src/store.rs:318-331 | once a deletion has succeeded, neither the profile nor its lock is ever there again, whatever its sessions still do, and nobody can start on it |
| `ProfileLife.DamageIsHaltedDeletion` | crates/profile-store/src/shred.rs:147-152 | only a deletion of the profile that halted damages it |
| `ProfileLife.InputsActOnTheirProfile` | crates/profile-store/src/store.rs:308-331 | creating, renaming and deleting act on one profile and on no lock but the deleted one's |
| `SessionSystem.OnlyTheHolderUnlocks` | crates/profile-store/src/store.rs:364-388 | a lock file disappears or changes only by a deletion of its profile or by a step of the session whose own token it holds and which no longer relies on it; no stale or repeated release frees another holder's lock |
| `SessionSystem.BrowsingIsMeasured` | crates/aegis-daemon/src/orchestrator.rs:648-686 | a Browsing session always has a stored handle; a full-VM one six passing checks and status Active, a host one only Partial; a safe summary was positively measured |
| `SessionSystem.ShutdownIsAbsorbing` | crates/aegis-core/src/session.rs:40-57 | under all interleavings a session in Closing, Failed or Destroyed stays in that set, and every change is an edge of the table, except Destroyed to Failed after a stop overlapped the start |
| `SessionSystem.EverythingCleanedUpOnce` | crates/aegis-daemon/src/orchestrator.rs:982-1094 | with calls on a session not overlapping, once it is Failed or Destroyed and idle each VM it recorded has had one destroy call and each handle it stored one terminate call, and no other session made one for them |
| `SessionSystem.UnlockedAfterCleanup` | crates/aegis-daemon/src/orchestrator.rs:1002-1073 | a profile's lock is given back only after every VM of the session has had its destroy call and every browser its terminate call |
| `SessionSystem.NoBrowserTerminatedTwice` | crates/aegis-daemon/src/orchestrator.rs:984-1000 | even with overlapping stops no handle gets two terminate calls, from this session or another |
| `SessionSystem.FailedStartIsFailClosed` | crates/aegis-daemon/src/orchestrator.rs:361-399 | a returned start engaged the switch exactly when it failed after registration with a network-containment, failed-preflight or isolation error, and then the engage and the critical record precede every teardown effect and the return |
| `SessionSystem.FailingStepsLeaveTheSwitchEngaged` | crates/gateway-controller/src/lib.rs:257-333 | the engage step, and a start failing in configure or in applying its firewall, comes after its own call recorded Engaged even if the load failed; the switch is still Engaged then unless another call recorded rules since |
| `SessionSystem.RunKeepsInv` | crates/aegis-daemon/src/orchestrator.rs:490-703 | the system invariant (locks backed by claims, sessions apart in ids and tokens, every session safe and accounted for, every gateway task the one its session waits for) holds along every run, gateway calls interleaved at each await |
| `SessionSystem.StepKeepsLocalInv` | crates/aegis-daemon/src/orchestrator.rs:577-703 | every step of a start or stop keeps all six invariants of its session |
| `SessionSystem.EffectMovesLocks` | crates/profile-store/src/store.rs:333-388 | at most: a session step takes the free lock of its profile with its fresh token, frees the one holding its own, or leaves the locks alone (when it must free it: `SessionLocks.ReleasingUnlocks`, `SessionLocks.LockedIffOwed`) |
| `SessionSafety.StepIsSafe` | crates/aegis-daemon/src/orchestrator.rs:490-975 | the row's state agrees with the start call's program counter unless shutdown has begun, and its data with the gates already passed |
| `SessionSafety.BrowsingIsBacked` | crates/aegis-daemon/src/orchestrator.rs:765-865 | what a Browsing row must hold, for both modes |
| `SessionSafety.SafeSummaryIsMeasured` | crates/aegis-core/src/session.rs:101-104 | `is_safe` implies full VM, all probes, the address comparison and the WebRTC flag positive |
| `SessionSafety.StepTakesALegalEdge` | crates/aegis-daemon/src/orchestrator.rs:324-341 | each step moves the row along the transition table, or by the one late write |
| `SessionSafety.DriveHasShape` | crates/aegis-daemon/src/orchestrator.rs:577-703 | a drive step keeps the lease, fills at most its own slot, and never leaves shutdown (which step follows which: `SessionStory.BrowsingWentAllTheWay`) |
| `SessionCleanup.StepKeepsAccounts` | crates/aegis-daemon/src/orchestrator.rs:982-1094 | at every step without overlap, each recorded id is either still held by exactly one place or has been disposed of once |
| `SessionCleanup.CleanedUpExactlyOnce` | crates/aegis-daemon/src/orchestrator.rs:1080-1093 | the settled row of one session: everything disposed of once, no reference left |
| `SessionOrder.StepKeepsOrder` | crates/aegis-daemon/src/orchestrator.rs:565-573 | the order of engage, record, teardown effects and return is kept by every step |
| `SessionOrder.FailedStartCutsFirst` | crates/aegis-daemon/src/orchestrator.rs:361-399 | when a failed start has cut first, and that it did so before everything else |
| `SessionOrder.TerminatedAtMostOnce` | crates/aegis-daemon/src/orchestrator.rs:984-1000 | at most one terminate call per session in any interleaving |
| `SessionOwnership.ReleasesOwnLease` | crates/aegis-daemon/src/orchestrator.rs:1070-1073 | a task only gives back its own session's lease, and only when nothing of it relies on the lock |
| `SessionOverlap.OverlapLosesAVm` | crates/aegis-daemon/src/orchestrator.rs:984-1000 | a concrete run in which a stop overlapping the start loses a VM and goes from Destroyed to Failed |
| `SessionRaces.OverlapLosesABrowser` | crates/aegis-daemon/src/orchestrator.rs:984-1093 | from every session about to record its launched browser: a stop that takes its snapshot just before and writes its end just after leaves the handle stored, nothing in flight and no terminate call made |
| `SessionDisposal.DisposedAsOftenAsSeen` | crates/aegis-daemon/src/orchestrator.rs:984-1068 | in every interleaving of a start and any overlapping stops, once nothing is in flight each VM has had as many destroy calls, and each browser handle as many terminate calls, as teardown snapshots saw it |
| `SessionDisposal.DisposedOnceIffSeenOnce` | crates/aegis-daemon/src/orchestrator.rs:984-1068 | exactly one call if and only if exactly one snapshot saw the VM or the handle |
| `SessionDisposal.DaemonDisposesAsOftenAsSeen` | crates/aegis-daemon/src/orchestrator.rs:984-1068 | the same for every session of the daemon in every run, where every snapshot that took a handle can reach its back-end |
| `SessionRaces.OverlappingStopsDestroyTwice` | crates/aegis-daemon/src/orchestrator.rs:984-1068 | of every idle session: two stops whose snapshots are both taken before either ends make two destroy calls for each VM the row held |
| `Orchestrator.StopAloneMatchesStopSession` | crates/aegis-daemon/src/orchestrator.rs:958-975 | eight uninterrupted steps of a stop have exactly the effects, in exactly the order, and leave exactly the row, of the sequential method, directory removal and lease release included |
| `Orchestrator.StopAloneReleasesOwnLease` | crates/aegis-daemon/src/orchestrator.rs:1070-1073 | the lease such a stop gives back is the one of the row |
| `Orchestrator.SessionTable.StopSession` | crates/aegis-daemon/src/orchestrator.rs:958-975 | the whole new state of a stop: row closed; handle, disposable directory, both VMs and own lease disposed of in this order; an unknown session changes nothing |
| `Orchestrator.SessionTable.StopTwice` | crates/aegis-daemon/src/orchestrator.rs:958-1094 | a second stop makes no further destroy or terminate call and releases only its own token again |
| `Orchestrator.SessionTable.Teardown` | crates/aegis-daemon/src/orchestrator.rs:982-1094 | every effect of a teardown in order, and the new state, for a known and an unknown session |
| `Orchestrator.SessionTable.OpenSession` | crates/aegis-daemon/src/orchestrator.rs:522-560 | lock, key and row of a new session; a failing key draw gives the lock back and leaves the store as it was |
| `Orchestrator.SessionTable.MoveState` | crates/aegis-daemon/src/orchestrator.rs:324-341 | succeeds exactly on an edge of the table and otherwise changes nothing |
| `Orchestrator.SessionTable.SetVm` | crates/aegis-daemon/src/orchestrator.rs:1098-1108 | one slot of one row changes; an unknown session is an error |
| `Orchestrator.SessionTable.SetBrowserHandle` | crates/aegis-daemon/src/orchestrator.rs:1110-1120 | one slot of one row changes; an unknown session is an error |
| `Orchestrator.SessionTable.StoreChecklist` | crates/aegis-daemon/src/orchestrator.rs:648-656 | status, address and checklist of the row change together |
| `Preflight.ActiveIffAllPositive` | crates/network-audit/src/lib.rs:95-223 | the aggregate is Active exactly when all six guarantees were positively measured |
| `Preflight.PreflightFilesEveryCheck` | crates/network-audit/src/lib.rs:210-235 | a single check reports what the full run files under its id |
| `Preflight.StatusMatchesFailures` | crates/aegis-core/src/preflight.rs:203-262 | status and failure list never disagree; a missing report is a failure |
| `Preflight.EachCheckMeasuresItsOwn` | crates/network-audit/src/lib.rs:95-235 | each check of a full run passes exactly on a positive answer of its own probe, and fails otherwise |
| `Preflight.HostChecklistVouchesForTheProxy` | crates/aegis-daemon/src/orchestrator.rs:797-830 | the checklist of a host session passes the proxy's check alone and never permits browsing |
| `SessionState.TableIsOnePath` | crates/aegis-core/src/session.rs:40-57 | each state of a start leads to the next and to no other live one, every live state can fail and be closed, and what shuts down stays so |
| `ProfileStore.AcquireIsTestAndSet` | crates/profile-store/src/store.rs:333-362 | a lease is granted exactly over a free lock whose file can be made and written, and its token is then in the file; a torn write leaves the lock taken, and a refusal disturbs nobody |
| `ProfileStore.ReleaseIsCompareAndRemove` | crates/profile-store/src/store.rs:364-388 | a release succeeds exactly over the lease's own token and then removes the lock file; any other outcome leaves the store as it was |
| `ProfileStore.StaleReleaseIsHarmless` | crates/profile-store/src/store.rs:364-388 | a lease released once frees nothing the second time, whoever holds the lock by then |
| `ProfileStore.DeletedStaysDeleted` | crates/profile-store/src/store.rs:308-398 | no store operation brings a deleted directory or its lock back |
| `ProfileStore.DeletionIsHonest` | crates/profile-store/src/shred.rs:112-154 | success means nothing is left; a failure never changes what a lock file says except by zeroing or removing it, and once it has removed a file the profile cannot be loaded; one halted while overwriting has spoilt exactly the files it reached |
| `ProfileStore.MetadataIsUpdatedInPlace` | crates/profile-store/src/store.rs:390-396 | recording a launch keeps the name, renaming keeps the launch time, neither touches another profile or a lock, and a profile that cannot be read is refused and left alone |
| `ProfileStore.FileProfileStore.Acquire` | crates/profile-store/src/store.rs:333-362 | the exclusive create and write, step by step, against the specification |
| `ProfileStore.FileProfileStore.Release` | crates/profile-store/src/store.rs:364-388 | read, compare, remove, against the specification |
| `ProfileStore.FileProfileStore.DeleteProfile` | crates/profile-store/src/store.rs:318-331 | directory and lock go together, or the deletion halts with the metadata and lock file kept, zeroed or removed |
| `ProfileStore.FileProfileStore.Touch` | crates/profile-store/src/store.rs:390-397 | only the metadata of an existing profile changes |
| `ForwardPath.OnlyTheSubnetIsForwarded` | crates/gateway-controller/src/render.rs:104-133 | over any trace of packets, expiries and reloads from an empty table, a packet is forwarded only while a policy is loaded, and only if it belongs or relates to a forwarded flow descending from a packet that the rules loaded at its arrival allowed to open one, or is such a packet |
| `ForwardPath.OnlyIpv4IsForwarded` | crates/gateway-controller/src/render.rs:104-133 | if every loaded policy blocks IPv6, only IPv4 is forwarded, and what it descends from is a non-UDP packet of the subnet configured at the time |
| `ForwardPath.FirstPacketForwardedIff` | crates/gateway-controller/src/render.rs:104-133 | exactly which first packets leave through the forward chain; ICMP and non-SYN TCP of the subnet do |
| `Capture.CapturedIsRedirectedAndAdmitted` | crates/gateway-controller/src/render.rs:55-102 | over every trace with reloads, a captured packet (DNS or TCP SYN of the subnet) that is new is forwarded exactly when it is TCP and an earlier forwarded packet opened its flow, unexpired; with no entry it is redirected, admitted on the redirect port and recorded as local; with a local entry it follows the recorded redirect |
| `Capture.ForwardedEntryIff` | crates/gateway-controller/src/render.rs:104-133 | a flow stands as forwarded exactly when an earlier forwarded packet opened it and it has not expired |
| `Capture.RelatedCaptureForwardedIff` | crates/gateway-controller/src/render.rs:104-133 | a captured packet of an expected connection is forwarded exactly when it is not for the gateway and the flow it relates to was opened by a forwarded packet |
| `Capture.SynAfterAckIsForwarded` | crates/gateway-controller/src/render.rs:68-72 | for every validated policy that redirects TCP: after a TCP packet of the subnet without SYN, the SYN on the same flow is captured, new and forwarded |
| `Capture.CapturedFlowStaysRedirected` | crates/gateway-controller/src/render.rs:55-102 | once captured and redirected, a flow is never forwarded while its entry lives, whatever is loaded: later packets go to the first redirect port and are admitted there under the same rules |
| `ForwardPath.KillSwitchStopsEverything` | crates/gateway-controller/src/render.rs:163-180 | with the kill switch nothing passes and no connection opens, whatever the table holds |
| `ForwardPath.TraceKeepsInv` | crates/gateway-controller/src/render.rs:104-133 | every forwarded entry of the table has a lawful opener in the trace, reloads included |
| `Firewall.RenderNftables` | crates/gateway-controller/src/render.rs:41-153 | the buffer built rule by rule is the compiled ruleset, in order |
| `Firewall.RenderKillSwitch` | crates/gateway-controller/src/render.rs:163-180 | the loop over the hooks gives a drop-only chain on each filter hook |
| `Firewall.PreroutingVerdict` | crates/gateway-controller/src/render.rs:55-73 | exactly which packets are redirected and where |
| `Firewall.InputVerdict` | crates/gateway-controller/src/render.rs:77-102 | exactly which packets the input hook admits, rejects and drops |
| `Firewall.ForwardVerdict` | crates/gateway-controller/src/render.rs:104-133 | exactly which packets the forward hook accepts |
| `Firewall.OutputVerdict` | crates/gateway-controller/src/render.rs:135-148 | exactly which packets the output hook accepts: of known connections or on loopback; else none over IPv6 under Block; else new IPv4 ones |
| `Egress.GatewaySendsIff` | crates/gateway-controller/src/render.rs:135-148 | whatever connections are known: exactly which packets the gateway itself sends |
| `Egress.BlockedIpv6StaysOnLoopback` | crates/gateway-controller/src/render.rs:135-148 | while every loaded policy blocks IPv6, no IPv6 packet passes the gateway in any direction unless it is on loopback or belongs to a connection opened there |
| `InstalledPolicy.FailClosedProtects` | crates/aegis-core/src/gateway.rs:66-79 | what the rules of a start's own policy do to every packet of no known connection: forward only what the subnet sends other than UDP, and IPv6 only between link-local addresses and only where IPv6 is routed; let in only loopback and the subnet; send only loopback and new IPv4; in Tor mode redirect name lookups and other TCP openings of the subnet to two different ports and let them in there, in other modes redirect nothing |
| `InstalledPolicy.ValidPolicyConfines` | crates/aegis-core/src/gateway.rs:83-94 | whatever policy validates confines traffic as much, by its own IPv6 choice |
| `Firewall.KillSwitchDropsEverything` | crates/gateway-controller/src/render.rs:163-180 | every filter hook drops every packet in every connection state |
| `GatewayController.RunKeepsInv` | crates/gateway-controller/src/lib.rs:257-369 | over every sequence of calls, one at a time, and outcomes: applied implies armed, a valid stored policy, and the kernel holding its rules under a configuration accepted earlier; engaged implies not applied and a total block unless the latest kill-switch load failed |
| `GatewayController.ReleaseNeverFindsABadPolicy` | crates/gateway-controller/src/lib.rs:335-369 | the re-validation branch of a release is unreachable |
| `GatewayController.NotReadyUntilReopened` | crates/gateway-controller/src/lib.rs:323-419 | once engaged, readiness stays false on every run without a successful apply or release |
| `GatewayController.ReopeningLoadsAValidPolicy` | crates/gateway-controller/src/lib.rs:270-369 | whatever reopens the gateway has just loaded the rules of a validated policy |
| `GatewayController.ReadyMeansProtected` | crates/aegis-core/src/gateway.rs:178-184 | readiness on any run of calls one at a time means a live tunnel and an accepted configuration's rules in the kernel |
| `GatewayController.FailuresEngage` | crates/gateway-controller/src/lib.rs:257-369 | on a configured gateway a failed configure, apply of a start's own policy or release, a probe error and a failed tunnel have engaged the switch before the call returned (what that policy's rules do: `InstalledPolicy.FailClosedProtects`) |
| `GatewayController.TunnelCheckIsFaithful` | crates/gateway-controller/src/lib.rs:300-321 | a tunnel check answers what its probe did and leaves the gateway alone unless that is an error or a failed tunnel |
| `GatewayController.ReadyIff` | crates/gateway-controller/src/lib.rs:375-419 | a gateway is reported ready exactly if it is configured, its firewall applied, its switch armed and its tunnel up |
| `GatewayController.ApplyingOpens` | crates/gateway-controller/src/lib.rs:270-298 | an apply succeeds exactly for a policy that drops by default, blocks direct UDP and rejects host traffic, on a configured gateway whose kernel takes the rules; the gateway is then ready over a live tunnel with exactly those rules |
| `GatewayController.ReleaseUndoesEngage` | crates/gateway-controller/src/lib.rs:335-369 | after an engage, a release whose load works makes the gateway ready again with the stored policy's rules |
| `GatewayController.NftGatewayController.LoadRuleset` | crates/gateway-controller/src/lib.rs:114-131 | a load replaces the kernel's ruleset or leaves it |
| `GatewayController.NftGatewayController.FailClosed` | crates/gateway-controller/src/lib.rs:137-147 | records Engaged whether or not its load worked, and passes the error on |
| `GatewayController.NftGatewayController.ConfigureTunnel` | crates/gateway-controller/src/lib.rs:257-268 | the whole new state of a configure |
| `GatewayController.NftGatewayController.ApplyPolicy` | crates/gateway-controller/src/lib.rs:270-298 | the whole new state of an apply, on each of its error paths |
| `GatewayController.NftGatewayController.ProbeTunnel` | crates/gateway-controller/src/lib.rs:300-321 | a failed tunnel engages the switch |
| `GatewayController.NftGatewayController.EngageKillSwitch` | crates/gateway-controller/src/lib.rs:323-333 | the whole new state of an engage |
| `GatewayController.NftGatewayController.ReleaseKillSwitch` | crates/gateway-controller/src/lib.rs:335-369 | the whole new state of a release, on each of its error paths |
| `GatewayController.NftGatewayController.ReportHealth` | crates/gateway-controller/src/lib.rs:375-419 | health changes nothing |
| `GatewayInterleavings.EveryInterleavingIsSanctioned` | crates/gateway-controller/src/lib.rs:257-369 | in every interleaving the flags never contradict each other, a stored policy validates, and the kernel holds the total block or a validated policy's rules under an accepted configuration; a ready record means a live probe and one of these |
| `GatewayInterleavings.EngagedUntilRulesRecorded` | crates/gateway-controller/src/lib.rs:290-369 | once engaged, every record read is not ready in every interleaving in which no apply or release records its success |
| `GatewayInterleavings.AloneIsAtomic` | crates/gateway-controller/src/lib.rs:257-369 | a call nothing interrupts is one step of the sequential controller, with its answer |
| `GatewayInterleavings.ClearRunsKeepInv` | crates/gateway-controller/src/lib.rs:257-369 | the full sequential invariant holds whenever no load waits for its record, in every run in which no successful rules load crosses another or a block load on its way to the record and a release loads the policy still stored; everything else may overlap anything |
| `GatewayInterleavings.ClearReadyMeansProtected` | crates/aegis-core/src/gateway.rs:178-184 | in such runs a record read while no load waits is ready only over a live probe and the stored policy's rules in the kernel |
| `GatewayInterleavings.OrderlyRunsKeepInv` | crates/gateway-controller/src/lib.rs:257-369 | in particular, if no two calls overlap, the full sequential invariant holds whenever none is in flight |
| `GatewayInterleavings.OverlapDisarmsTheSwitch` | crates/gateway-controller/src/lib.rs:270-333 | the failing run: recorded Engaged, no kill load failed, the policy's rules in the kernel |
| `GatewayInterleavings.EngageInsideApply` | crates/gateway-controller/src/lib.rs:270-333 | an engage inside an apply: the firewall recorded applied over the block |
| `GatewayInterleavings.ApplyInsideApply` | crates/gateway-controller/src/lib.rs:270-298 | an apply inside an apply: the inner policy's rules under the outer record |
| `GatewayInterleavings.ApplyInsideRelease` | crates/gateway-controller/src/lib.rs:335-369 | an apply between a release's reading and its load: the old policy's rules under the new record |
| `UpdateSafety.RollbackIsExactIff` | crates/update-client/src/lib.rs:424-529 | for lists in which targets may repeat and none is another's sibling: whatever operation of whatever artifact fails, if the restoring operations succeed then every path outside the failing artifact's temporary file is as before, if and only if no recorded artifact was moved aside over an old backup or a second time from an old target, and every installed one's probe saw an old target and met no old temporary file |
| `UpdateSafety.RolledAt` | crates/update-client/src/lib.rs:504-524 | path by path, what a rolled-back update leaves: the old content, or nothing where it is lost |
| `UpdateSafety.CleanSlateIsRecoverable` | crates/update-client/src/lib.rs:449-464 | distinct targets, accurate probes and no old siblings are enough for an exact rollback |
| `UpdateSafety.RepeatedTargetMustBeNew` | crates/update-client/src/lib.rs:449-464 | in a recoverable update a target recorded a second time was absent before, and so was its backup |
| `UpdateSafety.DuplicateTargetLosesOriginal` | crates/update-client/src/lib.rs:334-349 | two artifacts for one existing target: whichever operation of the second fails after moving aside, the original is lost |
| `UpdateSuccess.AppliedUpdate` | crates/update-client/src/lib.rs:438-502 | a successful update puts bytes of the hash stated last for it at every target, changes nothing but targets and siblings, leaves no temporary file, and at each backup path exactly what the clean-up left |
| `UpdateSuccess.AppliedIff` | crates/update-client/src/lib.rs:438-529 | the update is applied exactly when every operation on every artifact succeeds, repeated targets included |
| `UpdateSuccess.NoBackupLeft` | crates/update-client/src/lib.rs:494-502 | after an applied update whose clean-up removals work, each backup path holds nothing or what it held before |
| `UpdateSuccess.SiblingTargetIsRemoved` | crates/update-client/src/lib.rs:494-502 | an artifact installed at an earlier one's backup path is removed by the clean-up of an update reported as applied |
| `UpdatePlacement.OnlyTheDirectoryChanges` | crates/update-client/src/lib.rs:334-349 | with an install directory every path whose content an update changes, applied or rolled back, is the directory plus one name: the last component of an artifact's location or that with a suffix |
| `UpdatePlacement.OnlyTheLocationsChange` | crates/update-client/src/lib.rs:334-349 | without one it is a location or a sibling of one |
| `UpdatePlacement.AppliedStandsInDirectory` | crates/update-client/src/lib.rs:334-349 | after an applied update the bytes fetched for an artifact, of the stated hash, stand in the directory under the last component of its location |
| `UpdatePlacement.AppliedStandsAtLocation` | crates/update-client/src/lib.rs:334-349 | without a directory they stand at the location |
| `UpdatePlacement.NamelessRollsBack` | crates/update-client/src/lib.rs:338-345 | a location without a file name rolls an update into a directory back, and one that begins with it has changed nothing |
| `UpdateVerification.NewerIsStrictTotalOrder` | crates/aegis-core/src/update.rs:34-38 | newer is a strict total order in which the major number decides before the minor one, and that before the patch |
| `UpdateVerification.AcceptedIff` | crates/update-client/src/lib.rs:407-416 | fetched bytes are accepted exactly if the stated hash spells their digest, in either case and between any blanks; otherwise it is an integrity error |
| `UpdatePaths.SiblingsAreDistinct` | crates/update-client/src/lib.rs:533-550 | backup and temporary names are injective, disjoint from each other and from their target |
| `UpdateClient.SignedUpdateClient.ApplyUpdate` | crates/update-client/src/lib.rs:424-529 | the forward and reverse loops compute the specified files and outcome |
| `UpdateClient.SignedUpdateClient.InstallEach` | crates/update-client/src/lib.rs:438-490 | the forward loop, with the records it pushes |
| `UpdateClient.SignedUpdateClient.Install` | crates/update-client/src/lib.rs:439-464 | one artifact up to its record (where that is, in terms of locations and names: `UpdatePlacement`) |
| `UpdateClient.SignedUpdateClient.WriteNew` | crates/update-client/src/lib.rs:466-488 | fetch, re-hash, write beside, rename into place |
| `UpdateClient.SignedUpdateClient.Restore` | crates/update-client/src/lib.rs:510-524 | the reverse loop |
| `UpdateClient.SignedUpdateClient.RemoveBackups` | crates/update-client/src/lib.rs:494-502 | the clean-up loop |
| `UpdateClient.SignedUpdateClient.Verify` | crates/update-client/src/lib.rs:389-422 | accepts exactly a signed, strictly newer manifest whose every artifact hashes as stated |
| `Frame.ReadOfEncoded` | crates/aegis-ipc/src/frame.rs:95-151 | a written frame reads back as its value and leaves exactly the bytes after it |
| `Frame.ReadFailsExactly` | crates/aegis-ipc/src/frame.rs:95-123 | which inputs fail with which error, and how much they use up |
| `Frame.Be32RoundTrip` | crates/aegis-ipc/src/frame.rs:108-108 | the four-byte prefix carries every 32-bit length |
| `Frame.PrefixIsBigEndian` | crates/aegis-ipc/src/frame.rs:133-151 | the first byte of the prefix weighs most |
| `Frame.FitsIff` | crates/aegis-ipc/src/frame.rs:133-151 | a value fits in a frame exactly if it can be encoded in at most 16 MiB |
| `Frame.Stream.ReadFrame` | crates/aegis-ipc/src/frame.rs:95-123 | the reader over a mutable stream, against the specification |
| `Frame.Stream.WriteFrame` | crates/aegis-ipc/src/frame.rs:133-151 | what goes out, also when the peer stops taking bytes |
| `Server.Connection.ServeConnection` | crates/aegis-ipc/src/server.rs:62-76 | the loop computes the specified run on every input |
| `Server.ServeAnswersInOrder` | crates/aegis-ipc/src/server.rs:62-76 | serving concatenated frames is folding the handler and framing its responses in order |
| `Server.BadFrameEndsService` | crates/aegis-ipc/src/server.rs:62-76 | after a bad frame exactly the preceding requests are answered, and decoding the output gives exactly their responses |
| `Server.UnsendableResponseEndsService` | crates/aegis-ipc/src/server.rs:72-74 | a response that does not fit ends the connection after its request was handled |
| `Server.OutputIsAlwaysResponses` | crates/aegis-ipc/src/server.rs:62-76 | on arbitrary bytes the output is the responses to a prefix of the readable requests, all of them unless one did not fit |
| `Server.DecodeFrames` | crates/aegis-ipc/src/frame.rs:95-151 | reading back a concatenation of frames gives the values, then what follows |
| `Client.CallsReturnTheirResponses` | crates/aegis-ipc/src/client.rs:45-48 | every call returns the response of its own request if and only if every request and response fits in a frame |
| `Client.IpcClient.Call` | crates/aegis-ipc/src/client.rs:30-48 | one call over any stream: exactly what goes out, which bytes are used up and what is returned, for every peer |
| `Client.AnswersPairUp` | crates/aegis-ipc/src/client.rs:45-48 | over any peer that sends as many frames as requests go out, calls and answers pair up in order; a request that cannot be sent takes no answer |
| `Client.ServerAnswersEachCall` | crates/aegis-ipc/src/client.rs:45-48 | fed with exactly what the calls send, the server loop answers so that each call gets the response of its own request |
| `Client.ServedClient.Call` | crates/aegis-ipc/src/client.rs:45-48 | one call with the server loop run once at the other end of the stream |
| `Client.ServedClient.CallAll` | crates/aegis-ipc/src/client.rs:45-48 | a sequence of calls in lock step with the server loop, and the server state it leaves |
| `TokenAuth.TokensMatch` | crates/aegis-ipc/src/transport.rs:257-269 | true exactly when the lengths agree modulo 256 and the zero-padded bytes are equal |
| `TokenAuth.AgreeIff` | crates/aegis-ipc/src/transport.rs:257-269 | exactly which different tokens are taken for one |
| `TokenAuth.AgreeIsEquality` | crates/aegis-ipc/src/transport.rs:257-269 | equality for tokens without NUL bytes |
| `XmlText.XmlEscape` | crates/vm-controller/src/xml.rs:30-43 | the escaping loop, against the specification |
| `XmlText.EscapeRoundTrip` | crates/vm-controller/src/xml.rs:30-43 | unescaping gives the string back |
| `XmlText.EscapedIsInert` | crates/vm-controller/src/xml.rs:30-43 | escaped text can neither open markup nor end an attribute value |
| `XmlText.ReadAll` | crates/vm-controller/src/xml.rs:120-175 | reading a document character by character gives exactly the tags, values and text it was put together from |
| `DomainXml.DocumentReadsBack` | crates/vm-controller/src/xml.rs:120-175 | whatever strings are inserted, the reader sees the template's tags with the inserted values |
| `DomainXml.StructureIsIndependentOfStrings` | crates/vm-controller/src/xml.rs:73-175 | two requests of the same role, GPU and read-only flag give the same element and attribute-name sequence |
| `DomainXml.DevicesOfTheDocument` | crates/vm-controller/src/xml.rs:124-149 | one interface for a browser, two for a gateway, no passthrough, redirection, host share, sound or channel |
| `DomainValues.FreeFormValuesSurvive` | crates/vm-controller/src/xml.rs:73-149 | the file, network and address attributes a reader finds in the document are, unescaped and in order, exactly the request's paths, networks and MAC addresses |
| `DomainText.RequestIsReadAsText` | crates/vm-controller/src/xml.rs:145-175 | a reader finds one name, UUID, memory, current-memory and vCPU element, and in them the name made of the first digits of the instance id, the whole id with hyphens, and decimal numerals of the memory and processors asked for |
| `DomainText.MachineIsClosed` | crates/vm-controller/src/xml.rs:145-175 | a reader finds one display, listening on 127.0.0.1 only, no 3D acceleration, a read-only root disk exactly if one is asked for, and in order the types of everything that has one: interfaces on virtual networks, disks as image files |
| `FileTree.DirSize` | crates/profile-store/src/store.rs:173-197 | the stack walk returns the total of all regular files capped at 2^64-1, and fails exactly on an inaccessible node |
| `FileTree.ListEntries` | crates/profile-store/src/store.rs:182-194 | one directory's part of the walk |
| `FileTree.CollectFiles` | crates/profile-store/src/shred.rs:124-145 | the walk finds exactly the regular files, links not followed, and only reads |
| `FileTree.OverwriteShredder.ShredDir` | crates/profile-store/src/shred.rs:112-154 | whatever write or removal fails: success exactly when none does; every byte is zero or as before, all are zero before anything is removed, what a failed removal leaves is zeroed, nothing outside the tree is written, and a failed listing touches nothing |
| `FileTree.OverwriteShredder.OverwriteFile` | crates/profile-store/src/shred.rs:59-92 | all passes over one file; a failure after n bytes leaves the first n zero and the rest as it was |
| `FileTree.OverwriteShredder.OverwritePass` | crates/profile-store/src/shred.rs:79-88 | the chunked pass reaches every byte, or stops where a write or the flush fails |
| `FileTree.OverwriteShredder.constructor` | crates/profile-store/src/shred.rs:52-56 | at least one pass |
| `ProxyEndpoint.ParsersAgree` | crates/browser-launcher/src/firefox.rs:174-192 | on every string both parsers fail, or both give the same host and port |
| `ProxyEndpoint.FormattedEndpointRoundTrips` | crates/aegis-daemon/src/orchestrator.rs:110-129 | parsing a formatted endpoint gives its host and 16-bit port back if and only if the host is not empty and holds no separator |
| `ProxyEndpoint.PortIff` | crates/aegis-daemon/src/orchestrator.rs:110-129 | a port is exactly a 16-bit number in decimal digits, with or without a plus sign |
| `ProxyEndpoint.ConfiguredProxyIsUsed` | crates/aegis-daemon/src/orchestrator.rs:914-921 | a configured proxy is probed at its own host and port and handed on under the scheme of its protocol, for every host without a separator |
| `ProxyEndpoint.TorEndpointIs` | crates/aegis-daemon/src/orchestrator.rs:905-925 | in Tor mode a non-blank override is handed on verbatim, without one the endpoint is the local Tor port, and a VPN has none |
| `ProxyEndpoint.OverrideIsUsed` | crates/aegis-daemon/src/orchestrator.rs:905-912 | an override that spells a host and a port is probed there |
| `ProxyEndpoint.ProbeAndRender` | crates/aegis-daemon/src/orchestrator.rs:905-925 | the address probed is the address in Firefox's SOCKS preferences |
| `ProxyEndpoint.RenderProxyPreferences` | crates/browser-launcher/src/firefox.rs:200-215 | the proxy part of the preferences, built entry by entry |

## Left out

- Sockets, peer credentials, processes, `virsh`, `qemu-img`, `systemctl` and TCP probes: parameters that succeed or fail.
- Argon2id, XChaCha20-Poly1305, Ed25519, SHA-256, JSON and TOML: library code, taken as arbitrary functions.
- `start_session` as one sequential method: it exists as the step machine only, since its point is what may happen between its awaits.
- Interleavings inside one lock operation of the profile store: `acquire_lock` and `release_lock` are one step each, and mutex poisoning does not occur.
- A deletion's effect on a profile's data volume: only its metadata and lock file are followed across tasks; `FileTree` follows every file of one shred.
- A teardown's forced power-off and destroy of one VM: one step, since both results are ignored.
- The removal of an ephemeral host profile's data directory: a call recorded in order, its failure ignored as in the source.
- Reads before a start takes the lock (profile, enforcement mode): one step that refuses or admits the start.
- The text of an nft script: comments, counters and layout are dropped, rule order is kept.
- `GatewayController.RunKeepsInv`, `GatewayController.ReadyMeansProtected`: calls one at a time, an assumption the code does not enforce; `GatewayInterleavings` has what holds without it.
- Starting the tunnel back-ends and parsing Tor's bootstrap line: a command outcome and a tunnel state.
- `UpdateSafety.RollbackIsExactIff`, `UpdateSafety.RolledAt`, `UpdateSuccess.AppliedUpdate`, `UpdateSuccess.AppliedIff`: no target may be another's backup or temporary path, as lexical paths; aliases through `..` or links, and directories the update created, are not modelled.
- Traffic before the first ruleset is loaded: traces begin with a loaded one.
- Parsing a location string into a path: a location is its list of components.
- `Client.ServedClient.Call`, `Client.ServedClient.CallAll`: the server runs exactly one round of its loop while the client waits, and neither end limits what it takes.
- `DomainValues.FreeFormValuesSurvive`: numbers and ids go in unescaped as in the source; widths of 32-bit numbers are not modelled.
- `FileTree.DirSize`: a directory listing does not change while it is read, except that nodes may have vanished or become inaccessible.
- `OverwriteShredder::default()`: its derived pass count is zero; the zeroing is stated for shredders from `new`.
- The other Firefox preferences, `render_user_js`, Chromium's policy, fingerprint presets, permission grants: tables.
- Version handling of the daemon: its handler always offers version 0.0.0 as installed, so only the client's own check is modelled.
- CLI, desktop UI, diagnostics, previews and audit-log storage: no decision of the components above depends on them.
