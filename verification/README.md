# ee-database: a verified model

ee-database keeps a copy of a remote schema database in the user's own
PostgreSQL, MySQL or SQLite database. A server queues deltas (ready-made SQL,
guarded by a revision per row), leases windows of them over a WebSocket, and waits
for acks; the client applies each window in one transaction, and applies a whole
snapshot when it starts or when the server asks for it. A managed host runs many
such clients as children of one process. This project models that behaviour in
Dafny and proves what the repository promises about it.

`dafny verify dfyconfig.toml` checks everything.

## Contents

| files | what they model |
|---|---|
| `Replica`, `ServerLog` | what a delta's SQL does to tables, the server's log, and the algebra of replay: physical deletes, guarded upserts, silent rows that only a snapshot carries |
| `Apply` | `Batch` and `Snapshot` as methods on a database object, with an oracle for every fault |
| `DataPlane`, `ClientOrder`, `Drain` | one profile's data plane as a transition system: server, network, process and persisted flag; its invariants over all runs |
| `Client` | `Pump`, `Bootstrap`, `connectAndPump`, `runForever` in the shape of the source; every operation is one label of `DataPlane` with the environment interleaved before it, so every execution is a run of that system; processes that end on their own or are killed in the middle of any operation |
| `Recovery` | the run by which a profile recovers from any reachable state |
| `Necessity` | concrete runs showing that four of the assumptions below are needed |
| `HostRunner`, `HostSafety`, `HostLocks`, `HostExclusion`, `HostTrueUp`, `HostProgress` | the managed host as a transition system: control goroutine, children with their deferred calls, mutex, classic runners, and locks on lock files that are opened first and locked later, and that clearing and healing may unlink or move in between; its theorems over all interleavings |
| `ManagedHost` | `reconcile`, `ensure`, `stop`, `stopAll` and the loop around them, every operation a label of `HostRunner` |
| `HostEnsure` | what `ensure` does to profile files, claims and starts |
| `ProfileStore` | profile files: keys, save, load, migration of the older layout, rename, healing |
| `EnsureDatabase` | check-then-create by any number of concurrent callers |
| `Quoting` | the built CREATE and GRANT statements against a lexer for each dialect |
| `ErrorCursor` | the error-cursor pass over the bytes of a script against characters and lines, and those characters against a UTF-8 encoder |

## Assumptions about the server and the database

The server is not part of the repository, so it is a nondeterministic environment.

- E1: revisions ascend strictly per row. A window starts at the server's lease cursor
  and moves it to the window's end; a new connection, and a lease that runs out, put
  the lease cursor back to the acked cursor. A lease may run out at any moment: while
  its window is on the wire or being applied, or while its ack is on the wire. Two
  named additions: in the strict form a window is leased only while the lease cursor
  is the acked cursor; in the steady form a window ends no earlier than the windows
  that its connection leased before. Convergence needs both, and `Necessity` has a
  run for each that shows it. That a poison delta is never skipped needs the strict
  form, that acks never fall the steady form; the other results need neither.
- E2: an upsert is ignored if the stored revision is newer, a delete physically
  removes the row unless the stored revision is newer, DDL only adds columns.
- E3: a snapshot is the truth at fetch time and carries upserts only; every delete
  is fed as a delta.
- E4: a frame with `snapshot_required` carries no deltas, and the flag stays up until
  a snapshot fetched after the silent write has committed. The client never reports
  an applied snapshot, and a re-bootstrap that fails reconnects with `Bootstrapped`
  still true, so it is not retried on its own; `Necessity.ClearedOnFetchLosesRow`
  shows what would go wrong if the flag came down on the fetch.
- E5: one DSN per profile.
- E6: a transaction whose outcome the client did not see has landed or not before
  the client's next step, and an ack sent on a connection that is gone is dropped:
  `Necessity.LateAckRevivesRow` has a run in which one that arrives after all leaves
  a deleted row for good, with strict and steady leases.
- E7: a batch or a snapshot is atomic, its DDL included. MySQL commits implicitly at
  a DDL statement, so there this is an assumption about what the server sends.
- E8: nobody writes a profile between its loading and its locking
  (internal/cli/cli.go:508, 540): a process loads and locks it in one step, `Start`.
- E9: `RowsAffected` of MySQL's `CREATE DATABASE IF NOT EXISTS` is positive exactly
  when the statement created the database. The MySQL half of
  `EnsureDatabase.CreatedOnce` and of `EnsureDatabase.RerunIsQuiet` rests on it.

Delta ids are positions in the log, so "acked up to n" means every entry below n.

## Where the code and its comments differ

The model follows the code.

- `Batch` is said to apply deltas in id order (internal/apply/apply.go:78); it applies
  them in array order, and the contract says so.
- `migrateLegacyLayout` is said to be safe to call always (internal/config/config.go:118).
  It moves config.json first, so a rerun after an interruption sees nothing to do:
  `ProfileStore.RerunCompletes` says exactly when a rerun completes the migration.
- `RenameProfile` is said to be a no-op when the target exists, with the newer pairing
  winning (internal/config/config.go:285-286). It removes the old directory, and
  `healProfile` then overwrites config.json of the surviving profile with the in-memory
  configuration.
- `validateKey` accepts "/" besides plain path elements (internal/config/config.go:110-115).
- `ensure` says that failures are retried on the next reconcile
  (internal/cli/host.go:377-378). A profile that loads but has no DSN is never retried
  successfully: `HostEnsure.StartsUnlessStuck` and `HostEnsure.GetsStuckExactly`.
- `EnsureResult` is said to report what was actually created
  (internal/apply/ensure.go:16). On MySQL the report of an account is right exactly when
  nobody else added it between the call's check and its statement, two calls in a run
  both report one account exactly when both were about to create it at one moment,
  and an account that exists only at another host makes every call fail at the GRANT:
  `EnsureDatabase.ReportIsRightExactly`, `EnsureDatabase.MySQLReportsTwice`,
  `EnsureDatabase.AloneFailsExactly`.

## Model

| member | source | states |
|---|---|---|
| Replica.RunPointwise | internal/apply/apply.go:3-5 | running a script on the tables is running it on the schema and on every row separately |
| Replica.Overwritten | internal/apply/apply.go:3-5 | a script with ascending revisions leaves at a row the effect of its last statement on it, whatever older version was there |
| Replica.Guarded | internal/apply/apply.go:3-5 | a stored revision newer than every statement of a script survives the script |
| ServerLog.ApplyWindow | internal/apply/apply.go:78-100 | running the fed entries of a window on a replica that is clean at its start makes it clean at its end, and complete if it was, also when the replica had already been further |
| ServerLog.Publish | internal/framing/framing.go:66-75 | a new entry keeps a replica as clean and as complete as it was up to its cursor |
| ServerLog.Rewind | README.md:17-19 | redelivery from an earlier cursor starts from a replica that is clean and complete there |
| ServerLog.DumpRestores | internal/apply/apply.go:55-57 | a bootstrap script means the same in every order of its statements: per row the newer of what was there and the snapshot |
| ServerLog.ApplySnapshot | internal/apply/apply.go:55-76 | a snapshot of the first m entries makes any clean replica complete at every cursor up to m, over rows newer or older than it |
| ServerLog.Drains | internal/sync/sync.go:151-219 | feeding the rest of the log to a clean and complete replica gives exactly the truth |
| ServerLog.DrainsOnlyIf | internal/sync/sync.go:151-219 | conversely, of a replica of written rows each single row that drains to the truth is clean and complete |
| ServerLog.DrainsRow | internal/sync/sync.go:151-219 | row by row, also while silent rows are outstanding: a row of a clean replica that none of them carries drains to the truth if and only if it is complete |
| ServerLog.ReplayKeeps | README.md:17-19 | windows cut and repeated in any way, never skipping, keep the replica clean and complete up to the last one |
| ServerLog.ReplayConverges | README.md:17-19 | such a replay that reaches the end of the log ends in the true rows, although deleted rows may come back in between |
| ServerLog.ReplayAgain | README.md:17-19 | a replica that has followed the first n entries ends in the same rows when the entries from any k on are fed again, cut and repeated in any way |
| ServerLog.TruthIsDrained | README.md:17-19 | a replica at the truth may be replayed from any earlier cursor |
| ServerLog.SnapshotOverlap | internal/apply/apply.go:55-76 | a snapshot applied late changes nothing about where the replay ends, and applying it twice equals applying it once |
| Apply.Database.Batch | internal/apply/apply.go:83-100 | success exactly when nothing refuses, then the whole fold of the array and the last id; an exec failure changes nothing and names the first refused delta; a commit may land unseen |
| Apply.Database.Snapshot | internal/apply/apply.go:63-76 | the script lands whole or not at all; the error value does not always tell which |
| Apply.FindFailed | internal/sync/sync.go:192-199 | with distinct ids the search finds the SQL of exactly the failed delta |
| Apply.DeltasAreFed | internal/framing/framing.go:66-75 | the deltas of a window carry exactly the fed statements in log order |
| Apply.DeltaIds | internal/framing/framing.go:57-64 | ids of a window ascend, lie inside it, and its end is the last id |
| ClientOrder.OrderStep | internal/cli/cli.go:688-732 | every step keeps which bootstrap flags hold at which point of the program |
| ClientOrder.WireStep | internal/sync/sync.go:151-219 | every step, a lease running out at any moment included, keeps that no window starts beyond the furthest end before it and that acks stay within the windows dealt with |
| ClientOrder.CoverStep | internal/sync/sync.go:161-213 | every step keeps that each entry below the acked cursor is delivered, and each entry dealt with too unless the first bootstrap is pending |
| ClientOrder.RisingStep | README.md:17-19 | with steady leases every step keeps that acks and the ends of windows never fall along a connection |
| ClientOrder.SeededBy | internal/cli/cli.go:688-700 | the history variables hold exactly when a step of the run committed a snapshot |
| ClientOrder.BootstrapOrder | internal/cli/cli.go:688-732 | in every run no batch is applied while the first bootstrap is pending, and a bootstrap flag in memory or on disk implies an earlier committed snapshot or --skip-bootstrap, at every crash point |
| ClientOrder.FlagIsWritten | internal/cli/cli.go:547-550 | in every run config.json says bootstrapped if and only if a write of it succeeded: after a snapshot by a process without the flag, at a start with --skip-bootstrap, or in a healing by a process with the flag in memory |
| ClientOrder.BootstrapsOnce | internal/cli/cli.go:709-722 | a process started over a profile marked bootstrapped, or with --skip-bootstrap, never does a first bootstrap; where the mark is in config.json no later process does |
| ClientOrder.BootstrapsFirst | internal/cli/cli.go:703-722 | any other process, until its first bootstrap has committed and set the flag, dials only with that bootstrap put off to the first publish, and applies and acks nothing |
| ClientOrder.AbandonedWindows | internal/sync/sync.go:161-183 | a window dropped on publish_required is never acked past, in this or any later process, until a snapshot commits after the drop or a process is started with --skip-bootstrap |
| ClientOrder.AckAfterCommit | internal/sync/sync.go:189-213 | in every run an ack carries the last id of the batch that committed last before it |
| ClientOrder.AckedOnlyGrows | internal/sync/sync.go:210-213 | with steady leases the acked cursor never moves back, over reconnects, restarts and leases that run out at any moment |
| ClientOrder.AckedIsDelivered | internal/sync/sync.go:210-213 | in every run, with or without --skip-bootstrap, every entry that became acked is in a committed batch or in a committed snapshot |
| Drain.LeaseStep | README.md:17-19 | with strict and steady leases every step keeps that windows on their way start at or below the acked cursor, and that nothing is acked beyond the last committed batch |
| Drain.DataStep | internal/sync/sync.go:151-219 | publishes, silent writes, ambiguous commits, snapshots, crashes and redelivery, on a live connection too, keep the drain invariant |
| Drain.Converges | README.md:15-24 | at every point of every run after a first snapshot and with none outstanding, the rest of the log from the acked cursor drains the replica to exactly the truth; fully acked means equal |
| Drain.BootstrappedConverges | README.md:15-24 | in a run without --skip-bootstrap every profile marked bootstrapped is converging: it drains to the truth while no snapshot is outstanding, and at any time in every row but those that only the outstanding snapshot carries |
| Drain.CompleteConverges | README.md:15-24 | a replica that is complete at some point of a run, at the last committed batch or, with no process running, at the acked cursor, is converging at every later point, however it was filled |
| Drain.SkipConverges | internal/cli/cli.go:547-550 | after a process has started with --skip-bootstrap over a replica that is complete at the acked cursor, the replica is converging for good, over all later steps and processes |
| Drain.SkipConvergesOnlyIf | internal/cli/cli.go:547-550 | the condition is exact row by row: at every point of every run, bootstrapped or not, a row that no outstanding snapshot carries drains to the truth if and only if it is complete |
| Drain.NeverWrong | README.md:15-24 | also with a snapshot outstanding, draining brings every row to the truth but those whose last entry only that snapshot carries; rows already due are true, and no deleted row whose delete is acked is there |
| Drain.PoisonNeverSkipped | README.md:22-24 | in every run with strict leases, however they run out and whenever the flag comes down, a delta the database always refuses is never acked, and no committed batch contains it or anything after it |
| Recovery.CanRecoverExactly | README.md:15-24 | every run, wherever it has got to, can go on until every delta is acked, no snapshot is outstanding and the replica is the truth, if and only if its log holds no delta that the database always refuses |
| Necessity.ClearedOnFetchLosesRow | internal/framing/framing.go:70-74 | if the server took the flag down on the fetch, a failing snapshot would leave a bootstrapped replica wrong for good |
| Necessity.LeasingAheadKeepsDeletedRow | internal/sync/sync.go:171-178 | if windows were leased ahead of acks, a dropped window could be jumped over and a deleted row kept for good |
| Necessity.ShorterLeaseRevivesRow | README.md:17-19 | if a lease that ran out were renewed for a shorter window, a redelivery cut off by the longer window's ack would leave a deleted row for good |
| Necessity.LateAckRevivesRow | internal/sync/sync.go:210-213 | if an ack left on an old connection still arrived after a reconnect, it would end the redelivery half-way and leave a deleted row for good, strict and steady leases or not |
| Necessity.ReplayResurrects | README.md:17-19 | half-way through a replay a deleted row can be back |
| Client.World.FetchSnapshot | internal/sync/sync.go:226-232 | the script in hand is a dump of the truth at some point of the log; publish_required defers the bootstrap |
| Client.World.Bootstrap | internal/sync/sync.go:226-252 | returns without error exactly after a fetched and then committed snapshot, publish_required exactly when the server said so, and any other failure back at the loop |
| Client.World.BootstrapAndFlag | internal/cli/cli.go:688-700 | its own steps are fetch, restore, set the flag, in this order and each only after the one before succeeded; a broken attempt leaves the flag alone |
| Client.World.NoPoison | internal/sync/sync.go:189-209 | a batch in which the database refuses nothing contains no delta that it always refuses |
| Client.World.HandleBatch | internal/sync/sync.go:160-213 | its own steps, exactly: with a snapshot due the frame is left alone if and only if there is no bootstrap function, else the snapshot is fetched first, and a window is then applied if and only if the snapshot committed and the frame was not the snapshot_required one; with none due the window is applied at once; an ack follows a committed batch, a refused batch halts |
| Client.World.ApplyAndAck | internal/sync/sync.go:189-213 | halts if and only if the database does not take the whole batch or the client does not hear of it; then the error frame names the first refused delta and carries its own SQL, and names none when no delta was refused; otherwise no error frame is sent and the last id is acked |
| Client.World.Pump | internal/sync/sync.go:133-220 | every execution is a run of the data plane; it never leaves a due snapshot alone when it has a bootstrap function and never fetches one when it has none; it ends canceled if and only if the context is, halted at its one refused batch, or disconnected with no refused batch |
| Client.World.ConnectAndPump | internal/cli/cli.go:665-733 | the same for one connection attempt, first bootstrap and revoked credentials included: no due snapshot is ever left alone |
| Client.World.RunForever | internal/cli/cli.go:632-663 | retries every disconnect and nothing else: it returns after the first fatal step, or when the context is canceled, and in no other case |
| Client.World.Run | internal/cli/cli.go:536-581 | one process: a start with the given --skip-bootstrap, then the steps of the loop, and success if and only if it was interrupted |
| Client.World.RunKilled | internal/cli/cli.go:536-581 | one process, with or without --skip-bootstrap, that is killed after any steps, inside any operation, between a commit and its flag or its ack too: it adds one start to a run of the data plane and ends down |
| Client.Operate | README.md:15-24 | after any number of processes, each ending on its own or killed at any point, with or without --skip-bootstrap: once a snapshot has committed, or --skip-bootstrap was used over a complete replica, and for a profile marked bootstrapped without it, the replica drains to the truth row by row, and as a whole while no snapshot is outstanding |
| HostSafety.MutexStep | internal/cli/host.go:260-262 | every step keeps the mutex with the one goroutine whose program counter is inside a critical section |
| HostSafety.MapStep | internal/cli/host.go:471-497 | every step keeps that a running child is the map's entry for its key or is being stopped by control |
| HostSafety.ControlStep | internal/cli/host.go:356-375 | every step keeps what control knows at each of its program points |
| HostLocks.LockStep | internal/config/lock_unix.go:12-33 | every step, unlinks and moves of lock files in use included, keeps the locks on files in one-to-one correspondence with those who hold them |
| HostExclusion.LinkStep | internal/config/lock_unix.go:12-33 | every step that takes no open lock file away from its profile keeps that whoever has a lock file open, locked or not yet, has the one that belongs to its profile |
| HostExclusion.Exclusion | internal/cli/host.go:438-493 | at no point of a run that takes no open lock file away from its profile do two holders share a profile, counting a self-exited child until its unlock |
| HostExclusion.LocksHaveHolders | internal/config/lock_unix.go:24-32 | in every run a file is locked if and only if somebody live holds the lock on it, and only one does |
| HostExclusion.UnlinkBreaksExclusion | internal/config/config.go:287-312 | the condition is exact: after every step that does take an open lock file away, a clearing or a healing between another runner's open and lock included, a few ordinary steps make two runners live on one profile |
| HostTrueUp.TrueUpStep | internal/cli/host.go:340-375 | every step keeps that children outside the assigned set are scheduled to stop, and that only assigned keys are ensured |
| HostTrueUp.RunningAreAssigned | internal/cli/host.go:340-375 | whenever control waits for a frame, every running child is assigned, is the map's child for its key, and is not cancelled |
| HostTrueUp.CancelOnlyWhenDue | internal/cli/host.go:513-538 | a child is cancelled only while its key is unassigned or by the final shutdown |
| HostTrueUp.KeepsRunning | internal/cli/host.go:249-252 | over any stretch of a run in which its key stays assigned, a child is never cancelled, lost control connections included, and stays in the map while its loop runs |
| HostTrueUp.QuitsWhenTold | internal/cli/host.go:233-292 | in every run the command ends only after an interrupt or after the server has refused the host's credential, whatever happens to the control connection |
| HostTrueUp.EnsureStarts | internal/cli/host.go:379-501 | under every interleaving, an ensure whose operations succeed, with no child and no lock in its way, leaves off with a child started for its key |
| HostTrueUp.EnsureCanStart | internal/cli/host.go:379-501 | and there is such an interleaving, eight steps of control, with the child running its loop on the profile's own lock file |
| HostProgress.NeverWaitsHolding | internal/cli/host.go:513-538 | control never waits for a child while it holds the mutex |
| HostProgress.NoDeadlock | internal/cli/host.go:482-538 | in every reachable state where control is not waiting for a frame and has not exited, control or a child that has to move can move |
| HostProgress.MeasureStep | internal/cli/host.go:482-538 | every step of the process decreases a measure over control's program and the children's exit phases |
| HostProgress.BoundedWork | internal/cli/host.go:356-375 | between two frames the process takes at most that many steps, however goroutines interleave |
| HostProgress.ShutdownEnds | internal/cli/host.go:233-235 | the shutdown takes a bounded number of steps and is never stuck before it has exited |
| HostProgress.HostLockLast | internal/cli/host.go:204-209 | the host lock is given up only after every child has finished |
| HostProgress.CleanExit | internal/cli/host.go:233-235 | in every run, after the exit only live classic runners hold profile locks, each on the file it has open |
| ManagedHost.Runner.Lock | internal/cli/host.go:380-382 | taking the mutex terminates under every interleaving |
| ManagedHost.Runner.Await | internal/cli/host.go:523 | waiting for a cancelled child terminates under every interleaving |
| ManagedHost.Runner.LockProfile | internal/config/lock_unix.go:16-33 | the lock call never waits: control holds the lock on the file it opened, or gives the profile up |
| ManagedHost.Runner.Stop | internal/cli/host.go:513-524 | afterwards the key is not in the map and no child of it runs |
| ManagedHost.Runner.Ensure | internal/cli/host.go:379-501 | starts exactly one child, for its key, unless the map has one already or an operation failed, and those cases are told apart |
| ManagedHost.Runner.Reconcile | internal/cli/host.go:356-375 | terminates; every running child is among the listed registrations; and unless an operation of an ensure failed every listed registration has had its child |
| ManagedHost.Runner.Handle | internal/cli/host.go:340-353 | the assigned set is the last list, plus assigned, minus revoked |
| ManagedHost.Runner.StopAll | internal/cli/host.go:526-538 | terminates with no child left running |
| ManagedHost.Runner.RunForever | internal/cli/host.go:262-292 | a lost control connection is dialled again: it returns permanently failed if and only if the server has refused the credential, and canceled only when interrupted |
| ManagedHost.Runner.HostRun | internal/cli/host.go:233-241 | always ends with every child finished and the host lock given up; exit code 1 if and only if the server has refused the credential, 0 only after an interrupt |
| HostEnsure.Host.Ensure | internal/cli/host.go:379-442 | claims only a claimable registration without a loadable profile; what it leaves and whether it starts are the function that the lemmas below are about |
| HostEnsure.ClaimedProfile | internal/cli/host.go:403-429 | a claim that is saved loads with the server's id, name, dialect and token and this host's server URL, not bootstrapped; its DSN is the derived one if that was saved |
| HostEnsure.UnclaimedLeavesFiles | internal/cli/host.go:386-404 | without a claim an ensure writes nothing |
| HostEnsure.StartsExactly | internal/cli/host.go:386-442 | for all registrations, files and outcomes a child starts if and only if the database is reachable and there is a DSN: with a loadable profile from before, or claimed, derived and saved now |
| HostEnsure.StartsUnlessStuck | internal/cli/host.go:403-442 | for a claimable registration an ensure in which everything succeeds starts a child if and only if the profile is not stuck |
| HostEnsure.StuckForever | internal/cli/host.go:372-437 | a stuck profile is never changed or started by any sequence of ensures, for its own and for other registrations |
| HostEnsure.GetsStuckExactly | internal/cli/host.go:410-429 | an ensure makes a profile stuck if and only if its claim paired it and no DSN was saved |
| ProfileStore.KeysAccepted | internal/config/config.go:110-115 | the accepted keys are the path elements other than dot and dot-dot, and "/" itself |
| ProfileStore.Store.MigrateLegacyLayout | internal/config/config.go:119-157 | fails exactly when one of its calls fails; leaves the first n files moved |
| ProfileStore.MovedFiles | internal/config/config.go:145-155 | what n moved files mean for every file of every profile |
| ProfileStore.MigrationPreserves | internal/config/config.go:117-157 | a completed migration makes configuration, token and DSN load under the new key and touches no other profile |
| ProfileStore.MigratesUnder | internal/config/config.go:129-143 | a completed migration is found under the database id of the older configuration, or "legacy" when it has none; an id that is no path element migrates nothing |
| ProfileStore.MigrationOverwrites | internal/config/config.go:145-155 | over an existing profile the older pairing's files win one by one |
| ProfileStore.MigratedOnce | internal/config/config.go:117-129 | after config.json has moved, nothing is left to migrate |
| ProfileStore.RerunCompletes | internal/config/config.go:117-157 | a rerun completes an interrupted migration if and only if no file had moved or none was left |
| ProfileStore.SaveThenLoad | internal/config/config.go:194-213 | a complete save is what loads next; an interrupted one over no profile loads as not paired; nobody else's profile changes |
| ProfileStore.SaveDSNThenLoad | internal/config/config.go:230-252 | the same for the DSN |
| ProfileStore.Store.RenameProfile | internal/config/config.go:287-300 | moves the directory, or removes the old one when the target exists |
| ProfileStore.Run.HealProfile | internal/cli/cli.go:758-793 | the step-by-step healing equals the function that the lemmas below are about |
| ProfileStore.HealFills | internal/cli/cli.go:758-793 | after a healing the id is the server's, name and dialect are the server's where it sends one and unchanged otherwise, URL and bootstrap flag stay, the key is the real id if and only if the move worked, and config.json says the same once saved; without an id from the server nothing changes |
| ProfileStore.HealKeepsSynced | internal/cli/cli.go:758-793 | config.json of the target's profile stays equal to the in-memory configuration, also when the move fails or collides |
| ProfileStore.HealIdempotent | internal/cli/cli.go:758-793 | after a successful healing the target runs under the real id, and healing again changes nothing |
| ProfileStore.HealRetries | internal/cli/cli.go:779-792 | the next healing makes good what failed in this one if and only if the move failed, or the save did not fail, or there was nothing to save: a save that failed after its move is not tried again by the process |
| ProfileStore.HealTouchesOnly | internal/cli/cli.go:779-792 | no other profile changes |
| ProfileStore.HealKeepsSecrets | internal/config/config.go:284-300 | on a collision the existing token and DSN stay; otherwise the old ones move along |
| EnsureDatabase.InvStep | internal/apply/ensure.go:44-175 | every statement of every caller keeps what each caller may conclude about the catalog |
| EnsureDatabase.EnsuredExists | internal/apply/ensure.go:44-120 | a call that returned no error left the database, and with a separate admin connection the role and on MySQL its grant |
| EnsureDatabase.CreatedOnce | internal/apply/ensure.go:70-119 | of any number of racing calls at most one reports the database, on PostgreSQL at most one the role, and what is reported was missing at the start |
| EnsureDatabase.RerunIsQuiet | internal/apply/ensure.go:94-101 | a call that starts when database and role exist reports neither, whatever happens around it |
| EnsureDatabase.ReportsDatabaseExactly | internal/apply/ensure.go:94-119 | in every run a call reports the database if and only if one of its own answered statements added it |
| EnsureDatabase.ReportsRole | internal/apply/ensure.go:70-92 | in every run a role that one of the call's own answered statements added is reported, and on PostgreSQL no other |
| EnsureDatabase.NoRoleWithoutAdmin | internal/apply/ensure.go:72 | without an admin connection, or when it logs in as the target user or the DSN names none, a call adds and reports no role |
| EnsureDatabase.FailsExactly | internal/apply/ensure.go:44-175 | in every run a call fails if and only if dialect or connection strings are unusable, or one of its statements was refused, lost its answer, or named an account that was not there; what already exists, or is created meanwhile, is no failure |
| EnsureDatabase.MySQLReportsTwice | internal/apply/ensure.go:154-166 | in every run on MySQL, of two calls for one user whose CREATE USER statements, if any, were answered, both report the account if and only if both were about to create it at the same moment of that run |
| EnsureDatabase.BothReportOnlyIf | internal/apply/ensure.go:154-166 | in every run in which two calls reported one account, both were about to create it at some moment of that run |
| EnsureDatabase.BothReportIf | internal/apply/ensure.go:154-166 | from every such moment both can go on to report it |
| EnsureDatabase.MySQLCanRace | internal/apply/ensure.go:154-161 | two calls for a missing account can come to that moment |
| EnsureDatabase.ReportIsRightExactly | internal/apply/ensure.go:154-166 | a reported account was added by the call's own statement if and only if no other call or session added it between the call's check and that statement |
| EnsureDatabase.OtherHostBlocks | internal/apply/ensure.go:154-172 | while an account's name exists at other hosts only and no session creates that very account at "%", no call that needs it returns without error, whatever else anybody creates |
| EnsureDatabase.AloneFailsExactly | internal/apply/ensure.go:122-175 | a MySQL call whose statements are all answered fails if and only if the name exists, but not at host "%" |
| EnsureDatabase.Server.EnsurePostgres | internal/apply/ensure.go:44-120 | the step-by-step call with everybody else interleaved returns without error only when its goal exists |
| EnsureDatabase.Server.EnsureMySQL | internal/apply/ensure.go:122-175 | the same for MySQL, grant included |
| Quoting.LexSpell | internal/apply/ensure.go:177-202 | lexing undoes printing, for every list of tokens and every payload |
| Quoting.TwoPasses | internal/apply/ensure.go:196-202 | the two replacement passes equal one map over the characters |
| Quoting.ReadsDoubled | internal/apply/ensure.go:177-189 | a body with doubled quotes is read back as the original string, up to the closing quote and no further |
| Quoting.ReadsEscaped | internal/apply/ensure.go:196-202 | the same for backslash escapes |
| Quoting.PgCreateRoleLexes | internal/apply/ensure.go:78-81 | the statement reads as its keywords, one identifier and one literal, with the original user and password |
| Quoting.PgCreateDatabaseLexes | internal/apply/ensure.go:104-107 | the same for CREATE DATABASE with its optional owner |
| Quoting.MySQLCreateDatabaseLexes | internal/apply/ensure.go:147 | the same on MySQL |
| Quoting.MySQLCreateUserLexes | internal/apply/ensure.go:162-163 | the same for CREATE USER, with the account at host "%" |
| Quoting.MySQLGrantLexes | internal/apply/ensure.go:168-169 | the same for GRANT |
| ErrorCursor.LocateInScript | internal/apply/describe.go:44-63 | the pass returns 1 plus the newlines among the preceding characters and exactly that line of the script, in which the character begins or which it ends; the last line when there is no such character |
| ErrorCursor.WidthExactly | internal/apply/describe.go:42-46 | where the UTF-8 encoding of a scalar value stands, it is the character; any other byte is a character of its own |
| ErrorCursor.RunesOfText | internal/apply/describe.go:42-46 | the characters of an encoded text are its scalar values, one each, for every text |
| ErrorCursor.RunesPartition | internal/apply/describe.go:42-46 | the characters partition the script, and a newline is a character of its own |
| ErrorCursor.LinesPartition | internal/apply/describe.go:42-63 | the lines are newline-free and join to the script |

## Left out

- HTTP, WebSocket, TLS and JSON encoding: frames are datatypes and calls have nondeterministic outcomes.
- Real SQL: E2 and E3 are the meaning of a delta and of a snapshot; a delta's SQL is a list of abstract statements.
- Ping goroutines, logging, backoff, sleeps and the flush delay: no effect on the modelled state.
- The dump of a failed snapshot, `capLine`, `DescribeError`'s extra fields: text for people.
- `DeriveDSN`, preflight probes, driver DSN parsing, flags, prompts, pairing, installers.
- `ListProfiles`, `matchProfile`, `ClearProfile`: short loops over loaded profiles, and one directory removal; unlinking a lock file by clearing is in `HostRunner`.
- lock_windows.go: the locks are those of Unix, on open files, which may be unlinked or moved meanwhile.
- Making the profile directory and opening its lock file are one step; so is moving or removing a directory.
- Atomicity inside one file-system call: each call happens or fails.
- A crash inside a transaction or call is a crash before or after it, with an unseen outcome where one is possible.
- Transactions that land, or acks that arrive, after the client has gone on with a new connection (E6).
- A managed child whose server reports another database id than its registration: children keep their key.
- Transient read errors of an existing profile, which `ensure` cannot tell from a missing one.
- The profile store maps the key "/" to an entry of its own, although it names the directory of all profiles.
- PostgreSQL's truncation of long identifiers, and strings with a zero byte, which the drivers refuse.
- `run --all`: its targets share only the process, so each is one data plane; taking their locks one after the other is not modelled.
- Fairness: that control gets its turn is not a theorem; BoundedWork and NoDeadlock say that there is always a next step and only boundedly many.
- ManagedHost.Runner.Lock: no other goroutine moves between taking the mutex and the next operation of control; HostRunner's theorems cover those interleavings too.
