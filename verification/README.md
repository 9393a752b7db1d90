# Manatee, verified

A Dafny model of the step-wise protocols of Manatee, the manager of replicated PostgreSQL shards, with proofs of what
they keep over whole runs. `dafny verify dfyconfig.toml` checks everything.

## What is modelled

**The Postgres manager** (`lib/postgresMgr.js`). `PgMachine` is a state machine. Its state is what the manager keeps in
its fields, together with the world it acts on: `postgresql.conf` and `recovery.conf` in the data directory, and the
Postgres processes with the configuration each has loaded. The pipelines of `_primary`, `_updateStandby`, `_standby`,
`_initDb`, `_restart` and `stop` are data (`Code`): trees of steps with one branch for success and one for an error. An
event is one callback of the source, so that calls, the steps of the foreground pipeline, the steps of the background
check (`_waitForStandby`) and exits of Postgres come in any order, and every step may fail. `PgManager` is the same as
an object whose fields are updated in place: its methods keep the invariant of `PgSafety` and `PgRoles`, and their
contracts say what a caller gets.

* `PgSafety` proves the claim the manager exists for: with one-node-write mode off, no process ever accepts writes
  without naming a synchronous standby, in every run and whatever the tunables file says. A pipeline is accepted by a
  small checker (`Admits`) that follows what is known about the process and the files; the real pipelines pass it.
* `PgWrites` proves when writes may begin (a primary stays read-only until a check reports its standby caught up or is
  cancelled), what a check that succeeds does, and that a cancelled check always emits its 'done'.
* `PgRoles` proves what success means for whoever called: which configuration the process runs with as primary, as
  standby, or with a new standby, and that there is none after a stop.
* `PgProgress` proves the other direction: when all goes well, each call comes to success, and with which configuration.
* `PgCrashes` proves exactly which calls, steps and exits end the manager with an uncaught exception, and that a stop is
  dangerous exactly when it leaves a background check behind. An assertion of `reconfigure` that fails is an answer to
  its caller (`IllFormed`), no crash; the assertion on a query's end belongs to `QueryQueue`.
* `PgSettings` and `ReplicationCheck` hold the computation of the settings and the polling of the standby's progress,
  with its soundness and termination. `QueryQueue` is the queue of queries with re-entrant callbacks.

**ZooKeeper coordination** (`lib/zookeeperMgr.js`, `lib/adm.js`). `ZkCoordination` has any number of managers and
commands, each with a cached state and version and with requests and replies in transit, and a server with znode
versions, atomic transactions and a sequence counter. `ClusterStates` holds the edits. `WatchLoop` follows one znode
through one-shot watches: requests and replies of a session are first in, first out, and a watch is set at the moment
of the read. `ActiveList` is the list of active peers; `ZkManager` the manager's record of it, with its data cache, its
debouncing, and several listings under way at once.

**ZFS restore** (`lib/zfsClient.js`, and its use in `_standby`). `Zfs` has datasets that own snapshots, clones with
origins, and promotion. In `ZfsRestore` other processes may change the pool before each command, each command may fail,
and the process may die at each command: what a method ensures when it dies holds at every prefix.

**Snapshot retention** (`lib/snapShotter.js`, `lib/backupSender.js`). `SnapShots` has the deletion loop with its two
counters, a creator at work at the same time, and any number of cleanups.

**Cluster-state checkers** (`lib/adm.js`). `HistoryAnnotation`, `ClusterDetails` and `Backfill`.

## What is assumed of the environment

* The reply to a committed transaction carries the state znode's new version, as `lib/zookeeperMgr.js:615` takes it to.
* The state znode is never deleted once it is there (for the statements about versions and history).
* A Postgres client's 'error' event comes only from the current client; the handler acts on the current one.
* No one listens to the 'error' event that the manager emits when Postgres exits unexpectedly, so that it ends the
  process, as `docs/test-plan.md:89` expects.
* An ephemeral node is written once, and ZooKeeper never gives the same number twice for one id.
* What other processes may do to the pool meanwhile is `Zfs.Plausible`: snapshots without a clone come and go on the
  live dataset, and a `zfs recv` that was started may create it.
* The names of backup datasets, which are random, never repeat.
* SIGHUP takes effect at once, on the file as it is on disk. A failed write may leave anything in the file. Only the
  literal value `on` counts as read-only.

## Where the code is not what it is said to be

* The documentation of `reconfigure` promises that repeating a configuration does nothing. The test for it reads a
  field that does not exist (`lib/postgresMgr.js:909`); `PgRoles.RepeatingIsANoOpOnlyForNone` says when it does nothing.
* `stop` leaves a background check running, which can then signal a process that is not there:
  `PgCrashes.StopIsDangerousExactlyWhen` says exactly when, `PgCrashes.CrashingRun` is such a run.
* A single failing `exists` can end the watch loop for good: `WatchLoop.DeafAfterFailedExists`,
  `WatchLoop.DeafExactlyWhen`, `WatchLoop.DeafForever`.
* A failed `zfs unmount` is taken to mean that nothing was mounted; if that is wrong, the data is removed:
  `ZfsRestore.LostExactlyWhen` says exactly when, `ZfsRestore.LosingRun` is such a run.
* The branch for "unable to delete any snapshots" is never reached: `SnapShots.Bounded`, ensured by
  `SnapShots.SnapShotter.Cleanup`.
* A null sync makes `loadErrors` throw in normal mode, and `annotateHistoryNode` on a raised generation: both are
  outcomes of the model (`threw`, and `Throws` with `HistoryAnnotation.ThrowsExactlyWhen`).

## Model

| member | source | states |
|---|---|---|
| `PgSafety.AlwaysSafe` | lib/postgresMgr.js:608-1402 | In every run with one-node-write mode off, every process (also one whose handle was lost) is in recovery, or read-only, or its `synchronous_standby_names`, read as Postgres reads it, lists a name that is not empty; at most one background check is alive, and `_transitionFunc` is that check or null |
| `PgSafety.NextKeeps` | lib/postgresMgr.js:879-1402 | Every single event, with every possible failure, keeps the invariant behind it |
| `PgSafety.PerformTeaches` | lib/postgresMgr.js:1026-1402 | What the checker takes each step of a pipeline to establish, on success or failure, does hold of the files and the process |
| `PgSafety.RefusedWhileTransitioning` | lib/postgresMgr.js:612-614 | While a pipeline is in progress every call is refused and changes nothing |
| `PgSafety.PrimaryAdmitted` | lib/postgresMgr.js:1026-1097 | `_primary` with `_initDb` and `_restart` in line begins by cancelling, and starts Postgres only with what makes that safe, on every path |
| `PgSafety.UpdateStandbyAdmitted` | lib/postgresMgr.js:1108-1173 | The same for `_updateStandby`: what SIGHUP makes Postgres load is read-only |
| `PgSafety.StandbyAdmitted` | lib/postgresMgr.js:1195-1402 | The same for `_standby` with its restore and roll-back: Postgres is started only with a recovery.conf |
| `PgSafety.BackgroundDoneKeeps` | lib/postgresMgr.js:997-1013 | The end of a background check, which resumes a canceller, keeps the invariant |
| `PgWrites.PrimaryStaysReadOnly` | lib/postgresMgr.js:1026-1173 | After a start or reconfiguration completed as primary over a downstream, exactly the check for that downstream is alive, and no process accepts writes until a check reports its standby caught up or is cancelled |
| `PgWrites.SucceedsByWatching` | lib/postgresMgr.js:1072-1081 | Becoming primary over a downstream can only succeed by starting the check for it |
| `PgWrites.CatchUpNamesStandby` | lib/postgresMgr.js:977-1015 | A check that reports success, as it does exactly on a reply that shows sent = flush, leads to a process whose `synchronous_standby_names` lists exactly that standby; it is read-only only if the shipped file or the tunables say so; without a process the manager crashes |
| `PgWrites.DoneEndsWait` | lib/postgresMgr.js:1037-1043 | When the awaited check is done, whoever waited goes on |
| `PgWrites.CheckFollowsReplies` | lib/postgresMgr.js:2153-2235 | Replies that are not decisive change nothing but the check's own record, which is that of the polling loop |
| `PgCrashes.CrashesExactlyWhen` | lib/postgresMgr.js:1653-1698 | An event crashes the manager exactly if SIGHUP is to be sent and there is no process (2029-2037), or a running primary is reconfigured as primary without a downstream (922-927), or Postgres exits while neither a start nor a stop waits for it and the listener of its start is still there |
| `PgCrashes.StopIsDangerousExactlyWhen` | lib/postgresMgr.js:649-677 | After a stop, the manager can crash before any process appears again, and without any check reporting success, exactly if a background check was alive when `stop` was called |
| `PgCrashes.StartAfterStopCrashes` | lib/postgresMgr.js:1036-1043 | The ordinary way: a start after such a stop cancels the check, which goes on to name its standby and to signal a process that is not there |
| `PgCrashes.CancelWaits` | lib/postgresMgr.js:1037-1043 | A pipeline that begins by cancelling comes to wait for the check that is alive |
| `PgCrashes.CrashingRun` | lib/postgresMgr.js:608-1097 | A whole run from a new manager: start as primary, stop, start, crash |
| `PgCrashes.FailedStopIsNotHeard` | lib/postgresMgr.js:1446-1478 | After a stop that failed Postgres may end unnoticed: no crash, and the manager goes on taking the process for alive |
| `PgCrashes.FailedStartIsNotHeard` | lib/postgresMgr.js:1653-1722 | So after a start that failed: there is a process just when it was left alive, and its exit is not heard |
| `PgCrashes.ExitEndsStop` | lib/postgresMgr.js:1448-1456 | An exit while a stop waits is no crash, and the stop succeeds |
| `PgWrites.CancelEnds` | lib/postgresMgr.js:959-1016 | Whoever waits for a cancelled check waits for at most three more of its steps, whatever else happens |
| `PgWrites.AwaitedComesNearer` | lib/postgresMgr.js:962-1013 | No event sets a cancelled check back, and each of its own steps brings it nearer to its end |
| `PgRoles.SuccessReachesTheGoal` | lib/postgresMgr.js:608-1402 | In every run, of a call that is answered with success: who became primary by a start, promotion or full reconfiguration runs read-only without recovery.conf; a primary whose standby was changed is read-only and names the new one; a standby runs with recovery.conf and `synchronous_commit` off; who stopped has no process |
| `PgRoles.StandbyDelivers` | lib/postgresMgr.js:1195-1402 | Every path of `_standby` to success starts Postgres on both files written by it |
| `PgRoles.PrimaryDelivers` | lib/postgresMgr.js:1026-1097 | Every path of `_primary` to success starts Postgres read-only, after recovery.conf is gone |
| `PgRoles.UpdateDelivers` | lib/postgresMgr.js:1108-1173 | Every path of `_updateStandby` to success has made Postgres load a read-only file that names the standby |
| `PgRoles.EndingAnswers` | lib/postgresMgr.js:632-639 | Whatever event ends a pipeline answers the call it belongs to, and lets the next one in; and what the manager remembers then is what the answer says: a successful start runs, a successful stop does not, a successful reconfiguration has stored its configuration |
| `PgRoles.UpdatesPrevail` | lib/postgresMgr.js:2045-2049 | No tunable and no shipped setting undoes what the role demands |
| `PgRoles.RepeatingIsANoOpOnlyForNone` | lib/postgresMgr.js:907-919 | Repeating the configuration in force does nothing exactly for role 'none'; otherwise a pipeline begins, or the manager crashes |
| `PgProgress.StartCanSucceed` | lib/postgresMgr.js:608-640 | A start that is not refused can succeed, by steps that all work: Postgres then runs with exactly the configuration of its role over tunables and shipped file, a primary's standby is being watched, and nothing else changes |
| `PgProgress.ReconfigureCanSucceed` | lib/postgresMgr.js:739-943 | So can a reconfiguration to another role, or of a standby; the new configuration is then the one in force |
| `PgProgress.ChangeCanSucceed` | lib/postgresMgr.js:1108-1173 | So can a primary's change of standby, without a restart: the process has loaded a file that names the new one |
| `PgProgress.StopCanSucceed` | lib/postgresMgr.js:649-677 | So can a stop: there is no process then, and the configuration is remembered |
| `PgProgress.RememberedIsStarted` | lib/postgresMgr.js:764-768 | A configuration given while nothing runs changes nothing else; a start after it runs Postgres in its role |
| `PgProgress.NoneLeavesPostgresAlone` | lib/postgresMgr.js:739-943 | The role 'none' is taken on at once, and Postgres, files and checks are left alone |
| `PgProgress.ChainsAreWellFormed` | lib/postgresMgr.js:739-759 | What `reconfigure` takes for any place in a replication chain: the primary with the peer after it, any other with the peer before it; in one-node-write mode a primary must be alone |
| `PgProgress.WellFormedComeFromChains` | lib/postgresMgr.js:739-759 | It takes no other configurations |
| `PgMachine.Finish` | lib/postgresMgr.js:632-639 | The end of a pipeline answers the call and leaves Postgres, files and checks alone |
| `PgMachine.BackgroundDone` | lib/postgresMgr.js:1076-1079 | 'done' clears `_transitionFunc` and leaves Postgres and the files alone |
| `PgManager.PostgresMgr.constructor` | lib/postgresMgr.js:244-400 | A new manager is an initial state of the machine and satisfies the class invariant |
| `PgManager.PostgresMgr.Start` | lib/postgresMgr.js:608-640 | A start that is refused changes nothing; it is refused while another call is in progress; one that is not refused touches no process or file yet, and is on its way to the goal of its role |
| `PgManager.PostgresMgr.Stop` | lib/postgresMgr.js:649-677 | The same for a stop, whose goal is that there is no process |
| `PgManager.PostgresMgr.Reconfigure` | lib/postgresMgr.js:739-943 | One that is ill-formed or refused changes nothing; while nothing runs it is only remembered; one that is begun is on its way to the goal of its role; it crashes exactly on a running primary without a downstream |
| `PgManager.PostgresMgr.ReadTunables` | lib/postgresMgr.js:507-540 | Copying one section of the file over the other gives the options that `EffectiveSetting` speaks of |
| `PgManager.PostgresMgr.UpdatePgConf` | lib/postgresMgr.js:2045-2049 | In the file written, a setting comes from the role's updates, else from the tunables, else from the shipped file |
| `PgManager.PostgresMgr.SetAll` | lib/postgresMgr.js:2063-2099 | Setting the keys one after the other, in any order, gives the shipped file overwritten by the options |
| `PgManager.PostgresMgr.Handle` | lib/postgresMgr.js:608-1402 | Each event keeps the class invariant: no unconfirmed writes; a call in progress keeps others out; and if the event answers the call with success, what the call is for has been brought about |
| `PgManager.PostgresMgr.Serve` | lib/postgresMgr.js:608-1402 | The object, over any series of events, follows the machine's run and is safe |
| `PgSettings.EffectiveSetting` | lib/postgresMgr.js:507-540 | A setting's value is the first defined among role update, full version, major version, common, built-in default, shipped file |
| `PgSettings.FormattedIsListed` | lib/postgresMgr.js:173-180 | The value written for a standby, read as Postgres reads it, lists exactly that name |
| `ReplicationCheck.XlogComparePosition` | lib/postgresMgr.js:2292-2304 | The comparison of two locations is that of the byte positions they stand for |
| `ReplicationCheck.StopMeansCaughtUp` | lib/postgresMgr.js:2241-2315 | A status says stop exactly if the row is complete, both locations are valid, and sent = flush |
| `ReplicationCheck.CheckRepl` | lib/postgresMgr.js:2153-2235 | The polling loop gives the outcome of following the replies, and consumes no reply after the decisive one; which reply is decisive is said by the next three |
| `ReplicationCheck.CaughtUpIsExact` | lib/postgresMgr.js:2204-2214 | A poll ends the check with success exactly if its reply shows the standby caught up |
| `ReplicationCheck.TimedOutIsExact` | lib/postgresMgr.js:2171-2223 | A poll ends it without success exactly if its reply is not an error and does not show that, and the timeout has passed since the flush location last exceeded the maximum, this reply included |
| `ReplicationCheck.CaughtUpIsReported` | lib/postgresMgr.js:2153-2235 | However the log moves between polls: the first reply that shows the standby caught up, if the check still goes on, ends it with success |
| `ReplicationCheck.CaughtUpIsSound` | lib/postgresMgr.js:2204-2214 | 'done' without a cancel means that the last reply showed sent = flush |
| `ReplicationCheck.TimedOutIsSound` | lib/postgresMgr.js:2171-2223 | 'error' means that for longer than the timeout no query failed and no flush location exceeded the maximum seen |
| `ReplicationCheck.CheckTerminates` | lib/postgresMgr.js:2153-2235 | Without query errors, with bounded locations and an advancing clock, the check ends within an explicit number of polls |
| `QueryQueue.Queue.Kick` | lib/postgresMgr.js:1917-1952 | The next query is issued only if none is outstanding; the pending ones and their order stay |
| `QueryQueue.Queue.Submit` | lib/postgresMgr.js:2009-2024 | The new request comes last, and an outstanding one stays |
| `QueryQueue.Queue.Fini` | lib/postgresMgr.js:1981-2007 | Exactly the outstanding request's callback is made, what it submits comes last, and the next one is issued |
| `QueryQueue.Queue.OnClientError` | lib/postgresMgr.js:1939-1948 | A client error finishes the outstanding request, or only drops the client |
| `QueryQueue.Queue.OnQueryError` | lib/postgresMgr.js:1961-1973 | A second error for a finished request changes nothing |
| `QueryQueue.Queue.OnQueryEnd` | lib/postgresMgr.js:1975-1978 | The end of a query finishes it; for any request but the outstanding one the assertion fails |
| `QueryQueue.Queue.Serve` | lib/postgresMgr.js:1917-2024 | Over any events: exactly the submissions pending first are answered, as each event demands, until an assertion fails; callbacks are made once each and in the order of submission, at most one request is outstanding, and some are queued only behind it |
| `QueryQueue.EndsAreAnswered` | lib/postgresMgr.js:1917-2024 | While the queries end one after the other, each pending request, however many, gets its callback without an error, in order |
| `ZkCoordination.NoUpdateIsLost` | lib/zookeeperMgr.js:603-628 | For all interleavings: each cached pair was really held by the server, and each committed write replaced exactly what its writer had read |
| `ZkCoordination.StateIsReplay` | lib/adm.js:128-159 | The server's state is the outcome of all committed edits, one after the other |
| `ZkCoordination.FreezeSurvives` | lib/adm.js:1044-1066 | A committed freeze lasts until someone unfreezes the shard, or a manager that has read it replaces the state |
| `ZkCoordination.CacheNeverGoesBack` | lib/zookeeperMgr.js:387-407 | However reads, commits and lost connections overlap, the cached version never falls |
| `ZkCoordination.ReadingCatchesUp` | lib/zookeeperMgr.js:387-407 | Whoever reads comes to know what the server holds |
| `ZkCoordination.KnowingIsEnough` | lib/zookeeperMgr.js:603-628 | Whoever knows what the server holds, or that it holds nothing, gets an edit through: the server then holds the edited state at the next version, with one more history node, and a manager knows it |
| `ZkCoordination.NotKnowingIsRefused` | lib/zookeeperMgr.js:603-628 | Whoever knows another version, or takes there to be none, is refused, and nothing changes |
| `ZkCoordination.LoneManagerGetsThrough` | lib/zookeeperMgr.js:603-628 | A manager that writes alone gets any number of states through, one after the other |
| `ZkCoordination.NewcomerGetsThrough` | lib/adm.js:128-159 | A command that connects, reads and edits gets its edit through, if nobody comes in between |
| `ZkCoordination.LostInTransit` | lib/zookeeperMgr.js:603-628 | What is in transit when a connection breaks and has not reached the server is not executed, and no answer comes; what was known before is kept |
| `ZkCoordination.HistoryIsTheCommits` | lib/adm.js:1718-1734 | The history, listed in any order and sorted by sequence number, is exactly the committed states in order; the last is the current state, and there is one more of them than its version |
| `Sequences.SortIsUnique` | lib/adm.js:1722-1734 | Sorting by distinct numbers has one outcome only |
| `ClusterStates.FreezeUndone` | lib/adm.js:1044-1094 | Freezing works just when the shard is not frozen and records what was given, unfreezing just when it is, and gives back the state before |
| `ClusterStates.EditsKeepTheRest` | lib/adm.js:1044-1199 | No command touches the topology, the generation or the WAL position, and each leaves the other commands' fields alone |
| `ClusterStates.ReapTakesOne` | lib/adm.js:1108-1125 | Reaping removes exactly one peer, one that is named by zone or address (an empty option names nobody); it fails only if none is |
| `ClusterStates.UndeposeTakesOne` | lib/adm.js:1344-1360 | A rebuild takes exactly one peer of that zone off the list of the deposed; nothing is written only if there is none |
| `ClusterStates.LastMatch` | lib/adm.js:1109-1115 | Of several matches the last one is taken |
| `ClusterStates.OnwmUndone` | lib/adm.js:1148-1190 | Setting the mode on or off is refused exactly if it is so already, cannot be done twice, and is undone by the opposite command (unless the mode was false before) |
| `ClusterStates.StateObject.FreezeIt` | lib/adm.js:1048-1058 | What was frozen in place can be thawed to just what it was, and no one else can freeze it meanwhile; a refusal changes nothing |
| `ClusterStates.StateObject.Unfreeze` | lib/adm.js:1079-1085 | Thawing takes back one freeze, and cannot be done twice; a refusal changes nothing |
| `ClusterStates.StateObject.ReapIt` | lib/adm.js:1108-1125 | The loop finds the last match, and only that one is spliced out; without any list it throws |
| `ClusterStates.StateObject.SetOnwmTo` | lib/adm.js:1148-1190 | After the edit in place the same command is refused, and the opposite one gives the former state back (unless the mode was false before) |
| `ClusterStates.StateObject.RemoveFromDeposed` | lib/adm.js:1344-1360 | The rebuilt node leaves the list of the deposed |
| `WatchLoop.NeverDeaf` | lib/zookeeperMgr.js:213-262 | While `exists` does not fail after the initial callback, whatever else fails and however often sessions are set up anew: always a watch is set, an event or request is in transit, or a retry is pending |
| `WatchLoop.SettlesOnTheTruth` | lib/zookeeperMgr.js:213-262 | At rest a watch is set, and what was delivered last is what the node holds, if it exists |
| `WatchLoop.SettlesInTime` | lib/zookeeperMgr.js:213-262 | Once changes, failures and lost sessions cease, the steps left are at most an explicit number, in any order; there is none left exactly at rest, and then the last delivery is what the node holds |
| `WatchLoop.DeafAfterFailedExists` | lib/zookeeperMgr.js:234-242 | A run in which one failing `exists` leaves the client with an outdated state and no watch |
| `WatchLoop.DeafExactlyWhen` | lib/zookeeperMgr.js:226-254 | In any run, a step makes the loop deaf exactly if a failing `exists` after the initial callback was all that would have set a watch |
| `WatchLoop.DeafForever` | lib/zookeeperMgr.js:217-225 | Once deaf and at rest, nothing is ever delivered again in that session |
| `WatchLoop.FailedGetIsRetried` | lib/zookeeperMgr.js:243-250 | After the initial callback a read that fails is made again, with a watch |
| `WatchLoop.FailedSetUpStartsOver` | lib/zookeeperMgr.js:239-242 | Before it, it leads back to where a new session begins; one that works hands the content over and leaves a watch |
| `ActiveList.ParseAndUniqueActives` | lib/zookeeperMgr.js:184-200 | One entry for each id, strictly sorted by id, each one of the listed nodes, and every node has an entry that is no older |
| `ActiveList.UniqueListHasTheIds` | lib/zookeeperMgr.js:184-200 | Exactly the ids of the listed nodes |
| `ActiveList.UniqueListHasTheHighest` | lib/zookeeperMgr.js:193-195 | Each entry has the highest number of its id |
| `ActiveList.OrderDoesNotMatter` | lib/zookeeperMgr.js:184-200 | The list depends on which nodes there are, not on their order |
| `ActiveList.FilterIsIdempotent` | lib/zookeeperMgr.js:184-200 | The list made of the list's own names is that list |
| `ActiveList.NamesParseBack` | lib/zookeeperMgr.js:186-192 | The names of the entries parse to the entries |
| `ActiveList.NameParses` | lib/zookeeperMgr.js:186-192 | An id (with hyphens or without), a hyphen and digits, as ZooKeeper makes it, parses to the id and the number |
| `ActiveList.DigitsParse` | lib/zookeeperMgr.js:188 | `parseInt` of digits is their number, whatever other characters follow |
| `ActiveList.IdListsEqual` | lib/zookeeperMgr.js:275-298 | The loop decides the equality of the id lists |
| `ActiveList.EntryByEntryDecidesSets` | lib/zookeeperMgr.js:275-298 | For lists as they are kept, comparing entry by entry decides the equality of the id sets |
| `ZkManager.CachedDataIsTrue` | lib/zookeeperMgr.js:334-374 | Whatever joins, leaves, fails and overlaps: each peer kept or reported has the data its node was created with |
| `ZkManager.CacheIsTransparent` | lib/zookeeperMgr.js:336-355 | While every node of a listing can be read when its data is fetched, keeping data and reading every node every time give the same lists and reports |
| `ZkManager.HitIsTheNode` | lib/zookeeperMgr.js:346-348 | What the cache finds by id and number is the very node |
| `ZkManager.ReportsFollowTheIds` | lib/zookeeperMgr.js:373-377 | From 'init' on, the ids reported last are those of the active list; no report has the id set of the one before it |
| `ZkManager.ReportedJustWhenChanged` | lib/zookeeperMgr.js:373-377 | A list is reported just when the id set of the active list changes |
| `ZkManager.ListingArrives` | lib/zookeeperMgr.js:366-377 | A listing whose data is all there becomes the active list |
| `ZkManager.ActiveIsKnown` | lib/zookeeperMgr.js:336-348 | A peer of the active list that is listed again with the same number is not read again |
| `ZkManager.ActiveFollowsTheListing` | lib/zookeeperMgr.js:334-377 | Once a listing has come and its data is read, the ids of the active list are exactly those listed, and a manager that is set up has reported them last |
| `ZkManager.ZookeeperMgr.OnList` | lib/zookeeperMgr.js:334-342 | The listing is reduced to one node per id, and the data known at that moment is remembered |
| `ZkManager.ZookeeperMgr.OnData` | lib/zookeeperMgr.js:343-384 | With all data there the listing becomes the active list, and is reported unless the ids are the same; with a read failed nothing changes |
| `ZkManager.ZookeeperMgr.EmitInit` | lib/zookeeperMgr.js:490-496 | However often a session is set up, 'init' is reported once, and afterwards what was reported last has the ids of the active list |
| `ZkManager.ZookeeperMgr.HandleClusterState` | lib/zookeeperMgr.js:387-407 | The cache becomes what was read, as a session of the coordination model receives it |
| `ZkManager.ZookeeperMgr.PutClusterState` | lib/zookeeperMgr.js:619-627 | The transaction is for this state over what the manager has cached, which makes it the coordination model's: create, or set at the version last seen |
| `ZkManager.ZookeeperMgr.OnPut` | lib/zookeeperMgr.js:610-617 | The cache becomes what was committed; a refused transaction leaves it |
| `ZfsRestore.ZfsClient.StandbyByRestore` | lib/postgresMgr.js:1257-1385 | At every prefix, unless Postgres has restarted on the received data: the former contents are held by the live or the backup dataset, and if the backup is gone they are the live contents. Where the backup's names are new and no dataset is a clone of either: if a command of the restore breaks once the backup is made, or Postgres does not restart on the received data, and the roll-back then goes undisturbed, the former contents are live again and the backup is gone. If all works and the stream arrives, it succeeds |
| `ZfsRestore.ZfsClient.Conclude` | lib/postgresMgr.js:1330-1385 | After any restore that has returned: if it failed, or changing the owner or restarting Postgres does, an undisturbed roll-back makes the former contents live and removes the backup; if all works, Postgres is restarted and the backup removed |
| `ZfsRestore.RestartCanBreakOff` | lib/postgresMgr.js:1359-1372 | There are such runs from every pool without a dataset of the backup's name and without clones of the two: the stream arrives, Postgres does not restart on it, the roll-back goes undisturbed |
| `ZfsRestore.Try` | lib/postgresMgr.js:1279-1385 | `_standby` in one life of the manager touches no dataset but the live one and its own backup, wherever it ends; it succeeds only with Postgres restarted, and does if the commands work, or if the configuration cannot be written but the restore goes well |
| `ZfsRestore.RestoreRepeatedly` | lib/postgresMgr.js:1279-1385 | Over any number of attempts, each ending anywhere: if the first does not restart Postgres, the former contents are then live still or saved in its backup, and what is saved stays saved through all later attempts; so does what was saved before the first |
| `ZfsRestore.ZfsClient.Restore` | lib/zfsClient.js:121-201 | Once it returns, successful or not, the backup owns the snapshot of the former contents, and nothing is in the way of going back to it; at every earlier point they are held; its commands are run in order up to the first that does not work; it succeeds if they work and the stream arrives |
| `ZfsRestore.ZfsClient.BackupDataset` | lib/zfsClient.js:443-506 | The backup comes to own the snapshot; until then the live dataset is as it was; an error is never reported (stuck); undisturbed it comes to just the pool of a snapshot, a clone and a promotion |
| `ZfsRestore.ZfsClient.PromoteBackup` | lib/zfsClient.js:475-490 | Promotion hands the snapshot over, and the clone keeps it from being destroyed until then; nothing is in the way of going back then |
| `ZfsRestore.ZfsClient.Receive` | lib/zfsClient.js:647-782 | Whatever fails, the backup stays as it is and one can go back to it; undisturbed until `zfs recv` is through, the live dataset is what that has made |
| `ZfsRestore.ZfsClient.RestoreDataset` | lib/zfsClient.js:212-302 | At every prefix the former contents are held, and if the backup is gone they are the live contents; success means that it is gone and that the dataset is mounted; undisturbed it succeeds |
| `ZfsRestore.ZfsClient.PromoteLive` | lib/zfsClient.js:242-246 | Promotion hands the snapshot over to the live dataset; until then the backup owns it |
| `ZfsRestore.ZfsClient.ReplaceBackup` | lib/zfsClient.js:242-252 | The backup is destroyed only when the live dataset has the former contents and owns their snapshot |
| `ZfsRestore.ZfsClient.AssertDataset` | lib/zfsClient.js:313-419 | For every outcome, what the contents are afterwards: as before, unless the removal of files is reached while the dataset is still mounted; a success never hides a loss; if the commands work it succeeds |
| `ZfsRestore.LostExactlyWhen` | lib/zfsClient.js:354-404 | The contents are lost exactly if the dataset was mounted, unmounting failed, the commands up to the removal worked, and the removal worked or broke off leaving something else |
| `ZfsRestore.AtRiskExactlyWhenMounted` | lib/zfsClient.js:354-404 | What a caller can know beforehand: whatever the commands come to, nothing is lost, exactly if the dataset is not mounted |
| `ZfsRestore.LosingRun` | lib/zfsClient.js:354-404 | A run in which a dataset that cannot be unmounted loses its contents, and the call does not succeed |
| `ZfsRestore.ZfsClient.Exec` | lib/zfsClient.js:121-302 | A command finds the pool as others have made it; one that succeeds has ZFS's effect on that, one that fails has none |
| `ZfsRestore.PromotedSetsFree` | lib/zfsClient.js:234-251 | With the live dataset promoted, nothing keeps the backup from being destroyed |
| `Zfs.PromoteHandsOver` | lib/zfsClient.js:486-490 | A promoted clone owns the snapshot it came from, with the same image |
| `Zfs.ClonedSnapshotStays` | lib/zfsClient.js:443-506 | The snapshotter cannot remove a snapshot that has a clone |
| `Zfs.OriginsStay` | lib/zfsClient.js:121-302 | Whatever command is accepted, every clone still has its origin snapshot, also when a promotion moves it |
| `SnapShots.SnapShotter.Cleanup` | lib/snapShotter.js:172-402 | The listed snapshots are tried oldest first; each one tried is deleted or recorded as stuck; nothing else goes; the counters obey the bounds; the branch for having deleted nothing is never taken; without creation meanwhile, exactly those not deleted are left |
| `SnapShots.SnapShotter.DeleteSnapshots` | lib/snapShotter.js:243-373 | The same for the loop over the listing, with a creator at work |
| `SnapShots.SnapShotter.List` | lib/snapShotter.js:180-241 | Exactly the names of 13 digits, in order; the others are counted |
| `SnapShots.SnapShotter.Create` | lib/snapShotter.js:414-442 | A new snapshot comes last; an existing name changes nothing |
| `SnapShots.SnapShotter.constructor` | lib/snapShotter.js:86-87 | A number of 0 or none stands for 10 |
| `SnapShots.FinishedLeaves` | lib/snapShotter.js:256-348 | At least the number to keep survives; ending without an error leaves exactly that number if the excess is at most one more, else at most the larger of it and the excess less one |
| `SnapShots.OldestGo` | lib/snapShotter.js:243-373 | If every attempt succeeds, exactly the oldest are deleted, and as many of the newest stay as there are to keep |
| `SnapShots.NewestUntouched` | lib/snapShotter.js:272-348 | All but the oldest 2e - 1 are not even tried |
| `SnapShots.OlderSurvivorsAreStuck` | lib/snapShotter.js:285-300 | A survivor older than a deleted snapshot is recorded as stuck |
| `SnapShots.Daemon` | lib/snapShotter.js:117-388 | Over any number of cleanups with creation at any time, killed anywhere: once there are as many as to keep, there always are; other names are never deleted; after a last cleanup without failures and creation there are no more than to keep |
| `SnapShots.GetLatestSnapshot` | lib/backupSender.js:245-289 | The snapshot chosen has the highest time of all; none is chosen only if there is none |
| `SnapShots.NameOrderIsNumberOrder` | lib/backupSender.js:250-269 | Between names of 13 digits the order by name is the order by time |
| `HistoryAnnotation.AnnotateHistory` | lib/adm.js:1736-1740 | Each entry gets the comment on it and the one before |
| `HistoryAnnotation.CommentIsExact` | lib/adm.js:1877-1957 | A comment is no error (and nothing is thrown) exactly if the step is legal: same leaders and generation, a takeover by the sync, a new sync, or leaving singleton mode |
| `HistoryAnnotation.ThrowsExactlyWhen` | lib/adm.js:1929-1950 | A null sync is dereferenced exactly on a raised generation under the same primary in the same mode, when there is no sync now, or there was none before in singleton mode |
| `HistoryAnnotation.ThrowingHistory` | lib/adm.js:1941-1944 | Two entries that make it throw |
| `HistoryAnnotation.NoChangeIsExact` | lib/adm.js:1959-1996 | The comment is empty exactly if freeze, asyncs and deposed peers are the same |
| `HistoryAnnotation.ChangesAreExact` | lib/adm.js:1959-1996 | Each kind of change is reported exactly if it has happened: frozen or not any more, which peers joined and left the asyncs and the deposed |
| `HistoryAnnotation.LeadersAreNamed` | lib/adm.js:1909-1957 | A comment on leaders names the right peers |
| `HistoryAnnotation.ErrorsAreExact` | lib/adm.js:1900-1957 | Which error is reported, when several apply |
| `HistoryAnnotation.CommandsShow` | lib/adm.js:1904-1965 | How the commands show in the history: a freeze with its reason, a thaw, leaving one-node-write mode; entering it shows as an error |
| `HistoryAnnotation.NothingTwice` | lib/adm.js:1966-1992 | No change is reported twice, even where a peer is listed twice |
| `HistoryAnnotation.GenerationsGrow` | lib/adm.js:1900-1902 | In a history without errors, generations never fall |
| `HistoryAnnotation.SingletonNeverEntered` | lib/adm.js:1904-1907 | Whoever is in singleton mode has been in it from the beginning |
| `HistoryAnnotation.SingletonLeftOnce` | lib/adm.js:1904-1912 | Singleton mode is left at most once |
| `HistoryAnnotation.GenerationDeterminesLeaders` | lib/adm.js:1900-1957 | Within one mode any two entries of one generation, however far apart, have the same primary and sync |
| `HistoryAnnotation.PrimaryChangePromotesSync` | lib/adm.js:1914-1927 | A change of primary raises the generation and promotes the sync of the entry before |
| `HistoryAnnotation.OnePrimaryPerGeneration` | lib/adm.js:1914-1927 | Within one mode no generation has two primaries |
| `ClusterDetails.VerificationIsExact` | lib/adm.js:871-981 | In normal mode nothing is reported exactly if primary and sync can be queried, nobody is deposed, there is an async, and each peer of the chain streams to the next, 'sync' first and 'async' after |
| `ClusterDetails.SingletonVerificationIsExact` | lib/adm.js:876-888 | In singleton mode nothing is reported exactly if the primary can be queried and there is no other peer |
| `ClusterDetails.ErrorsAre` | lib/adm.js:871-909 | Just which errors are reported |
| `ClusterDetails.WarningsAre` | lib/adm.js:891-924 | Just which warnings are given |
| `ClusterDetails.LinkProblemsAre` | lib/adm.js:926-981 | Just which problems of one link are reported, with which peers and addresses |
| `ClusterDetails.ErrorsAreAboutPrimaryAndSync` | lib/adm.js:871-909 | The errors depend only on the entries of primary and sync |
| `ClusterDetails.AsyncProblemsAreExact` | lib/adm.js:913-923 | The loop over the asyncs reports nothing exactly if each streams to the next |
| `ClusterDetails.ReplProblemsAreExact` | lib/adm.js:926-981 | One link is without a problem exactly if it streams to the right address with the right kind |
| `ClusterDetails.ManateeClusterDetails.constructor` | lib/adm.js:756-819 | Every peer that the state names is loaded, a later entry for one id overwriting an earlier one |
| `ClusterDetails.ManateeClusterDetails.LoadErrors` | lib/adm.js:871-924 | It throws exactly in normal mode without a sync, and otherwise pushes exactly the errors and warnings, in order |
| `ClusterDetails.ManateeClusterDetails.LoadReplErrors` | lib/adm.js:926-981 | The problems of one link are pushed onto the one list or the other |
| `Backfill.LegacyState.constructor` | lib/adm.js:222-304 | For the children listed in any order, and their data arriving in any order: the nodes get their places by the rank of the numbers in their names |
| `Backfill.LegacyState.Rearrange` | lib/adm.js:1247-1261 | The last async becomes the sync, and the sync the last async |
| `Backfill.PeersConserved` | lib/adm.js:1247-1261 | Every node of the listing has exactly one place afterwards, for any number of nodes |
| `Backfill.RanksAfterBackfill` | lib/adm.js:223-304 | For any listing of three nodes or more, in any order: the lowest number is primary, the highest is sync, the lowest but one (the former sync) is the last async, and the others are in order |
| `Backfill.ListingOrderDoesNotMatter` | lib/adm.js:223-228 | With distinct numbers the ranks do not depend on the order of the listing |

## Left out

- PgSafety.AlwaysSafe: says nothing about one-node-write mode, whose purpose is to accept writes without a standby.
- ZkCoordination.HistoryIsTheCommits: sorting by time, which is used when entries of Manatee 1.0 are there, is not modelled.
- PgSettings.FormattedIsListed: how Postgres reads a name that itself contains quotation marks is not modelled, nor are lists of several names, which the manager never writes.
- ActiveList.BlanksDoNotCount: the character U+180E, which Unicode took for white space until version 6.3, is not taken for it here.
- ActiveList.ParseAndUniqueActives: ids that are names of built-in properties of objects are not modelled, nor is the rounding of numbers above 2^53.
- Backfill.LegacyState.Rearrange: the fields of the new state that do not depend on the peers (generation 0, initial WAL position, freeze) are not modelled.
- Backfill.LegacyState.constructor: is for names that end in a number, as ZooKeeper makes them; where one does not, the order of the original's sort is up to its library. A failing read ends the command.
- SnapShots.GetLatestSnapshot: works on the names after the `@`.
- HistoryAnnotation.ChangesAreExact: the wording of the comments, in which zones are cut to eight characters, is not modelled.
- HistoryAnnotation.CommentIsExact: one-node-write mode counts if it is true; other truthy values are not modelled.
- ZfsRestore.ZfsClient.Receive: the stream itself, its sockets and polling are one command that succeeds or fails.
- A Postgres process that SIGKILL did not end, whose exit is then not heard of, counts as alive, as it does for the manager.
- The role 'none' while Postgres runs leaves it running, as in the code; nothing more is claimed.
- Answers given at once, without a pipeline, are not recorded.
- Setting values are strings; booleans and numbers in the tunables file are taken as their text.
- Versioned paths, symbolic links and binaries (`getVersionInfo`, `resolveVersionedPaths`), apart from the tunables.
- Health checks and their events, apart from their part in a restart.
- The state machine that decides on roles is not part of this model.
- Session expiry and re-initialisation of the ZooKeeper client, apart from what they mean for `WatchLoop` and `ZkCoordination`; JSON.
- The massaging of peer urls in the getter `active`.
- The tables that `status` and the other commands print, prompts, and service commands of `rebuild`.
- `lib/confParser.js`, whose reader is not part of this model; `lib/statusServer.js`, `lib/backupServer.js`, `lib/shard.js`, the mains.
- `lib/backupQueue.js`: documented as first in, first out, but `pop` takes the newest, and nothing calls it.
