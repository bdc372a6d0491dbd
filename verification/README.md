# selfcloud, verified model

A Dafny model of the stateful cores of selfcloud, a single-binary self-hosted cloud: the keyed
store and its event log, the raft state machine over that store, the container reconciler, the
git builder, the event bus, the webhook dispatcher, the Firecracker frame protocol and the
function runtimes' recovery after a restart.

Methods that change state are proved against functions on values (`Stores.PutScopedEffect`,
`Fsm.ApplyEntry`, `Containers.Pass`, `LogStreams.Append`, ...); the theorems are then lemmas about
those functions, over whole runs wherever the source runs forever. Concurrent parts are machines
of atomic steps in which a lock held across two steps is a step of its own.

| file | what it holds |
|---|---|
| `Lexicographic`, `OrderedKeys`, `Numerals`, `Slices`, `Options` | byte-string order, cursor order, fixed-width numerals, reversal |
| `Records`, `Store`, `EventLog`, `EventKeys`, `Builds` | the keyed store and its three ordered indexes |
| `Fsm`, `Cluster`, `Replicated` | log entries and snapshots, replicas under crashes, the write paths |
| `Containers`, `Reconciler`, `ReconcileRuns`, `RetrySpacing` | one reconcile pass on values, on objects, and runs of passes |
| `BuildSlots`, `LogStream`, `StreamTable` | build goroutines, one log stream, the table of streams |
| `Bus`, `Webhooks`, `Frames` | event bus, webhook retries, length-prefixed frames |
| `Blobs`, `Rehydration` | content-addressed blobs, rebuilding the runtimes |

Strings stand for byte strings. JSON and gob are codecs with a round-trip law, SHA-256 an
(injective, where said) function, BoltDB a map of maps read in ascending key order. Random ids and
clock readings are parameters (`Mint`, `Surroundings`).

Some things the source or its comments intend are false of the code. Each has its exact condition,
and a witness where the condition alone does not name an input:

- A project's list is exactly its records: `Stores.ProjectListCovers`, `Stores.SlashedProjectLeaks`.
  A trim spares other projects: `EventLogs.TrimReaches`, `EventLogs.TrimDeletesOthers`.
- Event keys sort in time order (internal/store/store.go:789-790): `EventKeys.KeyOrderIsTimeOrder`,
  `EventLogs.TimelineIsChronological`.
- A trim deletes the oldest events (internal/store/store.go:834-835), so never one that is appended
  while it runs: `EventLogs.AppendSurvives`, `EventLogs.TrimDropsAppend`.
- The reconciler never loops on its own writes (internal/runtime/container/reconcile.go:152-155):
  `ReconcileRuns.BoundIsExact`, `ReconcileRuns.LateEchoesLoop`. The clock is read before
  Start runs, so a start that fails slowly finds its own backoff already over.
- The persisted container never holds plaintext (internal/runtime/container/reconcile.go:205-207):
  `Containers.StoredEnvIsKept`, `Containers.FailedResolveLeaks`.
- Record and running code stay together: `BuildSlots.FailedPutLeaves`, `BuildSlots.FailedDeployLeaves`.
- A sink only sees events emitted after its registration (internal/events/bus.go:67-68):
  `Buses.OnlyLaterEmits`, `Buses.OnlyLaterEvents`, `Buses.SinkSeesEarlierEvent`.
- A blob's id is the hash of its bytes: `Blobs.HonestUnlessTorn`, `BuildSlots.TornBlobIsRecorded`;
  and a restart runs what the records name: `Rehydration.RestartHeals`.

## Model

| member | source | states |
|---|---|---|
| Stores.KeyForCollides | internal/store/store.go:102-107 | exactly when two (project, name) pairs get one key: equal, or one project continues the other across a slash the other's name supplies |
| Stores.KeyForInjective | internal/store/store.go:102-107 | with slash-free projects the key determines project and name |
| Stores.PrefixNamesProject | internal/store/store.go:102-107 | a key carries a slash-free project's prefix if and only if it is that project's |
| Stores.PrefixCovers | internal/store/store.go:102-107 | exactly when a key carries a project's prefix, whatever the names: same project, or one continues the other across a slash, the listed one with the help of the name |
| Stores.HasPrefix | internal/store/store.go:167-177 | the byte loop decides the prefix relation |
| Stores.Scan | internal/store/store.go:151-163 | the cursor loop returns the values of a run of keys that all have the prefix and stops only at one that has not |
| Stores.ScanIsComplete | internal/store/store.go:145-165 | seek-and-scan over the ascending keys meets every key with the prefix and no other: keys sharing a prefix are contiguous |
| Stores.Store.List | internal/store/store.go:145-165 | returns exactly the values whose key starts with the prefix, in ascending key order |
| Stores.Store.Put | internal/store/store.go:115-123 | writes one key, or refuses an empty or oversized one and writes nothing |
| Stores.Store.Del | internal/store/store.go:135-143 | removes the key, or answers not-found and changes nothing |
| Stores.Store.PutScoped | internal/store/store.go:276-295 | defaults the project, mints uid, timestamps and generation on the caller's value, stores it under its own key, emits one event; on each error, what is and is not changed |
| Stores.PutStores | internal/store/store.go:276-295 | in terms of the value given: one record under project (or default) and name, uid and creation time minted only where the uid was missing, one more generation, the rest of value, bucket and database untouched, but for an empty map of labels, which JSON drops; one event; or nothing when the key is too long |
| Stores.PutNeedsName | internal/store/store.go:276-282 | a nameless value is refused with nothing written or announced |
| Stores.Store.LocalDelete | internal/store/store.go:258-274 | deletes under the key of kind, project and name and emits one event, or not-found |
| Stores.ReachableIsSelfKeyed | internal/store/store.go:276-295 | in every state reached by typed puts and deletes each record sits under the key its own Meta names |
| Stores.ProjectListCovers | internal/store/store.go:145-165 | in every such state, whatever the names, a project's list is all records its prefix covers, and exactly its own if and only if it covers none of another project |
| Stores.ProjectListIsExact | internal/store/store.go:145-165 | in every such state with slash-free projects, a project's list is exactly the records whose Meta names it |
| Stores.SlashedProjectLeaks | internal/store/store.go:102-107 | with a slash in a project name another project's list contains a record not its own |
| EventKeys.KeyOrderIsTimeOrder | internal/store/store.go:788-804 | of two valid UTC times the earlier one's key is smaller if and only if they are not in one second with its trimmed fraction a proper prefix of the later one's; otherwise the order is reversed (the equal-digits condition of section 5.1 of RFC 3339) |
| EventKeys.SameTimeSortsByUid | internal/store/store.go:803 | events of one instant sort by uid |
| EventKeys.WholeSecondSortsLast | internal/store/store.go:803 | an event on a whole second sorts after every later event of that second |
| EventKeys.FormatShape | internal/store/store.go:803 | where the separators of a timestamp stand; a fraction appears only if there is one |
| EventLogs.AppendEvent | internal/store/store.go:791-804 | completes uid and time, stores the record under project, time and uid, or nothing when the key is refused |
| EventLogs.ListEvents | internal/store/store.go:808-832 | the newest records of the project's run, at most limit (100 when not positive) |
| EventLogs.TimelineHolds | internal/store/store.go:814-827 | a project's timeline holds exactly the event records under its prefix; a document that does not decode is skipped and hides none |
| EventLogs.PageIsNewest | internal/store/store.go:806-832 | the page holds the last records of the project's ascending run, in reverse, as many as asked for, a hundred by default, or all |
| EventLogs.CountExcess | internal/store/store.go:836-847 | the first transaction of a trim: how many records are beyond keep (10000 when not positive) |
| EventLogs.ExcessIsBeyondKeep | internal/store/store.go:836-847 | what a trim drops in terms of keep, ten thousand by default |
| EventLogs.DeleteOldest | internal/store/store.go:848-861 | the second: deletes that many from the start of the project's run and nothing else |
| EventLogs.TrimEvents | internal/store/store.go:836-862 | both together leave the log without the oldest records beyond keep |
| EventLogs.DeleteCutsTheOldEnd | internal/store/store.go:848-861 | whatever was appended meanwhile, the delete takes its n records from the timeline's old end |
| EventLogs.TrimIsInvisible | internal/store/store.go:808-862 | ListEvents with limit at most keep answers the same before and after a trim |
| EventLogs.TrimShowsBeyondKeep | internal/store/store.go:808-862 | with limit above keep it answers the same if and only if nothing was beyond keep |
| EventLogs.TrimAgainstAppends | internal/store/store.go:836-862 | if at least keep records were counted, then whatever is appended before the delete, keep records and as many as were appended remain, and they are the new end of the timeline |
| EventLogs.SurvivesDelete | internal/store/store.go:848-861 | a record survives a delete of n if and only if at least n records of the run sort below it |
| EventLogs.AppendSurvives | internal/store/store.go:836-862 | an append between count and delete survives if and only if at least as many records sort below it as were counted in excess |
| EventLogs.TrimDropsAppend | internal/store/store.go:836-862 | two events on a whole second, keep 1, an append later in that second: the trim deletes the append and keeps both |
| EventLogs.TrimSparesOthers | internal/store/store.go:836-862 | every record of another slash-free project stays |
| EventLogs.TrimReaches | internal/store/store.go:836-862 | exactly which records a trim deletes, of any project: those the prefix covers with fewer below them than are in excess |
| EventLogs.TrimDeletesOthers | internal/store/store.go:836-862 | trimming project a deletes an event of project a/b |
| EventLogs.AppendKeepsSelfLogged | internal/store/store.go:791-804 | an append keeps every record of a project under the key its own time and uid name |
| EventLogs.TimelineIsChronological | internal/store/store.go:806-832 | newest first holds of a project's timeline if and only if it contains no inverted pair |
| Slices.Reverse | internal/store/store.go:824-827 | the swap loop reverses |
| Builds.NewId | internal/runtime/functions/builder/runner.go:428-435 | the byte loop yields the 16 big-endian hexadecimal digits of the clock reading, for negative ones in two's complement |
| Builds.IdDenotes | internal/runtime/functions/builder/runner.go:428-435 | an id read as a hexadecimal number is the clock reading as an unsigned 64-bit integer |
| Builds.IdOrder | internal/runtime/functions/builder/runner.go:428-435 | for 64-bit readings a < b the id of a sorts first, unless a is before 1970 and b is not: then it sorts last |
| Builds.ListBuilds | internal/store/store.go:758-776 | computes the list that BuildListIsExact and NewestTriggerFirst describe |
| Builds.BuildListIsExact | internal/store/store.go:756-776 | in every reachable bucket with slash-free projects the list holds exactly the stored builds whose project and function reference are those asked for |
| Builds.NewestTriggerFirst | internal/store/store.go:756-776 | its names strictly descend, so of builds named by newID the later trigger comes first |
| Fsm.FSM.Apply | internal/store/fsm.go:43-78 | a committed entry's effect on database, events and error: put, delete, unknown op, undecodable entry |
| Fsm.EntryDoes | internal/store/fsm.go:43-136 | by op: a put stores its value under its key unless the engine refuses that, a delete removes its key or finds nothing, any other op and undecodable bytes do nothing but fail; the event of each, with its value if and only if the kind is one DecodeKind knows |
| Fsm.DumpBolt | internal/store/snapshot.go:16-45 | the nested copy loops dump every bucket and key |
| Fsm.RestoreBolt | internal/store/snapshot.go:47-70 | every dumped bucket is replaced whole, others stay; a refused key or undecodable data leaves the database as it was |
| Fsm.RestoreInvertsDump | internal/store/snapshot.go:16-70 | loading a dump gives back the dumped store if and only if the target has no bucket the dump lacks |
| Fsm.FSM.Snapshot | internal/store/fsm.go:138-146 | the snapshot is the dump of the current store |
| Fsm.FSM.Restore | internal/store/fsm.go:149-158 | replaces the store's content from a snapshot, or fails and changes nothing |
| Clusters.FoldIsLastWrite | internal/store/fsm.go:43-78 | folding a log leaves at every key what its last write there says, else the start value |
| Clusters.ReplayAbsorbs | internal/store/fsm.go:43-78 | replaying entries the database already reflects changes nothing in the end |
| Clusters.RunKeepsTrack | internal/store/fsm.go:43-158 | in every schedule, for every replica and snapshot, applying the rest of the log up to the high-water mark gives the fold over the common start |
| Clusters.LoadingIsExact | internal/store/snapshot.go:47-70 | in every reachable cluster a replica that loads a snapshot, its own or another's, holds exactly what was dumped and goes on from the index of the dump |
| Clusters.DumpAndCrash | internal/store/snapshot.go:16-45 | a dump holds the database and its index; a crash without a snapshot costs the index alone |
| Clusters.CaughtUpReplicaIsTheFold | internal/store/fsm.go:43-158 | after any schedule of commits, applies, snapshots, installs on other replicas and crashes, a replica whose applied index reached all its store ever saw equals the fold of that log prefix |
| Clusters.UnwrittenPlacesAreCurrent | internal/store/fsm.go:43-158 | at any moment, mid-replay too, every place that no entry still to be replayed writes holds the fold of the log up to the applied index |
| Clusters.MidReplayIsAhead | internal/store/fsm.go:43-78 | a concrete replay that is ahead of its applied index |
| Clusters.CatchingUpConverges | internal/store/fsm.go:43-158 | from any reachable cluster, applying what is left brings a replica to the fold of the whole log |
| Clusters.LogsHappen | internal/store/raft.go:113-129 | every sequence of entries that name opened buckets is the log of some schedule |
| Clusters.SnapshotsLoad | internal/store/snapshot.go:47-70 | in every schedule no snapshot there is holds a key that its restore would refuse |
| Replicated.Raft.Submit | internal/store/raft.go:113-129 | on a leader the entry is logged and applied and the state machine's error returned; otherwise not-leader and no change |
| Replicated.ReplicatedStore.ApplyTypedPut | internal/store/replicated_store.go:62-95 | single node, leader and follower: effect on caller's value, database, events, log and error; with more than one voter the database stays the fold of the log, a follower changes nothing and errs, and a leader logs one entry for a named value |
| Replicated.ReplicatedStore.ApplyTypedDelete | internal/store/replicated_store.go:98-117 | the same for deletes |
| Replicated.PutGoesThroughLog | internal/store/replicated_store.go:62-95 | on a leader a put leaves what its own log entry makes of the database, the entry being the minted value under its key; on a follower nothing but an error; on a single node no entry |
| Replicated.DeleteGoesThroughLog | internal/store/replicated_store.go:98-117 | the same for deletes |
| Replicated.PutRefines | internal/store/replicated_store.go:62-95 | a put through the log leaves the same database, value and error as the local put, and the same event up to JSON if and only if the kind can be decoded or the put failed |
| Replicated.DeleteRefines | internal/store/store.go:258-274 | a delete through the log has the local one's outcome if and only if it is not of a node, user or token without a project, or neither of the two keys is there; no routed kind is one of these |
| Replicated.LeaderRefinesSingleNode | internal/store/replicated_store.go:62-117 | for every sequence of routed puts and deletes the leader path leaves the same store, events up to JSON, errors and minted values as the single-node path |
| Replicated.LogFoldsToDatabase | internal/store/replicated_store.go:62-117 | the entries those calls log fold to the database they leave |
| Replicated.ReplicasMatchSingleNode | internal/store/fsm.go:43-158 | end to end: a replica of any schedule that applied all entries of the calls holds the single node's database |
| Reconcilers.Reconciler.ReconcileOne | internal/runtime/container/reconcile.go:156-323 | the pass over objects - container, memory, store, bus - does what Pass says on values, and hands Start the working Env |
| Reconcilers.Reconciler.HandleEvent | internal/runtime/container/reconcile.go:98-113 | an event of another kind or about a missing container does nothing, a deletion forgets the memory, any other reads the container back and does one pass |
| Reconcilers.Reconciler.IsRunning | internal/runtime/container/reconcile.go:339-352 | errors and missing hooks count as running |
| Reconcilers.ContainerStore.PutContainer | internal/store/store.go:276-301 | mints on the caller's own container, generation included, and stores that value |
| Reconcilers.Resolve | internal/secrets/manager.go:92-118 | a nil or empty map is returned as it is, any other as a fresh map with every reference revealed, or failure |
| Reconcilers.MaterialiseSecrets | internal/runtime/container/reconcile.go:205-245 | which map object the working copy uses - the container's own only if empty or unresolvable - and the values both end up with |
| Containers.SpecIsKept | internal/runtime/container/reconcile.go:156-323 | a pass changes only status, node and Meta's generation and timestamps of the container it works on; it calls Start if and only if the container is due; that container's Env changes if and only if it is due, the working copy shares the map and some name's last resolvable mount reveals another value than the map has |
| Containers.StoredEnvIsKept | internal/runtime/container/reconcile.go:205-322 | the stored record's Env changes if and only if, besides, the pass writes the record after Start: the container has a name and Start failed with a new message or succeeded and changed phase or node |
| Containers.InjectedDiffers | internal/runtime/container/reconcile.go:230-244 | injecting the mounts changes a map exactly when some name's last resolvable mount reveals news |
| Containers.NoPlaintextPersisted | internal/runtime/container/reconcile.go:205-245 | when Resolve succeeds and Env is nil or non-empty the stored Env never changes |
| Containers.FailedResolveLeaks | internal/runtime/container/reconcile.go:216-232 | a concrete container whose unresolvable reference puts another secret's plaintext into the stored record |
| Containers.FailedStart | internal/runtime/container/reconcile.go:247-288 | after a failed start: the count, the next attempt one backoff away, the message shown, the crash announced, and no write when phase and message were these already |
| Containers.SucceededStart | internal/runtime/container/reconcile.go:290-322 | after a start: count cleared, generation remembered, running on this node, a start announced unless the memory had it running |
| Containers.EndedPass | internal/runtime/container/reconcile.go:172-192 | an exited container with policy Never or none is marked stopped, with the message that says so |
| Containers.QuietPass | internal/runtime/container/reconcile.go:156-201 | every other pass leaves container, record and bus alone |
| Containers.BackoffDoubles | internal/runtime/container/reconcile.go:252-258 | five seconds, doubled by every further failure, five minutes at most |
| Containers.BareName | internal/secrets/manager.go:92-118 | a reference without a slash names a secret of the container's project |
| Containers.ProjectAndName | internal/secrets/manager.go:104-108 | what stands before the first slash names another project, what follows the secret |
| Containers.SlashFirst | internal/secrets/manager.go:104-108 | a leading slash belongs to the name |
| Containers.HandedEnv | internal/secrets/manager.go:92-118 | when every reference resolves, Start gets the container's variables, each reference replaced by the secret it names, but where a mount puts another |
| Containers.HandedMount | internal/runtime/container/reconcile.go:230-244 | and there the secret of the last resolvable mount of that name |
| ReconcileRuns.OneStimulusIsBounded | internal/runtime/container/reconcile.go:89-129 | while no pass finds the container failed and its next attempt due, one event causes at most two Start calls and two self-writes, and three passes empty the queue, whatever Start and the probe answer and however long they take |
| ReconcileRuns.BoundIsExact | internal/runtime/container/reconcile.go:89-129 | there are more than two starts or writes if and only if the first two passes' writes both came back and the third pass does not find a container failed before its next attempt |
| ReconcileRuns.LateEchoStarts | internal/runtime/container/reconcile.go:198-273 | a pass that finds it failed and due starts it, and writes if and only if the start succeeds or fails with a new message |
| ReconcileRuns.LateEchoesLoop | internal/runtime/container/reconcile.go:198-273 | if every pass is late and fails with a new message, one event causes as many Start calls and writes as there are passes, and one more is queued |
| ReconcileRuns.LateFailuresHappen | internal/runtime/container/reconcile.go:198-273 | such stretches exist from every failed container and of every length |
| ReconcileRuns.TwoPassesSettle | internal/runtime/container/reconcile.go:290-322 | when starts succeed, two passes settle the container with at most one write |
| ReconcileRuns.SettledStaysUnwritten | internal/runtime/container/reconcile.go:156-323 | any later passes whose starts succeed leave the settled record unwritten while it is alive or restarted by the node it names, and start nothing while it is alive |
| ReconcileRuns.LeftAlone | internal/runtime/container/reconcile.go:157-165 | a container stopped or assigned elsewhere is neither started nor written, however many passes |
| ReconcileRuns.ExitIsHandled | internal/runtime/container/reconcile.go:172-196 | a settled container that exits is, by the second of two passes over eight seconds apart, started again if its policy is Always or OnFailure, else stopped and never started |
| RetrySpacing.ComputeBackoff | internal/runtime/container/reconcile.go:252-260 | the doubling loop computes min(5 * 2^(k-1), 300) seconds for every k |
| RetrySpacing.RetriesAreSpaced | internal/runtime/container/reconcile.go:198-273 | over every run, the Start after a streak of k failures begins at least that long after the k-th began |
| RetrySpacing.FailuresSpan | internal/runtime/container/reconcile.go:198-273 | n consecutive failures span at least 5 * (2^(n-1) - 1) seconds, from seven on 315 + 300 * (n - 7) |
| RetrySpacing.SevenFailures | internal/runtime/container/reconcile.go:198-273 | that bound for every run of the reconciler |
| BuildSlots.Reachable | internal/runtime/functions/builder/runner.go:133-253 | the invariant of every interleaving, blob writes cut short included: tokens match holders, channels belong to one function, blobs are honest if not torn, code and record agree outside updates |
| BuildSlots.OneBuildPerFunction | internal/runtime/functions/builder/runner.go:393-411 | at most one build of a function is between acquire and release |
| BuildSlots.OnlyHoldersBlock | internal/runtime/functions/builder/runner.go:393-411 | release never blocks; acquire blocks if and only if a build of the same function is inside |
| BuildSlots.SomeBuildCanMove | internal/runtime/functions/builder/runner.go:133-253 | no deadlock while a build is unfinished |
| BuildSlots.RecordMatchesRuntime | internal/runtime/functions/builder/runner.go:154-232 | whenever no build of a function is between Deploy and PutFunction, its last PutFunction succeeded and no failed Deploy was the last to touch its recorded code, the recorded runtime holds code hashing to the recorded SourceRef; the blob of that name is this code if and only if it is not torn |
| BuildSlots.FailedPutLeaves | internal/runtime/functions/builder/runner.go:218-232 | in every run, whatever other builds do in between, record and code agree after a failed PutFunction if and only if the deployed code has the recorded hash, or, when the deploy went to another runtime, if they agreed before |
| BuildSlots.FailedDeployLeaves | internal/runtime/firecracker/jailer.go:111-117 | they agree after a failed Deploy if and only if they did before, unless it wrote over the recorded Firecracker code: then if and only if what it wrote has the recorded hash |
| BuildSlots.TornBlobIsRecorded | internal/runtime/functions/builder/runner.go:199-232 | a run in which one build's blob write is cut short and another's finds the file and records its name |
| LogStreams.LogStream.AppendLines | internal/runtime/functions/builder/queue.go:47-67 | keeps the last 256 texts and sends to every subscriber that has room, never panicking on a usable stream |
| LogStreams.LogStream.SubscribeNow | internal/runtime/functions/builder/queue.go:71-86 | a new channel preloaded with the buffer, without blocking |
| LogStreams.LogStream.UnsubscribeNow | internal/runtime/functions/builder/queue.go:81-85 | removes one subscriber, and nothing on a closed stream |
| LogStreams.LogStream.CloseNow | internal/runtime/functions/builder/queue.go:88-99 | closes every registered channel once and drops the map |
| LogStreams.LineReaches | internal/runtime/functions/builder/queue.go:47-67 | on an open stream a registered subscriber with fewer than 256 texts queued gets the line at once, no other channel changes |
| LogStreams.TailIsNewest | internal/runtime/functions/builder/queue.go:71-86 | a new channel holds the newest texts, 256 at most |
| LogStreams.TakenInOrder | internal/runtime/functions/builder/queue.go:71-77 | a subscriber takes the texts one at a time in the order they were sent |
| LogStreams.CloseEnds | internal/runtime/functions/builder/queue.go:88-99 | exactly the registered channels are closed, and keep what is queued |
| LogStreams.UnsubscribeRemoves | internal/runtime/functions/builder/queue.go:81-85 | one registration goes, nothing is closed |
| LogStreams.AppendOk | internal/runtime/functions/builder/queue.go:47-67 | an append ends normally and keeps every subscriber's delivery an in-order thinning |
| LogStreams.SubscribeOk | internal/runtime/functions/builder/queue.go:71-86 | on an open stream subscribe ends normally, its tail being the last 256 texts |
| LogStreams.CloseOk | internal/runtime/functions/builder/queue.go:88-99 | close never closes a channel twice |
| StreamTables.NothingBreaks | internal/runtime/functions/builder/runner.go:106-127 | in every interleaving nothing is sent on a closed channel, none closed twice, no subscribe meets a nil map or blocks under the locks |
| StreamTables.ListedIsOpen | internal/runtime/functions/builder/runner.go:413-426 | a stream in the table, or found and not yet subscribed to, is open |
| StreamTables.HolderProceeds | internal/runtime/functions/builder/runner.go:106-127 | whoever holds streamMu can always go on |
| StreamTables.SubscriberSees | internal/runtime/functions/builder/queue.go:47-86 | each subscriber was sent the tail buffered when it came, then an in-order subsequence of later texts |
| StreamTables.KeepingUpLosesNothing | internal/runtime/functions/builder/queue.go:47-86 | in every interleaving a subscriber whose channel had room at every write and that did not unsubscribe was sent the tail followed by every later text |
| StreamTables.OpenIsFound | internal/runtime/functions/builder/runner.go:413-420 | a build's stream can be found, open, as soon as openStream returns |
| StreamTables.FoundIsSubscribed | internal/runtime/functions/builder/runner.go:106-127 | in every interleaving whoever found a stream gets registered, with its newest texts, 256 at most |
| StreamTables.WriteReaches | internal/runtime/functions/builder/queue.go:47-67 | in every interleaving a text written to an open stream is kept and goes to every registered subscriber with room |
| StreamTables.ClosedStreamRefuses | internal/runtime/functions/builder/queue.go:71-99 | why the order in closeStream matters: subscribing to a closed stream panics |
| Buses.Bus.Emit | internal/events/bus.go:91-106 | refused when stopped; else completed and queued, or dropped and counted when 1024 wait |
| Buses.AddressedFills | internal/events/bus.go:95-100 | only a missing time and a missing project are filled in |
| Buses.Bus.Subscribe | internal/events/bus.go:76-87 | registers under an id no subscriber has |
| Buses.Bus.Dispatch | internal/events/bus.go:126-158 | in this order: the completed event goes to the log, or nowhere if its key is refused; every registered subscriber is called once with it; one goroutine starts per sink; nothing else in the store changes |
| Buses.Conservation | internal/events/bus.go:91-131 | in every interleaving calls = accepted + dropped + refused + in flight, accepted = taken followed by the queue, dispatched = taken in order, queue at most 1024 |
| Buses.NothingInvented | internal/events/bus.go:91-106 | in every interleaving each accepted event is one an Emit call brought, with only a missing time and a missing project filled in |
| Buses.StopsWhenCancelled | internal/events/bus.go:109-124 | the worker goes only after a cancel, and once cancelled an idle one can go |
| Buses.SubscriberSees | internal/events/bus.go:76-87 | a subscriber sees, in order and without gaps, exactly the events whose dispatch copied the tables between its Subscribe and its unsubscribe |
| Buses.SinkSees | internal/events/bus.go:138-157 | a sink is handed exactly the events dispatched after it was added |
| Buses.OnlyLaterEvents | internal/events/bus.go:67-73 | that only events accepted after registration reach a sink holds of every continuation if and only if, at that moment, the worker is gone, or nothing is queued and what was taken has been copied for |
| Buses.OnlyLaterEmits | internal/events/bus.go:67-106 | that only events of Emit calls begun after registration do holds if and only if the worker is gone, or besides no Emit call is on its way |
| Buses.SinkSeesEarlierEvent | internal/events/bus.go:67-73 | one queued event is enough to break it |
| Buses.AfterStop | internal/events/bus.go:111-117 | once the worker has gone nothing is dispatched and new calls are refused; only emitters already past the check can still queue |
| Webhooks.DeliverWebhook | internal/events/dispatcher.go:144-198 | for every sequence of outcomes: the records written in order, at most five sends, 2^failures - 1 and at most 31 seconds of sleep; sends go on after transport errors and responses outside 200 to 299 and stop at the first response inside or request that cannot be built |
| Webhooks.RetriedUntil2xx | internal/events/dispatcher.go:152-197 | which outcomes are retried, which one ends the delivery, and that it succeeds exactly on a response in 200 to 299 |
| Webhooks.ClosingSays | internal/events/dispatcher.go:189-197 | the Done record: status and no error of the success, else "exhausted" with the last failure's text and the last response's status, 0 if there was none |
| Webhooks.DecimalDenotes | internal/events/dispatcher.go:193 | a status is written in decimal digits without leading zeros |
| Webhooks.Sleeps | internal/events/dispatcher.go:200-206 | the one-minute cap is out of reach and the sleeps sum to a power of two less one |
| Webhooks.NamesCollide | internal/events/dispatcher.go:214 | exactly when two deliveries get one record name |
| Webhooks.DeliveryKeysAreDistinct | internal/events/dispatcher.go:214 | with dash-free event uids and slash-free projects the key determines project, rule, event and attempt |
| Webhooks.DeliveryLeaves | internal/events/dispatcher.go:144-230 | what each attempt's key holds in the end: status and text of a failure, the accepted attempt, or the exhausted record over attempt five |
| Webhooks.DeliverySparesOthers | internal/events/dispatcher.go:208-230 | no other record changes |
| Webhooks.OneDoneRecord | internal/events/dispatcher.go:144-230 | exactly one record is Done, the last attempt's, and no record comes after it, if and only if the store takes keys of that length; its error is empty exactly when its status is in 200 to 299 and the delivery succeeded |
| Webhooks.OnlyOwnWritesMatter | internal/events/dispatcher.go:208-230 | however deliveries interleave, a key holds what its own writes leave |
| Webhooks.OwnWrites | internal/events/dispatcher.go:129-230 | in every interleaving of deliveries of different rules or events, the writes to one's keys are those it has made so far |
| Webhooks.OneDoneRecordAmongOthers | internal/events/dispatcher.go:129-230 | however any number of such deliveries interleave, each that has ended has left exactly one Done record, its last attempt's, whose error is empty exactly when its status is in 200 to 299 |
| Frames.Conn.ReadFull | internal/runtime/firecracker/protocol/protocol.go:78-80 | io.ReadFull over any split into short reads: the next n bytes, or which end-of-stream error |
| Frames.Conn.WriteFrame | internal/runtime/firecracker/protocol/protocol.go:58-73 | one frame on the wire; a proper prefix of it exactly when the connection fails on the way; nothing when the value is refused |
| Frames.Conn.ReadFrame | internal/runtime/firecracker/protocol/protocol.go:76-93 | result and unread rest depend only on the bytes, not on how they are split |
| Frames.HeaderRoundTrip | internal/runtime/firecracker/protocol/protocol.go:66-67 | four big-endian bytes read back as the length |
| Frames.HeaderIsBigEndian | internal/runtime/firecracker/protocol/protocol.go:66-67 | the first byte weighs most: headers compare bytewise as their lengths do |
| Frames.FrameRoundTrip | internal/runtime/firecracker/protocol/protocol.go:57-93 | a written frame reads back as its message and is consumed exactly, whatever follows |
| Frames.WrittenIsReadable | internal/runtime/firecracker/protocol/protocol.go:57-93 | WriteFrame succeeds if and only if the value marshals within 32 MiB, and ReadFrame never refuses what it emits |
| Frames.FramesArePrefixFree | internal/runtime/firecracker/protocol/protocol.go:66-71 | no frame is a proper prefix of another |
| Frames.AcceptedIsAFrame | internal/runtime/firecracker/protocol/protocol.go:76-93 | what ReadFrame accepts starts with the frame of the body it decoded |
| Frames.CutFrameIsRefused | internal/runtime/firecracker/protocol/protocol.go:76-93 | a frame cut short anywhere reads as an end of stream, never as a message |
| Frames.RefusedFrames | internal/runtime/firecracker/protocol/protocol.go:81-93 | which error an empty, an oversized and an undecodable frame gets, and how much of the stream it costs |
| Frames.SendAll | internal/runtime/firecracker/protocol/protocol.go:57-73 | writing a list to a connection that holds appends the concatenation of its frames |
| Frames.ReceiveAll | internal/runtime/firecracker/protocol/protocol.go:75-93 | under any split, reading that many messages returns exactly the list and leaves exactly the rest |
| Blobs.BlobStore.Put | internal/runtime/wasm/runtime.go:86-97 | returns the hash when the file exists or is written whole; what a failed write leaves |
| Blobs.BlobStore.Delete | internal/runtime/wasm/runtime.go:103-109 | deleting a missing file succeeds |
| Blobs.PutThenGet | internal/runtime/wasm/runtime.go:86-101 | Put is idempotent and keeps other blobs; what it stored reads back if and only if no other bytes were under that id |
| Blobs.TornIdsLie | internal/runtime/wasm/runtime.go:86-109 | after any calls, the ids not naming data of their hash are exactly those of writes cut short and not deleted since |
| Blobs.HonestUnlessTorn | internal/runtime/wasm/runtime.go:86-109 | every id maps to data of that hash if and only if there are none |
| Blobs.TornStays | internal/runtime/wasm/runtime.go:86-97 | putting the data again never repairs a torn file |
| Rehydration.Runtime.Deploy | internal/runtime/wasm/runtime.go:124-131 | sets the code under the function's key, or is refused and changes nothing |
| Rehydration.Rehydrator.Run | internal/runtime/wasm/rehydrate.go:30-62 | each runtime keeps what it had, overlaid with the blobs of the stored functions that select it and whose deploy it accepts |
| Rehydration.RestartRestores | internal/runtime/wasm/rehydrate.go:30-62 | from empty runtimes, in every reachable state, firecracker runs exactly the functions whose record says "firecracker" and wasm exactly the others, in both cases those whose blob is present, and the code is the one whose hash is the SourceRef |
| Rehydration.RestartHeals | internal/runtime/wasm/rehydrate.go:30-62 | after a crash at any point of any interleaving of builds, blob writes cut short included, a restart makes a record and its runtime agree if and only if the SourceRef is not a torn blob's, and the builder's guarantees hold again from there |

## Left out

- Replicated.Raft.Submit: a leader's entry always commits; the source can also return a timeout or lost leadership, with the entry committed or not.
- Raft elections, transport and the log on disk: the log is an abstract committed sequence.
- Records other than the replicated ones: a snapshot overwrites them too, so equality across replicas is not claimed for nodes, cluster config, builds or the event log.
- Fsm.FSM.Apply: requires that an entry names an existing bucket; the source dereferences a nil bucket otherwise.
- BoltDB, gob and JSON: their laws are assumed. A bucket's key limit is a parameter, I/O errors of a transaction are not modelled, JSON's replacement of invalid UTF-8 and its leniency towards documents of another kind are not either.
- EventLogs.DeleteOldest: iterates over the keys as they were when the cursor started, not over the cursor's behaviour while keys are being deleted.
- EventKeys.KeyOrderIsTimeOrder: times are civil UTC fields with a four-digit year; converting an instant to them is not part of this model.
- The store's own subscriber channels (internal/store/store.go:80-98): a dropped event is a flag of the run in ReconcileRuns, elsewhere only the sequence of emitted events is kept.
- Generation as a 64-bit integer: unbounded here.
- Reconcilers.ContainerStore.PutContainer: a container read from the store has a key the store takes, so a refused key is not modelled; the event of a put is counted in ReconcileRuns, not kept here.
- Reconcilers.Reconciler.ReconcileOne: one container's pass is atomic towards other writers; writing secret files, publishing ports and the ctr calls behind Start are not modelled, and runs are over one key.
- BuildSlots.RecordMatchesRuntime: other writers of the function record (the API handlers) and deletion of functions are not steps of the machine.
- Blobs.BlobStore.Put: the check and the write are one step.
- LogStreams: appending to the log file, and Write's byte splitting; a subscriber is identified by its channel id.
- Buses: panics of callbacks are recovered by the source and have no step; sinks run in goroutines whose order among themselves is open, so a sink's list is the order in which they were started.
- Webhooks.DeliverWebhook: request headers, the HMAC signature and the clock readings in the record are not modelled; a record write fails only on its key.
- Rule matching, the invoke and container actions of a rule, FireCount: library matching and unguarded read-modify-write.
- Frames.FrameRoundTrip: the message codec is assumed to round-trip and never to marshal to nothing.
- Reading one key of the store, a runtime's Remove and Invoke: they would only add easy members.
- Rehydration.Rehydrator.Run: both runtimes are distinct objects, and every stored function decodes.
- WarmPool, CronScheduler, the Firecracker jailer, HTTP handlers, S3, Garage, networking, join tokens, dashboard: process plumbing, or guarantees that hold only under restrictions that make them easy.
