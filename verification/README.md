# A verified model of BabyRay's object protocol

BabyRay is a small Ray cluster: clients submit tasks, workers run them, node-local
object stores keep the results, and one GCS object table knows which node holds what
and has lost work done again. This project models that protocol in Dafny and proves
what it keeps in every run.

`dafny verify dfyconfig.toml` checks all of it.

## How the model is laid out

| file | what it models |
|---|---|
| `Types.dfy`, `Collections.dfy` | values that travel between services; small facts about sequences and finite sums |
| `LocationDatabase.dfy` | the SQL table as a set of pairs with a primary key; the transactional delete and insert, and the read back |
| `ObjectTable.dfy` | each handler of the object table as a function on its state, and runs of handler calls |
| `GcsServer.dfy` | the object table server as a class whose maps change in place, proved against `ObjectTable.dfy`; a ghost history of calls ties it to the theorems about runs |
| `TableRuns.dfy` | whole runs of the table: what is remembered, when the cache refines a plain table, flushes, lookups, the waitlist |
| `FlushFailures.dfy` | when a server stops being able to flush, for good |
| `ObjectSizes.dfy` | whole runs of the table: the object sizes that locality scheduling is told |
| `Sweeps.dfy` | whole runs of the table: what the sweep over a live-node report reschedules, for how long, and when it is right to |
| `LocalObjectStore.dfy` | the object store of one node, as a class |
| `LocalScheduler.dfy`, `Heartbeats.dfy` | uid, lineage and first dispatch of a task, as a class; its heartbeat loop with the backoff |
| `GlobalScheduler.dfy` | heartbeats, the live-node report, byte accounting and the choice of a worker, as a class |
| `Cluster.dfy` | the cluster as a state machine of nineteen steps over all of the above and the messages in flight |
| `ClusterInvariant.dfy` | the invariant of the cluster and its preservation by every step |
| `ClusterTheorems.dfy` | what follows for every run: replica agreement, real locations, no stranded readers, recovery |
| `ClusterSizes.dfy` | what sizes the messages of the cluster carry into the table |
| `ClusterDispatch.dfy` | where the dispatches of a run come from, and where a pinned task may be placed |
| `ClusterProgress.dfy` | who tells a reader of a location, and what a `Get` returns in the end |
| `ClusterRuns.dfy` | runs of the cluster into a stranded or forgotten reader, a task sent twice, and a table that cannot be flushed |
| `RecoveryBound.dfy` | how fast a silent or killed node is noticed, on a clock of milliseconds |
| `WorkerAdmission.dfy` | the worker's counters and semaphore under every interleaving |
| `Framing.dfy` | base64 and the line framing between the Go worker and `execute.py` |
| `AppendOnlyFile.dfy` | the text form of the location map |

## What is assumed

- Each handler of the object table is one atomic step, also where the code reads or
  writes a map without its lock (`RegisterLiveNodes`, `RegisterGenerating`,
  `GetObjectLocations`). `Store`, `Get`, `Run` and the scheduling calls are split into
  several steps, and other steps come between.
- A live-node report and the sweep over it are one step (`Report`): the statuses are not
  a moment older than the sweep. The object table's answer that the choice of a worker
  looks at may be any, and so as old as it likes.
- Tasks are deterministic: what a task computes is the parameter `exec`, a function of
  name, arguments and keyword arguments. Theorems hold for every `exec`.
- The cluster starts with an empty database; the theorems about the table alone start
  from any rows. Random uids are fresh (step `Submit`), their lineage registration
  succeeds, and clients ask only for uids that they were given (step `GetRemote`).
- At most one `Get` of a uid is outstanding on a node.
- Location requests and callbacks are not lost. Announcements, results, dispatches and
  registrations of a generator may be lost at any time, copies may fail, nodes may stop
  sending heartbeats or storing results and start again, and the database may refuse a
  flush or a read.
- Clocks are discrete (milliseconds), and costs are exact reals.
- The recovery bound further assumes no flush, reports at most 100 ms apart, and that no
  other node makes or holds the object until it has been rescheduled.

## Where the code and its description differ

The model follows the code. Each difference is a lemma.

- `getNodeId` is described as returning a node that has the object
  (go/cmd/gcsobjtable/main.go:233-238). Its list of candidates starts with a zero
  (go/cmd/gcsobjtable/main.go:257) and then takes the recorded nodes that are *not* live
  (go/cmd/gcsobjtable/main.go:259). `TableRuns.LookupAnswers` gives the exact set of
  answers, `TableRuns.EveryAnswerIsAHolderIff` the exact condition for the description: no
  node is recorded, or node zero is.
- Memory is said to have the latest state of any uid it possesses
  (go/cmd/gcsobjtable/db.go:45-48). An announcement of an evicted uid starts a fresh list,
  and the next flush erases the older rows. `TableRuns.CacheRefinesPlainTable` says exactly
  which runs the assumption covers, `TableRuns.EvictedAnnouncementForgets` gives a run that
  it does not.
- The sweep is meant to reschedule what has no live node left
  (go/cmd/gcsobjtable/main.go:427-429). A committed flush takes a uid out of its reach
  (`Sweeps.UntrackedOnlyByFlush`, `Sweeps.FlushedObjectIsAbandoned`), and an object that a
  live node holds on disk only is rescheduled with its dead maker
  (`Sweeps.HeldObjectIsRescheduled`). `Sweeps.SweepIsRightIff` is the exact condition; with
  flushing off and from an empty database it always holds
  (`Sweeps.SweepIsRightWithoutFlush`). An object that was only looked up counts there as
  one to reschedule; see below.
- A flush is retried at every tick (go/cmd/gcsobjtable/main.go:125-134). Once a node has
  announced an object that memory lists it for already, no retry ever succeeds
  (`FlushFailures.StuckForever`, `FlushFailures.StuckIffRepeated`). Re-execution on the
  node that made the object gets the cluster there
  (`ClusterRuns.FlushingCanStopForGood`).
- The store ignores the error of a location request (go/cmd/localobjstore/main.go:193), so
  a disk read that fails strands its reader for good (`ClusterRuns.ReaderCanBeStranded`,
  `ClusterTheorems.LostReaderIsNeverWoken`); `ClusterTheorems.StrandedIffLookupFailed`
  says exactly which readers are stranded.
- The size in an announcement is the object's size (proto/rayclient.proto:167-171). A cached
  copy announces none (go/cmd/localobjstore/main.go:256), which erases the size after an
  eviction, and no size is recorded after a lookup miss (`ObjectSizes.CopyErasesSize`,
  `ObjectSizes.MissLeavesNoSize`). `ObjectSizes.AlwaysTellsIff` and, for the cluster,
  `ClusterSizes.SizesAreToldIff` say in exactly which runs schedulers are always told the
  right size.
- The sweep is for objects whose nodes are all dead, and it also takes an object that has
  no node yet for one (go/cmd/gcsobjtable/main.go:412-419): a task that is still on its way
  is sent a second time once somebody has asked for its result
  (`ClusterRuns.UnfinishedTaskIsSentAgain`). `Sweeps.UnmadeObjectIsRescheduledIff` says
  exactly when.
- With flushing on, a reader can be left on the waitlist of an object that no report looks
  at any more (`ClusterRuns.WaitingReaderCanBeForgotten`); with flushing off, every report
  takes care of its object (`ClusterTheorems.WaitingReaderIsServed`).

## Model

| member | source | states |
|---|---|---|
| LocationDatabase.Database.InsertOrUpdateObjectLocations | go/cmd/gcsobjtable/db.go:49-102 | The argument loops, the delete and the insert together are map override on the row set, in one transaction: it commits exactly if the engine takes all four calls, some list has a node and no list repeats one; otherwise nothing changes. |
| LocationDatabase.NothingToInsertFails | go/cmd/gcsobjtable/db.go:82-93 | A flush without a row to insert does not commit, whatever the engine answers. |
| LocationDatabase.SomethingToInsertCommits | go/cmd/gcsobjtable/db.go:84-101 | With a row to insert and no repeated node it commits exactly if the engine is healthy. |
| LocationDatabase.Database.Arguments | go/cmd/gcsobjtable/db.go:62-80 | The two argument slices hold every key, and every pair of the map once per listing, in whatever order the map is walked; the pairs repeat exactly if some list does. |
| LocationDatabase.Database.GetObjectLocations | go/cmd/gcsobjtable/db.go:104-129 | A read fails exactly if the engine does, and otherwise returns every node stored for the uid, each once. |
| LocationDatabase.OverrideRows | go/cmd/gcsobjtable/db.go:45-48 | After a committed flush a uid in the map has exactly the map's nodes, and any other uid keeps its rows. |
| GcsServer.GCSObjServer.constructor | go/cmd/gcsobjtable/main.go:91-154 | A new server knows what its database file holds and nothing else. |
| GcsServer.GCSObjServer.FlushToDisk | go/cmd/gcsobjtable/main.go:160-190 | An error exactly if the engine refuses a call, all lists are empty or one repeats a node; then memory and disk are as they were, and otherwise memory is empty and every flushed uid has the flushed nodes on disk. |
| GcsServer.GCSObjServer.GetNodeId | go/cmd/gcsobjtable/main.go:239-272 | Memory before disk, an empty disk answer is cached, and the answer is drawn from zero and the recorded nodes that are not live. |
| GcsServer.GCSObjServer.NotifyOwns | go/cmd/gcsobjtable/main.go:300-324 | The node is appended to the list in memory, the generator is forgotten, the size is kept for a new entry only, and every waiter, in order, gets one callback that names the announcing node and leaves the waitlist. |
| TableRuns.AnnouncementWakesWaiters | go/cmd/gcsobjtable/main.go:313-321 | For every table, the callbacks of an announcement are one for each waiter, with its address, the uid and the announcing node. |
| GcsServer.GCSObjServer.RequestLocation | go/cmd/gcsobjtable/main.go:326-371 | The handler is a lookup of the table; it errs exactly if memory has no node and the disk fails, and the reply says whether a callback was spawned. |
| GcsServer.LookupIsAnswered | go/cmd/gcsobjtable/main.go:326-371 | Field by field: a failed lookup changes nothing; one that finds nothing leaves an empty list and puts the requester's host, with the object store's port, at the end of the waitlist; one that finds nodes spawns one callback to it, with zero or a listed node that is not live. |
| GcsServer.GCSObjServer.GetObjectLocations | go/cmd/gcsobjtable/main.go:373-382 | The answer has exactly the arguments with an entry in memory, each with its whole list and its recorded size, or zero. |
| GcsServer.GCSObjServer.RegisterLineage | go/cmd/gcsobjtable/main.go:384-395 | The first lineage of a uid is kept; a second one is refused. |
| GcsServer.GCSObjServer.RegisterGenerating | go/cmd/gcsobjtable/main.go:465-472 | The last registered generator of a uid replaces any before it. |
| GcsServer.GCSObjServer.GetNodes | go/cmd/gcsobjtable/main.go:397-410 | The generator, if any, and then the nodes in memory. |
| GcsServer.GCSObjServer.AllDead | go/cmd/gcsobjtable/main.go:412-419 | True exactly if no listed node is live, and so for an empty list. |
| GcsServer.GCSObjServer.RegenerateList | go/cmd/gcsobjtable/main.go:431-449 | Lists every tracked uid without a live node, each once. |
| GcsServer.GCSObjServer.AllUids | go/cmd/gcsobjtable/main.go:432-439 | The sweep looks at the uids that are being made and those with an entry in memory. |
| GcsServer.GCSObjServer.Reschedule | go/cmd/gcsobjtable/main.go:451-461 | One request per listed uid, in order, each for its own uid rather than for the last one. |
| GcsServer.GCSObjServer.RegisterLiveNodes | go/cmd/gcsobjtable/main.go:421-463 | The handler is a sweep of the table with the reported nodes, and sends what the sweep sends. |
| GcsServer.SweepSweeps | go/cmd/gcsobjtable/main.go:421-463 | Field by field: the live nodes become those of the report and nothing else changes; each uid that is made by and listed at no live node is sent for once, with its lineage or, without any, with a request of zeros. |
| GcsServer.GCSObjServer.Guarantees | go/cmd/gcsobjtable/main.go:300-472 | In every state that any sequence of handler calls leads the server to: the view of a uid comes from its announcements, accepted requesters are those called back plus those waiting, nobody waits for an announced object, and each lineage is the first registered. |
| TableRuns.StepView | go/cmd/gcsobjtable/main.go:160-472 | No call changes what is known about a uid except an announcement of it, which adds its node, and forgets the disk when memory has no entry. |
| TableRuns.RunInv | go/cmd/gcsobjtable/main.go:239-255 | In every run an empty list in memory means that the disk has no rows, and only uids without a known location have waiters. |
| TableRuns.ViewIsSuffixOfHistory | go/cmd/gcsobjtable/main.go:239-311 | In every run, through lookups and committed or failed flushes, the memory-over-disk view of a uid is the node set of a non-empty suffix of its announcements, or the stored rows with all of them. |
| TableRuns.AnnouncedStaysKnown | go/cmd/gcsobjtable/main.go:300-311 | An announced object is never unknown again and its latest announcer is listed; from an empty database the view is a non-empty suffix of the history. |
| TableRuns.OnlyAnnouncedIsListed | go/cmd/gcsobjtable/main.go:239-311 | Nothing is listed that was not announced or stored. |
| TableRuns.CacheRefinesPlainTable | go/cmd/gcsobjtable/db.go:45-102 | In every run, the cached table knows at every point exactly what a plain table of all announcements knows, if and only if no announcement finds its uid evicted with another holder on disk. |
| TableRuns.EvictedAnnouncementForgets | go/cmd/gcsobjtable/main.go:307-311 | The stated assumption is no invariant: announce, flush, announce elsewhere, and the first holder is lost. |
| TableRuns.FlushIsTransparent | go/cmd/gcsobjtable/main.go:160-190 | A flush, committed or rolled back, changes no uid's locations; a committed one leaves all of them on disk and memory empty. |
| TableRuns.LookupAnswers | go/cmd/gcsobjtable/main.go:239-272 | A lookup is answered at once exactly if a location is recorded, and its possible answers are exactly zero and the recorded nodes that are not live. |
| TableRuns.EveryAnswerIsAHolderIff | go/cmd/gcsobjtable/main.go:233-272 | Whatever a lookup may be answered is a recorded holder, if and only if nothing is recorded, so that there is no answer, or node zero is. |
| TableRuns.AnswerMayBeNoHolder | go/cmd/gcsobjtable/main.go:257-271 | From a new server: one node announces an object, and the next lookup can be answered with node zero. |
| TableRuns.WaitlistConservation | go/cmd/gcsobjtable/main.go:313-371 | Over every run, the multiset of accepted requesters of a uid is that of the callbacks spawned plus the waitlist. |
| TableRuns.NobodyWaitsForAnAnnouncedObject | go/cmd/gcsobjtable/main.go:313-321 | A uid has waiters only while it was never announced nor stored; after that every accepted requester has been called back. |
| FlushFailures.StuckForever | go/cmd/gcsobjtable/db.go:14-18 | Once a list in memory repeats a node, no flush ever commits again and the disk stays as it is, however the run goes on. |
| FlushFailures.StuckIffRepeated | go/cmd/gcsobjtable/main.go:311 | That happens in exactly the runs in which a node announces an object that memory lists it for already. |
| FlushFailures.TwoAnnouncementsStick | go/cmd/gcsobjtable/main.go:311 | Two announcements by one node with no flush between are such a run. |
| ObjectSizes.StepSizes | go/cmd/gcsobjtable/main.go:307-310 | A call records a size exactly if it announces an object that memory has no entry for. |
| ObjectSizes.ToldBytesAreLastSized | go/cmd/gcsobjtable/main.go:373-382 | In every run, a scheduler is told of an object with an entry in memory the size in the last announcement that recorded one, or zero. |
| ObjectSizes.StepTells | go/cmd/gcsobjtable/main.go:239-311 | A call makes the told size wrong exactly if it announces another size to a table without an entry, announces to an entry without a size, or loads nodes without a size. |
| ObjectSizes.AlwaysTellsIff | go/cmd/gcsobjtable/main.go:300-382 | In every run over any stored rows and for every size, schedulers are always told that size while memory lists the object, if and only if no such call occurs. |
| ObjectSizes.StepKeeps | go/cmd/gcsobjtable/main.go:239-255 | While every known object has its size, lookups and flushes never get it wrong. |
| ObjectSizes.MissLeavesNoSize | go/cmd/gcsobjtable/main.go:249 | After a lookup miss, an announced object counts as having no bytes. |
| ObjectSizes.CopyErasesSize | go/cmd/localobjstore/main.go:256 | After an eviction, the announcement of a cached copy replaces the recorded size by zero. |
| Sweeps.UntrackedOnlyByFlush | go/cmd/gcsobjtable/main.go:182-183 | A tracked uid leaves the sweep's domain exactly by a committed flush that finds no generator for it. |
| Sweeps.TrackedForever | go/cmd/gcsobjtable/main.go:431-439 | With flushing off a uid once registered, announced or looked up is looked at by every later sweep. |
| Sweeps.SweepDecides | go/cmd/gcsobjtable/main.go:441-461 | One sweep reschedules a tracked uid once if memory names no live generator or holder, and not at all otherwise. |
| Sweeps.SweepIsRightIff | go/cmd/gcsobjtable/main.go:427-449 | Measured by all that is known, in memory or on disk, the sweep reschedules a uid when it should and only then, if and only if memory has an entry for it, or the generator and the nodes on disk happen to agree. |
| Sweeps.SweepIsRightWithoutFlush | go/cmd/gcsobjtable/main.go:427-449 | With flushing off and from an empty database, every sweep is right about every uid. |
| Sweeps.HeldObjectIsRescheduled | go/cmd/gcsobjtable/main.go:427-449 | With flushing on, an object is rescheduled although a live node holds it. |
| Sweeps.UnmadeObjectIsRescheduledIff | go/cmd/gcsobjtable/main.go:412-449 | In every run, a uid that no node was ever known to make or hold is rescheduled exactly if it was looked up after the last flush that committed. |
| Sweeps.AwaitedIsTracked | go/cmd/gcsobjtable/main.go:247-249 | With flushing off, every uid with waiters stays within the reach of the sweep. |
| Sweeps.LineageIsFirstRegistered | go/cmd/gcsobjtable/main.go:384-395 | In every run the lineage of each uid is the first registered for it, unchanged, and there is no other. |
| Sweeps.NoObjectIsAbandoned | go/cmd/gcsobjtable/main.go:397-463 | With flushing off, every report after the first registration of a generator finds a live node for the uid or sends once what was first registered for it, the empty request if nothing was; never both, never neither, whatever lineage other uids have. |
| Sweeps.FlushedObjectIsAbandoned | go/cmd/gcsobjtable/main.go:182-183 | With flushing on, an object whose only holder dies after a flush is not rescheduled. |
| Sweeps.LeavesOnlyWhenDisplaced | go/cmd/gcsobjtable/main.go:305-311 | A node stops counting for a uid exactly if another one announces it or is registered first, or by a committed flush when it is not the generator. |
| Sweeps.ReexecutionSettles | go/cmd/gcsobjtable/main.go:397-463 | Until a registered node is displaced, no report that marks it live reschedules the uid. |
| LocalObjectStore.StoredIsCopied | go/cmd/localobjstore/main.go:147-173 | Writing the bytes and then publishing their size makes a copy return exactly these bytes and disturbs no other object; copies fail exactly for unpublished ones. |
| LocalObjectStore.Server.Store | go/cmd/localobjstore/main.go:147-173 | Memory, then size, then an announcement with the size, exactly if the segment was created; otherwise an error that changes and announces nothing. |
| LocalObjectStore.Server.GetStart | go/cmd/localobjstore/main.go:175-196 | A published object is answered with its size; any other Get gets a channel that no earlier one has, and takes the callbacks of its uid over. |
| LocalObjectStore.Server.LocationFound | go/cmd/localobjstore/main.go:263-270 | However many Gets have asked for a uid, a callback goes to the last of them, and to nobody exactly if none has. |
| LocalObjectStore.Server.GetFinish | go/cmd/localobjstore/main.go:236-258 | Copied bytes are kept and announced exactly if caching was asked for, and then with no size; a failing segment is an error of the Get and changes nothing. |
| LocalObjectStore.Server.Copy | go/cmd/localobjstore/main.go:272-298 | A copy is as many bytes as the published size says, the whole object if that is its length, and an error for an unpublished object. |
| LocalScheduler.OnlyHighBitGoes | go/cmd/localscheduler/main.go:86-90 | The bitwise and with the mask clears the high bit of a 64-bit draw and keeps the other 63 bits. |
| LocalScheduler.AndOnes | go/cmd/localscheduler/main.go:86-90 | Masking with k ones is the remainder modulo the k-th power of two, for every number and k. |
| LocalScheduler.Server.Schedule | go/cmd/localscheduler/main.go:93-151 | The lineage has the task and arguments and pins nothing; a pinned request goes to the global scheduler with its pin and without the locality flag, any other to the local worker while fewer than ten tasks run, and otherwise to the global scheduler with the client's flag. |
| LocalScheduler.FirstDispatchIs | go/cmd/localscheduler/main.go:100-148 | The same of the dispatch as a function: pin, flag, task, uids and destination for every load. |
| LocalScheduler.Server.KillServer | go/cmd/localscheduler/main.go:153-157 | No round of the heartbeat loop that begins before a revival sends a heartbeat. |
| LocalScheduler.Server.ReviveServer | go/cmd/localscheduler/main.go:159-162 | The next round sends one as soon as its two calls are answered. |
| LocalScheduler.Server.HeartbeatRound | go/cmd/localscheduler/main.go:184-241 | A round sends one heartbeat, after both retry loops, exactly if the server was alive when it began, and then waits 100 ms. |
| LocalScheduler.Server.SendHeartbeats | go/cmd/localscheduler/main.go:183-242 | Heartbeats are sent when the rounds, their retries and waits say, and not in rounds that a killed server begins. |
| Heartbeats.SleptIs | go/cmd/localscheduler/main.go:188-203 | Retries sleep one second less than the next power of two seconds up to five failures, and 32 seconds per failure beyond. |
| Heartbeats.RetryUntilAnswered | go/cmd/localscheduler/main.go:188-203 | The retry loop sleeps that long. |
| Heartbeats.LooksDeadIff | go/cmd/globalscheduler/main.go:113-119 | Between two heartbeats the global scheduler takes a node for live throughout, if and only if at most three rounds were skipped and no status call failed; one failure outlasts the timeout. |
| GlobalScheduler.Server.Heartbeat | go/cmd/globalscheduler/main.go:90-101 | The node is live from now, a full one counts one more queued task, and no other entry changes. |
| GlobalScheduler.Server.SendLiveNodes | go/cmd/globalscheduler/main.go:113-128 | The report says of every known node whether its heartbeat is younger than the timeout. |
| GlobalScheduler.BytesAddUp | go/cmd/globalscheduler/main.go:199-206 | The bytes of all recorded nodes, heartbeat or not, add up to the total. |
| GlobalScheduler.BytesAtSplit | go/cmd/globalscheduler/main.go:199-206 | Each object adds its size to a node once for each time it lists the node, and to the total once for each listing. |
| GlobalScheduler.ListedOnceCountsOnce | go/cmd/globalscheduler/main.go:199-206 | A node that is listed once, for one object, has that object's bytes. |
| GlobalScheduler.TallyAddsUp | go/cmd/globalscheduler/main.go:190-206 | So do the entries of a tally that is exact and misses no node with bytes. |
| GlobalScheduler.Server.TallyBytes | go/cmd/globalscheduler/main.go:190-206 | The nested loops give each node its bytes modulo 2^64, and below 2^64 the entries add up to the total. |
| GlobalScheduler.Server.AddEntry | go/cmd/globalscheduler/main.go:199-206 | One object adds its bytes once per listed location, to that node and to the total. |
| GlobalScheduler.MissingBytesExact | go/cmd/globalscheduler/main.go:227 | No node has more than the total, so the subtraction does not underflow below 2^64; above, it is right modulo 2^64. |
| GlobalScheduler.Server.Schedule | go/cmd/globalscheduler/main.go:130-143 | A pinned request goes to its node, any other to a node that waits least, or queues least where no bytes count; giving up means that no node may be chosen. |
| GlobalScheduler.Server.GetBestWorker | go/cmd/globalscheduler/main.go:170-283 | For every order of the keys, the result is a live node of minimal cost that beats the initial bound, and a failure exactly if there is none. |
| GlobalScheduler.BestWaitsLeast | go/cmd/globalscheduler/main.go:223-232 | Queued tasks times average time, plus the bytes that a node lacks divided by its bandwidth, is least at the chosen node among all live nodes with a non-zero bandwidth, for sums below 2^64. |
| GlobalScheduler.BestQueuesLeast | go/cmd/globalscheduler/main.go:252-262 | Where no bytes count, queued tasks times average time is least at the chosen node among all live nodes. |
| GlobalScheduler.MaxFloat32Is | go/cmd/globalscheduler/main.go:176 | The initial bound is (2^24 - 1) * 2^104. |
| GlobalScheduler.BestIsLive | go/cmd/globalscheduler/main.go:208-262 | Whatever the bandwidths and costs are, a best node is live. |
| GlobalScheduler.BestExistsIff | go/cmd/globalscheduler/main.go:279-282 | There is a best node exactly if some cost beats the initial bound. |
| GlobalScheduler.Server.CheapestWithLocality | go/cmd/globalscheduler/main.go:178-235 | The locality branch minimises queueing plus transfer of the missing bytes over the live nodes. |
| GlobalScheduler.Server.CheapestQueue | go/cmd/globalscheduler/main.go:236-267 | The other branch minimises queueing over the live nodes. |
| GlobalScheduler.FailsIffNoNodeIsLive | go/cmd/globalscheduler/main.go:208-282 | With positive bandwidths and costs below the bound, it fails exactly if no node is live. |
| GlobalScheduler.MostBytesWin | go/cmd/globalscheduler/main.go:208-235 | With equal queueing and bandwidth, the chosen live node has the most argument bytes. |
| GlobalScheduler.BranchesAgreeWithoutBytes | go/cmd/globalscheduler/main.go:177-269 | When the arguments have no recorded bytes, the two branches minimise the same cost. |
| ClusterInvariant.StepInv | go/cmd/localobjstore/main.go:147-298 | Every step of the cluster keeps its invariant: stored and travelling values are task values, recorded and told locations are holders, only submitted uids are dealt in, and every blocked reader is accounted for once. |
| ClusterInvariant.RunInv | go/cmd/localscheduler/main.go:93-151 | The invariant holds in every state of every run. |
| ClusterInvariant.TableFollowsCalls | go/cmd/gcsobjtable/main.go:300-472 | Every step changes the table by at most one possible handler call. |
| ClusterTheorems.SubmittedLineage | go/cmd/localscheduler/main.go:97-100 | A submitted task keeps the lineage it was submitted with, in every later state. |
| ClusterTheorems.LineageWasSubmitted | go/cmd/localscheduler/main.go:100 | Every uid with a lineage was submitted. |
| ClusterTheorems.ReplicaAgreement | go/cmd/localobjstore/main.go:147-258 | In every reachable state, with kills, re-executions and copies in any order, every copy of a uid on any node, and all that a Get of it returned, is the value of the one task submitted under it, with its length published. |
| ClusterTheorems.NothingFromNowhere | go/cmd/localobjstore/main.go:147-173 | Nothing is stored under a uid that was not submitted. |
| ClusterTheorems.UidsFitTheDatabase | go/cmd/localscheduler/main.go:98 | Every uid in the location table or its memory fits a signed 64-bit column. |
| ClusterTheorems.RecordedLocationsHold | go/cmd/localobjstore/main.go:272-280 | Every node in memory, on disk, in an announcement in flight or non-zero in a callback holds the object; a copy finds no object only when it was sent to node zero. |
| ClusterProgress.MailComesFrom | go/cmd/gcsobjtable/main.go:313-365 | In every run, each node that a reader is being told of announced the object, or is an answer to a lookup from the reader's own node; so it is told of node zero only by a lookup, or if node zero announced. |
| ClusterProgress.DeliveryIsTaken | go/cmd/localobjstore/main.go:196-226 | A reader takes one callback off its way and copies from the node that it names, or is done if it wants no copy. |
| ClusterProgress.CopyBringsTheValue | go/cmd/localobjstore/main.go:226-258 | In every run, a copy from a node other than zero returns the value of the submitted task, and with caching puts it on its way into the reader's own store, without a size. |
| ClusterProgress.LocalGetHasTheValue | go/cmd/localobjstore/main.go:176-182 | A Get of an object that its own store holds has that value at once. |
| ClusterProgress.ReaderIsServed | go/cmd/localobjstore/main.go:175-258 | There is a run, for every task and node, in which a reader asks first, is woken by the announcement, copies and returns the task's value; with caching its own node then holds the object and is listed. |
| ClusterDispatch.PlacingStemsFrom | go/cmd/localscheduler/main.go:100-143 | In every run, each request on its way to the global scheduler is the first dispatch of a submitted task or its lineage. |
| ClusterDispatch.PinIsKept | go/cmd/globalscheduler/main.go:139-144 | In every run, the first dispatch of a task that was submitted with a pin is placed on the pinned node and nowhere else, one without a pin keeps the client's locality flag, and a re-execution pins nothing and goes to a live node. |
| ClusterDispatch.RegisteringWasSent | go/cmd/localscheduler/main.go:124-128 | A task that is about to run on a node was placed there, or was submitted there without a pin while fewer than ten tasks ran. |
| ClusterTheorems.NoStrandedReader | go/cmd/localobjstore/main.go:191-196 | A blocked Get has at every moment exactly one of: a location request in flight, a waitlist entry, a callback on its way, a lookup lost at the disk; a Get that is not blocked has none; and waitlisted objects are recorded nowhere. |
| ClusterTheorems.StrandedIffLookupFailed | go/cmd/gcsobjtable/main.go:345-349 | In every run, a blocked Get has no request in flight, no place on the waitlist and no callback on its way, if and only if a lookup of its own missed memory and failed at the disk. |
| ClusterTheorems.LostOnlyAtTheDisk | go/cmd/gcsobjtable/main.go:345-349 | The account of lost lookups of a reader is positive in exactly these cases. |
| ClusterRuns.ReaderCanBeStranded | go/cmd/localobjstore/main.go:193-196 | Three steps from the start strand a reader: a task is submitted, its result is asked for, and the disk fails the lookup. |
| ClusterTheorems.LostReaderStaysBlocked | go/cmd/localobjstore/main.go:193-196 | No step wakes a reader whose lookup was lost. |
| ClusterTheorems.LostReaderIsNeverWoken | go/cmd/localobjstore/main.go:193-196 | In every run, a reader that is stranded once is stranded in every later state. |
| ClusterTheorems.CallsAreARun | go/cmd/gcsobjtable/main.go:300-472 | The table of a cluster is that of the run of handler calls made to it. |
| ClusterTheorems.NoTaskIsAbandoned | go/cmd/gcsobjtable/main.go:421-463 | With flushing off, once a submitted task was registered as generating, every report finds a live maker or holder or sends the submitted request once. |
| ClusterTheorems.WaitingReaderIsServed | go/cmd/gcsobjtable/main.go:421-463 | With flushing off, as long as a reader is on the waitlist, every report finds a live maker of its object or sends the submitted task out once, also if no maker was ever registered. |
| ClusterTheorems.ReportResendsSubmittedRequests | go/cmd/gcsobjtable/main.go:451-461 | What a report sends for a lost uid is the request it was submitted with, own uid and no pinned node. |
| ClusterTheorems.ReexecutionIsPlacedOnLiveNode | go/cmd/globalscheduler/main.go:142-161 | In every run, the node that is chosen for a re-execution has a fresh heartbeat and the least queueing time of all nodes that do. |
| ClusterTheorems.ReexecutionCanBePlacedIff | go/cmd/globalscheduler/main.go:236-282 | It can be placed exactly if some live node has a queueing time below the initial bound. |
| ClusterRuns.MakeAndAnnounce | go/cmd/worker/main.go:165-225 | A task that is about to run on a node that is not killed can be run, stored and announced there, and then the node is listed once more. |
| ClusterRuns.FlushingCanStopForGood | go/cmd/gcsobjtable/main.go:421-463 | A node makes an object, is silent for 400 ms, gets the task again and announces the object again; from then on no run flushes anything. |
| ClusterRuns.ReaderWaits | go/cmd/gcsobjtable/main.go:351-362 | A task is submitted and its result asked for: the reader is on the waitlist while the task is on its way. |
| ClusterRuns.UnfinishedTaskIsSentAgain | go/cmd/gcsobjtable/main.go:412-461 | A report at that point sends the task out a second time. |
| ClusterRuns.WaitingReaderCanBeForgotten | go/cmd/gcsobjtable/main.go:182-183 | After a lost dispatch and a flush of another object, a reader waits, nothing is in flight, and the sweep looks at nothing. |
| ClusterSizes.RunSized | go/cmd/localobjstore/main.go:171 | In every run, every size in flight or recorded is zero or the length of the value of the task submitted under its uid. |
| ClusterSizes.ToldBytesAreZeroOrLength | go/cmd/gcsobjtable/main.go:373-382 | What a scheduler is told of a submitted task's object, if memory has an entry for it, is zero or the length of the task's value. |
| ClusterSizes.SizesAreToldIff | go/cmd/gcsobjtable/main.go:307-310 | In every run, whenever memory lists a node for the object a scheduler is told the length of the task's value, if and only if that is zero or no announcement comes without a size to a table that has no entry for the object, or to an entry that has no size. |
| ClusterTheorems.LiveNodeKeepsItsObjects | go/cmd/globalscheduler/main.go:113-128 | A report takes a node for live while its heartbeat is younger than 400 ms, and reschedules nothing that such a node makes or is recorded to hold. |
| ClusterTheorems.ReexecutionSettles | go/cmd/gcsobjtable/main.go:397-463 | From a registration until the node is displaced, no report that finds it live reschedules the task. |
| RecoveryBound.SinceSilence | go/cmd/localscheduler/main.go:183-241 | After every step since a node fell silent, no report came after the timeout yet, or one has rescheduled the object in time. |
| RecoveryBound.RecoveryIsPrompt | go/cmd/globalscheduler/main.go:103-128 | An object whose only node fell silent is rescheduled at least 400 ms and less than 500 ms after that node's last heartbeat. |
| RecoveryBound.RecoveryIsNotHasty | go/cmd/gcsobjtable/main.go:421-463 | In every run, a report that reschedules an object for which the silent node still counts comes no sooner than 400 ms after the node's last heartbeat. |
| RecoveryBound.RecoveryHappens | go/cmd/globalscheduler/main.go:103-128 | There are such runs, for every node and task: one heartbeat, reports every 100 ms, and the object is rescheduled within 500 ms. |
| RecoveryBound.KilledNodeLooksDead | go/cmd/localscheduler/main.go:183-184 | In every run, from 400 ms after a scheduler was killed until it is revived, no report counts its node as live and only requests pinned to it are placed there. |
| RecoveryBound.KilledWorkerStoresNothing | go/cmd/worker/main.go:208-213 | In every run, no call on a killed worker puts a result on its way to the store before the worker is revived. |
| WorkerAdmission.StepInv | go/cmd/worker/main.go:165-225 | Every critical section keeps both counters equal to the number of calls at the matching points, and the tokens equal to the calls that hold one. |
| WorkerAdmission.CountersAreExact | go/cmd/worker/main.go:165-225 | In every interleaving at most ten calls run, running is exact, queued is exact below 2^32, and tokens cover the running calls. |
| WorkerAdmission.AdmittedIff | go/cmd/worker/main.go:172 | In every interleaving, a waiting call can take a token exactly while fewer than ten calls hold one. |
| WorkerAdmission.DecrementsAreCovered | go/cmd/worker/main.go:176-186 | No counter is taken below zero and no token is taken back that is not out. |
| WorkerAdmission.NothingLeaks | go/cmd/worker/main.go:181-186 | However calls ended, by a return, an error or Goexit, once all are gone nothing is counted and no token is out. |
| WorkerAdmission.Worker.EnterQueue | go/cmd/worker/main.go:168-170 | The call is counted as queued. |
| WorkerAdmission.Worker.TakeToken | go/cmd/worker/main.go:172 | The send takes one of ten tokens and changes no counter. |
| WorkerAdmission.Worker.StartRunning | go/cmd/worker/main.go:174-177 | The call moves from the queued to the running count in one section. |
| WorkerAdmission.Worker.MeasureTime | go/cmd/worker/main.go:219-222 | The average becomes nine tenths of itself and one tenth of the running time, and no counter changes. |
| WorkerAdmission.Worker.StopRunning | go/cmd/worker/main.go:180-183 | The deferred section uncounts the call, however it ended. |
| WorkerAdmission.Worker.ReturnToken | go/cmd/worker/main.go:184 | The token is given back after the call was uncounted. |
| WorkerAdmission.Worker.LeaveRun | go/cmd/worker/main.go:180-225 | A call that has executed sends its result exactly if the worker is alive, measures its time exactly if the result was stored as well, and in every case leaves through the deferred sections. |
| WorkerAdmission.Leaves | go/cmd/worker/main.go:180-225 | By either way out the call gives up its place among the running and its token, and the average changes only if it measured. |
| WorkerAdmission.Worker.KillServer | go/cmd/worker/main.go:227-232 | No call that ends before a revival sends a result or measures its time, and each still leaves through the deferred sections. |
| WorkerAdmission.Worker.ReviveServer | go/cmd/worker/main.go:234-237 | Calls that end from now on send their results, also those that were running when the worker was killed, and measure their time unless the store fails. |
| Framing.DecodeEncode | go/cmd/worker/main.go:118-120 | Base64 decoding inverts encoding, for every byte string. |
| Framing.SymbolIsInTable | go/cmd/worker/main.go:118-120 | The 64 symbols and the padding are those of the standard alphabet in section 4 of RFC 4648. |
| Framing.SameBits | go/cmd/worker/main.go:118-120 | Three bytes and their four sextets are the same 24 bits. |
| Framing.EncodingShape | go/cmd/worker/main.go:118-120 | Four symbols for every three bytes, rounded up, and exactly as much padding at the end as bytes lack. |
| Framing.OneLine | go/cmd/worker/main.go:118-130 | An encoding contains no line break. |
| Framing.SplitInThree | go/cmd/worker/execute.py:15 | Three line-free parts joined by newlines split into exactly these. |
| Framing.FrameRoundTrip | go/cmd/worker/execute.py:13-21 | For all byte strings, the reader gets exactly three parts and decodes them to the function, args and kwargs that were written. |
| Framing.WriteRequest | go/cmd/worker/main.go:111-130 | The buffer, written step by step, is one that the reader decodes to the three inputs. |
| Framing.ExceptionIsNoResult | go/cmd/worker/execute.py:30-34 | The text printed for an exception never decodes. |
| Framing.ExecutionRoundTrip | go/cmd/worker/main.go:151 | The worker decodes the value that the call returned, exactly if it returned one. |
| AppendOnlyFile.FormatThenParse | go/cmd/gcsobjtable/main.go:208 | Decimal printing is inverted by reading. |
| AppendOnlyFile.ValuesUnique | go/cmd/gcsobjtable/main.go:210-217 | Comma-joined lists of any length are printed differently unless equal. |
| AppendOnlyFile.NoLeadingZero | go/cmd/gcsobjtable/main.go:208 | No positive number is printed with a leading zero. |
| AppendOnlyFile.ValuesAreJoined | go/cmd/gcsobjtable/main.go:210-217 | Printing two lists one after the other is printing both with a comma between. |
| AppendOnlyFile.LineLooksLike | go/cmd/gcsobjtable/main.go:220 | Key 12 with nodes 3 and 40 is printed as 12, a colon, a space, both in brackets, and a line break; key 7 without nodes with empty brackets. |
| AppendOnlyFile.JoinValues | go/cmd/gcsobjtable/main.go:210-217 | The loop puts a comma before every value but the first. |
| AppendOnlyFile.BodyUnique | go/cmd/gcsobjtable/main.go:220 | A line has one reading as key and list. |
| AppendOnlyFile.TextIsUnambiguous | go/cmd/gcsobjtable/main.go:205-224 | Two maps that print the same text, walked in any two orders, are equal. |
| AppendOnlyFile.LinesAreUnambiguous | go/cmd/gcsobjtable/main.go:205-224 | So are two maps that print the same set of lines. |
| AppendOnlyFile.WriteObjectLocationsToAOF | go/cmd/gcsobjtable/main.go:193-231 | The file is extended, and by one of the texts of the map: one line per key, in some order that meets every key once. |

## Left out

- gRPC dialing, servers, contexts, timeouts, logging, configuration and memory reporting: a call is a step or a message, or is lost.
- SQLite itself: that a call fails for reasons of its own is an input; its limit on the number of statement variables is one of them.
- `WorkerAdmission.Worker.LeaveRun`: goes through its sections with none of another call between them; `WorkerAdmission.StepInv` and the run theorems are about every interleaving of the sections.
- Process exits of the global scheduler by `log.Fatalf`, and of the worker on a bad result: a step that would exit is not taken, or is a failure value.
- Cancellation of the local path's `RegisterGenerating` by the client's context is a registration that fails (`accepted` false).
- float32 rounding of costs and averages, and the bandwidth estimate, whose update is commented out.
- `LocalScheduler.Server.HeartbeatRound` and the recovery bound take calls to need no time; a control call in the middle of a round counts from the next one.
- A second `Get` of a uid while one is outstanding on the node: it replaces the first one's channel (go/cmd/localobjstore/main.go:191), and the first is promised nothing. A `Get` that reads its channel from the map only after another has replaced it is part of that case. The `Testing` flag and callbacks that carry a port are not modelled.
- A lineage registered twice at the same time, between the two locks of `RegisterLineage`; fresh uids rule it out.
- Shared-memory system calls: a segment is an entry of a map, written before its size is published. An object once stored stays in its store, as in the code.
- `LocalObjectStore.Server.Copy`: does not model a mapping that fails for another reason; step `CopyFails` of the cluster does.
- Pickling and the user's function are one parameter of `Framing.Main`; output that the function itself prints is not modelled, and neither is the tolerance of Python's decoder for characters outside the alphabet, which encoded input does not contain.
- `AppendOnlyFile.WriteObjectLocationsToAOF`: does not model errors of the file system.
- `pythonserver/worker.py`, the function table, the chain-replication stub, the generated protobuf code, the Python client, and the analysis scripts.
