# The zoo control plane, modelled in Dafny

zoo runs sandboxes for agents on Kubernetes, Docker and Mac hosts. Its control plane (`apps/server`) places pods on
nodes, keeps each sandbox's home volume, queues lifecycle jobs, caches requests, streams events, pages lists, stores
snapshots and encrypts secrets. This project models that logic and proves what it promises, over every input, every
run or every reachable state.

`dafny verify dfyconfig.toml` checks all of it.

## How it is laid out

| file | what it models |
|---|---|
| `PodDemand.dfy` | what a pod asks of a node: the one-pass count against the peak over a pod's startup, and rounding |
| `Placement.dfy` | one placement decision, as the loop over pods and reservations makes it |
| `PlacementProtocol.dfy` | placement over whole runs: listings, reservations, posts, releases, crashes and deletions |
| `HomeVolumes.dfy` | home volumes over whole runs: spares, refills, moves, cleanups, crashes and unknown commits |
| `HomeMoves.dfy` | the same without the job queue's exclusion: exactly when a move then loses a home |
| `SpareRefill.dfy` | one refill of the spare volumes |
| `Jobs.dfy`, `JobOutcomes.dfy`, `JobWorker.dfy` | the job queue as a state machine, what each transaction means for a job, and the worker's methods proved against it |
| `RequestCache.dfy`, `CacheCoherence.dfy` | the cache's table, and what a hit is worth while rows change |
| `EventStream.dfy` | the follower of a workspace's events with its window for late ones |
| `Paging.dfy` | filtered keyset pages, cursors, and following them to the end |
| `Outline.dfy` | the accessibility outline against trees |
| `SnapshotParts.dfy` | an archive stream cut into numbered objects and put together again |
| `RateLimit.dfy` | the sliding-window limit against a log that forgets nothing |
| `Idempotency.dfy` | idempotency keys, captured responses and replays |
| `PeerOwnership.dfy` | rendezvous choice of a gateway peer |
| `GuestStream.dfy` | a guest stream and its one reopening |
| `Envelope.dfy` | data keys, sealed values, settings and rotation |
| `Options.dfy`, `Text.dfy`, `Sums.dfy` | optional values, string order and partition, sums over sets |

Code that updates fields or loops is modelled by classes and methods with loops; each is proved against a
specification function, or states its property outright. Protocols across processes are state machines: a step is one
database transaction, one cluster call or one local action, and the theorems are about every interleaving of them.

## Where a promise needs a condition

Some promises hold only under a condition. Each has the condition stated exactly and an input, or a family of them,
that shows it is needed.

- Placement. Nodes are never overfilled as long as no sandbox is marked failed or deleting before its boot has posted
  its pod, or while a placement is in progress that listed the pods before that post. A boot job fails at its deadline
  while its thread still works (`apps/server/jobs.py:196-211`), marking takes no placement lock
  (`apps/server/sandbox_api.py:1347-1361`), and a failed sandbox's reservation is not listed (`db/query.sql:237-244`).
  `MarkingKeepsExactly` says that condition is exact for what placement relies on. `HiddenBootAccepts` and
  `HiddenBootOverfills` say exactly when the placement in progress is then accepted and when the node is overfilled.
  `MarkingBeforeThePostOverfills` and `MarkingAfterThePostOverfills` are runs that do it, one for each half.
- Moves. If boots did not wait for a sandbox's move, a switch would keep the home exactly when nothing was written
  between the move's copy and the switch (`SwitchKeepsHomeExactly`). The job queue's one job a sandbox, held by a boot
  or by a move, is what rules such writes out (`NoPodDuringAMove`). `ReachesStopped`, `ReachesReady` and `ReachesLoss`
  are a run without it that loses what was written.
- Events. A late event is sent exactly when fewer than PAGE recent events come before it (`StragglerSentExactly`).
- Idempotency. A second run begins exactly when the first is older than ABANDONED (`SecondRunExactly`), and then the
  first's response can be filed under the second's hash (`OverrunMisfiles`).
- Rate limit. `count` bounds every window that is open at either end. A window closed at both ends can hold up to twice
  as many, and more than `count` only with accepted hits at both its ends (`ClosedWindowHolds`); for every limit there
  is a log that reaches that bound (`ClosedWindowReached`).
- Snapshots. An archive comes back exactly when it is not empty and fits ten thousand parts (`RoundTrip`).
- Settings. A stored value stays readable exactly when what wrapped its data key is still configured
  (`ReadableExactly`).

## Assumptions

- Transactions are atomic, and the placement lock, the worker's lock and resource versions do what they are for.
- Clocks do not go back. Each transaction reads one instant. Job times are in microseconds.
- A database commit that changes a row notifies the workspace of the row as it was and as it is. The cache's theorem
  is about values whose rows do; rows without such a trigger, such as users, may be served up to TTL_SECONDS late.
- Keys that are read through the cache name their workspace, as a membership's identity does, and are read by loaders
  of the same workspace (`apps/server/auth_api.py:413-442`).
- A member's scope decides each sandbox's events once in a stream, as its memo does (`apps/server/events.py:86-103`).
- Text is ordered by code point. A hash, base64 and `isoformat` are parameters; what is needed of them is a `requires`.
- A ciphertext opens only with the key that sealed it.
- Non-sandbox pods do not change while sandboxes are placed. Sandbox pods are the ones that were posted for their
  reservations.
- A sandbox's boots and moves are jobs of its own, so the live map lets one of them run at a time.

## Model

| member | source | states |
|---|---|---|
| `PodDemand.OnePassIsPeak` | apps/server/kube.py:1360-1389 | without pod-level requests, the one-pass count equals the peak of simultaneous demand: no startup phase exceeds it and some phase reaches it |
| `PodDemand.NoPhaseExceeds` | apps/server/kube.py:1360-1389 | the demand of every phase, each init container with the sidecars before it and then all regular containers with all sidecars, is at most the count |
| `PodDemand.SomePhaseReaches` | apps/server/kube.py:1360-1389 | some phase asks for exactly the count, so the count is not an overestimate |
| `PodDemand.PodLevelDecides` | apps/server/kube.py:1380-1389 | a pod-level request decides alone for its resource, whatever the containers ask for; without one the count less overhead is the peak of the startup sequence |
| `PodDemand.CountPodRequests` | apps/server/kube.py:1360-1389 | the loops over containers and init containers compute the specified amount of CPU and memory, pod-level requests and overhead included |
| `PodDemand.CountInits` | apps/server/kube.py:1369-1379 | the init loop's running totals are the sidecar total and the highest init demand |
| `PodDemand.PostedPodMatchesReservation` | apps/server/kube.py:1605-1660 | the pod that is posted, with its overhead, counts for exactly what was reserved for it |
| `PodDemand.ReservationCovers` | apps/server/kube.py:1489-1492 | a reservation covers the request and the overhead together and exceeds them by less than two units |
| `PodDemand.RoundingIsConservative` | apps/server/kube.py:1353-1357 | what fits after rounding requests up and room down also fits in the unrounded quantities, for any number of pods |
| `Placement.ReserveNode` | apps/server/kube.py:1488-1595 | the decision: a conflict, no capacity, or the eligible node with the most room, ties to the first name, where room counts other pods and reservations not yet visible as pods |
| `Placement.RoomIsWhatIsLeft` | apps/server/kube.py:1528-1565 | a node's room is its allocatable amount, less the requests of every listed pod on it but the sandbox's own, sandbox or not, less every reservation of another sandbox there that no pod shows yet |
| `Placement.DecisionMeans` | apps/server/kube.py:1520-1527 | a conflict exactly when the two pins disagree; no capacity only when no node may be taken; else a node that respects the pins and fits both resources, unsurpassed in memory, then CPU, then name |
| `Placement.DecisionUnique` | apps/server/kube.py:1566-1579 | the decision is determined by the request, the fitting nodes and the room, not by any listing order |
| `Placement.CountPods` | apps/server/kube.py:1536-1555 | each node's room is reduced by its pods of other sandboxes, and every sandbox pod with a node is visible |
| `Placement.CountReservations` | apps/server/kube.py:1556-1565 | room is further reduced by exactly the reservations of others that no visible pod on that node stands for |
| `Placement.VisibleIsLast` | apps/server/kube.py:1539-1549 | a sandbox is shown on the node of its last listed pod that has one |
| `Placement.Choose` | apps/server/kube.py:1579-1579 | the chosen node is preferred to every other eligible one |
| `PlacementProtocol.NodesNeverOverfilled` | apps/server/kube.py:1488-1602 | in every run of listings, reservations, posts, releases, crashes, deletions, stale reservations and markings that meet the condition, pods plus reservations not yet posted stay within every node's CPU and memory |
| `PlacementProtocol.StepKeeps` | apps/server/kube.py:1701-1719 | every step of a boot and of placement keeps the invariant, including a reservation that commits against an older pod listing and a marking after the post |
| `PlacementProtocol.MarkingKeepsExactly` | db/query.sql:237-244 | marking a sandbox failed or deleting keeps what placement relies on if and only if no boot of it has yet to post and no placement in progress has missed its pod |
| `PlacementProtocol.CommitCountsAll` | apps/server/kube.py:1536-1565 | what a reservation counts covers every commitment on the node, although its pods were listed before it committed |
| `PlacementProtocol.HiddenBootFreesRoom` | apps/server/kube.py:1536-1565 | with nothing stale, marking a sandbox makes a node look emptier to a placement in progress by exactly what that placement has not seen of it, posted or not |
| `PlacementProtocol.HiddenBootAccepts` | apps/server/kube.py:1556-1579 | the placement is then accepted if and only if its request fits beside everything but what it has not seen |
| `PlacementProtocol.HiddenBootOverfills` | apps/server/kube.py:1556-1602 | and the node is then overfilled if and only if the request does not fit beside everything |
| `PlacementProtocol.MarkingBeforeThePostOverfills` | apps/server/sandbox_api.py:1347-1361 | a run the code allows: a sandbox is marked before its pod is posted, and the node is overfilled |
| `PlacementProtocol.MarkingAfterThePostOverfills` | apps/server/kube.py:1536-1565 | another: it is marked after its post, between a placement's listing of pods and its listing of reservations |
| `PlacementProtocol.PostedCounts` | apps/server/kube.py:1605-1660 | a pod posted for a reservation counts for exactly that reservation when it is listed |
| `HomeVolumes.HomesNeverLost` | apps/server/kube.py:1875-1915 | at every point of every run, with any writes by running sandboxes, the claim a sandbox's row names holds its latest home, through crashes, retries and switches whose commit is unknown |
| `HomeVolumes.NoPodDuringAMove` | apps/server/jobs.py:116-124 | a sandbox whose move is under way has no pod, because boots and moves share its one job |
| `HomeVolumes.DeletionsAreSafe` | apps/server/kube.py:123-152 | no step deletes a claim that is mounted or that any row names as its home; one deleted while referenced is a source a committed move left |
| `HomeVolumes.NoClaimHasTwoOwners` | apps/server/kube.py:1179-1223 | a claim that was one sandbox's home is never named by another's row, then or later, so no spare is assigned twice |
| `HomeVolumes.SourceRecordedUntilGone` | db/query.sql:190-213 | a home switched away from stays recorded as the previous home until its claim is gone |
| `HomeVolumes.StepKeeps` | apps/server/kube.py:1096-1254 | every boot, write, spare, refill, move and cleanup step keeps ownership, the slots and contents, and deletes no claim that was a home but a previous one |
| `HomeMoves.SwitchKeepsHomeExactly` | apps/server/kube.py:1895-1908 | in any run in which boots need not wait for moves, a switch keeps the home if and only if the latest version at the switch is the one at the copy |
| `HomeMoves.WriteDuringMoveIsLost` | apps/server/kube.py:1895-1908 | in such a run, whatever is written between the copy and the switch is lost |
| `HomeMoves.LooseKeeps` | apps/server/kube.py:1875-1915 | even then every step keeps ownership, targets and copies |
| `HomeMoves.ReachesLoss` | apps/server/kube.py:1895-1908 | a run that boots, writes to and stops a sandbox inside its move ends without what was written |
| `SpareRefill.Cluster.Refill` | apps/server/kube.py:1226-1254 | succeeds if and only if every listed claim a row refers to can be made its sandbox's; no referenced or mounted claim is ever deleted; on success every eligible node has exactly the configured spares, keeping those it had while too few and making none while enough, every useless listed claim is deleted, unlisted claims are unchanged and referenced ones relabelled |
| `SpareRefill.Cluster.Judge` | apps/server/kube.py:1233-1248 | fails if and only if a row refers to a claim that is not going and cannot be made its sandbox's; else the claim is helped, left alone, kept as its node's spare, or deleted exactly if useless |
| `SpareRefill.Cluster.Settle` | apps/server/kube.py:1249-1253 | one node ends with exactly the configured number of spares, keeping what it can, other nodes unchanged |
| `SpareRefill.AvailableIsAsCreated` | apps/server/kube.py:1122-1144 | an available spare is exactly a claim that no row or pod has and that is still as it was created for the node |
| `Jobs.OneThreadPerSandbox` | apps/server/jobs.py:116-150 | in every reachable state, through expiry, shutdown and restart, no two threads work on one sandbox and at most PARALLEL work |
| `Jobs.RunsAreBounded` | apps/server/jobs.py:152-211 | a handler runs at most its attempts, plus MAX_WAIT / WAIT_POLL + 1 waits, plus one for every interruption; its failure is reported at most once, and then the job has failed |
| `Jobs.NoJobFailsEarly` | apps/server/jobs.py:152-211 | in every reachable state a failed job, when it failed, had used all its attempts, or had been there longer than MAX_WAIT, or had a deadline past or no further off than the longest backoff |
| `Jobs.StepKeepsExclusive` | apps/server/jobs.py:116-150 | every step keeps `live` and the threads in one-to-one correspondence |
| `Jobs.StepAccounts` | db/query.sql:858-877 | every step keeps runs equal to attempts plus waits plus interruptions, attempts within their limit, and waits WAIT_POLL apart |
| `Jobs.EndedStaysEnded` | db/query.sql:858-882 | no step changes a job that has ended, not even its own thread |
| `JobWorker.NothingDueLeft` | apps/server/jobs.py:226-235 | after a pass a due job is still queued only if the worker is closing or full or its sandbox is busy |
| `JobWorker.PassInOrder` | apps/server/jobs.py:226-235 | a pass takes due jobs in order: if one stays queued with its sandbox free, the worker was closing or full when it came to it and nothing after it was claimed |
| `JobWorker.DelayIsTheAttempts` | apps/server/jobs.py:153-153 | attempt k waits for the backoff's k-th entry, later ones for the last |
| `JobOutcomes.SuccessMeans` | apps/server/jobs.py:141-143 | a finished handler's job has succeeded unless it had ended, and nothing else changes |
| `JobOutcomes.ErrorMeans` | apps/server/jobs.py:152-165 | retried after the delay exactly if an attempt is left and the deadline is further off, else failed and reported; a lost job is left alone |
| `JobOutcomes.WaitMeans` | apps/server/jobs.py:167-183 | looks again in 15 seconds with its attempt back and a new deadline if no older than two hours, else failed and reported |
| `JobOutcomes.LeaveMeans` | apps/server/jobs.py:144-148 | a thread's end frees its own sandbox and no other, and touches no job |
| `JobOutcomes.ExpireMeans` | apps/server/jobs.py:196-211 | exactly the unfinished jobs past their deadline fail, each reported once, with `live` and threads unchanged |
| `JobOutcomes.RecoverMeans` | apps/server/jobs.py:213-218 | exactly the running jobs are queued again, without the interrupted attempt |
| `JobWorker.Worker.Claim` | apps/server/jobs.py:116-124 | the claim transaction: at most one live job a sandbox, and the attempt counted |
| `JobWorker.Worker.Execute` | apps/server/jobs.py:126-150 | success, wait or error settles the job, and the thread then leaves |
| `JobWorker.Worker.RetryOrFail` | apps/server/jobs.py:152-165 | a retry within attempts and deadline, or failure and its report |
| `JobWorker.Worker.Defer` | apps/server/jobs.py:167-183 | a wait gives the attempt back and renews the deadline, or fails past MAX_WAIT |
| `JobWorker.Worker.Expire` | apps/server/jobs.py:196-211 | every overdue unfinished job fails, each reported once, and no other changes |
| `JobWorker.Worker.Recover` | apps/server/jobs.py:213-218 | every running job is queued again without its attempt |
| `JobWorker.Worker.RequeueLive` | apps/server/jobs.py:242-253 | a shutdown queues exactly what is still live and running again |
| `JobWorker.Worker.Pass` | apps/server/jobs.py:226-235 | a dispatch pass claims due jobs in order until the worker is closing or full |
| `JobWorker.Worker.constructor` | apps/server/jobs.py:56-63 | a new worker with an empty queue is the state every run starts from |
| `RequestCache.Cache.Invalidate` | apps/server/cache.py:36-43 | a notice removes exactly the entries of its workspace and of none, in order, and starts a new generation |
| `RequestCache.Cache.Lookup` | apps/server/cache.py:45-54 | a hit exactly when ready and an unexpired entry exists, and it becomes the most recently used; a miss drops the entry |
| `RequestCache.Cache.Store` | apps/server/cache.py:55-63 | a value is kept only if it was loaded in the current generation; the table stays within MAX_ENTRIES, dropping its first entry |
| `RequestCache.StoredHolds` | apps/server/cache.py:60-63 | what is stored is there, and nothing else is lost but the key's old entry and the first of a full table |
| `RequestCache.Cache.constructor` | apps/server/cache.py:30-34 | a new cache is empty and not ready |
| `CacheCoherence.HitsAreCurrent` | apps/server/cache.py:36-63 | at every point of every run a hit whose workspace has no notification on its way equals what the loader would return now, nested loads and loads overlapping an invalidation included; the table is bounded |
| `CacheCoherence.StepKeeps` | apps/server/cache.py:65-109 | commits, deliveries, notices that name no workspace, disconnects, reconnects, hits, misses, loads and stores all keep entries and current loads sound |
| `CacheCoherence.CombineSound` | apps/server/auth_api.py:408-442 | a value combined from a sound row and a sound value read through the cache is sound |
| `EventStream.NothingSentTwice` | apps/server/events.py:137-174 | over any run no event is sent twice although old sends are forgotten, none the member may not see, none from before the start |
| `EventStream.EverythingSeenIsSent` | apps/server/events.py:137-174 | every visible event above the start that a turn's snapshots show, late and recent with fewer than PAGE such events before it, or new with fewer than PAGE new ones before it, has been sent from then on |
| `EventStream.StragglerSentExactly` | apps/server/events.py:122-134 | a visible late event of the snapshot that was not sent is sent if and only if fewer than PAGE events of the snapshot in the late window come before it |
| `EventStream.NewEventsSent` | apps/server/events.py:106-119 | no visible event between the old and the new reading point is skipped, however many there are |
| `EventStream.ReadsExactly` | apps/server/events.py:106-119 | a turn passes a new event of its snapshot if and only if fewer than PAGE new ones come before it, and the reading point rests on an event of the snapshot |
| `EventStream.NewEventSent` | apps/server/events.py:153-165 | a new event with fewer than PAGE new ones before it is passed, and sent if visible |
| `EventStream.TurnSendsInOrder` | apps/server/events.py:157-162 | what a turn sends, late and new together, is in ascending number |
| `EventStream.FullPageExactly` | apps/server/events.py:166-167 | a turn is followed by another at once exactly if the snapshot held at least PAGE new events |
| `EventStream.OldSendsForgotten` | apps/server/events.py:164-165 | after a turn, no send of an event older than the late window is remembered |
| `EventStream.BacklogWorkedOff` | apps/server/events.py:152-167 | over any run, an event every turn sees is passed, and sent if visible, once there were more turns than pages of events before it |
| `EventStream.Follower.Poll` | apps/server/events.py:153-167 | one turn of the loop computes the specified turn, and asks for another at once exactly after a full page |
| `EventStream.Follower.constructor` | apps/server/events.py:137-143 | a new stream has sent nothing and starts every run |
| `Paging.WalkFindsAll` | apps/server/pages.py:48-68 | following cursors gives exactly the rows the filter accepts in the first request's table, at increasing positions, each once, whatever the limits and newer rows; the cursor is null exactly when none remains, within one request more than there are such rows |
| `Paging.PageSplits` | apps/server/pages.py:54-68 | a page is no longer than its limit, and with what its cursor leaves it is what there was |
| `Paging.PageMeans` | apps/server/pages.py:54-68 | a page is the first `limit` of the accepted rows below the cursor, by position, and its cursor is the last one's position exactly when there are more |
| `Paging.LeftMeans` | db/query.sql:1462-1468 | what is left after any cursor is exactly the accepted rows below it, once each and in order |
| `Paging.Collect` | apps/server/pages.py:54-68 | the batches compute the page of the table as the first one saw it, although each reads the table as it is by then, and end |
| `Paging.LeftExtended` | db/query.sql:1460-1468 | newer rows do not change what a cursor leaves |
| `Paging.FetchExtended` | db/query.sql:1462-1468 | newer rows do not change what a batch after a row returns |
| `Paging.CursorRoundTrip` | apps/server/pages.py:24-35 | a cursor decodes to the position it was made from, whatever the id holds |
| `Outline.RenderIsOutline` | apps/server/a11y.py:53-81 | a pre-order listing renders as the outline of its trees with dropped elements replaced by their children, each line indented by its kept ancestors |
| `Outline.NeverJumps` | apps/server/a11y.py:53-81 | for any depths, the first line is at the margin and none is more than one level deeper than the one before |
| `Outline.Render` | apps/server/a11y.py:56-81 | the loop with its stack computes the specified lines |
| `SnapshotParts.RoundTrip` | apps/server/remote_snapshots.py:34-91 | however the stream is chunked: restored exactly if not empty and at most ten thousand parts long, gone if empty, refused if longer |
| `SnapshotParts.Snapshot` | apps/server/remote_snapshots.py:34-59 | the parts joined are the stream, all full but the last, numbered in order; a failed stream leaves nothing |
| `SnapshotParts.Restore` | apps/server/remote_snapshots.py:75-91 | gone without objects, refused unless the sorted names are the numbered ones, else the objects joined |
| `SnapshotParts.SortedNames` | apps/server/remote_snapshots.py:77-81 | sorting the names gives number order if and only if there are at most ten thousand |
| `SnapshotParts.CutCount` | apps/server/remote_snapshots.py:43-56 | how many parts an archive of a length takes |
| `RateLimit.WindowHolds` | apps/server/limits.py:15-28 | no window open at either end holds more than `count` accepted hits of a key |
| `RateLimit.ClosedWindowHolds` | apps/server/limits.py:19-21 | a window closed at both ends holds at most twice `count`, and more than `count` only with accepted hits at both its ends |
| `RateLimit.ClosedWindowReached` | apps/server/limits.py:19-21 | for every count and window an accepted log reaches twice `count` in a closed window |
| `RateLimit.Limit.Run` | apps/server/limits.py:15-28 | over any checks, each decided by the whole log before it, no window open at either end ever holds more than `count` |
| `RateLimit.Limit.constructor` | apps/server/limits.py:10-13 | a new limit has no hits and starts every run |
| `RateLimit.Limit.Check` | apps/server/limits.py:15-28 | whatever was popped or pruned, a hit is accepted if and only if the whole log has room; a refused one finds room from the time it is told on and none more than a second sooner; past 10,000 keys only those with a hit in the window stay |
| `RateLimit.AllPruned` | apps/server/limits.py:27-28 | pruning idle keys keeps every key's hits as the log has them |
| `Idempotency.OneRunPerKey` | apps/server/idempotency.py:32-41 | while no run outlasts ABANDONED, no two runs share an owner and key, through crashes, purges and retries |
| `Idempotency.ReplaysAreEarned` | apps/server/idempotency.py:101-112 | every replay is the response of an ended run with the same owner, key and hash |
| `Idempotency.CompletedOnce` | apps/server/idempotency.py:32-41 | once a run's response is kept, for RETENTION no run is on its key, every repeat gets that response and any other request is refused, in every run |
| `Idempotency.AnsweredReplays` | apps/server/idempotency.py:101-112 | a key with an answer replays it to its own hash and refuses any other, at any time |
| `Idempotency.EndAnswers` | apps/server/idempotency.py:140-153 | a response that may be kept becomes the key's answer under the run's own hash; any other frees the key |
| `Idempotency.SecondRunExactly` | apps/server/idempotency.py:37-40 | a second run begins if and only if the first is older than ABANDONED; until then the answer is in-progress or reused |
| `Idempotency.OverrunMisfiles` | apps/server/idempotency.py:44-51 | a run that outlasts ABANDONED can leave its response under another request's hash |
| `Idempotency.Capture` | apps/server/idempotency.py:123-148 | the whole response is kept exactly when its status is below 500, it fits 1 MiB, it is no event stream and it is text |
| `Idempotency.HeadIsLastStart` | apps/server/idempotency.py:123-132 | the last start message decides status and content type; without one the response is a 500 |
| `Idempotency.SentJoins` | apps/server/idempotency.py:133-137 | the body is the bytes of the body messages, end to end |
| `Idempotency.Table.Claim` | apps/server/idempotency.py:32-41 | a request runs, is replayed, is refused or waits, as the key's row decides, and the row is new exactly when it runs |
| `Idempotency.Table.Finish` | apps/server/idempotency.py:44-56 | the response is kept under the key, or the key is released |
| `PeerOwnership.PeerOwner` | apps/server/gateway_client.py:45-48 | the peer with the highest hash, ties to the first address; an error exactly for a missing identity or bad peers |
| `PeerOwnership.NormalizePeers` | apps/server/gateway_client.py:29-42 | the distinct canonical peers in order; refused exactly for a bad address or none |
| `PeerOwnership.SamePeersSameOwner` | apps/server/gateway_client.py:29-48 | order, repetition and spelling of the list do not matter |
| `PeerOwnership.AddingMovesToNew` | apps/server/gateway_client.py:45-48 | adding a peer moves a resource only to that peer |
| `PeerOwnership.RemovingMovesOwned` | apps/server/gateway_client.py:45-48 | removing a peer moves a resource if and only if the peer owned it |
| `GuestStream.Stream.Run` | apps/server/guest.py:199-236 | however sends, pulls, answers, failures and ownership changes fall, every accepted frame was pulled once, in order, or is still queued |
| `GuestStream.Stream.Reopen` | apps/server/gateway_client.py:308-321 | a change of owner before any answer reopens once and keeps the queue; otherwise the stream ends |
| `GuestStream.Stream.Pull` | apps/server/gateway_client.py:294-306 | only the opening frame is pulled before an answer, and queued frames in order after it |
| `GuestStream.Stream.Send` | apps/server/guest.py:237-248 | a frame is queued, or refused by a closed stream, or a full queue closes the stream |
| `Envelope.Keyring.Run` | apps/server/security.py:41-93 | through any encryptions, rotations and settings that keep old keys available, by this process or another, every stored value stays readable by a process that has just started |
| `Envelope.Keyring.constructor` | apps/server/security.py:37-38 | a new installation has no keys and no values, and everything stored from then on stays readable |
| `Envelope.Keyring.Rotate` | apps/server/security.py:186-193 | every data key stays the same and then opens under the current setting alone; the rotating process forgets the keys it had unwrapped |
| `Envelope.Keyring.Encrypt` | apps/server/security.py:86-88 | a value is sealed with its scope's one data key, the newly made one if there was none, and no other key changes |
| `Envelope.Keyring.DataKey` | apps/server/security.py:41-49 | a scope's data key is the one it has, or the newly generated one, wrapped under the current setting |
| `Envelope.Keyring.Decrypt` | apps/server/security.py:91-93 | a stored value opens to its plain text; anything else is refused |
| `Envelope.ReadableExactly` | apps/server/kms.py:40-75 | after a change of settings a value is readable if and only if what wrapped its data key is still there |
| `Envelope.OldKeysMayGo` | apps/server/kms.py:40-44 | after a rotation, a setting with only the current key reads every value |
| `Envelope.TryKeys` | apps/server/kms.py:40-44 | trying the keys in turn opens what any of them sealed and nothing else |
| `Envelope.TokenRoundTrip` | apps/server/security.py:86-93 | a token comes apart into its key id and sealed part |
| `Envelope.WrappedTextRoundTrip` | apps/server/kms.py:47-75 | a wrapped key comes apart as it was put together, whatever colons its ciphertext holds |

## Left out

- A reservation refused because the sandbox changed meanwhile (`apps/server/kube.py:1586-1594`): in a run it is the step that gives up.
- Node fitness (taints, selectors, readiness, volume affinity) before placement: a set of fitting nodes is a parameter of `ReserveNode`.
- Deleting a sandbox's row and its home, and pool sandboxes' own rows: placement and homes treat them as sandboxes.
- SpareRefill.Cluster.Own: the three attempts against a changed resource version are one atomic check and write.
- HomeVolumes: creating a claim waits for binding and a copy is one step; partial copies are not seen by a switch.
- Jobs: `drain` and inline mode, which ignore backoff; handlers are only their outcomes.
- JobWorker.Worker.Execute: states a thread's end without other threads between its steps; `Jobs` has the interleavings.
- CacheCoherence: an expired entry is only a miss; TTL plays no part in what a hit is worth.
- Scope.allows: a member's label selector is the `visible` flag of an event.
- EventStream: keepalives, and purging of old events.
- Outline.Render: whether an element is dropped, and the text of its line, come with the element.
- Paging: rows deleted between pages; a filter whose answer for a row changes between pages.
- SnapshotParts: gzip and tar, whose bytes are an opaque stream; the Docker and Kubernetes helpers' own uploads.
- RateLimit: floating-point rounding of instants, which are real numbers here; `reset`, which forgets every hit.
- Idempotency: the digests of owner and request, which are parameters; messages after a disconnect.
- GuestStream.Stream.Send: a send that waits for room is the send at the moment there is room; one to a full queue is the send whose five seconds ran out, which closes the stream.
- Envelope: a malformed KMS setting, KMS credentials and the network.
- Quotas, metering, webhooks, SSH, VNC, MCP and the HTTP routes.
