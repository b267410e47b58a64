# Math tutor backend: a Dafny model and its proofs

The repository is a tutoring backend for junior-high mathematics: a Python service with a learning-task
queue, a retrieval pipeline, adaptive exercises and a correction workflow, behind a Go gateway. This
project models the parts of it that have state, concurrency or a wire format, and proves what they keep.

| component | files here | repository |
|---|---|---|
| Durable task queue, workers, idempotent archive | `MemoryStore`, `RedisQueue`, `RedisSafety`, `QueueProtocol`, `QueueInvariant`, `QueueTheorems`, `QueueProgress`, `QueueStranded`, `QueueShut`, `QueueRecords` | `agentic_rag/task_queue.py`, `worker.py`, `agentic_rag/memory.py` |
| In-process queue backend | `LocalQueue`, `LocalQueueRuns` | `agentic_rag/task_queue.py` |
| Gateway idempotency store | `Idempotency`, `IdempotencyRuns`, `IdempotencySimulation` | `gateway/main.go` |
| Protobuf codec | `Bytes`, `Words`, `Varint`, `ProtoFields`, `ProtoCodec` | `gateway/proto_codec.go` |
| RESP codec | `Resp` | `gateway/redis_store.go` |
| Knowledge graph, rank fusion, quadratic solver | `KnowledgeGraph`, `Fusion`, `Quadratic` | `agentic_rag/knowledge_graph.py`, `agentic_rag/math_retriever.py`, `agentic_rag/deterministic_tutor.py` |
| Exercise sessions and generation | `ExerciseStore`, `ExerciseGenerator` | `agentic_rag/exercises/`, `agentic_rag/fast_path.py` |
| Correction workflow | `Workflow` | `agentic_rag/graph.py`, `agentic_rag/nodes.py` |

`dafny verify dfyconfig.toml` checks everything.

## How it is built

Each Lua script, Redis command, database transaction or locked region is one atomic step. A component has
a value that stands for its state, specification functions that say what one step makes of that value, and
a class or method in the source's own form -- fields assigned in place, loops over offsets, dictionaries
reassigned -- proved to do exactly that. The lemmas are about runs of those steps: any number of workers,
handlers or requests, in any interleaving, with crashes, expiring leases and messages handed out twice.

The queue (`QueueProtocol.System`) has workers that fetch, claim, handle, commit and crash between any two
steps. `QueueProtocol.Inv` holds in every reachable state; `RedisSafety` proves the part of it that is
about Redis alone, script by script, and `QueueInvariant` step by step the part about workers and the
memory database. A worker's recovered messages are a list that may hold duplicates and ids that were
deleted long ago.

The idempotency store is one machine per key (`Idempotency.Cell`: absent, in flight, finished), which the
two maps and the Redis cell both refine; `IdempotencySimulation` then runs the two backends side by side.
The codecs are parsers over arbitrary byte strings. Their varint loops work on 64-bit words with the
source's masks, shifts and ors; `Words` ties those to the numbers the specification is about.

In the exercise requests (`ExerciseGenerator.Desk`) reading the session, searching and starting are
separate steps, so requests on one session may overlap. In `LocalQueue` the queue, the table and the
workers share task dictionaries; which entries are shared objects is part of the state.

## What the proofs show about the code

Some expectations about the code hold only under a condition, which is proved with it:

- A Redis idempotency lease lapses with its time to live, so two handlers may own one key at the same time.
  A new handler becomes a second owner if and only if the key's cell is free, and then the first one's lease
  has lapsed (`SecondOwnerExactlyWhen`); the handler whose lease lapsed can change nothing
  (`LapsedOwnerIsPowerless`). On the two maps a lease never lapses and owners exclude each other.
- The two backends decide alike when `get` and `reserve` happen at one instant. `reserve` alone, on the two
  maps, still refuses on an expired record that no `get` has purged (`LocalReserveAlone`). Over whole
  interleavings they hold the same keys and give every client the same answer if and only if no lease lapses;
  a handler that Redis refused at its look-up finds the key still held on the maps when it reserves there, and
  under the fingerprint of its own request if and only if Redis had answered "in progress"; and no expired
  record is in the way of any other reserve of a free key (`BackendsRunInLockStep`). A key that changes hands
  in between makes Redis answer "in progress" where the maps answer "conflict" (`AnswersMayDiffer`).
- The MySQL and SQLite transactions of `add_memory` differ exactly when an effect row holds NULL.
- Not every acknowledged stream entry is deleted: a worker that dies between XACK and XDEL, or gets an
  exception from XDEL, leaves one that nobody can reach any more exactly when no worker has a copy of the
  message (`CrashLeavesEntry`, `ExceptionLeavesEntry`, `StrandedForGoodExactlyWhen`). It belongs to a finished
  task, but it counts against the capacity. Some run leaves such an entry if and only if tasks are accepted
  and have a second attempt (`LeftExactlyWhen`); with a second attempt some run leaves so many that every
  enqueue is refused for good, and with one attempt only none does (`ShutExactlyWhen`).
- A codec that skips unknown fields: requests and responses do, an event refuses every unknown field, a
  readiness response refuses all but length-delimited ones.
- The RESP reader does not guard the lengths it allocates. It panics if and only if a scan of the bytes from
  left to right, header by header with a count of the replies still owed, meets an array length that is
  negative or more than `make` admits, or a bulk length whose sum with 2 wraps around or is more than that,
  before anything malformed (`PanicsExactlyWhen`). The null array `*-1` is one such input.
- A started exercise repeats a recent one only if that one was started after its own request had read the
  session; overlapping requests do repeat (`OverlapRepeats`).
- The 24-step guard of the workflow can fire if and only if 12 + 8 * MAX_CORRECTION_ATTEMPTS exceeds it.
- The failure answers of the workflow set `validation_passed`. So a finished run is never recorded as a bad
  case (agentic_rag/tracing.py:72-79), memory is consolidated after refusals too, and the edge from
  validation to clarification is never taken.

## Model

| member | source | states |
|---|---|---|
| `MemoryStore.BackendsAgree` | agentic_rag/memory.py:161-195 | the MySQL and the SQLite transaction give the same tables and id if and only if the key has no effect row holding NULL |
| `MemoryStore.AddRowKeeps` | agentic_rag/memory.py:161-195 | either transaction keeps one row per key and every older row, effect and vector, and returns the id recorded under the key; without a key, or for a new one, that is a new row that holds what was asked for |
| `MemoryStore.AddRowStores` | agentic_rag/memory.py:149-195 | a known key changes nothing and gives its id; otherwise exactly one row is new, under the next id: user and session as they are, cut to 128 characters, or "anonymous" for an empty one, each in its own column; an allowed kind or "knowledge_gap"; the importance or the nearer of 1 and 10; the text unchanged |
| `MemoryStore.MemoryDb.Commit` | agentic_rag/memory.py:153-195 | an empty text stores nothing and returns None; otherwise the tables and the id are those of the backend's transaction, and a new row holds user, session, kind, importance and text as asked for, each in its column |
| `MemoryStore.MemoryDb.AddMemory` | agentic_rag/memory.py:153-197 | the transaction, then the vector of the text stored under the returned id |
| `RedisQueue.FirstEntry` | agentic_rag/task_queue.py:271-284 | the entry a read delivers is the least undelivered one |
| `RedisQueue.RedisServer.Enqueue` | agentic_rag/task_queue.py:88-94 | the enqueue script: refused at capacity, else hash and stream entry together |
| `RedisQueue.RedisServer.Claim` | agentic_rag/task_queue.py:153-160 | the claim script: -1 for a finished task, 0 under a lease, else lease, next attempt number and status running; on a missing hash it creates one |
| `RedisQueue.RedisServer.Complete` | agentic_rag/task_queue.py:192-202 | the complete script: nothing without the lease token, else result, status, lease and message change together, on a missing hash too |
| `RedisQueue.RedisServer.Fail` | agentic_rag/task_queue.py:213-241 | the fail script: nothing without the lease token, else requeue below the attempt limit and dead letter from it on, on a missing hash too |
| `RedisQueue.RedisServer.ReadGroup` | agentic_rag/task_queue.py:271-286 | XREADGROUP with COUNT 1: the first undelivered entry becomes pending for the consumer |
| `RedisQueue.QueueClient.NextItem` | agentic_rag/task_queue.py:263-286 | a recovered message first, in order, without touching Redis; otherwise a group read |
| `RedisQueue.QueueClient.RecoverStaleClaims` | agentic_rag/task_queue.py:296-317 | claims the idle entries and queues those that fit, leaving the others pending |
| `RedisSafety.EnqueueKeeps` | agentic_rag/task_queue.py:88-94 | the enqueue script keeps the Redis invariant (no unfinished task without a live message, no entry outside the pending list but of finished tasks, leases only on running tasks, results only on done tasks, one dead letter per failed task) and only moves tasks, messages and leases forward |
| `RedisSafety.ClaimKeeps` | agentic_rag/task_queue.py:153-160 | the claim script keeps it, and a lease it grants carries the new token |
| `RedisSafety.CompleteKeeps` | agentic_rag/task_queue.py:192-202 | the complete script keeps it for any delivered message, also one already deleted |
| `RedisSafety.FailKeeps` | agentic_rag/task_queue.py:213-241 | the fail script keeps it if a caller that holds the lease has the current attempt number |
| `RedisSafety.ReadGroupKeeps` | agentic_rag/task_queue.py:271-286 | a group read keeps it, and what it delivers is a message of a known task |
| `RedisSafety.AutoClaimKeeps` | agentic_rag/task_queue.py:303-310 | XAUTOCLAIM of any pending entries keeps it |
| `RedisSafety.AckKeeps` | agentic_rag/task_queue.py:162-165 | acknowledging a message of a finished task keeps it |
| `RedisSafety.DelKeeps` | agentic_rag/task_queue.py:162-165 | deleting an acknowledged message of a finished task keeps it |
| `RedisSafety.ExpireKeeps` | agentic_rag/task_queue.py:156 | the expiry of any lease at any time keeps it |
| `RedisSafety.ClaimAnswers` | agentic_rag/task_queue.py:153-160 | claim answers -1 and changes nothing for a finished task, 0 and nothing under a lease, else the next attempt number with the lease under the token and the hash running; a missing hash becomes one with that attempt and nothing else |
| `RedisSafety.LeaseDecides` | agentic_rag/task_queue.py:192-241 | complete commits if and only if the caller holds the lease; fail asks for a retry if and only if it does and the attempts are below the limit |
| `RedisSafety.MessagesAreAssigned` | agentic_rag/task_queue.py:271-310 | a read and a recovery assign exactly the messages they hand out to the worker that asked |
| `RedisSafety.PutsWhatFits` | agentic_rag/task_queue.py:311-317 | of the recovered messages as many as fit are queued, in order, and a full queue takes none |
| `QueueInvariant.NewClaimIsNew` | agentic_rag/task_queue.py:149-170 | a successful claim is no other worker's claim: its token is fresh and its attempt number is the next one |
| `QueueInvariant.ClaimRaisesKeeps` | worker.py:67-89 | a fail call after a claim that raised, also while acknowledging, has no lease token and changes nothing in Redis |
| `QueueInvariant.StepKeepsInv` | worker.py:58-94 | every step of the system, of any worker, exceptions anywhere after the claim included, keeps the invariant and only moves the shared state forward |
| `QueueTheorems.ReachableInv` | worker.py:58-94 | the invariant holds after every run |
| `QueueTheorems.AcceptedTasksStay` | agentic_rag/task_queue.py:88-94 | an accepted task stays with its payload, and its attempt count never falls |
| `QueueTheorems.NoAcceptedTaskIsLost` | agentic_rag/task_queue.py:149-317 | in every reachable state an unfinished task has a stream entry that is undelivered or pending |
| `QueueProgress.Deliver` | agentic_rag/task_queue.py:263-317 | a message of an unfinished task reaches an idle worker without any exception: every older message is first carried to its end, acknowledged and deleted, or left to the worker that holds its lease |
| `QueueProgress.Commit` | worker.py:68-84 | a claim whose lease holds can be carried to its commit: done within the attempt limit, refused and failed over it; other tasks and messages are not touched |
| `QueueProgress.UnfinishedTaskCanFinish` | worker.py:58-94 | from every reachable state, whatever crashed before, some continuation without a crash, an exception or a new task ends the task: done if an attempt is left, failed otherwise |
| `QueueTheorems.FinishedIsFinal` | agentic_rag/task_queue.py:153-156 | done and failed are absorbing: the whole task record never changes again and no lease on it exists |
| `QueueTheorems.DeadLettersAreTheFailures` | agentic_rag/task_queue.py:214-229 | the dead-letter stream names each failed task exactly once and no other task, each after its last attempt and without a result |
| `QueueTheorems.OutcomesAreFinal` | agentic_rag/task_queue.py:88-241 | between any two moments of a run an accepted task stays with its payload, its attempts never fall, and once it is done or failed its whole record stays and it has no lease |
| `QueueTheorems.LostLeaseNeverReturns` | agentic_rag/task_queue.py:152-160 | a token without a lease never gets one again |
| `QueueTheorems.TokenFresh` | agentic_rag/task_queue.py:152-160 | a lease that appears in a step carries a token nobody drew before |
| `QueueTheorems.StaleOwnerIsPowerless` | agentic_rag/task_queue.py:189-241 | once a claim's lease is gone, complete and fail of that claim change nothing, however much later |
| `QueueTheorems.LostLeaseIsPowerless` | agentic_rag/task_queue.py:189-241 | the same over whole runs from an empty system, for any continuation after the lease was lost |
| `QueueStranded.OnlyFinishedTasksAreStranded` | agentic_rag/task_queue.py:162-165 | in every reachable state an entry that is delivered and not pending belongs to a finished task |
| `QueueStranded.CrashLeavesEntry` | agentic_rag/task_queue.py:164-165 | a worker that dies between XACK and XDEL leaves an entry that no worker can reach if and only if the entry is still there and no other worker has a copy of it |
| `QueueStranded.ExceptionLeavesEntry` | worker.py:85-86 | an exception in XDEL leaves such an entry if and only if it is still there, no other worker has a copy and the worker has none among its recovered messages |
| `QueueStranded.StrandedForGoodExactlyWhen` | agentic_rag/task_queue.py:162-165 | such an entry stays in the stream in every continuation of the run if and only if no worker has a copy of it |
| `QueueStranded.LeftEntriesShutTheQueue` | agentic_rag/task_queue.py:88-94 | once as many entries as the capacity are left like that, every later enqueue is refused |
| `QueueShut.LeaveOne` | worker.py:58-94 | from every state at rest with room in the stream, and two attempts, a run adds one entry that nobody will delete |
| `QueueShut.StepKeepsSingle` | agentic_rag/task_queue.py:216-241 | with one attempt only, every step keeps that a task has at most one entry, that every copy is of it, and that a finished task has none |
| `QueueShut.RoomReturns` | agentic_rag/task_queue.py:88-94 | with one attempt only, a full stream has an orderly continuation after which it has room |
| `QueueShut.LeftExactlyWhen` | agentic_rag/task_queue.py:162-165 | some run leaves an entry that no worker can reach if and only if the capacity is positive and TASK_MAX_ATTEMPTS is at least 2 |
| `QueueShut.ShutExactlyWhen` | agentic_rag/task_queue.py:88-94 | there is a run after which every enqueue in every continuation is refused if and only if the capacity is 0 or TASK_MAX_ATTEMPTS is at least 2 |
| `QueueTheorems.DistinctNumbersAreFew` | worker.py:70-72 | distinct attempt numbers between 1 and n are at most n |
| `QueueTheorems.HandlerStartsAreBounded` | worker.py:68-84 | a task's handler starts at most TASK_MAX_ATTEMPTS times over all workers, crashes and lease expiries |
| `QueueTheorems.ArchivedExactlyOnce` | worker.py:26-29 | a task creates at most one memory row; a done archive task with a text has its row, which holds user, session, kind, importance and text as asked for, its vector, and the row's id as result; one without a text has none |
| `QueueTheorems.EveryExecutionSeesTheSameId` | agentic_rag/memory.py:166-195 | any two executions of one task, overlapping or not, get the same memory id |
| `QueueRecords.RecordsAreBacked` | worker.py:58-94 | after every run a task's payload is the one its accepted enqueue brought; a done task that is not an archive task carries a report that a worker returned for this very task; a failed one carries an error raised for it, or the refusal over the limit, as it is or cut after 500 characters |
| `QueueRecords.ClaimedGoesOneWay` | worker.py:70-84 | a claimed task is handled if and only if its attempt is within the limit, and refused if and only if it is over it |
| `QueueRecords.RecoveryQueues` | agentic_rag/task_queue.py:296-317 | a recovery assigns its messages to the worker and puts them, as many as fit 10000, behind those recovered before |
| `LocalQueue.CopiesAreConserved` | agentic_rag/task_queue.py:107-118 | in every run queued copies plus held items are as many as the active tasks, at most min(capacity, 10000), and each active task has exactly one |
| `LocalQueue.PutNeverOverflows` | agentic_rag/task_queue.py:117-118 | neither the put of an admitted task nor that of a retry can find the queue full |
| `LocalQueue.AcceptsExactlyWhen` | agentic_rag/task_queue.py:107-118 | in every reachable state an enqueue is accepted if and only if the unfinished tasks are fewer than the capacity and fewer than 10000; then the task is in the table as queued without an attempt, shared with the last item of the queue; either way exactly the finished tasks past their retention are purged |
| `LocalQueue.HandlersOwnTheirTask` | agentic_rag/task_queue.py:171-179 | a held item's task is in the table and unfinished, and while claimed the table agrees with it and the attempt number is between 1 and the limit |
| `LocalQueue.FinishedTasksStay` | agentic_rag/task_queue.py:108-113 | a step leaves a finished task's entry alone, unless an enqueue purges it past its retention |
| `LocalQueue.StepKeeps` | agentic_rag/task_queue.py:107-248 | every locked region or queue operation of any worker keeps one copy per active task |
| `LocalQueue.WriteItemTied` | agentic_rag/task_queue.py:171-173 | writing into a held dictionary changes the table's view of that task if and only if they are the same object, and no other task |
| `LocalQueueRuns.HandlerStartsAreCounted` | agentic_rag/task_queue.py:171-179 | in every run, when no task id is drawn twice, the k-th start of a task's handler is attempt number k, and there are at most TASK_MAX_ATTEMPTS |
| `LocalQueueRuns.WorkersFollowTheirLoop` | worker.py:58-94 | which queue operation a worker may do next is decided by how far it is with its item |
| `LocalQueueRuns.ActiveTaskCanSucceed` | agentic_rag/task_queue.py:171-248 | from every reachable state every active task has a continuation without a failure or a new task that ends with it done |
| `LocalQueue.Backend.Enqueue` | agentic_rag/task_queue.py:107-118 | purge, then accepted if and only if the unfinished tasks are fewer than the capacity and than 10000, with one new dictionary shared by queue and table |
| `LocalQueue.Backend.Take` | agentic_rag/task_queue.py:290-293 | the oldest item moves from the queue to the worker |
| `LocalQueue.Backend.Mark` | agentic_rag/task_queue.py:171-173 | claim's writes before the lock, seen through the table while it shares the dictionary |
| `LocalQueue.Backend.Commit` | agentic_rag/task_queue.py:174-179 | claim under the lock always succeeds, and gives the table its own copy |
| `LocalQueue.Backend.Complete` | agentic_rag/task_queue.py:206-210 | the table entry becomes done with the result and the worker lets go of its item |
| `LocalQueue.Backend.FailTask` | agentic_rag/task_queue.py:242-248 | the table entry becomes queued below the attempt limit and failed at it, with at most 500 characters of the error |
| `LocalQueue.Backend.Requeue` | agentic_rag/task_queue.py:246-247 | the worker's item goes to the end of the queue |
| `Idempotency.LocalAdmitRefines` | gateway/main.go:110-185 | get then reserve on the two maps takes the machine's decision and next state, keeps the maps disjoint, and leaves every other key alone |
| `Idempotency.RemoteAdmitRefines` | gateway/main.go:110-171 | the same for the Redis cell, whose lease lapses after the time to live |
| `Idempotency.BackendsAgree` | gateway/main.go:308-337 | from cells that agree, both backends give the handler the same decision and agree again, lease deadlines aside |
| `Idempotency.LocalReserveReports` | gateway/main.go:172-185 | which of owned, conflict and found reserve reports on the maps, for every state of the key |
| `Idempotency.RemoteReserveReports` | gateway/main.go:154-171 | on Redis reserve owns exactly a key without a live cell, and a refused one reports what the key holds at the second look-up |
| `Idempotency.HandlerAnswers` | gateway/main.go:308-333 | when the handler answers a conflict, replays the stored reply, or goes on as the owner |
| `Idempotency.LocalSetRefines` | gateway/main.go:196-202 | set on the two maps finishes the record if and only if the caller owns the lease |
| `Idempotency.RemoteSetRefines` | gateway/main.go:188-194 | the same for the owner-checked script |
| `Idempotency.LocalReleaseRefines` | gateway/main.go:213-217 | release on the two maps frees the key if and only if the caller owns the lease |
| `Idempotency.RemoteReleaseRefines` | gateway/main.go:206-211 | the same for the owner-checked script, which leaves finished records |
| `Idempotency.LocalReserveAlone` | gateway/main.go:172-185 | reserve without a get grants the lease when the machine does, if and only if no expired record of the key is left |
| `Idempotency.StaleRecordRefuses` | gateway/main.go:172-179 | an expired record that makes reserve refuse |
| `Idempotency.IdemStore.Get` | gateway/main.go:110-152 | the lookup of either backend; on the maps expired records of all keys are purged first |
| `Idempotency.IdemStore.Reserve` | gateway/main.go:154-185 | the reservation of either backend, with its conflict and found flags; the second look-up of a refused Redis one comes at a later instant |
| `Idempotency.IdemStore.Set` | gateway/main.go:187-203 | the owner-checked store of either backend |
| `Idempotency.IdemStore.Release` | gateway/main.go:205-218 | the owner-checked release of either backend |
| `IdempotencyRuns.RunKeepsInv` | gateway/main.go:308-337 | over every run of handlers the store stays well-formed and a live lease belongs to the handler that owns it or to one that died on Redis |
| `IdempotencyRuns.MapsStayDisjoint` | gateway/main.go:196-202 | over every run no key is in items and inflight at once |
| `IdempotencyRuns.AtMostOneLiveOwner` | gateway/main.go:321-336 | over every run at most one handler of a key owns a lease that has not lapsed |
| `IdempotencyRuns.LocalOwnersAreExclusive` | gateway/main.go:172-185 | on the two maps at most one handler of a key is an owner at all |
| `IdempotencyRuns.GrantsExactlyWhen` | gateway/main.go:154-185 | in every state of the invariant reserve makes the handler an owner if and only if the key is free and, on the maps, no expired record of it is left |
| `IdempotencyRuns.OwnersStoreSuccesses` | gateway/main.go:406-408 | an owner stores a reply if and only if its status is 200 to 299, and may always leave without |
| `IdempotencyRuns.SecondOwnerExactlyWhen` | gateway/main.go:154-171 | in every reachable state of the Redis backend where a handler is an owner, a new one that looks up and reserves becomes a second owner if and only if the key's cell is free, and then the first one's lease has lapsed |
| `IdempotencyRuns.RedisOwnersMayOverlap` | gateway/main.go:159 | such a state is reachable: after the time to live a second handler owns the key as well |
| `IdempotencyRuns.LapsedOwnerIsPowerless` | gateway/main.go:187-218 | in every reachable state a handler whose lease lapsed changes no key by set or release |
| `IdempotencyRuns.FinishedSurvives` | gateway/main.go:110-218 | no later reserve, set or release of anybody changes a finished record before it expires |
| `IdempotencyRuns.ReplayIsStable` | gateway/main.go:406-408 | in every run, after the live owner's set and until the time to live is over, every same-fingerprint get returns exactly that reply and every other fingerprint is a conflict |
| `IdempotencyRuns.ReleaseWithoutReplyFrees` | gateway/main.go:334-336 | in every reachable state a live owner's release without set returns the key to absent for every fingerprint |
| `IdempotencyRuns.ReleaseAfterReplyKeeps` | gateway/main.go:334-336 | in every reachable state the deferred release after set changes nothing |
| `IdempotencySimulation.StepAgreesExactlyWhen` | gateway/main.go:110-218 | from agreeing backends (same cells, same owners, same answer to every client that both have answered) Redis can follow every step of a handler on the maps, and they agree again if and only if the step is smooth: no lease lapses; a client that Redis has refused finds its key held, and by its own fingerprint if and only if it was told "in progress"; no expired record stands in the way of a free key |
| `IdempotencySimulation.BackendsRunInLockStep` | gateway/main.go:300-337 | over every run of handlers on the maps, Redis fed the same requests gives the same answers and holds the same keys at every moment if and only if every step of the run is smooth |
| `IdempotencySimulation.SmoothRunsAnswerAlike` | gateway/main.go:308-333 | after a smooth run the same handlers own a lease on both backends, and a client that the maps have answered was told the same by Redis |
| `IdempotencySimulation.AnswersMayDiffer` | gateway/main.go:308-333 | a run in which a key changes hands between a look-up and its reserve: Redis answers "in progress", the maps answer "conflict" |
| `Varint.AppendVarint` | gateway/proto_codec.go:57-63 | the loop over a 64-bit word, masking, or-ing and shifting, appends the base-128 groups of its value |
| `Varint.ReadVarint` | gateway/proto_codec.go:135-148 | the loop that ors masked and shifted bytes into a 64-bit word reads a varint at the offset, advances by its length, and stays within the data on errors too |
| `Varint.OrIsAddition` | gateway/proto_codec.go:143 | or-ing a shifted group above the bits set so far adds the group's value to the word's value |
| `Varint.GroupIsContribution` | gateway/proto_codec.go:141-144 | the masked and shifted k-th byte is worth (b % 128) * 128^k truncated to 64 bits; the tenth one keeps its lowest bit only |
| `Words.GroupOf` | gateway/proto_codec.go:58-60 | comparing with 0x80, masking and shifting a word are comparing with 128, taking the residue modulo 128 and dividing its value by 128 |
| `Words.NumOr` | gateway/proto_codec.go:143 | or-ing words without common bits adds their values |
| `Words.Word` | gateway/proto_codec.go:69-70 | the word of a number below 2^64 stands for that number |
| `Varint.VarintLength` | gateway/proto_codec.go:57-63 | a 64-bit value takes one to ten bytes |
| `Varint.VarintRoundTrip` | gateway/proto_codec.go:57-148 | reading a written varint gives the value and uses exactly its bytes, whatever follows |
| `Varint.DecodedIsUint64` | gateway/proto_codec.go:135-148 | a decoded value fits 64 bits, for any input bytes |
| `Varint.DecodeFromPrefix` | gateway/proto_codec.go:135-148 | bytes behind a readable varint do not change what is read |
| `ProtoFields.ReadBytes` | gateway/proto_codec.go:150-158 | a length-delimited payload within the data, or an error |
| `ProtoFields.SkipField` | gateway/proto_codec.go:160-183 | skips 8, 4, a varint or a payload by wire type, and fails on every other wire type |
| `ProtoFields.ReadField` | gateway/proto_codec.go:221-240 | one round of the loop: tag and payload, or an error, with the offset in range |
| `ProtoFields.UnmarshalFields` | gateway/proto_codec.go:219-246 | the loop terminates on every input, never reads out of range, and folds the handler over the fields until the first error |
| `ProtoFields.DecodeMerges` | gateway/proto_codec.go:219-246 | if a decodes, decoding a + b into a message is decoding b into the result of a |
| `ProtoFields.DecodeConcat` | gateway/proto_codec.go:219-246 | the same for whole fields a, where an error in a is final |
| `ProtoFields.IgnoredFieldChangesNothing` | gateway/proto_codec.go:219-246 | a whole field the handler ignores can be inserted at any field boundary |
| `ProtoFields.BadTagsFail` | gateway/proto_codec.go:225-237 | a field number 0 and the wire types 3, 4, 6 and 7 are errors for every handler |
| `ProtoFields.AppendStringField` | gateway/proto_codec.go:65-72 | an empty string is omitted, else tag, length and bytes |
| `ProtoFields.AppendBoolField` | gateway/proto_codec.go:74-80 | false is omitted, true is tag and 1 |
| `ProtoFields.AppendMessageField` | gateway/proto_codec.go:82-86 | tag, length and bytes, also when empty |
| `ProtoCodec.MarshalAskRequest` | gateway/proto_codec.go:99-109 | the request's fields in order, one field 6 per history item |
| `ProtoCodec.MarshalAskResponse` | gateway/proto_codec.go:111-120 | the response's fields in order, one field 5 per source |
| `ProtoCodec.MarshalAskEvent` | gateway/proto_codec.go:122-126 | the event's three fields |
| `ProtoCodec.MarshalReadinessResponse` | gateway/proto_codec.go:130-133 | the readiness response's two fields |
| `ProtoCodec.UnmarshalAskRequest` | gateway/proto_codec.go:248-284 | the fold of the request handler, nested messages included |
| `ProtoCodec.UnmarshalAskResponse` | gateway/proto_codec.go:286-323 | the fold of the response handler |
| `ProtoCodec.UnmarshalAskEvent` | gateway/proto_codec.go:325-341 | the fold of the event handler |
| `ProtoCodec.UnmarshalReadinessResponse` | gateway/proto_codec.go:353-367 | the fold of the readiness handler |
| `ProtoCodec.AskRequestRoundTrip` | gateway/proto_codec.go:99-284 | decoding an encoded request into a zero value gives the same request, for any bytes and any history |
| `ProtoCodec.AskResponseRoundTrip` | gateway/proto_codec.go:111-323 | the same for responses with any number of sources |
| `ProtoCodec.AskEventRoundTrip` | gateway/proto_codec.go:122-341 | the same for events |
| `ProtoCodec.ReadinessRoundTrip` | gateway/proto_codec.go:130-367 | the same for readiness responses |
| `ProtoCodec.RequestOverlays` | gateway/proto_codec.go:248-284 | decoding into an older request: nonempty scalars replace, history is appended |
| `ProtoCodec.ResponseOverlays` | gateway/proto_codec.go:286-323 | decoding into an older response: nonempty scalars replace, sources are appended |
| `ProtoCodec.ConcatenatedRequestsOverlay` | gateway/proto_codec.go:248-284 | two encoded requests in a row decode to the second laid over the first |
| `ProtoCodec.UnknownRequestFieldIsIgnored` | gateway/proto_codec.go:279-282 | any whole field above number 7, at any field boundary, leaves the decoded request unchanged |
| `ProtoCodec.UnknownResponseFieldIsIgnored` | gateway/proto_codec.go:318-321 | any whole field above number 6, at any field boundary, leaves the decoded response unchanged |
| `ProtoCodec.UnknownReadinessField` | gateway/proto_codec.go:353-365 | an unknown field is accepted by a readiness response if and only if it is length-delimited |
| `ProtoCodec.UnknownEventFieldIsRefused` | gateway/proto_codec.go:325-330 | an unknown field makes an event fail, and what was decoded before it stands |
| `ProtoCodec.RequestFieldDecides` | gateway/proto_codec.go:248-284 | what one more field makes of a decoded request: a known length-delimited one replaces its value, also by the empty string, or appends the history item it holds; a known one of another wire type, or an item that does not decode, is an error that leaves the request as it was; any other changes nothing |
| `ProtoCodec.ResponseFieldDecides` | gateway/proto_codec.go:286-323 | the same for a response, whose flag is true for every number but 0 |
| `ProtoCodec.NestedFieldsDecide` | gateway/proto_codec.go:185-215 | in history items and sources every field must be length-delimited, and unknown ones are passed over |
| `ProtoCodec.SmallFieldsDecide` | gateway/proto_codec.go:325-367 | the same for events and readiness responses |
| `ProtoCodec.WrittenFieldIsOneField` | gateway/proto_codec.go:160-183 | every canonical field of wire type 0, 1, 2 or 5 is one whole field |
| `Resp.EncodeResp` | gateway/redis_store.go:100-107 | the array header and one bulk string per argument |
| `Resp.Reader.ReadReply` | gateway/redis_store.go:120-166 | the recursive reader returns, fails or panics as the parse of the bytes ahead says, for every limit of what make admits, and consumes exactly what was parsed |
| `Resp.Reader.ReadBulk` | gateway/redis_store.go:137-149 | a bulk string of the announced length with its two closing bytes, nil for a negative length, a panic for a length that make does not admit |
| `Resp.Reader.ReadMany` | gateway/redis_store.go:155-162 | fills the slots in order and stops at the first error |
| `Resp.AtoiOfDecimal` | gateway/redis_store.go:102-104 | parsing a printed length gives the length |
| `Resp.AtoiExactlyWhen` | gateway/redis_store.go:136-138 | a length or number is accepted if and only if it is an optional sign and a nonempty run of digits whose value fits 64 bits, and then it is that value |
| `Resp.CommandRoundTrip` | gateway/redis_store.go:100-166 | reading an encoded command followed by anything gives exactly its arguments and leaves exactly the rest, whenever make admits its lengths |
| `Resp.ReplyRoundTrip` | gateway/redis_store.go:120-166 | every reply a server can send -- simple strings, numbers of either sign, the null bulk string, bulk strings, and arrays of these to any depth -- is read as itself, and what follows it is left |
| `Resp.BareLineFeedReads` | gateway/redis_store.go:129 | a line that ends with a bare line feed is read like one that ends with both |
| `Resp.OtherKindsFail` | gateway/redis_store.go:133-134 | an error line fails, and so does a line of any other kind |
| `Resp.ErrorInArrayFails` | gateway/redis_store.go:155-162 | an error line among the items fails the whole array |
| `Resp.CutReplyFails` | gateway/redis_store.go:120-166 | a reply that breaks off at any byte is an error, never a shorter reply |
| `Resp.PanicsExactlyWhen` | gateway/redis_store.go:120-166 | for all bytes the recursive reader panics if and only if the flat scan of the headers meets a length that make does not admit |
| `Resp.BulkPanicsExactlyWhen` | gateway/redis_store.go:145-148 | a bulk header panics if and only if its length plus 2 overflows or is more than make admits, and else fails if and only if fewer bytes follow |
| `Resp.ArrayPanicsExactlyWhen` | gateway/redis_store.go:151-155 | an array header panics if and only if its length is negative or its slots need more than make admits |
| `Resp.NullArrayPanics` | gateway/redis_store.go:150-155 | the null array is an input on which the reader panics, whatever follows |
| `KnowledgeGraph.MathKnowledgeGraph.Add` | agentic_rag/knowledge_graph.py:40-45 | the point's prerequisites become the old ones and the new nonempty ones, without duplicates |
| `KnowledgeGraph.MathKnowledgeGraph.MatchNodes` | agentic_rag/knowledge_graph.py:47-53 | exactly the nodes that contain a seed or lie in one, each once |
| `KnowledgeGraph.MatchesExactlyWhen` | agentic_rag/knowledge_graph.py:51 | a node matches a seed if and only if one of the two is a substring of the other |
| `KnowledgeGraph.DedupeKeepsOrder` | agentic_rag/knowledge_graph.py:45-53 | removing duplicates keeps the order of the first occurrences |
| `KnowledgeGraph.AddedBehind` | agentic_rag/knowledge_graph.py:44-45 | new prerequisites come behind the old ones, and the other points keep theirs |
| `KnowledgeGraph.MathKnowledgeGraph.Expand` | agentic_rag/knowledge_graph.py:55-66 | without duplicates, exactly the points within depth levels of the seeds, those of every smaller depth before all others |
| `KnowledgeGraph.FollowingNewIsEnough` | agentic_rag/knowledge_graph.py:58-65 | following only the points new in the last round loses nothing, though visited nodes are not remembered |
| `KnowledgeGraph.ReachIsPaths` | agentic_rag/knowledge_graph.py:55-66 | a point is within depth levels if and only if a path of at most depth match-then-prerequisite hops leads from a seed to it |
| `KnowledgeGraph.ReachGrows` | agentic_rag/knowledge_graph.py:55-66 | a deeper expansion loses no point |
| `KnowledgeGraph.ReachSaturates` | agentic_rag/knowledge_graph.py:55-66 | from the number of distinct prerequisites on, depth adds nothing |
| `KnowledgeGraph.AddKeepsReach` | agentic_rag/knowledge_graph.py:40-45 | adding prerequisites takes no reachable point away |
| `Quadratic.SolvesIffRational` | agentic_rag/deterministic_tutor.py:167-170 | for all integers b, c the solver answers if and only if the equation has a rational root |
| `Quadratic.RootMakesItSolve` | agentic_rag/deterministic_tutor.py:167-170 | a rational root makes the discriminant a perfect square, so the solver answers |
| `Quadratic.SolvedHasRoot` | agentic_rag/deterministic_tutor.py:171 | when the solver answers, a whole number solves the equation |
| `Quadratic.RootsAreIntegers` | agentic_rag/deterministic_tutor.py:171 | the listed roots are one or two integers in increasing order |
| `Quadratic.ListsExactlyTheRoots` | agentic_rag/deterministic_tutor.py:171-172 | a fraction solves the equation if and only if it is a listed root |
| `Quadratic.ProductExpands` | agentic_rag/deterministic_tutor.py:173-175 | the printed product, a double root's factor twice, expands to the polynomial at every point |
| `Quadratic.FactorsArePrinted` | agentic_rag/deterministic_tutor.py:173-175 | two factors are printed, each with a number that is not negative, and the root 0 with a minus |
| `Quadratic.RationalSquareIsInteger` | agentic_rag/deterministic_tutor.py:168-169 | an integer that is the square of a rational is the square of an integer |
| `Quadratic.ISqrt` | agentic_rag/deterministic_tutor.py:168 | the integer square root |
| `Fusion.FuseRankings` | agentic_rag/math_retriever.py:32-38 | the table holds exactly the listed documents, each with the sum of 1/(k + rank) over all its occurrences |
| `Fusion.EachPositionAdds` | agentic_rag/math_retriever.py:32-38 | a listing at rank r of a ranking adds 1 / (k + r) to its document and nothing to any other, and there is no other score |
| `Fusion.TableIgnoresOrder` | agentic_rag/math_retriever.py:32-38 | the same rankings in any order give the same table |
| `Fusion.TotalMassIsShared` | agentic_rag/math_retriever.py:32-38 | the values of the table add up to the shares of all positions of all rankings |
| `Fusion.DominantScoresHigher` | agentic_rag/math_retriever.py:32-38 | with duplicate-free rankings, a document before another in every ranking that lists the other scores strictly higher |
| `Fusion.CutRespectsDominance` | agentic_rag/math_retriever.py:324-325 | however ties are sorted and however many are kept, a dominated document is never kept without, or before, the one that dominates it |
| `Fusion.CutKeepsTheBest` | agentic_rag/math_retriever.py:324-325 | the cut keeps the first candidates in their order, as many as asked for or all |
| `ExerciseStore.UpdateMastery` | agentic_rag/exercises/progression.py:36-55 | the loop over the knowledge points computes the mastery after the outcome, which the next three rows pin down |
| `ExerciseStore.MasteryAfterOutcome` | agentic_rag/exercises/progression.py:36-55 | from start s (0.5 if new, clamped to the unit interval) a point named n times ends at 1 - (1 - s) * 0.8^n after a correct answer, s * 0.8^n after an incorrect one, 0.6 + (s - 0.6) * 0.8^n after a correct one with a hint; an unknown outcome changes nothing |
| `ExerciseStore.MasteryMoves` | agentic_rag/exercises/progression.py:36-55 | a named point strictly rises after a correct answer unless at 1, strictly falls after an incorrect one unless at 0, and with a hint comes strictly closer to 0.6 without crossing it |
| `ExerciseStore.MasteryApproaches` | agentic_rag/exercises/progression.py:50-54 | a point named n times keeps 0.8^n of its distance to the observation and stays within the unit interval; nothing else changes |
| `ExerciseStore.WindowsGrow` | agentic_rag/exercises/store.py:95-116 | bounded windows that are the last 20, 10 and 5 entries of a history stay so when an exercise is added |
| `ExerciseStore.SessionsAndExercisesMoveTogether` | agentic_rag/exercises/store.py:62-186 | in every run, for any clock, a live session's current exercise is live with the same expiry, is current for no other session, and the windows are the last entries of the session's whole history |
| `ExerciseStore.StartStores` | agentic_rag/exercises/store.py:74-138 | an exercise is started if and only if none with its id is live; then it is the current one of the named session if that is live, else of a new one, with topic, grade, difficulty and kind of the exercise and the merged mastery; both expire one time to live from now, and of the rest exactly the live entries stay |
| `ExerciseStore.RecordStores` | agentic_rag/exercises/store.py:154-186 | an outcome is recorded if and only if session and exercise are live and the exercise is the current one; then only the mastery changes and both expire one time to live from now; of the rest exactly the live entries stay |
| `ExerciseStore.Exercises.StartExercise` | agentic_rag/exercises/store.py:74-138 | prune, refuse an active exercise id, then store exercise and session with one expiry |
| `ExerciseStore.Exercises.GetSession` | agentic_rag/exercises/store.py:147-152 | prunes, then returns the live session if there is one |
| `ExerciseStore.Exercises.Record` | agentic_rag/exercises/store.py:154-186 | only the current exercise's outcome is recorded, and then both expiries are renewed |
| `ExerciseGenerator.Generate` | agentic_rag/exercises/generator.py:43-87 | the bounded search with its fallback variable, in the wished language, returns the first fresh draw with a new answer, failing that the first fresh draw |
| `ExerciseGenerator.ChooseIsFresh` | agentic_rag/exercises/generator.py:73-87 | it fails if and only if no draw is fresh, what it returns is fresh, and it repeats a recent answer if and only if every fresh draw does |
| `ExerciseGenerator.NearestWishIsServable` | agentic_rag/fast_path.py:568-583 | the fallback difficulty has templates, is nearest (the lower of two), and is the wished one if and only if that had templates |
| `ExerciseGenerator.PickIsMade` | agentic_rag/fast_path.py:596-600 | a picked exercise was made, with the draw's own seed and id, from a template for the wished topic, grade and kind, in the wished language, at the wished difficulty, or, if and only if nothing fresh was drawn there, at the nearest supported one; it is in neither window |
| `ExerciseGenerator.PickFailsExactlyWhen` | agentic_rag/fast_path.py:596-600 | nothing is picked if and only if nothing fresh was drawn at the wished difficulty, nor at the nearest supported one (the lower of two equally near) if there is one |
| `ExerciseGenerator.StepKeepsDesk` | agentic_rag/fast_path.py:596-635 | every step of any request keeps that no exercise repeats a recent one its request had read |
| `ExerciseGenerator.RepeatsComeFromOverlapOnly` | agentic_rag/fast_path.py:606-635 | over every run, an exercise repeats a fingerprint of the previous 20 or a prompt of the previous 10 of its session only from one started after its request read the session; one that was not overtaken never repeats |
| `ExerciseGenerator.RepeatsExactlyTheOvertakers` | agentic_rag/fast_path.py:606-635 | in every run, for every waiting request whatever it wishes and draws, its pick is in the session's windows if and only if an exercise started since the request read the session carries its fingerprint or prompt |
| `ExerciseGenerator.AnswersRepeatOnlyWhenForced` | agentic_rag/exercises/generator.py:77-84 | in every run, for every request that waits on a session, its pick repeats one of the last 5 answers of the history it had read if and only if every fresh draw of its attempt budget does |
| `ExerciseGenerator.OverlapRepeats` | agentic_rag/fast_path.py:606-635 | two requests that read one session before either starts give it the same exercise twice in a row |
| `Workflow.RunsAreShort` | agentic_rag/graph.py:117-166 | every run executes at most 12 + 8 * MAX_CORRECTION_ATTEMPTS nodes and step_count counts each |
| `Workflow.GuardFiresExactlyWhen` | agentic_rag/tracing.py:35-38 | some run is stopped by the step guard if and only if that bound exceeds MAX_AGENT_STEPS |
| `Workflow.VerifiedExactlyWhenJudged` | agentic_rag/nodes.py:320-438 | a finished run answers verified_answer if and only if the last validation executed passed, with that draft as response; otherwise it asks for clarification or refuses |
| `Workflow.AnswersHaveEvidence` | agentic_rag/graph.py:132-146 | in every run a draft is written or judged, and an answer verified, only with a nonempty list of documents, all among the candidates found in the same attempt |
| `Workflow.RunsFollowTheGraph` | agentic_rag/graph.py:113-166 | in every run the next node as a function of what the nodes were answered: clarification exactly when completeness failed or the rewrite left something to ask for, no evidence exactly when the search found or the rerank kept nothing, the end exactly when critic, checks and guard agree, a retry while attempts are left |
| `Workflow.FailureAnswers` | agentic_rag/nodes.py:388-438 | clarification answers with the follow-up question of the node that sent the run there, if it has one; every other failure with the policy's answer, as a refusal or a request as the policy says |
| `Workflow.NothingIsSaidEarly` | agentic_rag/nodes.py:350-410 | in every run no draft leaks: the response is empty and of no type until validation has passed or a failure has been answered; the end wants clarification exactly if its answer asks for it |
| `Workflow.RepliesArrive` | agentic_rag/nodes.py:78-385 | what a node was answered -- documents, draft, missing conditions, follow-up question -- is what the next node finds in the state |
| `Workflow.RetryStartsOver` | agentic_rag/nodes.py:371-385 | a retry clears everything but the question, its parse and the history, from whatever state |
| `Workflow.ValidationDecides` | agentic_rag/nodes.py:348-368 | validation accepts the draft as the response or leaves the response alone, from whatever state, and asks, accepts, retries or gives up in that order |
| `Workflow.TheParseDecides` | agentic_rag/nodes.py:102-121 | a run is on the fast path exactly if the local solver solved its question at the first attempt, and a knowledge query only otherwise; retries change neither |
| `Workflow.FinishedRunsCountAsPassed` | agentic_rag/nodes.py:388-461 | every finished run ends with validation_passed, and consolidates memory if and only if it was not on the fast path |
| `Workflow.ValidationNeverAsks` | agentic_rag/graph.py:148-161 | after validation the run never goes to clarification |
| `Workflow.OneExchangeIsAppended` | agentic_rag/nodes.py:388-461 | a finished run appends the question and its response to the kept history exactly once, but for an empty or repeated verified answer |
| `Workflow.StubbornRun` | agentic_rag/graph.py:117-166 | from any state on the longest path some replies make the run take exactly the longest number of nodes, or hit the guard |

## Left out

- `RedisQueue.QueueClient.RecoverStaleClaims`: which entries are idle long enough is not modelled, because any choice is covered.
- Time inside Redis: which pending entries are idle long enough, and the cursor of XAUTOCLAIM. Any hundred pending entries may be reclaimed at any time, and any lease may expire at any time.
- `RedisQueue.RedisServer.Enqueue`: the 7-day expiry it sets on the task hash is not modelled, because the queue theorems are about tasks that live less than that.
- `RedisQueue.RedisServer.Complete`: the renewed 7-day expiry of the task hash is not modelled, for the same reason.
- `RedisQueue.RedisServer.Fail`: the renewed expiry and the trimming of the dead-letter stream to about 100000 are not modelled.
- The 7-day expiry of task hashes and the trimming of the dead-letter stream: task hashes outlive the run and every appended dead letter is counted.
- Failures of a client inside a command (timeouts, lost replies, an unavailable Redis, MySQL or vector store): a script or transaction happens or does not.
- A bound on the stream length or on the number of entries per task is not stated for two or more attempts: only enqueue checks the capacity.
- `LocalQueueRuns.ActiveTaskCanSucceed`: states that such a continuation exists, not that the threads take it.
- A worker thread of the in-process backend that dies with an item in its hand: that backend lives and dies with its process.
- `QueueProgress.UnfinishedTaskCanFinish`: states that a finishing continuation exists, not that the scheduler takes it.
- Deletion and expiry of memories, retrieval by similarity, and the text of metadata; `sanitize_memory_text` is applied before the model starts.
- Contents of results and errors of the other task kinds: an assessment, report or evaluation is an opaque text; the shape of the error's text is left open.
- `IdempotencySimulation.BackendsRunInLockStep`: compares runs in which the second look-up of a reserve that Redis refused follows at once.
- JSON and base64 of the idempotency cell are not modelled, nor HTTP, authentication, rate limits, the circuit breaker and streaming responses, which bypass the store.
- `ProtoCodec.AskRequestRoundTrip`: for encodings no longer than the largest Go slice; the same holds for the other messages.
- The empty readiness request, whose decoder accepts every whole field, and the codec's type switch.
- `Resp.Reader.ReadReply`: running out of memory on an allocation that make does admit is not modelled, and an error reply is a failure without its text.
- `Fusion.FuseRankings`: sums exact rationals, not floating-point numbers, so ties broken by rounding are not modelled; k is not negative.
- `ExerciseStore.MasteryApproaches`: real arithmetic instead of floating point.
- SHA-256 and NFKC normalization of prompts, the exercise templates and the validation of a candidate: uninterpreted functions of their inputs.
- Parsing of practice preferences, `next_difficulty` and the average mastery: a request may wish for anything; the authoring agent is off.
- The bilingual text around a quadratic solution and the regular expression that finds the equation.
- What language models, search, rerank, SymPy and the memory chain answer in the workflow: arbitrary replies; only the state keys that decide the route, the response and the history are kept, and the run's deadline may pass at any node.
- The skill runtime, the FastAPI and gRPC handlers, tracing export, metrics, the frontend and the evaluation scripts.
