/**
  Stream entries that were acknowledged but not deleted. A worker that finds a task finished sends
  XACK and XDEL as two commands; if it dies in between, or XDEL raises an exception, nobody may ever
  delete the entry, and it keeps counting against the capacity that enqueue checks.
 */
module QueueStranded {
  import opened Collections
  import opened MemoryStore
  import opened RedisQueue
  import opened RedisSafety
  import opened QueueProtocol
  import opened QueueInvariant
  import opened QueueProgress
  import opened QueueTheorems

  /** The worker may still come to acknowledge and delete the message. */
  ghost predicate WorkerHolds(worker: Worker, id: StreamId) {
    || (exists e <- worker.recovered :: e.id == id)
    || match worker.phase
       case Fetched(e) => e.id == id
       case Acking(e) => e.id == id
       case Deleting(e) => e.id == id
       case _ => false
  }

  ghost predicate HoldsCopy(s: System, id: StreamId) {
    exists w <- s.workers :: WorkerHolds(s.workers[w], id)
  }

  ghost predicate Left(s: System, id: StreamId) {
    Stranded(s.redis, id) && !HoldsCopy(s, id)
  }

  /** In every reachable state a stranded entry belongs to a finished task. */
  lemma OnlyFinishedTasksAreStranded(capacity: nat, maxAttempts: nat, steps: seq<Step>, id: StreamId)
    requires CanRun(Init(capacity, maxAttempts), steps)
    ensures var r := Run(Init(capacity, maxAttempts), steps).redis;
            Stranded(r, id) ==> r.stream[id] in r.tasks && Terminal(r.tasks[r.stream[id]])
  {
    ReachableInv(capacity, maxAttempts, steps);
    hide Run, CanRun;
  }

  // ---- Nobody touches a stranded entry without a copy

  lemma StrandedHasNoLease(s: System, id: StreamId)
    requires Inv(s) && Stranded(s.redis, id)
    ensures var task := s.redis.stream[id];
            task in s.redis.tasks && Terminal(s.redis.tasks[task]) && task !in s.redis.leases
  {
    hide WorkersOk, StartsOk, ArchiveOk, NothingLost, ResultsOk, DeadLettersOk;
  }

  /** The job of a worker whose message is the stranded entry has lost its lease. */
  lemma JobIsStale(s: System, w: Consumer, id: StreamId)
    requires Inv(s) && w in s.workers && Stranded(s.redis, id)
    requires JobOf(At(s, w)).Some? && JobOf(At(s, w)).value.entry.id == id
    ensures JobOf(At(s, w)).value.entry.task !in s.redis.leases
  {
    hide StartsOk, ArchiveOk, RedisOk;
    StrandedHasNoLease(s, id);
    WorkerIsOk(s, w);
  }

  lemma NoLeaseNoCommit(s: System, job: Job)
    requires job.entry.task !in s.redis.leases
    ensures !HoldsLease(s.redis, job.entry.task, job.token)
  {
  }

  lemma CompleteKeepsStranded(s: System, w: Consumer, id: StreamId)
    requires Inv(s) && Enabled(s, CompleteTask(w)) && Stranded(s.redis, id)
    ensures Stranded(Apply(s, CompleteTask(w)).redis, id)
  {
    hide Inv, HoldsLease;
    if At(s, w).job.entry.id == id {
      JobIsStale(s, w, id);
      NoLeaseNoCommit(s, At(s, w).job);
    }
  }

  lemma StreamIsOk(s: System)
    requires Inv(s)
    ensures StreamOk(s.redis)
  {
    hide WorkersOk, StartsOk, ArchiveOk;
  }

  lemma FailKeepsStranded(s: System, w: Consumer, id: StreamId)
    requires Inv(s) && Enabled(s, FailTask(w)) && Stranded(s.redis, id)
    ensures Stranded(Apply(s, FailTask(w)).redis, id)
  {
    hide Inv, HoldsLease;
    StreamIsOk(s);
    if At(s, w).job.entry.id == id {
      JobIsStale(s, w, id);
      NoLeaseNoCommit(s, At(s, w).job);
    }
  }

  /** The commands that take no lease token: only acknowledging needs a copy of the message. */
  lemma CommandKeepsStranded(s: System, step: Step, id: StreamId)
    requires StreamOk(s.redis) && Enabled(s, step) && Left(s, id)
    requires !step.CompleteTask? && !step.FailTask? && !step.ClaimRaises?
    ensures Stranded(Apply(s, step).redis, id)
  {
    hide AddRow, UpsertVector, PutAll, CompleteScript, FailScript, WantsArchive;
    match step
    case AckFinished(w) => assert WorkerHolds(s.workers[w], At(s, w).entry.id);
    case DeleteFinished(w) => assert WorkerHolds(s.workers[w], At(s, w).entry.id);
    case _ =>
  }

  lemma RedisKeepsStranded(s: System, step: Step, id: StreamId)
    requires Inv(s) && Enabled(s, step) && Left(s, id)
    ensures Stranded(Apply(s, step).redis, id)
  {
    hide Inv, Apply, Enabled, Stranded, HoldsCopy;
    match step
    case CompleteTask(w) => CompleteKeepsStranded(s, w, id);
    case FailTask(w) => FailKeepsStranded(s, w, id);
    case ClaimRaises(w, error) => ClaimRaisesKeeps(s, w, error);
    case _ =>
      StreamIsOk(s);
      CommandKeepsStranded(s, step, id);
  }

  lemma RecoverAvoids(s: System, w: Consumer, ids: seq<StreamId>, id: StreamId)
    requires w in s.workers && Claimable(s.redis, ids) && id !in s.redis.pending
    requires !WorkerHolds(s.workers[w], id)
    ensures forall e <- PutAll(s.workers[w].recovered, EntriesOf(s.redis, ids), RECOVERED_CAPACITY) :: e.id != id
  {
    var entries := EntriesOf(s.redis, ids);
    forall e <- entries ensures e.id != id {
      var i :| 0 <= i < |entries| && entries[i] == e;
      assert ids[i] in ids;
    }
  }

  lemma DeliveryAvoids(s: System, step: Step, id: StreamId, w: Consumer)
    requires step.Recover? || step.TakeRecovered? || step.ReadNew?
    requires StreamOk(s.redis) && Enabled(s, step) && w in Apply(s, step).workers
    requires Stranded(s.redis, id) && (w in s.workers ==> !WorkerHolds(s.workers[w], id))
    ensures !WorkerHolds(Apply(s, step).workers[w], id)
  {
    hide PutAll;
    if step.Recover? && step.w == w {
      RecoverAvoids(s, w, step.ids, id);
    }
  }

  lemma NothingDelivered(s: System, step: Step, id: StreamId, w: Consumer)
    requires !step.Recover? && !step.TakeRecovered? && !step.ReadNew?
    requires Enabled(s, step) && w in Apply(s, step).workers
    requires w in s.workers ==> !WorkerHolds(s.workers[w], id)
    ensures !WorkerHolds(Apply(s, step).workers[w], id)
  {
    hide AddRow, UpsertVector, EnqueueScript, ClaimScript, CompleteScript, FailScript, WantsArchive;
  }

  lemma NoCopyAt(s: System, step: Step, id: StreamId, w: Consumer)
    requires StreamOk(s.redis) && Enabled(s, step) && w in Apply(s, step).workers
    requires Stranded(s.redis, id) && (w in s.workers ==> !WorkerHolds(s.workers[w], id))
    ensures !WorkerHolds(Apply(s, step).workers[w], id)
  {
    hide Apply, Enabled, StreamOk, Stranded, WorkerHolds;
    match step
    case Recover(_, _) => DeliveryAvoids(s, step, id, w);
    case TakeRecovered(_) => DeliveryAvoids(s, step, id, w);
    case ReadNew(_) => DeliveryAvoids(s, step, id, w);
    case _ => NothingDelivered(s, step, id, w);
  }

  /** No step hands out a copy of an entry that is delivered and not pending. */
  lemma NoCopyAppears(s: System, step: Step, id: StreamId)
    requires StreamOk(s.redis) && Enabled(s, step) && Left(s, id)
    ensures !HoldsCopy(Apply(s, step), id)
  {
    hide Apply, Enabled, StreamOk, WorkerHolds;
    forall w <- Apply(s, step).workers ensures !WorkerHolds(Apply(s, step).workers[w], id) {
      NoCopyAt(s, step, id, w);
    }
  }

  lemma StepKeepsLeft(s: System, step: Step, id: StreamId)
    requires Inv(s) && Enabled(s, step) && Left(s, id)
    ensures Left(Apply(s, step), id)
  {
    hide Inv, Enabled, Apply, Stranded, HoldsCopy;
    StreamIsOk(s);
    RedisKeepsStranded(s, step, id);
    NoCopyAppears(s, step, id);
  }

  lemma {:induction false} LeftStays(s: System, steps: seq<Step>, id: StreamId)
    requires Inv(s) && CanRun(s, steps) && Left(s, id)
    ensures Left(Run(s, steps), id)
    decreases |steps|
  {
    hide Inv, Enabled, Apply, Left;
    if steps == [] {
    } else {
      var s' := Apply(s, steps[0]);
      StepKeepsLeft(s, steps[0], id);
      StepKeepsInv(s, steps[0]);
      LeftStays(s', steps[1..], id);
    }
  }

  // ---- Whoever still has a copy can delete it

  lemma FailAndReturn(s: System, w: Consumer, id: StreamId) returns (steps: seq<Step>)
    requires Inv(s) && w in s.workers && At(s, w).Raised? && Stranded(s.redis, id)
    ensures CanRun(s, steps) && Inv(Run(s, steps)) && Stranded(Run(s, steps).redis, id)
    ensures w in Run(s, steps).workers && Run(s, steps).workers[w] == Worker(s.workers[w].recovered, Idle)
  {
    hide Inv, Stranded;
    FailKeepsStranded(s, w, id);
    StepKeepsInv(s, FailTask(w));
    RunOne(s, FailTask(w));
    steps := [FailTask(w)];
  }

  lemma DropAndReturn(s: System, w: Consumer, id: StreamId) returns (steps: seq<Step>)
    requires Inv(s) && w in s.workers && Stranded(s.redis, id)
    requires At(s, w).Fetched? || At(s, w).Acking? || At(s, w).Deleting?
    ensures CanRun(s, steps) && Inv(Run(s, steps)) && Run(s, steps).redis == s.redis
    ensures Stranded(Run(s, steps).redis, id)
    ensures w in Run(s, steps).workers && Run(s, steps).workers[w] == Worker(s.workers[w].recovered, Idle)
  {
    hide Inv, Stranded;
    ClaimRaisesKeeps(s, w, "");
    RunOne(s, ClaimRaises(w, ""));
    steps := [ClaimRaises(w, "")];
  }

  /** Whatever worker w is doing, an exception brings it back to its loop. */
  lemma BackToIdle(s: System, w: Consumer, id: StreamId) returns (steps: seq<Step>)
    requires Inv(s) && w in s.workers && Stranded(s.redis, id)
    ensures CanRun(s, steps) && Inv(Run(s, steps)) && Stranded(Run(s, steps).redis, id)
    ensures w in Run(s, steps).workers && Run(s, steps).workers[w] == Worker(s.workers[w].recovered, Idle)
  {
    hide Inv, Stranded;
    match At(s, w)
    case Idle => steps := [];
    case Raised(_, _) => steps := FailAndReturn(s, w, id);
    case Fetched(_) => steps := DropAndReturn(s, w, id);
    case Acking(_) => steps := DropAndReturn(s, w, id);
    case Deleting(_) => steps := DropAndReturn(s, w, id);
    case _ =>
      var raise := Raise(w, "");
      StepKeepsInv(s, raise);
      RunOne(s, raise);
      var s1 := Apply(s, raise);
      var more := FailAndReturn(s1, w, id);
      RunConcat(s, [raise], more);
      steps := [raise] + more;
  }

  lemma HeldEntryIsOk(s: System, w: Consumer)
    requires Inv(s) && At(s, w).Fetched?
    ensures EntryOk(s.redis, At(s, w).entry)
  {
    hide RedisOk, StartsOk, ArchiveOk;
    WorkerIsOk(s, w);
  }

  lemma DeleteAcking(s: System, w: Consumer, id: StreamId) returns (steps: seq<Step>)
    requires At(s, w).Acking? && At(s, w).entry.id == id
    ensures CanRun(s, steps) && id !in Run(s, steps).redis.stream
  {
    var s1 := Apply(s, AckFinished(w));
    RunOne(s, AckFinished(w));
    RunOne(s1, DeleteFinished(w));
    RunConcat(s, [AckFinished(w)], [DeleteFinished(w)]);
    steps := [AckFinished(w)] + [DeleteFinished(w)];
  }

  lemma DeleteFetched(s: System, w: Consumer, id: StreamId) returns (steps: seq<Step>)
    requires Inv(s) && w in s.workers && At(s, w).Fetched? && At(s, w).entry.id == id && Stranded(s.redis, id)
    ensures CanRun(s, steps) && id !in Run(s, steps).redis.stream
  {
    hide Inv;
    StrandedHasNoLease(s, id);
    HeldEntryIsOk(s, w);
    var token := FreshString(s.tokens, 0);
    var claim := TryClaim(w, token);
    var s1 := Apply(s, claim);
    assert At(s1, w) == Acking(At(s, w).entry);
    var more := DeleteAcking(s1, w, id);
    RunOne(s, claim);
    RunConcat(s, [claim], more);
    steps := [claim] + more;
  }

  /** A copy in the recovered queue is reached by dropping the messages before it. */
  lemma {:induction false} DeleteRecovered(s: System, w: Consumer, k: nat, id: StreamId) returns (steps: seq<Step>)
    requires Inv(s) && w in s.workers && At(s, w).Idle? && Stranded(s.redis, id)
    requires k < |s.workers[w].recovered| && s.workers[w].recovered[k].id == id
    ensures CanRun(s, steps) && id !in Run(s, steps).redis.stream
    decreases k
  {
    hide Inv, Stranded;
    var take := TakeRecovered(w);
    var s1 := Apply(s, take);
    StepKeepsInv(s, take);
    RunOne(s, take);
    var more;
    if k == 0 {
      more := DeleteFetched(s1, w, id);
    } else {
      var drop := DropAndReturn(s1, w, id);
      var s2 := Run(s1, drop);
      var rest := DeleteRecovered(s2, w, k - 1, id);
      RunConcat(s1, drop, rest);
      more := drop + rest;
    }
    RunConcat(s, [take], more);
    steps := [take] + more;
  }

  lemma CopyCanDelete(s: System, id: StreamId) returns (steps: seq<Step>)
    requires Inv(s) && Stranded(s.redis, id) && HoldsCopy(s, id)
    ensures CanRun(s, steps) && id !in Run(s, steps).redis.stream
  {
    hide Inv, Stranded;
    var w :| w in s.workers && WorkerHolds(s.workers[w], id);
    if e :| e in s.workers[w].recovered && e.id == id {
      var k :| 0 <= k < |s.workers[w].recovered| && s.workers[w].recovered[k] == e;
      var idle := BackToIdle(s, w, id);
      var more := DeleteRecovered(Run(s, idle), w, k, id);
      RunConcat(s, idle, more);
      steps := idle + more;
    } else {
      match At(s, w)
      case Fetched(_) => steps := DeleteFetched(s, w, id);
      case Acking(_) => steps := DeleteAcking(s, w, id);
      case Deleting(_) =>
        RunOne(s, DeleteFinished(w));
        steps := [DeleteFinished(w)];
    }
  }

  /** An entry that is stranded in a reachable state stays for good if and only if no worker has a copy of it. */
  lemma StrandedForGoodExactlyWhen(capacity: nat, maxAttempts: nat, steps: seq<Step>, id: StreamId)
    requires CanRun(Init(capacity, maxAttempts), steps)
    requires Stranded(Run(Init(capacity, maxAttempts), steps).redis, id)
    ensures var s := Run(Init(capacity, maxAttempts), steps);
            (forall more | CanRun(s, more) :: id in Run(s, more).redis.stream) <==> !HoldsCopy(s, id)
  {
    hide Inv, HoldsCopy;
    ReachableInv(capacity, maxAttempts, steps);
    var s := Run(Init(capacity, maxAttempts), steps);
    if HoldsCopy(s, id) {
      var more := CopyCanDelete(s, id);
      assert CanRun(s, more);
    } else {
      forall more | CanRun(s, more) ensures id in Run(s, more).redis.stream {
        LeftStays(s, more, id);
      }
    }
  }

  lemma DeletingIsStranded(s: System, w: Consumer)
    requires Inv(s) && At(s, w).Deleting?
    ensures At(s, w).entry.id in s.redis.stream ==> Stranded(s.redis, At(s, w).entry.id)
  {
    hide RedisOk, StartsOk, ArchiveOk;
    WorkerIsOk(s, w);
  }

  lemma CrashLeaves(s: System, w: Consumer)
    requires Inv(s) && At(s, w).Deleting?
    ensures var id := At(s, w).entry.id;
            Left(Apply(s, Crash(w)), id)
            <==> id in s.redis.stream && forall v <- s.workers | v != w :: !WorkerHolds(s.workers[v], id)
  {
    hide Inv, WorkerHolds;
    DeletingIsStranded(s, w);
    var id, s' := At(s, w).entry.id, Apply(s, Crash(w));
    assert forall v :: v in s'.workers <==> v in s.workers && v != w;
    if id in s.redis.stream && HoldsCopy(s', id) {
      var v :| v in s'.workers && WorkerHolds(s'.workers[v], id);
      assert WorkerHolds(s.workers[v], id);
    }
    if !HoldsCopy(s', id) {
      forall v <- s.workers | v != w ensures !WorkerHolds(s.workers[v], id) {
        assert v in s'.workers;
      }
    }
  }

  /** A worker that dies between XACK and XDEL leaves such an entry exactly when no other worker has a copy. */
  lemma CrashLeavesEntry(capacity: nat, maxAttempts: nat, steps: seq<Step>, w: Consumer)
    requires CanRun(Init(capacity, maxAttempts), steps)
    requires At(Run(Init(capacity, maxAttempts), steps), w).Deleting?
    ensures var s := Run(Init(capacity, maxAttempts), steps);
            var id := At(s, w).entry.id;
            Left(Apply(s, Crash(w)), id)
            <==> id in s.redis.stream && forall v <- s.workers | v != w :: !WorkerHolds(s.workers[v], id)
  {
    hide Inv, Run, CanRun, Apply;
    ReachableInv(capacity, maxAttempts, steps);
    CrashLeaves(Run(Init(capacity, maxAttempts), steps), w);
  }

  lemma IdleHolds(recovered: seq<Entry>, id: StreamId)
    ensures WorkerHolds(Worker(recovered, Idle), id) <==> exists e <- recovered :: e.id == id
  {
  }

  /** Worker w goes back to its loop with the messages it had recovered. */
  lemma ReturnLeaves(s: System, s': System, w: Consumer, recovered: seq<Entry>, id: StreamId)
    requires s'.redis == s.redis && s'.workers == s.workers[w := Worker(recovered, Idle)]
    requires id in s.redis.stream ==> Stranded(s.redis, id)
    ensures Left(s', id)
       <==> && id in s.redis.stream
            && (forall v <- s.workers | v != w :: !WorkerHolds(s.workers[v], id))
            && (forall e <- recovered :: e.id != id)
  {
    hide WorkerHolds;
    IdleHolds(recovered, id);
    if HoldsCopy(s', id) {
      var v :| v in s'.workers && WorkerHolds(s'.workers[v], id);
      assert v != w ==> WorkerHolds(s.workers[v], id);
    } else {
      forall v <- s.workers ensures v == w || !WorkerHolds(s.workers[v], id) {
        assert v in s'.workers;
      }
      assert w in s'.workers && !WorkerHolds(s'.workers[w], id);
    }
  }

  lemma RaisingReturns(s: System, w: Consumer, error: string)
    requires Enabled(s, ClaimRaises(w, error))
    ensures w in s.workers
    ensures Apply(s, ClaimRaises(w, error)).workers == s.workers[w := Worker(s.workers[w].recovered, Idle)]
  {
    hide FailScript;
  }

  /**
    An exception in XDEL leaves such an entry too: exactly when no other worker has a copy and the worker
    itself has none among its recovered messages.
   */
  lemma ExceptionLeavesEntry(capacity: nat, maxAttempts: nat, steps: seq<Step>, w: Consumer, error: string)
    requires CanRun(Init(capacity, maxAttempts), steps)
    requires At(Run(Init(capacity, maxAttempts), steps), w).Deleting?
    ensures var s := Run(Init(capacity, maxAttempts), steps);
            var id := At(s, w).entry.id;
            Left(Apply(s, ClaimRaises(w, error)), id)
            <==> && id in s.redis.stream
                 && (forall v <- s.workers | v != w :: !WorkerHolds(s.workers[v], id))
                 && (forall e <- s.workers[w].recovered :: e.id != id)
  {
    hide Inv, Run, CanRun, Apply, Left;
    ReachableInv(capacity, maxAttempts, steps);
    var s := Run(Init(capacity, maxAttempts), steps);
    DeletingIsStranded(s, w);
    ClaimRaisesKeeps(s, w, error);
    RaisingReturns(s, w, error);
    ReturnLeaves(s, Apply(s, ClaimRaises(w, error)), w, s.workers[w].recovered, At(s, w).entry.id);
  }

  /** Left entries count as depth: once there are as many as the capacity, every later enqueue is refused. */
  lemma LeftEntriesShutTheQueue(capacity: nat, maxAttempts: nat, before: seq<Step>, ids: set<StreamId>,
                                after: seq<Step>, task: TaskId, payload: Payload)
    requires CanRun(Init(capacity, maxAttempts), before)
    requires CanRun(Run(Init(capacity, maxAttempts), before), after)
    requires |ids| >= capacity && forall id <- ids :: Left(Run(Init(capacity, maxAttempts), before), id)
    ensures var r := Run(Run(Init(capacity, maxAttempts), before), after).redis;
            EnqueueScript(r, capacity, task, payload) == (r, false)
  {
    hide Inv, HoldsCopy, Run, CanRun;
    ReachableInv(capacity, maxAttempts, before);
    var s := Run(Init(capacity, maxAttempts), before);
    var r := Run(s, after).redis;
    forall id <- ids ensures id in r.stream {
      LeftStays(s, after, id);
    }
    SubsetIsSmaller(ids, r.stream.Keys);
  }
}
