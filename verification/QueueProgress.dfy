/**
  Not losing a task, in the strong sense: from every reachable state, whatever has crashed,
  expired or been duplicated, one new worker can bring any unfinished task to its end -- and to
  success, if it has an attempt left -- without anything going wrong on the way.
 */
module QueueProgress {
  import opened MemoryStore
  import opened RedisQueue
  import opened RedisSafety
  import opened QueueProtocol
  import opened QueueInvariant
  import opened QueueTheorems

  lemma {:induction false} RunConcat(s: System, a: seq<Step>, b: seq<Step>)
    requires CanRun(s, a) && CanRun(Run(s, a), b)
    ensures CanRun(s, a + b) && Run(s, a + b) == Run(Run(s, a), b)
    decreases |a|
  {
    hide Apply, Enabled;
    if a == [] {
      assert a + b == b;
    } else {
      RunConcat(Apply(s, a[0]), a[1..], b);
      assert (a + b)[0] == a[0] && (a + b)[1..] == a[1..] + b;
    }
  }

  lemma RunOne(s: System, step: Step)
    requires Enabled(s, step)
    ensures CanRun(s, [step]) && Run(s, [step]) == Apply(s, step)
  {
    assert [step][1..] == [];
  }

  lemma {:induction false} FreshString(used: set<string>, least: nat) returns (x: string)
    ensures x !in used && |x| > least
    decreases |used|
  {
    if y :| y in used && |y| > least {
      x := FreshString(used - {y}, |y|);
    } else {
      x := seq(least + 1, _ => 'w');
    }
  }

  predicate MayClaim(r: Redis, task: TaskId) {
    task in r.tasks && !Terminal(r.tasks[task]) && task !in r.leases
  }

  /** The task can be claimed by whoever holds one of its messages. */
  ghost predicate Ready(s: System, task: TaskId) {
    Inv(s) && MayClaim(s.redis, task)
  }

  /** Nothing is submitted from outside, no worker dies and nothing raises an exception. */
  predicate Orderly(steps: seq<Step>) {
    forall step <- steps ::
      !step.Submit? && !step.OtherMemory? && !step.Crash? && !step.ClaimRaises? && !step.Raise?
  }

  lemma RecoverTakes(s: System, w: Consumer, id: StreamId)
    requires w in s.workers && s.workers[w] == Worker([], Idle)
    requires id in s.redis.stream && id in s.redis.pending
    ensures var steps := [Recover(w, [id])] + [TakeRecovered(w)];
            CanRun(s, steps) && Orderly(steps)
            && At(Run(s, steps), w) == Fetched(Entry(id, s.redis.stream[id]))
            && Run(s, steps).redis.tasks == s.redis.tasks && Run(s, steps).redis.leases == s.redis.leases
  {
    var s1 := Apply(s, Recover(w, [id]));
    assert s1.workers[w].recovered == [Entry(id, s.redis.stream[id])];
    RunOne(s, Recover(w, [id]));
    RunOne(s1, TakeRecovered(w));
    RunConcat(s, [Recover(w, [id])], [TakeRecovered(w)]);
  }

  /** Reading delivers the message, or an older one that brings the group closer to it. */
  lemma ReadAdvances(s: System, w: Consumer, id: StreamId)
    requires w in s.workers && s.workers[w] == Worker([], Idle)
    requires id in s.redis.stream && s.redis.cursor <= id < s.redis.nextId
    ensures var s1 := Apply(s, ReadNew(w));
            w in s1.workers && s1.workers[w].recovered == [] && At(s1, w).Fetched?
            && s1.redis.stream == s.redis.stream && s1.redis.tasks == s.redis.tasks
            && s1.redis.leases == s.redis.leases && s1.redis.nextId == s.redis.nextId
            && (At(s1, w) == Fetched(Entry(id, s.redis.stream[id])) || s.redis.cursor < s1.redis.cursor <= id)
  {
  }

  // ---- One worker carries a message to its end

  /** The worker is back in its loop; of Redis only the entry's task and message were touched. */
  ghost predicate Settles(s: System, s': System, w: Consumer, e: Entry)
    requires w in s.workers
  {
    var r, r' := s.redis, s'.redis;
    && w in s'.workers && s'.workers[w] == s.workers[w].(phase := Idle)
    && r'.cursor == r.cursor
    && (forall t <- r.tasks | t != e.task :: t in r'.tasks && r'.tasks[t] == r.tasks[t])
    && (forall t <- r'.leases | t != e.task :: t in r.leases)
    && (forall id <- r.stream | id != e.id :: id in r'.stream && r'.stream[id] == r.stream[id])
  }

  lemma Archive(s: System, w: Consumer) returns (steps: seq<Step>)
    requires Enabled(s, CommitRow(w, MySql))
    ensures CanRun(s, steps) && Orderly(steps)
    ensures Run(s, steps).redis == s.redis && w in Run(s, steps).workers
    ensures Run(s, steps).workers[w].recovered == s.workers[w].recovered
    ensures At(Run(s, steps), w).Finished? && At(Run(s, steps), w).job == At(s, w).job
  {
    hide CanRun, Run, AddRow, UpsertVector, EnqueueScript, ClaimScript, CompleteScript, FailScript;
    var s1 := Apply(s, CommitRow(w, MySql));
    RunOne(s, CommitRow(w, MySql));
    RunOne(s1, WriteVector(w));
    RunConcat(s, [CommitRow(w, MySql)], [WriteVector(w)]);
    steps := [CommitRow(w, MySql)] + [WriteVector(w)];
  }

  /** Run the handler of a claimed job that is within the attempt limit and return from it. */
  lemma RunHandler(s: System, w: Consumer) returns (steps: seq<Step>)
    requires Enabled(s, Begin(w)) && At(s, w).job.entry.task in s.redis.tasks
    ensures CanRun(s, steps) && Orderly(steps)
    ensures Run(s, steps).redis == s.redis && w in Run(s, steps).workers
    ensures Run(s, steps).workers[w].recovered == s.workers[w].recovered
    ensures At(Run(s, steps), w).Finished? && At(Run(s, steps), w).job == At(s, w).job
  {
    hide CanRun, Run, AddRow, UpsertVector, EnqueueScript, ClaimScript, CompleteScript, FailScript;
    var task := At(s, w).job.entry.task;
    var s1 := Apply(s, Begin(w));
    RunOne(s, Begin(w));
    var handled;
    if WantsArchive(s, task) && s.redis.tasks[task].payload.memory.text != "" {
      handled := Archive(s1, w);
    } else {
      var step := if WantsArchive(s, task) then ReturnEmpty(w) else ReturnReport(w, "");
      RunOne(s1, step);
      handled := [step];
    }
    RunConcat(s, [Begin(w)], handled);
    steps := [Begin(w)] + handled;
  }

  function Outcome(attempts: nat, maxAttempts: nat): Status {
    if attempts <= maxAttempts then Done else Failed
  }

  lemma CompleteSettles(s: System, w: Consumer)
    requires At(s, w).Finished? && At(s, w).job.entry.task in s.redis.tasks
    requires HoldsLease(s.redis, At(s, w).job.entry.task, At(s, w).job.token)
    ensures Enabled(s, CompleteTask(w))
    ensures var e, s' := At(s, w).job.entry, Apply(s, CompleteTask(w));
            Settles(s, s', w, e) && e.task in s'.redis.tasks && s'.redis.tasks[e.task].status == Done
  {
  }

  /** An attempt over the limit is failed, and not retried. */
  lemma RefusalSettles(s: System, w: Consumer)
    requires At(s, w).Raised? && At(s, w).job.attempts >= s.maxAttempts && At(s, w).job.entry.task in s.redis.tasks
    requires HoldsLease(s.redis, At(s, w).job.entry.task, At(s, w).job.token)
    ensures Enabled(s, FailTask(w))
    ensures var e, s' := At(s, w).job.entry, Apply(s, FailTask(w));
            Settles(s, s', w, e) && e.task in s'.redis.tasks && s'.redis.tasks[e.task].status == Failed
  {
  }

  lemma Refuse(s: System, w: Consumer) returns (steps: seq<Step>)
    requires Enabled(s, RefuseOverLimit(w)) && At(s, w).job.entry.task in s.redis.tasks
    requires HoldsLease(s.redis, At(s, w).job.entry.task, At(s, w).job.token)
    ensures CanRun(s, steps) && Orderly(steps) && Settles(s, Run(s, steps), w, At(s, w).job.entry)
    ensures var e, r := At(s, w).job.entry, Run(s, steps).redis;
            e.task in r.tasks && r.tasks[e.task].status == Failed
  {
    hide CanRun, Run, CompleteScript, FailScript, EnqueueScript, ClaimScript, AddRow, UpsertVector, PutAll;
    var s1 := Apply(s, RefuseOverLimit(w));
    RunOne(s, RefuseOverLimit(w));
    RefusalSettles(s1, w);
    RunOne(s1, FailTask(w));
    RunConcat(s, [RefuseOverLimit(w)], [FailTask(w)]);
    steps := [RefuseOverLimit(w)] + [FailTask(w)];
  }

  lemma HandleAndComplete(s: System, w: Consumer) returns (steps: seq<Step>)
    requires Enabled(s, Begin(w)) && At(s, w).job.entry.task in s.redis.tasks
    requires HoldsLease(s.redis, At(s, w).job.entry.task, At(s, w).job.token)
    ensures CanRun(s, steps) && Orderly(steps) && Settles(s, Run(s, steps), w, At(s, w).job.entry)
    ensures var e, r := At(s, w).job.entry, Run(s, steps).redis;
            e.task in r.tasks && r.tasks[e.task].status == Done
  {
    hide CanRun, Run, Apply, Enabled;
    var handler := RunHandler(s, w);
    var s1 := Run(s, handler);
    CompleteSettles(s1, w);
    RunOne(s1, CompleteTask(w));
    RunConcat(s, handler, [CompleteTask(w)]);
    steps := handler + [CompleteTask(w)];
  }

  /** A claimed job whose lease holds is carried to its commit, or refused over the limit. */
  lemma Commit(s: System, w: Consumer) returns (steps: seq<Step>)
    requires At(s, w).Claimed? && At(s, w).job.entry.task in s.redis.tasks
    requires HoldsLease(s.redis, At(s, w).job.entry.task, At(s, w).job.token)
    ensures CanRun(s, steps) && Orderly(steps) && Settles(s, Run(s, steps), w, At(s, w).job.entry)
    ensures var job, r := At(s, w).job, Run(s, steps).redis;
            job.entry.task in r.tasks && r.tasks[job.entry.task].status == Outcome(job.attempts, s.maxAttempts)
  {
    hide CanRun, Run, Apply, Settles;
    if At(s, w).job.attempts > s.maxAttempts {
      steps := Refuse(s, w);
    } else {
      steps := HandleAndComplete(s, w);
    }
  }

  /** Claim the delivered message and carry the job to its commit. */
  lemma Finish(s: System, w: Consumer) returns (steps: seq<Step>)
    requires "" !in s.tokens && At(s, w).Fetched? && MayClaim(s.redis, At(s, w).entry.task)
    ensures CanRun(s, steps) && Orderly(steps) && Settles(s, Run(s, steps), w, At(s, w).entry)
    ensures var task, r := At(s, w).entry.task, Run(s, steps).redis;
            task in r.tasks && r.tasks[task].status == Outcome(s.redis.tasks[task].attempts + 1, s.maxAttempts)
  {
    hide CanRun, Run;
    var token := FreshString(s.tokens, 0);
    RunOne(s, TryClaim(w, token));
    var s1 := Apply(s, TryClaim(w, token));
    var commit := Commit(s1, w);
    RunConcat(s, [TryClaim(w, token)], commit);
    steps := [TryClaim(w, token)] + commit;
  }

  /** A message whose task is finished is acknowledged and deleted; one that somebody works on is left alone. */
  lemma PassOver(s: System, w: Consumer) returns (steps: seq<Step>)
    requires At(s, w).Fetched? && At(s, w).entry.task in s.redis.tasks && !MayClaim(s.redis, At(s, w).entry.task)
    ensures CanRun(s, steps) && Orderly(steps) && Settles(s, Run(s, steps), w, At(s, w).entry)
  {
    hide CanRun, Run;
    var token := FreshString(s.tokens, 0);
    var claim := TryClaim(w, token);
    RunOne(s, claim);
    steps := [claim];
    var s1 := Apply(s, claim);
    if At(s1, w).Acking? {
      var s2 := Apply(s1, AckFinished(w));
      RunOne(s1, AckFinished(w));
      RunOne(s2, DeleteFinished(w));
      RunConcat(s1, [AckFinished(w)], [DeleteFinished(w)]);
      RunConcat(s, [claim], [AckFinished(w)] + [DeleteFinished(w)]);
      steps := [claim] + ([AckFinished(w)] + [DeleteFinished(w)]);
    }
  }

  // ---- The way to the message

  lemma NoEmptyToken(s: System)
    requires Inv(s)
    ensures "" !in s.tokens
  {
  }

  lemma FetchedTaskIsKnown(s: System, w: Consumer)
    requires Inv(s) && At(s, w).Fetched?
    ensures At(s, w).entry.task in s.redis.tasks && At(s, w).entry.id < s.redis.cursor
  {
    assert WorkerOk(s, s.workers[w]);
  }

  /** An older message is dealt with; that of the task and the task itself are as before. */
  lemma DealWith(s: System, w: Consumer, id: StreamId, task: TaskId) returns (steps: seq<Step>)
    requires Ready(s, task) && At(s, w).Fetched? && s.workers[w].recovered == [] && At(s, w).entry.task != task
    requires id in s.redis.stream && s.redis.stream[id] == task && id >= s.redis.cursor
    ensures CanRun(s, steps) && Orderly(steps) && Ready(Run(s, steps), task)
    ensures var s' := Run(s, steps);
            && w in s'.workers && s'.workers[w] == Worker([], Idle) && s'.redis.cursor == s.redis.cursor
            && id in s'.redis.stream && s'.redis.stream[id] == task && s'.redis.tasks[task] == s.redis.tasks[task]
            && s'.maxAttempts == s.maxAttempts
  {
    hide Inv, Run, CanRun, Apply, Enabled;
    FetchedTaskIsKnown(s, w);
    if MayClaim(s.redis, At(s, w).entry.task) {
      NoEmptyToken(s);
      steps := Finish(s, w);
    } else {
      steps := PassOver(s, w);
    }
    RunKeepsInv(s, steps);
    LimitStays(s, steps);
  }

  lemma IdleMayRead(s: System, w: Consumer, id: StreamId)
    requires Inv(s) && w in s.workers && s.workers[w] == Worker([], Idle) && id in s.redis.stream
    ensures Enabled(s, ReadNew(w)) && id < s.redis.nextId
  {
    hide WorkersOk, StartsOk, ArchiveOk;
  }

  /** A message of the task reaches the idle worker w, after the older messages. */
  lemma {:induction false} Deliver(s: System, w: Consumer, id: StreamId, task: TaskId) returns (steps: seq<Step>)
    requires Ready(s, task) && w in s.workers && s.workers[w] == Worker([], Idle)
    requires id in s.redis.stream && s.redis.stream[id] == task && (id >= s.redis.cursor || id in s.redis.pending)
    ensures CanRun(s, steps) && Orderly(steps) && Ready(Run(s, steps), task)
    ensures var s' := Run(s, steps);
            At(s', w).Fetched? && At(s', w).entry.task == task && s'.redis.tasks[task] == s.redis.tasks[task]
            && s'.maxAttempts == s.maxAttempts
    decreases if id >= s.redis.cursor then id - s.redis.cursor + 1 else 0
  {
    hide Inv, Run, CanRun, Apply, Enabled;
    if id in s.redis.pending {
      RecoverTakes(s, w, id);
      steps := [Recover(w, [id])] + [TakeRecovered(w)];
    } else {
      IdleMayRead(s, w, id);
      ReadAdvances(s, w, id);
      RunOne(s, ReadNew(w));
      steps := [ReadNew(w)];
    }
    RunKeepsInv(s, steps);
    LimitStays(s, steps);
    var s1 := Run(s, steps);
    if At(s1, w).entry.task != task {
      var older := DealWith(s1, w, id, task);
      var rest := Deliver(Run(s1, older), w, id, task);
      RunConcat(s1, older, rest);
      RunConcat(s, steps, older + rest);
      steps := steps + (older + rest);
    }
  }

  /** Let a stale lease lapse and start a worker nobody has seen before. */
  lemma Prepare(s: System, task: TaskId) returns (steps: seq<Step>, w: Consumer)
    requires Inv(s) && task in s.redis.tasks && !Terminal(s.redis.tasks[task])
    ensures CanRun(s, steps) && Orderly(steps) && Ready(Run(s, steps), task)
    ensures w in Run(s, steps).workers && Run(s, steps).workers[w] == Worker([], Idle)
    ensures Run(s, steps).redis.tasks == s.redis.tasks && Run(s, steps).maxAttempts == s.maxAttempts
  {
    hide WorkersOk, StartsOk, ArchiveOk, RedisOk, SystemEvolves;
    var s1 := s;
    steps := [];
    if task in s.redis.leases {
      QueueInvariant.ExpireKeeps(s, task);
      RunOne(s, Expire(task));
      steps := [Expire(task)];
      s1 := Apply(s, Expire(task));
    }
    w := FreshString(s1.workers.Keys, 0);
    SpawnKeeps(s1, w);
    RunOne(s1, Spawn(w));
    RunConcat(s, steps, [Spawn(w)]);
    steps := steps + [Spawn(w)];
  }

  lemma LiveEntry(s: System, task: TaskId) returns (id: StreamId)
    requires Ready(s, task)
    ensures id in s.redis.stream && s.redis.stream[id] == task && (id >= s.redis.cursor || id in s.redis.pending)
  {
    hide WorkersOk, StartsOk, ArchiveOk;
    id :| id in s.redis.stream && s.redis.stream[id] == task && (id >= s.redis.cursor || id in s.redis.pending);
  }

  lemma FinishFrom(s: System, task: TaskId) returns (steps: seq<Step>)
    requires Inv(s) && task in s.redis.tasks && !Terminal(s.redis.tasks[task])
    ensures CanRun(s, steps) && Orderly(steps)
    ensures var r := Run(s, steps).redis;
            task in r.tasks && r.tasks[task].status == Outcome(s.redis.tasks[task].attempts + 1, s.maxAttempts)
  {
    hide Inv, Run, CanRun, Apply, Enabled;
    var prepare, w := Prepare(s, task);
    var s1 := Run(s, prepare);
    var id := LiveEntry(s1, task);
    var deliver := Deliver(s1, w, id, task);
    RunConcat(s, prepare, deliver);
    var s2 := Run(s1, deliver);
    NoEmptyToken(s2);
    var finish := Finish(s2, w);
    RunConcat(s, prepare + deliver, finish);
    steps := prepare + deliver + finish;
  }

  /**
    From every reachable state an orderly continuation finishes the task: it succeeds if the task has an
    attempt left and fails otherwise.
   */
  lemma UnfinishedTaskCanFinish(capacity: nat, maxAttempts: nat, run: seq<Step>, task: TaskId)
    returns (more: seq<Step>)
    requires CanRun(Init(capacity, maxAttempts), run)
    requires var r := Run(Init(capacity, maxAttempts), run).redis;
             task in r.tasks && !Terminal(r.tasks[task])
    ensures Orderly(more) && CanRun(Init(capacity, maxAttempts), run + more)
    ensures var attempts := Run(Init(capacity, maxAttempts), run).redis.tasks[task].attempts;
            var r := Run(Init(capacity, maxAttempts), run + more).redis;
            task in r.tasks && r.tasks[task].status == if attempts < maxAttempts then Done else Failed
  {
    hide Inv, Run, CanRun;
    var s0 := Init(capacity, maxAttempts);
    ReachableInv(capacity, maxAttempts, run);
    LimitStays(s0, run) by { ReachableInv(capacity, maxAttempts, []); }
    more := FinishFrom(Run(s0, run), task);
    RunConcat(s0, run, more);
  }
}
