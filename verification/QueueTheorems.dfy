/** What the queue protocol guarantees over whole runs. */
module QueueTheorems {
  import opened Wrappers
  import opened MemoryStore
  import opened RedisQueue
  import opened RedisSafety
  import opened QueueProtocol
  import opened QueueInvariant
  import opened Collections

  lemma {:induction false} RunKeepsInv(s: System, steps: seq<Step>)
    requires Inv(s) && CanRun(s, steps)
    ensures Inv(Run(s, steps))
    decreases |steps|
  {
    if steps == [] {
    } else {
      StepKeepsInv(s, steps[0]);
      RunKeepsInv(Apply(s, steps[0]), steps[1..]);
    }
  }

  lemma ReachableInv(capacity: nat, maxAttempts: nat, steps: seq<Step>)
    requires CanRun(Init(capacity, maxAttempts), steps)
    ensures Inv(Run(Init(capacity, maxAttempts), steps))
  {
    RunKeepsInv(Init(capacity, maxAttempts), steps);
  }

  lemma {:induction false} LimitStays(s: System, steps: seq<Step>)
    requires Inv(s) && CanRun(s, steps)
    ensures Run(s, steps).maxAttempts == s.maxAttempts && Run(s, steps).capacity == s.capacity
    decreases |steps|
  {
    if steps == [] {
    } else {
      StepKeepsInv(s, steps[0]);
      LimitStays(Apply(s, steps[0]), steps[1..]);
    }
  }

  /** An accepted task never disappears, and its attempt count and payload only move forward. */
  lemma {:induction false} AcceptedTasksStay(s: System, steps: seq<Step>, task: TaskId)
    requires Inv(s) && CanRun(s, steps) && task in s.redis.tasks
    ensures task in Run(s, steps).redis.tasks
    ensures Run(s, steps).redis.tasks[task].payload == s.redis.tasks[task].payload
    ensures Run(s, steps).redis.tasks[task].attempts >= s.redis.tasks[task].attempts
    decreases |steps|
  {
    if steps == [] {
    } else {
      StepKeepsInv(s, steps[0]);
      AcceptedTasksStay(Apply(s, steps[0]), steps[1..], task);
    }
  }

  /** In every reachable state each unfinished task has a message the group can still hand out. */
  lemma NoAcceptedTaskIsLost(capacity: nat, maxAttempts: nat, steps: seq<Step>, task: TaskId)
    requires CanRun(Init(capacity, maxAttempts), steps)
    ensures var r := Run(Init(capacity, maxAttempts), steps).redis;
            task in r.tasks && !Terminal(r.tasks[task]) ==> HasLiveEntry(r, task)
  {
    ReachableInv(capacity, maxAttempts, steps);
  }

  /** Done and failed are absorbing: status, result, error and attempts are written no more. */
  lemma {:induction false} FinishedIsFinal(s: System, steps: seq<Step>, task: TaskId)
    requires Inv(s) && CanRun(s, steps)
    requires task in s.redis.tasks && Terminal(s.redis.tasks[task])
    ensures task in Run(s, steps).redis.tasks
    ensures Run(s, steps).redis.tasks[task] == s.redis.tasks[task]
    ensures task !in Run(s, steps).redis.leases
    decreases |steps|
  {
    if steps == [] {
    } else {
      StepKeepsInv(s, steps[0]);
      FinishedIsFinal(Apply(s, steps[0]), steps[1..], task);
    }
  }

  lemma DeadLetterMeansFailed(r: Redis, maxAttempts: nat, task: TaskId)
    requires ResultsOk(r, maxAttempts) && DeadLettersOk(r)
    ensures task in r.dead ==>
              task in r.tasks && r.tasks[task].status == Failed
              && r.tasks[task].attempts >= maxAttempts && r.tasks[task].result.None?
  {
    if task in r.dead {
      assert multiset(r.dead)[task] > 0;
    }
  }

  /** The dead-letter stream names each failed task once, no other task, and none before its last attempt. */
  lemma DeadLettersAreTheFailures(capacity: nat, maxAttempts: nat, steps: seq<Step>, task: TaskId)
    requires CanRun(Init(capacity, maxAttempts), steps)
    ensures var r := Run(Init(capacity, maxAttempts), steps).redis;
            multiset(r.dead)[task] == if task in r.tasks && r.tasks[task].status == Failed then 1 else 0
    ensures var r := Run(Init(capacity, maxAttempts), steps).redis;
            task in r.dead ==> r.tasks[task].attempts >= maxAttempts && r.tasks[task].result.None?
  {
    ReachableInv(capacity, maxAttempts, steps);
    LimitStays(Init(capacity, maxAttempts), steps);
    DeadLetterMeansFailed(Run(Init(capacity, maxAttempts), steps).redis, maxAttempts, task);
  }

  // ---- Fencing

  /** A lease that appears in a step carries a token nobody drew before. */
  lemma TokenFresh(s: System, step: Step, task: TaskId)
    requires Inv(s) && Enabled(s, step) && task in Apply(s, step).redis.leases
    ensures (task in s.redis.leases && Apply(s, step).redis.leases[task] == s.redis.leases[task])
            || Apply(s, step).redis.leases[task] !in s.tokens
  {
    StepKeepsInv(s, step);
  }

  /** A token that holds no lease never holds one again. */
  lemma {:induction false} LostLeaseNeverReturns(s: System, steps: seq<Step>, token: Token)
    requires Inv(s) && CanRun(s, steps)
    requires token in s.tokens && forall t <- s.redis.leases :: s.redis.leases[t] != token
    ensures forall t <- Run(s, steps).redis.leases :: Run(s, steps).redis.leases[t] != token
    decreases |steps|
  {
    if steps == [] {
    } else {
      StepKeepsInv(s, steps[0]);
      var s' := Apply(s, steps[0]);
      forall t <- s'.redis.leases ensures s'.redis.leases[t] != token {
        TokenFresh(s, steps[0], t);
      }
      LostLeaseNeverReturns(s', steps[1..], token);
    }
  }

  /**
    Once the lease of a claim is gone -- expired, or taken over by another worker -- whatever
    happens afterwards, complete and fail of that claim change nothing in Redis.
   */
  lemma StaleOwnerIsPowerless(s: System, steps: seq<Step>, job: Job, w: Consumer, step: Step)
    requires Inv(s) && CanRun(s, steps)
    requires job.token in s.tokens && forall t <- s.redis.leases :: s.redis.leases[t] != job.token
    requires JobOf(At(Run(s, steps), w)) == Some(job)
    requires step == CompleteTask(w) || step == FailTask(w)
    requires Enabled(Run(s, steps), step)
    ensures Apply(Run(s, steps), step).redis == Run(s, steps).redis
  {
    LostLeaseNeverReturns(s, steps, job.token);
  }

  /**
    The same for whole runs: if a claim's lease is gone after `before`, then after any continuation
    the owner's complete and fail leave Redis as it is.
   */
  lemma LostLeaseIsPowerless(capacity: nat, maxAttempts: nat, before: seq<Step>, after: seq<Step>, w: Consumer,
                             step: Step)
    requires CanRun(Init(capacity, maxAttempts), before)
    requires CanRun(Run(Init(capacity, maxAttempts), before), after)
    requires step == CompleteTask(w) || step == FailTask(w)
    ensures var s1 := Run(Init(capacity, maxAttempts), before);
            var s2 := Run(s1, after);
            var job := JobOf(At(s2, w));
            (job.Some? && job.value.token in s1.tokens
             && (forall t <- s1.redis.leases :: s1.redis.leases[t] != job.value.token)
             && Enabled(s2, step)) ==>
              Apply(s2, step).redis == s2.redis
  {
    hide Inv, Apply;
    ReachableInv(capacity, maxAttempts, before);
    var s1 := Run(Init(capacity, maxAttempts), before);
    var s2 := Run(s1, after);
    var job := JobOf(At(s2, w));
    if job.Some? && job.value.token in s1.tokens
       && (forall t <- s1.redis.leases :: s1.redis.leases[t] != job.value.token) && Enabled(s2, step) {
      StaleOwnerIsPowerless(s1, after, job.value, w, step);
    }
  }

  /** Between any two moments of a run a task stays, moves forward, and once finished is written no more. */
  lemma OutcomesAreFinal(capacity: nat, maxAttempts: nat, before: seq<Step>, after: seq<Step>, task: TaskId)
    requires CanRun(Init(capacity, maxAttempts), before)
    requires CanRun(Run(Init(capacity, maxAttempts), before), after)
    ensures var r1 := Run(Init(capacity, maxAttempts), before).redis;
            var r2 := Run(Run(Init(capacity, maxAttempts), before), after).redis;
            task in r1.tasks ==>
              && task in r2.tasks && r2.tasks[task].payload == r1.tasks[task].payload
              && r2.tasks[task].attempts >= r1.tasks[task].attempts
              && (Terminal(r1.tasks[task]) ==> r2.tasks[task] == r1.tasks[task] && task !in r2.leases)
  {
    hide Inv, Apply;
    ReachableInv(capacity, maxAttempts, before);
    var s1 := Run(Init(capacity, maxAttempts), before);
    if task in s1.redis.tasks {
      AcceptedTasksStay(s1, after, task);
      if Terminal(s1.redis.tasks[task]) {
        FinishedIsFinal(s1, after, task);
      }
    }
  }

  // ---- The attempt limit

  function StartsOf(starts: seq<Start>, task: TaskId): (attempts: seq<nat>)
    ensures forall a <- attempts :: Start(task, a) in starts
  {
    if starts == [] then []
    else
      var rest := StartsOf(starts[..|starts| - 1], task);
      var last := starts[|starts| - 1];
      if last.task == task then rest + [last.attempt] else rest
  }

  lemma {:induction false} StartsOfDistinct(starts: seq<Start>, task: TaskId)
    requires Distinct(starts)
    ensures Distinct(StartsOf(starts, task))
  {
    if starts == [] {
    } else {
      var rest := starts[..|starts| - 1];
      var last := starts[|starts| - 1];
      StartsOfDistinct(rest, task);
      assert last !in rest;
      assert last.task == task ==> last.attempt !in StartsOf(rest, task);
    }
  }

  lemma {:induction false} DistinctNumbersAreFew(a: seq<nat>, n: nat)
    requires forall i | 0 <= i < |a| :: 1 <= a[i] <= n
    requires Distinct(a)
    ensures |a| <= n
  {
    assert a == [] || 1 <= a[0] <= n;
    if n == 0 {
    } else if i :| 0 <= i < |a| && a[i] == n {
      DistinctNumbersAreFew(a[..i] + a[i + 1..], n - 1);
    } else {
      DistinctNumbersAreFew(a, n - 1);
    }
  }

  lemma StartsAreFew(s: System, task: TaskId)
    requires StartsOk(s)
    ensures |StartsOf(s.starts, task)| <= s.maxAttempts
  {
    var attempts := StartsOf(s.starts, task);
    StartsOfDistinct(s.starts, task);
    forall i | 0 <= i < |attempts| ensures 1 <= attempts[i] <= s.maxAttempts {
      assert attempts[i] in attempts;
      var k :| 0 <= k < |s.starts| && s.starts[k] == Start(task, attempts[i]);
    }
    DistinctNumbersAreFew(attempts, s.maxAttempts);
  }

  /** However workers crash and leases expire, a task's handler starts at most maxAttempts times. */
  lemma HandlerStartsAreBounded(capacity: nat, maxAttempts: nat, steps: seq<Step>, task: TaskId)
    requires CanRun(Init(capacity, maxAttempts), steps)
    ensures |StartsOf(Run(Init(capacity, maxAttempts), steps).starts, task)| <= maxAttempts
  {
    ReachableInv(capacity, maxAttempts, steps);
    LimitStays(Init(capacity, maxAttempts), steps);
    StartsAreFew(Run(Init(capacity, maxAttempts), steps), task);
  }

  // ---- The archive

  /**
    A task created at most one memory row. If it is an archive task that is done, its result
    names that row, the row holds what the payload asked for, and the vector is there.
   */
  lemma ArchivedExactlyOnce(capacity: nat, maxAttempts: nat, steps: seq<Step>, task: TaskId)
    requires CanRun(Init(capacity, maxAttempts), steps) && task != ""
    ensures var db := Run(Init(capacity, maxAttempts), steps).db;
            forall i <- db.rows, j <- db.rows :: db.rows[i].origin == task && db.rows[j].origin == task ==> i == j
    ensures var s := Run(Init(capacity, maxAttempts), steps);
            task in s.redis.tasks && s.redis.tasks[task].status == Done
            && s.redis.tasks[task].payload.MistakeArchive? ==>
              var m := s.redis.tasks[task].payload.memory;
              if m.text == "" then s.redis.tasks[task].result == Some(Archived(None))
              else exists id <- s.db.rows ::
                     s.redis.tasks[task].result == Some(Archived(Some(id)))
                     && s.db.rows[id].origin == task && StoredAs(m, s.db.rows[id].memory)
                     && Some(id) in s.db.vectors && s.db.vectors[Some(id)] == m.text
  {
    ReachableInv(capacity, maxAttempts, steps);
    var s := Run(Init(capacity, maxAttempts), steps);
    if WantsArchive(s, task) && s.redis.tasks[task].status == Done && s.redis.tasks[task].payload.memory.text != "" {
      assert s.redis.tasks[task].result.Some?;
      var id := s.db.effects[task].value;
      assert id in s.db.rows;
    }
  }

  lemma {:induction false} EffectsStay(s: System, steps: seq<Step>, task: TaskId)
    requires Inv(s) && CanRun(s, steps) && task in s.db.effects
    ensures task in Run(s, steps).db.effects && Run(s, steps).db.effects[task] == s.db.effects[task]
    decreases |steps|
  {
    if steps == [] {
    } else {
      StepKeepsInv(s, steps[0]);
      EffectsStay(Apply(s, steps[0]), steps[1..], task);
    }
  }

  lemma CommittedIdIsTheEffect(s: System, w: Consumer)
    requires Inv(s) && At(s, w).Committed?
    ensures At(s, w).job.entry.task in s.db.effects && s.db.effects[At(s, w).job.entry.task] == At(s, w).id
    ensures At(s, w).id.Some?
  {
    assert WorkerOk(s, s.workers[w]);
  }

  /** Any two executions of one task, overlapping or not, by any workers, get the same memory id. */
  lemma EveryExecutionSeesTheSameId(capacity: nat, maxAttempts: nat, before: seq<Step>, between: seq<Step>,
                                    w1: Consumer, w2: Consumer)
    requires CanRun(Init(capacity, maxAttempts), before)
    requires CanRun(Run(Init(capacity, maxAttempts), before), between)
    requires var s1 := Run(Init(capacity, maxAttempts), before);
             var s2 := Run(s1, between);
             At(s1, w1).Committed? && At(s2, w2).Committed?
             && At(s1, w1).job.entry.task == At(s2, w2).job.entry.task
    ensures var s1 := Run(Init(capacity, maxAttempts), before);
            At(s1, w1).id == At(Run(s1, between), w2).id && At(s1, w1).id.Some?
  {
    ReachableInv(capacity, maxAttempts, before);
    var s1 := Run(Init(capacity, maxAttempts), before);
    RunKeepsInv(s1, between);
    var s2 := Run(s1, between);
    var task := At(s1, w1).job.entry.task;
    CommittedIdIsTheEffect(s1, w1);
    CommittedIdIsTheEffect(s2, w2);
    EffectsStay(s1, between, task);
  }
}
