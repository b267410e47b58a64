/** Every step of the queue protocol keeps the invariant. */
module QueueInvariant {
  import opened Wrappers
  import opened MemoryStore
  import opened RedisQueue
  import Safety = RedisSafety
  import opened QueueProtocol

  /** How the shared state may change in one step, seen from a worker that does not move. */
  ghost predicate SystemEvolves(s: System, s': System) {
    && s.maxAttempts == s'.maxAttempts && s.capacity == s'.capacity
    && s.tokens <= s'.tokens
    && Safety.Evolves(s.redis, s'.redis, s.tokens)
    && Grows(s.db, s'.db)
  }

  ghost predicate Good(s: System, s': System) {
    Inv(s') && SystemEvolves(s, s')
  }

  lemma WorkerIsOk(s: System, w: Consumer)
    requires WorkersOk(s) && w in s.workers
    ensures WorkerOk(s, s.workers[w])
  {
  }

  /** What a worker holds is about a task whose hash exists. */
  lemma HeldTaskIsKnown(s: System, w: Consumer)
    requires WorkersOk(s) && w in s.workers
    ensures At(s, w).Fetched? || At(s, w).Acking? || At(s, w).Deleting? ==> At(s, w).entry.task in s.redis.tasks
    ensures JobOf(At(s, w)).Some? ==> JobOf(At(s, w)).value.entry.task in s.redis.tasks
  {
    WorkerIsOk(s, w);
  }

  lemma GrowsSelf(db: Db)
    ensures Grows(db, db)
  {
  }

  lemma EvolvesSelf(r: Redis, tokens: set<Token>)
    requires forall task <- r.leases :: task in r.tasks
    ensures Safety.Evolves(r, r, tokens)
  {
  }

  // ---- What the others keep when one worker moves

  lemma WorkerStable(s: System, s': System, worker: Worker)
    requires SystemEvolves(s, s') && WorkerOk(s, worker)
    requires worker.phase.Claimed? ==>
               Start(worker.phase.job.entry.task, worker.phase.job.attempts) !in s'.starts
    ensures WorkerOk(s', worker)
  {
  }

  /** Worker w is replaced by `worker`, which keeps its claim, drops it or makes a new one. */
  lemma WorkersStable(s: System, s': System, w: Consumer, worker: Worker)
    requires WorkersOk(s) && SystemEvolves(s, s') && s'.starts == s.starts
    requires s'.workers == s.workers[w := worker] && WorkerOk(s', worker)
    requires JobOf(worker.phase).Some? ==>
               (w in s.workers && JobOf(worker.phase) == JobOf(s.workers[w].phase))
               || forall v <- s.workers :: !SameClaim(JobOf(worker.phase), JobOf(s.workers[v].phase))
    ensures WorkersOk(s')
  {
    forall v <- s'.workers ensures WorkerOk(s', s'.workers[v]) {
      if v != w {
        WorkerStable(s, s', s.workers[v]);
      }
    }
  }

  /** Nobody moves, or some workers vanish. */
  lemma SubsetStable(s: System, s': System)
    requires WorkersOk(s) && SystemEvolves(s, s') && s'.starts == s.starts
    requires forall w <- s'.workers :: w in s.workers && s'.workers[w] == s.workers[w]
    ensures WorkersOk(s')
  {
    forall v <- s'.workers ensures WorkerOk(s', s'.workers[v]) {
      WorkerStable(s, s', s.workers[v]);
    }
  }

  lemma StartsStable(s: System, s': System)
    requires StartsOk(s) && SystemEvolves(s, s') && s'.starts == s.starts
    ensures StartsOk(s')
  {
  }

  /** Any result that is new in the task table is right for the database. */
  ghost predicate NewResultsOk(s: System, s': System) {
    "" !in s'.redis.tasks
    && forall task <- s'.redis.tasks :: s'.redis.tasks[task].result.Some? ==>
         (task in s.redis.tasks && s'.redis.tasks[task].result == s.redis.tasks[task].result)
         || ResultOk(s'.db, task, s'.redis.tasks[task].payload, s'.redis.tasks[task].result.value)
  }

  lemma ArchiveStable(s: System, s': System)
    requires ArchiveOk(s) && SystemEvolves(s, s') && s'.db == s.db && NewResultsOk(s, s')
    ensures ArchiveOk(s')
  {
  }

  /** A worker's claim is the one it had, or nobody's. */
  ghost predicate KeepsClaim(s: System, w: Consumer, worker: Worker) {
    JobOf(worker.phase).Some? ==>
      (w in s.workers && JobOf(worker.phase) == JobOf(s.workers[w].phase))
      || forall v <- s.workers :: !SameClaim(JobOf(worker.phase), JobOf(s.workers[v].phase))
  }

  /** Redis did its part; conclude for a step that moves worker w and leaves the database alone. */
  lemma MoveKeeps(s: System, s': System, w: Consumer, worker: Worker)
    requires Inv(s) && s'.starts == s.starts && s'.db == s.db
    requires s.maxAttempts == s'.maxAttempts && s.capacity == s'.capacity
    requires s.tokens <= s'.tokens && "" !in s'.tokens
    requires Safety.Evolves(s.redis, s'.redis, s.tokens)
    requires Safety.RedisOk(s'.redis, s'.tokens, s'.maxAttempts)
    requires s'.workers == s.workers[w := worker] && WorkerOk(s', worker) && KeepsClaim(s, w, worker)
    requires NewResultsOk(s, s')
    ensures Good(s, s')
  {
    hide Safety.RedisOk, Safety.Evolves, WorkersOk, WorkerOk, StartsOk, ArchiveOk, Grows, NewResultsOk;
    GrowsSelf(s.db);
    WorkersStable(s, s', w, worker);
    StartsStable(s, s');
    ArchiveStable(s, s');
  }

  /** The same for a step in which no worker moves. */
  lemma QuietKeeps(s: System, s': System)
    requires Inv(s) && s'.starts == s.starts && s'.db == s.db
    requires s.maxAttempts == s'.maxAttempts && s.capacity == s'.capacity && s.tokens == s'.tokens
    requires Safety.Evolves(s.redis, s'.redis, s.tokens)
    requires Safety.RedisOk(s'.redis, s'.tokens, s'.maxAttempts)
    requires forall w <- s'.workers :: w in s.workers && s'.workers[w] == s.workers[w]
    requires NewResultsOk(s, s')
    ensures Good(s, s')
  {
    hide Safety.RedisOk, Safety.Evolves, WorkersOk, WorkerOk, StartsOk, ArchiveOk, Grows, NewResultsOk;
    GrowsSelf(s.db);
    SubsetStable(s, s');
    StartsStable(s, s');
    ArchiveStable(s, s');
  }

  /** A worker that only changes its phase is fine if its new phase is. */
  lemma MoverOk(s: System, s': System, w: Consumer, phase: Phase)
    requires WorkersOk(s) && w in s.workers && PhaseOk(s', phase)
    requires s.tokens <= s'.tokens && Safety.Evolves(s.redis, s'.redis, s.tokens)
    ensures WorkerOk(s', s.workers[w].(phase := phase))
  {
    forall e <- s.workers[w].recovered ensures Safety.EntryOk(s'.redis, e) {
      assert WorkerOk(s, s.workers[w]);
    }
  }

  // ---- The steps

  lemma LeasedTasksExist(s: System)
    requires Inv(s)
    ensures Safety.Evolves(s.redis, s.redis, s.tokens)
  {
    hide WorkersOk, StartsOk, ArchiveOk, Safety.NothingLost, Safety.ResultsOk, Safety.DeadLettersOk;
    EvolvesSelf(s.redis, s.tokens);
  }

  lemma SubmitKeeps(s: System, task: TaskId, payload: Payload)
    requires Inv(s) && Enabled(s, Submit(task, payload))
    ensures Good(s, Apply(s, Submit(task, payload)))
  {
    hide Safety.RedisOk, Safety.Evolves, WorkersOk, StartsOk, ResultOk, Grows, DbOk;
    Safety.EnqueueKeeps(s.redis, s.capacity, task, payload, s.tokens, s.maxAttempts);
    QuietKeeps(s, Apply(s, Submit(task, payload)));
  }

  lemma SpawnKeeps(s: System, w: Consumer)
    requires Inv(s) && Enabled(s, Spawn(w))
    ensures Good(s, Apply(s, Spawn(w)))
  {
    hide Safety.RedisOk, Safety.Evolves, WorkersOk, StartsOk, ResultOk, Grows, DbOk;
    LeasedTasksExist(s);
    MoveKeeps(s, Apply(s, Spawn(w)), w, Worker([], Idle));
  }

  lemma CrashKeeps(s: System, w: Consumer)
    requires Inv(s) && Enabled(s, Crash(w))
    ensures Good(s, Apply(s, Crash(w)))
  {
    hide Safety.RedisOk, Safety.Evolves, WorkersOk, StartsOk, ResultOk, Grows, DbOk;
    LeasedTasksExist(s);
    QuietKeeps(s, Apply(s, Crash(w)));
  }

  lemma ExpireKeeps(s: System, task: TaskId)
    requires Inv(s) && Enabled(s, Expire(task))
    ensures Good(s, Apply(s, Expire(task)))
  {
    hide Safety.RedisOk, Safety.Evolves, WorkersOk, StartsOk, ResultOk, Grows, DbOk;
    Safety.ExpireKeeps(s.redis, task, s.tokens, s.maxAttempts);
    QuietKeeps(s, Apply(s, Expire(task)));
  }

  lemma RecoverKeeps(s: System, w: Consumer, ids: seq<StreamId>)
    requires Inv(s) && Enabled(s, Recover(w, ids))
    ensures Good(s, Apply(s, Recover(w, ids)))
  {
    hide Safety.RedisOk, StartsOk, ResultOk, Grows, DbOk;
    var s' := Apply(s, Recover(w, ids));
    Safety.AutoClaimKeeps(s.redis, w, ids, s.tokens, s.maxAttempts);
    WorkerIsOk(s, w);
    MoveKeeps(s, s', w, s'.workers[w]);
  }

  lemma TakeRecoveredKeeps(s: System, w: Consumer)
    requires Inv(s) && Enabled(s, TakeRecovered(w))
    ensures Good(s, Apply(s, TakeRecovered(w)))
  {
    hide Safety.RedisOk, Safety.Evolves, WorkersOk, StartsOk, ResultOk, Grows, DbOk;
    var s' := Apply(s, TakeRecovered(w));
    LeasedTasksExist(s);
    WorkerIsOk(s, w);
    assert s.workers[w].recovered[0] in s.workers[w].recovered;
    MoveKeeps(s, s', w, s'.workers[w]);
  }

  lemma ReadNewKeeps(s: System, w: Consumer)
    requires Inv(s) && Enabled(s, ReadNew(w))
    ensures Good(s, Apply(s, ReadNew(w)))
  {
    hide Safety.RedisOk, Safety.Evolves, WorkersOk, StartsOk, ResultOk, Grows, DbOk;
    var s' := Apply(s, ReadNew(w));
    Safety.ReadGroupKeeps(s.redis, w, s.tokens, s.maxAttempts);
    MoverOk(s, s', w, At(s', w));
    MoveKeeps(s, s', w, s'.workers[w]);
  }

  /** A new claim has a fresh token and the next attempt number, so it is nobody else's. */
  lemma NewClaimIsNew(s: System, w: Consumer, token: Token)
    requires WorkersOk(s) && Enabled(s, TryClaim(w, token))
    requires ClaimScript(s.redis, At(s, w).entry.task, token).1 > 0
    ensures var attempts := ClaimScript(s.redis, At(s, w).entry.task, token).1;
            forall v <- s.workers ::
              !SameClaim(Some(Job(At(s, w).entry, token, attempts)), JobOf(s.workers[v].phase))
  {
    var attempts := ClaimScript(s.redis, At(s, w).entry.task, token).1;
    forall v <- s.workers
      ensures !SameClaim(Some(Job(At(s, w).entry, token, attempts)), JobOf(s.workers[v].phase))
    {
      assert WorkerOk(s, s.workers[v]);
    }
  }

  lemma ClaimantOk(s: System, w: Consumer, token: Token)
    requires WorkersOk(s) && StartsOk(s) && Enabled(s, TryClaim(w, token))
    requires forall task <- s.redis.leases :: s.redis.leases[task] in s.tokens
    ensures PhaseOk(Apply(s, TryClaim(w, token)), At(Apply(s, TryClaim(w, token)), w))
  {
    WorkerIsOk(s, w);
  }

  lemma LeaseTokensDrawn(s: System)
    requires Inv(s)
    ensures forall task <- s.redis.leases :: s.redis.leases[task] in s.tokens
  {
    hide WorkersOk, StartsOk, ArchiveOk, Safety.NothingLost, Safety.ResultsOk, Safety.DeadLettersOk;
  }

  lemma TryClaimKeeps(s: System, w: Consumer, token: Token)
    requires Inv(s) && Enabled(s, TryClaim(w, token))
    ensures Good(s, Apply(s, TryClaim(w, token)))
  {
    hide Safety.RedisOk, Safety.Evolves, WorkersOk, StartsOk, ResultOk, Grows, DbOk, PhaseOk;
    var s' := Apply(s, TryClaim(w, token));
    HeldTaskIsKnown(s, w);
    Safety.ClaimKeeps(s.redis, At(s, w).entry.task, token, s.tokens, s.maxAttempts);
    if ClaimScript(s.redis, At(s, w).entry.task, token).1 > 0 {
      NewClaimIsNew(s, w, token);
    }
    LeaseTokensDrawn(s);
    ClaimantOk(s, w, token);
    MoverOk(s, s', w, At(s', w));
    MoveKeeps(s, s', w, s'.workers[w]);
  }

  lemma NoLeaseIsEmpty(s: System, task: TaskId)
    requires Inv(s)
    ensures !HoldsLease(s.redis, task, "")
  {
    LeaseTokensDrawn(s);
  }

  /** A fail call without a lease token commits nothing. */
  lemma ClaimRaisesKeeps(s: System, w: Consumer, error: string)
    requires Inv(s) && Enabled(s, ClaimRaises(w, error))
    ensures Good(s, Apply(s, ClaimRaises(w, error)))
    ensures Apply(s, ClaimRaises(w, error)).redis == s.redis
  {
    hide Safety.RedisOk, Safety.Evolves, WorkersOk, StartsOk, ResultOk, Grows, DbOk;
    var s' := Apply(s, ClaimRaises(w, error));
    NoLeaseIsEmpty(s, At(s, w).entry.task);
    LeasedTasksExist(s);
    MoverOk(s, s', w, Idle);
    MoveKeeps(s, s', w, s'.workers[w]);
  }

  lemma AckKeeps(s: System, w: Consumer)
    requires Inv(s) && Enabled(s, AckFinished(w))
    ensures Good(s, Apply(s, AckFinished(w)))
  {
    hide Safety.RedisOk, Safety.Evolves, WorkersOk, StartsOk, ResultOk, Grows, DbOk;
    var s' := Apply(s, AckFinished(w));
    WorkerIsOk(s, w);
    Safety.AckKeeps(s.redis, At(s, w).entry, s.tokens, s.maxAttempts);
    MoverOk(s, s', w, At(s', w));
    MoveKeeps(s, s', w, s'.workers[w]);
  }

  lemma DeleteKeeps(s: System, w: Consumer)
    requires Inv(s) && Enabled(s, DeleteFinished(w))
    ensures Good(s, Apply(s, DeleteFinished(w)))
  {
    hide Safety.RedisOk, Safety.Evolves, WorkersOk, StartsOk, ResultOk, Grows, DbOk;
    var s' := Apply(s, DeleteFinished(w));
    WorkerIsOk(s, w);
    Safety.DelKeeps(s.redis, At(s, w).entry, s.tokens, s.maxAttempts);
    MoverOk(s, s', w, Idle);
    MoveKeeps(s, s', w, s'.workers[w]);
  }

  lemma BeginKeepsStarts(s: System, w: Consumer)
    requires StartsOk(s) && Enabled(s, Begin(w)) && WorkerOk(s, s.workers[w])
    ensures StartsOk(Apply(s, Begin(w)))
  {
  }

  lemma BeginKeepsWorkers(s: System, w: Consumer)
    requires WorkersOk(s) && Enabled(s, Begin(w)) && SystemEvolves(s, Apply(s, Begin(w)))
    ensures WorkersOk(Apply(s, Begin(w)))
  {
    hide Safety.Evolves, Grows;
    var s' := Apply(s, Begin(w));
    forall v <- s'.workers ensures WorkerOk(s', s'.workers[v]) {
      assert WorkerOk(s, s.workers[v]);
      if v != w {
        assert !SameClaim(JobOf(s.workers[v].phase), JobOf(s.workers[w].phase));
        WorkerStable(s, s', s.workers[v]);
      }
    }
  }

  lemma BeginKeeps(s: System, w: Consumer)
    requires Inv(s) && Enabled(s, Begin(w))
    ensures Good(s, Apply(s, Begin(w)))
  {
    hide Safety.RedisOk, Safety.Evolves, WorkersOk, WorkerOk, StartsOk, Grows, DbOk;
    LeasedTasksExist(s);
    GrowsSelf(s.db);
    WorkerIsOk(s, w);
    BeginKeepsStarts(s, w);
    BeginKeepsWorkers(s, w);
    ArchiveStable(s, Apply(s, Begin(w)));
  }

  lemma JobStable(s: System, s': System, job: Job)
    requires JobOk(s, job) && s.tokens <= s'.tokens && Safety.Evolves(s.redis, s'.redis, s.tokens)
    ensures JobOk(s', job)
  {
  }

  /** The steps that change nothing but the phase of a worker that keeps its job. */
  lemma PhaseMoveKeeps(s: System, step: Step, w: Consumer)
    requires Inv(s) && Enabled(s, step)
    requires step.RefuseOverLimit? || step.ReturnEmpty? || step.ReturnReport?
    requires step.w == w
    ensures Good(s, Apply(s, step))
  {
    hide Safety.RedisOk, Safety.Evolves, WorkersOk, StartsOk, Grows, DbOk, JobOk;
    hide AddRow, UpsertVector, EnqueueScript, ClaimScript, CompleteScript, FailScript;
    var s' := Apply(s, step);
    HeldTaskIsKnown(s, w);
    LeasedTasksExist(s);
    WorkerIsOk(s, w);
    JobStable(s, s', JobOf(At(s, w)).value);
    MoverOk(s, s', w, At(s', w));
    MoveKeeps(s, s', w, s'.workers[w]);
  }

  lemma RaiseKeeps(s: System, w: Consumer, error: string)
    requires Inv(s) && Enabled(s, Raise(w, error))
    ensures Good(s, Apply(s, Raise(w, error)))
  {
    hide Safety.RedisOk, Safety.Evolves, WorkersOk, StartsOk, Grows, DbOk, JobOk, ResultOk;
    hide AddRow, UpsertVector, EnqueueScript, ClaimScript, CompleteScript, FailScript;
    var s' := Apply(s, Raise(w, error));
    HeldTaskIsKnown(s, w);
    LeasedTasksExist(s);
    WorkerIsOk(s, w);
    JobStable(s, s', JobOf(At(s, w)).value);
    MoverOk(s, s', w, At(s', w));
    MoveKeeps(s, s', w, s'.workers[w]);
  }

  lemma CompleteKeeps(s: System, w: Consumer)
    requires Inv(s) && Enabled(s, CompleteTask(w))
    ensures Good(s, Apply(s, CompleteTask(w)))
  {
    hide Safety.RedisOk, Safety.Evolves, WorkersOk, StartsOk, Grows, DbOk, ResultOk;
    var s' := Apply(s, CompleteTask(w));
    var job, result := At(s, w).job, At(s, w).result;
    WorkerIsOk(s, w);
    Safety.CompleteKeeps(s.redis, job.entry, job.token, result, s.tokens, s.maxAttempts);
    MoverOk(s, s', w, Idle);
    MoveKeeps(s, s', w, s'.workers[w]);
  }

  lemma FailKeeps(s: System, w: Consumer)
    requires Inv(s) && Enabled(s, FailTask(w))
    ensures Good(s, Apply(s, FailTask(w)))
  {
    hide Safety.RedisOk, Safety.Evolves, WorkersOk, StartsOk, Grows, DbOk, ResultOk;
    var s' := Apply(s, FailTask(w));
    var job, error := At(s, w).job, At(s, w).error;
    WorkerIsOk(s, w);
    Safety.FailKeeps(s.redis, job.entry, job.token, job.attempts, error, s.tokens, s.maxAttempts);
    MoverOk(s, s', w, Idle);
    MoveKeeps(s, s', w, s'.workers[w]);
  }

  /** The database grew and Redis did not move: only new effects need checking. */
  lemma ArchiveGrows(s: System, s': System)
    requires ArchiveOk(s) && s'.redis == s.redis && Grows(s.db, s'.db) && DbOk(s'.db)
    requires forall key <- s'.db.effects :: key !in s.db.effects ==>
               WantsArchive(s, key) && s.redis.tasks[key].payload.memory.text != ""
               && StoredAs(s.redis.tasks[key].payload.memory, s'.db.rows[s'.db.effects[key].value].memory)
    ensures ArchiveOk(s')
  {
  }

  lemma CommitRowArchive(s: System, w: Consumer, backend: Backend)
    requires ArchiveOk(s) && Enabled(s, CommitRow(w, backend))
    ensures var s' := Apply(s, CommitRow(w, backend));
            var task := At(s, w).job.entry.task;
            ArchiveOk(s') && Grows(s.db, s'.db) && task in s'.db.effects && s'.db.effects[task] == At(s', w).id
  {
    hide ResultOk, AddRow, UpsertVector, EnqueueScript, ClaimScript, CompleteScript, FailScript;
    var s' := Apply(s, CommitRow(w, backend));
    var task := At(s, w).job.entry.task;
    AddRowKeeps(backend, s.db, task, s.redis.tasks[task].payload.memory);
    AddRowEffects(backend, s.db, task, s.redis.tasks[task].payload.memory);
    ArchiveGrows(s, s');
  }

  /** Redis did not move; conclude for a database step of worker w, who keeps its job. */
  lemma DatabaseMoveKeeps(s: System, s': System, w: Consumer, phase: Phase)
    requires Inv(s) && w in s.workers && JobOf(phase) == JobOf(At(s, w))
    requires s' == Goto(s.(db := s'.db), w, phase)
    requires ArchiveOk(s') && Grows(s.db, s'.db) && PhaseOk(s', phase)
    ensures Good(s, s')
  {
    hide Safety.RedisOk, Safety.Evolves, WorkersOk, WorkerOk, StartsOk, ArchiveOk, Grows, PhaseOk;
    LeasedTasksExist(s);
    MoverOk(s, s', w, phase);
    WorkersStable(s, s', w, s'.workers[w]);
    StartsStable(s, s');
  }

  lemma CommitRowKeeps(s: System, w: Consumer, backend: Backend)
    requires Inv(s) && Enabled(s, CommitRow(w, backend))
    ensures Good(s, Apply(s, CommitRow(w, backend)))
  {
    hide Safety.RedisOk, Safety.Evolves, WorkersOk, StartsOk, ArchiveOk, Grows, AddRow, JobOk;
    var s' := Apply(s, CommitRow(w, backend));
    WorkerIsOk(s, w);
    LeasedTasksExist(s);
    JobStable(s, s', At(s, w).job);
    CommitRowArchive(s, w, backend);
    DatabaseMoveKeeps(s, s', w, At(s', w));
  }

  lemma WriteVectorArchive(s: System, w: Consumer)
    requires ArchiveOk(s) && Enabled(s, WriteVector(w)) && PhaseOk(s, At(s, w))
    ensures var s' := Apply(s, WriteVector(w));
            ArchiveOk(s') && Grows(s.db, s'.db) && At(s, w).id in s'.db.vectors
            && ResultOk(s'.db, At(s, w).job.entry.task, s.redis.tasks[At(s, w).job.entry.task].payload,
                        At(s', w).result)
  {
    ArchiveGrows(s, Apply(s, WriteVector(w)));
  }

  lemma WriteVectorKeeps(s: System, w: Consumer)
    requires Inv(s) && Enabled(s, WriteVector(w))
    ensures Good(s, Apply(s, WriteVector(w)))
  {
    hide Safety.RedisOk, Safety.Evolves, WorkersOk, StartsOk, ArchiveOk, Grows, JobOk, ResultOk;
    var s' := Apply(s, WriteVector(w));
    WorkerIsOk(s, w);
    LeasedTasksExist(s);
    JobStable(s, s', At(s, w).job);
    WriteVectorArchive(s, w);
    DatabaseMoveKeeps(s, s', w, At(s', w));
  }

  lemma OtherMemoryArchive(s: System, backend: Backend, memory: Memory)
    requires ArchiveOk(s) && Enabled(s, OtherMemory(backend, memory))
    ensures ArchiveOk(Apply(s, OtherMemory(backend, memory)))
    ensures Grows(s.db, Apply(s, OtherMemory(backend, memory)).db)
  {
    hide EnqueueScript, ClaimScript, CompleteScript, FailScript;
    AddRowKeeps(backend, s.db, "", memory);
    AddRowEffects(backend, s.db, "", memory);
    ArchiveGrows(s, Apply(s, OtherMemory(backend, memory)));
  }

  lemma OtherMemoryKeeps(s: System, backend: Backend, memory: Memory)
    requires Inv(s) && Enabled(s, OtherMemory(backend, memory))
    ensures Good(s, Apply(s, OtherMemory(backend, memory)))
  {
    hide Safety.RedisOk, Safety.Evolves, WorkersOk, WorkerOk, StartsOk, ArchiveOk, Grows, AddRow;
    var s' := Apply(s, OtherMemory(backend, memory));
    LeasedTasksExist(s);
    OtherMemoryArchive(s, backend, memory);
    SubsetStable(s, s');
    StartsStable(s, s');
  }

  lemma StepKeepsInv(s: System, step: Step)
    requires Inv(s) && Enabled(s, step)
    ensures Good(s, Apply(s, step))
  {
    hide Apply, Enabled, Inv, SystemEvolves;
    match step
    case Submit(task, payload) => SubmitKeeps(s, task, payload);
    case Spawn(w) => SpawnKeeps(s, w);
    case Crash(w) => CrashKeeps(s, w);
    case Recover(w, ids) => RecoverKeeps(s, w, ids);
    case TakeRecovered(w) => TakeRecoveredKeeps(s, w);
    case ReadNew(w) => ReadNewKeeps(s, w);
    case TryClaim(w, token) => TryClaimKeeps(s, w, token);
    case ClaimRaises(w, error) => ClaimRaisesKeeps(s, w, error);
    case AckFinished(w) => AckKeeps(s, w);
    case DeleteFinished(w) => DeleteKeeps(s, w);
    case Begin(w) => BeginKeeps(s, w);
    case CommitRow(w, backend) => CommitRowKeeps(s, w, backend);
    case WriteVector(w) => WriteVectorKeeps(s, w);
    case CompleteTask(w) => CompleteKeeps(s, w);
    case FailTask(w) => FailKeeps(s, w);
    case Expire(task) => ExpireKeeps(s, task);
    case OtherMemory(backend, memory) => OtherMemoryKeeps(s, backend, memory);
    case RefuseOverLimit(w) => PhaseMoveKeeps(s, step, w);
    case ReturnEmpty(w) => PhaseMoveKeeps(s, step, w);
    case ReturnReport(w, _) => PhaseMoveKeeps(s, step, w);
    case Raise(w, error) => RaiseKeeps(s, w, error);
  }
}
