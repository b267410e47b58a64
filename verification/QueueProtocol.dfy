/**
  The whole queue protocol as a transition system: any number of worker processes running
  worker.py's loop against one Redis server and one memory database. Each Lua script, Redis
  command and database transaction is one step; workers may crash between any two steps,
  leases may expire at any time and XAUTOCLAIM may pick any pending entries.
 */
module QueueProtocol {
  import opened Wrappers
  import opened MemoryStore
  import opened RedisQueue
  import opened RedisSafety
  import opened Collections

  datatype Job = Job(entry: Entry, token: Token, attempts: nat)

  /** Where a worker is in its loop. */
  datatype Phase =
    | Idle
    | Fetched(entry: Entry)
    | Acking(entry: Entry)                     // claim returned -1: XACK, then XDEL
    | Deleting(entry: Entry)
    | Claimed(job: Job)
    | Handling(job: Job)
    | Committed(job: Job, id: Option<nat>)     // row committed, vector not yet written
    | Finished(job: Job, result: TaskResult)
    | Raised(job: Job, error: string)          // about to call fail

  datatype Worker = Worker(recovered: seq<Entry>, phase: Phase)

  datatype Start = Start(task: TaskId, attempt: nat)

  /** tokens: every lease token ever drawn; starts: every handler execution ever started, in order. */
  datatype System = System(capacity: nat, maxAttempts: nat, redis: Redis, db: Db,
                           workers: map<Consumer, Worker>, tokens: set<Token>, starts: seq<Start>)

  datatype Step =
    | Submit(task: TaskId, payload: Payload)
    | Spawn(w: Consumer)
    | Crash(w: Consumer)
    | Recover(w: Consumer, ids: seq<StreamId>)
    | TakeRecovered(w: Consumer)
    | ReadNew(w: Consumer)
    | TryClaim(w: Consumer, token: Token)
    | ClaimRaises(w: Consumer, error: string)
    | AckFinished(w: Consumer)
    | DeleteFinished(w: Consumer)
    | Begin(w: Consumer)
    | RefuseOverLimit(w: Consumer)
    | CommitRow(w: Consumer, backend: Backend)
    | WriteVector(w: Consumer)
    | ReturnEmpty(w: Consumer)
    | ReturnReport(w: Consumer, body: string)
    | Raise(w: Consumer, error: string)
    | CompleteTask(w: Consumer)
    | FailTask(w: Consumer)
    | Expire(task: TaskId)
    | OtherMemory(backend: Backend, memory: Memory)

  function Init(capacity: nat, maxAttempts: nat): System {
    System(capacity, maxAttempts, EMPTY, EMPTY_DB, map[], {}, [])
  }

  function At(s: System, w: Consumer): Phase {
    if w in s.workers then s.workers[w].phase else Idle
  }

  function Goto(s: System, w: Consumer, phase: Phase): System
    requires w in s.workers
  {
    s.(workers := s.workers[w := s.workers[w].(phase := phase)])
  }

  predicate WantsArchive(s: System, task: TaskId) {
    task in s.redis.tasks && s.redis.tasks[task].payload.MistakeArchive?
  }

  predicate Enabled(s: System, step: Step) {
    match step
    case Submit(task, _) => task != "" && task !in s.redis.tasks
    case Spawn(w) => w !in s.workers
    case Crash(w) => w in s.workers
    case Recover(w, ids) => w in s.workers && At(s, w).Idle? && Claimable(s.redis, ids)
    case TakeRecovered(w) => w in s.workers && At(s, w).Idle? && s.workers[w].recovered != []
    case ReadNew(w) => w in s.workers && At(s, w).Idle? && s.workers[w].recovered == []
    case TryClaim(w, token) =>
      At(s, w).Fetched? && token != "" && token !in s.tokens
    case ClaimRaises(w, _) => At(s, w).Fetched? || At(s, w).Acking? || At(s, w).Deleting?
    case AckFinished(w) => At(s, w).Acking?
    case DeleteFinished(w) => At(s, w).Deleting?
    case Begin(w) => At(s, w).Claimed? && At(s, w).job.attempts <= s.maxAttempts
    case RefuseOverLimit(w) => At(s, w).Claimed? && At(s, w).job.attempts > s.maxAttempts
    case CommitRow(w, _) =>
      At(s, w).Handling? && WantsArchive(s, At(s, w).job.entry.task)
      && s.redis.tasks[At(s, w).job.entry.task].payload.memory.text != ""
    case WriteVector(w) => At(s, w).Committed? && WantsArchive(s, At(s, w).job.entry.task)
    case ReturnEmpty(w) =>
      At(s, w).Handling? && WantsArchive(s, At(s, w).job.entry.task)
      && s.redis.tasks[At(s, w).job.entry.task].payload.memory.text == ""
    case ReturnReport(w, _) =>
      At(s, w).Handling? && !WantsArchive(s, At(s, w).job.entry.task)
    case Raise(w, _) => At(s, w).Claimed? || At(s, w).Handling? || At(s, w).Committed? || At(s, w).Finished?
    case CompleteTask(w) => At(s, w).Finished?
    case FailTask(w) => At(s, w).Raised?
    case Expire(task) => task in s.redis.leases
    case OtherMemory(_, memory) => memory.text != ""
  }

  function Apply(s: System, step: Step): System
    requires Enabled(s, step)
  {
    match step
    case Submit(task, payload) =>
      s.(redis := EnqueueScript(s.redis, s.capacity, task, payload).0)
    case Spawn(w) => s.(workers := s.workers[w := Worker([], Idle)])
    case Crash(w) => s.(workers := s.workers - {w})
    case Recover(w, ids) =>
      var queue := PutAll(s.workers[w].recovered, EntriesOf(s.redis, ids), RECOVERED_CAPACITY);
      s.(redis := XAutoClaim(s.redis, w, ids), workers := s.workers[w := Worker(queue, Idle)])
    case TakeRecovered(w) =>
      var queue := s.workers[w].recovered;
      s.(workers := s.workers[w := Worker(queue[1..], Fetched(queue[0]))])
    case ReadNew(w) =>
      var (redis, message) := XReadGroup(s.redis, w);
      Goto(s.(redis := redis), w, if message.Some? then Fetched(message.value) else Idle)
    case TryClaim(w, token) =>
      var entry := At(s, w).entry;
      var (redis, attempts) := ClaimScript(s.redis, entry.task, token);
      Goto(s.(redis := redis, tokens := s.tokens + {token}), w,
           if attempts == -1 then Acking(entry)
           else if attempts <= 0 then Idle
           else Claimed(Job(entry, token, attempts)))
    case ClaimRaises(w, error) =>
      var entry := At(s, w).entry;
      Goto(s.(redis := FailScript(s.redis, s.maxAttempts, entry.task, "", 0, error, entry.id).0), w, Idle)
    case AckFinished(w) =>
      Goto(s.(redis := XAck(s.redis, At(s, w).entry.id)), w, Deleting(At(s, w).entry))
    case DeleteFinished(w) => Goto(s.(redis := XDel(s.redis, At(s, w).entry.id)), w, Idle)
    case Begin(w) =>
      var job := At(s, w).job;
      Goto(s.(starts := s.starts + [Start(job.entry.task, job.attempts)]), w, Handling(job))
    case RefuseOverLimit(w) =>
      Goto(s, w, Raised(At(s, w).job, "attempt limit reached after worker recovery"))
    case CommitRow(w, backend) =>
      var job := At(s, w).job;
      var (db, id) := AddRow(backend, s.db, job.entry.task, s.redis.tasks[job.entry.task].payload.memory);
      Goto(s.(db := db), w, Committed(job, id))
    case WriteVector(w) =>
      var job, id := At(s, w).job, At(s, w).id;
      var text := s.redis.tasks[job.entry.task].payload.memory.text;
      Goto(s.(db := UpsertVector(s.db, id, text)), w, Finished(job, Archived(id)))
    case ReturnEmpty(w) => Goto(s, w, Finished(At(s, w).job, Archived(None)))
    case ReturnReport(w, body) => Goto(s, w, Finished(At(s, w).job, Report(body)))
    case Raise(w, error) => Goto(s, w, Raised(At(s, w).job, error))
    case CompleteTask(w) =>
      var job, result := At(s, w).job, At(s, w).result;
      Goto(s.(redis := CompleteScript(s.redis, job.entry.task, job.token, result, job.entry.id).0), w, Idle)
    case FailTask(w) =>
      var job, error := At(s, w).job, At(s, w).error;
      Goto(s.(redis := FailScript(s.redis, s.maxAttempts, job.entry.task, job.token, job.attempts,
                                  error, job.entry.id).0), w, Idle)
    case Expire(task) => s.(redis := s.redis.(leases := s.redis.leases - {task}))
    case OtherMemory(backend, memory) =>
      var (db, id) := AddRow(backend, s.db, "", memory);
      s.(db := UpsertVector(db, id, memory.text))
  }

  /** A run: every step is enabled where it is taken. */
  predicate CanRun(s: System, steps: seq<Step>)
    decreases |steps|
  {
    steps == [] || (Enabled(s, steps[0]) && CanRun(Apply(s, steps[0]), steps[1..]))
  }

  function Run(s: System, steps: seq<Step>): System
    requires CanRun(s, steps)
    decreases |steps|
  {
    if steps == [] then s else Run(Apply(s, steps[0]), steps[1..])
  }

  // ---- What every reachable state satisfies

  function JobOf(phase: Phase): Option<Job> {
    match phase
    case Claimed(job) => Some(job)
    case Handling(job) => Some(job)
    case Committed(job, _) => Some(job)
    case Finished(job, _) => Some(job)
    case Raised(job, _) => Some(job)
    case _ => None
  }

  ghost predicate JobOk(s: System, job: Job) {
    && EntryOk(s.redis, job.entry)
    && job.token in s.tokens
    && 1 <= job.attempts <= s.redis.tasks[job.entry.task].attempts
    && (forall task <- s.redis.leases :: s.redis.leases[task] == job.token ==>
          task == job.entry.task && s.redis.tasks[task].attempts == job.attempts)
  }

  /** What an archive task's result must be: the id of its one row, whose vector exists. */
  ghost predicate ResultOk(db: Db, task: TaskId, payload: Payload, result: TaskResult) {
    payload.MistakeArchive? ==>
      if payload.memory.text == "" then result == Archived(None)
      else task in db.effects && result == Archived(db.effects[task]) && db.effects[task] in db.vectors
  }

  ghost predicate PhaseOk(s: System, phase: Phase) {
    && (JobOf(phase).Some? ==> JobOk(s, JobOf(phase).value))
    && match phase
       case Fetched(e) => EntryOk(s.redis, e)
       case Acking(e) => EntryOk(s.redis, e) && Terminal(s.redis.tasks[e.task])
       case Deleting(e) => EntryOk(s.redis, e) && Terminal(s.redis.tasks[e.task]) && e.id !in s.redis.pending
       case Claimed(job) => Start(job.entry.task, job.attempts) !in s.starts
       case Committed(job, id) =>
         job.entry.task in s.db.effects && s.db.effects[job.entry.task] == id
       case Finished(job, result) =>
         ResultOk(s.db, job.entry.task, s.redis.tasks[job.entry.task].payload, result)
       case _ => true
  }

  ghost predicate WorkerOk(s: System, worker: Worker) {
    && (forall e <- worker.recovered :: EntryOk(s.redis, e))
    && PhaseOk(s, worker.phase)
  }

  ghost predicate SameClaim(j1: Option<Job>, j2: Option<Job>) {
    j1.Some? && j2.Some?
    && (j1.value.token == j2.value.token
        || (j1.value.entry.task == j2.value.entry.task && j1.value.attempts == j2.value.attempts))
  }

  ghost predicate WorkersOk(s: System) {
    && (forall w <- s.workers :: WorkerOk(s, s.workers[w]))
    && (forall w1 <- s.workers, w2 <- s.workers ::
          w1 != w2 ==> !SameClaim(JobOf(s.workers[w1].phase), JobOf(s.workers[w2].phase)))
  }

  ghost predicate StartsOk(s: System) {
    && (forall i | 0 <= i < |s.starts| ::
          s.starts[i].task in s.redis.tasks
          && 1 <= s.starts[i].attempt <= s.maxAttempts
          && s.starts[i].attempt <= s.redis.tasks[s.starts[i].task].attempts)
    && Distinct(s.starts)
  }

  ghost predicate ArchiveOk(s: System) {
    && DbOk(s.db)
    && "" !in s.redis.tasks
    && (forall key <- s.db.effects ::
          WantsArchive(s, key) && s.redis.tasks[key].payload.memory.text != ""
          && StoredAs(s.redis.tasks[key].payload.memory, s.db.rows[s.db.effects[key].value].memory))
    && (forall task <- s.redis.tasks :: s.redis.tasks[task].result.Some? ==>
          ResultOk(s.db, task, s.redis.tasks[task].payload, s.redis.tasks[task].result.value))
  }

  ghost predicate Inv(s: System) {
    && RedisOk(s.redis, s.tokens, s.maxAttempts)
    && "" !in s.tokens
    && WorkersOk(s)
    && StartsOk(s)
    && ArchiveOk(s)
  }
}
