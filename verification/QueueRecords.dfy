/**
  Where a task's record comes from: its payload from the enqueue that was accepted, its result from a
  worker that finished this very task, its error from one that failed on it.
 */
module QueueRecords {
  import opened Wrappers
  import opened MemoryStore
  import opened RedisQueue
  import opened RedisSafety
  import opened QueueProtocol
  import opened QueueInvariant
  import opened QueueTheorems

  /** What was asked for, reported or raised for a task. */
  datatype Note =
    | Asked(task: TaskId, payload: Payload)
    | Reported(task: TaskId, body: string)
    | Erred(task: TaskId, error: string)

  /** What one step contributes; a refused enqueue asks for nothing. */
  function Notes(s: System, step: Step): set<Note>
    requires Enabled(s, step)
  {
    match step
    case Submit(task, payload) => if |s.redis.stream| < s.capacity then {Asked(task, payload)} else {}
    case ReturnReport(w, body) => {Reported(At(s, w).job.entry.task, body)}
    case Raise(w, error) => {Erred(JobOf(At(s, w)).value.entry.task, error)}
    case RefuseOverLimit(w) => {Erred(At(s, w).job.entry.task, "attempt limit reached after worker recovery")}
    case _ => {}
  }

  function AllNotes(s: System, steps: seq<Step>): set<Note>
    requires CanRun(s, steps)
    decreases |steps|
  {
    if steps == [] then {} else Notes(s, steps[0]) + AllNotes(Apply(s, steps[0]), steps[1..])
  }

  /** The stored text is the error, cut after 500 characters. */
  predicate Clipped(error: string, stored: string) {
    if |error| <= 500 then stored == error else |stored| == 500 && stored <= error
  }

  ghost predicate HashBacked(task: TaskId, h: TaskHash, notes: set<Note>) {
    && Asked(task, h.payload) in notes
    && (h.status == Done && !h.payload.MistakeArchive? ==> h.result.Some? && h.result.value.Report?)
    && (h.result.Some? && h.result.value.Report? ==> Reported(task, h.result.value.body) in notes)
    && (h.status == Failed ==> exists error :: Erred(task, error) in notes && Clipped(error, h.error))
  }

  ghost predicate PhaseBacked(s: System, phase: Phase, notes: set<Note>) {
    match phase
    case Finished(job, result) =>
      && (result.Report? ==> Reported(job.entry.task, result.body) in notes)
      && (!WantsArchive(s, job.entry.task) ==> result.Report?)
    case Committed(job, _) => WantsArchive(s, job.entry.task)
    case Raised(job, error) => Erred(job.entry.task, error) in notes
    case _ => true
  }

  ghost predicate Backed(s: System, notes: set<Note>) {
    && (forall task <- s.redis.tasks :: HashBacked(task, s.redis.tasks[task], notes))
    && (forall w <- s.workers :: PhaseBacked(s, s.workers[w].phase, notes))
  }

  lemma MoreNotes(task: TaskId, h: TaskHash, notes: set<Note>, more: set<Note>)
    requires HashBacked(task, h, notes)
    ensures HashBacked(task, h, notes + more)
  {
    if h.status == Failed {
      var error :| Erred(task, error) in notes && Clipped(error, h.error);
      assert Erred(task, error) in notes + more;
    }
  }

  lemma NewHashBacked(task: TaskId, payload: Payload, notes: set<Note>)
    requires Asked(task, payload) in notes
    ensures HashBacked(task, TaskHash(payload, Queued, 0, None, ""), notes)
  {
  }

  lemma SubmitBacks(s: System, task: TaskId, payload: Payload, notes: set<Note>)
    requires Backed(s, notes) && Enabled(s, Submit(task, payload))
    ensures var s', all := Apply(s, Submit(task, payload)), notes + Notes(s, Submit(task, payload));
            forall t <- s'.redis.tasks :: HashBacked(t, s'.redis.tasks[t], all)
  {
    hide HashBacked, PhaseBacked;
    var s', more := Apply(s, Submit(task, payload)), Notes(s, Submit(task, payload));
    forall t <- s'.redis.tasks ensures HashBacked(t, s'.redis.tasks[t], notes + more) {
      if t in s.redis.tasks {
        MoreNotes(t, s.redis.tasks[t], notes, more);
      } else {
        NewHashBacked(task, payload, notes + more);
      }
    }
  }

  lemma FetchedTaskExists(s: System, w: Consumer)
    requires Inv(s) && At(s, w).Fetched?
    ensures At(s, w).entry.task in s.redis.tasks
  {
    hide RedisOk, StartsOk, ArchiveOk;
    HeldTaskIsKnown(s, w);
  }

  lemma ClaimBacks(s: System, w: Consumer, token: Token, notes: set<Note>)
    requires Inv(s) && Backed(s, notes) && Enabled(s, TryClaim(w, token))
    ensures var s' := Apply(s, TryClaim(w, token));
            forall t <- s'.redis.tasks :: HashBacked(t, s'.redis.tasks[t], notes)
  {
    hide Inv, PhaseBacked;
    FetchedTaskExists(s, w);
    var t := At(s, w).entry.task;
    assert HashBacked(t, s.redis.tasks[t], notes);
  }

  lemma JobTaskExists(s: System, w: Consumer)
    requires Inv(s) && JobOf(At(s, w)).Some?
    ensures JobOf(At(s, w)).value.entry.task in s.redis.tasks
  {
    hide RedisOk, StartsOk, ArchiveOk;
    HeldTaskIsKnown(s, w);
  }

  lemma CompleteBacks(s: System, w: Consumer, notes: set<Note>)
    requires Inv(s) && Backed(s, notes) && Enabled(s, CompleteTask(w))
    ensures var s' := Apply(s, CompleteTask(w));
            forall t <- s'.redis.tasks :: HashBacked(t, s'.redis.tasks[t], notes)
  {
    hide Inv, Clipped;
    JobTaskExists(s, w);
    var t := At(s, w).job.entry.task;
    assert HashBacked(t, s.redis.tasks[t], notes) && PhaseBacked(s, At(s, w), notes);
  }

  lemma FailBacks(s: System, w: Consumer, notes: set<Note>)
    requires Inv(s) && Backed(s, notes) && Enabled(s, FailTask(w))
    ensures var s' := Apply(s, FailTask(w));
            forall t <- s'.redis.tasks :: HashBacked(t, s'.redis.tasks[t], notes)
  {
    hide Inv;
    JobTaskExists(s, w);
    var t, error := At(s, w).job.entry.task, At(s, w).error;
    assert HashBacked(t, s.redis.tasks[t], notes) && PhaseBacked(s, At(s, w), notes);
    assert Erred(t, error) in notes && Clipped(error, if |error| <= 500 then error else error[..500]);
  }

  /** The other steps leave the task table alone. */
  lemma TasksStay(s: System, step: Step)
    requires Inv(s) && Enabled(s, step)
    requires !step.Submit? && !step.TryClaim? && !step.CompleteTask? && !step.FailTask?
    ensures Apply(s, step).redis.tasks == s.redis.tasks
  {
    hide Inv, AddRow, UpsertVector, PutAll, FailScript;
    if step.ClaimRaises? {
      ClaimRaisesKeeps(s, step.w, step.error);
    }
  }

  lemma HashesStayBacked(s: System, step: Step, notes: set<Note>)
    requires Inv(s) && Backed(s, notes) && Enabled(s, step)
    ensures var s', all := Apply(s, step), notes + Notes(s, step);
            forall t <- s'.redis.tasks :: HashBacked(t, s'.redis.tasks[t], all)
  {
    hide Inv, Apply, Enabled, HashBacked, PhaseBacked, Notes;
    var s', more := Apply(s, step), Notes(s, step);
    match step {
      case Submit(task, payload) => SubmitBacks(s, task, payload, notes);
      case TryClaim(w, token) => ClaimBacks(s, w, token, notes);
      case CompleteTask(w) => CompleteBacks(s, w, notes);
      case FailTask(w) => FailBacks(s, w, notes);
      case _ => TasksStay(s, step);
    }
    if !step.Submit? {
      forall t <- s'.redis.tasks ensures HashBacked(t, s'.redis.tasks[t], notes + more) {
        MoreNotes(t, s'.redis.tasks[t], notes, more);
      }
    }
  }

  /** A worker's phase after the step is backed, given that its phase before was. */
  lemma PhaseStaysBacked(s: System, step: Step, w: Consumer, notes: set<Note>)
    requires Enabled(s, step) && w in Apply(s, step).workers
    requires w in s.workers ==> PhaseBacked(s, s.workers[w].phase, notes)
    ensures PhaseBacked(s, Apply(s, step).workers[w].phase, notes + Notes(s, step))
  {
    hide AddRow, UpsertVector, EnqueueScript, ClaimScript, CompleteScript, FailScript, PutAll, XReadGroup;
  }

  lemma SameWants(s: System, s': System, phase: Phase, notes: set<Note>)
    requires PhaseBacked(s, phase, notes)
    requires JobOf(phase).Some? ==>
               WantsArchive(s', JobOf(phase).value.entry.task) == WantsArchive(s, JobOf(phase).value.entry.task)
    ensures PhaseBacked(s', phase, notes)
  {
  }

  lemma WantsStays(s: System, s': System, task: TaskId)
    requires TasksEvolve(s.redis, s'.redis) && task in s.redis.tasks
    ensures WantsArchive(s', task) == WantsArchive(s, task)
  {
  }

  lemma StepTasksEvolve(s: System, step: Step)
    requires Inv(s) && Enabled(s, step)
    ensures TasksEvolve(s.redis, Apply(s, step).redis)
  {
    hide Inv, Apply, Enabled, MessagesEvolve, LeasesEvolve, TasksEvolve;
    StepKeepsInv(s, step);
  }

  /** A worker that has a job after the step had it, or the message it claimed, before. */
  lemma JobsComeFrom(s: System, step: Step, w: Consumer)
    requires Enabled(s, step) && w in Apply(s, step).workers && JobOf(Apply(s, step).workers[w].phase).Some?
    ensures var task := JobOf(Apply(s, step).workers[w].phase).value.entry.task;
            || (At(s, w).Fetched? && At(s, w).entry.task == task)
            || (JobOf(At(s, w)).Some? && JobOf(At(s, w)).value.entry.task == task)
  {
    hide AddRow, UpsertVector, EnqueueScript, ClaimScript, CompleteScript, FailScript, PutAll, XReadGroup, WantsArchive;
  }

  lemma PhasesStayBacked(s: System, step: Step, notes: set<Note>)
    requires Inv(s) && Backed(s, notes) && Enabled(s, step)
    ensures var s', all := Apply(s, step), notes + Notes(s, step);
            forall w <- s'.workers :: PhaseBacked(s', s'.workers[w].phase, all)
  {
    hide Inv, Apply, Enabled, HashBacked, PhaseBacked, Notes, TasksEvolve, WantsArchive;
    var s', all := Apply(s, step), notes + Notes(s, step);
    StepTasksEvolve(s, step);
    forall w <- s'.workers ensures PhaseBacked(s', s'.workers[w].phase, all) {
      var phase := s'.workers[w].phase;
      PhaseStaysBacked(s, step, w, notes);
      if JobOf(phase).Some? {
        JobsComeFrom(s, step, w);
        if At(s, w).Fetched? {
          FetchedTaskExists(s, w);
        } else {
          JobTaskExists(s, w);
        }
        WantsStays(s, s', JobOf(phase).value.entry.task);
      }
      SameWants(s, s', phase, all);
    }
  }

  lemma {:induction false} RunStaysBacked(s: System, steps: seq<Step>, notes: set<Note>)
    requires Inv(s) && Backed(s, notes) && CanRun(s, steps)
    ensures Backed(Run(s, steps), notes + AllNotes(s, steps))
    decreases |steps|
  {
    hide Inv, Apply, Enabled, HashBacked, PhaseBacked, Notes;
    if steps == [] {
      assert notes + {} == notes;
    } else {
      var s' := Apply(s, steps[0]);
      HashesStayBacked(s, steps[0], notes);
      PhasesStayBacked(s, steps[0], notes);
      StepKeepsInv(s, steps[0]);
      RunStaysBacked(s', steps[1..], notes + Notes(s, steps[0]));
      assert notes + Notes(s, steps[0]) + AllNotes(s', steps[1..]) == notes + AllNotes(s, steps);
    }
  }

  /**
    After every run a task's payload is the one an accepted enqueue brought; a done task that is not an
    archive task carries a report that a worker returned for this task; a failed one carries an error
    that was raised for it, or the refusal over the limit, up to its 500th character.
   */
  lemma RecordsAreBacked(capacity: nat, maxAttempts: nat, steps: seq<Step>, task: TaskId)
    requires CanRun(Init(capacity, maxAttempts), steps)
    requires task in Run(Init(capacity, maxAttempts), steps).redis.tasks
    ensures var h := Run(Init(capacity, maxAttempts), steps).redis.tasks[task];
            var notes := AllNotes(Init(capacity, maxAttempts), steps);
            && Asked(task, h.payload) in notes
            && (h.status == Done && !h.payload.MistakeArchive? ==>
                  exists body :: h.result == Some(Report(body)) && Reported(task, body) in notes)
            && (h.status == Failed ==>
                  exists error :: Erred(task, error) in notes
                    && if |error| <= 500 then h.error == error else |h.error| == 500 && h.error <= error)
  {
    hide Inv, Apply, Enabled, Notes;
    var s := Init(capacity, maxAttempts);
    ReachableInv(capacity, maxAttempts, []);
    RunStaysBacked(s, steps, {});
    var notes := AllNotes(s, steps);
    assert {} + notes == notes;
    var h := Run(s, steps).redis.tasks[task];
    assert HashBacked(task, h, notes);
    if h.status == Failed {
      var error :| Erred(task, error) in notes && Clipped(error, h.error);
    }
  }

  // ---- What a worker does next

  /** A claimed task is handled within the attempt limit and refused over it, never both. */
  lemma ClaimedGoesOneWay(s: System, w: Consumer)
    requires At(s, w).Claimed?
    ensures Enabled(s, Begin(w)) <==> At(s, w).job.attempts <= s.maxAttempts
    ensures Enabled(s, RefuseOverLimit(w)) <==> At(s, w).job.attempts > s.maxAttempts
  {
  }

  /**
    A recovery assigns the messages to the worker and puts them behind those it has recovered before, as
    many as its queue of 10000 takes.
   */
  lemma RecoveryQueues(s: System, w: Consumer, ids: seq<StreamId>)
    requires Enabled(s, Recover(w, ids))
    ensures var s' := Apply(s, Recover(w, ids));
            var queue, entries := s.workers[w].recovered, EntriesOf(s.redis, ids);
            var room := if |queue| < 10_000 then 10_000 - |queue| else 0;
            && w in s'.workers && s'.workers[w].phase == Idle
            && s'.workers[w].recovered == queue + entries[..if |entries| < room then |entries| else room]
            && s'.redis.pending.Keys == s.redis.pending.Keys
            && (forall id <- s.redis.pending :: s'.redis.pending[id] == if id in ids then w else s.redis.pending[id])
            && s'.redis == s.redis.(pending := s'.redis.pending)
  {
    hide PutAll;
    PutsWhatFits(s.workers[w].recovered, EntriesOf(s.redis, ids), RECOVERED_CAPACITY);
  }
}
