/**
  The in-process backend of agentic_rag/task_queue.py, used when no Redis is configured: one bounded
  queue, one table of tasks, and any number of worker threads, each holding at most one item.
  Every step below is one locked region or one queue operation, so any sequence of steps is an
  interleaving of the threads.
 */
module LocalQueue {
  import opened Wrappers

  type Time = real

  datatype Status = Queued | Running | Done | Failed

  /** The fields of an item that change. */
  datatype Fields = Fields(status: Status, attempts: nat, updatedAt: Time, result: Option<string>, error: string)

  datatype Copy = Copy(id: string, fields: Fields)

  /** A table entry; shared while it is the very object that the queue or a worker holds. */
  datatype Entry = Entry(fields: Fields, shared: bool)

  /** How far a worker is with its item. */
  datatype Stage = Popped | Marked | Claimed | Requeueing

  datatype Held = Held(copy: Copy, stage: Stage)

  datatype Local = Local(queue: seq<Copy>, tasks: map<string, Entry>, hands: map<nat, Held>)

  /** TASK_QUEUE_CAPACITY, TASK_MAX_ATTEMPTS and TASK_RETENTION_SECONDS */
  datatype Limits = Limits(capacity: nat, maxAttempts: nat, retention: Time)

  const MAXSIZE: nat := 10000

  /** The configuration clamps the attempts to at least one; nothing else is needed of it. */
  predicate LimitsOk(limits: Limits) {
    limits.maxAttempts >= 1
  }

  function Admitted(limits: Limits): nat {
    if limits.capacity < MAXSIZE then limits.capacity else MAXSIZE
  }

  predicate Terminal(status: Status) {
    status == Done || status == Failed
  }

  function Active(tasks: map<string, Entry>): set<string> {
    set id | id in tasks && !Terminal(tasks[id].fields.status)
  }

  // ---- The steps

  datatype Step =
    | Enqueue(id: string, now: Time)
    | Take(worker: nat)                                   // next_item
    | Mark(worker: nat, now: Time)                        // claim, before its lock
    | Commit(worker: nat)                                 // claim, under its lock
    | Complete(worker: nat, result: string, now: Time)
    | Fail(worker: nat, error: string, now: Time)         // fail, under its lock
    | Requeue(worker: nat)                                // fail, the retry's put_nowait

  function Purged(tasks: map<string, Entry>, cutoff: Time): map<string, Entry> {
    map id | id in tasks && !(Terminal(tasks[id].fields.status) && tasks[id].fields.updatedAt < cutoff) :: tasks[id]
  }

  function Refused(l: Local, limits: Limits, now: Time): bool {
    |Active(Purged(l.tasks, now - limits.retention))| >= Admitted(limits)
  }

  /** A worker only does what comes next in its loop; a new task id is a uuid4. */
  predicate Can(l: Local, step: Step) {
    match step
    case Enqueue(id, _) => id !in l.tasks
    case Take(worker) => worker !in l.hands && l.queue != []
    case Mark(worker, _) => worker in l.hands && l.hands[worker].stage == Popped
    case Commit(worker) => worker in l.hands && l.hands[worker].stage == Marked
    case Complete(worker, _, _) => worker in l.hands && l.hands[worker].stage == Claimed
    case Fail(worker, _, _) => worker in l.hands && l.hands[worker].stage == Claimed
    case Requeue(worker) => worker in l.hands && l.hands[worker].stage == Requeueing
  }

  function Enqueued(now: Time): Fields {
    Fields(Queued, 0, now, None, "")
  }

  function Set(tasks: map<string, Entry>, id: string, fields: Fields): map<string, Entry> {
    if id in tasks then tasks[id := Entry(fields, tasks[id].shared)] else tasks
  }

  function Starting(fields: Fields, now: Time): Fields {
    fields.(status := Running, attempts := fields.attempts + 1, updatedAt := now)
  }

  /** error[:500] */
  function Cut(error: string): string {
    if |error| <= 500 then error else error[..500]
  }

  function Retries(limits: Limits, copy: Copy): bool {
    copy.fields.attempts < limits.maxAttempts
  }

  function Apply(l: Local, limits: Limits, step: Step): Local
    requires Can(l, step)
  {
    match step
    case Enqueue(id, now) =>
      var tasks := Purged(l.tasks, now - limits.retention);
      if Refused(l, limits, now) then l.(tasks := tasks)
      else l.(queue := l.queue + [Copy(id, Enqueued(now))], tasks := tasks[id := Entry(Enqueued(now), true)])
    case Take(worker) =>
      l.(queue := l.queue[1..], hands := l.hands[worker := Held(l.queue[0], Popped)])
    case Mark(worker, now) =>
      var copy := l.hands[worker].copy;
      var marked := Starting(copy.fields, now);
      // the table sees the change as well while it shares the object
      var tasks := if copy.id in l.tasks && l.tasks[copy.id].shared then Set(l.tasks, copy.id, marked) else l.tasks;
      l.(tasks := tasks, hands := l.hands[worker := Held(Copy(copy.id, marked), Marked)])
    case Commit(worker) =>
      var copy := l.hands[worker].copy;
      if copy.id in l.tasks && Terminal(l.tasks[copy.id].fields.status) then l.(hands := l.hands - {worker})
      else l.(tasks := l.tasks[copy.id := Entry(copy.fields, false)], hands := l.hands[worker := Held(copy, Claimed)])
    case Complete(worker, result, now) =>
      var id := l.hands[worker].copy.id;
      var tasks :=
        if id in l.tasks
        then Set(l.tasks, id, l.tasks[id].fields.(status := Done, result := Some(result), updatedAt := now))
        else l.tasks;
      l.(tasks := tasks, hands := l.hands - {worker})
    case Fail(worker, error, now) =>
      var copy := l.hands[worker].copy;
      var retry := Retries(limits, copy);
      var status := if retry then Queued else Failed;
      var tasks :=
        if copy.id in l.tasks
        then Set(l.tasks, copy.id, l.tasks[copy.id].fields.(status := status, error := Cut(error), updatedAt := now))
        else l.tasks;
      l.(tasks := tasks, hands := if retry then l.hands[worker := Held(copy, Requeueing)] else l.hands - {worker})
    case Requeue(worker) =>
      l.(queue := l.queue + [l.hands[worker].copy], hands := l.hands - {worker})
  }

  predicate CanRun(l: Local, limits: Limits, steps: seq<Step>)
    decreases |steps|
  {
    steps == [] || (Can(l, steps[0]) && CanRun(Apply(l, limits, steps[0]), limits, steps[1..]))
  }

  function Run(l: Local, limits: Limits, steps: seq<Step>): Local
    requires CanRun(l, limits, steps)
    decreases |steps|
  {
    if steps == [] then l else Run(Apply(l, limits, steps[0]), limits, steps[1..])
  }

  const EMPTY := Local([], map[], map[])

  // ---- One copy per active task

  function QueueIds(queue: seq<Copy>): set<string> {
    set c | c in queue :: c.id
  }

  function HandIds(hands: map<nat, Held>): set<string> {
    set w | w in hands :: hands[w].copy.id
  }

  ghost predicate Unique(queue: seq<Copy>, hands: map<nat, Held>) {
    && (forall i, j | 0 <= i < j < |queue| :: queue[i].id != queue[j].id)
    && (forall v <- hands, w <- hands :: hands[v].copy.id == hands[w].copy.id ==> v == w)
    && (forall i, w | 0 <= i < |queue| && w in hands :: queue[i].id != hands[w].copy.id)
  }

  /** What the table says about a copy that waits, or that a worker holds. */
  predicate WaitingOk(copy: Copy, tasks: map<string, Entry>, limits: Limits) {
    && copy.id in tasks && tasks[copy.id].fields.status == Queued
    && copy.fields.attempts < limits.maxAttempts
    && (tasks[copy.id].shared ==> tasks[copy.id].fields == copy.fields)
  }

  predicate HeldOk(held: Held, tasks: map<string, Entry>, limits: Limits) {
    match held.stage
    case Popped => WaitingOk(held.copy, tasks, limits)
    case Marked =>
      && held.copy.id in tasks
      && tasks[held.copy.id].fields.status == (if tasks[held.copy.id].shared then Running else Queued)
      && 1 <= held.copy.fields.attempts <= limits.maxAttempts && held.copy.fields.status == Running
      && (tasks[held.copy.id].shared ==> tasks[held.copy.id].fields == held.copy.fields)
    case Claimed =>
      && held.copy.id in tasks && tasks[held.copy.id] == Entry(held.copy.fields, false)
      && held.copy.fields.status == Running && 1 <= held.copy.fields.attempts <= limits.maxAttempts
    case Requeueing => WaitingOk(held.copy, tasks, limits) && !tasks[held.copy.id].shared
  }

  ghost predicate CopiesOk(queue: seq<Copy>, hands: map<nat, Held>, tasks: map<string, Entry>, limits: Limits) {
    && (forall c <- queue :: WaitingOk(c, tasks, limits))
    && (forall w <- hands :: HeldOk(hands[w], tasks, limits))
  }

  /** The active tasks are exactly those with a copy, and there are as many. */
  ghost predicate Counted(queue: seq<Copy>, hands: map<nat, Held>, active: set<string>, limits: Limits) {
    && active == QueueIds(queue) + HandIds(hands)
    && |queue| + |hands| == |active| <= Admitted(limits)
  }

  ghost predicate Ok(l: Local, limits: Limits) {
    && Unique(l.queue, l.hands)
    && CopiesOk(l.queue, l.hands, l.tasks, limits)
    && Counted(l.queue, l.hands, Active(l.tasks), limits)
  }

  lemma PurgeKeepsActive(tasks: map<string, Entry>, cutoff: Time)
    ensures Active(Purged(tasks, cutoff)) == Active(tasks)
  {
  }

  lemma QueueIdsOf(queue: seq<Copy>, c: Copy)
    ensures QueueIds(queue + [c]) == QueueIds(queue) + {c.id}
    ensures queue != [] ==> QueueIds(queue) == {queue[0].id} + QueueIds(queue[1..])
  {
    assert forall x :: x in queue + [c] <==> x in queue || x == c;
    if queue != [] {
      assert queue == [queue[0]] + queue[1..];
    }
  }

  lemma HandIdsWithout(hands: map<nat, Held>, worker: nat)
    requires worker in hands
    ensures HandIds(hands) == HandIds(hands - {worker}) + {hands[worker].copy.id}
  {
    var less := hands - {worker};
    forall id | id in HandIds(hands) ensures id in HandIds(less) || id == hands[worker].copy.id {
      var w :| w in hands && hands[w].copy.id == id;
      if w != worker {
        assert w in less && less[w].copy.id == id;
      }
    }
    forall id | id in HandIds(less) ensures id in HandIds(hands) {
      var w :| w in less && less[w].copy.id == id;
      assert w in hands && hands[w].copy.id == id;
    }
  }

  lemma HandIdsOf(hands: map<nat, Held>, worker: nat, held: Held)
    ensures worker !in hands ==> HandIds(hands[worker := held]) == HandIds(hands) + {held.copy.id}
    ensures worker in hands && hands[worker].copy.id == held.copy.id ==>
              HandIds(hands[worker := held]) == HandIds(hands)
    ensures worker in hands ==> HandIds(hands) == HandIds(hands - {worker}) + {hands[worker].copy.id}
  {
    var more, less := hands[worker := held], hands - {worker};
    HandIdsWithout(more, worker);
    assert more - {worker} == less;
    if worker in hands {
      HandIdsWithout(hands, worker);
    } else {
      assert less == hands;
    }
  }

  /** The ids of all copies are in the table. */
  lemma CopiesAreActive(queue: seq<Copy>, hands: map<nat, Held>, active: set<string>, limits: Limits)
    requires Counted(queue, hands, active, limits)
    ensures forall c <- queue :: c.id in active
    ensures forall w <- hands :: hands[w].copy.id in active
  {
    forall c <- queue ensures c.id in active {
      assert c.id in QueueIds(queue);
    }
    forall w <- hands ensures hands[w].copy.id in active {
      assert hands[w].copy.id in HandIds(hands);
    }
  }

  /** All entries but that of id are the same; nothing is said about id's own copy. */
  predicate SameBut(tasks: map<string, Entry>, tasks': map<string, Entry>, id: string) {
    forall other | other in tasks && other != id :: other in tasks' && tasks'[other] == tasks[other]
  }

  lemma OthersKeep(queue: seq<Copy>, hands: map<nat, Held>, tasks: map<string, Entry>, tasks': map<string, Entry>,
                   limits: Limits, id: string)
    requires CopiesOk(queue, hands, tasks, limits) && SameBut(tasks, tasks', id)
    ensures forall c <- queue | c.id != id :: WaitingOk(c, tasks', limits)
    ensures forall w <- hands | hands[w].copy.id != id :: HeldOk(hands[w], tasks', limits)
  {
  }

  // -- enqueue

  lemma PurgeOnlyDrops(tasks: map<string, Entry>, cutoff: Time, id: string)
    ensures id !in tasks ==> id !in Purged(tasks, cutoff)
  {
  }

  lemma PurgeKeepsCopies(queue: seq<Copy>, hands: map<nat, Held>, tasks: map<string, Entry>, limits: Limits,
                         cutoff: Time)
    requires CopiesOk(queue, hands, tasks, limits)
    ensures CopiesOk(queue, hands, Purged(tasks, cutoff), limits)
  {
  }

  lemma ActiveAdds(tasks: map<string, Entry>, id: string, now: Time)
    requires id !in tasks
    ensures id !in Active(tasks) && Active(tasks[id := Entry(Enqueued(now), true)]) == Active(tasks) + {id}
  {
  }

  lemma AdmitUnique(queue: seq<Copy>, hands: map<nat, Held>, copy: Copy)
    requires Unique(queue, hands)
    requires (forall c <- queue :: c.id != copy.id) && forall w <- hands :: hands[w].copy.id != copy.id
    ensures Unique(queue + [copy], hands)
  {
  }

  lemma AdmitCopies(queue: seq<Copy>, hands: map<nat, Held>, tasks: map<string, Entry>, limits: Limits, id: string,
                    now: Time)
    requires CopiesOk(queue, hands, tasks, limits) && LimitsOk(limits) && id !in tasks
    ensures CopiesOk(queue + [Copy(id, Enqueued(now))], hands, tasks[id := Entry(Enqueued(now), true)], limits)
  {
  }

  lemma AdmitCounted(queue: seq<Copy>, hands: map<nat, Held>, active: set<string>, limits: Limits, copy: Copy)
    requires Counted(queue, hands, active, limits) && copy.id !in active && |active| < Admitted(limits)
    ensures Counted(queue + [copy], hands, active + {copy.id}, limits)
  {
    QueueIdsOf(queue, copy);
  }

  lemma EnqueueKeeps(l: Local, limits: Limits, step: Step)
    requires Ok(l, limits) && LimitsOk(limits) && Can(l, step) && step.Enqueue?
    ensures Ok(Apply(l, limits, step), limits)
  {
    hide Unique, CopiesOk, Counted, Active, Purged;
    var Enqueue(id, now) := step;
    var cutoff := now - limits.retention;
    var tasks := Purged(l.tasks, cutoff);
    PurgeKeepsActive(l.tasks, cutoff);
    PurgeKeepsCopies(l.queue, l.hands, l.tasks, limits, cutoff);
    if !Refused(l, limits, now) {
      PurgeOnlyDrops(l.tasks, cutoff, id);
      var copy := Copy(id, Enqueued(now));
      ActiveAdds(tasks, id, now);
      CopiesAreActive(l.queue, l.hands, Active(tasks), limits);
      AdmitUnique(l.queue, l.hands, copy);
      AdmitCopies(l.queue, l.hands, tasks, limits, id, now);
      AdmitCounted(l.queue, l.hands, Active(tasks), limits, copy);
    }
  }

  // -- next_item

  lemma TakeUnique(queue: seq<Copy>, hands: map<nat, Held>, worker: nat)
    requires Unique(queue, hands) && queue != [] && worker !in hands
    ensures Unique(queue[1..], hands[worker := Held(queue[0], Popped)])
  {
  }

  lemma TakeCopies(queue: seq<Copy>, hands: map<nat, Held>, tasks: map<string, Entry>, limits: Limits, worker: nat)
    requires CopiesOk(queue, hands, tasks, limits) && queue != []
    ensures CopiesOk(queue[1..], hands[worker := Held(queue[0], Popped)], tasks, limits)
  {
    hide WaitingOk;
    assert forall c <- queue[1..] :: c in queue;
  }

  lemma TakeCounted(queue: seq<Copy>, hands: map<nat, Held>, active: set<string>, limits: Limits, worker: nat)
    requires Counted(queue, hands, active, limits) && queue != [] && worker !in hands
    ensures Counted(queue[1..], hands[worker := Held(queue[0], Popped)], active, limits)
  {
    hide QueueIds, HandIds;
    QueueIdsOf(queue, queue[0]);
    HandIdsOf(hands, worker, Held(queue[0], Popped));
  }

  lemma TakeKeeps(l: Local, limits: Limits, step: Step)
    requires Ok(l, limits) && Can(l, step) && step.Take?
    ensures Ok(Apply(l, limits, step), limits)
  {
    hide Unique, CopiesOk, Counted, Active;
    TakeUnique(l.queue, l.hands, step.worker);
    TakeCopies(l.queue, l.hands, l.tasks, limits, step.worker);
    TakeCounted(l.queue, l.hands, Active(l.tasks), limits, step.worker);
  }

  // -- a step of one worker that leaves its item in its hand

  lemma SameIdUnique(queue: seq<Copy>, hands: map<nat, Held>, worker: nat, held: Held)
    requires Unique(queue, hands) && worker in hands && held.copy.id == hands[worker].copy.id
    ensures Unique(queue, hands[worker := held])
  {
  }

  lemma HandCopies(queue: seq<Copy>, hands: map<nat, Held>, tasks: map<string, Entry>, tasks': map<string, Entry>,
                   limits: Limits, worker: nat, held: Held)
    requires Unique(queue, hands) && CopiesOk(queue, hands, tasks, limits)
    requires worker in hands && held.copy.id == hands[worker].copy.id
    requires SameBut(tasks, tasks', held.copy.id) && HeldOk(held, tasks', limits)
    ensures CopiesOk(queue, hands[worker := held], tasks', limits)
  {
    hide WaitingOk, HeldOk, SameBut;
    OthersKeep(queue, hands, tasks, tasks', limits, held.copy.id);
  }

  lemma SameIdCounted(queue: seq<Copy>, hands: map<nat, Held>, active: set<string>, limits: Limits, worker: nat,
                      held: Held)
    requires Counted(queue, hands, active, limits) && worker in hands && held.copy.id == hands[worker].copy.id
    ensures Counted(queue, hands[worker := held], active, limits)
  {
    hide QueueIds, HandIds;
    HandIdsOf(hands, worker, held);
    assert hands[worker := held].Keys == hands.Keys;
    assert |hands[worker := held]| == |hands|;
  }

  lemma HandStepKeeps(l: Local, limits: Limits, worker: nat, held: Held, tasks: map<string, Entry>)
    requires Ok(l, limits) && worker in l.hands && held.copy.id == l.hands[worker].copy.id
    requires SameBut(l.tasks, tasks, held.copy.id)
    requires Active(tasks) == Active(l.tasks) && HeldOk(held, tasks, limits)
    ensures Ok(Local(l.queue, tasks, l.hands[worker := held]), limits)
  {
    hide Unique, CopiesOk, Counted, Active, SameBut, HeldOk;
    SameIdUnique(l.queue, l.hands, worker, held);
    HandCopies(l.queue, l.hands, l.tasks, tasks, limits, worker, held);
    SameIdCounted(l.queue, l.hands, Active(l.tasks), limits, worker, held);
  }

  // -- a step of one worker that ends its task

  lemma DropUnique(queue: seq<Copy>, hands: map<nat, Held>, worker: nat)
    requires Unique(queue, hands)
    ensures Unique(queue, hands - {worker})
  {
  }

  lemma DropCopies(queue: seq<Copy>, hands: map<nat, Held>, tasks: map<string, Entry>, tasks': map<string, Entry>,
                   limits: Limits, worker: nat)
    requires Unique(queue, hands) && CopiesOk(queue, hands, tasks, limits)
    requires worker in hands && SameBut(tasks, tasks', hands[worker].copy.id)
    ensures CopiesOk(queue, hands - {worker}, tasks', limits)
  {
    hide WaitingOk, HeldOk, SameBut;
    OthersKeep(queue, hands, tasks, tasks', limits, hands[worker].copy.id);
  }

  lemma DropSize(hands: map<nat, Held>, worker: nat)
    requires worker in hands
    ensures |hands - {worker}| == |hands| - 1
  {
    assert (hands - {worker}).Keys == hands.Keys - {worker};
    assert |(hands - {worker}).Keys| == |hands.Keys| - 1;
  }

  lemma OnlyCopy(queue: seq<Copy>, hands: map<nat, Held>, worker: nat)
    requires Unique(queue, hands) && worker in hands
    ensures hands[worker].copy.id !in QueueIds(queue)
    ensures hands[worker].copy.id !in HandIds(hands - {worker})
    ensures hands[worker].copy.id in HandIds(hands)
  {
  }

  lemma DropCounted(queue: seq<Copy>, hands: map<nat, Held>, active: set<string>, limits: Limits, worker: nat)
    requires Unique(queue, hands) && Counted(queue, hands, active, limits) && worker in hands
    ensures Counted(queue, hands - {worker}, active - {hands[worker].copy.id}, limits)
  {
    hide QueueIds, HandIds, Unique;
    HandIdsOf(hands, worker, hands[worker]);
    OnlyCopy(queue, hands, worker);
    DropSize(hands, worker);
  }

  lemma EndStepKeeps(l: Local, limits: Limits, worker: nat, tasks: map<string, Entry>)
    requires Ok(l, limits) && worker in l.hands
    requires SameBut(l.tasks, tasks, l.hands[worker].copy.id)
    requires Active(tasks) == Active(l.tasks) - {l.hands[worker].copy.id}
    ensures Ok(Local(l.queue, tasks, l.hands - {worker}), limits)
  {
    hide Unique, CopiesOk, Counted, Active, SameBut;
    DropUnique(l.queue, l.hands, worker);
    DropCopies(l.queue, l.hands, l.tasks, tasks, limits, worker);
    DropCounted(l.queue, l.hands, Active(l.tasks), limits, worker);
  }

  // -- the retry's put

  lemma RequeueUnique(queue: seq<Copy>, hands: map<nat, Held>, worker: nat)
    requires Unique(queue, hands) && worker in hands
    ensures Unique(queue + [hands[worker].copy], hands - {worker})
  {
    DropUnique(queue, hands, worker);
    AdmitUnique(queue, hands - {worker}, hands[worker].copy);
  }

  lemma RequeueCopies(queue: seq<Copy>, hands: map<nat, Held>, tasks: map<string, Entry>, limits: Limits, worker: nat)
    requires CopiesOk(queue, hands, tasks, limits) && worker in hands && hands[worker].stage == Requeueing
    ensures CopiesOk(queue + [hands[worker].copy], hands - {worker}, tasks, limits)
  {
    hide WaitingOk;
    assert HeldOk(hands[worker], tasks, limits);
  }

  lemma RequeueCounted(queue: seq<Copy>, hands: map<nat, Held>, active: set<string>, limits: Limits, worker: nat)
    requires Counted(queue, hands, active, limits) && worker in hands
    ensures Counted(queue + [hands[worker].copy], hands - {worker}, active, limits)
  {
    hide QueueIds, HandIds;
    HandIdsOf(hands, worker, hands[worker]);
    QueueIdsOf(queue, hands[worker].copy);
    DropSize(hands, worker);
  }

  lemma RequeueKeeps(l: Local, limits: Limits, step: Step)
    requires Ok(l, limits) && Can(l, step) && step.Requeue?
    ensures Ok(Apply(l, limits, step), limits)
  {
    hide Unique, CopiesOk, Counted, Active;
    RequeueUnique(l.queue, l.hands, step.worker);
    RequeueCopies(l.queue, l.hands, l.tasks, limits, step.worker);
    RequeueCounted(l.queue, l.hands, Active(l.tasks), limits, step.worker);
  }

  // -- claim, complete and fail

  /** What a step does to the worker's own task: its new hand, if it keeps one, and the table. */
  lemma OwnStep(l: Local, limits: Limits, step: Step, held: Held)
    requires step.Mark? || step.Commit? || step.Complete? || step.Fail?
    requires Can(l, step) && l.hands[step.worker] == held && HeldOk(held, l.tasks, limits)
    ensures var next := Apply(l, limits, step);
            var id := held.copy.id;
            && next.queue == l.queue && SameBut(l.tasks, next.tasks, id)
            && next.tasks.Keys == l.tasks.Keys && id in next.tasks && !Terminal(l.tasks[id].fields.status)
            && if step.Complete? || (step.Fail? && !Retries(limits, held.copy))
               then next.hands == l.hands - {step.worker} && Terminal(next.tasks[id].fields.status)
               else step.worker in next.hands
                    && next.hands == l.hands[step.worker := next.hands[step.worker]]
                    && next.hands[step.worker].copy.id == id
                    && !Terminal(next.tasks[id].fields.status)
                    && HeldOk(next.hands[step.worker], next.tasks, limits)
  {
  }

  lemma ActiveOf(tasks: map<string, Entry>, tasks': map<string, Entry>, id: string)
    requires SameBut(tasks, tasks', id) && tasks'.Keys == tasks.Keys && id in tasks'
    requires !Terminal(tasks[id].fields.status)
    ensures Active(tasks') == if Terminal(tasks'[id].fields.status) then Active(tasks) - {id} else Active(tasks)
  {
  }

  lemma HeldIsOk(l: Local, limits: Limits, worker: nat)
    requires Ok(l, limits) && worker in l.hands
    ensures HeldOk(l.hands[worker], l.tasks, limits)
  {
  }

  lemma WorkKeeps(l: Local, limits: Limits, step: Step)
    requires step.Mark? || step.Commit? || step.Complete? || step.Fail?
    requires Ok(l, limits) && Can(l, step)
    ensures Ok(Apply(l, limits, step), limits)
  {
    hide Ok, Apply, HeldOk, Active, SameBut;
    var held := l.hands[step.worker];
    HeldIsOk(l, limits, step.worker);
    OwnStep(l, limits, step, held);
    var next := Apply(l, limits, step);
    ActiveOf(l.tasks, next.tasks, held.copy.id);
    if step.worker in next.hands {
      HandStepKeeps(l, limits, step.worker, next.hands[step.worker], next.tasks);
    } else {
      EndStepKeeps(l, limits, step.worker, next.tasks);
    }
  }

  lemma StepKeeps(l: Local, limits: Limits, step: Step)
    requires Ok(l, limits) && LimitsOk(limits) && Can(l, step)
    ensures Ok(Apply(l, limits, step), limits)
  {
    hide Ok, Apply, Can;
    match step
    case Enqueue(_, _) => EnqueueKeeps(l, limits, step);
    case Take(_) => TakeKeeps(l, limits, step);
    case Mark(_, _) => WorkKeeps(l, limits, step);
    case Commit(_) => WorkKeeps(l, limits, step);
    case Complete(_, _, _) => WorkKeeps(l, limits, step);
    case Fail(_, _, _) => WorkKeeps(l, limits, step);
    case Requeue(_) => RequeueKeeps(l, limits, step);
  }

  lemma {:induction false} RunKeeps(l: Local, limits: Limits, steps: seq<Step>)
    requires Ok(l, limits) && LimitsOk(limits) && CanRun(l, limits, steps)
    ensures Ok(Run(l, limits, steps), limits)
    decreases |steps|
  {
    hide Ok, Apply, Can;
    if steps == [] {
    } else {
      StepKeeps(l, limits, steps[0]);
      RunKeeps(Apply(l, limits, steps[0]), limits, steps[1..]);
    }
  }

  lemma EmptyOk(limits: Limits)
    requires LimitsOk(limits)
    ensures Ok(EMPTY, limits)
  {
    assert QueueIds([]) == {} && HandIds(map[]) == {} && Active(map[]) == {};
  }

  // ---- What every run keeps

  /** Copies are conserved: as many in the queue and in hands as there are active tasks, and never too many. */
  lemma CopiesAreConserved(limits: Limits, steps: seq<Step>)
    requires LimitsOk(limits) && CanRun(EMPTY, limits, steps)
    ensures var l := Run(EMPTY, limits, steps);
            && |l.queue| + |l.hands| == |Active(l.tasks)|
            && |Active(l.tasks)| <= limits.capacity && |Active(l.tasks)| <= MAXSIZE
            && Active(l.tasks) == QueueIds(l.queue) + HandIds(l.hands)
            && Unique(l.queue, l.hands)
  {
    EmptyOk(limits);
    RunKeeps(EMPTY, limits, steps);
  }

  lemma RoomToPut(l: Local, limits: Limits, step: Step)
    requires Ok(l, limits)
    ensures Can(l, step) && (step.Requeue? || (step.Enqueue? && !Refused(l, limits, step.now))) ==> |l.queue| < MAXSIZE
  {
    hide Active, Unique, CopiesOk, QueueIds, HandIds, Purged;
    if step.Enqueue? {
      PurgeKeepsActive(l.tasks, step.now - limits.retention);
    } else if Can(l, step) && step.Requeue? {
      assert step.worker in l.hands.Keys;
    }
  }

  /** Neither the put_nowait of enqueue nor that of a retry can find the queue full. */
  lemma PutNeverOverflows(limits: Limits, steps: seq<Step>, step: Step)
    requires LimitsOk(limits) && CanRun(EMPTY, limits, steps)
    ensures var l := Run(EMPTY, limits, steps);
            Can(l, step) && (step.Requeue? || (step.Enqueue? && !Refused(l, limits, step.now))) ==> |l.queue| < MAXSIZE
  {
    hide Ok, Apply;
    EmptyOk(limits);
    RunKeeps(EMPTY, limits, steps);
    RoomToPut(Run(EMPTY, limits, steps), limits, step);
  }

  /**
    A claim never meets a finished task, a handler never runs with an attempt number outside
    1..TASK_MAX_ATTEMPTS, and while it runs the table agrees with its item.
   */
  lemma HandlersOwnTheirTask(limits: Limits, steps: seq<Step>, worker: nat)
    requires LimitsOk(limits) && CanRun(EMPTY, limits, steps)
    ensures var l := Run(EMPTY, limits, steps);
            worker in l.hands ==>
              var held := l.hands[worker];
              && held.copy.id in l.tasks && !Terminal(l.tasks[held.copy.id].fields.status)
              && (held.stage == Claimed ==>
                    && 1 <= held.copy.fields.attempts <= limits.maxAttempts
                    && l.tasks[held.copy.id].fields == held.copy.fields)
  {
    hide Ok, Apply;
    EmptyOk(limits);
    RunKeeps(EMPTY, limits, steps);
    var l := Run(EMPTY, limits, steps);
    if worker in l.hands {
      HeldIsOk(l, limits, worker);
    }
  }

  lemma AdmittedMeans(limits: Limits, active: nat)
    ensures active >= Admitted(limits) <==> active >= limits.capacity || active >= 10000
  {
  }

  lemma ActiveIsUnfinished(tasks: map<string, Entry>, id: string)
    ensures id in Active(tasks)
       <==> id in tasks && (tasks[id].fields.status == Queued || tasks[id].fields.status == Running)
  {
  }

  lemma NewTask(l: Local, limits: Limits, id: string, now: Time)
    requires Can(l, Step.Enqueue(id, now)) && !Refused(l, limits, now)
    ensures var next := Apply(l, limits, Step.Enqueue(id, now));
            && id in next.tasks && next.tasks[id] == Entry(Fields(Queued, 0, now, None, ""), true)
            && next.queue == l.queue + [Copy(id, Fields(Queued, 0, now, None, ""))]
  {
  }

  /**
    In every reachable state an enqueue is accepted if and only if the unfinished tasks are fewer than the
    capacity and fewer than 10000. Accepted, the task is in the table as queued without an attempt, the last
    in the queue, and table and queue share it; refused, it is nowhere. Either way exactly the finished tasks
    past their retention are gone, and the others are as they were.
   */
  lemma AcceptsExactlyWhen(limits: Limits, steps: seq<Step>, id: string, now: Time)
    requires LimitsOk(limits) && CanRun(EMPTY, limits, steps)
    requires Can(Run(EMPTY, limits, steps), Step.Enqueue(id, now))
    ensures var l := Run(EMPTY, limits, steps);
            var next := Apply(l, limits, Step.Enqueue(id, now));
            var unfinished := set t | t in l.tasks && (l.tasks[t].fields.status in {Queued, Running});
            && next.hands == l.hands
            && (forall t <- l.tasks :: t in next.tasks
                  <==> t in unfinished || l.tasks[t].fields.updatedAt >= now - limits.retention)
            && (forall t <- l.tasks | t in next.tasks :: next.tasks[t] == l.tasks[t])
            && if |unfinished| < limits.capacity && |unfinished| < 10000
               then && id in next.tasks && next.tasks[id] == Entry(Fields(Queued, 0, now, None, ""), true)
                    && next.queue == l.queue + [Copy(id, Fields(Queued, 0, now, None, ""))]
               else id !in next.tasks && next.queue == l.queue
  {
    var l := Run(EMPTY, limits, steps);
    var unfinished := set t | t in l.tasks && (l.tasks[t].fields.status in {Queued, Running});
    forall t ensures t in unfinished <==> t in Active(l.tasks) {
      ActiveIsUnfinished(l.tasks, t);
    }
    assert unfinished == Active(l.tasks);
    PurgeKeepsActive(l.tasks, now - limits.retention);
    PurgeOnlyDrops(l.tasks, now - limits.retention, id);
    if !Refused(l, limits, now) {
      NewTask(l, limits, id, now);
    }
  }

  /** A finished task keeps its entry, until the purge of a later enqueue drops it as a whole. */
  lemma FinishedTasksStay(limits: Limits, steps: seq<Step>, step: Step, id: string)
    requires LimitsOk(limits) && CanRun(EMPTY, limits, steps)
    ensures var l := Run(EMPTY, limits, steps);
            Can(l, step) && id in l.tasks && Terminal(l.tasks[id].fields.status) ==>
              var next := Apply(l, limits, step);
              if id in next.tasks then next.tasks[id] == l.tasks[id]
              else step.Enqueue? && l.tasks[id].fields.updatedAt < step.now - limits.retention
  {
    hide Active, Ok;
    EmptyOk(limits);
    RunKeeps(EMPTY, limits, steps);
    var l := Run(EMPTY, limits, steps);
    if Can(l, step) && id in l.tasks && Terminal(l.tasks[id].fields.status) && !step.Enqueue? && !step.Take? {
      HandlersOwnTheirTask(limits, steps, step.worker);
      assert l.hands[step.worker].copy.id != id;
    }
  }

  // ---- What one worker's step does, for the methods below

  /** The table after a step of a worker on its own task: one entry changes, and keeps its sharing but for a claim. */
  lemma OwnEntry(l: Local, limits: Limits, step: Step)
    requires step.Mark? || step.Commit? || step.Complete? || step.Fail?
    requires Ok(l, limits) && Can(l, step)
    ensures var next := Apply(l, limits, step);
            var Held(copy, stage) := l.hands[step.worker];
            && copy.id in l.tasks && next.queue == l.queue
            && match step
               case Mark(worker, now) =>
                 var marked := copy.fields.(status := Running, attempts := copy.fields.attempts + 1, updatedAt := now);
                 next.hands == l.hands[worker := Held(Copy(copy.id, marked), Marked)]
                 && next.tasks == if l.tasks[copy.id].shared then l.tasks[copy.id := Entry(marked, true)] else l.tasks
               case Commit(worker) =>
                 !Terminal(l.tasks[copy.id].fields.status)
                 && next.hands == l.hands[worker := Held(copy, Claimed)]
                 && next.tasks == l.tasks[copy.id := Entry(copy.fields, false)]
               case Complete(worker, result, now) =>
                 !l.tasks[copy.id].shared && next.hands == l.hands - {worker}
                 && next.tasks == l.tasks[copy.id := Entry(
                      l.tasks[copy.id].fields.(status := Done, result := Some(result), updatedAt := now), false)]
               case Fail(worker, error, now) =>
                 var retry := copy.fields.attempts < limits.maxAttempts;
                 var text := if |error| <= 500 then error else error[..500];
                 !l.tasks[copy.id].shared
                 && next.hands == (if retry then l.hands[worker := Held(copy, Requeueing)] else l.hands - {worker})
                 && next.tasks == l.tasks[copy.id := Entry(
                      l.tasks[copy.id].fields.(status := if retry then Queued else Failed, error := text,
                                               updatedAt := now), false)]
               case _ => true
  {
    hide Ok;
    HeldIsOk(l, limits, step.worker);
  }

  /** claim, complete and fail end a task or leave it active. */
  lemma SameActive(l: Local, limits: Limits, step: Step)
    requires step.Mark? || step.Commit? || step.Complete? || step.Fail?
    requires Ok(l, limits) && Can(l, step)
    ensures var next := Apply(l, limits, step);
            var id := l.hands[step.worker].copy.id;
            && id in l.tasks && id in Active(l.tasks)
            && Active(next.tasks) == if step.worker in next.hands then Active(l.tasks) else Active(l.tasks) - {id}
  {
    hide Ok, Apply, HeldOk, SameBut;
    HeldIsOk(l, limits, step.worker);
    OwnStep(l, limits, step, l.hands[step.worker]);
    ActiveOf(l.tasks, Apply(l, limits, step).tasks, l.hands[step.worker].copy.id);
  }

  lemma OneCopyEach(queue: seq<Copy>, hands: map<nat, Held>, worker: nat)
    requires Unique(queue, hands) && worker in hands
    ensures forall i | 0 <= i < |queue| :: queue[i].id != hands[worker].copy.id
    ensures forall w <- hands | w != worker :: hands[w].copy.id != hands[worker].copy.id
  {
  }

  lemma CopiesAreUnique(l: Local, limits: Limits)
    requires Ok(l, limits)
    ensures Unique(l.queue, l.hands)
  {
  }

  lemma EnqueueEffect(l: Local, limits: Limits, id: string, now: Time)
    requires Can(l, Step.Enqueue(id, now))
    ensures var tasks := Purged(l.tasks, now - limits.retention);
            Apply(l, limits, Step.Enqueue(id, now))
            == if Refused(l, limits, now) then l.(tasks := tasks)
               else Local(l.queue + [Copy(id, Enqueued(now))], tasks[id := Entry(Enqueued(now), true)], l.hands)
    ensures Refused(l, limits, now) <==> |Active(Purged(l.tasks, now - limits.retention))| >= Admitted(limits)
    ensures id !in l.tasks
  {
  }

  lemma NoCopyYet(l: Local, limits: Limits, id: string)
    requires Ok(l, limits) && id !in l.tasks
    ensures id !in Active(l.tasks)
    ensures (forall c <- l.queue :: c.id != id) && forall w <- l.hands :: l.hands[w].copy.id != id
  {
    CopiesAreActive(l.queue, l.hands, Active(l.tasks), limits);
  }

  // ---- The module-level queue and table, and the dictionaries they share

  /** One task dictionary, updated in place by whoever holds it. */
  class Item {
    const id: string
    var fields: Fields

    constructor (id: string, fields: Fields)
      ensures this.id == id && this.fields == fields
    {
      this.id, this.fields := id, fields;
    }
  }

  datatype Hand = Hand(item: Item, stage: Stage)

  // -- What ties the objects to the value they stand for; mem is the content of every object

  type Memory = map<Item, Fields>

  ghost predicate QueueTied(queue: seq<Item>, copies: seq<Copy>, own: map<string, Item>, mem: Memory) {
    |queue| == |copies| &&
    forall i | 0 <= i < |queue| ::
      var item := queue[i];
      item in mem && Copy(item.id, mem[item]) == copies[i] && item.id in own && own[item.id] == item
  }

  ghost predicate HandsTied(hands: map<nat, Hand>, held: map<nat, Held>, own: map<string, Item>, mem: Memory) {
    hands.Keys == held.Keys &&
    forall w <- hands ::
      var item := hands[w].item;
      item in mem && Held(Copy(item.id, mem[item]), hands[w].stage) == held[w]
      && item.id in own && own[item.id] == item
  }

  ghost predicate TasksTied(tasks: map<string, Item>, entries: map<string, Entry>, own: map<string, Item>,
                            mem: Memory)
  {
    tasks.Keys == entries.Keys &&
    forall id <- tasks ::
      tasks[id] in mem && tasks[id].id == id
      && entries[id] == Entry(mem[tasks[id]], id in own && own[id] == tasks[id])
  }

  /** own is the one copy of each active task. */
  ghost predicate AllTied(queue: seq<Item>, hands: map<nat, Hand>, tasks: map<string, Item>, own: map<string, Item>,
                          mem: Memory, l: Local)
  {
    && QueueTied(queue, l.queue, own, mem) && HandsTied(hands, l.hands, own, mem) && TasksTied(tasks, l.tasks, own, mem)
    && forall id <- own :: own[id] in mem && own[id].id == id
  }

  function Written(l: Local, worker: nat, fields: Fields): Local
    requires worker in l.hands
  {
    var Held(copy, stage) := l.hands[worker];
    Local(l.queue,
          if copy.id in l.tasks && l.tasks[copy.id].shared then l.tasks[copy.id := Entry(fields, true)] else l.tasks,
          l.hands[worker := Held(Copy(copy.id, fields), stage)])
  }

  lemma AdmitTied(queue: seq<Item>, hands: map<nat, Hand>, tasks: map<string, Item>, own: map<string, Item>,
                  mem: Memory, l: Local, item: Item, fields: Fields)
    requires AllTied(queue, hands, tasks, own, mem, l) && item.id !in own && item !in mem
    ensures AllTied(queue + [item], hands, tasks[item.id := item], own[item.id := item], mem[item := fields],
                    Local(l.queue + [Copy(item.id, fields)], l.tasks[item.id := Entry(fields, true)], l.hands))
  {
  }

  lemma TakeTied(queue: seq<Item>, hands: map<nat, Hand>, tasks: map<string, Item>, own: map<string, Item>, mem: Memory,
                 l: Local, worker: nat)
    requires AllTied(queue, hands, tasks, own, mem, l) && queue != []
    ensures AllTied(queue[1..], hands[worker := Hand(queue[0], Popped)], tasks, own, mem,
                    l.(queue := l.queue[1..], hands := l.hands[worker := Held(l.queue[0], Popped)]))
  {
    hide TasksTied;
  }

  lemma NobodyElses(queue: seq<Item>, hands: map<nat, Hand>, own: map<string, Item>, mem: Memory, l: Local, worker: nat)
    requires QueueTied(queue, l.queue, own, mem) && HandsTied(hands, l.hands, own, mem)
    requires Unique(l.queue, l.hands) && worker in hands
    ensures forall i | 0 <= i < |queue| :: queue[i].id != hands[worker].item.id
    ensures forall w <- hands | w != worker :: hands[w].item.id != hands[worker].item.id
  {
    hide Unique;
    OneCopyEach(l.queue, l.hands, worker);
    forall i | 0 <= i < |queue| ensures queue[i].id != hands[worker].item.id {
      assert l.queue[i].id == queue[i].id;
    }
  }

  lemma WriteItemTied(queue: seq<Item>, hands: map<nat, Hand>, tasks: map<string, Item>, own: map<string, Item>,
                      mem: Memory, l: Local, worker: nat, fields: Fields)
    requires AllTied(queue, hands, tasks, own, mem, l) && Unique(l.queue, l.hands)
    requires worker in hands && worker in l.hands
    ensures AllTied(queue, hands, tasks, own, mem[hands[worker].item := fields], Written(l, worker, fields))
  {
    hide Unique;
    NobodyElses(queue, hands, own, mem, l, worker);
  }

  lemma WriteEntryTied(queue: seq<Item>, hands: map<nat, Hand>, tasks: map<string, Item>, own: map<string, Item>,
                       mem: Memory, l: Local, id: string, fields: Fields)
    requires AllTied(queue, hands, tasks, own, mem, l) && id in tasks && id in l.tasks && !l.tasks[id].shared
    ensures AllTied(queue, hands, tasks, own, mem[tasks[id] := fields],
                    l.(tasks := l.tasks[id := Entry(fields, false)]))
  {
  }

  lemma ReplaceEntryTied(queue: seq<Item>, hands: map<nat, Hand>, tasks: map<string, Item>, own: map<string, Item>,
                         mem: Memory, l: Local, item: Item, fields: Fields)
    requires AllTied(queue, hands, tasks, own, mem, l) && item !in mem
    ensures AllTied(queue, hands, tasks[item.id := item], own, mem[item := fields],
                    l.(tasks := l.tasks[item.id := Entry(fields, false)]))
  {
  }

  lemma StageTied(queue: seq<Item>, hands: map<nat, Hand>, tasks: map<string, Item>, own: map<string, Item>,
                  mem: Memory, l: Local, worker: nat, stage: Stage)
    requires AllTied(queue, hands, tasks, own, mem, l) && worker in hands && worker in l.hands
    ensures AllTied(queue, hands[worker := Hand(hands[worker].item, stage)], tasks, own, mem,
                    l.(hands := l.hands[worker := Held(l.hands[worker].copy, stage)]))
  {
    hide QueueTied, TasksTied;
  }

  lemma DropTied(queue: seq<Item>, hands: map<nat, Hand>, tasks: map<string, Item>, own: map<string, Item>, mem: Memory,
                 l: Local, worker: nat)
    requires AllTied(queue, hands, tasks, own, mem, l) && Unique(l.queue, l.hands) && worker in hands
    requires var id := hands[worker].item.id; id in l.tasks ==> !l.tasks[id].shared
    ensures AllTied(queue, hands - {worker}, tasks, own - {hands[worker].item.id}, mem,
                    l.(hands := l.hands - {worker}))
  {
    hide Unique;
    NobodyElses(queue, hands, own, mem, l, worker);
  }

  lemma RequeueTied(queue: seq<Item>, hands: map<nat, Hand>, tasks: map<string, Item>, own: map<string, Item>,
                    mem: Memory, l: Local, worker: nat)
    requires AllTied(queue, hands, tasks, own, mem, l) && worker in hands && worker in l.hands
    ensures AllTied(queue + [hands[worker].item], hands - {worker}, tasks, own, mem,
                    l.(queue := l.queue + [l.hands[worker].copy], hands := l.hands - {worker}))
  {
    hide TasksTied;
  }

  lemma PurgeTied(queue: seq<Item>, hands: map<nat, Hand>, tasks: map<string, Item>, own: map<string, Item>,
                  mem: Memory, l: Local, kept: map<string, Item>, cutoff: Time)
    requires AllTied(queue, hands, tasks, own, mem, l)
    requires kept.Keys == Purged(l.tasks, cutoff).Keys && forall id <- kept :: id in tasks && kept[id] == tasks[id]
    ensures AllTied(queue, hands, kept, own, mem, l.(tasks := Purged(l.tasks, cutoff)))
  {
    hide QueueTied, HandsTied;
  }

  class Backend {
    const limits: Limits
    var queue: seq<Item>
    var tasks: map<string, Item>
    var hands: map<nat, Hand>          // the item variable of each worker's loop

    ghost var view: Local              // the value of all this
    ghost var own: map<string, Item>
    ghost var repr: set<Item>

    ghost function Mem(): Memory
      reads this`repr, repr
    {
      map item | item in repr :: item.fields
    }

    ghost predicate Tied()
      reads this, repr
    {
      AllTied(queue, hands, tasks, own, Mem(), view)
    }

    ghost predicate Valid()
      reads this, repr
    {
      LimitsOk(limits) && Ok(view, limits) && Tied() && own.Keys == Active(view.tasks)
    }

    constructor (limits: Limits)
      requires LimitsOk(limits)
      ensures this.limits == limits && Valid() && view == EMPTY && fresh(repr)
    {
      this.limits := limits;
      queue, tasks, hands := [], map[], map[];
      view, own, repr := EMPTY, map[], {};
      new;
      EmptyOk(limits);
      assert Active(view.tasks) == {};
    }

    /** A worker's item and the table are as the value says. */
    lemma Look(worker: nat)
      requires Tied() && worker in view.hands
      ensures worker in hands && tasks.Keys == view.tasks.Keys
      ensures var item := hands[worker].item;
              && item in repr && Copy(item.id, item.fields) == view.hands[worker].copy
              && (item.id in tasks ==> tasks[item.id] in repr && tasks[item.id].fields == view.tasks[item.id].fields)
    {
    }

    /** enqueue: false is QueueCapacityExceeded. */
    method Enqueue(id: string, now: Time) returns (accepted: bool)
      requires Valid() && Can(view, Step.Enqueue(id, now))
      modifies this
      ensures Valid() && fresh(repr - old(repr))
      ensures view == Apply(old(view), limits, Step.Enqueue(id, now))
      ensures accepted <==> |Active(old(view).tasks)| < limits.capacity && |Active(old(view).tasks)| < 10000
    {
      hide Ok, AllTied, Active, Purged, Terminal, Admitted, Apply;
      EnqueueEffect(view, limits, id, now);
      StepKeeps(view, limits, Step.Enqueue(id, now));
      RoomToPut(view, limits, Step.Enqueue(id, now));
      NoCopyYet(view, limits, id);
      var cutoff := now - limits.retention;
      PurgeKeepsActive(view.tasks, cutoff);
      PurgeOnlyDrops(view.tasks, cutoff, id);
      PurgeTable(cutoff);
      view := view.(tasks := Purged(view.tasks, cutoff));
      var active := CountActive(view);
      AdmittedMeans(limits, active);
      if active >= Admitted(limits) {
        return false;
      }
      ActiveAdds(view.tasks, id, now);
      Admit(id, Enqueued(now));
      accepted := true;
    }

    /** put_nowait and the table entry: both hold the same new item. */
    method Admit(id: string, fields: Fields)
      requires Tied() && id !in own && |view.queue| < MAXSIZE
      modifies this
      ensures Tied() && fresh(repr - old(repr)) && own.Keys == old(own.Keys) + {id}
      ensures view == Local(old(view).queue + [Copy(id, fields)], old(view).tasks[id := Entry(fields, true)],
                            old(view).hands)
    {
      hide AllTied;
      SameLength();
      assert |queue| < MAXSIZE;
      var item := new Item(id, fields);
      AdmitTied(queue, hands, tasks, own, Mem(), view, item, fields);
      ghost var mem := Mem();
      queue := queue + [item];
      tasks := tasks[id := item];
      view := Local(view.queue + [Copy(id, fields)], view.tasks[id := Entry(fields, true)], view.hands);
      own, repr := own[id := item], repr + {item};
      assert Mem() == mem[item := fields];
    }

    /** next_item */
    method Take(worker: nat)
      requires Valid() && Can(view, Step.Take(worker))
      modifies this
      ensures Valid() && repr == old(repr)
      ensures view == Apply(old(view), limits, Step.Take(worker))
    {
      hide Ok, AllTied, Active;
      StepKeeps(view, limits, Step.Take(worker));
      SameLength();
      TakeTied(queue, hands, tasks, own, Mem(), view, worker);
      view := Apply(view, limits, Step.Take(worker));
      hands := hands[worker := Hand(queue[0], Popped)];
      queue := queue[1..];
      assert Mem() == old(Mem());
    }

    /** The first half of claim: it writes into the item, and so into the table while they share it. */
    method Mark(worker: nat, now: Time)
      requires Valid() && Can(view, Step.Mark(worker, now))
      modifies this, repr
      ensures Valid() && repr == old(repr)
      ensures view == Apply(old(view), limits, Step.Mark(worker, now))
    {
      hide Ok, AllTied, Active, Apply, Unique;
      var step := Step.Mark(worker, now);
      StepKeeps(view, limits, step);
      OwnEntry(view, limits, step);
      SameActive(view, limits, step);
      CopiesAreUnique(view, limits);
      Look(worker);
      var item := hands[worker].item;
      var marked := Starting(item.fields, now);
      WriteItemTied(queue, hands, tasks, own, Mem(), view, worker, marked);
      ghost var written := Written(view, worker, marked);
      StageTied(queue, hands, tasks, own, Mem()[item := marked], written, worker, Marked);
      view := Apply(view, limits, step);
      item.fields := marked;
      hands := hands[worker := Hand(item, Marked)];
      assert Mem() == old(Mem())[item := marked];
      assert view.hands == written.hands[worker := Held(written.hands[worker].copy, Marked)];
    }

    /** The second half of claim, under the lock: the table gets its own copy. */
    method Commit(worker: nat) returns (claimed: bool)
      requires Valid() && Can(view, Step.Commit(worker))
      modifies this
      ensures Valid() && fresh(repr - old(repr)) && claimed
      ensures view == Apply(old(view), limits, Step.Commit(worker))
    {
      hide Ok, AllTied, Active, Apply;
      var step := Step.Commit(worker);
      StepKeeps(view, limits, step);
      OwnEntry(view, limits, step);
      SameActive(view, limits, step);
      Look(worker);
      var item := hands[worker].item;
      if item.id in tasks && Terminal(tasks[item.id].fields.status) {
        return false;
      }
      var copy := new Item(item.id, item.fields);
      ReplaceEntryTied(queue, hands, tasks, own, Mem(), view, copy, item.fields);
      StageTied(queue, hands, tasks[item.id := copy], own, Mem()[copy := item.fields],
                view.(tasks := view.tasks[item.id := Entry(item.fields, false)]), worker, Claimed);
      ghost var mem := Mem();
      view := Apply(view, limits, step);
      tasks := tasks[item.id := copy];
      hands := hands[worker := Hand(item, Claimed)];
      repr := repr + {copy};
      assert Mem() == mem[copy := item.fields];
      claimed := true;
    }

    method Complete(worker: nat, result: string, now: Time)
      requires Valid() && Can(view, Step.Complete(worker, result, now))
      modifies this, repr
      ensures Valid() && repr == old(repr)
      ensures view == Apply(old(view), limits, Step.Complete(worker, result, now))
    {
      hide Ok, AllTied, Active, Apply, Unique;
      var step := Step.Complete(worker, result, now);
      StepKeeps(view, limits, step);
      OwnEntry(view, limits, step);
      SameActive(view, limits, step);
      CopiesAreUnique(view, limits);
      Look(worker);
      var item := hands[worker].item;
      if item.id in tasks {
        var entry := tasks[item.id];
        var done := entry.fields.(status := Done, result := Some(result), updatedAt := now);
        WriteEntryTied(queue, hands, tasks, own, Mem(), view, item.id, done);
        DropTied(queue, hands, tasks, own, Mem()[entry := done],
                 view.(tasks := view.tasks[item.id := Entry(done, false)]), worker);
        entry.fields := done;
      }
      view := Apply(view, limits, step);
      hands := hands - {worker};
      own := own - {item.id};
      assert Mem() == old(Mem())[tasks[item.id] := tasks[item.id].fields];
    }

    /** fail: the locked update, and whether a retry is still to be put back. */
    method FailTask(worker: nat, error: string, now: Time) returns (retry: bool)
      requires Valid() && Can(view, Step.Fail(worker, error, now))
      modifies this, repr
      ensures Valid() && repr == old(repr)
      ensures view == Apply(old(view), limits, Step.Fail(worker, error, now))
      ensures retry <==> old(view).hands[worker].copy.fields.attempts < limits.maxAttempts
    {
      hide Ok, AllTied, Active, Apply, Unique;
      var step := Step.Fail(worker, error, now);
      StepKeeps(view, limits, step);
      OwnEntry(view, limits, step);
      SameActive(view, limits, step);
      CopiesAreUnique(view, limits);
      Look(worker);
      var item := hands[worker].item;
      retry := item.fields.attempts < limits.maxAttempts;
      if item.id in tasks {
        var entry := tasks[item.id];
        var failed := entry.fields.(status := if retry then Queued else Failed, error := Cut(error), updatedAt := now);
        WriteEntryTied(queue, hands, tasks, own, Mem(), view, item.id, failed);
        ghost var table := view.(tasks := view.tasks[item.id := Entry(failed, false)]);
        if retry {
          StageTied(queue, hands, tasks, own, Mem()[entry := failed], table, worker, Requeueing);
        } else {
          DropTied(queue, hands, tasks, own, Mem()[entry := failed], table, worker);
        }
        entry.fields := failed;
      }
      view := Apply(view, limits, step);
      if retry {
        hands := hands[worker := Hand(item, Requeueing)];
      } else {
        hands := hands - {worker};
        own := own - {item.id};
      }
      assert Mem() == old(Mem())[tasks[item.id] := tasks[item.id].fields];
    }

    /** The put_nowait of a retry. */
    method Requeue(worker: nat)
      requires Valid() && Can(view, Step.Requeue(worker))
      modifies this
      ensures Valid() && repr == old(repr)
      ensures view == Apply(old(view), limits, Step.Requeue(worker))
    {
      hide Ok, AllTied, Active;
      StepKeeps(view, limits, Step.Requeue(worker));
      RoomToPut(view, limits, Step.Requeue(worker));
      SameLength();
      Look(worker);
      assert |queue| < MAXSIZE;
      RequeueTied(queue, hands, tasks, own, Mem(), view, worker);
      view := Apply(view, limits, Step.Requeue(worker));
      queue := queue + [hands[worker].item];
      hands := hands - {worker};
      assert Mem() == old(Mem());
    }

    lemma SameLength()
      requires Tied()
      ensures |queue| == |view.queue|
    {
    }

    /** enqueue's purge of finished tasks past their retention. */
    method PurgeTable(cutoff: Time)
      requires Tied()
      modifies `tasks
      ensures AllTied(queue, hands, tasks, own, Mem(), view.(tasks := Purged(view.tasks, cutoff)))
    {
      ghost var before := tasks;
      tasks := map id | id in tasks && !(Terminal(tasks[id].fields.status) && tasks[id].fields.updatedAt < cutoff)
                    :: tasks[id];
      assert Mem() == old(Mem());
      PurgeTied(queue, hands, before, own, Mem(), view, tasks, cutoff);
    }

    /** sum(status in {queued, running}) over the table. */
    method CountActive(ghost l: Local) returns (active: nat)
      requires AllTied(queue, hands, tasks, own, Mem(), l)
      ensures active == |Active(l.tasks)|
    {
      var ids := set id | id in tasks && !Terminal(tasks[id].fields.status);
      assert ids == Active(l.tasks);
      active := |ids|;
    }
  }
}
