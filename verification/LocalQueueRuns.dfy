/**
  The in-process backend over whole runs: how often a task's handler starts, and that every task can
  still succeed.
 */
module LocalQueueRuns {
  import opened LocalQueue

  // ---- The handler's starts

  /** The step is a claim of the task that lets the handler start. */
  predicate StartsHandler(l: Local, limits: Limits, step: Step, id: string)
    requires Can(l, step)
  {
    step.Commit? && l.hands[step.worker].copy.id == id && step.worker in Apply(l, limits, step).hands
  }

  /** The attempt numbers with which the handler of a task starts, in order. */
  function Starts(l: Local, limits: Limits, steps: seq<Step>, id: string): seq<nat>
    requires CanRun(l, limits, steps)
    decreases |steps|
  {
    if steps == [] then []
    else
      var later := Starts(Apply(l, limits, steps[0]), limits, steps[1..], id);
      if StartsHandler(l, limits, steps[0], id) then [l.hands[steps[0].worker].copy.fields.attempts] + later
      else later
  }

  /** A new task id is a uuid4: no two calls of enqueue draw the same one. */
  predicate FreshIds(steps: seq<Step>) {
    forall i, j | 0 <= i < j < |steps| && steps[i].Enqueue? && steps[j].Enqueue? :: steps[i].id != steps[j].id
  }

  predicate NeverEnqueues(steps: seq<Step>, id: string) {
    forall step <- steps :: step.Enqueue? ==> step.id != id
  }

  /** A copy of the task that was started n times; Mark counts the start that Commit is about to allow. */
  predicate HeldAfter(held: Held, n: nat) {
    held.copy.fields.attempts == if held.stage == Marked then n + 1 else n
  }

  ghost predicate StartedTimes(l: Local, id: string, n: nat) {
    && (forall c <- l.queue | c.id == id :: c.fields.attempts == n)
    && (forall w <- l.hands | l.hands[w].copy.id == id :: HeldAfter(l.hands[w], n))
  }

  ghost predicate NoCopy(l: Local, id: string) {
    && (forall c <- l.queue :: c.id != id)
    && (forall w <- l.hands :: l.hands[w].copy.id != id)
  }

  lemma CommitCounts(l: Local, limits: Limits, worker: nat, id: string, n: nat)
    requires Ok(l, limits) && Can(l, Commit(worker)) && StartedTimes(l, id, n)
    ensures var next := Apply(l, limits, Commit(worker));
            if StartsHandler(l, limits, Commit(worker), id)
            then l.hands[worker].copy.fields.attempts == n + 1 && StartedTimes(next, id, n + 1)
            else StartedTimes(next, id, n)
  {
    hide Ok;
    OwnEntry(l, limits, Commit(worker));
    CopiesAreUnique(l, limits);
    OneCopyEach(l.queue, l.hands, worker);
  }

  /** Only a claim that goes through counts the task up. */
  lemma StepCounts(l: Local, limits: Limits, step: Step, id: string, n: nat)
    requires Ok(l, limits) && Can(l, step) && StartedTimes(l, id, n) && NeverEnqueues([step], id)
    ensures var next := Apply(l, limits, step);
            if StartsHandler(l, limits, step, id)
            then l.hands[step.worker].copy.fields.attempts == n + 1 && StartedTimes(next, id, n + 1)
            else StartedTimes(next, id, n)
  {
    hide CopiesOk, Counted, Active, Purged;
    assert step in [step];
    match step {
      case Take(worker) => assert forall c <- l.queue[1..] :: c in l.queue;
      case Commit(worker) => CommitCounts(l, limits, worker, id, n);
      case _ =>
    }
  }

  ghost predicate CountsUp(starts: seq<nat>, n: nat, most: nat) {
    forall k | 0 <= k < |starts| :: starts[k] == n + k + 1 && starts[k] <= most
  }

  lemma OneMore(later: seq<nat>, n: nat, most: nat)
    requires CountsUp(later, n + 1, most) && n < most
    ensures CountsUp([n + 1] + later, n, most)
  {
  }

  lemma LastIsLength(starts: seq<nat>, most: nat)
    requires CountsUp(starts, 0, most)
    ensures |starts| <= most
  {
    assert starts == [] || starts[|starts| - 1] <= most;
  }

  lemma StartWithinLimit(l: Local, limits: Limits, step: Step, id: string)
    requires Ok(l, limits) && Can(l, step) && StartsHandler(l, limits, step, id)
    ensures step.Commit? && l.hands[step.worker].copy.fields.attempts <= limits.maxAttempts
  {
    hide Ok;
    HeldIsOk(l, limits, step.worker);
  }

  lemma {:induction false} StartsFrom(l: Local, limits: Limits, steps: seq<Step>, id: string, n: nat)
    requires Ok(l, limits) && LimitsOk(limits) && CanRun(l, limits, steps)
    requires StartedTimes(l, id, n) && NeverEnqueues(steps, id)
    ensures CountsUp(Starts(l, limits, steps, id), n, limits.maxAttempts)
    decreases |steps|
  {
    hide Ok, Apply, Can, StartedTimes;
    if steps == [] {
    } else {
      assert steps[0] in steps;
      StepCounts(l, limits, steps[0], id, n);
      StepKeeps(l, limits, steps[0]);
      var next := Apply(l, limits, steps[0]);
      if StartsHandler(l, limits, steps[0], id) {
        StartWithinLimit(l, limits, steps[0], id);
        StartsFrom(next, limits, steps[1..], id, n + 1);
        OneMore(Starts(next, limits, steps[1..], id), n, limits.maxAttempts);
      } else {
        StartsFrom(next, limits, steps[1..], id, n);
      }
    }
  }

  lemma NoCopyStays(l: Local, limits: Limits, step: Step, id: string)
    requires Can(l, step) && NoCopy(l, id)
    ensures !StartsHandler(l, limits, step, id)
    ensures if step.Enqueue? && step.id == id then StartedTimes(Apply(l, limits, step), id, 0)
            else NoCopy(Apply(l, limits, step), id)
  {
    hide Purged, Active;
    if step.Take? {
      assert forall c <- l.queue[1..] :: c in l.queue;
    }
  }

  lemma {:induction false} StartsFromNoCopy(l: Local, limits: Limits, steps: seq<Step>, id: string)
    requires Ok(l, limits) && LimitsOk(limits) && CanRun(l, limits, steps)
    requires NoCopy(l, id) && FreshIds(steps)
    ensures CountsUp(Starts(l, limits, steps, id), 0, limits.maxAttempts)
    decreases |steps|
  {
    hide Ok, Apply, Can, StartedTimes, NoCopy;
    if steps == [] {
    } else {
      NoCopyStays(l, limits, steps[0], id);
      StepKeeps(l, limits, steps[0]);
      var next := Apply(l, limits, steps[0]);
      if steps[0].Enqueue? && steps[0].id == id {
        assert NeverEnqueues(steps[1..], id);
        StartsFrom(next, limits, steps[1..], id, 0);
      } else {
        StartsFromNoCopy(next, limits, steps[1..], id);
        assert Starts(l, limits, steps, id) == Starts(next, limits, steps[1..], id);
      }
    }
  }

  /** In every run the k-th start of a task's handler is attempt number k, and there are at most maxAttempts. */
  lemma HandlerStartsAreCounted(limits: Limits, steps: seq<Step>, id: string)
    requires LimitsOk(limits) && CanRun(EMPTY, limits, steps) && FreshIds(steps)
    ensures var starts := Starts(EMPTY, limits, steps, id);
            && (forall k | 0 <= k < |starts| :: starts[k] == k + 1)
            && |starts| <= limits.maxAttempts
  {
    hide Ok;
    EmptyOk(limits);
    StartsFromNoCopy(EMPTY, limits, steps, id);
    LastIsLength(Starts(EMPTY, limits, steps, id), limits.maxAttempts);
  }

  /** Which step a worker may take is decided by how far it is with its item, if it has one. */
  lemma WorkersFollowTheirLoop(l: Local, worker: nat, now: Time, result: string, error: string)
    ensures worker !in l.hands ==>
              (Can(l, Take(worker)) <==> l.queue != []) && !Can(l, Mark(worker, now)) && !Can(l, Commit(worker))
              && !Can(l, Complete(worker, result, now)) && !Can(l, Fail(worker, error, now)) && !Can(l, Requeue(worker))
    ensures worker in l.hands ==>
              var stage := l.hands[worker].stage;
              && !Can(l, Take(worker))
              && (Can(l, Mark(worker, now)) <==> stage == Popped)
              && (Can(l, Commit(worker)) <==> stage == Marked)
              && (Can(l, Complete(worker, result, now)) <==> stage == Claimed)
              && (Can(l, Fail(worker, error, now)) <==> stage == Claimed)
              && (Can(l, Requeue(worker)) <==> stage == Requeueing)
  {
  }

  // ---- Every active task can still succeed

  /** Nothing new is submitted and no handler fails. */
  predicate Orderly(steps: seq<Step>) {
    forall step <- steps :: !step.Enqueue? && !step.Fail?
  }

  lemma RunFirst(l: Local, limits: Limits, step: Step, steps: seq<Step>)
    requires Can(l, step) && CanRun(Apply(l, limits, step), limits, steps)
    ensures CanRun(l, limits, [step] + steps)
    ensures Run(l, limits, [step] + steps) == Run(Apply(l, limits, step), limits, steps)
  {
    assert ([step] + steps)[1..] == steps;
  }

  lemma {:induction false} RunConcat(l: Local, limits: Limits, a: seq<Step>, b: seq<Step>)
    requires CanRun(l, limits, a) && CanRun(Run(l, limits, a), limits, b)
    ensures CanRun(l, limits, a + b) && Run(l, limits, a + b) == Run(Run(l, limits, a), limits, b)
    decreases |a|
  {
    hide Apply, Can;
    if a == [] {
      assert a + b == b;
    } else {
      RunConcat(Apply(l, limits, a[0]), limits, a[1..], b);
      assert (a + b)[0] == a[0] && (a + b)[1..] == a[1..] + b;
    }
  }

  function Remaining(stage: Stage): nat {
    match stage
    case Popped => 2
    case Marked => 1
    case _ => 0
  }

  predicate Succeeded(l: Local, id: string) {
    id in l.tasks && l.tasks[id].fields.status == Done
  }

  lemma RunNothing(l: Local, limits: Limits)
    ensures CanRun(l, limits, []) && Run(l, limits, []) == l
  {
  }

  /** A worker carries the task in its hand to success. */
  lemma {:induction false} FinishHand(l: Local, limits: Limits, worker: nat) returns (steps: seq<Step>)
    requires Ok(l, limits) && LimitsOk(limits) && worker in l.hands && l.hands[worker].stage != Requeueing
    ensures CanRun(l, limits, steps) && Orderly(steps)
    ensures var l' := Run(l, limits, steps);
            Ok(l', limits) && l'.queue == l.queue && l'.hands == l.hands - {worker}
            && Succeeded(l', l.hands[worker].copy.id)
    decreases Remaining(l.hands[worker].stage)
  {
    hide Ok, Apply, Run, CanRun;
    var step := match l.hands[worker].stage
                case Popped => Mark(worker, 0.0)
                case Marked => Commit(worker)
                case _ => Complete(worker, "", 0.0);
    OwnEntry(l, limits, step);
    StepKeeps(l, limits, step);
    var next := Apply(l, limits, step);
    var rest := [];
    if step.Complete? {
      RunNothing(next, limits);
    } else {
      rest := FinishHand(next, limits, worker);
      assert next.hands - {worker} == l.hands - {worker};
    }
    RunFirst(l, limits, step, rest);
    steps := [step] + rest;
  }

  /** One worker takes the items before the task's and then the task's own. */
  lemma {:induction false} FinishQueued(l: Local, limits: Limits, worker: nat, k: nat) returns (steps: seq<Step>)
    requires Ok(l, limits) && LimitsOk(limits) && worker !in l.hands && k < |l.queue|
    ensures CanRun(l, limits, steps) && Orderly(steps) && Succeeded(Run(l, limits, steps), l.queue[k].id)
    decreases k
  {
    hide Ok, Run, CanRun;
    var take := Take(worker);
    StepKeeps(l, limits, take);
    var l1 := Apply(l, limits, take);
    var head := FinishHand(l1, limits, worker);
    RunFirst(l, limits, take, head);
    steps := [take] + head;
    if k > 0 {
      var l2 := Run(l1, limits, head);
      assert worker !in l2.hands;
      var rest := FinishQueued(l2, limits, worker, k - 1);
      RunConcat(l, limits, steps, rest);
      steps := steps + rest;
    }
  }

  lemma {:induction false} FreshWorker(used: set<nat>, least: nat) returns (w: nat)
    ensures w !in used && w >= least
    decreases |used|
  {
    if v :| v in used && v >= least {
      w := FreshWorker(used - {v}, v + 1);
    } else {
      w := least;
    }
  }

  lemma FinishFrom(l: Local, limits: Limits, id: string) returns (steps: seq<Step>)
    requires Ok(l, limits) && LimitsOk(limits) && id in QueueIds(l.queue) + HandIds(l.hands)
    ensures CanRun(l, limits, steps) && Orderly(steps) && Succeeded(Run(l, limits, steps), id)
  {
    hide Ok, Run, CanRun;
    if id in QueueIds(l.queue) {
      var k :| 0 <= k < |l.queue| && l.queue[k].id == id;
      var worker := FreshWorker(l.hands.Keys, 0);
      steps := FinishQueued(l, limits, worker, k);
    } else {
      var worker :| worker in l.hands && l.hands[worker].copy.id == id;
      if l.hands[worker].stage != Requeueing {
        steps := FinishHand(l, limits, worker);
      } else {
        var put := Requeue(worker);
        StepKeeps(l, limits, put);
        var rest := FinishQueued(Apply(l, limits, put), limits, worker, |l.queue|);
        RunFirst(l, limits, put, rest);
        steps := [put] + rest;
      }
    }
  }

  /** From every reachable state every active task has a continuation without failures that makes it succeed. */
  lemma ActiveTaskCanSucceed(limits: Limits, run: seq<Step>, id: string) returns (more: seq<Step>)
    requires LimitsOk(limits) && CanRun(EMPTY, limits, run)
    requires id in Active(Run(EMPTY, limits, run).tasks)
    ensures Orderly(more) && CanRun(EMPTY, limits, run + more) && Succeeded(Run(EMPTY, limits, run + more), id)
  {
    hide Ok, Run, CanRun;
    EmptyOk(limits);
    RunKeeps(EMPTY, limits, run);
    CopiesAreConserved(limits, run);
    more := FinishFrom(Run(EMPTY, limits, run), limits, id);
    RunConcat(EMPTY, limits, run, more);
  }
}
