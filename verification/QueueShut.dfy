/**
  Whether acknowledged entries can really pile up until every enqueue is refused: they can if and only
  if a task may be attempted twice.
 */
module QueueShut {
  import opened Collections
  import opened Wrappers
  import opened MemoryStore
  import opened RedisQueue
  import opened RedisSafety
  import opened QueueProtocol
  import opened QueueInvariant
  import opened QueueProgress
  import opened QueueStranded
  import opened QueueTheorems

  // ---- With two attempts: a run that leaves an entry behind

  /** No worker is alive, and what is in the stream was delivered and acknowledged. */
  ghost predicate Quiet(s: System) {
    && Inv(s) && s.workers == map[]
    && s.redis.pending == map[] && s.redis.cursor == s.redis.nextId
  }

  lemma QuietEntriesAreLeft(s: System, id: StreamId)
    requires Quiet(s) && id in s.redis.stream
    ensures Left(s, id)
  {
  }

  lemma Then(s: System, steps: seq<Step>, step: Step)
    requires CanRun(s, steps) && Enabled(Run(s, steps), step)
    ensures CanRun(s, steps + [step]) && Run(s, steps + [step]) == Apply(Run(s, steps), step)
  {
    hide Apply, Enabled;
    RunOne(Run(s, steps), step);
    RunConcat(s, steps, [step]);
  }

  /** Two workers, in these situations; the limits are those of s0. */
  ghost predicate Team(s0: System, s: System, v: Worker, w: Worker) {
    && s.workers.Keys == {"v", "w"} && s.workers["v"] == v && s.workers["w"] == w
    && s.capacity == s0.capacity && s.maxAttempts == s0.maxAttempts
  }

  ghost predicate HasTask(s: System, t: TaskId, status: Status, attempts: nat) {
    && t in s.redis.tasks && t !in s.redis.leases && s.redis.tasks[t].payload == OtherKind("")
    && s.redis.tasks[t].status == status && s.redis.tasks[t].attempts == attempts
  }

  /** Worker v has the new message in hand, w has recovered a copy of it. */
  ghost predicate HandedOut(s0: System, s: System, t: TaskId) {
    var n, r := s0.redis.nextId, s.redis;
    && Team(s0, s, Worker([], Fetched(Entry(n, t))), Worker([Entry(n, t)], Idle))
    && r.stream == s0.redis.stream[n := t] && r.nextId == n + 1 && r.cursor == n + 1 && r.pending.Keys == {n}
    && HasTask(s, t, Queued, 0) && s.tokens == s0.tokens
  }

  lemma QuietLeases(s: System)
    requires Inv(s)
    ensures StreamOk(s.redis) && forall task <- s.redis.leases :: task in s.redis.tasks
  {
    hide WorkersOk, StartsOk, ArchiveOk;
  }

  lemma SubmitTo(s: System, t: TaskId) returns (steps: seq<Step>)
    requires Quiet(s) && t != "" && t !in s.redis.tasks && |s.redis.stream| < s.capacity
    ensures CanRun(s, steps)
    ensures var s', n := Run(s, steps), s.redis.nextId;
            && Team(s, s', Worker([], Idle), Worker([], Idle))
            && s'.redis.stream == s.redis.stream[n := t] && s'.redis.nextId == n + 1 && s'.redis.cursor == n
            && s'.redis.pending == map[] && HasTask(s', t, Queued, 0) && s'.tokens == s.tokens
  {
    hide Inv, Run, CanRun;
    QuietLeases(s);
    steps := [Submit(t, OtherKind(""))];
    RunOne(s, steps[0]);
    Then(s, steps, Spawn("v"));
    steps := steps + [Spawn("v")];
    Then(s, steps, Spawn("w"));
    steps := steps + [Spawn("w")];
  }

  lemma HandOut(s0: System, s: System, t: TaskId) returns (steps: seq<Step>)
    requires Team(s0, s, Worker([], Idle), Worker([], Idle))
    requires var n := s0.redis.nextId;
             s.redis.stream == s0.redis.stream[n := t] && s.redis.nextId == n + 1 && s.redis.cursor == n
             && s.redis.pending == map[] && HasTask(s, t, Queued, 0) && s.tokens == s0.tokens
    ensures CanRun(s, steps) && HandedOut(s0, Run(s, steps), t)
  {
    hide Run, CanRun;
    var n := s0.redis.nextId;
    steps := [ReadNew("v")];
    RunOne(s, steps[0]);
    var s1 := Run(s, steps);
    assert s1.workers["v"] == Worker([], Fetched(Entry(n, t))) && s1.redis.pending == map[n := "v"];
    Then(s, steps, Recover("w", [n]));
    steps := steps + [Recover("w", [n])];
    var s2 := Run(s, steps);
    assert EntriesOf(s1.redis, [n]) == [Entry(n, t)];
    assert s2.redis.pending.Keys == {n};
  }

  /** Worker v has failed: the message is gone, and a new one asks for the second attempt. */
  ghost predicate Requeued(s0: System, s: System, t: TaskId) {
    var n, r := s0.redis.nextId, s.redis;
    && Team(s0, s, Worker([], Idle), Worker([Entry(n, t)], Idle))
    && r.stream == s0.redis.stream[n + 1 := t] && r.nextId == n + 2 && r.cursor == n + 1 && r.pending == map[]
    && HasTask(s, t, Queued, 1)
  }

  lemma Claims(s: System, w: Consumer, t: TaskId) returns (token: Token)
    requires Inv(s) && At(s, w).Fetched? && At(s, w).entry.task == t && MayClaim(s.redis, t)
    ensures Enabled(s, TryClaim(w, token))
    ensures var s', h := Apply(s, TryClaim(w, token)), s.redis.tasks[t];
            && s'.workers == s.workers[w := s.workers[w].(phase := Claimed(Job(At(s, w).entry, token, h.attempts + 1)))]
            && s'.redis == s.redis.(leases := s.redis.leases[t := token], tasks := s'.redis.tasks)
            && t in s'.redis.tasks && s'.redis.tasks[t] == h.(status := Running, attempts := h.attempts + 1)
            && s'.capacity == s.capacity && s'.maxAttempts == s.maxAttempts
  {
    hide Inv;
    token := FreshString(s.tokens, 0);
  }

  lemma FailStep(s0: System, s: System, t: TaskId, a: Token)
    requires StreamOk(s0.redis) && s.maxAttempts >= 2
    requires var n := s0.redis.nextId;
             && Team(s0, s, Worker([], Raised(Job(Entry(n, t), a, 1), "")), Worker([Entry(n, t)], Idle))
             && s.redis.stream == s0.redis.stream[n := t] && s.redis.nextId == n + 1 && s.redis.cursor == n + 1
             && s.redis.pending.Keys == {n} && HoldsLease(s.redis, t, a)
             && t in s.redis.tasks && s.redis.tasks[t].payload == OtherKind("") && s.redis.tasks[t].attempts == 1
    ensures Enabled(s, FailTask("v")) && Requeued(s0, Apply(s, FailTask("v")), t)
  {
    var s' := Apply(s, FailTask("v"));
    assert s'.redis.stream == s0.redis.stream[s0.redis.nextId + 1 := t];
    assert s'.redis.pending == map[];
  }

  lemma FailFirst(s0: System, s: System, t: TaskId, a: Token) returns (steps: seq<Step>)
    requires StreamOk(s0.redis) && s.maxAttempts >= 2
    requires var n := s0.redis.nextId;
             && Team(s0, s, Worker([], Claimed(Job(Entry(n, t), a, 1))), Worker([Entry(n, t)], Idle))
             && s.redis.stream == s0.redis.stream[n := t] && s.redis.nextId == n + 1 && s.redis.cursor == n + 1
             && s.redis.pending.Keys == {n} && HoldsLease(s.redis, t, a)
             && t in s.redis.tasks && s.redis.tasks[t].payload == OtherKind("") && s.redis.tasks[t].attempts == 1
    ensures CanRun(s, steps) && Requeued(s0, Run(s, steps), t)
  {
    hide Run, CanRun, FailScript;
    var raise := Raise("v", "");
    RunOne(s, raise);
    var s1 := Apply(s, raise);
    assert s1.workers["v"] == Worker([], Raised(Job(Entry(s0.redis.nextId, t), a, 1), ""));
    FailStep(s0, s1, t, a);
    RunOne(s1, FailTask("v"));
    RunConcat(s, [raise], [FailTask("v")]);
    steps := [raise] + [FailTask("v")];
  }

  lemma FirstAttempt(s0: System, s: System, t: TaskId) returns (steps: seq<Step>)
    requires Quiet(s0) && Inv(s) && HandedOut(s0, s, t) && s0.maxAttempts >= 2
    ensures CanRun(s, steps) && Requeued(s0, Run(s, steps), t)
  {
    hide Inv, Run, CanRun, Apply, Enabled;
    QuietLeases(s0);
    var n := s0.redis.nextId;
    var a := Claims(s, "v", t);
    steps := [TryClaim("v", a)];
    RunOne(s, steps[0]);
    var more := FailFirst(s0, Run(s, steps), t, a);
    RunConcat(s, steps, more);
    steps := steps + more;
  }

  /** Worker w has finished the task with its copy of the first message; the second one is still there. */
  ghost predicate Superseded(s0: System, s: System, t: TaskId) {
    var n, r := s0.redis.nextId, s.redis;
    && Team(s0, s, Worker([], Idle), Worker([], Idle))
    && r.stream == s0.redis.stream[n + 1 := t] && r.nextId == n + 2 && r.cursor == n + 1 && r.pending == map[]
    && HasTask(s, t, Done, 2)
  }

  lemma ReportSecond(s0: System, s: System, t: TaskId, b: Token) returns (steps: seq<Step>)
    requires s.maxAttempts >= 2 && t in s.redis.tasks && s.redis.tasks[t].payload == OtherKind("")
    requires Team(s0, s, Worker([], Idle), Worker([], Claimed(Job(Entry(s0.redis.nextId, t), b, 2))))
    ensures CanRun(s, steps) && Run(s, steps).redis == s.redis
    ensures Team(s0, Run(s, steps), Worker([], Idle),
                 Worker([], Finished(Job(Entry(s0.redis.nextId, t), b, 2), Report(""))))
  {
    hide Run, CanRun;
    steps := [Begin("w")];
    RunOne(s, steps[0]);
    var s1 := Run(s, steps);
    assert s1.workers["w"].phase.Handling? && s1.redis == s.redis;
    Then(s, steps, ReturnReport("w", ""));
    steps := steps + [ReturnReport("w", "")];
  }

  lemma CompleteStep(s0: System, s: System, t: TaskId, b: Token)
    requires StreamOk(s0.redis)
    requires var n, r := s0.redis.nextId, s.redis;
             && Team(s0, s, Worker([], Idle), Worker([], Finished(Job(Entry(n, t), b, 2), Report(""))))
             && r.stream == s0.redis.stream[n + 1 := t] && r.nextId == n + 2 && r.cursor == n + 1
             && r.pending == map[] && HoldsLease(r, t, b)
             && t in r.tasks && r.tasks[t].payload == OtherKind("") && r.tasks[t].attempts == 2
    ensures Enabled(s, CompleteTask("w")) && Superseded(s0, Apply(s, CompleteTask("w")), t)
  {
    var s' := Apply(s, CompleteTask("w"));
    assert s'.redis.stream == s0.redis.stream[s0.redis.nextId + 1 := t];
    assert s'.redis.pending == map[];
  }

  lemma CompleteSecond(s0: System, s: System, t: TaskId, b: Token) returns (steps: seq<Step>)
    requires StreamOk(s0.redis) && s.maxAttempts >= 2
    requires var n, r := s0.redis.nextId, s.redis;
             && Team(s0, s, Worker([], Idle), Worker([], Claimed(Job(Entry(n, t), b, 2))))
             && r.stream == s0.redis.stream[n + 1 := t] && r.nextId == n + 2 && r.cursor == n + 1
             && r.pending == map[] && HoldsLease(r, t, b)
             && t in r.tasks && r.tasks[t].payload == OtherKind("") && r.tasks[t].attempts == 2
    ensures CanRun(s, steps) && Superseded(s0, Run(s, steps), t)
  {
    hide Run, CanRun, Apply, Enabled;
    steps := ReportSecond(s0, s, t, b);
    CompleteStep(s0, Run(s, steps), t, b);
    Then(s, steps, CompleteTask("w"));
    steps := steps + [CompleteTask("w")];
  }

  lemma SecondAttempt(s0: System, s: System, t: TaskId) returns (steps: seq<Step>)
    requires Quiet(s0) && Inv(s) && Requeued(s0, s, t) && s0.maxAttempts >= 2
    ensures CanRun(s, steps) && Superseded(s0, Run(s, steps), t)
  {
    hide Inv, Run, CanRun;
    QuietLeases(s0);
    steps := [TakeRecovered("w")];
    RunOne(s, steps[0]);
    var s1 := Run(s, steps);
    RunKeepsInv(s, steps);
    var b := Claims(s1, "w", t);
    Then(s, steps, TryClaim("w", b));
    steps := steps + [TryClaim("w", b)];
    var more := CompleteSecond(s0, Run(s, steps), t, b);
    RunConcat(s, steps, more);
    steps := steps + more;
  }

  lemma AckAndDie(s0: System, s: System, e: Entry) returns (steps: seq<Step>)
    requires Team(s0, s, Worker([], Acking(e)), Worker([], Idle)) && s.redis.pending.Keys == {e.id}
    ensures CanRun(s, steps)
    ensures var s' := Run(s, steps);
            && s'.workers == map[] && s'.redis == s.redis.(pending := map[])
            && s'.capacity == s.capacity && s'.maxAttempts == s.maxAttempts
  {
    hide Run, CanRun;
    steps := [AckFinished("v")];
    RunOne(s, steps[0]);
    assert Run(s, steps).redis.pending == map[];
    Then(s, steps, Crash("v"));
    steps := steps + [Crash("v")];
    Then(s, steps, Crash("w"));
    steps := steps + [Crash("w")];
    assert Run(s, steps).workers == map[];
  }

  /** Worker v finds the second message superfluous, acknowledges it and dies; w dies too. */
  lemma DieAcknowledging(s0: System, s: System, t: TaskId) returns (steps: seq<Step>)
    requires Quiet(s0) && Inv(s) && Superseded(s0, s, t)
    ensures CanRun(s, steps)
    ensures var s' := Run(s, steps);
            && s'.workers == map[] && s'.redis.pending == map[] && s'.redis.cursor == s'.redis.nextId
            && s'.redis.stream == s0.redis.stream[s0.redis.nextId + 1 := t]
            && s'.capacity == s0.capacity && s'.maxAttempts == s0.maxAttempts
  {
    hide Inv, Run, CanRun;
    var e := Entry(s0.redis.nextId + 1, t);
    steps := [ReadNew("v")];
    RunOne(s, steps[0]);
    var s1 := Run(s, steps);
    assert s1.workers["v"] == Worker([], Fetched(e)) && s1.redis.pending == map[e.id := "v"];
    var c := FreshString(s.tokens, 0);
    Then(s, steps, TryClaim("v", c));
    steps := steps + [TryClaim("v", c)];
    var more := AckAndDie(s0, Run(s, steps), e);
    RunConcat(s, steps, more);
    steps := steps + more;
  }

  /** From a quiet state with room in the stream, one more entry can be left behind. */
  lemma LeaveOne(s: System) returns (steps: seq<Step>)
    requires Quiet(s) && |s.redis.stream| < s.capacity && s.maxAttempts >= 2
    ensures CanRun(s, steps) && Quiet(Run(s, steps))
    ensures |Run(s, steps).redis.stream| == |s.redis.stream| + 1
    ensures Run(s, steps).capacity == s.capacity && Run(s, steps).maxAttempts == s.maxAttempts
  {
    hide Inv, Run, CanRun, Team, HasTask;
    QuietLeases(s);
    var t := FreshString(s.redis.tasks.Keys, 0);
    steps := SubmitTo(s, t);
    var more := HandOut(s, Run(s, steps), t);
    RunConcat(s, steps, more);
    steps := steps + more;
    RunKeepsInv(s, steps);
    more := FirstAttempt(s, Run(s, steps), t);
    RunConcat(s, steps, more);
    steps := steps + more;
    RunKeepsInv(s, steps);
    more := SecondAttempt(s, Run(s, steps), t);
    RunConcat(s, steps, more);
    steps := steps + more;
    RunKeepsInv(s, steps);
    more := DieAcknowledging(s, Run(s, steps), t);
    RunConcat(s, steps, more);
    steps := steps + more;
    RunKeepsInv(s, steps);
  }

  /** Entries can be left behind until the stream is as long as the capacity. */
  lemma {:induction false} FillUp(s: System) returns (steps: seq<Step>)
    requires Quiet(s) && |s.redis.stream| <= s.capacity && s.maxAttempts >= 2
    ensures CanRun(s, steps) && Quiet(Run(s, steps))
    ensures |Run(s, steps).redis.stream| == s.capacity && Run(s, steps).capacity == s.capacity
    decreases s.capacity - |s.redis.stream|
  {
    hide Quiet;
    if |s.redis.stream| == s.capacity {
      steps := [];
    } else {
      var one := LeaveOne(s);
      var more := FillUp(Run(s, one));
      RunConcat(s, one, more);
      steps := one + more;
    }
  }

  // ---- With one attempt: no entry outlives its task

  /** The worker has a copy of the message, or a job from it. */
  ghost predicate Carries(worker: Worker, e: Entry) {
    || e in worker.recovered
    || match worker.phase
       case Idle => false
       case Fetched(e') => e' == e
       case Acking(e') => e' == e
       case Deleting(e') => e' == e
       case phase => JobOf(phase).value.entry == e
  }

  /** Of the entry's task the stream has no other entry. */
  ghost predicate OnlyEntry(r: Redis, e: Entry) {
    forall id <- r.stream | r.stream[id] == e.task :: id == e.id
  }

  ghost predicate Unfinished(r: Redis, id: StreamId)
    requires id in r.stream
  {
    !Terminal(HashOf(r.tasks, r.stream[id]))
  }

  /** Each task has at most one entry, every copy is of that entry, and a finished task has none. */
  ghost predicate Single(s: System) {
    && (forall id <- s.redis.stream :: OnlyEntry(s.redis, Entry(id, s.redis.stream[id])))
    && (forall w <- s.workers, e | Carries(s.workers[w], e) :: OnlyEntry(s.redis, e))
    && (forall id <- s.redis.stream :: Unfinished(s.redis, id))
  }

  /** No step hands out anything but what is in the stream. */
  ghost predicate CopiesFrom(s: System, s': System) {
    forall w <- s'.workers, e | Carries(s'.workers[w], e) ::
      || (w in s.workers && Carries(s.workers[w], e))
      || (e.id in s.redis.stream && s.redis.stream[e.id] == e.task)
  }

  lemma SingleStable(s: System, s': System)
    requires Single(s) && CopiesFrom(s, s')
    requires forall id <- s'.redis.stream :: id in s.redis.stream && s'.redis.stream[id] == s.redis.stream[id]
    requires forall id <- s'.redis.stream :: Unfinished(s'.redis, id)
    ensures Single(s')
  {
    hide Carries, Unfinished;
    forall w <- s'.workers, e | Carries(s'.workers[w], e) ensures OnlyEntry(s'.redis, e) {
      assert OnlyEntry(s.redis, e) by {
        if !(w in s.workers && Carries(s.workers[w], e)) {
          assert e == Entry(e.id, s.redis.stream[e.id]);
        }
      }
    }
    forall id <- s'.redis.stream ensures OnlyEntry(s'.redis, Entry(id, s'.redis.stream[id])) {
      assert OnlyEntry(s.redis, Entry(id, s.redis.stream[id]));
    }
  }

  lemma RecoverHandsOut(s: System, w: Consumer, ids: seq<StreamId>)
    requires Enabled(s, Recover(w, ids))
    ensures CopiesFrom(s, Apply(s, Recover(w, ids)))
  {
    var s' := Apply(s, Recover(w, ids));
    var entries := EntriesOf(s.redis, ids);
    forall e <- entries ensures e.id in s.redis.stream && s.redis.stream[e.id] == e.task {
      var i :| 0 <= i < |entries| && entries[i] == e;
      assert ids[i] in ids;
    }
    hide PutAll;
    assert forall e <- s'.workers[w].recovered :: e in s.workers[w].recovered || e in entries;
  }

  lemma DeliveryHandsOut(s: System, step: Step)
    requires Enabled(s, step)
    requires step.TakeRecovered? || step.ReadNew? || step.TryClaim?
    ensures CopiesFrom(s, Apply(s, step))
  {
    hide ClaimScript;
  }

  lemma CarriedBefore(s: System, step: Step, w: Consumer, e: Entry)
    requires Enabled(s, step)
    requires !step.Recover? && !step.TakeRecovered? && !step.ReadNew? && !step.TryClaim?
    requires w in Apply(s, step).workers && Carries(Apply(s, step).workers[w], e)
    ensures w in s.workers && Carries(s.workers[w], e)
  {
    hide AddRow, UpsertVector, EnqueueScript, CompleteScript, FailScript, WantsArchive;
  }

  lemma NothingHandedOut(s: System, step: Step)
    requires Enabled(s, step)
    requires !step.Recover? && !step.TakeRecovered? && !step.ReadNew? && !step.TryClaim?
    ensures CopiesFrom(s, Apply(s, step))
  {
    hide Apply, Enabled, Carries;
    forall w <- Apply(s, step).workers, e | Carries(Apply(s, step).workers[w], e)
      ensures w in s.workers && Carries(s.workers[w], e)
    {
      CarriedBefore(s, step, w, e);
    }
  }

  lemma StepHandsOut(s: System, step: Step)
    requires Enabled(s, step)
    ensures CopiesFrom(s, Apply(s, step))
  {
    hide Apply, Enabled, CopiesFrom;
    if step.Recover? {
      RecoverHandsOut(s, step.w, step.ids);
    } else if step.TakeRecovered? || step.ReadNew? || step.TryClaim? {
      DeliveryHandsOut(s, step);
    } else {
      NothingHandedOut(s, step);
    }
  }

  /** The stream only shrinks, and what it loses or keeps leaves no finished task behind in it. */
  ghost predicate Shrinks(s: System, s': System) {
    && (forall id <- s'.redis.stream :: id in s.redis.stream && s'.redis.stream[id] == s.redis.stream[id])
    && (forall id <- s'.redis.stream :: Unfinished(s'.redis, id))
  }

  lemma JobHasOnlyEntry(s: System, w: Consumer)
    requires Inv(s) && Single(s) && JobOf(At(s, w)).Some?
    ensures var job := JobOf(At(s, w)).value;
            OnlyEntry(s.redis, job.entry) && job.entry.task in s.redis.tasks && job.attempts >= 1
  {
    hide RedisOk, StartsOk, ArchiveOk, OnlyEntry, Unfinished;
    WorkerIsOk(s, w);
    assert Carries(s.workers[w], JobOf(At(s, w)).value.entry);
  }

  lemma CompleteShrinks(s: System, w: Consumer)
    requires Inv(s) && Single(s) && Enabled(s, CompleteTask(w))
    ensures Shrinks(s, Apply(s, CompleteTask(w)))
  {
    hide Inv, Carries;
    JobHasOnlyEntry(s, w);
  }

  /** A first attempt that fails is the last one, so nothing is queued again. */
  lemma FailShrinks(s: System, w: Consumer)
    requires Inv(s) && Single(s) && Enabled(s, FailTask(w)) && s.maxAttempts <= 1
    ensures Shrinks(s, Apply(s, FailTask(w)))
  {
    hide Inv, Carries;
    JobHasOnlyEntry(s, w);
  }

  lemma CommandShrinks(s: System, step: Step)
    requires Single(s) && Enabled(s, step)
    requires !step.Submit? && !step.CompleteTask? && !step.FailTask? && !step.ClaimRaises?
    ensures Shrinks(s, Apply(s, step))
  {
    hide Carries, OnlyEntry, AddRow, UpsertVector, PutAll, CompleteScript, FailScript, WantsArchive;
  }

  lemma SameShrinks(s: System, s': System)
    requires Single(s) && s'.redis == s.redis
    ensures Shrinks(s, s')
  {
  }

  lemma ShrinksSingle(s: System, s': System)
    requires Single(s) && CopiesFrom(s, s') && Shrinks(s, s')
    ensures Single(s')
  {
    hide Single, CopiesFrom, Unfinished;
    SingleStable(s, s');
  }

  lemma StepShrinks(s: System, step: Step)
    requires Inv(s) && Single(s) && Enabled(s, step) && s.maxAttempts <= 1 && !step.Submit?
    ensures Shrinks(s, Apply(s, step)) && Single(Apply(s, step))
  {
    hide Inv, Single, Apply, Enabled, Shrinks;
    match step {
      case CompleteTask(w) => CompleteShrinks(s, w);
      case FailTask(w) => FailShrinks(s, w);
      case ClaimRaises(w, error) =>
        ClaimRaisesKeeps(s, w, error);
        SameShrinks(s, Apply(s, step));
      case _ => CommandShrinks(s, step);
    }
    StepHandsOut(s, step);
    ShrinksSingle(s, Apply(s, step));
  }

  lemma NewEntryIsApart(s: System, task: TaskId, payload: Payload, e: Entry)
    requires task !in s.redis.tasks && e.task in s.redis.tasks && OnlyEntry(s.redis, e)
    ensures OnlyEntry(EnqueueScript(s.redis, s.capacity, task, payload).0, e)
  {
  }

  lemma NewEntryIsOnly(s: System, task: TaskId, payload: Payload, id: StreamId)
    requires StreamOk(s.redis) && Single(s) && task !in s.redis.tasks
    requires id in EnqueueScript(s.redis, s.capacity, task, payload).0.stream
    ensures var r := EnqueueScript(s.redis, s.capacity, task, payload).0;
            OnlyEntry(r, Entry(id, r.stream[id])) && Unfinished(r, id)
  {
    hide Carries;
    if id in s.redis.stream {
      assert OnlyEntry(s.redis, Entry(id, s.redis.stream[id])) && Unfinished(s.redis, id);
    }
  }

  lemma CarriedTaskIsKnown(s: System, w: Consumer, e: Entry)
    requires Inv(s) && w in s.workers && Carries(s.workers[w], e)
    ensures e.task in s.redis.tasks
  {
    hide RedisOk, StartsOk, ArchiveOk;
    WorkerIsOk(s, w);
  }

  lemma SubmitKeepsSingle(s: System, task: TaskId, payload: Payload)
    requires Inv(s) && Single(s) && Enabled(s, Submit(task, payload))
    ensures Single(Apply(s, Submit(task, payload)))
  {
    hide Inv, Carries, Unfinished, OnlyEntry;
    QuietLeases(s);
    var s' := Apply(s, Submit(task, payload));
    forall w <- s'.workers, e | Carries(s'.workers[w], e) ensures OnlyEntry(s'.redis, e) {
      CarriedTaskIsKnown(s, w, e);
      assert OnlyEntry(s.redis, e);
      NewEntryIsApart(s, task, payload, e);
    }
    forall id <- s'.redis.stream
      ensures OnlyEntry(s'.redis, Entry(id, s'.redis.stream[id])) && Unfinished(s'.redis, id)
    {
      NewEntryIsOnly(s, task, payload, id);
    }
  }

  lemma StepKeepsSingle(s: System, step: Step)
    requires Inv(s) && Single(s) && Enabled(s, step) && s.maxAttempts <= 1
    ensures Single(Apply(s, step))
  {
    hide Inv, Single, Apply, Enabled;
    if step.Submit? {
      SubmitKeepsSingle(s, step.task, step.payload);
    } else {
      StepShrinks(s, step);
    }
  }

  lemma {:induction false} RunKeepsSingle(s: System, steps: seq<Step>)
    requires Inv(s) && Single(s) && CanRun(s, steps) && s.maxAttempts <= 1
    ensures Single(Run(s, steps))
    decreases |steps|
  {
    hide Inv, Single, Apply, Enabled;
    if steps == [] {
    } else {
      StepKeepsSingle(s, steps[0]);
      StepKeepsInv(s, steps[0]);
      RunKeepsSingle(Apply(s, steps[0]), steps[1..]);
    }
  }

  lemma SingleHasNoneStranded(s: System, id: StreamId)
    requires Inv(s) && Single(s)
    ensures !Stranded(s.redis, id)
  {
    hide WorkersOk, StartsOk, ArchiveOk;
    if id in s.redis.stream {
      assert Unfinished(s.redis, id);
    }
  }

  // ---- With one attempt: there is always room again

  lemma {:induction false} OrderlyShrinks(s: System, steps: seq<Step>)
    requires Inv(s) && Single(s) && CanRun(s, steps) && Orderly(steps) && s.maxAttempts <= 1
    ensures Single(Run(s, steps)) && Inv(Run(s, steps))
    ensures Run(s, steps).redis.stream.Keys <= s.redis.stream.Keys
    ensures forall id <- Run(s, steps).redis.stream :: Run(s, steps).redis.stream[id] == s.redis.stream[id]
    decreases |steps|
  {
    hide Inv, Single, Apply, Enabled;
    if steps == [] {
    } else {
      var s' := Apply(s, steps[0]);
      assert steps[0] in steps;
      StepShrinks(s, steps[0]);
      StepKeepsInv(s, steps[0]);
      OrderlyShrinks(s', steps[1..]);
    }
  }

  lemma StepIsBounded(s: System, step: Step)
    requires Inv(s) && Single(s) && Enabled(s, step) && s.maxAttempts <= 1 && |s.redis.stream| <= s.capacity
    ensures |Apply(s, step).redis.stream| <= s.capacity
  {
    hide Inv, Single, Unfinished;
    if !step.Submit? {
      StepShrinks(s, step);
      SubsetIsSmaller(Apply(s, step).redis.stream.Keys, s.redis.stream.Keys);
    }
  }

  /** The stream is never longer than the capacity. */
  lemma {:induction false} StreamIsBounded(s: System, steps: seq<Step>)
    requires Inv(s) && Single(s) && CanRun(s, steps) && s.maxAttempts <= 1 && |s.redis.stream| <= s.capacity
    ensures |Run(s, steps).redis.stream| <= s.capacity && Run(s, steps).capacity == s.capacity
    decreases |steps|
  {
    hide Inv, Single, Apply, Enabled;
    if steps == [] {
    } else {
      var s' := Apply(s, steps[0]);
      StepKeepsSingle(s, steps[0]);
      StepKeepsInv(s, steps[0]);
      StepIsBounded(s, steps[0]);
      StreamIsBounded(s', steps[1..]);
    }
  }

  lemma FinishedHasNoEntry(s: System, task: TaskId)
    requires Single(s) && Terminal(HashOf(s.redis.tasks, task))
    ensures forall id <- s.redis.stream :: s.redis.stream[id] != task
  {
    hide OnlyEntry, Carries;
    forall id <- s.redis.stream ensures s.redis.stream[id] != task {
      assert Unfinished(s.redis, id);
    }
  }

  lemma RunNothing(s: System)
    ensures CanRun(s, []) && Run(s, []) == s
  {
  }

  /** A full queue has room again once one of its tasks is finished. */
  lemma RoomReturns(s: System) returns (more: seq<Step>)
    requires Inv(s) && Single(s) && s.maxAttempts <= 1 && 0 < s.capacity && |s.redis.stream| <= s.capacity
    ensures CanRun(s, more) && |Run(s, more).redis.stream| < s.capacity
  {
    hide Inv, Run, CanRun, OnlyEntry, Carries;
    if |s.redis.stream| < s.capacity {
      more := [];
      assert Run(s, more) == s by { RunNothing(s); }
    } else {
      var id :| id in s.redis.stream;
      StreamIsOk(s);
      assert Unfinished(s.redis, id);
      more := FinishFrom(s, s.redis.stream[id]);
      OrderlyShrinks(s, more);
      var r := Run(s, more).redis;
      FinishedHasNoEntry(Run(s, more), s.redis.stream[id]);
      assert id !in r.stream;
      SubsetIsSmaller(r.stream.Keys, s.redis.stream.Keys - {id});
    }
  }

  // ---- The exact conditions

  ghost predicate Refuses(s: System) {
    forall task, payload :: !EnqueueScript(s.redis, s.capacity, task, payload).1
  }

  /** No enqueue is accepted any more, whatever happens. */
  ghost predicate Shut(s: System) {
    forall more | CanRun(s, more) :: Refuses(Run(s, more))
  }

  lemma RefusesExactlyWhen(s: System)
    ensures Refuses(s) <==> |s.redis.stream| >= s.capacity
  {
    assert EnqueueScript(s.redis, s.capacity, "", NoPayload).1 <==> |s.redis.stream| < s.capacity;
  }

  lemma StartIsQuiet(capacity: nat, maxAttempts: nat)
    ensures Quiet(Init(capacity, maxAttempts)) && Single(Init(capacity, maxAttempts))
  {
    ReachableInv(capacity, maxAttempts, []);
  }

  lemma LeftIsThere(s: System, id: StreamId)
    requires Left(s, id)
    ensures id in s.redis.stream
  {
  }

  lemma QuietAndFullIsShut(s: System)
    requires Quiet(s) && |s.redis.stream| >= s.capacity
    ensures Shut(s)
  {
    hide Inv, Left, Run, CanRun, Refuses;
    forall more | CanRun(s, more) ensures Refuses(Run(s, more)) {
      LimitStays(s, more);
      RefusesExactlyWhen(Run(s, more));
      forall id <- s.redis.stream ensures id in Run(s, more).redis.stream {
        QuietEntriesAreLeft(s, id);
        LeftStays(s, more, id);
        LeftIsThere(Run(s, more), id);
      }
      SubsetIsSmaller(s.redis.stream.Keys, Run(s, more).redis.stream.Keys);
    }
  }

  lemma AcceptsNothing(s: System, step: Step)
    requires Inv(s) && Enabled(s, step) && s.capacity == 0 && s.redis.tasks == map[]
    ensures Apply(s, step).redis.tasks == map[]
  {
    hide Inv, AddRow, UpsertVector, PutAll;
    QuietLeases(s);
    if step.TryClaim? {
      FetchedTaskIsKnown(s, step.w);
    }
  }

  /** Without capacity no task is ever accepted. */
  lemma {:induction false} NothingAccepted(s: System, steps: seq<Step>)
    requires Inv(s) && CanRun(s, steps) && s.capacity == 0 && s.redis.tasks == map[]
    ensures Run(s, steps).redis.tasks == map[] && Inv(Run(s, steps))
    decreases |steps|
  {
    hide Inv, Apply, Enabled;
    if steps == [] {
    } else {
      StepKeepsInv(s, steps[0]);
      AcceptsNothing(s, steps[0]);
      NothingAccepted(Apply(s, steps[0]), steps[1..]);
    }
  }

  lemma NothingIsLeft(s: System, steps: seq<Step>, id: StreamId)
    requires Inv(s) && Single(s) && CanRun(s, steps) && s.redis.tasks == map[]
    requires s.capacity == 0 || s.maxAttempts <= 1
    ensures !Left(Run(s, steps), id)
  {
    hide Inv, Run, CanRun, Single, HoldsCopy;
    var s' := Run(s, steps);
    if s.capacity == 0 {
      NothingAccepted(s, steps);
      QuietLeases(s');
    } else {
      RunKeepsInv(s, steps);
      RunKeepsSingle(s, steps);
      SingleHasNoneStranded(s', id);
    }
  }

  /**
    A reachable state has an entry that nobody will ever delete if and only if the queue takes tasks
    at all and gives them a second attempt.
   */
  lemma LeftExactlyWhen(capacity: nat, maxAttempts: nat)
    ensures (exists steps, id | CanRun(Init(capacity, maxAttempts), steps) ::
               Left(Run(Init(capacity, maxAttempts), steps), id))
       <==> capacity >= 1 && maxAttempts >= 2
  {
    hide Inv, Left, Run, CanRun, Single;
    var s0 := Init(capacity, maxAttempts);
    StartIsQuiet(capacity, maxAttempts);
    if capacity >= 1 && maxAttempts >= 2 {
      var steps := LeaveOne(s0);
      var s := Run(s0, steps);
      var id :| id in s.redis.stream;
      QuietEntriesAreLeft(s, id);
    } else {
      forall steps, id | CanRun(s0, steps) ensures !Left(Run(s0, steps), id) {
        NothingIsLeft(s0, steps, id);
      }
    }
  }

  lemma StaysOpen(s: System, steps: seq<Step>)
    requires Inv(s) && Single(s) && CanRun(s, steps) && s.redis.stream == map[]
    requires 0 < s.capacity && s.maxAttempts <= 1
    ensures !Shut(Run(s, steps))
  {
    hide Inv, Run, CanRun, Single, Refuses;
    RunKeepsInv(s, steps);
    RunKeepsSingle(s, steps);
    StreamIsBounded(s, steps);
    LimitStays(s, steps);
    var s' := Run(s, steps);
    var more := RoomReturns(s');
    LimitStays(s', more);
    RefusesExactlyWhen(Run(s', more));
  }

  /**
    The queue can be shut for good -- some run leads to a state from which no enqueue is ever accepted
    again -- if and only if no enqueue is accepted at all or tasks have a second attempt.
   */
  lemma ShutExactlyWhen(capacity: nat, maxAttempts: nat)
    ensures (exists steps | CanRun(Init(capacity, maxAttempts), steps) :: Shut(Run(Init(capacity, maxAttempts), steps)))
       <==> capacity == 0 || maxAttempts >= 2
  {
    hide Inv, Run, CanRun, Single, Shut;
    var s0 := Init(capacity, maxAttempts);
    StartIsQuiet(capacity, maxAttempts);
    if capacity == 0 {
      RunNothing(s0);
      QuietAndFullIsShut(Run(s0, []));
    } else if maxAttempts >= 2 {
      var steps := FillUp(s0);
      QuietAndFullIsShut(Run(s0, steps));
    } else {
      forall steps | CanRun(s0, steps) ensures !Shut(Run(s0, steps)) {
        StaysOpen(s0, steps);
      }
    }
  }
}
