/** What the Lua scripts keep true of the Redis state, whoever calls them. */
module RedisSafety {
  import opened RedisQueue

  /** The task has a message that the group will still deliver, or that XAUTOCLAIM can hand out. */
  ghost predicate HasLiveEntry(r: Redis, task: TaskId) {
    exists id: StreamId :: id in r.stream && r.stream[id] == task && (id >= r.cursor || id in r.pending)
  }

  ghost predicate StreamOk(r: Redis) {
    && r.cursor <= r.nextId
    && (forall id <- r.stream :: id < r.nextId && r.stream[id] in r.tasks)
    && (forall id <- r.pending :: id in r.stream && id < r.cursor)
  }

  ghost predicate NothingLost(r: Redis) {
    forall task <- r.tasks :: !Terminal(r.tasks[task]) ==> HasLiveEntry(r, task)
  }

  /** An entry that is neither undelivered nor pending: acknowledged, but not (yet) deleted. */
  predicate Stranded(r: Redis, id: StreamId) {
    id in r.stream && id < r.cursor && id !in r.pending
  }

  ghost predicate StrandedOk(r: Redis) {
    forall id <- r.stream | Stranded(r, id) :: r.stream[id] in r.tasks && Terminal(r.tasks[r.stream[id]])
  }

  ghost predicate LeasesOk(r: Redis, tokens: set<Token>) {
    && (forall task <- r.leases :: task in r.tasks && r.tasks[task].status == Running && r.leases[task] in tokens)
    && (forall t1 <- r.leases, t2 <- r.leases :: r.leases[t1] == r.leases[t2] ==> t1 == t2)
  }

  /** A task is done exactly when it has a result, and fails only after its last attempt. */
  ghost predicate ResultsOk(r: Redis, maxAttempts: nat) {
    && (forall task <- r.tasks :: r.tasks[task].status == Done <==> r.tasks[task].result.Some?)
    && (forall task <- r.tasks :: r.tasks[task].status == Failed ==> r.tasks[task].attempts >= maxAttempts)
  }

  predicate HasFailed(r: Redis, task: TaskId) {
    task in r.tasks && r.tasks[task].status == Failed
  }

  ghost predicate DeadLettersOk(r: Redis) {
    forall task :: multiset(r.dead)[task] == if HasFailed(r, task) then 1 else 0
  }

  ghost predicate EntryOk(r: Redis, e: Entry) {
    e.task in r.tasks && e.id < r.cursor && (e.id in r.stream ==> r.stream[e.id] == e.task)
  }

  ghost predicate RedisOk(r: Redis, tokens: set<Token>, maxAttempts: nat) {
    && StreamOk(r)
    && NothingLost(r)
    && StrandedOk(r)
    && LeasesOk(r, tokens)
    && ResultsOk(r, maxAttempts)
    && DeadLettersOk(r)
  }

  // How one command may change the server, seen from a worker that does not move.

  ghost predicate TasksEvolve(r: Redis, r': Redis) {
    forall task <- r.tasks ::
      task in r'.tasks
      && r'.tasks[task].payload == r.tasks[task].payload
      && r.tasks[task].attempts <= r'.tasks[task].attempts
      && (Terminal(r.tasks[task]) ==> r'.tasks[task] == r.tasks[task])
  }

  ghost predicate MessagesEvolve(r: Redis, r': Redis) {
    && r.cursor <= r'.cursor
    && (forall id <- r'.stream :: id < r.cursor ==> id in r.stream && r'.stream[id] == r.stream[id])
    && (forall id <- r'.pending :: id < r.cursor ==> id in r.pending)
  }

  /** A lease is an old one whose task nobody claimed since, or it carries a new token. */
  ghost predicate LeasesEvolve(r: Redis, r': Redis, tokens: set<Token>) {
    forall task <- r'.leases ::
      r'.leases[task] !in tokens
      || (task in r.leases && task in r.tasks && task in r'.tasks
          && r'.leases[task] == r.leases[task] && r'.tasks[task].attempts == r.tasks[task].attempts)
  }

  ghost predicate Evolves(r: Redis, r': Redis, tokens: set<Token>) {
    TasksEvolve(r, r') && MessagesEvolve(r, r') && LeasesEvolve(r, r', tokens)
  }

  // ---- No task loses its last live entry

  lemma LiveEntryStable(r: Redis, r': Redis, task: TaskId, except: StreamId)
    requires HasLiveEntry(r, task) && StreamOk(r)
    requires except in r.stream ==> r.stream[except] != task
    requires forall id <- r.stream :: id != except ==> id in r'.stream && r'.stream[id] == r.stream[id]
    requires forall id <- r.pending :: id != except ==> id in r'.pending
    requires forall id <- r.stream :: id >= r.cursor && id != except ==> id >= r'.cursor || id in r'.pending
    ensures HasLiveEntry(r', task)
  {
    var id: StreamId :| id in r.stream && r.stream[id] == task && (id >= r.cursor || id in r.pending);
    assert id in r'.stream && r'.stream[id] == task && (id >= r'.cursor || id in r'.pending);
  }

  /** A step that removes at most the entry `except`, whose task is `of`, and finishes nothing else. */
  lemma NothingLostStable(r: Redis, r': Redis, except: StreamId, of: TaskId)
    requires NothingLost(r) && StreamOk(r)
    requires except in r.stream ==> r.stream[except] == of
    requires forall id <- r.stream :: id != except ==> id in r'.stream && r'.stream[id] == r.stream[id]
    requires forall id <- r.pending :: id != except ==> id in r'.pending
    requires forall id <- r.stream :: id >= r.cursor && id != except ==> id >= r'.cursor || id in r'.pending
    requires forall t <- r'.tasks :: t != of && !Terminal(r'.tasks[t]) ==> t in r.tasks && !Terminal(r.tasks[t])
    requires of in r'.tasks && !Terminal(r'.tasks[of]) ==> HasLiveEntry(r', of)
    ensures NothingLost(r')
  {
    forall t <- r'.tasks | !Terminal(r'.tasks[t]) ensures HasLiveEntry(r', t) {
      if t != of {
        LiveEntryStable(r, r', t, except);
      }
    }
  }

  /** A step that adds or reassigns messages and leaves the task table alone. */
  lemma NothingLostQuiet(r: Redis, r': Redis)
    requires NothingLost(r) && StreamOk(r)
    requires forall id <- r.stream :: id in r'.stream && r'.stream[id] == r.stream[id]
    requires forall id <- r.pending :: id in r'.pending
    requires forall id <- r.stream :: id >= r.cursor ==> id >= r'.cursor || id in r'.pending
    requires forall t <- r'.tasks :: !Terminal(r'.tasks[t]) ==> t in r.tasks && !Terminal(r.tasks[t])
    ensures NothingLost(r')
  {
    forall t <- r'.tasks | !Terminal(r'.tasks[t]) ensures HasLiveEntry(r', t) {
      LiveEntryStable(r, r', t, r.nextId);
    }
  }

  // ---- Enqueue

  lemma EnqueueStream(r: Redis, capacity: nat, task: TaskId, payload: Payload)
    requires StreamOk(r)
    ensures var r' := EnqueueScript(r, capacity, task, payload).0;
            StreamOk(r') && MessagesEvolve(r, r')
  {
  }

  lemma EnqueueLeases(r: Redis, capacity: nat, task: TaskId, payload: Payload, tokens: set<Token>)
    requires LeasesOk(r, tokens) && task !in r.tasks
    ensures var r' := EnqueueScript(r, capacity, task, payload).0;
            LeasesOk(r', tokens) && TasksEvolve(r, r') && LeasesEvolve(r, r', tokens)
  {
  }

  lemma EnqueueLosesNothing(r: Redis, capacity: nat, task: TaskId, payload: Payload)
    requires StreamOk(r) && NothingLost(r) && task !in r.tasks
    ensures NothingLost(EnqueueScript(r, capacity, task, payload).0)
  {
    var r' := EnqueueScript(r, capacity, task, payload).0;
    if |r.stream| < capacity {
      assert r'.stream[r.nextId] == task;
      assert HasLiveEntry(r', task);
      NothingLostStable(r, r', r.nextId, task);
    }
  }

  lemma EnqueueStrands(r: Redis, capacity: nat, task: TaskId, payload: Payload)
    requires StreamOk(r) && StrandedOk(r) && task !in r.tasks
    ensures StrandedOk(EnqueueScript(r, capacity, task, payload).0)
  {
  }

  lemma EnqueueOutcomes(r: Redis, capacity: nat, task: TaskId, payload: Payload, max: nat)
    requires ResultsOk(r, max) && DeadLettersOk(r) && task !in r.tasks
    ensures var r' := EnqueueScript(r, capacity, task, payload).0;
            ResultsOk(r', max) && DeadLettersOk(r')
  {
    var r' := EnqueueScript(r, capacity, task, payload).0;
    assert forall t :: HasFailed(r', t) == HasFailed(r, t);
  }

  lemma EnqueueKeeps(r: Redis, capacity: nat, task: TaskId, payload: Payload, tokens: set<Token>, max: nat)
    requires RedisOk(r, tokens, max) && task !in r.tasks
    ensures var r' := EnqueueScript(r, capacity, task, payload).0;
            RedisOk(r', tokens, max) && Evolves(r, r', tokens)
  {
    hide StreamOk, NothingLost, StrandedOk, LeasesOk, ResultsOk, DeadLettersOk, TasksEvolve, MessagesEvolve,
         LeasesEvolve, EnqueueScript;
    EnqueueStream(r, capacity, task, payload);
    EnqueueLeases(r, capacity, task, payload, tokens);
    EnqueueLosesNothing(r, capacity, task, payload);
    EnqueueStrands(r, capacity, task, payload);
    EnqueueOutcomes(r, capacity, task, payload, max);
  }

  // ---- Delivery

  /** The commands that touch neither tasks nor dead letters. */
  lemma OutcomesQuiet(r: Redis, r': Redis, max: nat)
    requires ResultsOk(r, max) && DeadLettersOk(r) && r'.tasks == r.tasks && r'.dead == r.dead
    ensures ResultsOk(r', max) && DeadLettersOk(r')
  {
    assert forall t :: HasFailed(r', t) == HasFailed(r, t);
  }

  lemma ReadGroupStream(r: Redis, consumer: Consumer, tokens: set<Token>)
    requires StreamOk(r) && LeasesOk(r, tokens)
    ensures var (r', message) := XReadGroup(r, consumer);
            StreamOk(r') && LeasesOk(r', tokens) && Evolves(r, r', tokens)
            && (message.Some? ==> EntryOk(r', message.value))
  {
  }

  lemma ReadGroupStrands(r: Redis, consumer: Consumer)
    requires StreamOk(r) && StrandedOk(r)
    ensures StrandedOk(XReadGroup(r, consumer).0)
  {
  }

  lemma ReadGroupKeeps(r: Redis, consumer: Consumer, tokens: set<Token>, max: nat)
    requires RedisOk(r, tokens, max)
    ensures var (r', message) := XReadGroup(r, consumer);
            RedisOk(r', tokens, max) && Evolves(r, r', tokens)
            && (message.Some? ==> EntryOk(r', message.value))
  {
    hide LeasesOk, NothingLost, StrandedOk, ResultsOk, DeadLettersOk, Evolves, EntryOk;
    var r' := XReadGroup(r, consumer).0;
    ReadGroupStream(r, consumer, tokens);
    ReadGroupStrands(r, consumer);
    NothingLostQuiet(r, r');
    OutcomesQuiet(r, r', max);
  }

  lemma AutoClaimStream(r: Redis, consumer: Consumer, ids: seq<StreamId>, tokens: set<Token>)
    requires StreamOk(r) && LeasesOk(r, tokens) && Claimable(r, ids)
    ensures var r' := XAutoClaim(r, consumer, ids);
            StreamOk(r') && LeasesOk(r', tokens) && Evolves(r, r', tokens)
            && forall e <- EntriesOf(r, ids) :: EntryOk(r', e)
  {
    var r', entries := XAutoClaim(r, consumer, ids), EntriesOf(r, ids);
    forall e <- entries ensures EntryOk(r', e) {
      var i :| 0 <= i < |entries| && entries[i] == e;
      assert ids[i] in ids;
    }
  }

  lemma AutoClaimStrands(r: Redis, consumer: Consumer, ids: seq<StreamId>)
    requires StrandedOk(r) && Claimable(r, ids)
    ensures StrandedOk(XAutoClaim(r, consumer, ids))
  {
    var r' := XAutoClaim(r, consumer, ids);
    assert forall id :: Stranded(r', id) <==> Stranded(r, id);
  }

  lemma AutoClaimKeeps(r: Redis, consumer: Consumer, ids: seq<StreamId>, tokens: set<Token>, max: nat)
    requires RedisOk(r, tokens, max) && Claimable(r, ids)
    ensures var r' := XAutoClaim(r, consumer, ids);
            RedisOk(r', tokens, max) && Evolves(r, r', tokens)
            && forall e <- EntriesOf(r, ids) :: EntryOk(r', e)
  {
    hide LeasesOk, NothingLost, StrandedOk, ResultsOk, DeadLettersOk, Evolves, EntryOk;
    var r' := XAutoClaim(r, consumer, ids);
    AutoClaimStream(r, consumer, ids, tokens);
    AutoClaimStrands(r, consumer, ids);
    NothingLostQuiet(r, r');
    OutcomesQuiet(r, r', max);
  }

  lemma AckKeeps(r: Redis, e: Entry, tokens: set<Token>, max: nat)
    requires RedisOk(r, tokens, max) && EntryOk(r, e) && Terminal(r.tasks[e.task])
    ensures RedisOk(XAck(r, e.id), tokens, max) && Evolves(r, XAck(r, e.id), tokens)
  {
    hide NothingLost, ResultsOk, DeadLettersOk;
    NothingLostStable(r, XAck(r, e.id), e.id, e.task);
    OutcomesQuiet(r, XAck(r, e.id), max);
  }

  lemma DelKeeps(r: Redis, e: Entry, tokens: set<Token>, max: nat)
    requires RedisOk(r, tokens, max) && EntryOk(r, e) && Terminal(r.tasks[e.task]) && e.id !in r.pending
    ensures RedisOk(XDel(r, e.id), tokens, max) && Evolves(r, XDel(r, e.id), tokens)
  {
    hide NothingLost, ResultsOk, DeadLettersOk;
    NothingLostStable(r, XDel(r, e.id), e.id, e.task);
    OutcomesQuiet(r, XDel(r, e.id), max);
  }

  // ---- Leases

  lemma ExpireKeeps(r: Redis, task: TaskId, tokens: set<Token>, max: nat)
    requires RedisOk(r, tokens, max)
    ensures var r' := r.(leases := r.leases - {task});
            RedisOk(r', tokens, max) && Evolves(r, r', tokens)
  {
    hide NothingLost, ResultsOk, DeadLettersOk;
    var r' := r.(leases := r.leases - {task});
    NothingLostQuiet(r, r');
    OutcomesQuiet(r, r', max);
  }

  lemma ClaimOutcomes(r: Redis, task: TaskId, token: Token, max: nat)
    requires ResultsOk(r, max) && DeadLettersOk(r) && task in r.tasks
    ensures var r' := ClaimScript(r, task, token).0;
            ResultsOk(r', max) && DeadLettersOk(r')
  {
    var r' := ClaimScript(r, task, token).0;
    assert forall t :: HasFailed(r', t) == HasFailed(r, t);
  }

  lemma ClaimStrands(r: Redis, task: TaskId, token: Token)
    requires StrandedOk(r) && task in r.tasks
    ensures StrandedOk(ClaimScript(r, task, token).0)
  {
  }

  lemma ClaimLosesNothing(r: Redis, task: TaskId, token: Token)
    requires NothingLost(r) && StreamOk(r) && task in r.tasks
    ensures NothingLost(ClaimScript(r, task, token).0)
  {
    NothingLostQuiet(r, ClaimScript(r, task, token).0);
  }

  lemma ClaimLeases(r: Redis, task: TaskId, token: Token, tokens: set<Token>)
    requires LeasesOk(r, tokens) && task in r.tasks && token !in tokens
    ensures var r' := ClaimScript(r, task, token).0;
            LeasesOk(r', tokens + {token}) && LeasesEvolve(r, r', tokens)
  {
  }

  lemma ClaimTasks(r: Redis, task: TaskId, token: Token)
    requires StreamOk(r) && task in r.tasks
    ensures var r' := ClaimScript(r, task, token).0;
            StreamOk(r') && TasksEvolve(r, r') && MessagesEvolve(r, r')
  {
  }

  lemma ClaimKeeps(r: Redis, task: TaskId, token: Token, tokens: set<Token>, max: nat)
    requires RedisOk(r, tokens, max) && task in r.tasks && token !in tokens
    ensures var r' := ClaimScript(r, task, token).0;
            RedisOk(r', tokens + {token}, max) && Evolves(r, r', tokens)
  {
    hide StreamOk, NothingLost, StrandedOk, ResultsOk, DeadLettersOk, TasksEvolve, MessagesEvolve, LeasesEvolve,
         ClaimScript;
    ClaimOutcomes(r, task, token, max);
    ClaimLosesNothing(r, task, token);
    ClaimStrands(r, task, token);
    ClaimLeases(r, task, token, tokens);
    ClaimTasks(r, task, token);
  }

  // ---- Complete

  lemma CompleteOutcomes(r: Redis, e: Entry, token: Token, result: TaskResult, max: nat)
    requires ResultsOk(r, max) && DeadLettersOk(r) && e.task in r.tasks
    requires HoldsLease(r, e.task, token) ==> r.tasks[e.task].status == Running
    ensures var r' := CompleteScript(r, e.task, token, result, e.id).0;
            ResultsOk(r', max) && DeadLettersOk(r')
  {
    var r' := CompleteScript(r, e.task, token, result, e.id).0;
    assert forall t :: HasFailed(r', t) == HasFailed(r, t);
  }

  lemma CompleteLosesNothing(r: Redis, e: Entry, token: Token, result: TaskResult)
    requires NothingLost(r) && StreamOk(r) && EntryOk(r, e)
    ensures NothingLost(CompleteScript(r, e.task, token, result, e.id).0)
  {
    if HoldsLease(r, e.task, token) {
      NothingLostStable(r, CompleteScript(r, e.task, token, result, e.id).0, e.id, e.task);
    }
  }

  lemma CompleteStrands(r: Redis, e: Entry, token: Token, result: TaskResult)
    requires StrandedOk(r) && e.task in r.tasks
    ensures StrandedOk(CompleteScript(r, e.task, token, result, e.id).0)
  {
  }

  lemma CompleteStream(r: Redis, e: Entry, token: Token, result: TaskResult)
    requires StreamOk(r) && e.task in r.tasks
    ensures var r' := CompleteScript(r, e.task, token, result, e.id).0;
            StreamOk(r') && MessagesEvolve(r, r')
  {
  }

  lemma CompleteLeases(r: Redis, e: Entry, token: Token, result: TaskResult, tokens: set<Token>)
    requires LeasesOk(r, tokens) && e.task in r.tasks
    ensures var r' := CompleteScript(r, e.task, token, result, e.id).0;
            LeasesOk(r', tokens) && TasksEvolve(r, r') && LeasesEvolve(r, r', tokens)
  {
  }

  lemma CompleteKeeps(r: Redis, e: Entry, token: Token, result: TaskResult, tokens: set<Token>, max: nat)
    requires RedisOk(r, tokens, max) && EntryOk(r, e)
    ensures var r' := CompleteScript(r, e.task, token, result, e.id).0;
            RedisOk(r', tokens, max) && Evolves(r, r', tokens)
  {
    hide StreamOk, NothingLost, StrandedOk, ResultsOk, DeadLettersOk, TasksEvolve, MessagesEvolve, LeasesEvolve,
         CompleteScript;
    CompleteOutcomes(r, e, token, result, max);
    CompleteLosesNothing(r, e, token, result);
    CompleteStrands(r, e, token, result);
    CompleteStream(r, e, token, result);
    CompleteLeases(r, e, token, result, tokens);
  }

  // ---- Fail

  lemma FailResults(r: Redis, e: Entry, token: Token, attempts: nat, error: string, max: nat)
    requires ResultsOk(r, max) && e.task in r.tasks
    requires HoldsLease(r, e.task, token) ==>
               r.tasks[e.task].status == Running && r.tasks[e.task].attempts == attempts
    ensures ResultsOk(FailScript(r, max, e.task, token, attempts, error, e.id).0, max)
  {
  }

  lemma FailDeadLetters(r: Redis, e: Entry, token: Token, attempts: nat, error: string, max: nat)
    requires DeadLettersOk(r) && e.task in r.tasks
    requires HoldsLease(r, e.task, token) ==> r.tasks[e.task].status == Running
    ensures DeadLettersOk(FailScript(r, max, e.task, token, attempts, error, e.id).0)
  {
    var r' := FailScript(r, max, e.task, token, attempts, error, e.id).0;
    assert forall t | t != e.task :: HasFailed(r', t) == HasFailed(r, t);
  }

  lemma FailLosesNothing(r: Redis, e: Entry, token: Token, attempts: nat, error: string, max: nat)
    requires NothingLost(r) && StreamOk(r) && EntryOk(r, e)
    ensures NothingLost(FailScript(r, max, e.task, token, attempts, error, e.id).0)
  {
    var r' := FailScript(r, max, e.task, token, attempts, error, e.id).0;
    if HoldsLease(r, e.task, token) {
      if attempts < max {
        assert r'.stream[r.nextId] == e.task;
        assert HasLiveEntry(r', e.task);
      }
      NothingLostStable(r, r', e.id, e.task);
    }
  }

  lemma FailStrands(r: Redis, e: Entry, token: Token, attempts: nat, error: string, max: nat)
    requires StreamOk(r) && StrandedOk(r) && e.task in r.tasks
    requires HoldsLease(r, e.task, token) ==> r.tasks[e.task].status == Running
    ensures StrandedOk(FailScript(r, max, e.task, token, attempts, error, e.id).0)
  {
  }

  lemma FailStream(r: Redis, e: Entry, token: Token, attempts: nat, error: string, max: nat)
    requires StreamOk(r) && e.task in r.tasks
    ensures var r' := FailScript(r, max, e.task, token, attempts, error, e.id).0;
            StreamOk(r') && MessagesEvolve(r, r')
  {
  }

  lemma FailTasks(r: Redis, e: Entry, token: Token, attempts: nat, error: string, max: nat)
    requires e.task in r.tasks
    requires HoldsLease(r, e.task, token) ==> r.tasks[e.task].status == Running
    ensures TasksEvolve(r, FailScript(r, max, e.task, token, attempts, error, e.id).0)
  {
  }

  lemma FailLeases(r: Redis, e: Entry, token: Token, attempts: nat, error: string, tokens: set<Token>, max: nat)
    requires LeasesOk(r, tokens)
    ensures LeasesOk(FailScript(r, max, e.task, token, attempts, error, e.id).0, tokens)
  {
  }

  lemma FailMovesLeases(r: Redis, e: Entry, token: Token, attempts: nat, error: string, tokens: set<Token>, max: nat)
    requires LeasesOk(r, tokens)
    ensures LeasesEvolve(r, FailScript(r, max, e.task, token, attempts, error, e.id).0, tokens)
  {
  }

  lemma FailKeeps(r: Redis, e: Entry, token: Token, attempts: nat, error: string, tokens: set<Token>, max: nat)
    requires RedisOk(r, tokens, max) && EntryOk(r, e)
    requires HoldsLease(r, e.task, token) ==> r.tasks[e.task].attempts == attempts
    ensures var r' := FailScript(r, max, e.task, token, attempts, error, e.id).0;
            RedisOk(r', tokens, max) && Evolves(r, r', tokens)
  {
    hide StreamOk, NothingLost, StrandedOk, ResultsOk, DeadLettersOk, TasksEvolve, MessagesEvolve, LeasesEvolve,
         FailScript;
    FailResults(r, e, token, attempts, error, max);
    FailDeadLetters(r, e, token, attempts, error, max);
    FailLosesNothing(r, e, token, attempts, error, max);
    FailStrands(r, e, token, attempts, error, max);
    FailStream(r, e, token, attempts, error, max);
    FailTasks(r, e, token, attempts, error, max);
    FailLeases(r, e, token, attempts, error, tokens, max);
    FailMovesLeases(r, e, token, attempts, error, tokens, max);
  }

  // ---- What the callers are told

  /** complete commits and fail retries exactly for the holder of the lease, fail only below the limit. */
  lemma LeaseDecides(r: Redis, max: nat, task: TaskId, token: Token, result: TaskResult, attempts: nat, error: string,
                     id: StreamId)
    ensures var holds := task in r.leases && r.leases[task] == token;
            && (CompleteScript(r, task, token, result, id).1 <==> holds)
            && (FailScript(r, max, task, token, attempts, error, id).1 <==> holds && attempts < max)
  {
  }

  /** claim answers by what it finds: a finished task, somebody's lease, or nothing in the way. */
  lemma ClaimAnswers(r: Redis, task: TaskId, token: Token)
    ensures var (r', answer) := ClaimScript(r, task, token);
            if task in r.tasks && (r.tasks[task].status == Done || r.tasks[task].status == Failed)
            then answer == -1 && r' == r
            else if task in r.leases then answer == 0 && r' == r
            else
              && answer == 1 + (if task in r.tasks then r.tasks[task].attempts else 0)
              && task in r'.leases && r'.leases[task] == token
              && task in r'.tasks && r'.tasks[task].attempts == answer && r'.tasks[task].status == Running
              && (if task in r.tasks
                  then r'.tasks[task] == r.tasks[task].(attempts := answer, status := Running)
                  else r'.tasks[task].payload == NoPayload && r'.tasks[task].result.None? && r'.tasks[task].error == "")
  {
  }

  /** Delivery and recovery assign messages to the worker that asked, and to nobody else. */
  lemma MessagesAreAssigned(r: Redis, consumer: Consumer, ids: seq<StreamId>)
    requires Claimable(r, ids)
    ensures var r' := XAutoClaim(r, consumer, ids);
            && r'.pending.Keys == r.pending.Keys
            && forall id <- r.pending :: r'.pending[id] == if id in ids then consumer else r.pending[id]
    ensures var (r', message) := XReadGroup(r, consumer);
            if message.None? then r' == r
            else r'.pending == r.pending[message.value.id := consumer]
  {
  }

  /** Of the recovered messages as many as fit are queued, in their order; a full queue takes none. */
  lemma PutsWhatFits(queue: seq<Entry>, entries: seq<Entry>, capacity: nat)
    ensures var room := if |queue| < capacity then capacity - |queue| else 0;
            PutAll(queue, entries, capacity) == queue + entries[..if |entries| < room then |entries| else room]
  {
    assert queue + entries[..0] == queue && entries[..|entries|] == entries;
  }
}
