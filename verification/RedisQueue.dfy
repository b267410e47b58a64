/**
  The Redis side of the learning-task queue (agentic_rag/task_queue.py).

  The pure functions say what one Redis command or one Lua script does to the whole
  server state; the class RedisServer performs the same scripts as in-place updates
  and is proved against them. Every script is one atomic step.
 */
module RedisQueue {
  import opened Wrappers
  import opened MemoryStore

  type TaskId = string
  type Token = string      // the hex of a uuid4; "" stands for an item without a lease token
  type Consumer = string
  type StreamId = nat

  datatype Status = Queued | Running | Done | Failed

  /** What a task asks for. */
  datatype Payload = MistakeArchive(memory: Memory) | OtherKind(kind: string) | NoPayload

  datatype TaskResult = Archived(memoryId: Option<nat>) | Report(body: string)

  datatype TaskHash = TaskHash(payload: Payload, status: Status, attempts: nat,
                               result: Option<TaskResult>, error: string)

  /** One delivered stream message, as a worker holds it. */
  datatype Entry = Entry(id: StreamId, task: TaskId)

  predicate Terminal(h: TaskHash) {
    h.status == Done || h.status == Failed
  }

  /**
    stream:  the entries not yet deleted; ids are handed out from nextId on and never reused
    cursor:  ids from cursor on have not been delivered to the consumer group
    pending: the group's pending-entries list, with the consumer each entry is assigned to
    tasks:   the task hashes
    leases:  the lease keys that have not expired
    dead:    every task id ever appended to the dead-letter stream
   */
  datatype Redis = Redis(stream: map<StreamId, TaskId>, nextId: StreamId, cursor: StreamId,
                         pending: map<StreamId, Consumer>, tasks: map<TaskId, TaskHash>,
                         leases: map<TaskId, Token>, dead: seq<TaskId>)

  const EMPTY := Redis(map[], 0, 0, map[], map[], map[], [])

  predicate HoldsLease(r: Redis, task: TaskId, token: Token) {
    task in r.leases && r.leases[task] == token
  }

  // ---- The commands

  function XAdd(r: Redis, task: TaskId): Redis {
    r.(stream := r.stream[r.nextId := task], nextId := r.nextId + 1)
  }

  function XAck(r: Redis, id: StreamId): Redis {
    r.(pending := r.pending - {id})
  }

  function XDel(r: Redis, id: StreamId): Redis {
    r.(stream := r.stream - {id})
  }

  /** The least entry id in [from, until), the message XREADGROUP delivers next. */
  function FirstEntry(stream: map<StreamId, TaskId>, from: StreamId, until: StreamId): (id: Option<StreamId>)
    ensures id.Some? ==> from <= id.value < until && id.value in stream
    ensures id.Some? ==> forall k | from <= k < id.value :: k !in stream
    ensures id.None? ==> forall k | from <= k < until :: k !in stream
    decreases until - from
  {
    if from >= until then None
    else if from in stream then Some(from)
    else FirstEntry(stream, from + 1, until)
  }

  function XReadGroup(r: Redis, consumer: Consumer): (Redis, Option<Entry>) {
    match FirstEntry(r.stream, r.cursor, r.nextId)
    case None => (r, None)
    case Some(id) =>
      (r.(cursor := id + 1, pending := r.pending[id := consumer]), Some(Entry(id, r.stream[id])))
  }

  /** XAUTOCLAIM hands the consumer those pending entries that sat idle long enough. */
  predicate Claimable(r: Redis, ids: seq<StreamId>) {
    |ids| <= 100 && forall id <- ids :: id in r.pending && id in r.stream
  }

  function XAutoClaim(r: Redis, consumer: Consumer, ids: seq<StreamId>): Redis
    requires Claimable(r, ids)
  {
    r.(pending := map id | id in r.pending :: if id in ids then consumer else r.pending[id])
  }

  function EntriesOf(r: Redis, ids: seq<StreamId>): (entries: seq<Entry>)
    requires Claimable(r, ids)
    ensures |entries| == |ids|
    ensures forall i | 0 <= i < |ids| :: entries[i] == Entry(ids[i], r.stream[ids[i]])
  {
    seq(|ids|, i requires 0 <= i < |ids| => Entry(ids[i], r.stream[ids[i]]))
  }

  // ---- The Lua scripts

  function EnqueueScript(r: Redis, capacity: nat, task: TaskId, payload: Payload): (Redis, bool) {
    if |r.stream| >= capacity then (r, false)
    else
      var h := TaskHash(payload, Queued, 0, None, "");
      (XAdd(r.(tasks := r.tasks[task := h]), task), true)
  }

  /** The hash that HSET and HINCRBY fill in; a key that does not exist is an empty hash. */
  function HashOf(tasks: map<TaskId, TaskHash>, task: TaskId): TaskHash {
    if task in tasks then tasks[task] else TaskHash(NoPayload, Queued, 0, None, "")
  }

  /** -1: the task is finished; 0: somebody holds the lease; otherwise the attempt number. */
  function ClaimScript(r: Redis, task: TaskId, token: Token): (Redis, int) {
    var h := HashOf(r.tasks, task);
    if Terminal(h) then (r, -1)
    else if task in r.leases then (r, 0)
    else
      var h' := h.(attempts := h.attempts + 1, status := Running);
      (r.(tasks := r.tasks[task := h'], leases := r.leases[task := token]), h.attempts + 1)
  }

  function CompleteScript(r: Redis, task: TaskId, token: Token, result: TaskResult, id: StreamId): (Redis, bool) {
    if !HoldsLease(r, task, token) then (r, false)
    else
      var h := HashOf(r.tasks, task).(status := Done, result := Some(result));
      (XDel(XAck(r.(tasks := r.tasks[task := h], leases := r.leases - {task}), id), id), true)
  }

  /** fail(): the attempt number the worker holds decides between retry and dead letter. */
  function FailScript(r: Redis, maxAttempts: nat, task: TaskId, token: Token, attempts: nat,
                      error: string, id: StreamId): (Redis, bool)
  {
    if !HoldsLease(r, task, token) then (r, false)
    else
      var retry := attempts < maxAttempts;
      var text := if |error| <= 500 then error else error[..500];
      var h := HashOf(r.tasks, task).(status := if retry then Queued else Failed, error := text);
      var r1 := r.(tasks := r.tasks[task := h], leases := r.leases - {task});
      var r2 := if retry then XAdd(r1, task) else r1.(dead := r1.dead + [task]);
      (XDel(XAck(r2, id), id), retry)
  }

  /** The server, updated in place by the scripts. */
  class RedisServer {
    var stream: map<StreamId, TaskId>
    var nextId: StreamId
    var cursor: StreamId
    var pending: map<StreamId, Consumer>
    var tasks: map<TaskId, TaskHash>
    var leases: map<TaskId, Token>
    var dead: seq<TaskId>

    ghost function State(): Redis
      reads this
    {
      Redis(stream, nextId, cursor, pending, tasks, leases, dead)
    }

    constructor ()
      ensures State() == EMPTY
    {
      stream, nextId, cursor, pending := map[], 0, 0, map[];
      tasks, leases, dead := map[], map[], [];
    }

    method Enqueue(capacity: nat, task: TaskId, payload: Payload) returns (accepted: bool)
      modifies this
      ensures (State(), accepted) == EnqueueScript(old(State()), capacity, task, payload)
    {
      if |stream| >= capacity {
        return false;
      }
      tasks := tasks[task := TaskHash(payload, Queued, 0, None, "")];
      stream := stream[nextId := task];
      nextId := nextId + 1;
      return true;
    }

    method Claim(task: TaskId, token: Token) returns (attempts: int)
      modifies this
      ensures (State(), attempts) == ClaimScript(old(State()), task, token)
    {
      var h := HashOf(tasks, task);
      if h.status == Done || h.status == Failed {
        return -1;
      }
      if task in leases {
        return 0;
      }
      leases := leases[task := token];
      tasks := tasks[task := h.(attempts := h.attempts + 1)];
      tasks := tasks[task := tasks[task].(status := Running)];
      assert tasks == old(tasks)[task := h.(attempts := h.attempts + 1, status := Running)];
      return tasks[task].attempts;
    }

    method Complete(task: TaskId, token: Token, result: TaskResult, id: StreamId) returns (committed: bool)
      modifies this
      ensures (State(), committed) == CompleteScript(old(State()), task, token, result, id)
    {
      if task !in leases || leases[task] != token {
        return false;
      }
      tasks := tasks[task := HashOf(tasks, task).(status := Done, result := Some(result))];
      leases := leases - {task};
      pending := pending - {id};
      stream := stream - {id};
      return true;
    }

    method Fail(maxAttempts: nat, task: TaskId, token: Token, attempts: nat, error: string, id: StreamId)
      returns (retry: bool)
      modifies this
      ensures (State(), retry) == FailScript(old(State()), maxAttempts, task, token, attempts, error, id)
    {
      retry := attempts < maxAttempts;
      var status := if retry then Queued else Failed;
      if task !in leases || leases[task] != token {
        return false;
      }
      var text := if |error| <= 500 then error else error[..500];
      tasks := tasks[task := HashOf(tasks, task).(status := status, error := text)];
      leases := leases - {task};
      if status == Queued {
        stream := stream[nextId := task];
        nextId := nextId + 1;
      } else {
        dead := dead + [task];
      }
      pending := pending - {id};
      stream := stream - {id};
    }

    /** XREADGROUP ... '>' with COUNT 1: scan forward to the first undelivered entry. */
    method ReadGroup(consumer: Consumer) returns (message: Option<Entry>)
      requires cursor <= nextId
      modifies this
      ensures (State(), message) == XReadGroup(old(State()), consumer)
    {
      var id := cursor;
      while id < nextId && id !in stream
        invariant cursor <= id <= nextId
        invariant FirstEntry(stream, cursor, nextId) == FirstEntry(stream, id, nextId)
      {
        id := id + 1;
      }
      if id == nextId {
        return None;
      }
      cursor := id + 1;
      pending := pending[id := consumer];
      return Some(Entry(id, stream[id]));
    }
  }

  // ---- The worker's in-process queue of recovered messages

  /** put_nowait in a loop: messages that do not fit stay pending in Redis. */
  function PutAll(queue: seq<Entry>, entries: seq<Entry>, capacity: nat): (queue': seq<Entry>)
    ensures queue <= queue'
    ensures forall e <- queue' :: e in queue || e in entries
  {
    if |queue| >= capacity then queue
    else if |queue| + |entries| <= capacity then queue + entries
    else queue + entries[..capacity - |queue|]
  }

  const RECOVERED_CAPACITY: nat := 10_000

  /** One worker process's view: the module-level queue of task_queue.py. */
  class QueueClient {
    const server: RedisServer
    const name: Consumer
    var recovered: seq<Entry>

    constructor (server: RedisServer, name: Consumer)
      ensures this.server == server && this.name == name && recovered == []
    {
      this.server := server;
      this.name := name;
      recovered := [];
    }

    /** next_item(): a recovered message first, then a new one from the stream. */
    method NextItem() returns (item: Option<Entry>)
      requires server.cursor <= server.nextId
      modifies this, server
      ensures old(recovered) != [] ==>
                item == Some(old(recovered)[0]) && recovered == old(recovered)[1..]
                && server.State() == old(server.State())
      ensures old(recovered) == [] ==>
                recovered == [] && (server.State(), item) == XReadGroup(old(server.State()), name)
    {
      if recovered != [] {
        item := Some(recovered[0]);
        recovered := recovered[1..];
      } else {
        item := server.ReadGroup(name);
      }
    }

    /** recover_stale_claims(): ids are the idle entries XAUTOCLAIM picked. */
    method RecoverStaleClaims(ids: seq<StreamId>) returns (count: nat)
      requires Claimable(server.State(), ids)
      modifies this, server
      ensures server.State() == XAutoClaim(old(server.State()), name, ids)
      ensures recovered == PutAll(old(recovered), EntriesOf(old(server.State()), ids), RECOVERED_CAPACITY)
      ensures count == |ids|
    {
      ghost var entries := EntriesOf(server.State(), ids);
      ghost var before := recovered;
      server.pending := map id | id in server.pending :: if id in ids then name else server.pending[id];
      for i := 0 to |ids|
        invariant server.State() == XAutoClaim(old(server.State()), name, ids)
        invariant recovered == PutAll(before, entries[..i], RECOVERED_CAPACITY)
      {
        assert entries[..i + 1] == entries[..i] + [entries[i]];
        if |recovered| < RECOVERED_CAPACITY {
          recovered := recovered + [Entry(ids[i], server.stream[ids[i]])];
        }
      }
      assert entries[..|ids|] == entries;
      return |ids|;
    }
  }
}
