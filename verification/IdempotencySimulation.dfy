/**
  The two-map backend and the Redis backend side by side over whole interleavings of handlers: when
  the second can follow every step of the first and stays in the same state, and when it cannot.
 */
module IdempotencySimulation {
  import opened Wrappers
  import opened Idempotency
  import opened IdempotencyRuns

  /**
    An in-flight key is a miss for the look-up of the maps, which refuse at the reserve; Redis refuses
    at the look-up already. So a handler may have its answer from Redis, a conflict or in progress, while
    the maps have not answered it yet. Once both have answered, the answers are the same.
   */
  predicate SamePhase(local: Phase, remote: Phase) {
    || local == remote
    || (local.Owning? && remote.Owning?)
    || (local.Missed? && remote.Left? && remote.told in {Some(Conflict), Some(InProgress)})
  }

  ghost predicate SameCell(l: System, r: System, key: Key) {
    Erase(CellAt(l, key)) == Erase(CellAt(r, key))
  }

  ghost predicate SameHandler(l: System, r: System, h: string)
    requires h in l.handlers && h in r.handlers
  {
    && l.handlers[h].key == r.handlers[h].key && l.handlers[h].fingerprint == r.handlers[h].fingerprint
    && SamePhase(l.handlers[h].phase, r.handlers[h].phase)
  }

  ghost predicate Agree(l: System, r: System) {
    && l.store.Maps? && r.store.Cells? && l.now == r.now && l.ttl == r.ttl
    && l.handlers.Keys == r.handlers.Keys
    && (forall h <- l.handlers :: SameHandler(l, r, h))
    && (forall key :: SameCell(l, r, key))
  }

  /** A handler that left on Redis has no reserve to make. */
  predicate Done(r: System, step: Step) {
    step.Reserve? && At(r, step.h).Left?
  }

  predicate CanFollow(r: System, step: Step) {
    Done(r, step) || Enabled(r, step)
  }

  /** The second look-up of a reserve that Redis refused follows at once. */
  function Follow(r: System, step: Step): System
    requires CanFollow(r, step)
  {
    if Done(r, step) then r
    else
      var r' := Apply(r, step);
      if step.Reserve? && At(r', step.h).Refused? then Apply(r', Recheck(step.h)) else r'
  }

  /** The fingerprint under which the maps hold a key; a record still counts when it has expired. */
  function Held(l: Local, key: Key): Option<string> {
    if key in l.items then Some(l.items[key].fingerprint)
    else if key in l.inflight then Some(l.inflight[key].fingerprint)
    else None
  }

  /**
    What keeps the backends together. A lease does not lapse, as it never does on the maps. When Redis
    refused a handler at the look-up, then at its reserve the maps still hold the key, and under the
    fingerprint of the request if and only if Redis answered in progress. Otherwise no expired record,
    which a reserve of the maps does not purge, is in the way of the reserve of a free key.
   */
  ghost predicate Smooth(l: System, r: System, step: Step)
    requires l.store.Maps?
  {
    match step
    case Tick(elapsed) =>
      forall key :: CellAt(r, key).InFlight? ==> Live(CellAt(r, key), r.now + elapsed).InFlight?
    case Reserve(h) =>
      h in l.handlers ==>
        var held := Held(l.store.local, l.handlers[h].key);
        if At(r, h).Left? then
          held.Some? && (held.value == l.handlers[h].fingerprint <==> At(r, h).told == Some(InProgress))
        else CellAt(l, l.handlers[h].key).Absent? ==> held.None?
    case _ => true
  }

  // ---- One step

  lemma GotoKeepsCells(s: System, h: string, phase: Phase)
    requires h in s.handlers
    ensures forall key :: CellAt(Goto(s, h, phase), key) == CellAt(s, key)
  {
  }

  /** Only the handler and the cell of its key move. */
  lemma MoveAgrees(l: System, r: System, l1: System, r1: System, h: string, local: Phase, remote: Phase)
    requires Agree(l, r) && h in l.handlers && h in r.handlers
    requires l1 == l.(store := l1.store) && l1.store.Maps? && OthersSame(l, l1, l.handlers[h].key)
    requires r1 == r.(store := r1.store) && r1.store.Cells? && OthersSame(r, r1, l.handlers[h].key)
    ensures Agree(Goto(l1, h, local), Goto(r1, h, remote))
       <==> SamePhase(local, remote) && SameCell(l1, r1, l.handlers[h].key)
  {
    hide CellAt, Erase;
    var l', r' := Goto(l1, h, local), Goto(r1, h, remote);
    GotoKeepsCells(l1, h, local);
    GotoKeepsCells(r1, h, remote);
    if SamePhase(local, remote) && SameCell(l1, r1, l.handlers[h].key) {
      forall g <- l'.handlers ensures SameHandler(l', r', g) {
        assert SameHandler(l, r, g);
      }
      forall key ensures SameCell(l', r', key) {
        assert SameCell(l, r, key);
      }
    }
    if Agree(l', r') {
      assert SameHandler(l', r', h) && SameCell(l', r', l.handlers[h].key);
    }
  }

  lemma AgreeAt(l: System, r: System, h: string)
    requires Agree(l, r) && h in l.handlers
    ensures h in r.handlers && SameHandler(l, r, h) && SameCell(l, r, l.handlers[h].key)
    ensures l.store.Maps? && r.store.Cells? && l.now == r.now && l.ttl == r.ttl
  {
  }

  /** The look-up of the maps passes over an in-flight key. */
  lemma LeaseIsMissed(l: System, key: Key, fingerprint: string)
    requires StoreOk(l.store) && l.store.Maps?
    ensures CellAt(l, key).InFlight? ==> Get(l, key, fingerprint).1 == Miss
  {
  }

  /** The look-up of Redis does not. */
  lemma LeaseIsSeen(r: System, key: Key, fingerprint: string)
    requires StoreOk(r.store) && r.store.Cells?
    ensures CellAt(r, key).InFlight? ==>
              Get(r, key, fingerprint).1 == if CellAt(r, key).fingerprint == fingerprint then Busy else Mismatch
  {
  }

  lemma LookAgrees(l: System, r: System, h: string)
    requires Inv(l) && Inv(r) && Agree(l, r) && Enabled(l, Look(h))
    ensures Enabled(r, Look(h)) && Agree(Apply(l, Look(h)), Apply(r, Look(h)))
  {
    hide Agree, HandlerOk, CellOk, OthersSame, CellAt;
    AgreeAt(l, r, h);
    var me := l.handlers[h];
    GetSeen(l, me.key, me.fingerprint);
    GetSeen(r, me.key, me.fingerprint);
    LeaseIsMissed(l, me.key, me.fingerprint);
    LeaseIsSeen(r, me.key, me.fingerprint);
    MoveAgrees(l, r, l.(store := Get(l, me.key, me.fingerprint).0), r.(store := Get(r, me.key, me.fingerprint).0), h,
               At(Apply(l, Look(h)), h), At(Apply(r, Look(h)), h));
  }

  function Refuse(held: string, fingerprint: string): Phase {
    Left(Some(if held != fingerprint then Conflict else InProgress))
  }

  lemma HeldSeen(l: System, key: Key)
    requires l.store.Maps?
    ensures !CellAt(l, key).Absent? ==> Held(l.store.local, key) == Some(CellAt(l, key).fingerprint)
  {
  }

  lemma MapsAnswer(l: System, key: Key, fingerprint: string, owner: string)
    requires l.store.Maps?
    ensures var held := Held(l.store.local, key);
            && Grab(l, key, fingerprint, owner).1 == held.None?
            && Grabbed(l, key, fingerprint, owner)
               == if held.None? then Owning(None) else Refuse(held.value, fingerprint)
  {
  }

  lemma RedisAnswers(r: System, h: string)
    requires Inv(r) && r.store.Cells? && Enabled(r, Reserve(h))
    ensures var r', me := Follow(r, Reserve(h)), r.handlers[h];
            && r' == Goto(r.(store := Grab(r, me.key, me.fingerprint, h).0), h, At(r', h))
            && Grab(r, me.key, me.fingerprint, h).1 == CellAt(r, me.key).Absent?
            && if CellAt(r, me.key).Absent? then At(r', h).Owning?
               else At(r', h) == Refuse(CellAt(r, me.key).fingerprint, me.fingerprint)
  {
    hide HandlerOk, CellOk;
  }

  lemma SameWhenFree(l: System, r: System, h: string)
    requires h in l.handlers && SameCell(l, r, l.handlers[h].key)
    ensures var c, d := CellAt(l, l.handlers[h].key), CellAt(r, l.handlers[h].key);
            c.Absent? == d.Absent? && (!c.Absent? ==> c.fingerprint == d.fingerprint)
  {
  }

  lemma DoneStays(r: System, h: string)
    requires h in r.handlers && At(r, h).Left?
    ensures Follow(r, Reserve(h)) == Goto(r, h, At(r, h))
  {
  }

  lemma SelfOthers(s: System, key: Key)
    ensures OthersSame(s, s, key)
  {
  }

  lemma ReserveAgrees(l: System, r: System, h: string)
    requires Inv(l) && Inv(r) && Agree(l, r) && Enabled(l, Reserve(h))
    ensures CanFollow(r, Reserve(h))
    ensures Agree(Apply(l, Reserve(h)), Follow(r, Reserve(h))) <==> Smooth(l, r, Reserve(h))
  {
    hide Agree, HandlerOk, CellOk, OthersSame, CellAt, Grab, Grabbed, Held, Follow;
    AgreeAt(l, r, h);
    var key, fingerprint := l.handlers[h].key, l.handlers[h].fingerprint;
    var l1 := l.(store := Grab(l, key, fingerprint, h).0);
    GrabSeen(l, key, fingerprint, h);
    HeldSeen(l, key);
    MapsAnswer(l, key, fingerprint, h);
    var local := Grabbed(l, key, fingerprint, h);
    if At(r, h).Left? {
      assert Follow(r, Reserve(h)) == Goto(r, h, At(r, h)) by { DoneStays(r, h); }
      SelfOthers(r, key);
      MoveAgrees(l, r, l1, r, h, local, At(r, h));
    } else {
      GrabSeen(r, key, fingerprint, h);
      RedisAnswers(r, h);
      SameWhenFree(l, r, h);
      MoveAgrees(l, r, l1, r.(store := Grab(r, key, fingerprint, h).0), h, local, At(Follow(r, Reserve(h)), h));
    }
  }

  lemma SaveAgrees(l: System, r: System, h: string, reply: Reply)
    requires Inv(l) && Inv(r) && Agree(l, r) && Enabled(l, Save(h, reply))
    ensures Enabled(r, Save(h, reply)) && Agree(Apply(l, Save(h, reply)), Apply(r, Save(h, reply)))
  {
    hide Agree, HandlerOk, CellOk, OthersSame, CellAt;
    AgreeAt(l, r, h);
    var key, fingerprint := l.handlers[h].key, l.handlers[h].fingerprint;
    PutSeen(l, key, fingerprint, h, reply);
    PutSeen(r, key, fingerprint, h, reply);
    MoveAgrees(l, r, l.(store := Put(l, key, fingerprint, h, reply)),
               r.(store := Put(r, key, fingerprint, h, reply)), h, Saved, Saved);
  }

  lemma ReleaseAgrees(l: System, r: System, h: string)
    requires Inv(l) && Inv(r) && Agree(l, r) && Enabled(l, Release(h))
    ensures Enabled(r, Release(h)) && Agree(Apply(l, Release(h)), Apply(r, Release(h)))
  {
    hide Agree, HandlerOk, CellOk, OthersSame, CellAt;
    AgreeAt(l, r, h);
    var key := l.handlers[h].key;
    DropSeen(l, key, h);
    DropSeen(r, key, h);
    MoveAgrees(l, r, l.(store := Drop(l, key, h)), r.(store := Drop(r, key, h)), h,
               Left(Some(Own)), Left(Some(Own)));
  }

  lemma ArriveAgrees(l: System, r: System, h: string, key: Key, fingerprint: string)
    requires Agree(l, r) && Enabled(l, Arrive(h, key, fingerprint))
    ensures Enabled(r, Arrive(h, key, fingerprint))
    ensures Agree(Apply(l, Arrive(h, key, fingerprint)), Apply(r, Arrive(h, key, fingerprint)))
  {
    var l', r' := Apply(l, Arrive(h, key, fingerprint)), Apply(r, Arrive(h, key, fingerprint));
    forall g <- l'.handlers ensures SameHandler(l', r', g) {
      assert g != h ==> SameHandler(l, r, g);
    }
    forall k ensures SameCell(l', r', k) {
      assert SameCell(l, r, k);
    }
  }

  lemma LocalLeaseHasNoDeadline(l: System, key: Key)
    requires l.store.Maps?
    ensures CellAt(l, key).InFlight? ==> CellAt(l, key).until.None?
  {
  }

  /** A lease on the maps has no deadline, so it is still there however much time passes. */
  lemma TickAgrees(l: System, r: System, elapsed: nat)
    requires Inv(l) && Inv(r) && Agree(l, r)
    ensures Agree(Apply(l, Tick(elapsed)), Apply(r, Tick(elapsed))) <==> Smooth(l, r, Tick(elapsed))
  {
    hide HandlerOk, CellOk, CellAt;
    var l', r' := Apply(l, Tick(elapsed)), Apply(r, Tick(elapsed));
    assert forall h <- l.handlers :: SameHandler(l, r, h) ==> SameHandler(l', r', h);
    forall key
      ensures SameCell(l', r', key) <==> (CellAt(r, key).InFlight? ==> Live(CellAt(r, key), r.now + elapsed).InFlight?)
    {
      assert SameCell(l, r, key);
      TickSeen(l, elapsed, key);
      TickSeen(r, elapsed, key);
      LocalLeaseHasNoDeadline(l, key);
    }
  }

  lemma MapsAndCells(l: System, r: System)
    requires Agree(l, r)
    ensures l.store.Maps? && r.store.Cells?
  {
  }

  /** Redis follows every step of the maps, and still agrees afterwards if and only if the step was smooth. */
  lemma StepAgreesExactlyWhen(l: System, r: System, step: Step)
    requires Inv(l) && Inv(r) && Agree(l, r) && Enabled(l, step)
    ensures CanFollow(r, step) && (Agree(Apply(l, step), Follow(r, step)) <==> Smooth(l, r, step))
  {
    hide Inv, Agree;
    assert l.store.Maps? by { MapsAndCells(l, r); }
    match step
    case Arrive(h, key, fingerprint) => ArriveAgrees(l, r, h, key, fingerprint);
    case Look(h) => LookAgrees(l, r, h);
    case Reserve(h) => ReserveAgrees(l, r, h);
    case Save(h, reply) => SaveAgrees(l, r, h, reply);
    case Release(h) => ReleaseAgrees(l, r, h);
    case Tick(elapsed) => TickAgrees(l, r, elapsed);
  }

  // ---- Whole runs

  /** Redis can follow the run of the maps, and agrees at every moment of it. */
  ghost predicate InLockStep(l: System, r: System, steps: seq<Step>)
    requires CanRun(l, steps)
    decreases |steps|
  {
    Agree(l, r)
    && (steps == []
        || (CanFollow(r, steps[0]) && InLockStep(Apply(l, steps[0]), Follow(r, steps[0]), steps[1..])))
  }

  ghost predicate SmoothRun(l: System, r: System, steps: seq<Step>)
    requires CanRun(l, steps)
    decreases |steps|
  {
    steps == []
    || (l.store.Maps? && Smooth(l, r, steps[0]) && CanFollow(r, steps[0])
        && SmoothRun(Apply(l, steps[0]), Follow(r, steps[0]), steps[1..]))
  }

  lemma FollowKeepsInv(r: System, step: Step)
    requires Inv(r) && CanFollow(r, step)
    ensures Inv(Follow(r, step))
  {
    hide Inv;
    if !Done(r, step) {
      StepKeepsInv(r, step);
      var r' := Apply(r, step);
      if step.Reserve? && At(r', step.h).Refused? {
        StepKeepsInv(r', Recheck(step.h));
      }
    }
  }

  lemma {:induction false} LockStepExactlyWhen(l: System, r: System, steps: seq<Step>)
    requires Inv(l) && Inv(r) && Agree(l, r) && CanRun(l, steps)
    ensures InLockStep(l, r, steps) <==> SmoothRun(l, r, steps)
    decreases |steps|
  {
    hide Inv, Agree, Smooth, CanFollow, Enabled, Apply;
    if steps == [] {
    } else {
      MapsAndCells(l, r);
      StepAgreesExactlyWhen(l, r, steps[0]);
      var l', r' := Apply(l, steps[0]), Follow(r, steps[0]);
      StepKeepsInv(l, steps[0]);
      FollowKeepsInv(r, steps[0]);
      if Agree(l', r') {
        LockStepExactlyWhen(l', r', steps[1..]);
      }
    }
  }

  /**
    For every run of handlers on the two maps: Redis, fed the same requests, gives every client the same
    answer and holds the same keys at every moment if and only if the run is smooth.
   */
  lemma BackendsRunInLockStep(now: Time, ttl: nat, steps: seq<Step>)
    requires ttl > 0 && CanRun(Init(now, ttl, false), steps)
    ensures InLockStep(Init(now, ttl, false), Init(now, ttl, true), steps)
       <==> SmoothRun(Init(now, ttl, false), Init(now, ttl, true), steps)
  {
    LockStepExactlyWhen(Init(now, ttl, false), Init(now, ttl, true), steps);
  }

  /** The state of Redis after it has followed the run as far as it can. */
  function FollowRun(r: System, steps: seq<Step>): System
    decreases |steps|
  {
    if steps == [] || !CanFollow(r, steps[0]) then r else FollowRun(Follow(r, steps[0]), steps[1..])
  }

  lemma {:induction false} LockStepEnds(l: System, r: System, steps: seq<Step>)
    requires CanRun(l, steps) && InLockStep(l, r, steps)
    ensures Agree(Run(l, steps), FollowRun(r, steps))
    decreases |steps|
  {
    hide Agree, CanFollow, Enabled, Apply, Follow;
    if steps == [] {
    } else {
      LockStepEnds(Apply(l, steps[0]), Follow(r, steps[0]), steps[1..]);
    }
  }

  /** After a smooth run a client that the maps have answered was told the same by Redis. */
  lemma SmoothRunsAnswerAlike(now: Time, ttl: nat, steps: seq<Step>, h: string)
    requires ttl > 0 && CanRun(Init(now, ttl, false), steps)
    requires SmoothRun(Init(now, ttl, false), Init(now, ttl, true), steps)
    ensures var l, r := Run(Init(now, ttl, false), steps), FollowRun(Init(now, ttl, true), steps);
            && l.handlers.Keys == r.handlers.Keys
            && (At(l, h).Left? ==> At(r, h) == At(l, h))
            && (At(l, h).Owning? <==> At(r, h).Owning?)
  {
    BackendsRunInLockStep(now, ttl, steps);
    LockStepEnds(Init(now, ttl, false), Init(now, ttl, true), steps);
    var l, r := Run(Init(now, ttl, false), steps), FollowRun(Init(now, ttl, true), steps);
    assert h in l.handlers ==> SameHandler(l, r, h);
  }

  // ---- A run that is not smooth

  const TAKEN: seq<Step> := [Arrive("a", "k", "f"), Look("a"), Reserve("a"), Arrive("h", "k", "f"), Look("h")]
  const RETAKEN: seq<Step> := [Release("a"), Arrive("b", "k", "g"), Look("b"), Reserve("b")]

  function Waiting(redis: bool, phase: Phase): System {
    var until := if redis then Some(10) else None;
    System(0, 10,
           if redis then Cells(map["k" := RedisCell(Stored("f", Some("a"), Reply(0, "", "")), 10)])
           else Maps(Local(map[], map["k" := Lease("f", "a")])),
           map["a" := Handler("k", "f", Owning(until)), "h" := Handler("k", "f", phase)])
  }

  lemma TakenRun(redis: bool)
    ensures CanRun(Init(0, 10, redis), TAKEN)
    ensures Run(Init(0, 10, redis), TAKEN) == Waiting(redis, if redis then Left(Some(InProgress)) else Missed)
  {
    var s0 := Init(0, 10, redis);
    var s1 := Apply(s0, Arrive("a", "k", "f"));
    var s2 := Apply(s1, Look("a"));
    var s3 := Apply(s2, Reserve("a"));
    var s4 := Apply(s3, Arrive("h", "k", "f"));
    var s5 := Apply(s4, Look("h"));
    assert s5 == Waiting(redis, if redis then Left(Some(InProgress)) else Missed);
    RunCons(s4, Look("h"), []);
    RunCons(s3, Arrive("h", "k", "f"), [Look("h")]);
    RunCons(s2, Reserve("a"), TAKEN[3..]);
    RunCons(s1, Look("a"), TAKEN[2..]);
    RunCons(s0, Arrive("a", "k", "f"), TAKEN[1..]);
  }

  lemma WaitingHandlers(redis: bool, phase: Phase)
    ensures var s := Waiting(redis, phase);
            s.handlers.Keys == {"a", "h"} && s.handlers["h"] == Handler("k", "f", phase)
  {
  }

  /** The first owner has gone and somebody else has arrived. */
  function Freed(redis: bool, phase: Phase): System {
    System(0, 10, if redis then Cells(map[]) else Maps(Local(map[], map[])),
           Waiting(redis, phase).handlers["a" := Handler("k", "f", Left(Some(Own)))]["b" := Handler("k", "g", Arrived)])
  }

  lemma FreedRun(redis: bool, phase: Phase)
    ensures var s := Waiting(redis, phase);
            && Enabled(s, Release("a")) && Enabled(Apply(s, Release("a")), Arrive("b", "k", "g"))
            && Apply(Apply(s, Release("a")), Arrive("b", "k", "g")) == Freed(redis, phase)
  {
    assert map["k" := Lease("f", "a")] - {"k"} == map[];
  }

  lemma RetakenRun(redis: bool, phase: Phase)
    ensures CanRun(Waiting(redis, phase), RETAKEN)
    ensures var s := Run(Waiting(redis, phase), RETAKEN);
            && s.handlers.Keys == {"a", "h", "b"} && s.handlers["h"] == Handler("k", "f", phase)
            && (!redis ==> s.store == Maps(Local(map[], map["k" := Lease("g", "b")])))
  {
    hide Waiting;
    FreedRun(redis, phase);
    var s0 := Waiting(redis, phase);
    WaitingHandlers(redis, phase);
    var s1 := Apply(s0, Release("a"));
    var s2 := Apply(s1, Arrive("b", "k", "g"));
    var s3 := Apply(s2, Look("b"));
    var s4 := Apply(s3, Reserve("b"));
    RunCons(s3, Reserve("b"), []);
    RunCons(s2, Look("b"), [Reserve("b")]);
    RunCons(s1, Arrive("b", "k", "g"), RETAKEN[2..]);
    RunCons(s0, Release("a"), RETAKEN[1..]);
  }

  lemma RetakenRefuses(s: System)
    requires "h" in s.handlers && s.handlers["h"] == Handler("k", "f", Missed)
    requires s.store == Maps(Local(map[], map["k" := Lease("g", "b")]))
    ensures Enabled(s, Reserve("h")) && At(Apply(s, Reserve("h")), "h") == Left(Some(Conflict))
  {
  }

  /**
    An example: the key changes hands between h's look-up and its reserve. Redis has told h that the
    same request is in progress, the maps tell it that the key is in use for another request.
   */
  lemma AnswersMayDiffer()
    ensures CanRun(Init(0, 10, true), TAKEN + RETAKEN)
    ensures At(Run(Init(0, 10, true), TAKEN + RETAKEN), "h") == Left(Some(InProgress))
    ensures CanRun(Init(0, 10, false), TAKEN + RETAKEN + [Reserve("h")])
    ensures At(Run(Init(0, 10, false), TAKEN + RETAKEN + [Reserve("h")]), "h") == Left(Some(Conflict))
  {
    hide Apply, Enabled;
    TakenRun(true);
    RetakenRun(true, Left(Some(InProgress)));
    RunJoins(Init(0, 10, true), TAKEN, RETAKEN);
    TakenRun(false);
    RetakenRun(false, Missed);
    RunJoins(Init(0, 10, false), TAKEN, RETAKEN);
    var s := Run(Init(0, 10, false), TAKEN + RETAKEN);
    assert Enabled(s, Reserve("h")) && At(Apply(s, Reserve("h")), "h") == Left(Some(Conflict)) by {
      RetakenRefuses(s);
    }
    RunCons(s, Reserve("h"), []);
    RunJoins(Init(0, 10, false), TAKEN + RETAKEN, [Reserve("h")]);
  }
}
