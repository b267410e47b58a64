/**
  Any number of request handlers interleaving on one idempotency store, of either backend,
  while time passes. Each store call is one step; a handler is named by its owner token.
 */
module IdempotencyRuns {
  import opened Wrappers
  import opened Idempotency

  datatype Store = Maps(local: Local) | Cells(remote: Remote)

  /**
    Owning: reserve granted the lease, which lapses at the deadline if there is one. Refused: Redis did
    not carry out SET NX, and the second look-up is still to come. Left: with what the client was told,
    or nothing if the handler died.
   */
  datatype Phase =
    | Arrived
    | Missed
    | Owning(deadline: Option<Time>)
    | Refused
    | Saved
    | Left(told: Option<Decision>)

  datatype Handler = Handler(key: Key, fingerprint: string, phase: Phase)

  datatype System = System(now: Time, ttl: nat, store: Store, handlers: map<string, Handler>)

  datatype Step =
    | Arrive(h: string, key: Key, fingerprint: string)
    | Look(h: string)
    | Reserve(h: string)
    | Recheck(h: string)
    | Save(h: string, reply: Reply)
    | Release(h: string)
    | Die(h: string)                // the gateway process is gone; its Redis lease stays
    | Tick(elapsed: nat)

  function At(s: System, h: string): Phase {
    if h in s.handlers then s.handlers[h].phase else Left(None)
  }

  function CellAt(s: System, key: Key): Cell {
    Live(if s.store.Maps? then LocalCell(s.store.local, key) else RemoteCell(s.store.remote, key), s.now)
  }

  // ---- The four calls on whichever backend is in use

  function Get(s: System, key: Key, fingerprint: string): (Store, Lookup) {
    match s.store
    case Maps(l) => var (l', lookup) := LocalGet(l, key, fingerprint, s.now); (Maps(l'), lookup)
    case Cells(r) => (s.store, RemoteGet(r, key, fingerprint, s.now))
  }

  /** The store, and whether the lease was granted. */
  function Grab(s: System, key: Key, fingerprint: string, owner: string): (Store, bool) {
    match s.store
    case Maps(l) =>
      var (l', reservation) := LocalReserve(l, key, fingerprint, owner);
      (Maps(l'), reservation.owned)
    case Cells(r) =>
      var (r', owned) := RemoteSetNx(r, key, fingerprint, owner, s.now, s.ttl);
      (Cells(r'), owned)
  }

  function Deadline(s: System): Option<Time> {
    if s.store.Maps? then None else Some(s.now + s.ttl)
  }

  /** Where a handler goes from reserve; the maps tell a refused one why at once. */
  function Grabbed(s: System, key: Key, fingerprint: string, owner: string): Phase {
    if Grab(s, key, fingerprint, owner).1 then Owning(Deadline(s))
    else match s.store
         case Maps(l) => Left(Some(HandlerDecision(Miss, LocalReserve(l, key, fingerprint, owner).1)))
         case Cells(_) => Refused
  }

  function Put(s: System, key: Key, fingerprint: string, owner: string, reply: Reply): Store {
    match s.store
    case Maps(l) => Maps(LocalSet(l, key, fingerprint, owner, reply, s.now, s.ttl))
    case Cells(r) => Cells(RemoteSet(r, key, fingerprint, owner, reply, s.now, s.ttl))
  }

  function Drop(s: System, key: Key, owner: string): Store {
    match s.store
    case Maps(l) => Maps(LocalRelease(l, key, owner))
    case Cells(r) => Cells(RemoteRelease(r, key, owner, s.now))
  }

  predicate Enabled(s: System, step: Step) {
    match step
    case Arrive(h, _, _) => h != "" && h !in s.handlers
    case Look(h) => At(s, h).Arrived?
    case Reserve(h) => At(s, h).Missed?
    case Recheck(h) => s.store.Cells? && At(s, h).Refused?
    case Save(h, reply) => At(s, h).Owning? && 200 <= reply.status < 300
    case Release(h) => At(s, h).Owning? || At(s, h).Saved?
    case Die(h) => h in s.handlers && s.store.Cells?
    case Tick(_) => true
  }

  function Goto(s: System, h: string, phase: Phase): System
    requires h in s.handlers
  {
    s.(handlers := s.handlers[h := s.handlers[h].(phase := phase)])
  }

  function Apply(s: System, step: Step): System
    requires Enabled(s, step)
  {
    match step
    case Arrive(h, key, fingerprint) => s.(handlers := s.handlers[h := Handler(key, fingerprint, Arrived)])
    case Look(h) =>
      var me := s.handlers[h];
      var (store, lookup) := Get(s, me.key, me.fingerprint);
      Goto(s.(store := store), h,
           if lookup.Miss? then Missed else Left(Some(HandlerDecision(lookup, Reservation(false, false, false)))))
    case Reserve(h) =>
      var me := s.handlers[h];
      Goto(s.(store := Grab(s, me.key, me.fingerprint, h).0), h, Grabbed(s, me.key, me.fingerprint, h))
    case Recheck(h) =>
      var me := s.handlers[h];
      Goto(s, h, Left(Some(HandlerDecision(Miss, Refusal(Get(s, me.key, me.fingerprint).1)))))
    case Save(h, reply) =>
      var me := s.handlers[h];
      Goto(s.(store := Put(s, me.key, me.fingerprint, h, reply)), h, Saved)
    case Release(h) => Goto(s.(store := Drop(s, s.handlers[h].key, h)), h, Left(Some(Own)))
    case Die(h) => Goto(s, h, Left(None))
    case Tick(elapsed) => s.(now := s.now + elapsed)
  }

  predicate CanRun(s: System, steps: seq<Step>)
    decreases |steps|
  {
    steps == [] || (Enabled(s, steps[0]) && CanRun(Apply(s, steps[0]), steps[1..]))
  }

  function Run(s: System, steps: seq<Step>): System
    requires CanRun(s, steps)
    decreases |steps|
  {
    if steps == [] then s else Run(Apply(s, steps[0]), steps[1..])
  }

  function Init(now: Time, ttl: nat, redis: bool): System {
    System(now, ttl, if redis then Cells(map[]) else Maps(Local(map[], map[])), map[])
  }

  // ---- The calls, seen through the cells

  ghost predicate StoreOk(store: Store) {
    match store
    case Maps(l) => LocalOk(l)
    case Cells(r) => RemoteOk(r)
  }

  ghost predicate OthersSame(s: System, s': System, key: Key) {
    forall k | k != key :: CellAt(s', k) == CellAt(s, k)
  }

  lemma GetSeen(s: System, key: Key, fingerprint: string)
    requires StoreOk(s.store)
    ensures var (store, lookup) := Get(s, key, fingerprint);
            var s' := s.(store := store);
            StoreOk(store) && OthersSame(s, s', key) && CellAt(s', key) == CellAt(s, key)
            && store.Maps? == s.store.Maps?
    ensures CellAt(s, key).Finished? ==>
              Get(s, key, fingerprint).1
              == if CellAt(s, key).fingerprint == fingerprint then Hit(CellAt(s, key).reply) else Mismatch
    ensures CellAt(s, key).Absent? ==> Get(s, key, fingerprint).1 == Miss
  {
  }

  lemma GrabSeen(s: System, key: Key, fingerprint: string, owner: string)
    requires StoreOk(s.store) && owner != "" && s.ttl > 0
    ensures var (store, owned) := Grab(s, key, fingerprint, owner);
            var s' := s.(store := store);
            StoreOk(store) && OthersSame(s, s', key) && store.Maps? == s.store.Maps?
            && if owned
               then CellAt(s, key).Absent? && CellAt(s', key) == InFlight(fingerprint, owner, Deadline(s))
               else CellAt(s', key) == CellAt(s, key)
  {
  }

  lemma PutSeen(s: System, key: Key, fingerprint: string, owner: string, reply: Reply)
    requires StoreOk(s.store) && owner != "" && s.ttl > 0 && 200 <= reply.status < 300
    ensures var store := Put(s, key, fingerprint, owner, reply);
            var s' := s.(store := store);
            StoreOk(store) && OthersSame(s, s', key) && store.Maps? == s.store.Maps?
            && CellAt(s', key) == Settle(CellAt(s, key), fingerprint, owner, reply, s.now + s.ttl)
  {
    if s.store.Maps? {
      LocalSetRefines(s.store.local, key, fingerprint, owner, reply, s.now, s.ttl);
    } else {
      RemoteSetRefines(s.store.remote, key, fingerprint, owner, reply, s.now, s.ttl);
    }
  }

  lemma DropSeen(s: System, key: Key, owner: string)
    requires StoreOk(s.store) && owner != ""
    ensures var store := Drop(s, key, owner);
            var s' := s.(store := store);
            StoreOk(store) && OthersSame(s, s', key) && store.Maps? == s.store.Maps?
            && CellAt(s', key) == Free(CellAt(s, key), owner)
  {
    if s.store.Maps? {
      LocalReleaseRefines(s.store.local, key, owner, s.now);
    } else {
      RemoteReleaseRefines(s.store.remote, key, owner, s.now);
    }
  }

  lemma TickSeen(s: System, elapsed: nat, key: Key)
    ensures CellAt(s.(now := s.now + elapsed), key) == Live(CellAt(s, key), s.now + elapsed)
  {
  }

  // ---- The invariant

  /** The lease of handler h is the live one of its key. */
  predicate HoldsLive(s: System, h: string) {
    At(s, h).Owning?
    && CellAt(s, s.handlers[h].key) == InFlight(s.handlers[h].fingerprint, h, s.handlers[h].phase.deadline)
  }

  predicate Lapsed(s: System, h: string) {
    At(s, h).Owning? && s.handlers[h].phase.deadline.Some? && s.handlers[h].phase.deadline.value <= s.now
  }

  /** A live lease belongs to the handler that owns it, or to one that died on Redis. */
  ghost predicate CellOk(s: System, key: Key) {
    var c := CellAt(s, key);
    c.InFlight? ==>
      c.owner in s.handlers && s.handlers[c.owner].key == key
      && (s.handlers[c.owner].phase == Owning(c.until) || (s.store.Cells? && s.handlers[c.owner].phase.Left?))
  }

  ghost predicate HandlerOk(s: System, h: string) {
    At(s, h).Owning? ==>
      s.handlers[h].phase.deadline.None? == s.store.Maps? && (HoldsLive(s, h) || Lapsed(s, h))
  }

  ghost predicate Inv(s: System) {
    && s.ttl > 0
    && StoreOk(s.store)
    && "" !in s.handlers
    && (forall h <- s.handlers :: HandlerOk(s, h))
    && (forall key :: CellOk(s, key))
  }

  /** Handler h goes to `phase` while at most the cell of its key changes, in a way h may change it. */
  lemma MoveKeeps(s: System, s': System, h: string, phase: Phase)
    requires Inv(s) && h in s.handlers && StoreOk(s'.store) && s'.store.Maps? == s.store.Maps?
    requires s' == Goto(s.(store := s'.store), h, phase)
    requires OthersSame(s, s', s.handlers[h].key)
    requires HandlerOk(s', h) && CellOk(s', s.handlers[h].key)
    requires var c := CellAt(s, s.handlers[h].key);
             c.InFlight? && c.owner != h ==> CellAt(s', s.handlers[h].key) == c
    ensures Inv(s')
  {
    forall g <- s'.handlers ensures HandlerOk(s', g) {
      assert HandlerOk(s, g);
    }
    forall key ensures CellOk(s', key) {
      assert CellOk(s, key);
    }
  }

  lemma ArriveKeeps(s: System, h: string, key: Key, fingerprint: string)
    requires Inv(s) && Enabled(s, Arrive(h, key, fingerprint))
    ensures Inv(Apply(s, Arrive(h, key, fingerprint)))
  {
    var s' := Apply(s, Arrive(h, key, fingerprint));
    forall g <- s'.handlers ensures HandlerOk(s', g) {
      assert g != h ==> HandlerOk(s, g);
    }
    forall k ensures CellOk(s', k) {
      assert CellOk(s, k);
    }
  }

  lemma TickKeeps(s: System, elapsed: nat)
    requires Inv(s)
    ensures Inv(Apply(s, Tick(elapsed)))
  {
    var s' := Apply(s, Tick(elapsed));
    forall g <- s'.handlers ensures HandlerOk(s', g) {
      assert HandlerOk(s, g);
      TickSeen(s, elapsed, s.handlers[g].key);
    }
    forall k ensures CellOk(s', k) {
      assert CellOk(s, k);
      TickSeen(s, elapsed, k);
    }
  }

  lemma LookKeeps(s: System, h: string)
    requires Inv(s) && Enabled(s, Look(h))
    ensures Inv(Apply(s, Look(h)))
  {
    var s' := Apply(s, Look(h));
    GetSeen(s, s.handlers[h].key, s.handlers[h].fingerprint);
    assert CellOk(s, s.handlers[h].key);
    MoveKeeps(s, s', h, At(s', h));
  }

  lemma ReserveKeeps(s: System, h: string)
    requires Inv(s) && Enabled(s, Reserve(h))
    ensures Inv(Apply(s, Reserve(h)))
  {
    var s' := Apply(s, Reserve(h));
    GrabSeen(s, s.handlers[h].key, s.handlers[h].fingerprint, h);
    assert CellOk(s, s.handlers[h].key);
    MoveKeeps(s, s', h, At(s', h));
  }

  lemma SaveKeeps(s: System, h: string, reply: Reply)
    requires Inv(s) && Enabled(s, Save(h, reply))
    ensures Inv(Apply(s, Save(h, reply)))
  {
    var s' := Apply(s, Save(h, reply));
    PutSeen(s, s.handlers[h].key, s.handlers[h].fingerprint, h, reply);
    assert CellOk(s, s.handlers[h].key);
    MoveKeeps(s, s', h, At(s', h));
  }

  lemma ReleaseKeeps(s: System, h: string)
    requires Inv(s) && Enabled(s, Release(h))
    ensures Inv(Apply(s, Release(h)))
  {
    var s' := Apply(s, Release(h));
    DropSeen(s, s.handlers[h].key, h);
    assert CellOk(s, s.handlers[h].key);
    MoveKeeps(s, s', h, At(s', h));
  }

  /** The steps that leave the store alone. */
  lemma LeaveKeeps(s: System, h: string, step: Step)
    requires Inv(s) && Enabled(s, step) && (step == Recheck(h) || step == Die(h))
    ensures Inv(Apply(s, step))
  {
    var s' := Apply(s, step);
    assert CellOk(s, s.handlers[h].key);
    MoveKeeps(s, s', h, At(s', h));
  }

  lemma StepKeepsInv(s: System, step: Step)
    requires Inv(s) && Enabled(s, step)
    ensures Inv(Apply(s, step))
  {
    hide Inv, Apply, Enabled;
    match step
    case Arrive(h, key, fingerprint) => ArriveKeeps(s, h, key, fingerprint);
    case Tick(elapsed) => TickKeeps(s, elapsed);
    case Look(h) => LookKeeps(s, h);
    case Reserve(h) => ReserveKeeps(s, h);
    case Save(h, reply) => SaveKeeps(s, h, reply);
    case Release(h) => ReleaseKeeps(s, h);
    case Recheck(h) => LeaveKeeps(s, h, step);
    case Die(h) => LeaveKeeps(s, h, step);
  }

  lemma {:induction false} RunKeepsInv(s: System, steps: seq<Step>)
    requires Inv(s) && CanRun(s, steps)
    ensures Inv(Run(s, steps))
    decreases |steps|
  {
    if steps == [] {
    } else {
      StepKeepsInv(s, steps[0]);
      RunKeepsInv(Apply(s, steps[0]), steps[1..]);
    }
  }

  // ---- Exclusive ownership

  /** Over every run at most one handler of a key owns a lease that has not lapsed. */
  lemma AtMostOneLiveOwner(now: Time, ttl: nat, redis: bool, steps: seq<Step>, h1: string, h2: string)
    requires ttl > 0 && CanRun(Init(now, ttl, redis), steps)
    requires var s := Run(Init(now, ttl, redis), steps);
             && At(s, h1).Owning? && At(s, h2).Owning? && s.handlers[h1].key == s.handlers[h2].key
             && !Lapsed(s, h1) && !Lapsed(s, h2)
    ensures h1 == h2
  {
    RunKeepsInv(Init(now, ttl, redis), steps);
    var s := Run(Init(now, ttl, redis), steps);
    assert HandlerOk(s, h1) && HandlerOk(s, h2);
  }

  lemma {:induction false} BackendStays(s: System, steps: seq<Step>)
    requires CanRun(s, steps)
    ensures Run(s, steps).store.Maps? == s.store.Maps? && Run(s, steps).ttl == s.ttl
    ensures Run(s, steps).now >= s.now
    decreases |steps|
  {
    if steps == [] {
    } else {
      BackendStays(Apply(s, steps[0]), steps[1..]);
    }
  }

  /** No key is ever in both maps. */
  lemma MapsStayDisjoint(now: Time, ttl: nat, steps: seq<Step>, key: Key)
    requires ttl > 0 && CanRun(Init(now, ttl, false), steps)
    ensures var store := Run(Init(now, ttl, false), steps).store;
            store.Maps? && !(key in store.local.items && key in store.local.inflight)
  {
    RunKeepsInv(Init(now, ttl, false), steps);
    BackendStays(Init(now, ttl, false), steps);
  }

  /** On the two maps leases never lapse, so a key never has two owners at all. */
  lemma LocalOwnersAreExclusive(now: Time, ttl: nat, steps: seq<Step>, h1: string, h2: string)
    requires ttl > 0 && CanRun(Init(now, ttl, false), steps)
    requires var s := Run(Init(now, ttl, false), steps);
             At(s, h1).Owning? && At(s, h2).Owning? && s.handlers[h1].key == s.handlers[h2].key
    ensures h1 == h2
  {
    RunKeepsInv(Init(now, ttl, false), steps);
    BackendStays(Init(now, ttl, false), steps);
    var s := Run(Init(now, ttl, false), steps);
    assert HandlerOk(s, h1) && HandlerOk(s, h2);
  }

  /**
    reserve makes a handler the owner exactly when its key is free -- and, on the two maps, when no
    expired record of the key is left that a look-up has not purged.
   */
  lemma GrantsExactlyWhen(s: System, h: string)
    requires Inv(s) && Enabled(s, Reserve(h))
    ensures var key := s.handlers[h].key;
            At(Apply(s, Reserve(h)), h).Owning?
            <==> CellAt(s, key).Absent? && !(s.store.Maps? && key in s.store.local.items)
  {
    hide HandlerOk, CellOk;
  }

  lemma SecondOwnerFrom(s: System, h: string, g: string, fingerprint: string)
    requires Inv(s) && s.store.Cells? && At(s, h).Owning? && g != "" && g !in s.handlers
    ensures var key := s.handlers[h].key;
            var s2 := Apply(Apply(s, Arrive(g, key, fingerprint)), Look(g));
            && (CellAt(s, key).Absent? <==> At(s2, g).Missed? && At(Apply(s2, Reserve(g)), g).Owning?)
            && (CellAt(s, key).Absent? ==> Lapsed(s, h) && At(Apply(s2, Reserve(g)), h).Owning?)
  {
    var key := s.handlers[h].key;
    assert HandlerOk(s, h);
    var s1 := Apply(s, Arrive(g, key, fingerprint));
    ArriveKeeps(s, g, key, fingerprint);
    GetSeen(s1, key, fingerprint);
    StepKeepsInv(s1, Look(g));
    var s2 := Apply(s1, Look(g));
    assert CellAt(s1, key) == CellAt(s, key) && CellAt(s2, key) == CellAt(s, key);
    if At(s2, g).Missed? {
      GrantsExactlyWhen(s2, g);
    }
  }

  /**
    In every reachable state of the Redis backend where h is an owner: a new handler of the same key
    becomes a second owner if and only if the key's cell is free, and then h's lease has lapsed.
   */
  lemma SecondOwnerExactlyWhen(now: Time, ttl: nat, steps: seq<Step>, h: string, g: string, fingerprint: string)
    requires ttl > 0 && CanRun(Init(now, ttl, true), steps)
    requires At(Run(Init(now, ttl, true), steps), h).Owning?
    requires g != "" && g !in Run(Init(now, ttl, true), steps).handlers
    ensures var s := Run(Init(now, ttl, true), steps);
            var key := s.handlers[h].key;
            var s2 := Apply(Apply(s, Arrive(g, key, fingerprint)), Look(g));
            && (CellAt(s, key).Absent? <==> At(s2, g).Missed? && At(Apply(s2, Reserve(g)), g).Owning?)
            && (CellAt(s, key).Absent? ==> Lapsed(s, h) && At(Apply(s2, Reserve(g)), h).Owning?)
  {
    RunKeepsInv(Init(now, ttl, true), steps);
    BackendStays(Init(now, ttl, true), steps);
    SecondOwnerFrom(Run(Init(now, ttl, true), steps), h, g, fingerprint);
  }

  lemma RunCons(s: System, step: Step, steps: seq<Step>)
    requires Enabled(s, step) && CanRun(Apply(s, step), steps)
    ensures CanRun(s, [step] + steps) && Run(s, [step] + steps) == Run(Apply(s, step), steps)
  {
    assert ([step] + steps)[1..] == steps;
  }

  lemma LeaseLapses()
    ensures var steps := [Arrive("a", "k", "f"), Look("a"), Reserve("a"), Tick(1)];
            CanRun(Init(0, 1, true), steps) &&
            var s := Run(Init(0, 1, true), steps);
            s.handlers.Keys == {"a"} && At(s, "a").Owning? && s.handlers["a"].key == "k" && CellAt(s, "k").Absent?
  {
    var s0 := Init(0, 1, true);
    var s1 := Apply(s0, Arrive("a", "k", "f"));
    var s2 := Apply(s1, Look("a"));
    var s3 := Apply(s2, Reserve("a"));
    var s4 := Apply(s3, Tick(1));
    assert CanRun(s4, []) && Run(s4, []) == s4;
    RunCons(s3, Tick(1), []);
    RunCons(s2, Reserve("a"), [Tick(1)]);
    RunCons(s1, Look("a"), [Reserve("a"), Tick(1)]);
    RunCons(s0, Arrive("a", "k", "f"), [Look("a"), Reserve("a"), Tick(1)]);
  }

  lemma {:induction false} RunJoins(s: System, a: seq<Step>, b: seq<Step>)
    requires CanRun(s, a) && CanRun(Run(s, a), b)
    ensures CanRun(s, a + b) && Run(s, a + b) == Run(Run(s, a), b)
    decreases |a|
  {
    hide Apply, Enabled;
    if a == [] {
      assert a + b == b;
    } else {
      RunJoins(Apply(s, a[0]), a[1..], b);
      assert (a + b)[1..] == a[1..] + b;
    }
  }

  /** A Redis key with two owners is reachable: the lease lapses with the ttl. */
  lemma RedisOwnersMayOverlap()
    ensures var steps := [Arrive("a", "k", "f"), Look("a"), Reserve("a"), Tick(1)]
                         + [Arrive("b", "k", "f"), Look("b"), Reserve("b")];
            CanRun(Init(0, 1, true), steps)
            && At(Run(Init(0, 1, true), steps), "a").Owning? && At(Run(Init(0, 1, true), steps), "b").Owning?
  {
    hide CellAt;
    var before := [Arrive("a", "k", "f"), Look("a"), Reserve("a"), Tick(1)];
    var after := [Arrive("b", "k", "f"), Look("b"), Reserve("b")];
    LeaseLapses();
    SecondOwnerExactlyWhen(0, 1, before, "a", "b", "f");
    var s := Run(Init(0, 1, true), before);
    var s1 := Apply(s, Arrive("b", "k", "f"));
    var s2 := Apply(s1, Look("b"));
    RunCons(s2, Reserve("b"), []);
    RunCons(s1, Look("b"), [Reserve("b")]);
    RunCons(s, Arrive("b", "k", "f"), [Look("b"), Reserve("b")]);
    RunJoins(Init(0, 1, true), before, after);
  }

  lemma LapsedStepChangesNothing(s: System, h: string, step: Step)
    requires Inv(s) && Enabled(s, step) && Lapsed(s, h)
    requires step.Save? || step.Release?
    requires step.h == h
    ensures forall key :: CellAt(Apply(s, step), key) == CellAt(s, key)
  {
    var key := s.handlers[h].key;
    assert CellOk(s, key);
    if step.Save? {
      PutSeen(s, key, s.handlers[h].fingerprint, h, step.reply);
    } else {
      DropSeen(s, key, h);
    }
  }

  /** A handler whose lease lapsed can neither store its reply nor free the key for others. */
  lemma LapsedOwnerIsPowerless(now: Time, ttl: nat, redis: bool, steps: seq<Step>, h: string, step: Step)
    requires ttl > 0 && CanRun(Init(now, ttl, redis), steps)
    requires step.Save? || step.Release?
    requires step.h == h
    ensures var s := Run(Init(now, ttl, redis), steps);
            Lapsed(s, h) && Enabled(s, step) ==> forall key :: CellAt(Apply(s, step), key) == CellAt(s, key)
  {
    RunKeepsInv(Init(now, ttl, redis), steps);
    var s := Run(Init(now, ttl, redis), steps);
    if Lapsed(s, h) && Enabled(s, step) {
      LapsedStepChangesNothing(s, h, step);
    }
  }

  /** An owner may store a reply exactly if it is a success; it may always leave without one. */
  lemma OwnersStoreSuccesses(s: System, h: string, reply: Reply)
    requires At(s, h).Owning?
    ensures Enabled(s, Save(h, reply)) <==> 200 <= reply.status <= 299
    ensures Enabled(s, Release(h))
  {
  }

  // ---- Stable replay

  /** No step of anybody touches a finished record before it expires. */
  lemma FinishedSurvivesStep(s: System, step: Step, key: Key)
    requires Inv(s) && Enabled(s, step) && CellAt(s, key).Finished?
    requires Apply(s, step).now < CellAt(s, key).expires
    ensures CellAt(Apply(s, step), key) == CellAt(s, key)
  {
    match step
    case Arrive(_, _, _) =>
    case Tick(elapsed) => TickSeen(s, elapsed, key);
    case Look(h) => GetSeen(s, s.handlers[h].key, s.handlers[h].fingerprint);
    case Reserve(h) => GrabSeen(s, s.handlers[h].key, s.handlers[h].fingerprint, h);
    case Save(h, reply) => PutSeen(s, s.handlers[h].key, s.handlers[h].fingerprint, h, reply);
    case Release(h) => DropSeen(s, s.handlers[h].key, h);
    case Recheck(_) =>
    case Die(_) =>
  }

  lemma {:induction false} FinishedSurvives(s: System, steps: seq<Step>, key: Key)
    requires Inv(s) && CanRun(s, steps) && CellAt(s, key).Finished?
    requires Run(s, steps).now < CellAt(s, key).expires
    ensures Inv(Run(s, steps)) && CellAt(Run(s, steps), key) == CellAt(s, key)
    decreases |steps|
  {
    if steps == [] {
    } else {
      var s' := Apply(s, steps[0]);
      BackendStays(s', steps[1..]);
      FinishedSurvivesStep(s, steps[0], key);
      StepKeepsInv(s, steps[0]);
      FinishedSurvives(s', steps[1..], key);
    }
  }

  lemma SavedIsReplayed(s: System, h: string, reply: Reply, steps: seq<Step>, fingerprint: string)
    requires Inv(s) && Enabled(s, Save(h, reply)) && HoldsLive(s, h)
    requires CanRun(Apply(s, Save(h, reply)), steps)
    requires Run(Apply(s, Save(h, reply)), steps).now < s.now + s.ttl
    ensures var s2 := Run(Apply(s, Save(h, reply)), steps);
            Get(s2, s.handlers[h].key, fingerprint).1
            == if fingerprint == s.handlers[h].fingerprint then Hit(reply) else Mismatch
  {
    var key := s.handlers[h].key;
    var s1 := Apply(s, Save(h, reply));
    PutSeen(s, key, s.handlers[h].fingerprint, h, reply);
    StepKeepsInv(s, Save(h, reply));
    FinishedSurvives(s1, steps, key);
    GetSeen(Run(s1, steps), key, fingerprint);
  }

  /**
    Once the live owner has stored its reply, then whatever all handlers do, until the ttl is
    over every look-up with the same fingerprint replays exactly that reply and every other
    fingerprint is a conflict.
   */
  lemma ReplayIsStable(now: Time, ttl: nat, redis: bool, before: seq<Step>, h: string, reply: Reply,
                       after: seq<Step>, fingerprint: string)
    requires ttl > 0 && CanRun(Init(now, ttl, redis), before)
    requires var s := Run(Init(now, ttl, redis), before);
             && Enabled(s, Save(h, reply)) && HoldsLive(s, h)
             && CanRun(Apply(s, Save(h, reply)), after)
             && Run(Apply(s, Save(h, reply)), after).now < s.now + s.ttl
    ensures var s := Run(Init(now, ttl, redis), before);
            var s2 := Run(Apply(s, Save(h, reply)), after);
            Get(s2, s.handlers[h].key, fingerprint).1
            == if fingerprint == s.handlers[h].fingerprint then Hit(reply) else Mismatch
  {
    RunKeepsInv(Init(now, ttl, redis), before);
    SavedIsReplayed(Run(Init(now, ttl, redis), before), h, reply, after, fingerprint);
  }

  /** A live owner that leaves without storing a reply gives the key back to the next request. */
  lemma ReleaseWithoutReplyFrees(now: Time, ttl: nat, redis: bool, steps: seq<Step>, h: string, fingerprint: string)
    requires ttl > 0 && CanRun(Init(now, ttl, redis), steps)
    requires HoldsLive(Run(Init(now, ttl, redis), steps), h)
    ensures var s := Run(Init(now, ttl, redis), steps);
            var s' := Apply(s, Release(h));
            CellAt(s', s.handlers[h].key) == Absent && Get(s', s.handlers[h].key, fingerprint).1 == Miss
  {
    RunKeepsInv(Init(now, ttl, redis), steps);
    var s := Run(Init(now, ttl, redis), steps);
    DropSeen(s, s.handlers[h].key, h);
    StepKeepsInv(s, Release(h));
    GetSeen(Apply(s, Release(h)), s.handlers[h].key, fingerprint);
  }

  /** The deferred release after a stored reply leaves the record alone. */
  lemma ReleaseAfterReplyKeeps(now: Time, ttl: nat, redis: bool, steps: seq<Step>, h: string)
    requires ttl > 0 && CanRun(Init(now, ttl, redis), steps)
    requires At(Run(Init(now, ttl, redis), steps), h).Saved?
    ensures var s := Run(Init(now, ttl, redis), steps);
            forall key :: CellAt(Apply(s, Release(h)), key) == CellAt(s, key)
  {
    RunKeepsInv(Init(now, ttl, redis), steps);
    var s := Run(Init(now, ttl, redis), steps);
    assert CellOk(s, s.handlers[h].key);
    DropSeen(s, s.handlers[h].key, h);
  }
}
