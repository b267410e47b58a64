/**
  The gateway's idempotency store (gateway/main.go): two mutex-guarded maps, or one Redis
  cell per key. Both serve get / reserve / set / release.
 */
module Idempotency {
  import opened Wrappers

  type Key = string
  type Time = int

  datatype Reply = Reply(status: int, contentType: string, body: string)

  // ---- The machine both backends implement, for one key

  /** until: the instant the state lapses to Absent; a lease without one never lapses. */
  datatype Cell =
    | Absent
    | InFlight(fingerprint: string, owner: string, until: Option<Time>)
    | Finished(fingerprint: string, reply: Reply, expires: Time)

  /** What the handler of a non-stream request does with get followed by reserve. */
  datatype Decision = Own | Replay(reply: Reply) | Conflict | InProgress

  function Live(c: Cell, now: Time): Cell {
    match c
    case Absent => Absent
    case InFlight(_, _, until) => if until.Some? && until.value <= now then Absent else c
    case Finished(_, _, expires) => if expires <= now then Absent else c
  }

  function Decide(c: Cell, fingerprint: string): Decision {
    match c
    case Absent => Own
    case InFlight(f, _, _) => if f != fingerprint then Conflict else InProgress
    case Finished(f, reply, _) => if f != fingerprint then Conflict else Replay(reply)
  }

  function Admit(c: Cell, fingerprint: string, owner: string, until: Option<Time>): Cell {
    if c.Absent? then InFlight(fingerprint, owner, until) else c
  }

  function Settle(c: Cell, fingerprint: string, owner: string, reply: Reply, expires: Time): Cell {
    if c.InFlight? && c.owner == owner then Finished(fingerprint, reply, expires) else c
  }

  function Free(c: Cell, owner: string): Cell {
    if c.InFlight? && c.owner == owner then Absent else c
  }

  // ---- The two backends

  /** What get reports: Busy is the Redis record whose status is 0. */
  datatype Lookup = Miss | Mismatch | Busy | Hit(reply: Reply)

  datatype Reservation = Reservation(owned: bool, conflict: bool, found: bool)

  datatype Record = Record(fingerprint: string, reply: Reply, expiresAt: Time)
  datatype Lease = Lease(fingerprint: string, owner: string)
  datatype Local = Local(items: map<Key, Record>, inflight: map<Key, Lease>)

  /** The JSON document of a Redis cell; a finished one has no owner. */
  datatype Stored = Stored(fingerprint: string, owner: Option<string>, reply: Reply)
  datatype RedisCell = RedisCell(stored: Stored, expiresAt: Time)
  type Remote = map<Key, RedisCell>

  function LocalGet(l: Local, key: Key, fingerprint: string, now: Time): (Local, Lookup) {
    var items := map k | k in l.items && now < l.items[k].expiresAt :: l.items[k];
    (l.(items := items),
     if key !in items then Miss
     else if items[key].fingerprint != fingerprint then Mismatch
     else Hit(items[key].reply))
  }

  function LocalReserve(l: Local, key: Key, fingerprint: string, owner: string): (Local, Reservation) {
    if key in l.items then
      (l, if l.items[key].fingerprint != fingerprint then Reservation(false, true, false)
          else Reservation(false, false, true))
    else if key in l.inflight then
      (l, Reservation(false, l.inflight[key].fingerprint != fingerprint, true))
    else
      (l.(inflight := l.inflight[key := Lease(fingerprint, owner)]), Reservation(true, false, false))
  }

  /** A missing lease reads as the zero value, whose owner is "". */
  function OwnerAt(l: Local, key: Key): string {
    if key in l.inflight then l.inflight[key].owner else ""
  }

  function LocalSet(l: Local, key: Key, fingerprint: string, owner: string, reply: Reply, now: Time, ttl: nat): Local {
    if OwnerAt(l, key) != owner then l
    else Local(l.items[key := Record(fingerprint, reply, now + ttl)], l.inflight - {key})
  }

  function LocalRelease(l: Local, key: Key, owner: string): Local {
    if OwnerAt(l, key) == owner then l.(inflight := l.inflight - {key}) else l
  }

  /** GET of a key whose EX has run out answers nil. */
  function Peek(r: Remote, key: Key, now: Time): Option<Stored> {
    if key in r && now < r[key].expiresAt then Some(r[key].stored) else None
  }

  function RemoteGet(r: Remote, key: Key, fingerprint: string, now: Time): Lookup {
    match Peek(r, key, now)
    case None => Miss
    case Some(stored) =>
      if stored.fingerprint != fingerprint then Mismatch
      else if stored.reply.status == 0 then Busy
      else Hit(stored.reply)
  }

  /** SET NX EX, and whether it was carried out. */
  function RemoteSetNx(r: Remote, key: Key, fingerprint: string, owner: string, now: Time, ttl: nat): (Remote, bool) {
    if Peek(r, key, now).Some? then (r, false)
    else (r[key := RedisCell(Stored(fingerprint, Some(owner), Reply(0, "", "")), now + ttl)], true)
  }

  /** What a refused reserve makes of its second look-up. */
  function Refusal(lookup: Lookup): Reservation {
    Reservation(false, lookup.Mismatch?, !lookup.Miss? && !lookup.Mismatch?)
  }

  /** reserve: the second look-up of a refused one comes later. */
  function RemoteReserve(r: Remote, key: Key, fingerprint: string, owner: string, now: Time, later: Time, ttl: nat)
    : (Remote, Reservation)
  {
    var (r', owned) := RemoteSetNx(r, key, fingerprint, owner, now, ttl);
    if owned then (r', Reservation(true, false, false))
    else (r, Refusal(RemoteGet(r, key, fingerprint, later)))
  }

  function RemoteSet(r: Remote, key: Key, fingerprint: string, owner: string, reply: Reply, now: Time, ttl: nat)
    : Remote
  {
    match Peek(r, key, now)
    case None => r
    case Some(stored) =>
      if stored.owner != Some(owner) then r
      else r[key := RedisCell(Stored(fingerprint, None, reply), now + ttl)]
  }

  function RemoteRelease(r: Remote, key: Key, owner: string, now: Time): Remote {
    match Peek(r, key, now)
    case None => r
    case Some(stored) => if stored.owner == Some(owner) && stored.reply.status == 0 then r - {key} else r
  }

  /** The handler's branching on what get and reserve returned. */
  function HandlerDecision(lookup: Lookup, reservation: Reservation): Decision {
    match lookup
    case Mismatch => Conflict
    case Busy => InProgress
    case Hit(reply) => if reply.status == 0 then InProgress else Replay(reply)
    case Miss =>
      if reservation.conflict then Conflict
      else if !reservation.owned then InProgress
      else Own
  }

  // ---- Refinement

  function LocalCell(l: Local, key: Key): Cell {
    if key in l.items then Finished(l.items[key].fingerprint, l.items[key].reply, l.items[key].expiresAt)
    else if key in l.inflight then InFlight(l.inflight[key].fingerprint, l.inflight[key].owner, None)
    else Absent
  }

  function RemoteCell(r: Remote, key: Key): Cell {
    if key !in r then Absent
    else
      var stored := r[key].stored;
      if stored.owner.Some? then InFlight(stored.fingerprint, stored.owner.value, Some(r[key].expiresAt))
      else Finished(stored.fingerprint, stored.reply, r[key].expiresAt)
  }

  /** The maps are key-disjoint, owners are real and only 2xx replies were stored. */
  ghost predicate LocalOk(l: Local) {
    && l.items.Keys !! l.inflight.Keys
    && (forall k <- l.inflight :: l.inflight[k].owner != "")
    && (forall k <- l.items :: 200 <= l.items[k].reply.status < 300)
  }

  ghost predicate RemoteOk(r: Remote) {
    forall k <- r :: if r[k].stored.owner.Some? then r[k].stored.reply.status == 0
                     else 200 <= r[k].stored.reply.status < 300
  }

  /** get and reserve at one instant, as the handler uses them, on the two maps. */
  function LocalAdmit(l: Local, key: Key, fingerprint: string, owner: string, now: Time): (Local, Decision) {
    var (l1, lookup) := LocalGet(l, key, fingerprint, now);
    var (l2, reservation) := LocalReserve(l1, key, fingerprint, owner);
    if lookup.Miss? then (l2, HandlerDecision(lookup, reservation))
    else (l1, HandlerDecision(lookup, Reservation(false, false, false)))
  }

  function RemoteAdmit(r: Remote, key: Key, fingerprint: string, owner: string, now: Time, ttl: nat)
    : (Remote, Decision)
  {
    var lookup := RemoteGet(r, key, fingerprint, now);
    var (r', reservation) := RemoteReserve(r, key, fingerprint, owner, now, now, ttl);
    if lookup.Miss? then (r', HandlerDecision(lookup, reservation))
    else (r, HandlerDecision(lookup, Reservation(false, false, false)))
  }

  /** The two-map backend takes the machine's decision and the machine's next state, for every key. */
  lemma LocalAdmitRefines(l: Local, key: Key, fingerprint: string, owner: string, now: Time)
    requires LocalOk(l) && owner != ""
    ensures var (l', decision) := LocalAdmit(l, key, fingerprint, owner, now);
            && LocalOk(l')
            && decision == Decide(Live(LocalCell(l, key), now), fingerprint)
            && Live(LocalCell(l', key), now) == Admit(Live(LocalCell(l, key), now), fingerprint, owner, None)
            && forall k | k != key :: Live(LocalCell(l', k), now) == Live(LocalCell(l, k), now)
  {
  }

  lemma RemoteAdmitRefines(r: Remote, key: Key, fingerprint: string, owner: string, now: Time, ttl: nat)
    requires RemoteOk(r) && ttl > 0
    ensures var (r', decision) := RemoteAdmit(r, key, fingerprint, owner, now, ttl);
            && RemoteOk(r')
            && decision == Decide(Live(RemoteCell(r, key), now), fingerprint)
            && Live(RemoteCell(r', key), now)
               == Admit(Live(RemoteCell(r, key), now), fingerprint, owner, Some(now + ttl))
            && forall k | k != key :: RemoteCell(r', k) == RemoteCell(r, k)
  {
  }

  /** The machine's state without the lease deadline, which only Redis has. */
  function Erase(c: Cell): Cell {
    if c.InFlight? then c.(until := None) else c
  }

  /**
    Backends whose cells agree stay in agreement: same decision, same next state. (Lease
    deadlines are erased: the two maps keep a lease until it is set or released.)
   */
  lemma BackendsAgree(l: Local, r: Remote, key: Key, fingerprint: string, owner: string, now: Time, ttl: nat)
    requires LocalOk(l) && RemoteOk(r) && owner != "" && ttl > 0
    requires Erase(Live(LocalCell(l, key), now)) == Erase(Live(RemoteCell(r, key), now))
    ensures var (l', d1) := LocalAdmit(l, key, fingerprint, owner, now);
            var (r', d2) := RemoteAdmit(r, key, fingerprint, owner, now, ttl);
            d1 == d2 && Erase(Live(LocalCell(l', key), now)) == Erase(Live(RemoteCell(r', key), now))
  {
    LocalAdmitRefines(l, key, fingerprint, owner, now);
    RemoteAdmitRefines(r, key, fingerprint, owner, now, ttl);
  }

  lemma LocalSetRefines(l: Local, key: Key, fingerprint: string, owner: string, reply: Reply, now: Time, ttl: nat)
    requires LocalOk(l) && owner != "" && 200 <= reply.status < 300 && ttl > 0
    ensures var l' := LocalSet(l, key, fingerprint, owner, reply, now, ttl);
            && LocalOk(l')
            && Live(LocalCell(l', key), now)
               == Settle(Live(LocalCell(l, key), now), fingerprint, owner, reply, now + ttl)
            && forall k | k != key :: LocalCell(l', k) == LocalCell(l, k)
  {
  }

  lemma RemoteSetRefines(r: Remote, key: Key, fingerprint: string, owner: string, reply: Reply, now: Time, ttl: nat)
    requires RemoteOk(r) && 200 <= reply.status < 300 && ttl > 0
    ensures var r' := RemoteSet(r, key, fingerprint, owner, reply, now, ttl);
            && RemoteOk(r')
            && Live(RemoteCell(r', key), now)
               == Settle(Live(RemoteCell(r, key), now), fingerprint, owner, reply, now + ttl)
            && forall k | k != key :: RemoteCell(r', k) == RemoteCell(r, k)
  {
  }

  lemma LocalReleaseRefines(l: Local, key: Key, owner: string, now: Time)
    requires LocalOk(l) && owner != ""
    ensures var l' := LocalRelease(l, key, owner);
            && LocalOk(l')
            && Live(LocalCell(l', key), now) == Free(Live(LocalCell(l, key), now), owner)
            && forall k | k != key :: LocalCell(l', k) == LocalCell(l, k)
  {
  }

  lemma RemoteReleaseRefines(r: Remote, key: Key, owner: string, now: Time)
    requires RemoteOk(r)
    ensures var r' := RemoteRelease(r, key, owner, now);
            && RemoteOk(r')
            && Live(RemoteCell(r', key), now) == Free(Live(RemoteCell(r, key), now), owner)
            && forall k | k != key :: RemoteCell(r', k) == RemoteCell(r, k)
  {
  }

  /**
    reserve alone does not purge, so on the two maps an expired record still refuses the
    lease. It grants exactly what the machine grants if and only if no expired record is there.
   */
  lemma LocalReserveAlone(l: Local, key: Key, fingerprint: string, owner: string, now: Time)
    requires LocalOk(l)
    ensures LocalReserve(l, key, fingerprint, owner).1.owned == Live(LocalCell(l, key), now).Absent?
       <==> !(key in l.items && l.items[key].expiresAt <= now)
  {
  }

  /** An example: one second after the record of key "k" expired, reserve still refuses. */
  lemma StaleRecordRefuses()
    ensures var l := Local(map["k" := Record("f", Reply(200, "", ""), 10)], map[]);
            LocalOk(l) && Live(LocalCell(l, "k"), 11).Absent? && !LocalReserve(l, "k", "f", "me").1.owned
  {
  }

  /**
    What reserve reports on the maps: a record with another fingerprint is a conflict and one with the same is
    found; a lease is found in either case, and a conflict if its fingerprint is another.
   */
  lemma LocalReserveReports(l: Local, key: Key, fingerprint: string, owner: string)
    ensures var (l', told) := LocalReserve(l, key, fingerprint, owner);
            && (told.owned <==> key !in l.items && key !in l.inflight)
            && (told.conflict <==> if key in l.items then l.items[key].fingerprint != fingerprint
                                   else key in l.inflight && l.inflight[key].fingerprint != fingerprint)
            && (told.found <==> if key in l.items then l.items[key].fingerprint == fingerprint
                                else key in l.inflight)
            && (!told.owned ==> l' == l)
            && (told.owned ==> l' == l.(inflight := l.inflight[key := Lease(fingerprint, owner)]))
  {
  }

  /** On Redis a refused reserve reports what the key holds at the second look-up, which may be nothing any more. */
  lemma RemoteReserveReports(r: Remote, key: Key, fingerprint: string, owner: string, now: Time, later: Time, ttl: nat)
    ensures var (r', told) := RemoteReserve(r, key, fingerprint, owner, now, later, ttl);
            && (told.owned <==> !(key in r && now < r[key].expiresAt))
            && (if told.owned
                then !told.conflict && !told.found
                     && key in r' && r'[key].expiresAt == now + ttl && r'[key].stored.owner == Some(owner)
                     && r'[key].stored.fingerprint == fingerprint && r'[key].stored.reply.status == 0
                else
                  && r' == r
                  && (told.conflict <==> later < r[key].expiresAt && r[key].stored.fingerprint != fingerprint)
                  && (told.found <==> later < r[key].expiresAt && r[key].stored.fingerprint == fingerprint))
            && forall k | k != key :: (k in r' <==> k in r) && (k in r ==> r'[k] == r[k])
  {
  }

  /** What a client is told, by what its look-up and, on a miss, its reserve reported. */
  lemma HandlerAnswers(lookup: Lookup, told: Reservation)
    ensures HandlerDecision(lookup, told) == Conflict
       <==> lookup == Mismatch || (lookup == Miss && told.conflict)
    ensures HandlerDecision(lookup, told) == Own <==> lookup == Miss && told.owned && !told.conflict
    ensures HandlerDecision(lookup, told).Replay?
       <==> lookup.Hit? && lookup.reply.status != 0 && HandlerDecision(lookup, told).reply == lookup.reply
  {
  }

  /** The store, updated in place; redis selects the backend. */
  class IdemStore {
    const ttl: nat
    const redis: bool
    var items: map<Key, Record>
    var inflight: map<Key, Lease>
    var cells: Remote

    ghost function Maps(): Local
      reads this
    {
      Local(items, inflight)
    }

    constructor (ttl: nat, redis: bool)
      ensures this.ttl == ttl && this.redis == redis
      ensures Maps() == Local(map[], map[]) && cells == map[]
    {
      this.ttl, this.redis := ttl, redis;
      items, inflight, cells := map[], map[], map[];
    }

    method Get(key: Key, fingerprint: string, now: Time) returns (lookup: Lookup)
      modifies this
      ensures redis ==> Maps() == old(Maps()) && cells == old(cells)
                        && lookup == RemoteGet(cells, key, fingerprint, now)
      ensures !redis ==> (Maps(), lookup) == LocalGet(old(Maps()), key, fingerprint, now) && cells == old(cells)
    {
      if redis {
        if key !in cells || cells[key].expiresAt <= now {
          return Miss;
        }
        var stored := cells[key].stored;
        if stored.fingerprint != fingerprint {
          return Mismatch;
        }
        return if stored.reply.status == 0 then Busy else Hit(stored.reply);
      }
      var keys := items.Keys;
      while keys != {}
        invariant keys <= old(items).Keys && inflight == old(inflight) && cells == old(cells)
        invariant items == map k | k in old(items) && (k in keys || now < old(items)[k].expiresAt) :: old(items)[k]
        decreases keys
      {
        var k :| k in keys;
        if k in items && items[k].expiresAt <= now {
          items := items - {k};
        }
        keys := keys - {k};
      }
      assert items == LocalGet(old(Maps()), key, fingerprint, now).0.items;
      if key !in items {
        return Miss;
      }
      return if items[key].fingerprint != fingerprint then Mismatch else Hit(items[key].reply);
    }

    method Reserve(key: Key, fingerprint: string, owner: string, now: Time, later: Time)
      returns (reservation: Reservation)
      modifies this
      ensures redis ==> Maps() == old(Maps())
                        && (cells, reservation) == RemoteReserve(old(cells), key, fingerprint, owner, now, later, ttl)
      ensures !redis ==> cells == old(cells)
                         && (Maps(), reservation) == LocalReserve(old(Maps()), key, fingerprint, owner)
    {
      if redis {
        if key !in cells || cells[key].expiresAt <= now {
          cells := cells[key := RedisCell(Stored(fingerprint, Some(owner), Reply(0, "", "")), now + ttl)];
          return Reservation(true, false, false);
        }
        var lookup := Get(key, fingerprint, later);
        return if lookup == Mismatch then Reservation(false, true, false)
               else Reservation(false, false, lookup != Miss);
      }
      if key in items {
        return if items[key].fingerprint != fingerprint then Reservation(false, true, false)
               else Reservation(false, false, true);
      }
      if key in inflight {
        return Reservation(false, inflight[key].fingerprint != fingerprint, true);
      }
      inflight := inflight[key := Lease(fingerprint, owner)];
      return Reservation(true, false, false);
    }

    method Set(key: Key, fingerprint: string, owner: string, reply: Reply, now: Time)
      modifies this
      ensures redis ==> Maps() == old(Maps())
                        && cells == RemoteSet(old(cells), key, fingerprint, owner, reply, now, ttl)
      ensures !redis ==> cells == old(cells)
                         && Maps() == LocalSet(old(Maps()), key, fingerprint, owner, reply, now, ttl)
    {
      if redis {
        if key in cells && now < cells[key].expiresAt && cells[key].stored.owner == Some(owner) {
          cells := cells[key := RedisCell(Stored(fingerprint, None, reply), now + ttl)];
        }
        return;
      }
      if (if key in inflight then inflight[key].owner else "") != owner {
        return;
      }
      inflight := inflight - {key};
      items := items[key := Record(fingerprint, reply, now + ttl)];
    }

    method Release(key: Key, owner: string, now: Time)
      modifies this
      ensures redis ==> Maps() == old(Maps()) && cells == RemoteRelease(old(cells), key, owner, now)
      ensures !redis ==> cells == old(cells) && Maps() == LocalRelease(old(Maps()), key, owner)
    {
      if redis {
        if key in cells && now < cells[key].expiresAt {
          var stored := cells[key].stored;
          if stored.owner == Some(owner) && stored.reply.status == 0 {
            cells := cells - {key};
          }
        }
        return;
      }
      if (if key in inflight then inflight[key].owner else "") == owner {
        inflight := inflight - {key};
      }
    }
  }
}
