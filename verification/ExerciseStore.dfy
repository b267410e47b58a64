/**
  The private exercise store of agentic_rag/exercises/store.py: exercises and sessions with a
  shared time to live, and the bounded windows of what a session has seen.
 */
module ExerciseStore {
  import opened Wrappers

  type Time = real

  datatype Exercise = Exercise(id: string, topic: string, grade: int, difficulty: int, kind: string,
                               problem: string, hint: string, answer: string, points: seq<string>,
                               fingerprint: string)

  datatype Outcome = Correct | CorrectAfterHint | Incorrect | Unknown

  datatype Session = Session(id: string, current: string, topic: string, grade: int, difficulty: int, kind: string,
                             fingerprints: seq<string>, prompts: seq<string>, answers: seq<string>,
                             mastery: map<string, real>)

  datatype Expiring<T> = Expiring(value: T, expiresAt: Time)

  /** promptOf is the SHA-256 of the NFKC-normalized problem and hint, left uninterpreted. */
  type PromptHash = (string, string) -> string

  datatype Store = Store(exercises: map<string, Expiring<Exercise>>, sessions: map<string, Expiring<Session>>)

  const FINGERPRINTS: nat := 20
  const PROMPTS: nat := 10
  const ANSWERS: nat := 5

  /** values[-limit:] */
  function Last<T>(values: seq<T>, limit: nat): (last: seq<T>)
    ensures |last| == if |values| <= limit then |values| else limit
  {
    if |values| <= limit then values else values[|values| - limit..]
  }

  function AppendBounded(values: seq<string>, value: string, limit: nat): seq<string> {
    Last(values + [value], limit)
  }

  // ---- Mastery

  function Clamp(x: real): real {
    if x < 0.0 then 0.0 else if x > 1.0 then 1.0 else x
  }

  function Observed(outcome: Outcome): Option<real> {
    match outcome
    case Correct => Some(1.0)
    case CorrectAfterHint => Some(0.6)
    case Incorrect => Some(0.0)
    case Unknown => None
  }

  function Moved(mastery: map<string, real>, point: string, observed: real): real {
    Clamp(0.8 * Clamp(if point in mastery then mastery[point] else 0.5) + 0.2 * observed)
  }

  function MasteryAfter(mastery: map<string, real>, points: seq<string>, outcome: Outcome): map<string, real> {
    match Observed(outcome)
    case None => mastery
    case Some(observed) =>
      if points == [] then mastery
      else
        var m := MasteryAfter(mastery, points[..|points| - 1], outcome);
        var point := points[|points| - 1];
        if point == "" then m else m[point := Moved(m, point, observed)]
  }

  /** update_mastery */
  method UpdateMastery(mastery: map<string, real>, points: seq<string>, outcome: Outcome)
    returns (updated: map<string, real>)
    ensures updated == MasteryAfter(mastery, points, outcome)
  {
    var observed := Observed(outcome);
    updated := mastery;
    if observed.None? {
      return;
    }
    for i := 0 to |points|
      invariant updated == MasteryAfter(mastery, points[..i], outcome)
    {
      assert points[..i + 1][..i] == points[..i];
      if points[i] != "" {
        var start := Clamp(if points[i] in updated then updated[points[i]] else 0.5);
        updated := updated[points[i] := Clamp(0.8 * start + 0.2 * observed.value)];
      }
    }
    assert points[..|points|] == points;
  }

  function Count(points: seq<string>, point: string): nat {
    if points == [] then 0
    else Count(points[..|points| - 1], point) + if points[|points| - 1] == point then 1 else 0
  }

  function Decay(n: nat): real {
    if n == 0 then 1.0 else 0.8 * Decay(n - 1)
  }

  lemma {:induction false} DecayWithin(n: nat)
    ensures 0.0 <= Decay(n) <= 1.0
  {
    if n == 0 {
    } else {
      DecayWithin(n - 1);
    }
  }

  function Times(x: real, y: real): real {
    x * y
  }

  lemma ProductWithin(x: real, y: real)
    requires 0.0 <= x <= 1.0 && 0.0 <= y
    ensures 0.0 <= Times(x, y) <= y
  {
    assert y - x * y == (1.0 - x) * y;
  }

  /** What is left of the distance to the observation, as a share of it. */
  function Toward(start: real, observed: real, share: real): real {
    observed + (start - observed) * share
  }

  lemma Distribute(x: real, y: real, z: real)
    ensures (x - y) * z == x * z - y * z
  {
  }

  lemma TowardBlends(start: real, observed: real, share: real, rest: real)
    requires rest == 1.0 - share
    ensures Toward(start, observed, share) == Times(observed, rest) + Times(start, share)
  {
    Distribute(start, observed, share);
    Distribute(1.0, share, observed);
    assert observed * rest == rest * observed;
  }

  lemma TowardWithin(start: real, observed: real, share: real)
    requires 0.0 <= start <= 1.0 && 0.0 <= observed <= 1.0 && 0.0 <= share <= 1.0
    ensures 0.0 <= Toward(start, observed, share) <= 1.0
  {
    hide Toward, Times;
    var rest := 1.0 - share;
    ProductWithin(observed, rest);
    ProductWithin(start, share);
    TowardBlends(start, observed, share, rest);
  }

  lemma TowardAgain(start: real, observed: real, share: real)
    ensures 0.8 * Toward(start, observed, share) + 0.2 * observed == Toward(start, observed, 0.8 * share)
  {
    assert (start - observed) * (0.8 * share) == 0.8 * ((start - observed) * share);
  }

  lemma TowardNothing(start: real, observed: real)
    ensures Toward(start, observed, 1.0) == start
  {
  }

  /**
    A point named n times keeps the share 0.8^n of its distance from the observation (it starts at
    one half if new, and is clamped first); every other entry, and the empty name, stays.
   */
  lemma {:induction false} MasteryApproaches(mastery: map<string, real>, points: seq<string>, outcome: Outcome,
                                             point: string)
    ensures var m := MasteryAfter(mastery, points, outcome);
            var n := if point == "" || Observed(outcome).None? then 0 else Count(points, point);
            if n > 0
            then var start := Clamp(if point in mastery then mastery[point] else 0.5);
                 var observed := Observed(outcome).value;
                 point in m && m[point] == Toward(start, observed, Decay(n)) && 0.0 <= m[point] <= 1.0
            else (point in m <==> point in mastery) && (point in m ==> m[point] == mastery[point])
    decreases |points|
  {
    hide Toward;
    if points != [] && Observed(outcome).Some? {
      var init, last := points[..|points| - 1], points[|points| - 1];
      MasteryApproaches(mastery, init, outcome, point);
      if last == point && point != "" {
        var n := Count(init, point);
        var start, observed := Clamp(if point in mastery then mastery[point] else 0.5), Observed(outcome).value;
        DecayWithin(n);
        DecayWithin(n + 1);
        TowardWithin(start, observed, Decay(n));
        TowardWithin(start, observed, Decay(n + 1));
        TowardAgain(start, observed, Decay(n));
        if n == 0 {
          TowardNothing(start, observed);
        }
      }
    }
  }

  /** Where a point starts: at one half if it is new, and within the unit interval in any case. */
  function StartOf(mastery: map<string, real>, point: string): (start: real)
    ensures 0.0 <= start <= 1.0
    ensures point !in mastery ==> start == 0.5
    ensures point in mastery ==>
              start == if mastery[point] < 0.0 then 0.0 else if mastery[point] > 1.0 then 1.0 else mastery[point]
  {
    Clamp(if point in mastery then mastery[point] else 0.5)
  }

  lemma TowardEnds(start: real, share: real)
    ensures Toward(start, 1.0, share) == 1.0 - (1.0 - start) * share
    ensures Toward(start, 0.0, share) == start * share
    ensures Toward(start, 0.6, share) == 0.6 + (start - 0.6) * share
  {
    Distribute(start, 1.0, share);
    Distribute(1.0, start, share);
  }

  lemma UnknownMovesNothing(mastery: map<string, real>, points: seq<string>)
    ensures MasteryAfter(mastery, points, Unknown) == mastery
  {
  }

  /**
    The mastery of a point after n namings in one exercise: correct answers leave 0.8^n of what is missing
    to 1, incorrect ones 0.8^n of the mastery, correct ones after a hint 0.8^n of the distance to 0.6.
    An unknown outcome changes nothing.
   */
  lemma MasteryAfterOutcome(mastery: map<string, real>, points: seq<string>, point: string)
    ensures MasteryAfter(mastery, points, Unknown) == mastery
    ensures point != "" && Count(points, point) > 0 ==>
              var n, start := Count(points, point), StartOf(mastery, point);
              var correct := MasteryAfter(mastery, points, Correct);
              var hinted := MasteryAfter(mastery, points, CorrectAfterHint);
              var incorrect := MasteryAfter(mastery, points, Incorrect);
              && point in correct && correct[point] == 1.0 - (1.0 - start) * Decay(n)
              && point in hinted && hinted[point] == 0.6 + (start - 0.6) * Decay(n)
              && point in incorrect && incorrect[point] == start * Decay(n)
  {
    hide MasteryAfter, Toward, Count, Decay;
    UnknownMovesNothing(mastery, points);
    MasteryApproaches(mastery, points, Correct, point);
    MasteryApproaches(mastery, points, CorrectAfterHint, point);
    MasteryApproaches(mastery, points, Incorrect, point);
    TowardEnds(StartOf(mastery, point), Decay(Count(points, point)));
  }

  lemma {:induction false} DecayShrinks(n: nat)
    requires n > 0
    ensures 0.0 < Decay(n) < 1.0
  {
    if n > 1 {
      DecayShrinks(n - 1);
    }
  }

  lemma ShareOf(x: real, share: real)
    requires 0.0 < share < 1.0
    ensures x > 0.0 ==> 0.0 < Times(x, share) < x
    ensures x < 0.0 ==> x < Times(x, share) < 0.0
    ensures x == 0.0 ==> Times(x, share) == 0.0
  {
    assert x > 0.0 ==> x * share > 0.0 && x * (1.0 - share) > 0.0;
    assert x < 0.0 ==> (0.0 - x) * share > 0.0 && (0.0 - x) * (1.0 - share) > 0.0;
  }

  lemma {:induction false} NamedIsCounted(points: seq<string>, point: string)
    ensures Count(points, point) > 0 <==> point in points
    decreases |points|
  {
    if points == [] {
    } else {
      NamedIsCounted(points[..|points| - 1], point);
      assert points == points[..|points| - 1] + [points[|points| - 1]];
    }
  }

  /**
    A named point rises after a correct answer, unless it is at 1; it falls after an incorrect one, unless
    it is at 0; after a correct one with a hint it comes closer to 0.6 from the side where it was.
   */
  lemma MasteryMoves(mastery: map<string, real>, points: seq<string>, point: string)
    requires point != "" && point in points
    ensures var start := StartOf(mastery, point);
            var correct := MasteryAfter(mastery, points, Correct);
            var hinted := MasteryAfter(mastery, points, CorrectAfterHint);
            var incorrect := MasteryAfter(mastery, points, Incorrect);
            && point in correct && point in hinted && point in incorrect
            && (if start < 1.0 then start < correct[point] < 1.0 else correct[point] == 1.0)
            && (if start > 0.0 then 0.0 < incorrect[point] < start else incorrect[point] == 0.0)
            && (if start < 0.6 then start < hinted[point] < 0.6
                else if start > 0.6 then 0.6 < hinted[point] < start
                else hinted[point] == 0.6)
  {
    hide MasteryAfter, Decay, StartOf;
    var start, n := StartOf(mastery, point), Count(points, point);
    NamedIsCounted(points, point);
    MasteryAfterOutcome(mastery, points, point);
    DecayShrinks(n);
    ShareOf(1.0 - start, Decay(n));
    ShareOf(start, Decay(n));
    ShareOf(start - 0.6, Decay(n));
    assert MasteryAfter(mastery, points, Correct)[point] == 1.0 - Times(1.0 - start, Decay(n));
    assert MasteryAfter(mastery, points, CorrectAfterHint)[point] == 0.6 + Times(start - 0.6, Decay(n));
  }

  // ---- The operations

  function Prune(s: Store, now: Time): Store {
    Store(map k | k in s.exercises && s.exercises[k].expiresAt > now :: s.exercises[k],
          map k | k in s.sessions && s.sessions[k].expiresAt > now :: s.sessions[k])
  }

  function Prior(s: Store, sessionId: string): Option<Session> {
    if sessionId in s.sessions then Some(s.sessions[sessionId].value) else None
  }

  function SessionAfter(prior: Option<Session>, freshId: string, e: Exercise, mastery: map<string, real>,
                        promptOf: PromptHash): Session {
    var p := if prior.Some? then prior.value else Session(freshId, "", "", 0, 0, "", [], [], [], map[]);
    Session(p.id, e.id, e.topic, e.grade, e.difficulty, e.kind,
            AppendBounded(p.fingerprints, e.fingerprint, FINGERPRINTS),
            AppendBounded(p.prompts, promptOf(e.problem, e.hint), PROMPTS),
            AppendBounded(p.answers, e.answer, ANSWERS),
            p.mastery + mastery)
  }

  /** start(): None is the ValueError for an exercise id that is already active. */
  function Start(s: Store, ttl: Time, now: Time, e: Exercise, mastery: map<string, real>, sessionId: string,
                 freshId: string, promptOf: PromptHash): (Store, Option<string>)
  {
    var pruned := Prune(s, now);
    if e.id in pruned.exercises then (pruned, None)
    else
      var session := SessionAfter(Prior(pruned, sessionId), freshId, e, mastery, promptOf);
      (Store(pruned.exercises[e.id := Expiring(e, now + ttl)],
             pruned.sessions[session.id := Expiring(session, now + ttl)]),
       Some(session.id))
  }

  /** record_outcome(): nothing but pruning unless the exercise is the session's current one. */
  function RecordOutcome(s: Store, ttl: Time, now: Time, sessionId: string, exerciseId: string, outcome: Outcome)
    : (Store, Option<Session>)
  {
    var pruned := Prune(s, now);
    if sessionId !in pruned.sessions || exerciseId !in pruned.exercises
       || pruned.sessions[sessionId].value.current != exerciseId then (pruned, None)
    else
      var session, e := pruned.sessions[sessionId].value, pruned.exercises[exerciseId].value;
      var updated := session.(mastery := MasteryAfter(session.mastery, e.points, outcome));
      (Store(pruned.exercises[exerciseId := Expiring(e, now + ttl)],
             pruned.sessions[sessionId := Expiring(updated, now + ttl)]),
       Some(updated))
  }

  predicate LiveExercise(s: Store, now: Time, id: string) {
    id in s.exercises && s.exercises[id].expiresAt > now
  }

  predicate LiveSession(s: Store, now: Time, id: string) {
    id in s.sessions && s.sessions[id].expiresAt > now
  }

  /** Expired entries go and the live ones stay as they are, but for those named. */
  ghost predicate KeepsLive(s: Store, s': Store, now: Time, exerciseIds: set<string>, sessionIds: set<string>) {
    && (forall id | id !in exerciseIds :: id in s'.exercises <==> LiveExercise(s, now, id))
    && (forall id <- s'.exercises | id !in exerciseIds :: s'.exercises[id] == s.exercises[id])
    && (forall id | id !in sessionIds :: id in s'.sessions <==> LiveSession(s, now, id))
    && (forall id <- s'.sessions | id !in sessionIds :: s'.sessions[id] == s.sessions[id])
  }

  lemma PruneIsLive(s: Store, now: Time)
    ensures var live := Prune(s, now);
            && (forall id :: id in live.exercises <==> LiveExercise(s, now, id))
            && (forall id <- live.exercises :: live.exercises[id] == s.exercises[id])
            && (forall id :: id in live.sessions <==> LiveSession(s, now, id))
            && (forall id <- live.sessions :: live.sessions[id] == s.sessions[id])
  {
  }

  /** The mastery of the call over that of the session, if it goes on. */
  ghost predicate Merges(merged: map<string, real>, before: map<string, real>, given: map<string, real>) {
    && (forall p :: p in merged <==> p in given || p in before)
    && (forall p <- merged :: merged[p] == if p in given then given[p] else before[p])
  }

  lemma SessionStarts(prior: Option<Session>, freshId: string, e: Exercise, mastery: map<string, real>,
                      promptOf: PromptHash)
    ensures var session := SessionAfter(prior, freshId, e, mastery, promptOf);
            && session.id == (if prior.Some? then prior.value.id else freshId) && session.current == e.id
            && session.topic == e.topic && session.grade == e.grade && session.difficulty == e.difficulty
            && session.kind == e.kind
            && Merges(session.mastery, if prior.Some? then prior.value.mastery else map[], mastery)
  {
    hide AppendBounded;
  }

  /**
    An exercise is started exactly when none with its id is live. It is then the session's current one,
    both expire together one time to live from now, and the session is the one named if that is live --
    it keeps its id, and its mastery where the call brings none -- or a new one.
   */
  lemma StartStores(s: Store, ttl: Time, now: Time, e: Exercise, mastery: map<string, real>, sessionId: string,
                    freshId: string, promptOf: PromptHash)
    requires forall k <- s.sessions :: s.sessions[k].value.id == k
    ensures var (s', started) := Start(s, ttl, now, e, mastery, sessionId, freshId, promptOf);
            var goesOn := LiveSession(s, now, sessionId);
            var id := if goesOn then sessionId else freshId;
            if LiveExercise(s, now, e.id) then started == None && KeepsLive(s, s', now, {}, {})
            else
              && started == Some(id) && KeepsLive(s, s', now, {e.id}, {id})
              && e.id in s'.exercises && s'.exercises[e.id] == Expiring(e, now + ttl)
              && id in s'.sessions && s'.sessions[id].expiresAt == now + ttl
              && var session := s'.sessions[id].value;
                 && session.id == id && session.current == e.id && session.topic == e.topic
                 && session.grade == e.grade && session.difficulty == e.difficulty && session.kind == e.kind
                 && Merges(session.mastery, if goesOn then s.sessions[sessionId].value.mastery else map[], mastery)
  {
    hide SessionAfter, Merges, Prune;
    PruneIsLive(s, now);
    SessionStarts(Prior(Prune(s, now), sessionId), freshId, e, mastery, promptOf);
  }

  /**
    An outcome is recorded exactly when session and exercise are live and the exercise is the session's
    current one. Then the mastery moves by the exercise's points, nothing else in the session changes, and
    both expire one time to live from now.
   */
  lemma RecordStores(s: Store, ttl: Time, now: Time, sessionId: string, exerciseId: string, outcome: Outcome)
    ensures var (s', recorded) := RecordOutcome(s, ttl, now, sessionId, exerciseId, outcome);
            if LiveSession(s, now, sessionId) && LiveExercise(s, now, exerciseId)
               && s.sessions[sessionId].value.current == exerciseId
            then
              var session, e := s.sessions[sessionId].value, s.exercises[exerciseId].value;
              var updated := session.(mastery := MasteryAfter(session.mastery, e.points, outcome));
              && recorded == Some(updated) && KeepsLive(s, s', now, {exerciseId}, {sessionId})
              && sessionId in s'.sessions && s'.sessions[sessionId] == Expiring(updated, now + ttl)
              && exerciseId in s'.exercises && s'.exercises[exerciseId] == Expiring(e, now + ttl)
            else recorded == None && KeepsLive(s, s', now, {}, {})
  {
    hide MasteryAfter, Prune;
    PruneIsLive(s, now);
  }

  // ---- Runs, with the full start history of every session ever created as bookkeeping

  datatype Tracked = Tracked(store: Store, history: map<string, seq<Exercise>>)

  datatype Call =
    | StartCall(now: Time, e: Exercise, mastery: map<string, real>, sessionId: string, freshId: string)
    | OutcomeCall(now: Time, sessionId: string, exerciseId: string, outcome: Outcome)
    | LookCall(now: Time)      // get_exercise and get_session only prune

  /** A new session id is a uuid4, so never one that was used before. */
  predicate Allowed(t: Tracked, call: Call) {
    call.StartCall? ==> call.freshId !in t.history
  }

  function Do(t: Tracked, ttl: Time, promptOf: PromptHash, call: Call): Tracked {
    match call
    case StartCall(now, e, mastery, sessionId, freshId) =>
      var (store, started) := Start(t.store, ttl, now, e, mastery, sessionId, freshId, promptOf);
      if started.None? then Tracked(store, t.history)
      else
        var past := if started.value in t.history then t.history[started.value] else [];
        Tracked(store, t.history[started.value := past + [e]])
    case OutcomeCall(now, sessionId, exerciseId, outcome) =>
      Tracked(RecordOutcome(t.store, ttl, now, sessionId, exerciseId, outcome).0, t.history)
    case LookCall(now) => Tracked(Prune(t.store, now), t.history)
  }

  predicate CanDo(t: Tracked, ttl: Time, promptOf: PromptHash, calls: seq<Call>)
    decreases |calls|
  {
    calls == [] || (Allowed(t, calls[0]) && CanDo(Do(t, ttl, promptOf, calls[0]), ttl, promptOf, calls[1..]))
  }

  function DoAll(t: Tracked, ttl: Time, promptOf: PromptHash, calls: seq<Call>): Tracked
    requires CanDo(t, ttl, promptOf, calls)
    decreases |calls|
  {
    if calls == [] then t else DoAll(Do(t, ttl, promptOf, calls[0]), ttl, promptOf, calls[1..])
  }

  const NEW_STORE := Tracked(Store(map[], map[]), map[])

  function Map<T>(f: Exercise -> T, es: seq<Exercise>): (out: seq<T>)
    ensures |out| == |es| && forall i | 0 <= i < |es| :: out[i] == f(es[i])
  {
    seq(|es|, i requires 0 <= i < |es| => f(es[i]))
  }

  function Fingerprints(h: seq<Exercise>): seq<string> {
    Map((e: Exercise) => e.fingerprint, h)
  }

  function Prompts(h: seq<Exercise>, promptOf: PromptHash): seq<string> {
    Map((e: Exercise) => promptOf(e.problem, e.hint), h)
  }

  function Answers(h: seq<Exercise>): seq<string> {
    Map((e: Exercise) => e.answer, h)
  }

  /** Session and current exercise live and die together. */
  ghost predicate Lockstep(s: Store) {
    && (forall k <- s.exercises :: s.exercises[k].value.id == k)
    && (forall k <- s.sessions ::
          s.sessions[k].value.id == k
          && s.sessions[k].value.current in s.exercises
          && s.exercises[s.sessions[k].value.current].expiresAt == s.sessions[k].expiresAt)
    && (forall k1 <- s.sessions, k2 <- s.sessions ::
          s.sessions[k1].value.current == s.sessions[k2].value.current ==> k1 == k2)
  }

  /** The windows are the last entries of the session's whole history. */
  ghost predicate WindowsOk(session: Session, h: seq<Exercise>, promptOf: PromptHash) {
    && h != [] && h[|h| - 1].id == session.current
    && session.fingerprints == Last(Fingerprints(h), 20)
    && session.prompts == Last(Prompts(h, promptOf), 10)
    && session.answers == Last(Answers(h), 5)
  }

  ghost predicate Ok(t: Tracked, promptOf: PromptHash) {
    && Lockstep(t.store)
    && (forall k <- t.store.sessions ::
          k in t.history && WindowsOk(t.store.sessions[k].value, t.history[k], promptOf))
  }

  // ---- Preservation

  lemma {:induction false} LastOfLast<T>(values: seq<T>, value: T, limit: nat)
    ensures Last(Last(values, limit) + [value], limit) == Last(values + [value], limit)
  {
    if |values| > limit {
      assert Last(values, limit) + [value] == (values + [value])[|values| - limit..];
    }
  }

  lemma PruneKeepsLockstep(s: Store, now: Time)
    requires Lockstep(s)
    ensures Lockstep(Prune(s, now))
  {
  }

  lemma StartPruned(s: Store, expiresAt: Time, e: Exercise, session: Session)
    requires Lockstep(s) && session.current == e.id
    requires e.id !in s.exercises
    ensures Lockstep(Store(s.exercises[e.id := Expiring(e, expiresAt)],
                           s.sessions[session.id := Expiring(session, expiresAt)]))
  {
  }

  lemma StartKeepsLockstep(s: Store, ttl: Time, now: Time, e: Exercise, mastery: map<string, real>, sessionId: string,
                           freshId: string, promptOf: PromptHash)
    requires Lockstep(s) && freshId !in s.sessions
    ensures Lockstep(Start(s, ttl, now, e, mastery, sessionId, freshId, promptOf).0)
  {
    hide Lockstep, AppendBounded, Prior, Prune;
    PruneKeepsLockstep(s, now);
    var pruned := Prune(s, now);
    if e.id !in pruned.exercises {
      StartPruned(pruned, now + ttl, e, SessionAfter(Prior(pruned, sessionId), freshId, e, mastery, promptOf));
    }
  }

  lemma OutcomeKeepsLockstep(s: Store, ttl: Time, now: Time, sessionId: string, exerciseId: string, outcome: Outcome)
    requires Lockstep(s)
    ensures Lockstep(RecordOutcome(s, ttl, now, sessionId, exerciseId, outcome).0)
  {
    hide MasteryAfter;
    PruneKeepsLockstep(s, now);
  }

  lemma WindowsGrow(prior: Option<Session>, h: seq<Exercise>, freshId: string, e: Exercise,
                    mastery: map<string, real>, promptOf: PromptHash)
    requires if prior.Some? then WindowsOk(prior.value, h, promptOf) else h == []
    ensures WindowsOk(SessionAfter(prior, freshId, e, mastery, promptOf), h + [e], promptOf)
  {
    var p := promptOf(e.problem, e.hint);
    assert Fingerprints(h + [e]) == Fingerprints(h) + [e.fingerprint];
    assert Prompts(h + [e], promptOf) == Prompts(h, promptOf) + [p];
    assert Answers(h + [e]) == Answers(h) + [e.answer];
    LastOfLast(Fingerprints(h), e.fingerprint, FINGERPRINTS);
    LastOfLast(Prompts(h, promptOf), p, PROMPTS);
    LastOfLast(Answers(h), e.answer, ANSWERS);
  }

  lemma PriorId(t: Tracked, sessionId: string)
    requires Lockstep(t.store)
    ensures sessionId in t.store.sessions ==> t.store.sessions[sessionId].value.id == sessionId
  {
  }

  lemma SessionAfterId(prior: Option<Session>, freshId: string, e: Exercise, mastery: map<string, real>,
                       promptOf: PromptHash)
    ensures SessionAfter(prior, freshId, e, mastery, promptOf).id
            == if prior.Some? then prior.value.id else freshId
  {
  }

  lemma StartKeeps(t: Tracked, ttl: Time, promptOf: PromptHash, call: Call)
    requires Ok(t, promptOf) && Allowed(t, call) && call.StartCall?
    ensures Ok(Do(t, ttl, promptOf, call), promptOf)
  {
    hide Lockstep, WindowsOk, SessionAfter;
    var StartCall(now, e, mastery, sessionId, freshId) := call;
    var pruned := Prune(t.store, now);
    assert freshId !in t.store.sessions;
    StartKeepsLockstep(t.store, ttl, now, e, mastery, sessionId, freshId, promptOf);
    var prior := Prior(pruned, sessionId);
    PriorId(t, sessionId);
    SessionAfterId(prior, freshId, e, mastery, promptOf);
    var h := if prior.Some? then t.history[sessionId] else [];
    WindowsGrow(prior, h, freshId, e, mastery, promptOf);
  }

  lemma CallKeeps(t: Tracked, ttl: Time, promptOf: PromptHash, call: Call)
    requires Ok(t, promptOf) && Allowed(t, call)
    ensures Ok(Do(t, ttl, promptOf, call), promptOf)
  {
    hide Lockstep, MasteryAfter, Last;
    match call
    case StartCall(_, _, _, _, _) => StartKeeps(t, ttl, promptOf, call);
    case OutcomeCall(now, sessionId, exerciseId, outcome) =>
      OutcomeKeepsLockstep(t.store, ttl, now, sessionId, exerciseId, outcome);
    case LookCall(now) => PruneKeepsLockstep(t.store, now);
  }

  lemma {:induction false} RunKeeps(t: Tracked, ttl: Time, promptOf: PromptHash, calls: seq<Call>)
    requires Ok(t, promptOf) && CanDo(t, ttl, promptOf, calls)
    ensures Ok(DoAll(t, ttl, promptOf, calls), promptOf)
    decreases |calls|
  {
    if calls == [] {
    } else {
      CallKeeps(t, ttl, promptOf, calls[0]);
      RunKeeps(Do(t, ttl, promptOf, calls[0]), ttl, promptOf, calls[1..]);
    }
  }

  /**
    In every run of the store -- with any clock readings, monotone or not -- a session that is
    still live has a live current exercise that expires with it, no exercise is current for two
    sessions, and the windows are the last 20, 10 and 5 entries of everything the session started.
   */
  lemma SessionsAndExercisesMoveTogether(ttl: Time, promptOf: PromptHash, calls: seq<Call>, sessionId: string,
                                         now: Time)
    requires CanDo(NEW_STORE, ttl, promptOf, calls)
    ensures var t := DoAll(NEW_STORE, ttl, promptOf, calls);
            var live := Prune(t.store, now);
            sessionId in live.sessions ==>
              var session := live.sessions[sessionId].value;
              && session.current in live.exercises
              && live.exercises[session.current].expiresAt == live.sessions[sessionId].expiresAt
              && (forall k <- live.sessions :: live.sessions[k].value.current == session.current ==> k == sessionId)
              && sessionId in t.history && WindowsOk(session, t.history[sessionId], promptOf)
  {
    hide WindowsOk;
    RunKeeps(NEW_STORE, ttl, promptOf, calls);
    PruneKeepsLockstep(DoAll(NEW_STORE, ttl, promptOf, calls).store, now);
  }

  /** The store object, updated in place under its lock. */
  class Exercises {
    const ttl: Time
    const promptOf: PromptHash
    var exercises: map<string, Expiring<Exercise>>
    var sessions: map<string, Expiring<Session>>

    ghost function State(): Store
      reads this
    {
      Store(exercises, sessions)
    }

    constructor (ttl: Time, promptOf: PromptHash)
      requires ttl > 0.0
      ensures this.ttl == ttl && this.promptOf == promptOf && State() == Store(map[], map[])
    {
      this.ttl, this.promptOf := ttl, promptOf;
      exercises, sessions := map[], map[];
    }

    method PruneLocked(now: Time)
      modifies this
      ensures State() == Prune(old(State()), now)
    {
      exercises := map k | k in exercises && exercises[k].expiresAt > now :: exercises[k];
      sessions := map k | k in sessions && sessions[k].expiresAt > now :: sessions[k];
    }

    method StartExercise(now: Time, e: Exercise, mastery: map<string, real>, sessionId: string, freshId: string)
      returns (started: Option<string>)
      modifies this
      ensures (State(), started)
              == Start(old(State()), ttl, now, e, mastery, sessionId, freshId, promptOf)
    {
      PruneLocked(now);
      if e.id in exercises {
        return None;
      }
      var prior := if sessionId in sessions then Some(sessions[sessionId].value) else None;
      var resolved := if prior.Some? then prior.value.id else freshId;
      var merged := (if prior.Some? then prior.value.mastery else map[]) + mastery;
      var fingerprints := if prior.Some? then prior.value.fingerprints else [];
      var prompts := if prior.Some? then prior.value.prompts else [];
      var answers := if prior.Some? then prior.value.answers else [];
      var session := Session(resolved, e.id, e.topic, e.grade, e.difficulty, e.kind,
                             AppendBounded(fingerprints, e.fingerprint, FINGERPRINTS),
                             AppendBounded(prompts, promptOf(e.problem, e.hint), PROMPTS),
                             AppendBounded(answers, e.answer, ANSWERS),
                             merged);
      exercises := exercises[e.id := Expiring(e, now + ttl)];
      sessions := sessions[resolved := Expiring(session, now + ttl)];
      started := Some(resolved);
    }

    method GetSession(now: Time, sessionId: string) returns (session: Option<Session>)
      modifies this
      ensures State() == Prune(old(State()), now) && session == Prior(State(), sessionId)
    {
      PruneLocked(now);
      session := if sessionId in sessions then Some(sessions[sessionId].value) else None;
    }

    method Record(now: Time, sessionId: string, exerciseId: string, outcome: Outcome)
      returns (session: Option<Session>)
      modifies this
      ensures (State(), session) == RecordOutcome(old(State()), ttl, now, sessionId, exerciseId, outcome)
    {
      PruneLocked(now);
      if sessionId !in sessions || exerciseId !in exercises {
        return None;
      }
      var current, e := sessions[sessionId].value, exercises[exerciseId].value;
      if current.current != exerciseId {
        return None;
      }
      var mastery := UpdateMastery(current.mastery, e.points, outcome);
      var updated := current.(mastery := mastery);
      sessions := sessions[sessionId := Expiring(updated, now + ttl)];
      exercises := exercises[exerciseId := Expiring(e, now + ttl)];
      session := Some(updated);
    }
  }
}
