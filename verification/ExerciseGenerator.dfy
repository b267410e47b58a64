/**
  The bounded search of agentic_rag/exercises/generator.py and the requests of
  agentic_rag/fast_path.py that chain it to the exercise store: a request reads the session's
  windows, draws a candidate against them, and only then starts it. Requests on one session may
  overlap, so the windows a request searched against can be out of date when it starts.
 */
module ExerciseGenerator {
  import opened Wrappers
  import opened ExerciseStore

  datatype Template = Template(id: string, topic: string, grades: set<int>, difficulties: seq<int>, kind: string)

  /** The parsed wish; the parser itself (regular expressions, mastery average) is left open. */
  datatype Wish = Wish(topic: string, language: string, grade: int, difficulty: int, kind: string)

  datatype Windows = Windows(fingerprints: seq<string>, prompts: seq<string>, answers: seq<string>)

  /** One draw of the random generator: which matching template, the candidate's seed and its uuid. */
  datatype Attempt = Attempt(pick: nat, seed: nat, id: string)

  /**
    The verified exercise of a template at a difficulty, grade and seed, in a language; None if making it
    raises or it fails validation.
   */
  type Maker = (string, int, int, nat, string) -> Option<Exercise>

  datatype Env = Env(ttl: Time, promptOf: PromptHash, registry: seq<Template>, make: Maker)

  predicate Serves(t: Template, wish: Wish) {
    t.topic == wish.topic && wish.grade in t.grades && (wish.kind == "mixed" || t.kind == wish.kind)
  }

  function Definitions(registry: seq<Template>, wish: Wish): (matching: seq<Template>)
    ensures forall t :: t in matching <==> t in registry && Serves(t, wish) && wish.difficulty in t.difficulties
  {
    if registry == [] then []
    else
      var t := registry[0];
      (if Serves(t, wish) && wish.difficulty in t.difficulties then [t] else []) + Definitions(registry[1..], wish)
  }

  function Drawn(env: Env, wish: Wish, matching: seq<Template>, attempt: Attempt): Option<Exercise>
    requires matching != []
  {
    var made := env.make(matching[attempt.pick % |matching|].id, wish.difficulty, wish.grade, attempt.seed,
                         wish.language);
    if made.None? then None else Some(made.value.(id := attempt.id))
  }

  function Draws(env: Env, wish: Wish, attempts: seq<Attempt>): (draws: seq<Option<Exercise>>) {
    var matching := Definitions(env.registry, wish);
    if matching == [] then []
    else seq(|attempts|, i requires 0 <= i < |attempts| => Drawn(env, wish, matching, attempts[i]))
  }

  predicate Fresh(e: Exercise, w: Windows, promptOf: PromptHash) {
    e.fingerprint !in w.fingerprints && promptOf(e.problem, e.hint) !in w.prompts
  }

  predicate Acceptable(draw: Option<Exercise>, w: Windows, promptOf: PromptHash, newAnswer: bool) {
    draw.Some? && Fresh(draw.value, w, promptOf) && (newAnswer ==> draw.value.answer !in w.answers)
  }

  /** The first acceptable draw. */
  function First(draws: seq<Option<Exercise>>, w: Windows, promptOf: PromptHash, newAnswer: bool): Option<Exercise> {
    if draws == [] then None
    else
      var earlier := First(draws[..|draws| - 1], w, promptOf, newAnswer);
      var last := draws[|draws| - 1];
      if earlier.Some? then earlier else if Acceptable(last, w, promptOf, newAnswer) then last else None
  }

  /** The first fresh draw with a new answer, or failing that the first fresh draw. */
  function Choose(draws: seq<Option<Exercise>>, w: Windows, promptOf: PromptHash): Option<Exercise> {
    var best := First(draws, w, promptOf, true);
    if best.Some? then best else First(draws, w, promptOf, false)
  }

  lemma NoDraws(w: Windows, promptOf: PromptHash)
    ensures forall newAnswer :: First([], w, promptOf, newAnswer) == None
  {
  }

  lemma FirstStep(draws: seq<Option<Exercise>>, w: Windows, promptOf: PromptHash, newAnswer: bool, k: nat)
    requires k < |draws|
    ensures First(draws[..k + 1], w, promptOf, newAnswer)
            == var earlier := First(draws[..k], w, promptOf, newAnswer);
               if earlier.Some? then earlier
               else if Acceptable(draws[k], w, promptOf, newAnswer) then draws[k] else None
  {
    assert draws[..k + 1][..k] == draws[..k];
  }

  lemma {:induction false} FirstStays(draws: seq<Option<Exercise>>, w: Windows, promptOf: PromptHash, newAnswer: bool,
                                      k: nat)
    requires k <= |draws| && First(draws[..k], w, promptOf, newAnswer).Some?
    ensures First(draws, w, promptOf, newAnswer) == First(draws[..k], w, promptOf, newAnswer)
    decreases |draws|
  {
    if k == |draws| {
      assert draws[..k] == draws;
    } else {
      var init := draws[..|draws| - 1];
      assert init[..k] == draws[..k];
      FirstStays(init, w, promptOf, newAnswer, k);
    }
  }

  /** AdaptiveExerciseGenerator.generate; None is ExerciseGenerationError. */
  method Generate(env: Env, wish: Wish, w: Windows, attempts: seq<Attempt>) returns (found: Option<Exercise>)
    ensures found == Choose(Draws(env, wish, attempts), w, env.promptOf)
  {
    hide First, Definitions;
    var definitions := Definitions(env.registry, wish);
    if definitions == [] {
      NoDraws(w, env.promptOf);
      return None;
    }
    ghost var draws := Draws(env, wish, attempts);
    NoDraws(w, env.promptOf);
    var fallback := None;
    for i := 0 to |attempts|
      invariant First(draws[..i], w, env.promptOf, true) == None
      invariant fallback == First(draws[..i], w, env.promptOf, false)
    {
      FirstStep(draws, w, env.promptOf, true, i);
      FirstStep(draws, w, env.promptOf, false, i);
      var definition := definitions[attempts[i].pick % |definitions|];
      var made := env.make(definition.id, wish.difficulty, wish.grade, attempts[i].seed, wish.language);
      if made.None? {
        continue;
      }
      var e := made.value.(id := attempts[i].id);
      if e.fingerprint in w.fingerprints {
        continue;
      }
      if env.promptOf(e.problem, e.hint) in w.prompts {
        continue;
      }
      if e.answer in w.answers {
        if fallback.None? {
          fallback := Some(e);
        }
        continue;
      }
      FirstStays(draws, w, env.promptOf, true, i + 1);
      return Some(e);
    }
    assert draws[..|attempts|] == draws;
    found := fallback;
  }

  lemma {:induction false} FirstIsFirst(draws: seq<Option<Exercise>>, w: Windows, promptOf: PromptHash, newAnswer: bool)
    ensures var found := First(draws, w, promptOf, newAnswer);
            if found.None? then forall draw <- draws :: !Acceptable(draw, w, promptOf, newAnswer)
            else exists i | 0 <= i < |draws| ::
                   draws[i] == found && Acceptable(found, w, promptOf, newAnswer)
                   && forall j | 0 <= j < i :: !Acceptable(draws[j], w, promptOf, newAnswer)
    decreases |draws|
  {
    if draws == [] {
    } else {
      var n := |draws| - 1;
      var init := draws[..n];
      FirstIsFirst(init, w, promptOf, newAnswer);
      assert draws == init + [draws[n]];
      var earlier := First(init, w, promptOf, newAnswer);
      if earlier.Some? {
        var i :| 0 <= i < |init| && init[i] == earlier && Acceptable(earlier, w, promptOf, newAnswer)
                 && forall j | 0 <= j < i :: !Acceptable(init[j], w, promptOf, newAnswer);
        assert draws[i] == earlier && forall j | 0 <= j < i :: draws[j] == init[j];
      } else if Acceptable(draws[n], w, promptOf, newAnswer) {
        assert forall j | 0 <= j < n :: draws[j] in init;
      }
    }
  }

  /**
    What the search promises: it fails exactly when no draw is fresh; what it returns is fresh;
    a recent answer is repeated only when every fresh draw repeats one.
   */
  lemma ChooseIsFresh(draws: seq<Option<Exercise>>, w: Windows, promptOf: PromptHash)
    ensures var found := Choose(draws, w, promptOf);
            && (found.None? <==> forall draw <- draws | draw.Some? :: !Fresh(draw.value, w, promptOf))
            && (found.Some? ==>
                  && found in draws && Fresh(found.value, w, promptOf)
                  && (found.value.answer in w.answers <==>
                        forall draw <- draws | draw.Some? && Fresh(draw.value, w, promptOf) ::
                          draw.value.answer in w.answers))
  {
    FirstIsFirst(draws, w, promptOf, true);
    FirstIsFirst(draws, w, promptOf, false);
    assert forall draw <- draws :: Acceptable(draw, w, promptOf, false) <==>
                                     draw.Some? && Fresh(draw.value, w, promptOf);
    assert forall draw <- draws :: Acceptable(draw, w, promptOf, true) <==>
                                     Acceptable(draw, w, promptOf, false) && draw.value.answer !in w.answers;
  }

  // ---- The nearest supported difficulty

  function Distance(a: int, b: int): nat {
    if a < b then b - a else a - b
  }

  predicate Nearer(a: int, b: int, wanted: int) {
    Distance(a, wanted) < Distance(b, wanted) || (Distance(a, wanted) == Distance(b, wanted) && a <= b)
  }

  function Levels(registry: seq<Template>, wish: Wish): (levels: seq<int>)
    ensures forall level :: level in levels <==>
                              exists t :: t in registry && Serves(t, wish) && level in t.difficulties
  {
    if registry == [] then []
    else
      assert registry == [registry[0]] + registry[1..];
      (if Serves(registry[0], wish) then registry[0].difficulties else []) + Levels(registry[1..], wish)
  }

  function Closest(levels: seq<int>, wanted: int): (level: int)
    requires levels != []
    ensures level in levels && forall other <- levels :: Nearer(level, other, wanted)
  {
    if |levels| == 1 then levels[0]
    else
      var rest := Closest(levels[1..], wanted);
      assert levels == [levels[0]] + levels[1..];
      if Nearer(levels[0], rest, wanted) then levels[0] else rest
  }

  /** _nearest_supported_request */
  function NearestWish(registry: seq<Template>, wish: Wish): Option<Wish> {
    var levels := Levels(registry, wish);
    if levels == [] then None else Some(wish.(difficulty := Closest(levels, wish.difficulty)))
  }

  /**
    The fallback always has a matching template, is as near as any supported difficulty (the
    lower one of two equally near), and repeats the same wish when that had templates already.
   */
  lemma NearestWishIsServable(registry: seq<Template>, wish: Wish)
    ensures match NearestWish(registry, wish)
            case None => forall t <- registry, level | Serves(t, wish) :: level !in t.difficulties
            case Some(near) =>
              && Definitions(registry, near) != []
              && near == wish.(difficulty := near.difficulty)
              && (forall t <- registry, level | Serves(t, wish) && level in t.difficulties ::
                    Nearer(near.difficulty, level, wish.difficulty))
              && (near == wish <==> Definitions(registry, wish) != [])
  {
    var levels := Levels(registry, wish);
    if levels == [] {
      forall t <- registry, level | Serves(t, wish) ensures level !in t.difficulties {
        assert level !in levels;
      }
    } else {
      var level := Closest(levels, wish.difficulty);
      var near := wish.(difficulty := level);
      var t :| t in registry && Serves(t, wish) && level in t.difficulties;
      assert t in Definitions(registry, near);
      if Definitions(registry, wish) != [] {
        assert Definitions(registry, wish)[0] in Definitions(registry, wish);
        assert wish.difficulty in levels;
        assert Nearer(level, wish.difficulty, wish.difficulty);
      }
    }
  }

  /** _adaptive_generated_response up to the call of start, with the authoring agent off. */
  function Pick(env: Env, wish: Wish, w: Windows, first: seq<Attempt>, second: seq<Attempt>): Option<Exercise> {
    var found := Choose(Draws(env, wish, first), w, env.promptOf);
    if found.Some? then found
    else match NearestWish(env.registry, wish)
         case None => None
         case Some(near) => Choose(Draws(env, near, second), w, env.promptOf)
  }

  lemma PickIsFresh(env: Env, wish: Wish, w: Windows, first: seq<Attempt>, second: seq<Attempt>)
    ensures var picked := Pick(env, wish, w, first, second);
            picked.Some? ==> Fresh(picked.value, w, env.promptOf)
  {
    ChooseIsFresh(Draws(env, wish, first), w, env.promptOf);
    match NearestWish(env.registry, wish)
    case None =>
    case Some(near) => ChooseIsFresh(Draws(env, near, second), w, env.promptOf);
  }

  /** The draws the pick was made from: the fallback's only when the first search failed. */
  function Used(env: Env, wish: Wish, w: Windows, first: seq<Attempt>, second: seq<Attempt>): seq<Option<Exercise>> {
    var near := NearestWish(env.registry, wish);
    if Choose(Draws(env, wish, first), w, env.promptOf).Some? || near.None? then Draws(env, wish, first)
    else Draws(env, near.value, second)
  }

  /** A pick repeats one of the session's last answers exactly when every fresh draw of its budget did. */
  lemma PickRepeatsWhenForced(env: Env, session: Session, history: seq<Exercise>, wish: Wish,
                              first: seq<Attempt>, second: seq<Attempt>)
    requires WindowsOk(session, history, env.promptOf)
    requires Pick(env, wish, WindowsOf(Some(session)), first, second).Some?
    ensures var w := WindowsOf(Some(session));
            Pick(env, wish, w, first, second).value.answer in Last(Answers(history), ANSWERS)
            <==> forall draw <- Used(env, wish, w, first, second) | draw.Some? && Fresh(draw.value, w, env.promptOf) ::
                   draw.value.answer in Last(Answers(history), ANSWERS)
  {
    var w := WindowsOf(Some(session));
    ChooseIsFresh(Draws(env, wish, first), w, env.promptOf);
    match NearestWish(env.registry, wish)
    case None =>
    case Some(near) => ChooseIsFresh(Draws(env, near, second), w, env.promptOf);
  }

  /** The exercise comes from a template for the wish, made at this level with the draw's own seed and id. */
  ghost predicate MadeFor(env: Env, wish: Wish, level: int, attempts: seq<Attempt>, e: Exercise) {
    exists t, attempt | t in env.registry && attempt in attempts ::
      && t.topic == wish.topic && wish.grade in t.grades && level in t.difficulties
      && (wish.kind == "mixed" || t.kind == wish.kind)
      && e.id == attempt.id
      && exists made :: env.make(t.id, level, wish.grade, attempt.seed, wish.language) == Some(made)
                        && e == made.(id := attempt.id)
  }

  lemma DrawsAreMade(env: Env, wish: Wish, attempts: seq<Attempt>, e: Exercise)
    requires Some(e) in Draws(env, wish, attempts)
    ensures MadeFor(env, wish, wish.difficulty, attempts, e)
  {
    var matching := Definitions(env.registry, wish);
    var i :| 0 <= i < |attempts| && Draws(env, wish, attempts)[i] == Some(e);
    var t := matching[attempts[i].pick % |matching|];
    assert t in matching && attempts[i] in attempts;
    var made := env.make(t.id, wish.difficulty, wish.grade, attempts[i].seed, wish.language);
    assert made == Some(made.value) && e == made.value.(id := attempts[i].id);
  }

  /** No draw of the first search is fresh. */
  ghost predicate NothingFresh(env: Env, wish: Wish, w: Windows, attempts: seq<Attempt>) {
    forall draw <- Draws(env, wish, attempts) | draw.Some? ::
      draw.value.fingerprint in w.fingerprints || env.promptOf(draw.value.problem, draw.value.hint) in w.prompts
  }

  /** A template for the wish, at some difficulty. */
  ghost predicate Offers(env: Env, wish: Wish, level: int) {
    exists t <- env.registry ::
      t.topic == wish.topic && wish.grade in t.grades && (wish.kind == "mixed" || t.kind == wish.kind)
      && level in t.difficulties
  }

  /** The level is offered, no other is nearer to the wished one, and of two equally near ones it is the lower. */
  ghost predicate IsNearest(env: Env, wish: Wish, level: int) {
    && Offers(env, wish, level)
    && forall other | Offers(env, wish, other) ::
         var d, d' := Distance(level, wish.difficulty), Distance(other, wish.difficulty);
         d < d' || (d == d' && level <= other)
  }

  lemma NearestIsNearest(env: Env, wish: Wish, near: Wish)
    requires near == wish.(difficulty := near.difficulty) && Definitions(env.registry, near) != []
    requires forall t <- env.registry, level | Serves(t, wish) && level in t.difficulties ::
               Nearer(near.difficulty, level, wish.difficulty)
    ensures IsNearest(env, wish, near.difficulty)
  {
    var t := Definitions(env.registry, near)[0];
    assert t in Definitions(env.registry, near);
    assert Offers(env, wish, near.difficulty);
    forall other | Offers(env, wish, other) ensures Nearer(near.difficulty, other, wish.difficulty) {
      var u :| u in env.registry && u.topic == wish.topic && wish.grade in u.grades
               && (wish.kind == "mixed" || u.kind == wish.kind) && other in u.difficulties;
      assert Serves(u, wish);
    }
  }

  lemma NearestIs(env: Env, wish: Wish)
    ensures match NearestWish(env.registry, wish)
            case None => forall level :: !Offers(env, wish, level)
            case Some(near) => near == wish.(difficulty := near.difficulty) && IsNearest(env, wish, near.difficulty)
  {
    hide Levels, Definitions, NearestWish;
    NearestWishIsServable(env.registry, wish);
    match NearestWish(env.registry, wish)
    case None =>
      forall level ensures !Offers(env, wish, level) {
        assert forall t <- env.registry | Serves(t, wish) :: level !in t.difficulties;
      }
    case Some(near) => NearestIsNearest(env, wish, near);
  }

  lemma SameTemplates(env: Env, wish: Wish, near: Wish, attempts: seq<Attempt>, e: Exercise)
    requires near == wish.(difficulty := near.difficulty) && MadeFor(env, near, near.difficulty, attempts, e)
    ensures MadeFor(env, wish, near.difficulty, attempts, e)
  {
  }

  lemma ChosenIsMade(env: Env, wish: Wish, w: Windows, attempts: seq<Attempt>)
    ensures var found := Choose(Draws(env, wish, attempts), w, env.promptOf);
            && (found.None? <==> NothingFresh(env, wish, w, attempts))
            && (found.Some? ==>
                  MadeFor(env, wish, wish.difficulty, attempts, found.value)
                  && found.value.fingerprint !in w.fingerprints
                  && env.promptOf(found.value.problem, found.value.hint) !in w.prompts)
  {
    hide Draws, Choose, MadeFor;
    ChooseIsFresh(Draws(env, wish, attempts), w, env.promptOf);
    var found := Choose(Draws(env, wish, attempts), w, env.promptOf);
    if found.Some? {
      DrawsAreMade(env, wish, attempts, found.value);
    }
  }

  /**
    What is picked was made for the wish at the wished difficulty, or, when nothing fresh was drawn there,
    at the supported difficulty nearest to it; and it is in neither window.
   */
  lemma PickIsMade(env: Env, wish: Wish, w: Windows, first: seq<Attempt>, second: seq<Attempt>)
    requires Pick(env, wish, w, first, second).Some?
    ensures var e := Pick(env, wish, w, first, second).value;
            && e.fingerprint !in w.fingerprints && env.promptOf(e.problem, e.hint) !in w.prompts
            && (if NothingFresh(env, wish, w, first)
                then exists level :: MadeFor(env, wish, level, second, e) && IsNearest(env, wish, level)
                else MadeFor(env, wish, wish.difficulty, first, e))
  {
    hide Draws, Choose, MadeFor, IsNearest, NothingFresh, NearestWish;
    ChosenIsMade(env, wish, w, first);
    if NothingFresh(env, wish, w, first) {
      NearestIs(env, wish);
      var near := NearestWish(env.registry, wish).value;
      ChosenIsMade(env, near, w, second);
      SameTemplates(env, wish, near, second, Pick(env, wish, w, first, second).value);
    }
  }

  lemma NearestIsOffered(env: Env, wish: Wish, level: int)
    ensures IsNearest(env, wish, level) ==> Offers(env, wish, level)
  {
  }

  lemma OneNearest(env: Env, wish: Wish, a: int, b: int)
    requires IsNearest(env, wish, a) && IsNearest(env, wish, b)
    ensures a == b
  {
    hide Offers;
  }

  /** Nothing is picked exactly when the first search found nothing fresh and the nearest level, if any, neither. */
  lemma PickFailsExactlyWhen(env: Env, wish: Wish, w: Windows, first: seq<Attempt>, second: seq<Attempt>)
    ensures Pick(env, wish, w, first, second).None?
       <==> && NothingFresh(env, wish, w, first)
            && forall level | IsNearest(env, wish, level) ::
                 NothingFresh(env, wish.(difficulty := level), w, second)
  {
    hide Draws, Choose, MadeFor, IsNearest, Offers, NothingFresh, NearestWish;
    ChosenIsMade(env, wish, w, first);
    NearestIs(env, wish);
    match NearestWish(env.registry, wish)
    case None =>
      forall level ensures !IsNearest(env, wish, level) {
        NearestIsOffered(env, wish, level);
      }
    case Some(near) =>
      ChosenIsMade(env, near, w, second);
      forall level | IsNearest(env, wish, level) ensures level == near.difficulty {
        OneNearest(env, wish, level, near.difficulty);
      }
  }

  // ---- Requests in flight

  /** What a request read: the session, and how much of its history that covered. */
  datatype Ticket = Ticket(session: Option<Session>, seen: nat)

  /**
    seen[k][j] is the length of session k's history when the request that started its j-th
    exercise read the session; a smaller value than j means other requests overtook it.
   */
  datatype Desk = Desk(tracked: Tracked, waiting: map<nat, Ticket>, seen: map<string, seq<nat>>)

  datatype Step =
    | Open(request: nat, now: Time, sessionId: string)
    | Serve(request: nat, now: Time, wish: Wish, first: seq<Attempt>, second: seq<Attempt>, storable: bool,
            freshId: string)
    | Grade(now: Time, sessionId: string, exerciseId: string, outcome: Outcome)

  const EMPTY_DESK := Desk(NEW_STORE, map[], map[])

  function WindowsOf(session: Option<Session>): Windows {
    if session.None? then Windows([], [], [])
    else Windows(session.value.fingerprints, session.value.prompts, session.value.answers)
  }

  predicate CanStep(d: Desk, step: Step) {
    match step
    case Open(request, _, _) => request !in d.waiting
    case Serve(request, _, _, _, _, _, freshId) =>
      request in d.waiting && freshId != "" && freshId !in d.tracked.history
    case Grade(_, _, _, _) => true
  }

  function Starting(ticket: Ticket, e: Exercise, now: Time, freshId: string): Call {
    if ticket.session.None? then StartCall(now, e, map[], "", freshId)
    else StartCall(now, e, ticket.session.value.mastery, ticket.session.value.id, freshId)
  }

  /** The session the start went to, if it went through. */
  function StartedIn(d: Desk, env: Env, call: Call): Option<string>
    requires call.StartCall?
  {
    Start(d.tracked.store, env.ttl, call.now, call.e, call.mastery, call.sessionId, call.freshId, env.promptOf).1
  }

  function Starts(d: Desk, env: Env, request: nat, ticket: Ticket, call: Call): Desk
    requires call.StartCall?
  {
    var tracked := Do(d.tracked, env.ttl, env.promptOf, call);
    match StartedIn(d, env, call)
    case None => Desk(tracked, d.waiting - {request}, d.seen)
    case Some(id) =>
      if id in d.seen then Desk(tracked, d.waiting - {request}, d.seen[id := d.seen[id] + [ticket.seen]])
      else Desk(tracked, d.waiting - {request}, d.seen[id := [0]])
  }

  function Next(d: Desk, env: Env, step: Step): Desk
    requires CanStep(d, step)
  {
    match step
    case Open(request, now, sessionId) =>
      var tracked := Do(d.tracked, env.ttl, env.promptOf, LookCall(now));
      var session := Prior(tracked.store, sessionId);
      var seen := if session.Some? && sessionId in tracked.history then |tracked.history[sessionId]| else 0;
      Desk(tracked, d.waiting[request := Ticket(session, seen)], d.seen)
    case Serve(request, now, wish, first, second, storable, freshId) =>
      var ticket := d.waiting[request];
      var picked := Pick(env, wish, WindowsOf(ticket.session), first, second);
      if picked.None? || !storable then Desk(d.tracked, d.waiting - {request}, d.seen)
      else Starts(d, env, request, ticket, Starting(ticket, picked.value, now, freshId))
    case Grade(now, sessionId, exerciseId, outcome) =>
      Desk(Do(d.tracked, env.ttl, env.promptOf, OutcomeCall(now, sessionId, exerciseId, outcome)), d.waiting, d.seen)
  }

  predicate CanRun(d: Desk, env: Env, steps: seq<Step>)
    decreases |steps|
  {
    steps == [] || (CanStep(d, steps[0]) && CanRun(Next(d, env, steps[0]), env, steps[1..]))
  }

  function Run(d: Desk, env: Env, steps: seq<Step>): Desk
    requires CanRun(d, env, steps)
    decreases |steps|
  {
    if steps == [] then d else Run(Next(d, env, steps[0]), env, steps[1..])
  }

  // ---- Freshness

  predicate Repeats(h: seq<Exercise>, i: nat, j: nat, promptOf: PromptHash)
    requires i < |h| && j < |h|
  {
    || (j - i <= FINGERPRINTS && h[i].fingerprint == h[j].fingerprint)
    || (j - i <= PROMPTS && promptOf(h[i].problem, h[i].hint) == promptOf(h[j].problem, h[j].hint))
  }

  /** No exercise repeats a recent one that its request had read. */
  ghost predicate HistoryOk(h: seq<Exercise>, seen: seq<nat>, promptOf: PromptHash) {
    && |seen| == |h|
    && (forall j | 0 <= j < |h| :: seen[j] <= j)
    && (forall i, j | 0 <= i < j < |h| && Repeats(h, i, j, promptOf) :: seen[j] <= i)
  }

  ghost predicate TicketOk(ticket: Ticket, history: map<string, seq<Exercise>>, promptOf: PromptHash) {
    ticket.session.Some? ==>
      && ticket.session.value.id in history
      && ticket.seen <= |history[ticket.session.value.id]|
      && WindowsOk(ticket.session.value, history[ticket.session.value.id][..ticket.seen], promptOf)
  }

  ghost predicate DeskOk(d: Desk, promptOf: PromptHash) {
    && Ok(d.tracked, promptOf)
    && "" !in d.tracked.history
    && d.seen.Keys == d.tracked.history.Keys
    && (forall k <- d.seen :: HistoryOk(d.tracked.history[k], d.seen[k], promptOf))
    && (forall r <- d.waiting :: TicketOk(d.waiting[r], d.tracked.history, promptOf))
  }

  lemma InWindow<T>(values: seq<T>, limit: nat, i: nat)
    requires i < |values| && |values| <= i + limit
    ensures values[i] in Last(values, limit)
  {
    var last := Last(values, limit);
    assert values[i] == last[i - (|values| - |last|)];
  }

  /** A fresh pick only repeats what came after its request read the session. */
  lemma PickExtendsHistory(h: seq<Exercise>, seen: seq<nat>, session: Session, at: nat, e: Exercise,
                           promptOf: PromptHash)
    requires HistoryOk(h, seen, promptOf) && at <= |h| && WindowsOk(session, h[..at], promptOf)
    requires Fresh(e, WindowsOf(Some(session)), promptOf)
    ensures HistoryOk(h + [e], seen + [at], promptOf)
  {
    var h', seen' := h + [e], seen + [at];
    forall i, j | 0 <= i < j < |h'| && Repeats(h', i, j, promptOf) ensures seen'[j] <= i {
      if j < |h| {
        assert Repeats(h, i, j, promptOf);
      } else if i < at {
        if |h| - i <= FINGERPRINTS {
          InWindow(Fingerprints(h[..at]), FINGERPRINTS, i);
        }
        if |h| - i <= PROMPTS {
          InWindow(Prompts(h[..at], promptOf), PROMPTS, i);
        }
        assert false;
      }
    }
  }

  lemma FirstOfHistory(e: Exercise, promptOf: PromptHash)
    ensures HistoryOk([e], [0], promptOf)
  {
  }

  lemma StartGoesTo(d: Desk, env: Env, call: Call)
    requires Ok(d.tracked, env.promptOf) && "" !in d.tracked.history && call.StartCall?
    ensures var started := StartedIn(d, env, call);
            started.Some? ==>
              || started.value == call.freshId
              || (started.value == call.sessionId && call.sessionId in d.tracked.history && call.sessionId != "")
  {
    hide WindowsOk;
  }

  lemma TicketsStay(waiting: map<nat, Ticket>, history: map<string, seq<Exercise>>, id: string, h: seq<Exercise>,
                    e: Exercise, promptOf: PromptHash)
    requires forall r <- waiting :: TicketOk(waiting[r], history, promptOf)
    requires h == if id in history then history[id] else []
    ensures forall r <- waiting :: TicketOk(waiting[r], history[id := h + [e]], promptOf)
  {
    hide WindowsOk;
    forall r <- waiting ensures TicketOk(waiting[r], history[id := h + [e]], promptOf) {
      var ticket := waiting[r];
      if ticket.session.Some? && ticket.session.value.id == id {
        assert (h + [e])[..ticket.seen] == h[..ticket.seen];
      }
    }
  }

  lemma StartsKeeps(d: Desk, env: Env, request: nat, ticket: Ticket, e: Exercise, now: Time, freshId: string)
    requires DeskOk(d, env.promptOf) && TicketOk(ticket, d.tracked.history, env.promptOf)
    requires freshId != "" && freshId !in d.tracked.history
    requires Fresh(e, WindowsOf(ticket.session), env.promptOf)
    ensures DeskOk(Starts(d, env, request, ticket, Starting(ticket, e, now, freshId)), env.promptOf)
  {
    hide Lockstep, WindowsOk, SessionAfter, HistoryOk, Fresh, Repeats;
    var call := Starting(ticket, e, now, freshId);
    CallKeeps(d.tracked, env.ttl, env.promptOf, call);
    StartGoesTo(d, env, call);
    var started := StartedIn(d, env, call);
    if started.Some? {
      var id := started.value;
      var h := if id in d.tracked.history then d.tracked.history[id] else [];
      if id == freshId {
        FirstOfHistory(e, env.promptOf);
        assert h + [e] == [e];
      } else {
        PickExtendsHistory(h, d.seen[id], ticket.session.value, ticket.seen, e, env.promptOf);
      }
      TicketsStay(d.waiting, d.tracked.history, id, h, e, env.promptOf);
    }
  }

  lemma OpenKeeps(d: Desk, env: Env, step: Step)
    requires DeskOk(d, env.promptOf) && CanStep(d, step) && step.Open?
    ensures DeskOk(Next(d, env, step), env.promptOf)
  {
    hide Lockstep, WindowsOk, HistoryOk;
    CallKeeps(d.tracked, env.ttl, env.promptOf, LookCall(step.now));
    var tracked := Do(d.tracked, env.ttl, env.promptOf, LookCall(step.now));
    PriorId(tracked, step.sessionId);
    if step.sessionId in tracked.store.sessions {
      var h := tracked.history[step.sessionId];
      assert h[..|h|] == h;
    }
  }

  lemma StepKeepsDesk(d: Desk, env: Env, step: Step)
    requires DeskOk(d, env.promptOf) && CanStep(d, step)
    ensures DeskOk(Next(d, env, step), env.promptOf)
  {
    hide Ok, HistoryOk, Pick, Fresh, WindowsOk, Starts;
    match step
    case Open(_, _, _) => OpenKeeps(d, env, step);
    case Serve(request, now, wish, first, second, storable, freshId) =>
      var ticket := d.waiting[request];
      var w := WindowsOf(ticket.session);
      PickIsFresh(env, wish, w, first, second);
      var picked := Pick(env, wish, w, first, second);
      if picked.Some? && storable {
        StartsKeeps(d, env, request, ticket, picked.value, now, freshId);
      }
    case Grade(now, sessionId, exerciseId, outcome) =>
      CallKeeps(d.tracked, env.ttl, env.promptOf, OutcomeCall(now, sessionId, exerciseId, outcome));
  }

  lemma {:induction false} RunKeepsDesk(d: Desk, env: Env, steps: seq<Step>)
    requires DeskOk(d, env.promptOf) && CanRun(d, env, steps)
    ensures DeskOk(Run(d, env, steps), env.promptOf)
    decreases |steps|
  {
    hide DeskOk;
    if steps == [] {
    } else {
      StepKeepsDesk(d, env, steps[0]);
      RunKeepsDesk(Next(d, env, steps[0]), env, steps[1..]);
    }
  }

  /**
    Over every run of requests, in every session: if the j-th exercise has the fingerprint of one of
    the 20 before it, or the prompt of one of the 10 before it, then that one was started after the
    j-th's request had read the session. A request that was not overtaken never repeats.
   */
  lemma RepeatsComeFromOverlapOnly(env: Env, steps: seq<Step>, sessionId: string, i: nat, j: nat)
    requires CanRun(EMPTY_DESK, env, steps)
    ensures var d := Run(EMPTY_DESK, env, steps);
            sessionId in d.tracked.history ==>
              var h := d.tracked.history[sessionId];
              && sessionId in d.seen && |d.seen[sessionId]| == |h|
              && (i < j < |h| && Repeats(h, i, j, env.promptOf) ==> d.seen[sessionId][j] <= i)
              && (i < j < |h| && d.seen[sessionId][j] == j ==> !Repeats(h, i, j, env.promptOf))
  {
    RunKeepsDesk(EMPTY_DESK, env, steps);
  }

  lemma OverlapInLast<T>(a: seq<T>, b: seq<T>, limit: nat, x: T)
    requires x !in Last(a, limit)
    ensures x in Last(a + b, limit) <==> x in Last(b, limit)
  {
    if |b| >= limit {
      assert Last(a + b, limit) == Last(b, limit);
    } else {
      var kept := Last(a, limit - |b|);
      assert Last(a + b, limit) == kept + b;
      assert kept == Last(Last(a, limit), limit - |b|);
    }
  }

  lemma OvertakersCarryIt(env: Env, ticket: Ticket, before: seq<Exercise>, done: seq<Exercise>,
                          wish: Wish, first: seq<Attempt>, second: seq<Attempt>)
    requires ticket.session.Some? && WindowsOk(ticket.session.value, before, env.promptOf)
    requires Pick(env, wish, WindowsOf(ticket.session), first, second).Some?
    ensures var e := Pick(env, wish, WindowsOf(ticket.session), first, second).value;
            && (e.fingerprint in Last(Fingerprints(before + done), FINGERPRINTS)
                <==> e.fingerprint in Last(Fingerprints(done), FINGERPRINTS))
            && (env.promptOf(e.problem, e.hint) in Last(Prompts(before + done, env.promptOf), PROMPTS)
                <==> env.promptOf(e.problem, e.hint) in Last(Prompts(done, env.promptOf), PROMPTS))
  {
    hide Pick, Last;
    PickIsFresh(env, wish, WindowsOf(ticket.session), first, second);
    var e := Pick(env, wish, WindowsOf(ticket.session), first, second).value;
    assert Fingerprints(before + done) == Fingerprints(before) + Fingerprints(done);
    assert Prompts(before + done, env.promptOf) == Prompts(before, env.promptOf) + Prompts(done, env.promptOf);
    OverlapInLast(Fingerprints(before), Fingerprints(done), FINGERPRINTS, e.fingerprint);
    OverlapInLast(Prompts(before, env.promptOf), Prompts(done, env.promptOf), PROMPTS, env.promptOf(e.problem, e.hint));
  }

  lemma EmptyDeskOk(promptOf: PromptHash)
    ensures DeskOk(EMPTY_DESK, promptOf)
  {
  }

  lemma WaitingPick(d: Desk, env: Env, request: nat, wish: Wish, first: seq<Attempt>, second: seq<Attempt>)
    requires DeskOk(d, env.promptOf) && request in d.waiting && d.waiting[request].session.Some?
    requires Pick(env, wish, WindowsOf(d.waiting[request].session), first, second).Some?
    ensures var ticket := d.waiting[request];
            var id := ticket.session.value.id;
            id in d.tracked.history && ticket.seen <= |d.tracked.history[id]| &&
            var h := d.tracked.history[id];
            var since := h[ticket.seen..];
            var e := Pick(env, wish, WindowsOf(ticket.session), first, second).value;
            && (e.fingerprint in Last(Fingerprints(h), FINGERPRINTS)
                <==> e.fingerprint in Last(Fingerprints(since), FINGERPRINTS))
            && (env.promptOf(e.problem, e.hint) in Last(Prompts(h, env.promptOf), PROMPTS)
                <==> env.promptOf(e.problem, e.hint) in Last(Prompts(since, env.promptOf), PROMPTS))
  {
    hide Ok, HistoryOk, WindowsOk, WindowsOf, Pick, Last, Fingerprints, Prompts;
    var ticket := d.waiting[request];
    assert TicketOk(ticket, d.tracked.history, env.promptOf);
    var h := d.tracked.history[ticket.session.value.id];
    assert h[..ticket.seen] + h[ticket.seen..] == h;
    OvertakersCarryIt(env, ticket, h[..ticket.seen], h[ticket.seen..], wish, first, second);
  }

  /**
    In every run, for every request that waits on a session, whatever it wishes and draws: its pick is
    among the last 20 fingerprints (10 prompts) of the session's history now if and only if it is among
    those of the exercises started since the request read the session.
   */
  lemma RepeatsExactlyTheOvertakers(env: Env, steps: seq<Step>, request: nat, wish: Wish, first: seq<Attempt>,
                                    second: seq<Attempt>)
    requires CanRun(EMPTY_DESK, env, steps) && request in Run(EMPTY_DESK, env, steps).waiting
    requires var ticket := Run(EMPTY_DESK, env, steps).waiting[request];
             ticket.session.Some? && Pick(env, wish, WindowsOf(ticket.session), first, second).Some?
    ensures var d := Run(EMPTY_DESK, env, steps);
            var ticket := d.waiting[request];
            var id := ticket.session.value.id;
            id in d.tracked.history && ticket.seen <= |d.tracked.history[id]| &&
            var h := d.tracked.history[id];
            var since := h[ticket.seen..];
            var e := Pick(env, wish, WindowsOf(ticket.session), first, second).value;
            && (e.fingerprint in Last(Fingerprints(h), FINGERPRINTS)
                <==> e.fingerprint in Last(Fingerprints(since), FINGERPRINTS))
            && (env.promptOf(e.problem, e.hint) in Last(Prompts(h, env.promptOf), PROMPTS)
                <==> env.promptOf(e.problem, e.hint) in Last(Prompts(since, env.promptOf), PROMPTS))
  {
    hide DeskOk, TicketOk, WindowsOf, Pick, Last, Fingerprints, Prompts;
    EmptyDeskOk(env.promptOf);
    RunKeepsDesk(EMPTY_DESK, env, steps);
    WaitingPick(Run(EMPTY_DESK, env, steps), env, request, wish, first, second);
  }

  lemma WaitingTicket(d: Desk, promptOf: PromptHash, request: nat)
    requires DeskOk(d, promptOf) && request in d.waiting && d.waiting[request].session.Some?
    ensures var ticket := d.waiting[request];
            var session := ticket.session.value;
            session.id in d.tracked.history && ticket.seen <= |d.tracked.history[session.id]|
            && WindowsOk(session, d.tracked.history[session.id][..ticket.seen], promptOf)
  {
    hide Ok, HistoryOk, WindowsOk;
    assert TicketOk(d.waiting[request], d.tracked.history, promptOf);
  }

  /**
    In every run, for every request that waits on a session: its pick repeats one of the last five answers
    that the request had read if and only if every fresh draw of its budget repeats one.
   */
  lemma AnswersRepeatOnlyWhenForced(env: Env, steps: seq<Step>, request: nat, wish: Wish, first: seq<Attempt>,
                                    second: seq<Attempt>)
    requires CanRun(EMPTY_DESK, env, steps) && request in Run(EMPTY_DESK, env, steps).waiting
    requires var ticket := Run(EMPTY_DESK, env, steps).waiting[request];
             ticket.session.Some? && Pick(env, wish, WindowsOf(ticket.session), first, second).Some?
    ensures var d := Run(EMPTY_DESK, env, steps);
            var ticket := d.waiting[request];
            var id, w := ticket.session.value.id, WindowsOf(ticket.session);
            id in d.tracked.history && ticket.seen <= |d.tracked.history[id]| &&
            var recent := Last(Answers(d.tracked.history[id][..ticket.seen]), ANSWERS);
            Pick(env, wish, w, first, second).value.answer in recent
            <==> forall draw <- Used(env, wish, w, first, second) | draw.Some? && Fresh(draw.value, w, env.promptOf) ::
                   draw.value.answer in recent
  {
    hide DeskOk, WindowsOf, Pick, Used, Fresh, Last, Answers, Run, CanRun;
    EmptyDeskOk(env.promptOf);
    RunKeepsDesk(EMPTY_DESK, env, steps);
    var d := Run(EMPTY_DESK, env, steps);
    WaitingTicket(d, env.promptOf, request);
    var session := d.waiting[request].session.value;
    assert d.waiting[request].session == Some(session);
    PickRepeatsWhenForced(env, session, d.tracked.history[session.id][..d.waiting[request].seen], wish, first, second);
  }

  // ---- Two overlapping requests do repeat

  function Sample(seed: nat): Exercise {
    Exercise("", "algebra", 8, 2, "calculation", if seed == 0 then "p" else "q", "", "1", [],
             if seed == 0 then "f" else "g")
  }

  const WISH := Wish("algebra", "en", 8, 2, "calculation")
  const ENV := Env(1800.0, (problem: string, hint: string) => problem,
                   [Template("t", "algebra", {8}, [2], "calculation")],
                   (id: string, difficulty: int, grade: int, seed: nat, language: string) => Some(Sample(seed)))

  /** A session starts with one exercise; two requests then both read it before either starts. */
  const OPENING := [Open(0, 0.0, ""), Serve(0, 0.0, WISH, [Attempt(0, 0, "a")], [], true, "s")]
  const OVERLAP := [Open(1, 1.0, "s"), Open(2, 1.0, "s"),
                    Serve(1, 1.0, WISH, [Attempt(0, 1, "b")], [], true, "u"),
                    Serve(2, 1.0, WISH, [Attempt(0, 1, "c")], [], true, "v")]

  const A := Sample(0).(id := "a")
  const B := Sample(1).(id := "b")
  const C := Sample(1).(id := "c")

  /** What the session "s" looks like after A, after A and B, and after all three. */
  const S1 := Session("s", "a", "algebra", 8, 2, "calculation", ["f"], ["p"], ["1"], map[])
  const S2 := Session("s", "b", "algebra", 8, 2, "calculation", ["f", "g"], ["p", "q"], ["1", "1"], map[])

  lemma PicksOnlyDraw(w: Windows, attempt: Attempt)
    requires Fresh(Sample(attempt.seed), w, ENV.promptOf)
    ensures Pick(ENV, WISH, w, [attempt], []) == Some(Sample(attempt.seed).(id := attempt.id))
  {
    var e := Sample(attempt.seed).(id := attempt.id);
    var draws := Draws(ENV, WISH, [attempt]);
    assert draws == [Some(e)];
    ChooseIsFresh(draws, w, ENV.promptOf);
    assert Choose(draws, w, ENV.promptOf) in draws;
  }

  lemma FirstServed(d: Desk)
    requires d == Next(EMPTY_DESK, ENV, OPENING[0])
    ensures CanStep(d, OPENING[1])
    ensures Next(d, ENV, OPENING[1])
            == Desk(Tracked(Store(map["a" := Expiring(A, 1800.0)], map["s" := Expiring(S1, 1800.0)]), map["s" := [A]]),
                    map[], map["s" := [0]])
  {
    hide Pick;
    PicksOnlyDraw(Windows([], [], []), Attempt(0, 0, "a"));
    assert Prune(d.tracked.store, 0.0) == Store(map[], map[]);
    assert d.waiting == map[0 := Ticket(None, 0)];
    assert SessionAfter(None, "s", A, map[], ENV.promptOf) == S1;
    assert [] + [A] == [A];
  }

  lemma BothRead(d: Desk)
    requires d == Desk(Tracked(Store(map["a" := Expiring(A, 1800.0)], map["s" := Expiring(S1, 1800.0)]),
                               map["s" := [A]]), map[], map["s" := [0]])
    ensures CanStep(d, OVERLAP[0]) && CanStep(Next(d, ENV, OVERLAP[0]), OVERLAP[1])
    ensures Next(Next(d, ENV, OVERLAP[0]), ENV, OVERLAP[1])
            == Desk(d.tracked, map[1 := Ticket(Some(S1), 1), 2 := Ticket(Some(S1), 1)], d.seen)
  {
    assert Prune(d.tracked.store, 1.0) == d.tracked.store;
  }

  lemma SecondStarted(t: Tracked)
    requires t == Tracked(Store(map["a" := Expiring(A, 1800.0)], map["s" := Expiring(S1, 1800.0)]), map["s" := [A]])
    ensures Start(t.store, ENV.ttl, 1.0, B, map[], "s", "u", ENV.promptOf)
            == (Store(map["a" := Expiring(A, 1800.0), "b" := Expiring(B, 1801.0)], map["s" := Expiring(S2, 1801.0)]),
                Some("s"))
  {
    assert Prune(t.store, 1.0) == t.store;
    assert Prior(t.store, "s") == Some(S1);
    assert SessionAfter(Some(S1), "u", B, map[], ENV.promptOf) == S2;
    assert t.store.exercises["b" := Expiring(B, 1801.0)] == map["a" := Expiring(A, 1800.0), "b" := Expiring(B, 1801.0)];
    assert t.store.sessions["s" := Expiring(S2, 1801.0)] == map["s" := Expiring(S2, 1801.0)];
  }

  lemma SecondServed(d: Desk)
    requires d == Desk(Tracked(Store(map["a" := Expiring(A, 1800.0)], map["s" := Expiring(S1, 1800.0)]),
                               map["s" := [A]]),
                       map[1 := Ticket(Some(S1), 1), 2 := Ticket(Some(S1), 1)], map["s" := [0]])
    ensures CanStep(d, OVERLAP[2])
    ensures Next(d, ENV, OVERLAP[2])
            == Desk(Tracked(Store(map["a" := Expiring(A, 1800.0), "b" := Expiring(B, 1801.0)],
                                  map["s" := Expiring(S2, 1801.0)]), map["s" := [A, B]]),
                    map[2 := Ticket(Some(S1), 1)], map["s" := [0, 1]])
  {
    hide Pick, Start;
    PicksOnlyDraw(Windows(["f"], ["p"], ["1"]), Attempt(0, 1, "b"));
    SecondStarted(d.tracked);
    assert d.waiting - {1} == map[2 := Ticket(Some(S1), 1)];
    assert [A] + [B] == [A, B] && [0] + [1] == [0, 1];
    assert d.tracked.history["s" := [A, B]] == map["s" := [A, B]] && d.seen["s" := [0, 1]] == map["s" := [0, 1]];
  }

  lemma ThirdServed(d: Desk)
    requires d == Desk(Tracked(Store(map["a" := Expiring(A, 1800.0), "b" := Expiring(B, 1801.0)],
                                     map["s" := Expiring(S2, 1801.0)]), map["s" := [A, B]]),
                       map[2 := Ticket(Some(S1), 1)], map["s" := [0, 1]])
    ensures CanStep(d, OVERLAP[3])
    ensures var history := Next(d, ENV, OVERLAP[3]).tracked.history;
            "s" in history && history["s"] == [A, B, C]
  {
    hide Pick, SessionAfter;
    PicksOnlyDraw(Windows(["f"], ["p"], ["1"]), Attempt(0, 1, "c"));
    assert Prune(d.tracked.store, 1.0) == d.tracked.store;
    SessionAfterId(Some(S2), "v", C, map[], ENV.promptOf);
    assert [A, B] + [C] == [A, B, C];
  }

  lemma Advance(d: Desk, env: Env, steps: seq<Step>, k: nat)
    requires k < |steps| && CanStep(d, steps[k]) && CanRun(Next(d, env, steps[k]), env, steps[k + 1..])
    ensures CanRun(d, env, steps[k..])
    ensures Run(d, env, steps[k..]) == Run(Next(d, env, steps[k]), env, steps[k + 1..])
  {
    hide Next, CanStep;
    assert steps[k..][1..] == steps[k + 1..];
  }

  /** The windows are only as new as the snapshot: here the third exercise repeats the second. */
  lemma OverlapRepeats()
    ensures CanRun(EMPTY_DESK, ENV, OPENING + OVERLAP)
    ensures var history := Run(EMPTY_DESK, ENV, OPENING + OVERLAP).tracked.history;
            "s" in history && |history["s"]| == 3 && Repeats(history["s"], 1, 2, ENV.promptOf)
  {
    hide Next;
    var steps := OPENING + OVERLAP;
    var d1 := Next(EMPTY_DESK, ENV, steps[0]);
    FirstServed(d1);
    var d2 := Next(d1, ENV, steps[1]);
    BothRead(d2);
    var d3 := Next(d2, ENV, steps[2]);
    var d4 := Next(d3, ENV, steps[3]);
    SecondServed(d4);
    var d5 := Next(d4, ENV, steps[4]);
    ThirdServed(d5);
    Advance(d5, ENV, steps, 5);
    Advance(d4, ENV, steps, 4);
    Advance(d3, ENV, steps, 3);
    Advance(d2, ENV, steps, 2);
    Advance(d1, ENV, steps, 1);
    Advance(EMPTY_DESK, ENV, steps, 0);
    assert steps[0..] == steps;
  }
}
