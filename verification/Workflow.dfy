/**
  The correction workflow of agentic_rag/graph.py and agentic_rag/nodes.py: a control-flow graph
  with a bounded retry loop. What models, search and solvers return is an arbitrary Reply.
 */
module Workflow {
  import opened Wrappers

  datatype Node =
    | RetrieveMemory | ParseQuestion | AnalyzeCompleteness | RewriteQuery | ClassifyKnowledge | ReactAgent
    | RetrieveDocuments | LlmRerank | GenerateResponse | ValidateAnswer | PrepareRetry
    | Clarify | NoEvidence | ValidationFailure | Finalize

  datatype ResponseType = Unset | VerifiedAnswer | ClarificationRequired | SupportedRefusal

  datatype Turn = Student(content: string) | Tutor(content: string)

  datatype State = State(query: string, history: seq<Turn>, knowledgeQuery: bool, fastPath: bool,
                         missing: seq<string>, needsClarification: bool, followUp: string,
                         candidates: seq<string>, documents: seq<string>, draft: string,
                         response: string, responseType: ResponseType, passed: bool,
                         attempts: nat, steps: nat, consolidated: bool)

  /** MAX_CORRECTION_ATTEMPTS, MAX_AGENT_STEPS, and which missing conditions are referential gaps. */
  datatype Config = Config(maxAttempts: int, maxSteps: int, referential: string -> bool)

  /** What the outside world gave to one execution of a node. */
  datatype Reply =
    | Recalled(history: seq<Turn>)
    | Parsed(knowledgeQuery: bool, solvable: bool)
    | Completeness(complete: bool, missing: seq<string>, followUp: string)
    | Rewritten(missing: seq<string>, question: string)
    | Classified
    | Reasoned(usableAnswer: Option<string>)
    | Found(candidates: seq<string>)
    | Ranked(documents: seq<string>)
    | Drafted(draft: Option<string>)
    | Judged(valid: bool, checksPassed: bool, guardIssues: seq<string>, unclear: bool, followUp: string)
    | Retried
    | Resolved(outOfScope: bool, answer: string)
    | Consolidated

  datatype Reason = OverBudget | OutOfTime | GenerationFailed

  /** judged is the draft and verdict of the last validation executed. */
  datatype Machine =
    | At(node: Node, s: State, judged: Option<(string, bool)>)
    | Finished(s: State, judged: Option<(string, bool)>)
    | Raised(reason: Reason)

  // ---- The nodes

  predicate Fits(node: Node, s: State, reply: Reply) {
    match node
    case RetrieveMemory => reply.Recalled?
    case ParseQuestion => reply.Parsed?
    case AnalyzeCompleteness => reply.Completeness?
    case RewriteQuery => reply.Rewritten?
    case ClassifyKnowledge => reply.Classified?
    case ReactAgent => reply.Reasoned?
    case RetrieveDocuments => reply.Found?
    case LlmRerank => reply.Ranked? && forall d <- reply.documents :: d in s.candidates
    case GenerateResponse => reply.Drafted?
    case ValidateAnswer => reply.Judged?
    case PrepareRetry => reply.Retried?
    case Clarify | NoEvidence | ValidationFailure => reply.Resolved?
    case Finalize => reply.Consolidated?
  }

  function Filter(items: seq<string>, keep: string -> bool): seq<string> {
    if items == [] then [] else (if keep(items[0]) then [items[0]] else []) + Filter(items[1..], keep)
  }

  /** _actionable_missing_conditions, after the fast path has dropped them all. */
  function Actionable(cfg: Config, s: State, missing: seq<string>): seq<string> {
    if s.fastPath && s.attempts == 0 then []
    else if !s.knowledgeQuery then missing
    else Filter(missing, cfg.referential)
  }

  /** _failure_updates */
  function Failed(s: State, outOfScope: bool, answer: string): State {
    var kind := if outOfScope then SupportedRefusal else ClarificationRequired;
    s.(draft := "", response := answer, responseType := kind, passed := true,
       needsClarification := kind == ClarificationRequired,
       history := s.history + [Student(s.query), Tutor(answer)])
  }

  function Validated(s: State, valid: bool, checksPassed: bool, guardIssues: seq<string>, unclear: bool,
                     followUp: string): State {
    var passed := valid && checksPassed && guardIssues == [];
    s.(response := if passed then s.draft else s.response,
       responseType := if passed then VerifiedAnswer else Unset,
       passed := passed,
       needsClarification := unclear && s.missing != [],
       followUp := followUp)
  }

  /** The update a node makes; generate_response may raise instead. */
  function Updated(cfg: Config, node: Node, s: State, reply: Reply): Option<State>
    requires Fits(node, s, reply)
  {
    match reply
    case Recalled(history) => Some(s.(history := history))
    case Parsed(knowledgeQuery, solvable) =>
      var fast := s.attempts == 0 && solvable;
      Some(s.(knowledgeQuery := knowledgeQuery && !fast, fastPath := fast))
    case Completeness(complete, missing, followUp) =>
      Some(s.(missing := missing, needsClarification := !complete, followUp := followUp))
    case Rewritten(missing, question) =>
      var actionable := Actionable(cfg, s, missing);
      Some(s.(missing := actionable, needsClarification := actionable != [],
              followUp := if actionable != [] then question else ""))
    case Classified => Some(s)
    case Reasoned(answer) => Some(s.(draft := if answer.Some? then answer.value else ""))
    case Found(candidates) => Some(s.(candidates := candidates))
    case Ranked(documents) => Some(s.(documents := documents))
    case Drafted(draft) => if draft.None? then None else Some(s.(draft := draft.value))
    case Judged(valid, checksPassed, guardIssues, unclear, followUp) =>
      Some(Validated(s, valid, checksPassed, guardIssues, unclear, followUp))
    case Retried =>
      Some(s.(attempts := s.attempts + 1, draft := "", response := "", responseType := Unset, passed := false,
              needsClarification := false, candidates := [], documents := []))
    case Resolved(outOfScope, answer) =>
      var asked := node == Clarify && s.followUp != "";
      Some(Failed(s, outOfScope, if asked then s.followUp else answer))
    case Consolidated =>
      var said := s.history != [] && s.history[|s.history| - 1].content == s.response;
      Some(s.(history := if s.response != "" && !said then s.history + [Student(s.query), Tutor(s.response)]
                         else s.history,
              consolidated := s.passed && !s.fastPath))
  }

  // ---- The edges

  function AfterValidation(cfg: Config, s: State): Node {
    if s.needsClarification then Clarify
    else if s.passed then Finalize
    else if s.attempts < cfg.maxAttempts then PrepareRetry
    else ValidationFailure
  }

  /** None is END. */
  function Edge(cfg: Config, node: Node, s: State): Option<Node> {
    match node
    case RetrieveMemory => Some(ParseQuestion)
    case ParseQuestion => Some(AnalyzeCompleteness)
    case AnalyzeCompleteness => Some(if s.needsClarification then Clarify else RewriteQuery)
    case RewriteQuery => Some(if s.needsClarification then Clarify else ClassifyKnowledge)
    case ClassifyKnowledge => Some(if s.knowledgeQuery then ReactAgent else RetrieveDocuments)
    case ReactAgent => Some(RetrieveDocuments)
    case RetrieveDocuments => Some(if s.candidates != [] then LlmRerank else NoEvidence)
    case LlmRerank =>
      Some(if s.documents != [] && s.draft != "" then ValidateAnswer
           else if s.documents != [] then GenerateResponse
           else NoEvidence)
    case GenerateResponse => Some(ValidateAnswer)
    case ValidateAnswer => Some(AfterValidation(cfg, s))
    case PrepareRetry => Some(RewriteQuery)
    case Clarify | NoEvidence | ValidationFailure => Some(Finalize)
    case Finalize => None
  }

  /** One node: the budget check, its update, and the edge taken. */
  function Next(cfg: Config, m: Machine, reply: Reply, late: bool): Machine
    requires m.At? && Fits(m.node, m.s, reply)
  {
    if m.s.steps + 1 > cfg.maxSteps then Raised(OverBudget)
    else if late then Raised(OutOfTime)
    else match Updated(cfg, m.node, m.s, reply)
      case None => Raised(GenerationFailed)
      case Some(updated) =>
        var s := updated.(steps := m.s.steps + 1);
        var judged := if m.node == ValidateAnswer then Some((m.s.draft, s.passed)) else m.judged;
        match Edge(cfg, m.node, s)
        case None => Finished(s, judged)
        case Some(next) => At(next, s, judged)
  }

  datatype Event = Event(reply: Reply, late: bool)

  predicate CanRun(cfg: Config, m: Machine, events: seq<Event>)
    decreases |events|
  {
    events == [] || (m.At? && Fits(m.node, m.s, events[0].reply)
                     && CanRun(cfg, Next(cfg, m, events[0].reply, events[0].late), events[1..]))
  }

  function Run(cfg: Config, m: Machine, events: seq<Event>): Machine
    requires CanRun(cfg, m, events)
    decreases |events|
  {
    if events == [] then m else Run(cfg, Next(cfg, m, events[0].reply, events[0].late), events[1..])
  }

  /** What graph.invoke starts from: a query and its history. */
  function Start(query: string, history: seq<Turn>, attempts: nat): Machine {
    At(RetrieveMemory,
       State(query, history, false, false, [], false, "", [], [], "", "", Unset, false, attempts, 0, false), None)
  }

  // ---- The budget

  function RetriesLeft(cfg: Config, attempts: nat): nat {
    if attempts < cfg.maxAttempts then cfg.maxAttempts - attempts else 0
  }

  /** The most nodes that can still run, this one included. */
  function Longest(cfg: Config, node: Node, s: State): nat {
    8 * RetriesLeft(cfg, s.attempts) +
    match node
    case RetrieveMemory => 12
    case ParseQuestion => 11
    case AnalyzeCompleteness => 10
    case RewriteQuery => 9
    case ClassifyKnowledge => 8
    case ReactAgent => 7
    case RetrieveDocuments => 6
    case LlmRerank => 5
    case GenerateResponse => 4
    case ValidateAnswer => 3
    case PrepareRetry => 2
    case Clarify | NoEvidence | ValidationFailure => 2
    case Finalize => 1
  }

  /** From the rewrite on, nothing is missing any more. */
  predicate Complete(node: Node) {
    node in {ClassifyKnowledge, ReactAgent, RetrieveDocuments, LlmRerank, GenerateResponse, ValidateAnswer}
  }

  function Said(s: State, base: seq<Turn>): seq<Turn> {
    base + [Student(s.query), Tutor(s.response)]
  }

  /** A verified answer is the draft of the last validation, and nothing else is one. */
  ghost predicate Answered(s: State, judged: Option<(string, bool)>) {
    && s.passed
    && (s.responseType == VerifiedAnswer <==> judged.Some? && judged.value.1)
    && (s.responseType == VerifiedAnswer ==> s.response == judged.value.0)
    && s.responseType != Unset
  }

  predicate InBudget(cfg: Config, m: Machine, budget: nat) {
    match m
    case At(node, s, _) =>
      && s.steps + Longest(cfg, node, s) <= budget
      && (node == PrepareRetry ==> s.attempts < cfg.maxAttempts)
    case Finished(s, _) => s.steps <= budget
    case Raised(reason) => reason == OverBudget ==> cfg.maxSteps < budget
  }

  ghost predicate Sound(m: Machine) {
    match m
    case At(node, s, judged) =>
      && (Complete(node) ==> s.missing == [])
      && (node == Finalize ==> Answered(s, judged))
      && (node != Finalize ==> judged.None? || !judged.value.1)
    case Finished(s, judged) => Answered(s, judged) && s.consolidated == !s.fastPath
    case Raised(_) => true
  }

  ghost predicate Inv(cfg: Config, m: Machine, budget: nat) {
    InBudget(cfg, m, budget) && Sound(m)
  }

  lemma UpdatedCounts(cfg: Config, node: Node, s: State, reply: Reply)
    requires Fits(node, s, reply)
    ensures var updated := Updated(cfg, node, s, reply);
            updated.Some? ==>
              && updated.value.steps == s.steps
              && updated.value.attempts == s.attempts + if node == PrepareRetry then 1 else 0
  {
    hide Filter, Actionable;
  }

  lemma NextKeepsBudget(cfg: Config, m: Machine, reply: Reply, late: bool, budget: nat)
    requires m.At? && Fits(m.node, m.s, reply) && InBudget(cfg, m, budget)
    ensures InBudget(cfg, Next(cfg, m, reply, late), budget)
  {
    hide Updated, Fits;
    UpdatedCounts(cfg, m.node, m.s, reply);
  }

  predicate BeforeReranking(node: Node) {
    node in {RetrieveMemory, ParseQuestion, AnalyzeCompleteness, RewriteQuery, ClassifyKnowledge, ReactAgent,
             RetrieveDocuments}
  }

  lemma EarlyKeepsSound(cfg: Config, m: Machine, reply: Reply, late: bool)
    requires m.At? && Fits(m.node, m.s, reply) && Sound(m) && BeforeReranking(m.node)
    ensures Sound(Next(cfg, m, reply, late))
  {
    hide Filter, Actionable, Failed, Validated;
  }

  lemma LateKeepsSound(cfg: Config, m: Machine, reply: Reply, late: bool)
    requires m.At? && Fits(m.node, m.s, reply) && Sound(m) && !BeforeReranking(m.node)
    ensures Sound(Next(cfg, m, reply, late))
  {
    hide Filter, Actionable;
  }

  lemma NextKeepsSound(cfg: Config, m: Machine, reply: Reply, late: bool)
    requires m.At? && Fits(m.node, m.s, reply) && Sound(m)
    ensures Sound(Next(cfg, m, reply, late))
  {
    hide Fits, Sound, Next, BeforeReranking;
    if BeforeReranking(m.node) {
      EarlyKeepsSound(cfg, m, reply, late);
    } else {
      LateKeepsSound(cfg, m, reply, late);
    }
  }

  lemma NextKeepsInv(cfg: Config, m: Machine, reply: Reply, late: bool, budget: nat)
    requires m.At? && Fits(m.node, m.s, reply) && Inv(cfg, m, budget)
    ensures Inv(cfg, Next(cfg, m, reply, late), budget)
  {
    hide Next, InBudget, Sound, Fits;
    NextKeepsBudget(cfg, m, reply, late, budget);
    NextKeepsSound(cfg, m, reply, late);
  }

  lemma NextCounts(cfg: Config, m: Machine, reply: Reply, late: bool)
    requires m.At? && Fits(m.node, m.s, reply)
    ensures var next := Next(cfg, m, reply, late);
            next.At? || next.Finished? ==> next.s.steps == m.s.steps + 1
  {
    hide Updated, Fits, Edge;
  }

  lemma {:induction false} RunKeepsInv(cfg: Config, m: Machine, events: seq<Event>, budget: nat)
    requires CanRun(cfg, m, events) && Inv(cfg, m, budget)
    ensures Inv(cfg, Run(cfg, m, events), budget)
    ensures m.At? ==> |events| + m.s.steps <= budget
    decreases |events|
  {
    hide Next;
    if events == [] {
    } else {
      var next := Next(cfg, m, events[0].reply, events[0].late);
      NextKeepsInv(cfg, m, events[0].reply, events[0].late, budget);
      NextCounts(cfg, m, events[0].reply, events[0].late);
      RunKeepsInv(cfg, next, events[1..], budget);
    }
  }

  function Bound(cfg: Config, attempts: nat): nat {
    12 + 8 * RetriesLeft(cfg, attempts)
  }

  lemma {:induction false} RunCounts(cfg: Config, m: Machine, events: seq<Event>)
    requires CanRun(cfg, m, events) && (m.At? || m.Finished?)
    ensures var last := Run(cfg, m, events);
            last.At? || last.Finished? ==> last.s.steps == m.s.steps + |events|
    decreases |events|
  {
    hide Next;
    if events == [] {
    } else {
      var next := Next(cfg, m, events[0].reply, events[0].late);
      NextCounts(cfg, m, events[0].reply, events[0].late);
      if next.Raised? {
        assert events[1..] == [];
      } else {
        RunCounts(cfg, next, events[1..]);
      }
    }
  }

  /** Every run executes at most 12 + 8 * MAX_CORRECTION_ATTEMPTS nodes, and counts each one. */
  lemma RunsAreShort(cfg: Config, query: string, history: seq<Turn>, attempts: nat, events: seq<Event>)
    requires CanRun(cfg, Start(query, history, attempts), events)
    ensures |events| <= Bound(cfg, attempts)
    ensures var m := Run(cfg, Start(query, history, attempts), events);
            m.At? || m.Finished? ==> m.s.steps == |events|
  {
    RunKeepsInv(cfg, Start(query, history, attempts), events, Bound(cfg, attempts));
    RunCounts(cfg, Start(query, history, attempts), events);
  }

  // ---- The longest run exists, so the bound is exact

  /** A reply that keeps the run going as long as possible. */
  function Stubborn(node: Node): Reply {
    match node
    case RetrieveMemory => Recalled([])
    case ParseQuestion => Parsed(true, false)
    case AnalyzeCompleteness => Completeness(true, [], "")
    case RewriteQuery => Rewritten([], "")
    case ClassifyKnowledge => Classified
    case ReactAgent => Reasoned(None)
    case RetrieveDocuments => Found(["d"])
    case LlmRerank => Ranked(["d"])
    case GenerateResponse => Drafted(Some("x"))
    case ValidateAnswer => Judged(false, false, [], false, "")
    case PrepareRetry => Retried
    case Clarify | NoEvidence | ValidationFailure => Resolved(false, "")
    case Finalize => Consolidated
  }

  ghost predicate OnLongestPath(cfg: Config, m: Machine) {
    m.At?
    && m.node != Clarify && m.node != NoEvidence
    && (m.node !in {RetrieveMemory, ParseQuestion} ==> m.s.knowledgeQuery && !m.s.fastPath)
    && (Complete(m.node) ==> m.s.missing == [])
    && (m.node in {LlmRerank} ==> m.s.candidates == ["d"])
    && (m.node in {RetrieveDocuments, LlmRerank} ==> m.s.draft == "")
    && (m.node == PrepareRetry ==> m.s.attempts < cfg.maxAttempts)
    && (m.node in {ValidationFailure, Finalize} ==> m.s.attempts >= cfg.maxAttempts)
  }

  ghost predicate Continues(cfg: Config, m: Machine)
    requires m.At?
  {
    Fits(m.node, m.s, Stubborn(m.node)) &&
    var next := Next(cfg, m, Stubborn(m.node), false);
    if m.node == Finalize then next.Finished?
    else OnLongestPath(cfg, next) && Longest(cfg, next.node, next.s) == Longest(cfg, m.node, m.s) - 1
  }

  lemma NothingToFilter(keep: string -> bool)
    ensures Filter([], keep) == []
  {
  }

  lemma StubbornStart(cfg: Config, m: Machine)
    requires OnLongestPath(cfg, m) && m.s.steps < cfg.maxSteps
    requires m.node in {RetrieveMemory, ParseQuestion, AnalyzeCompleteness, RewriteQuery}
    ensures Continues(cfg, m)
  {
    hide Filter;
    assert m.node == RewriteQuery ==> Actionable(cfg, m.s, []) == [] by { NothingToFilter(cfg.referential); }
  }

  lemma StubbornMiddle(cfg: Config, m: Machine)
    requires OnLongestPath(cfg, m) && m.s.steps < cfg.maxSteps
    requires m.node in {ClassifyKnowledge, ReactAgent, RetrieveDocuments, LlmRerank}
    ensures Continues(cfg, m)
  {
  }

  lemma StubbornEnd(cfg: Config, m: Machine)
    requires OnLongestPath(cfg, m) && m.s.steps < cfg.maxSteps
    requires m.node in {GenerateResponse, ValidateAnswer, PrepareRetry, ValidationFailure, Finalize}
    ensures Continues(cfg, m)
  {
  }

  lemma StubbornNext(cfg: Config, m: Machine)
    requires OnLongestPath(cfg, m) && m.s.steps < cfg.maxSteps
    ensures Continues(cfg, m)
  {
    hide Continues;
    match m.node
    case RetrieveMemory | ParseQuestion | AnalyzeCompleteness | RewriteQuery => StubbornStart(cfg, m);
    case ClassifyKnowledge | ReactAgent | RetrieveDocuments | LlmRerank => StubbornMiddle(cfg, m);
    case _ => StubbornEnd(cfg, m);
  }

  lemma StubbornFits(cfg: Config, m: Machine)
    requires OnLongestPath(cfg, m)
    ensures Fits(m.node, m.s, Stubborn(m.node))
  {
  }

  lemma LongestIsPositive(cfg: Config, node: Node, s: State)
    ensures Longest(cfg, node, s) >= 1
  {
  }

  lemma FinalizeIsLast(cfg: Config, m: Machine)
    requires m.At? && OnLongestPath(cfg, m) && m.node == Finalize
    ensures Longest(cfg, m.node, m.s) == 1
  {
  }

  lemma {:induction false} StubbornRun(cfg: Config, m: Machine) returns (events: seq<Event>)
    requires m.At? && OnLongestPath(cfg, m)
    ensures CanRun(cfg, m, events)
    ensures var last := Run(cfg, m, events);
            if m.s.steps + Longest(cfg, m.node, m.s) > cfg.maxSteps then last == Raised(OverBudget)
            else last.Finished? && |events| == Longest(cfg, m.node, m.s)
    decreases Longest(cfg, m.node, m.s)
  {
    hide OnLongestPath, Longest;
    var event := Event(Stubborn(m.node), false);
    if m.s.steps >= cfg.maxSteps {
      StubbornFits(cfg, m);
      assert Next(cfg, m, event.reply, false) == Raised(OverBudget);
      LongestIsPositive(cfg, m.node, m.s);
      events := [event];
    } else {
      StubbornNext(cfg, m);
      NextCounts(cfg, m, event.reply, false);
      var next := Next(cfg, m, event.reply, false);
      if m.node == Finalize {
        FinalizeIsLast(cfg, m);
        events := [event];
      } else {
        var rest := StubbornRun(cfg, next);
        events := [event] + rest;
        assert events[1..] == rest;
      }
    }
  }

  /**
    The step guard can fire iff 12 + 8 * MAX_CORRECTION_ATTEMPTS exceeds MAX_AGENT_STEPS: with the
    default limits 1 and 24 it never does, with 2 retries it can.
   */
  lemma GuardFiresExactlyWhen(cfg: Config, query: string, history: seq<Turn>, attempts: nat)
    ensures (exists events :: CanRun(cfg, Start(query, history, attempts), events)
                              && Run(cfg, Start(query, history, attempts), events) == Raised(OverBudget))
            <==> Bound(cfg, attempts) > cfg.maxSteps
  {
    var m := Start(query, history, attempts);
    if Bound(cfg, attempts) > cfg.maxSteps {
      var events := StubbornRun(cfg, m);
    } else {
      forall events | CanRun(cfg, m, events) ensures Run(cfg, m, events) != Raised(OverBudget) {
        RunKeepsInv(cfg, m, events, Bound(cfg, attempts));
      }
    }
  }

  // ---- How a run can end

  /**
    A finished run gives a verified answer exactly when the last validation it executed passed,
    and then the response is the draft that validation saw. Every other finished run asks for
    clarification or refuses.
   */
  lemma VerifiedExactlyWhenJudged(cfg: Config, query: string, history: seq<Turn>, attempts: nat, events: seq<Event>)
    requires CanRun(cfg, Start(query, history, attempts), events)
    ensures var m := Run(cfg, Start(query, history, attempts), events);
            m.Finished? ==>
              && (m.s.responseType == VerifiedAnswer <==> m.judged.Some? && m.judged.value.1)
              && (m.s.responseType == VerifiedAnswer ==> m.s.response == m.judged.value.0)
              && (m.s.responseType != VerifiedAnswer ==>
                    m.s.responseType == ClarificationRequired || m.s.responseType == SupportedRefusal)
  {
    RunKeepsInv(cfg, Start(query, history, attempts), events, Bound(cfg, attempts));
  }

  /**
    The failure answers also set validation_passed: so no finished run is recorded as a bad case by
    persist_trace, and memory is consolidated after every run that was not on the fast path.
   */
  lemma FinishedRunsCountAsPassed(cfg: Config, query: string, history: seq<Turn>, attempts: nat, events: seq<Event>)
    requires CanRun(cfg, Start(query, history, attempts), events)
    ensures var m := Run(cfg, Start(query, history, attempts), events);
            m.Finished? ==> m.s.passed && m.s.consolidated == !m.s.fastPath
  {
    RunKeepsInv(cfg, Start(query, history, attempts), events, Bound(cfg, attempts));
  }

  /** The edge from validation to clarification is never taken. */
  lemma ValidationNeverAsks(cfg: Config, query: string, history: seq<Turn>, attempts: nat, events: seq<Event>,
                            reply: Reply, late: bool)
    requires CanRun(cfg, Start(query, history, attempts), events)
    ensures var m := Run(cfg, Start(query, history, attempts), events);
            m.At? && m.node == ValidateAnswer && Fits(m.node, m.s, reply) ==>
              var next := Next(cfg, m, reply, late);
              next.At? ==> next.node in {Finalize, PrepareRetry, ValidationFailure}
  {
    RunKeepsInv(cfg, Start(query, history, attempts), events, Bound(cfg, attempts));
  }

  // ---- Which way a run goes

  /** The rewrite left something to ask for: not on the fast path, and for a knowledge query only a referential gap. */
  ghost predicate Asks(cfg: Config, s: State, missing: seq<string>) {
    !(s.fastPath && s.attempts == 0)
    && exists item <- missing :: s.knowledgeQuery ==> cfg.referential(item)
  }

  lemma {:induction false} FilterKeeps(items: seq<string>, keep: string -> bool)
    ensures forall item :: item in Filter(items, keep) <==> item in items && keep(item)
  {
    if items == [] {
    } else {
      FilterKeeps(items[1..], keep);
      assert items == [items[0]] + items[1..];
    }
  }

  lemma ActionableAsks(cfg: Config, s: State, missing: seq<string>)
    ensures Actionable(cfg, s, missing) != [] <==> Asks(cfg, s, missing)
  {
    FilterKeeps(missing, cfg.referential);
    var actionable := Actionable(cfg, s, missing);
    assert actionable != [] ==> actionable[0] in actionable;
    assert missing != [] ==> missing[0] in missing;
  }

  /** The node that follows, told from what the node before was answered. */
  ghost predicate Follows(cfg: Config, m: Machine, reply: Reply, next: Node)
    requires m.At?
  {
    match reply
    case Recalled(_) => next == ParseQuestion
    case Parsed(_, _) => next == AnalyzeCompleteness
    case Completeness(complete, _, _) => next == if complete then RewriteQuery else Clarify
    case Rewritten(missing, _) => next == if Asks(cfg, m.s, missing) then Clarify else ClassifyKnowledge
    case Classified => next == if m.s.knowledgeQuery then ReactAgent else RetrieveDocuments
    case Reasoned(_) => next == RetrieveDocuments
    case Found(candidates) => next == if candidates == [] then NoEvidence else LlmRerank
    case Ranked(documents) =>
      next == if documents == [] then NoEvidence else if m.s.draft == "" then GenerateResponse else ValidateAnswer
    case Drafted(_) => next == ValidateAnswer
    case Judged(valid, checksPassed, guardIssues, _, _) =>
      next == if valid && checksPassed && guardIssues == [] then Finalize
              else if m.s.attempts < cfg.maxAttempts then PrepareRetry
              else ValidationFailure
    case Retried => next == RewriteQuery
    case Resolved(_, _) => next == Finalize
    case Consolidated => false
  }

  /** The next machine: within the budgets the next node, or the end after finalize. */
  ghost predicate Proceeds(cfg: Config, m: Machine, reply: Reply, late: bool, next: Machine)
    requires m.At?
  {
    if m.s.steps >= cfg.maxSteps then next == Raised(OverBudget)
    else if late then next == Raised(OutOfTime)
    else if reply == Drafted(None) then next == Raised(GenerationFailed)
    else if reply == Consolidated then next.Finished?
    else next.At? && Follows(cfg, m, reply, next.node)
  }

  lemma NextProceeds(cfg: Config, m: Machine, reply: Reply, late: bool)
    requires m.At? && Fits(m.node, m.s, reply) && Sound(m)
    ensures Proceeds(cfg, m, reply, late, Next(cfg, m, reply, late))
  {
    hide Actionable, Asks;
    if reply.Rewritten? {
      ActionableAsks(cfg, m.s, reply.missing);
    }
  }

  /**
    In every run: clarification is entered exactly when the completeness check failed or the rewrite left
    something to ask for, the no-evidence answer exactly when the search found nothing or the rerank kept
    nothing, and validation leads to the end exactly when the critic, the checks and the guard all agree.
   */
  lemma RunsFollowTheGraph(cfg: Config, query: string, history: seq<Turn>, attempts: nat, events: seq<Event>,
                           reply: Reply, late: bool)
    requires CanRun(cfg, Start(query, history, attempts), events)
    ensures var m := Run(cfg, Start(query, history, attempts), events);
            m.At? && Fits(m.node, m.s, reply) ==> Proceeds(cfg, m, reply, late, Next(cfg, m, reply, late))
  {
    RunKeepsInv(cfg, Start(query, history, attempts), events, Bound(cfg, attempts));
    var m := Run(cfg, Start(query, history, attempts), events);
    if m.At? && Fits(m.node, m.s, reply) {
      NextProceeds(cfg, m, reply, late);
    }
  }

  /** The follow-up question that a completeness check or a rewrite brings along. */
  function AsksFor(reply: Reply): string {
    match reply
    case Completeness(_, _, followUp) => followUp
    case Rewritten(_, question) => question
    case _ => ""
  }

  lemma ClarifyCarriesTheQuestion(cfg: Config, m: Machine, reply: Reply)
    requires m.At? && Fits(m.node, m.s, reply) && Sound(m)
    ensures var next := Next(cfg, m, reply, false);
            next.At? && next.node == Clarify ==> next.s.followUp == AsksFor(reply)
  {
    hide Actionable, Filter, Failed;
  }

  lemma FailureResolves(cfg: Config, m: Machine, outOfScope: bool, answer: string)
    requires m.At? && m.node in {Clarify, NoEvidence, ValidationFailure}
    ensures var answered := Next(cfg, m, Resolved(outOfScope, answer), false);
            answered.At? ==>
              && answered.node == Finalize
              && answered.s.responseType == (if outOfScope then SupportedRefusal else ClarificationRequired)
              && answered.s.response == if m.node == Clarify && m.s.followUp != "" then m.s.followUp else answer
  {
  }

  lemma FailureAnswersAt(cfg: Config, m: Machine, reply: Reply, outOfScope: bool, answer: string)
    requires m.At? && Fits(m.node, m.s, reply) && Sound(m)
    ensures var next := Next(cfg, m, reply, false);
            next.At? && next.node in {Clarify, NoEvidence, ValidationFailure} ==>
              var answered := Next(cfg, next, Resolved(outOfScope, answer), false);
              answered.At? ==>
                && answered.node == Finalize
                && answered.s.responseType == (if outOfScope then SupportedRefusal else ClarificationRequired)
                && answered.s.response == (if next.node == Clarify && AsksFor(reply) != ""
                                           then AsksFor(reply) else answer)
  {
    hide Next, Sound, AsksFor;
    ClarifyCarriesTheQuestion(cfg, m, reply);
    var next := Next(cfg, m, reply, false);
    if next.At? && next.node in {Clarify, NoEvidence, ValidationFailure} {
      FailureResolves(cfg, next, outOfScope, answer);
    }
  }

  /**
    A run that is sent to clarification answers with the follow-up question of the node that sent it
    there, if there is one; every other failure answers what the failure policy says, and the policy alone
    decides between a refusal and a request for clarification.
   */
  lemma FailureAnswers(cfg: Config, query: string, history: seq<Turn>, attempts: nat, events: seq<Event>,
                       reply: Reply, outOfScope: bool, answer: string)
    requires CanRun(cfg, Start(query, history, attempts), events)
    ensures var m := Run(cfg, Start(query, history, attempts), events);
            m.At? && Fits(m.node, m.s, reply) ==>
              var next := Next(cfg, m, reply, false);
              next.At? && next.node in {Clarify, NoEvidence, ValidationFailure} ==>
                var answered := Next(cfg, next, Resolved(outOfScope, answer), false);
                answered.At? ==>
                  && answered.node == Finalize
                  && answered.s.responseType == (if outOfScope then SupportedRefusal else ClarificationRequired)
                  && answered.s.response == (if next.node == Clarify && AsksFor(reply) != ""
                                             then AsksFor(reply) else answer)
  {
    RunKeepsInv(cfg, Start(query, history, attempts), events, Bound(cfg, attempts));
    var m := Run(cfg, Start(query, history, attempts), events);
    if m.At? && Fits(m.node, m.s, reply) {
      FailureAnswersAt(cfg, m, reply, outOfScope, answer);
    }
  }

  // ---- Evidence

  /** Some document, each from the candidates of this attempt. */
  predicate HasEvidence(s: State) {
    s.documents != [] && forall d <- s.documents :: d in s.candidates
  }

  predicate Undrafted(node: Node) {
    BeforeReranking(node) && node != RetrieveDocuments
  }

  /** Nothing of an earlier attempt is left, a draft at the rerank is the ReAct agent's, and answers have evidence. */
  ghost predicate Grounded(m: Machine) {
    match m
    case At(node, s, _) =>
      && (BeforeReranking(node) ==> s.candidates == [] && s.documents == [])
      && (node == LlmRerank ==> s.candidates != [] && s.documents == [])
      && (node == ReactAgent ==> s.knowledgeQuery)
      && (Undrafted(node) || ((node == RetrieveDocuments || node == LlmRerank) && !s.knowledgeQuery) ==> s.draft == "")
      && (node == GenerateResponse || node == ValidateAnswer ==> HasEvidence(s))
      && (node == Finalize && s.responseType == VerifiedAnswer ==> HasEvidence(s))
    case Finished(s, _) => s.responseType == VerifiedAnswer ==> HasEvidence(s)
    case Raised(_) => true
  }

  lemma EarlyKeepsGrounded(cfg: Config, m: Machine, reply: Reply, late: bool)
    requires m.At? && Fits(m.node, m.s, reply) && Grounded(m) && BeforeReranking(m.node)
    ensures Grounded(Next(cfg, m, reply, late))
  {
    hide Actionable, Filter, Failed, Validated;
  }

  lemma LateKeepsGrounded(cfg: Config, m: Machine, reply: Reply, late: bool)
    requires m.At? && Fits(m.node, m.s, reply) && Sound(m) && Grounded(m) && !BeforeReranking(m.node)
    ensures Grounded(Next(cfg, m, reply, late))
  {
    hide Actionable, Filter;
  }

  lemma NextKeepsGrounded(cfg: Config, m: Machine, reply: Reply, late: bool)
    requires m.At? && Fits(m.node, m.s, reply) && Sound(m) && Grounded(m)
    ensures Grounded(Next(cfg, m, reply, late))
  {
    hide Fits, Sound, Grounded, Next, BeforeReranking;
    if BeforeReranking(m.node) {
      EarlyKeepsGrounded(cfg, m, reply, late);
    } else {
      LateKeepsGrounded(cfg, m, reply, late);
    }
  }

  lemma {:induction false} RunKeepsGrounded(cfg: Config, m: Machine, events: seq<Event>)
    requires CanRun(cfg, m, events) && Sound(m) && Grounded(m)
    ensures Grounded(Run(cfg, m, events))
    decreases |events|
  {
    hide Sound, Grounded, Fits;
    if events == [] {
    } else {
      NextKeepsSound(cfg, m, events[0].reply, events[0].late);
      NextKeepsGrounded(cfg, m, events[0].reply, events[0].late);
      RunKeepsGrounded(cfg, Next(cfg, m, events[0].reply, events[0].late), events[1..]);
    }
  }

  /** No draft is written or judged, and no answer is verified, without documents found in the same attempt. */
  lemma AnswersHaveEvidence(cfg: Config, query: string, history: seq<Turn>, attempts: nat, events: seq<Event>)
    requires CanRun(cfg, Start(query, history, attempts), events)
    ensures var m := Run(cfg, Start(query, history, attempts), events);
            (m.At? && m.node in {GenerateResponse, ValidateAnswer})
            || (m.Finished? && m.s.responseType == VerifiedAnswer) ==>
              m.s.documents != [] && forall d <- m.s.documents :: d in m.s.candidates
  {
    RunKeepsGrounded(cfg, Start(query, history, attempts), events);
  }

  // ---- What the state holds along a run

  /** What a node was answered is what the next node finds in the state. */
  ghost predicate Arrives(cfg: Config, m: Machine, reply: Reply, s: State)
    requires m.At?
  {
    match reply
    case Recalled(history) => s.history == history
    case Completeness(_, missing, followUp) => s.missing == missing && s.followUp == followUp
    case Rewritten(missing, question) =>
      && (forall item :: item in s.missing
            <==> item in missing && !(m.s.fastPath && m.s.attempts == 0)
                 && (m.s.knowledgeQuery ==> cfg.referential(item)))
      && s.followUp == if s.missing == [] then "" else question
    case Reasoned(answer) => s.draft == if answer == None then "" else answer.value
    case Found(candidates) => s.candidates == candidates
    case Ranked(documents) => s.documents == documents
    case Drafted(draft) => Some(s.draft) == draft
    case Judged(_, _, _, _, followUp) => s.followUp == followUp
    case Retried => s.attempts == m.s.attempts + 1
    case _ => true
  }

  lemma RepliesArrive(cfg: Config, m: Machine, reply: Reply, late: bool)
    requires m.At? && Fits(m.node, m.s, reply)
    ensures var next := Next(cfg, m, reply, late);
            next.At? ==> Arrives(cfg, m, reply, next.s)
  {
    hide Filter;
    if reply.Rewritten? {
      FilterKeeps(reply.missing, cfg.referential);
    }
  }

  /** A retry starts over, from whatever state: only the question, its parse and the history are kept. */
  lemma RetryStartsOver(cfg: Config, m: Machine)
    requires m.At? && m.node == PrepareRetry && m.s.steps < cfg.maxSteps
    ensures Next(cfg, m, Retried, false)
            == At(RewriteQuery,
                  m.s.(attempts := m.s.attempts + 1, steps := m.s.steps + 1, draft := "", response := "",
                       responseType := Unset, passed := false, needsClarification := false, candidates := [],
                       documents := []),
                  m.judged)
  {
  }

  /**
    Validation, from whatever state: it accepts the draft as the response or leaves the response alone. Asking
    for a missing condition comes before everything else, then the verdict, then the attempts decide.
   */
  lemma ValidationDecides(cfg: Config, m: Machine, reply: Reply)
    requires m.At? && m.node == ValidateAnswer && reply.Judged? && m.s.steps < cfg.maxSteps
    ensures var passed := reply.valid && reply.checksPassed && reply.guardIssues == [];
            var asks := reply.unclear && m.s.missing != [];
            Next(cfg, m, reply, false)
            == At(if asks then Clarify else if passed then Finalize
                  else if m.s.attempts < cfg.maxAttempts then PrepareRetry else ValidationFailure,
                  m.s.(response := if passed then m.s.draft else m.s.response,
                       responseType := if passed then VerifiedAnswer else Unset, passed := passed,
                       needsClarification := asks, followUp := reply.followUp, steps := m.s.steps + 1),
                  Some((m.s.draft, passed)))
  {
  }

  ghost predicate EndsWell(s: State) {
    && (s.needsClarification <==> s.responseType == ClarificationRequired)
    && (s.responseType != VerifiedAnswer ==> s.draft == "")
  }

  /**
    Until the run is about to end nothing is said: no response, no type, nothing passed. Clarification is
    only wanted on the way to it, and in the end exactly if it is what the answer asks for; a failure
    leaves no draft behind.
   */
  ghost predicate Reticent(m: Machine) {
    match m
    case At(node, s, _) =>
      if node == Finalize then EndsWell(s)
      else
        && s.response == "" && s.responseType == Unset && !s.passed && !s.consolidated
        && (s.needsClarification ==> node == Clarify)
        && (Complete(node) ==> s.followUp == "")
    case Finished(s, _) => EndsWell(s)
    case Raised(_) => true
  }

  lemma NextKeepsReticent(cfg: Config, m: Machine, reply: Reply, late: bool)
    requires m.At? && Fits(m.node, m.s, reply) && Sound(m) && Reticent(m)
    ensures Reticent(Next(cfg, m, reply, late))
  {
    hide Filter;
  }

  lemma {:induction false} RunKeepsReticent(cfg: Config, m: Machine, events: seq<Event>)
    requires CanRun(cfg, m, events) && Sound(m) && Reticent(m)
    ensures Reticent(Run(cfg, m, events))
    decreases |events|
  {
    hide Sound, Reticent, Fits;
    if events == [] {
    } else {
      NextKeepsSound(cfg, m, events[0].reply, events[0].late);
      NextKeepsReticent(cfg, m, events[0].reply, events[0].late);
      RunKeepsReticent(cfg, Next(cfg, m, events[0].reply, events[0].late), events[1..]);
    }
  }

  /** No draft leaks: the response stays empty until validation has passed or a failure has been answered. */
  lemma NothingIsSaidEarly(cfg: Config, query: string, history: seq<Turn>, attempts: nat, events: seq<Event>)
    requires CanRun(cfg, Start(query, history, attempts), events)
    ensures var m := Run(cfg, Start(query, history, attempts), events);
            && (m.At? && m.node != Finalize ==> m.s.response == "" && m.s.responseType == Unset && !m.s.passed)
            && (m.Finished? ==> (m.s.needsClarification <==> m.s.responseType == ClarificationRequired)
                                && (m.s.responseType != VerifiedAnswer ==> m.s.draft == ""))
  {
    RunKeepsReticent(cfg, Start(query, history, attempts), events);
  }

  predicate Parsing(node: Node) {
    node == RetrieveMemory || node == ParseQuestion
  }

  lemma NextKeepsParse(cfg: Config, m: Machine, reply: Reply, late: bool)
    requires m.At? && Fits(m.node, m.s, reply) && !Parsing(m.node)
    ensures var next := Next(cfg, m, reply, late);
            && (next.At? ==> !Parsing(next.node))
            && (next.At? || next.Finished? ==>
                  next.s.fastPath == m.s.fastPath && next.s.knowledgeQuery == m.s.knowledgeQuery
                  && next.s.query == m.s.query)
  {
    hide Filter, Actionable;
  }

  lemma {:induction false} RunKeepsParse(cfg: Config, m: Machine, events: seq<Event>)
    requires CanRun(cfg, m, events) && (m.At? ==> !Parsing(m.node)) && (m.At? || m.Finished?)
    ensures var end := Run(cfg, m, events);
            end.At? || end.Finished? ==>
              end.s.fastPath == m.s.fastPath && end.s.knowledgeQuery == m.s.knowledgeQuery && end.s.query == m.s.query
    decreases |events|
  {
    hide Fits, Next, Parsing;
    if events == [] {
    } else {
      var next := Next(cfg, m, events[0].reply, events[0].late);
      NextKeepsParse(cfg, m, events[0].reply, events[0].late);
      if next.Raised? {
        assert events[1..] == [];
      } else {
        RunKeepsParse(cfg, next, events[1..]);
      }
    }
  }

  lemma StartParses(cfg: Config, query: string, history: seq<Turn>, attempts: nat, recall: Event, parse: Event)
    requires recall.reply.Recalled? && parse.reply.Parsed?
    ensures var m := Next(cfg, Start(query, history, attempts), recall.reply, recall.late);
            m.At? ==>
              && m.node == ParseQuestion
              && var parsed := Next(cfg, m, parse.reply, parse.late);
                 parsed.At? ==>
                   && !Parsing(parsed.node) && parsed.s.query == query
                   && parsed.s.fastPath == (attempts == 0 && parse.reply.solvable)
                   && parsed.s.knowledgeQuery == (parse.reply.knowledgeQuery && !parsed.s.fastPath)
  {
  }

  lemma RecallLeadsToParse(cfg: Config, m: Machine, event: Event)
    requires m.At? && m.node == RetrieveMemory && event.reply.Recalled?
    ensures var next := Next(cfg, m, event.reply, event.late);
            next.At? ==> next.node == ParseQuestion
  {
  }

  lemma ParsingGoesOn(cfg: Config, m: Machine, event: Event)
    requires m.At? && m.node == ParseQuestion && event.reply.Parsed?
    ensures !Next(cfg, m, event.reply, event.late).Finished?
  {
  }

  /**
    The parse decides once: a run is on the fast path exactly if the local solver solves its question at the
    first attempt, it treats the question as a knowledge query only otherwise, and retries change neither.
   */
  lemma TheParseDecides(cfg: Config, query: string, history: seq<Turn>, attempts: nat, events: seq<Event>)
    requires CanRun(cfg, Start(query, history, attempts), events) && |events| >= 2
    ensures var m := Run(cfg, Start(query, history, attempts), events);
            m.At? || m.Finished? ==>
              && events[1].reply.Parsed? && m.s.query == query
              && m.s.fastPath == (attempts == 0 && events[1].reply.solvable)
              && m.s.knowledgeQuery == (events[1].reply.knowledgeQuery && !m.s.fastPath)
  {
    hide Next, Parsing;
    var m0 := Start(query, history, attempts);
    var m1 := Next(cfg, m0, events[0].reply, events[0].late);
    assert CanRun(cfg, m1, events[1..]) && events[1..][0] == events[1];
    assert m1.At?;
    assert events[0].reply.Recalled?;
    RecallLeadsToParse(cfg, m0, events[0]);
    StartParses(cfg, query, history, attempts, events[0], events[1]);
    var m2 := Next(cfg, m1, events[1].reply, events[1].late);
    assert CanRun(cfg, m2, events[1..][1..]);
    ParsingGoesOn(cfg, m1, events[1]);
    assert Run(cfg, m0, events) == Run(cfg, m1, events[1..]) == Run(cfg, m2, events[1..][1..]);
    if m2.At? {
      RunKeepsParse(cfg, m2, events[1..][1..]);
    }
  }

  // ---- The conversation

  /** base is the history the memory step kept. */
  ghost predicate HistoryOk(m: Machine, base: seq<Turn>) {
    match m
    case At(node, s, _) =>
      if node != Finalize then s.history == base
      else if s.responseType == VerifiedAnswer then s.history == base
      else s.history == Said(s, base)
    case Finished(s, _) =>
      s.history == if s.responseType == VerifiedAnswer
                      && (s.response == "" || (base != [] && base[|base| - 1].content == s.response))
                   then base else Said(s, base)
    case Raised(_) => true
  }

  lemma NextKeepsHistory(cfg: Config, m: Machine, reply: Reply, late: bool, base: seq<Turn>)
    requires m.At? && Fits(m.node, m.s, reply) && m.node != RetrieveMemory
    requires Sound(m) && HistoryOk(m, base)
    ensures HistoryOk(Next(cfg, m, reply, late), base)
  {
    hide Filter, Actionable;
  }

  lemma {:induction false} RunKeepsHistory(cfg: Config, m: Machine, events: seq<Event>, base: seq<Turn>)
    requires CanRun(cfg, m, events) && (m.At? ==> m.node != RetrieveMemory)
    requires Sound(m) && HistoryOk(m, base)
    ensures HistoryOk(Run(cfg, m, events), base)
    decreases |events|
  {
    hide Sound, HistoryOk, Fits;
    if events == [] {
    } else {
      NextKeepsSound(cfg, m, events[0].reply, events[0].late);
      NextKeepsHistory(cfg, m, events[0].reply, events[0].late, base);
      RunKeepsHistory(cfg, Next(cfg, m, events[0].reply, events[0].late), events[1..], base);
    }
  }

  /**
    A finished run appends the question and its response to the kept history once, whatever path it
    took; only an empty verified answer, or one that repeats the last turn, appends nothing.
   */
  lemma OneExchangeIsAppended(cfg: Config, query: string, history: seq<Turn>, attempts: nat, events: seq<Event>)
    requires CanRun(cfg, Start(query, history, attempts), events) && events != []
    ensures var m := Run(cfg, Start(query, history, attempts), events);
            m.Finished? ==> HistoryOk(m, events[0].reply.history)
  {
    var m := Start(query, history, attempts);
    NextKeepsSound(cfg, m, events[0].reply, events[0].late);
    RunKeepsHistory(cfg, Next(cfg, m, events[0].reply, events[0].late), events[1..], events[0].reply.history);
  }
}
