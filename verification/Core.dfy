/** What one call of the orchestrator (core.py) does, as functions from state to state.
    Every envelope is built right before it is recorded, so its fresh id is indexed by the
    position it is recorded at; the graph's evidence nodes likewise by edge position. The
    moment of a handler or approver call is the length of the trace when it is made. */
module Core {
  import opened Lists
  import opened Protocol
  import opened StableSort
  import opened Trust
  import opened Arbitration
  import opened Policy
  import opened Agents
  import opened Audit
  import opened Lessons

  const CORE_SENDER: string := "agent:00000000000000000000000000000000"

  // State

  datatype Node = TaskNode(taskId: string) | AgentNode(agentId: string) | EvidenceNode(evidenceId: string)

  datatype Relation = RoutedTo | ProducedResult | SupportedBy | Won

  datatype Citation = Citation(claim: string, source: string, agentId: string)

  datatype Edge = Edge(source: Node, target: Node, relation: Relation, confidence: real, metadata: Option<Citation>)

  /** One invocation of a handler. */
  datatype Call = Call(agentId: string, task: Task, moment: nat)

  /** Why a call records an error envelope of its own. */
  datatype Fault =
    | PolicyBlocked(decision: Decision)
    | NoAgent(objective: string)
    | NoUsableCandidate(objective: string)
    | QuorumNotMet(answered: nat, quorum: int, objective: string)
    | ConflictNotApproved(ground: ConflictGround, verdict: Verdict)

  function ErrorCode(fault: Fault): string {
    match fault
    case PolicyBlocked(_) => "policy_blocked"
    case NoAgent(_) => "capability_unavailable"
    case NoUsableCandidate(_) => "no_usable_candidate"
    case QuorumNotMet(_, _, _) => "quorum_not_met"
    case ConflictNotApproved(_, _) => "conflict_not_approved"
  }

  /** What a core is built with, and the sources of ids, times and message texts. */
  datatype Config = Config(
    graph: bool,
    trust: Option<Weights>,
    arbiter: Option<Weights>,
    policy: Option<PolicyEngine>,
    conflictPolicy: Option<ConflictPolicy>,
    hasher: Hasher<Envelope>,
    taskIdAt: nat -> string,
    messageIdAt: nat -> string,
    evidenceIdAt: nat -> string,
    eventIdAt: nat -> string,
    clockAt: nat -> string,
    wording: Fault -> string)

  datatype State = State(
    agents: seq<Agent>,
    trace: seq<Envelope>,
    audit: Option<seq<AuditEvent<Envelope>>>,
    edges: seq<Edge>,
    invoked: set<Call>)

  type Ledger = Option<map<string, Lesson>>

  // Recording

  function TypeName(t: MessageType): string {
    match t
    case TaskMessage => "task"
    case ResultMessage => "result"
    case ErrorMessage => "error"
  }

  function EventFor(cfg: Config, n: nat, events: seq<AuditEvent<Envelope>>, env: Envelope): AuditEvent<Envelope> {
    NextEvent(cfg.hasher, events, cfg.eventIdAt(n), TypeName(env.messageType), cfg.clockAt(n), env.sender, env)
  }

  /** `_record` */
  function WithRecord(cfg: Config, s: State, env: Envelope): State {
    s.(trace := s.trace + [env],
       audit := if s.audit.None? then None
                else Some(s.audit.value + [EventFor(cfg, |s.trace|, s.audit.value, env)]))
  }

  function TaskEnvelope(cfg: Config, n: nat, task: Task): Envelope {
    Envelope(cfg.messageIdAt(n), TaskMessage, CORE_SENDER, None, TaskToPayload(task))
  }

  function ReplyTo(cfg: Config, n: nat, request: Envelope, t: MessageType, sender: string, payload: Dict): Envelope {
    Envelope(cfg.messageIdAt(n), t, sender, Some(request.messageId), payload)
  }

  /** The error envelope of the core itself. */
  function FaultEnvelope(cfg: Config, n: nat, request: Envelope, task: Task, fault: Fault): Envelope {
    ReplyTo(cfg, n, request, ErrorMessage, CORE_SENDER,
            ErrorToPayload(ErrorPayload(task.id, ErrorCode(fault), cfg.wording(fault), false)))
  }

  // The evidence on record

  function EvidenceIn(env: Envelope, now: string): Decoded<seq<Evidence>> {
    if env.messageType != ResultMessage then Ok([])
    else
      var items :- ArrFieldOrEmpty(env.payload, "evidence");
      EvidenceListFromJson(items, now)
  }

  /** `_historical_evidence` */
  function HistoricalEvidence(trace: seq<Envelope>, now: string): Decoded<seq<Evidence>> {
    if trace == [] then Ok([])
    else
      var before :- HistoricalEvidence(trace[..|trace| - 1], now);
      var last :- EvidenceIn(trace[|trace| - 1], now);
      Ok(before + last)
  }

  // Tasks

  datatype Request = Request(
    objective: string,
    input: Dict,
    constraints: seq<string>,
    risk: Option<string>,
    taskId: Option<string>)

  function NewTask(cfg: Config, n: nat, r: Request): Decoded<Task> {
    var risk :- ParseRisk(r.risk);
    var id := if r.taskId.None? || r.taskId == Some("") then cfg.taskIdAt(n) else r.taskId.value;
    Ok(Task(id, r.objective, r.input, r.constraints, risk, None, map[]))
  }

  /** What the policy, if any, says of a task. */
  function GateFor(cfg: Config, task: Task, moment: nat): Judgement<Decision> {
    if cfg.policy.None? then Judged(Decision(Allow, WithinPolicy, task.risk)) else cfg.policy.value.Evaluate(task, moment)
  }

  /** The policy does not let a task through: it blocks it, or its approver raises. */
  predicate Gated(cfg: Config, task: Task, moment: nat) {
    var j := GateFor(cfg, task, moment);
    j.Broke? || j.decision.action != Allow
  }

  /** What the conflict policy, if any, says of a verdict. */
  function ConflictGateFor(cfg: Config, v: Verdict, moment: nat): Judgement<ConflictDecision> {
    if cfg.conflictPolicy.None? then Judged(ConflictDecision(Allow, CandidatesAgreed, v.agreement))
    else cfg.conflictPolicy.value.Evaluate(v, moment)
  }

  // Graph edges

  function RoutedEdge(taskId: string, agentId: string): Edge {
    Edge(TaskNode(taskId), AgentNode(agentId), RoutedTo, 1.0, None)
  }

  function ProducedEdge(taskId: string, agentId: string, r: Result): Edge {
    Edge(AgentNode(agentId), TaskNode(taskId), ProducedResult, if r.confidence.Some? then r.confidence.value else 1.0, None)
  }

  function SupportEdge(cfg: Config, n: nat, taskId: string, e: Evidence): Edge {
    Edge(TaskNode(taskId), EvidenceNode(cfg.evidenceIdAt(n)), SupportedBy, e.confidence,
         Some(Citation(e.claim, e.source, e.agentId)))
  }

  function WonEdge(taskId: string, agentId: string): Edge {
    Edge(TaskNode(taskId), AgentNode(agentId), Won, 1.0, None)
  }

  /** The edges for a list of evidence, the first at edge position `n`. */
  function SupportEdges(cfg: Config, n: nat, taskId: string, es: seq<Evidence>): seq<Edge> {
    LaidOut(es, n, (k: nat, e: Evidence) => [SupportEdge(cfg, k, taskId, e)])
  }

  /** The edges for one answer. */
  function AnswerEdges(cfg: Config, n: nat, taskId: string, agentId: string, r: Result): seq<Edge> {
    [ProducedEdge(taskId, agentId, r)] + SupportEdges(cfg, n + 1, taskId, r.evidence)
  }

  /** Edges are added only if there is a graph. */
  function Drawn(cfg: Config, edges: seq<Edge>): seq<Edge> {
    if cfg.graph then edges else []
  }

  // route

  datatype Escape =
    | UnreadableHistory(error: Exception)
    | NoWorkers
    | FromHandler(why: string)
    | FromArbiter(error: Exception)
    | FromApprover(why: string)
    | FromConflictApprover(why: string)

  /** `Malformed`: raised before anything is recorded. `Escaped`: an exception the call does
      not handle, after the task was recorded. */
  datatype RouteExit = Replied(envelope: Envelope) | Malformed(error: Exception) | Escaped(cause: Escape)

  datatype Step<+E> = Step(state: State, exit: E)

  function RecurrencesOn(ledger: Ledger, agentId: string): int {
    if ledger.None? then 0 else RecurrencesFor(ledger.value, agentId)
  }

  function Scores(weights: Weights, pool: seq<Agent>, history: seq<Evidence>, ledger: Ledger): seq<real> {
    Map(pool, (a: Agent) => Evaluate(weights, a.agentId, history, RecurrencesOn(ledger, a.agentId)).score)
  }

  /** The position of the leftmost maximum. */
  function LeftmostMaxIndex(scores: seq<real>): (best: nat)
    requires scores != []
    ensures LeftmostMax(scores, best)
  {
    var last := |scores| - 1;
    if last == 0 then 0
    else
      var best := LeftmostMaxIndex(scores[..last]);
      if scores[last] > scores[best] then last else best
  }

  /** The candidate `route` hands the task to. */
  function Chosen(cfg: Config, pool: seq<Agent>, trace: seq<Envelope>, ledger: Ledger): (r: Decoded<nat>)
    requires pool != []
    ensures r.Ok? ==> r.value < |pool|
  {
    if cfg.trust.None? || |pool| == 1 then Ok(0)
    else
      var history :- HistoricalEvidence(trace, cfg.clockAt(|trace|));
      Ok(LeftmostMaxIndex(Scores(cfg.trust.value, pool, history, ledger)))
  }

  function Reply(cfg: Config, s: State, env: Envelope): Step<RouteExit> {
    Step(WithRecord(cfg, s, env), Replied(env))
  }

  /** The agent's part of `route`: the edge, the handler, the reply. */
  function Serve(cfg: Config, s: State, request: Envelope, task: Task, agent: Agent): Step<RouteExit> {
    var n := |s.trace|;
    var id := agent.agentId;
    var routed := s.(edges := s.edges + Drawn(cfg, [RoutedEdge(task.id, id)]), invoked := s.invoked + {Call(id, task, n)});
    match Handle(agent, task, n)
    case Answered(r) =>
      var answered := routed.(edges := routed.edges + Drawn(cfg, AnswerEdges(cfg, |routed.edges|, task.id, id, r)));
      Reply(cfg, answered, ReplyTo(cfg, n, request, ResultMessage, id, ResultToPayload(r)))
    case Unavailable(why) =>
      var payload := ErrorToPayload(ErrorPayload(task.id, "capability_unavailable", why, false));
      Reply(cfg, routed, ReplyTo(cfg, n, request, ErrorMessage, id, payload))
    case Failed(e) =>
      Reply(cfg, routed, ReplyTo(cfg, n, request, ErrorMessage, id, ErrorToPayload(e)))
    case TimedOut(why) => Step(routed, Escaped(FromHandler(why)))
    case Crashed(why) => Step(routed, Escaped(FromHandler(why)))
  }

  /** `route`, once the task is recorded. */
  function RouteTask(cfg: Config, s: State, ledger: Ledger, request: Envelope, task: Task): Step<RouteExit> {
    var n := |s.trace|;
    var pool := FindByObjective(s.agents, task.objective);
    var gate := GateFor(cfg, task, n);
    if gate.Broke? then
      Step(s, Escaped(FromApprover(gate.why)))
    else if gate.decision.action != Allow then
      Reply(cfg, s, FaultEnvelope(cfg, n, request, task, PolicyBlocked(gate.decision)))
    else if pool == [] then
      Reply(cfg, s, FaultEnvelope(cfg, n, request, task, NoAgent(task.objective)))
    else
      match Chosen(cfg, pool, s.trace, ledger)
      case Ok(best) => Serve(cfg, s, request, task, pool[best])
      case Raised(e) => Step(s, Escaped(UnreadableHistory(e)))
  }

  function Route(cfg: Config, s: State, ledger: Ledger, r: Request): Step<RouteExit> {
    match NewTask(cfg, |s.trace|, r)
    case Ok(task) =>
      var request := TaskEnvelope(cfg, |s.trace|, task);
      RouteTask(cfg, WithRecord(cfg, s, request), ledger, request, task)
    case Raised(e) => Step(s, Malformed(e))
  }

  // debate

  datatype Debate = Debate(
    request: Request,
    agentIds: Option<seq<string>>,
    parallel: bool,
    quorum: Option<int>,
    maxCandidates: Option<int>)

  /** `Declined`: an error envelope was recorded and an exception raised. */
  datatype DebateExit =
    | Decided(verdict: Verdict)
    | Declined(fault: Fault)
    | NoArbiter
    | BadRequest(error: Exception)
    | Abandoned(cause: Escape)

  /** `pool[:n]`, for any integer n */
  function Slice<T>(xs: seq<T>, n: int): (r: seq<T>)
    ensures r <= xs
    ensures n >= 0 ==> |r| <= n
  {
    if n >= |xs| then xs
    else if n >= 0 then xs[..n]
    else if |xs| + n >= 0 then xs[..|xs| + n]
    else []
  }

  function Invited(agents: seq<Agent>, objective: string, agentIds: Option<seq<string>>): seq<Agent> {
    var pool := FindByObjective(agents, objective);
    if agentIds.None? then pool else Filter(pool, (a: Agent) => a.agentId in agentIds.value)
  }

  function Dispatchable(pool: seq<Agent>, maxCandidates: Option<int>): seq<Agent> {
    if maxCandidates.None? then pool else Slice(pool, maxCandidates.value)
  }

  datatype Dispatched = Results(results: map<string, Result>) | Interrupted(why: string)

  /** One candidate's outcome, added to what the ones before it came to. */
  function Collecting(before: Dispatched, agentId: string, h: Handled): Dispatched {
    if before.Interrupted? then before
    else
      match h
      case Answered(r) => Results(before.results[agentId := r])
      case Crashed(why) => Interrupted(why)
      case _ => before
  }

  /** The result map of a dispatch: answers are kept, ordinary failures dropped, and the first
      uncaught exception in pool order stops it. */
  function Dispatch(pool: seq<Agent>, task: Task, moment: nat): Dispatched {
    if pool == [] then Results(map[])
    else
      var last := pool[|pool| - 1];
      Collecting(Dispatch(pool[..|pool| - 1], task, moment), last.agentId, Handle(last, task, moment))
  }

  /** The handlers a dispatch runs: with threads all of them, in sequence those up to the
      first uncaught exception. */
  function InvokedBy(pool: seq<Agent>, task: Task, moment: nat, parallel: bool): set<Call> {
    if pool == [] then {}
    else
      var before := pool[..|pool| - 1];
      var calls := InvokedBy(before, task, moment, parallel);
      if !parallel && Dispatch(before, task, moment).Interrupted? then calls
      else calls + {Call(pool[|pool| - 1].agentId, task, moment)}
  }

  function Candidates(pool: seq<Agent>, results: map<string, Result>): seq<Candidate> {
    if pool == [] then []
    else
      var id := pool[|pool| - 1].agentId;
      Candidates(pool[..|pool| - 1], results) + if id in results then [Candidate(id, results[id])] else []
  }

  function CandidateEdges(cfg: Config, n: nat, taskId: string, id: string, results: map<string, Result>): seq<Edge> {
    [RoutedEdge(taskId, id)] + if id in results then AnswerEdges(cfg, n + 1, taskId, id, results[id]) else []
  }

  /** The edges of the bookkeeping loop, the first at edge position `n`. */
  function PoolEdges(cfg: Config, n: nat, taskId: string, pool: seq<Agent>, results: map<string, Result>): seq<Edge> {
    LaidOut(pool, n, (k: nat, a: Agent) => CandidateEdges(cfg, k, taskId, a.agentId, results))
  }

  function Decline(cfg: Config, s: State, request: Envelope, task: Task, fault: Fault): Step<DebateExit> {
    Step(WithRecord(cfg, s, FaultEnvelope(cfg, |s.trace|, request, task, fault)), Declined(fault))
  }

  function Crown(cfg: Config, s: State, request: Envelope, task: Task, v: Verdict): Step<DebateExit> {
    var crowned := s.(edges := s.edges + Drawn(cfg, [WonEdge(task.id, v.winnerAgentId)]));
    var env := ReplyTo(cfg, |s.trace|, request, ResultMessage, v.winnerAgentId, ResultToPayload(v.winningResult));
    Step(WithRecord(cfg, crowned, env), Decided(v))
  }

  /** `conflict_policy`, then the verdict. */
  function Publish(cfg: Config, s: State, request: Envelope, task: Task, v: Verdict): Step<DebateExit> {
    var gate := ConflictGateFor(cfg, v, |s.trace|);
    if gate.Broke? then Step(s, Abandoned(FromConflictApprover(gate.why)))
    else if gate.decision.action != Allow then
      Decline(cfg, s, request, task, ConflictNotApproved(gate.decision.reason, v))
    else
      Crown(cfg, s, request, task, v)
  }

  /** `debate`, once the candidates are known. */
  function Judge(
    cfg: Config, s: State, request: Envelope, task: Task, cs: seq<Candidate>, quorum: Option<int>): Step<DebateExit>
    requires cfg.arbiter.Some?
  {
    if cs == [] then
      Decline(cfg, s, request, task, NoUsableCandidate(task.objective))
    else if quorum.Some? && |cs| < quorum.value then
      Decline(cfg, s, request, task, QuorumNotMet(|cs|, quorum.value, task.objective))
    else
      match HistoricalEvidence(s.trace, cfg.clockAt(|s.trace|))
      case Raised(e) => Step(s, Abandoned(UnreadableHistory(e)))
      case Ok(history) =>
        match Arbitrate(cfg.arbiter.value, task.id, cs, history)
        case Raised(e) => Step(s, Abandoned(FromArbiter(e)))
        case Ok(v) => Publish(cfg, s, request, task, v)
  }

  /** The state when the dispatch is over. */
  function AfterDispatch(s: State, pool: seq<Agent>, task: Task, parallel: bool): State {
    s.(invoked := s.invoked + InvokedBy(pool, task, |s.trace|, parallel))
  }

  function AfterBookkeeping(cfg: Config, s: State, task: Task, pool: seq<Agent>, results: map<string, Result>): State {
    s.(edges := s.edges + Drawn(cfg, PoolEdges(cfg, |s.edges|, task.id, pool, results)))
  }

  /** `debate`, from the dispatch on. */
  function DebateAmong(
    cfg: Config, s: State, request: Envelope, task: Task, pool: seq<Agent>, parallel: bool, quorum: Option<int>)
    : Step<DebateExit>
    requires cfg.arbiter.Some?
  {
    if parallel && pool == [] then Step(s, Abandoned(NoWorkers))
    else
      var done := AfterDispatch(s, pool, task, parallel);
      match Dispatch(pool, task, |s.trace|)
      case Interrupted(why) => Step(done, Abandoned(FromHandler(why)))
      case Results(results) =>
        Judge(cfg, AfterBookkeeping(cfg, done, task, pool, results), request, task, Candidates(pool, results), quorum)
  }

  /** `debate`, once the task is recorded. */
  function DebateTask(cfg: Config, s: State, request: Envelope, task: Task, d: Debate): Step<DebateExit>
    requires cfg.arbiter.Some?
  {
    var n := |s.trace|;
    var pool := Invited(s.agents, task.objective, d.agentIds);
    var gate := GateFor(cfg, task, n);
    if gate.Broke? then
      Step(s, Abandoned(FromApprover(gate.why)))
    else if gate.decision.action != Allow then
      Decline(cfg, s, request, task, PolicyBlocked(gate.decision))
    else if pool == [] then
      Decline(cfg, s, request, task, NoAgent(task.objective))
    else
      DebateAmong(cfg, s, request, task, Dispatchable(pool, d.maxCandidates), d.parallel, d.quorum)
  }

  function Deliberate(cfg: Config, s: State, d: Debate): Step<DebateExit> {
    if cfg.arbiter.None? then Step(s, NoArbiter)
    else
      match NewTask(cfg, |s.trace|, d.request.(constraints := []))
      case Ok(task) =>
        var request := TaskEnvelope(cfg, |s.trace|, task);
        DebateTask(cfg, WithRecord(cfg, s, request), request, task, d)
      case Raised(e) => Step(s, BadRequest(e))
  }
}
