/** Nothing runs, and nothing is drawn in the graph, behind the policy gate. */
module Gates {
  import opened Lists
  import opened Protocol
  import opened Arbitration
  import opened Policy
  import opened Agents
  import opened Core
  import opened Records
  import opened History

  predicate Permitted(cfg: Config, c: Call) {
    !Gated(cfg, c.task, c.moment)
  }

  predicate Touches(e: Edge, taskId: string) {
    e.source == TaskNode(taskId) || e.target == TaskNode(taskId)
  }

  /** `e` may be edge `i` of a graph for a task: it touches the task, and the node of a piece of evidence
      has the fresh id of its position. */
  predicate Fits(cfg: Config, e: Edge, i: nat, taskId: string) {
    Touches(e, taskId) && (e.target.EvidenceNode? ==> e.target == EvidenceNode(cfg.evidenceIdAt(i)))
  }

  ghost predicate AllFit(cfg: Config, edges: seq<Edge>, n: nat, taskId: string) {
    forall i :: 0 <= i < |edges| ==> Fits(cfg, edges[i], n + i, taskId)
  }

  lemma AllFitConcat(cfg: Config, xs: seq<Edge>, ys: seq<Edge>, n: nat, taskId: string)
    requires AllFit(cfg, xs, n, taskId) && AllFit(cfg, ys, n + |xs|, taskId)
    ensures AllFit(cfg, xs + ys, n, taskId)
  {
    forall i | 0 <= i < |xs + ys| ensures Fits(cfg, (xs + ys)[i], n + i, taskId) {
      if i >= |xs| {
        assert Fits(cfg, ys[i - |xs|], n + |xs| + (i - |xs|), taskId);
      }
    }
  }

  /** `t` extends `s` by permitted invocations of handlers for `task`, all at this moment, and by
      edges that touch that task; no edge without an invocation. */
  ghost predicate GrowsFor(cfg: Config, s: State, t: State, task: Task) {
    var n := |s.trace|;
    && s.invoked <= t.invoked
    && s.edges <= t.edges
    && (forall c :: c in t.invoked - s.invoked ==> c.task == task && c.moment == n && !Gated(cfg, task, n))
    && (forall i :: |s.edges| <= i < |t.edges| ==> Fits(cfg, t.edges[i], i, task.id))
    && (|t.edges| > |s.edges| ==> !Gated(cfg, task, n) && exists c :: c in t.invoked && c.task == task && c.moment == n)
  }

  lemma {:induction false} LaidOutFit<S(!new)>(
    cfg: Config, xs: seq<S>, n: nat, items: (nat, S) -> seq<Edge>, taskId: string)
    requires forall k: nat, x :: AllFit(cfg, items(k, x), k, taskId)
    ensures AllFit(cfg, LaidOut(xs, n, items), n, taskId)
  {
    if xs == [] {
    } else {
      var before, x := LaidOut(xs[..|xs| - 1], n, items), xs[|xs| - 1];
      LaidOutFit(cfg, xs[..|xs| - 1], n, items, taskId);
      AllFitConcat(cfg, before, items(n + |before|, x), n, taskId);
    }
  }

  lemma AnswerEdgesFit(cfg: Config, n: nat, taskId: string, agentId: string, r: Result)
    ensures AllFit(cfg, AnswerEdges(cfg, n, taskId, agentId, r), n, taskId)
  {
    LaidOutFit(cfg, r.evidence, n + 1, (k: nat, e: Evidence) => [SupportEdge(cfg, k, taskId, e)], taskId);
    AllFitConcat(cfg, [ProducedEdge(taskId, agentId, r)], SupportEdges(cfg, n + 1, taskId, r.evidence), n, taskId);
  }

  lemma CandidateEdgesFit(cfg: Config, n: nat, taskId: string, id: string, results: map<string, Result>)
    ensures AllFit(cfg, CandidateEdges(cfg, n, taskId, id, results), n, taskId)
  {
    if id in results {
      AnswerEdgesFit(cfg, n + 1, taskId, id, results[id]);
      AllFitConcat(cfg, [RoutedEdge(taskId, id)], AnswerEdges(cfg, n + 1, taskId, id, results[id]), n, taskId);
    }
  }

  lemma PoolEdgesFit(cfg: Config, n: nat, taskId: string, pool: seq<Agent>, results: map<string, Result>)
    ensures AllFit(cfg, PoolEdges(cfg, n, taskId, pool, results), n, taskId)
  {
    forall k: nat, a: Agent ensures AllFit(cfg, CandidateEdges(cfg, k, taskId, a.agentId, results), k, taskId) {
      CandidateEdgesFit(cfg, k, taskId, a.agentId, results);
    }
    LaidOutFit(cfg, pool, n, (k: nat, a: Agent) => CandidateEdges(cfg, k, taskId, a.agentId, results), taskId);
  }

  /** What stops a task: a policy, under which its risk is not mapped to allow and no approver grants it. */
  lemma GatedIff(cfg: Config, task: Task, moment: nat)
    ensures Gated(cfg, task, moment)
            <==> && cfg.policy.Some?
                 && var p := cfg.policy.value;
                    && !(task.risk in p.riskPolicy && p.riskPolicy[task.risk] == Allow)
                    && !(Asks(p, task) && RulingOn(p, task, moment) == Grants)
  {
    if cfg.policy.Some? {
      GateFailsClosed(cfg.policy.value, task, moment);
    }
  }

  /** The edges `route` adds for the agent it picked. */
  function RouteEdges(cfg: Config, n: nat, task: Task, agent: Agent, h: Handled): seq<Edge> {
    [RoutedEdge(task.id, agent.agentId)]
    + if h.Answered? then AnswerEdges(cfg, n + 1, task.id, agent.agentId, h.result) else []
  }

  lemma ServeDraws(cfg: Config, s: State, request: Envelope, task: Task, agent: Agent)
    ensures var t, h := Serve(cfg, s, request, task, agent).state, Handle(agent, task, |s.trace|);
            && t.edges == s.edges + Drawn(cfg, RouteEdges(cfg, |s.edges|, task, agent, h))
            && t.invoked == s.invoked + {Call(agent.agentId, task, |s.trace|)}
  {
    var h := Handle(agent, task, |s.trace|);
    var routed := [RoutedEdge(task.id, agent.agentId)];
    if h.Answered? && cfg.graph {
      var more := AnswerEdges(cfg, |s.edges + routed|, task.id, agent.agentId, h.result);
      ConcatAssociates(s.edges, routed, more);
    }
  }

  lemma ServeGrows(cfg: Config, s: State, request: Envelope, task: Task, agent: Agent)
    requires !Gated(cfg, task, |s.trace|)
    ensures GrowsFor(cfg, s, Serve(cfg, s, request, task, agent).state, task)
  {
    var h := Handle(agent, task, |s.trace|);
    ServeDraws(cfg, s, request, task, agent);
    RouteEdgesFit(cfg, |s.edges|, task, agent, h);
    AppendedFit(cfg, s.edges, Drawn(cfg, RouteEdges(cfg, |s.edges|, task, agent, h)), task.id);
    assert Call(agent.agentId, task, |s.trace|) in Serve(cfg, s, request, task, agent).state.invoked;
  }

  lemma RouteEdgesFit(cfg: Config, n: nat, task: Task, agent: Agent, h: Handled)
    ensures AllFit(cfg, RouteEdges(cfg, n, task, agent, h), n, task.id)
  {
    if h.Answered? {
      var more := AnswerEdges(cfg, n + 1, task.id, agent.agentId, h.result);
      AnswerEdgesFit(cfg, n + 1, task.id, agent.agentId, h.result);
      AllFitConcat(cfg, [RoutedEdge(task.id, agent.agentId)], more, n, task.id);
    }
  }

  lemma AppendedFit(cfg: Config, edges: seq<Edge>, more: seq<Edge>, taskId: string)
    requires AllFit(cfg, more, |edges|, taskId)
    ensures forall i :: |edges| <= i < |edges + more| ==> Fits(cfg, (edges + more)[i], i, taskId)
  {
    forall i | |edges| <= i < |edges + more| ensures Fits(cfg, (edges + more)[i], i, taskId) {
      assert Fits(cfg, more[i - |edges|], |edges| + (i - |edges|), taskId);
    }
  }

  lemma RouteGrows(cfg: Config, s: State, ledger: Ledger, request: Envelope, task: Task)
    ensures GrowsFor(cfg, s, RouteTask(cfg, s, ledger, request, task).state, task)
  {
    var agent := RoutedAgent(cfg, s, ledger, task);
    if agent.Some? {
      ServeGrows(cfg, s, request, task, agent.value);
    }
  }

  lemma {:induction false} InvokedForTask(pool: seq<Agent>, task: Task, moment: nat, parallel: bool)
    ensures forall c :: c in InvokedBy(pool, task, moment, parallel) ==> c.task == task && c.moment == moment
    ensures pool != [] ==> Call(pool[0].agentId, task, moment) in InvokedBy(pool, task, moment, parallel)
  {
    if pool == [] {
    } else {
      InvokedForTask(pool[..|pool| - 1], task, moment, parallel);
    }
  }

  lemma JudgeDraws(
    cfg: Config, s: State, request: Envelope, task: Task, cs: seq<Candidate>, quorum: Option<int>)
    requires cfg.arbiter.Some?
    ensures var step := Judge(cfg, s, request, task, cs, quorum);
            && step.state.invoked == s.invoked
            && step.state.edges
               == s.edges
                  + (if step.exit.Decided? then Drawn(cfg, [WonEdge(task.id, step.exit.verdict.winnerAgentId)]) else [])
            && (step.exit.Decided? ==> cs != [])
  {
    assert s.edges + [] == s.edges;
  }

  /** The edges of a dispatched debate: none, or those of its bookkeeping and maybe a `won` edge. */
  lemma DebateAmongDraws(
    cfg: Config, s: State, request: Envelope, task: Task, pool: seq<Agent>, parallel: bool, quorum: Option<int>)
    returns (drawn: seq<Edge>)
    requires cfg.arbiter.Some?
    ensures DebateAmong(cfg, s, request, task, pool, parallel, quorum).state.edges == s.edges + drawn
    ensures AllFit(cfg, drawn, |s.edges|, task.id)
    ensures drawn != [] ==> pool != []
  {
    var d := Dispatch(pool, task, |s.trace|);
    drawn := [];
    if d.Results? && !(parallel && pool == []) {
      var ready := AfterBookkeeping(cfg, AfterDispatch(s, pool, task, parallel), task, pool, d.results);
      var step := Judge(cfg, ready, request, task, Candidates(pool, d.results), quorum);
      var won := if step.exit.Decided? then Drawn(cfg, [WonEdge(task.id, step.exit.verdict.winnerAgentId)]) else [];
      PoolEdgesFit(cfg, |s.edges|, task.id, pool, d.results);
      JudgeDraws(cfg, ready, request, task, Candidates(pool, d.results), quorum);
      ConcatAssociates(s.edges, Drawn(cfg, PoolEdges(cfg, |s.edges|, task.id, pool, d.results)), won);
      drawn := Drawn(cfg, PoolEdges(cfg, |s.edges|, task.id, pool, d.results)) + won;
      AllFitConcat(cfg, Drawn(cfg, PoolEdges(cfg, |s.edges|, task.id, pool, d.results)), won, |s.edges|, task.id);
    }
  }

  lemma DebateAmongInvokes(
    cfg: Config, s: State, request: Envelope, task: Task, pool: seq<Agent>, parallel: bool, quorum: Option<int>)
    requires cfg.arbiter.Some?
    ensures DebateAmong(cfg, s, request, task, pool, parallel, quorum).state.invoked
            == s.invoked + InvokedBy(pool, task, |s.trace|, parallel)
  {
    var d := Dispatch(pool, task, |s.trace|);
    if d.Results? {
      var ready := AfterBookkeeping(cfg, AfterDispatch(s, pool, task, parallel), task, pool, d.results);
      JudgeDraws(cfg, ready, request, task, Candidates(pool, d.results), quorum);
    }
  }

  lemma DebateAmongGrows(
    cfg: Config, s: State, request: Envelope, task: Task, pool: seq<Agent>, parallel: bool, quorum: Option<int>)
    requires cfg.arbiter.Some? && !Gated(cfg, task, |s.trace|)
    ensures GrowsFor(cfg, s, DebateAmong(cfg, s, request, task, pool, parallel, quorum).state, task)
  {
    var t := DebateAmong(cfg, s, request, task, pool, parallel, quorum).state;
    DebateAmongInvokes(cfg, s, request, task, pool, parallel, quorum);
    var drawn := DebateAmongDraws(cfg, s, request, task, pool, parallel, quorum);
    StateGrows(cfg, s, t, task, pool, parallel, drawn);
  }

  lemma StateGrows(cfg: Config, s: State, t: State, task: Task, pool: seq<Agent>, parallel: bool, drawn: seq<Edge>)
    requires !Gated(cfg, task, |s.trace|) && t.edges == s.edges + drawn
    requires t.invoked == s.invoked + InvokedBy(pool, task, |s.trace|, parallel)
    requires AllFit(cfg, drawn, |s.edges|, task.id) && (drawn != [] ==> pool != [])
    ensures GrowsFor(cfg, s, t, task)
  {
    InvokedForTask(pool, task, |s.trace|, parallel);
    AppendedFit(cfg, s.edges, drawn, task.id);
    assert pool != [] ==> Call(pool[0].agentId, task, |s.trace|) in t.invoked;
  }

  lemma DebateGrows(cfg: Config, s: State, request: Envelope, task: Task, d: Debate)
    requires cfg.arbiter.Some?
    ensures GrowsFor(cfg, s, DebateTask(cfg, s, request, task, d).state, task)
  {
    if !Gated(cfg, task, |s.trace|) {
      var pool := Dispatchable(Invited(s.agents, task.objective, d.agentIds), d.maxCandidates);
      DebateAmongGrows(cfg, s, request, task, pool, d.parallel, d.quorum);
    }
  }

  /** The task of a call, if it gets as far as recording one. */
  function TaskOf(cfg: Config, s: State, op: Op): Option<Task> {
    match op
    case DoRoute(r, _) =>
      (match NewTask(cfg, |s.trace|, r)
       case Ok(task) => Some(task)
       case Raised(_) => None)
    case DoDebate(d) =>
      (match NewTask(cfg, |s.trace|, d.request.(constraints := []))
       case Ok(task) => if cfg.arbiter.Some? then Some(task) else None
       case Raised(_) => None)
    case _ => None
  }

  /** `t` may follow `s` after a call for `task`, if any. A call without a task, or with one the
      policy does not allow at that moment, invokes no handler and draws no edge. Any other only
      invokes handlers for its own task now and only draws edges that touch that task, and none
      without such an invocation. */
  ghost predicate GatedStep(cfg: Config, s: State, t: State, task: Option<Task>) {
    var n := |s.trace| + 1;
    if task.None? || Gated(cfg, task.value, n)
    then t.invoked == s.invoked && t.edges == s.edges
    else
      && s.invoked <= t.invoked && s.edges <= t.edges
      && (forall c :: c in t.invoked - s.invoked ==> c.task == task.value && c.moment == n)
      && (forall i :: |s.edges| <= i < |t.edges| ==> Fits(cfg, t.edges[i], i, task.value.id))
      && (|t.edges| > |s.edges| ==> exists c :: c in t.invoked && c.task == task.value && c.moment == n)
  }

  lemma GrowthGated(cfg: Config, s: State, t: State, request: Envelope, task: Task)
    requires GrowsFor(cfg, WithRecord(cfg, s, request), t, task)
    ensures GatedStep(cfg, s, t, Some(task))
  {
    if Gated(cfg, task, |s.trace| + 1) {
      var added := t.invoked - WithRecord(cfg, s, request).invoked;
      assert added == {};
      assert t.invoked == s.invoked + added;
      assert |t.edges| == |s.edges|;
    }
  }

  lemma RouteIsGated(cfg: Config, s: State, ledger: Ledger, r: Request)
    ensures GatedStep(cfg, s, Route(cfg, s, ledger, r).state, TaskOf(cfg, s, DoRoute(r, ledger)))
  {
    var task := NewTask(cfg, |s.trace|, r);
    if task.Ok? {
      var request := TaskEnvelope(cfg, |s.trace|, task.value);
      var s1 := WithRecord(cfg, s, request);
      RouteGrows(cfg, s1, ledger, request, task.value);
      GrowthGated(cfg, s, RouteTask(cfg, s1, ledger, request, task.value).state, request, task.value);
    }
  }

  lemma DebateIsGated(cfg: Config, s: State, d: Debate)
    ensures GatedStep(cfg, s, Deliberate(cfg, s, d).state, TaskOf(cfg, s, DoDebate(d)))
  {
    var task := NewTask(cfg, |s.trace|, d.request.(constraints := []));
    if task.Ok? && cfg.arbiter.Some? {
      var request := TaskEnvelope(cfg, |s.trace|, task.value);
      var s1 := WithRecord(cfg, s, request);
      DebateGrows(cfg, s1, request, task.value, d);
      GrowthGated(cfg, s, DebateTask(cfg, s1, request, task.value, d).state, request, task.value);
    }
  }

  /** Every call, from any state, keeps to the policy. */
  lemma CallIsGated(cfg: Config, s: State, op: Op)
    ensures GatedStep(cfg, s, Apply(cfg, s, op), TaskOf(cfg, s, op))
  {
    match op
    case DoRoute(r, ledger) => RouteIsGated(cfg, s, ledger, r);
    case DoDebate(d) => DebateIsGated(cfg, s, d);
    case _ =>
  }

  /** The trace never shrinks, and invocations lie in its past. */
  ghost predicate InvokedBefore(s: State) {
    forall c :: c in s.invoked ==> c.moment <= |s.trace|
  }

  /** Every handler ran for a task the policy allowed at that moment. */
  ghost predicate Guarded(cfg: Config, s: State) {
    forall c :: c in s.invoked ==> Permitted(cfg, c)
  }

  lemma StepGuarded(cfg: Config, s: State, t: State, task: Option<Task>)
    requires Guarded(cfg, s) && InvokedBefore(s) && GatedStep(cfg, s, t, task)
    requires |t.trace| >= |s.trace| + if task.Some? then 1 else 0
    ensures Guarded(cfg, t) && InvokedBefore(t)
  {
    forall c | c in t.invoked ensures Permitted(cfg, c) && c.moment <= |t.trace| {
      if c !in s.invoked {
        assert c in t.invoked - s.invoked;
      }
    }
  }

  lemma CallRecords(cfg: Config, s: State, op: Op)
    ensures |Apply(cfg, s, op).trace| >= |s.trace| + if TaskOf(cfg, s, op).Some? then 1 else 0
  {
    var segment := CallSegment(cfg, s, op);
    if TaskOf(cfg, s, op).Some? {
      TaskRecorded(cfg, s, op);
    }
  }

  lemma TaskRecorded(cfg: Config, s: State, op: Op)
    requires TaskOf(cfg, s, op).Some?
    ensures |Apply(cfg, s, op).trace| >= |s.trace| + 1
  {
    var request := TaskEnvelope(cfg, |s.trace|, TaskOf(cfg, s, op).value);
    match op
    case DoRoute(r, ledger) =>
      RouteRecordsOnce(cfg, WithRecord(cfg, s, request), ledger, request, TaskOf(cfg, s, op).value);
    case DoDebate(d) =>
      DebateRecordsOnce(cfg, WithRecord(cfg, s, request), request, TaskOf(cfg, s, op).value, d);
  }

  /** In every run a handler is only ever invoked for a task the policy allowed at that moment. */
  lemma {:induction false} RunIsGuarded(cfg: Config, audited: bool, ops: seq<Op>)
    ensures Guarded(cfg, Run(cfg, audited, ops)) && InvokedBefore(Run(cfg, audited, ops))
  {
    if ops == [] {
    } else {
      var s, op := Run(cfg, audited, ops[..|ops| - 1]), ops[|ops| - 1];
      RunIsGuarded(cfg, audited, ops[..|ops| - 1]);
      CallIsGated(cfg, s, op);
      CallRecords(cfg, s, op);
      StepGuarded(cfg, s, Apply(cfg, s, op), TaskOf(cfg, s, op));
    }
  }

  /** A call for `task` that leads from `s` to `t` drew edge `i`: for its own task, which the
      policy allowed, and it invoked a handler for it. */
  ghost predicate Draws(cfg: Config, s: State, t: State, task: Option<Task>, i: nat) {
    && |s.edges| <= i < |t.edges|
    && task.Some?
    && !Gated(cfg, task.value, |s.trace| + 1)
    && Touches(t.edges[i], task.value.id)
    && exists c :: c in t.invoked - s.invoked && c.task == task.value && c.moment == |s.trace| + 1
  }

  lemma StepDraws(cfg: Config, s: State, t: State, task: Option<Task>, i: nat)
    requires GatedStep(cfg, s, t, task) && InvokedBefore(s) && |s.edges| <= i < |t.edges|
    ensures Draws(cfg, s, t, task, i)
  {
    var c :| c in t.invoked && c.task == task.value && c.moment == |s.trace| + 1;
    assert c in t.invoked - s.invoked;
  }

  /** The `k`-th call of a run drew edge `i`. */
  ghost predicate DrawnBy(cfg: Config, audited: bool, ops: seq<Op>, i: nat, k: nat)
    requires k < |ops|
  {
    var s := Run(cfg, audited, ops[..k]);
    Draws(cfg, s, Run(cfg, audited, ops[..k + 1]), TaskOf(cfg, s, ops[k]), i)
  }

  lemma LastDraws(cfg: Config, audited: bool, before: seq<Op>, op: Op, i: nat)
    ensures var s := Run(cfg, audited, before);
            |s.edges| <= i < |Apply(cfg, s, op).edges| ==> Draws(cfg, s, Apply(cfg, s, op), TaskOf(cfg, s, op), i)
  {
    var s := Run(cfg, audited, before);
    if |s.edges| <= i < |Apply(cfg, s, op).edges| {
      CallIsGated(cfg, s, op);
      RunIsGuarded(cfg, audited, before);
      StepDraws(cfg, s, Apply(cfg, s, op), TaskOf(cfg, s, op), i);
    }
  }

  /** Every edge of a run was drawn by a call for its own task, allowed by the policy then, that
      invoked a handler for it: ids used twice do not let a blocked call draw. */
  lemma {:induction false} EdgesAreGuarded(cfg: Config, audited: bool, ops: seq<Op>, i: nat) returns (k: nat)
    requires i < |Run(cfg, audited, ops).edges|
    ensures k < |ops| && DrawnBy(cfg, audited, ops, i, k)
  {
    var before, op := ops[..|ops| - 1], ops[|ops| - 1];
    var s := Run(cfg, audited, before);
    if i < |s.edges| {
      k := EdgesAreGuarded(cfg, audited, before, i);
      assert before[..k] == ops[..k] && before[..k + 1] == ops[..k + 1];
    } else {
      k := |ops| - 1;
      LastDraws(cfg, audited, before, op, i);
      assert ops[..k + 1] == ops;
    }
  }

  /** Edges never change: those of a prefix of a run stay, in place. */
  lemma {:induction false} EdgesStay(cfg: Config, audited: bool, ops: seq<Op>, k: nat)
    requires k <= |ops|
    ensures Run(cfg, audited, ops[..k]).edges <= Run(cfg, audited, ops).edges
  {
    if k == |ops| {
      assert ops[..k] == ops;
    } else {
      var before := ops[..|ops| - 1];
      EdgesStay(cfg, audited, before, k);
      assert before[..k] == ops[..k];
      CallIsGated(cfg, Run(cfg, audited, before), ops[|ops| - 1]);
    }
  }

  /** In every run each piece of evidence gets a node of its own, with the fresh id of its edge. */
  lemma {:induction false} EvidenceNodesFresh(cfg: Config, audited: bool, ops: seq<Op>, i: nat)
    ensures var edges := Run(cfg, audited, ops).edges;
            i < |edges| && edges[i].target.EvidenceNode? ==> edges[i].target == EvidenceNode(cfg.evidenceIdAt(i))
  {
    if ops == [] {
    } else {
      var s, op := Run(cfg, audited, ops[..|ops| - 1]), ops[|ops| - 1];
      EvidenceNodesFresh(cfg, audited, ops[..|ops| - 1], i);
      CallIsGated(cfg, s, op);
    }
  }

  /** Human approval by default: under the default policy without an approver, no run ever
      invokes a handler for a high-risk or critical task. */
  lemma DefaultPolicyHolds(cfg: Config, audited: bool, ops: seq<Op>)
    requires cfg.policy == Some(PolicyEngine(DEFAULT_RISK_POLICY, None))
    ensures forall c :: c in Run(cfg, audited, ops).invoked ==> c.task.risk !in {Some(High), Some(Critical)}
  {
    RunIsGuarded(cfg, audited, ops);
    forall c | c in Run(cfg, audited, ops).invoked ensures c.task.risk !in {Some(High), Some(Critical)} {
      GateFailsClosed(cfg.policy.value, c.task, c.moment);
    }
  }
}
