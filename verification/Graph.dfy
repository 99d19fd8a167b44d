/** The graph edges of the calls, relation by relation. */
module Graph {
  import opened Lists
  import opened Protocol
  import opened Arbitration
  import opened Agents
  import opened Core
  import opened Records
  import opened Debates
  import opened Gates

  function Is(relation: Relation): Edge -> bool {
    (e: Edge) => e.relation == relation
  }

  /** The edges of one relation, in order. */
  function Kind(edges: seq<Edge>, relation: Relation): seq<Edge> {
    Filter(edges, Is(relation))
  }

  lemma KindConcat(xs: seq<Edge>, ys: seq<Edge>, relation: Relation)
    ensures Kind(xs + ys, relation) == Kind(xs, relation) + Kind(ys, relation)
  {
    FilterConcat(xs, ys, Is(relation));
  }

  lemma KindOfOne(e: Edge, relation: Relation)
    ensures Kind([e], relation) == if e.relation == relation then [e] else []
  {
    assert [e][1..] == [] && Filter([e][1..], Is(relation)) == [];
  }

  lemma {:induction false} KindOfSame(edges: seq<Edge>, same: Relation, relation: Relation)
    requires forall e :: e in edges ==> e.relation == same
    ensures Kind(edges, relation) == if same == relation then edges else []
  {
    if edges == [] {
    } else {
      KindOfSame(edges[1..], same, relation);
      assert edges == [edges[0]] + edges[1..];
    }
  }

  /** `edges` cite the evidence `es`, one edge for each entry, in order. */
  ghost predicate Cite(edges: seq<Edge>, taskId: string, es: seq<Evidence>) {
    && |edges| == |es|
    && forall i :: 0 <= i < |es| ==>
         && edges[i].source == TaskNode(taskId)
         && edges[i].target.EvidenceNode?
         && edges[i].relation == SupportedBy
         && edges[i].confidence == es[i].confidence
         && edges[i].metadata == Some(Citation(es[i].claim, es[i].source, es[i].agentId))
  }

  lemma {:induction false} SupportEdgesCite(cfg: Config, n: nat, taskId: string, es: seq<Evidence>)
    ensures Cite(SupportEdges(cfg, n, taskId, es), taskId, es)
  {
    if es == [] {
    } else {
      SupportEdgesCite(cfg, n, taskId, es[..|es| - 1]);
    }
  }

  lemma AnswerKinds(cfg: Config, n: nat, taskId: string, agentId: string, r: Result)
    ensures var edges := AnswerEdges(cfg, n, taskId, agentId, r);
            && Kind(edges, RoutedTo) == [] && Kind(edges, Won) == []
            && Kind(edges, ProducedResult) == [ProducedEdge(taskId, agentId, r)]
            && Cite(Kind(edges, SupportedBy), taskId, r.evidence)
  {
    var first, rest := ProducedEdge(taskId, agentId, r), SupportEdges(cfg, n + 1, taskId, r.evidence);
    SupportEdgesCite(cfg, n + 1, taskId, r.evidence);
    forall relation ensures Kind([first] + rest, relation) == Kind([first], relation) + Kind(rest, relation) {
      KindConcat([first], rest, relation);
    }
    forall relation ensures Kind(rest, relation) == if relation == SupportedBy then rest else [] {
      KindOfSame(rest, SupportedBy, relation);
    }
    forall relation ensures Kind([first], relation) == if relation == ProducedResult then [first] else [] {
      KindOfOne(first, relation);
    }
  }

  /** From each candidate to the task, with the confidence of its result, or 1 for none. */
  function ProducedEdges(taskId: string, cs: seq<Candidate>): seq<Edge> {
    Map(cs, (c: Candidate) =>
      Edge(AgentNode(c.agentId), TaskNode(taskId), ProducedResult,
           if c.result.confidence.Some? then c.result.confidence.value else 1.0, None))
  }

  /** From the task to each agent asked. */
  function RoutedEdges(taskId: string, pool: seq<Agent>): seq<Edge> {
    Map(pool, (a: Agent) => Edge(TaskNode(taskId), AgentNode(a.agentId), RoutedTo, 1.0, None))
  }

  /** The evidence of all candidates, in order. */
  function AllEvidence(cs: seq<Candidate>): seq<Evidence> {
    if cs == [] then [] else AllEvidence(cs[..|cs| - 1]) + cs[|cs| - 1].result.evidence
  }

  /** The edges a dispatch to `pool` that got the answers `cs` draws, before the verdict. */
  ghost predicate DispatchEdges(edges: seq<Edge>, taskId: string, pool: seq<Agent>, cs: seq<Candidate>) {
    && Kind(edges, RoutedTo) == RoutedEdges(taskId, pool)
    && Kind(edges, ProducedResult) == ProducedEdges(taskId, cs)
    && Cite(Kind(edges, SupportedBy), taskId, AllEvidence(cs))
    && Kind(edges, Won) == []
  }

  lemma CandidateKinds(cfg: Config, n: nat, taskId: string, a: Agent, results: map<string, Result>)
    ensures DispatchEdges(
              CandidateEdges(cfg, n, taskId, a.agentId, results), taskId, [a], IfAnswered(a.agentId, results))
  {
    var first := RoutedEdge(taskId, a.agentId);
    forall relation ensures Kind([first], relation) == if relation == RoutedTo then [first] else [] {
      KindOfOne(first, relation);
    }
    if a.agentId in results {
      var c := Candidate(a.agentId, results[a.agentId]);
      var rest := AnswerEdges(cfg, n + 1, taskId, a.agentId, results[a.agentId]);
      AnswerKinds(cfg, n + 1, taskId, a.agentId, results[a.agentId]);
      forall relation ensures Kind([first] + rest, relation) == Kind([first], relation) + Kind(rest, relation) {
        KindConcat([first], rest, relation);
      }
      assert AllEvidence([c]) == c.result.evidence;
    } else {
      assert [first] + [] == [first];
    }
  }

  lemma CiteConcat(xs: seq<Edge>, ys: seq<Edge>, taskId: string, es: seq<Evidence>, more: seq<Evidence>)
    requires Cite(xs, taskId, es) && Cite(ys, taskId, more)
    ensures Cite(xs + ys, taskId, es + more)
  {
  }

  lemma DispatchEdgesConcat(
    xs: seq<Edge>, ys: seq<Edge>, taskId: string, before: seq<Agent>, a: Agent, cs: seq<Candidate>, more: seq<Candidate>)
    requires DispatchEdges(xs, taskId, before, cs) && DispatchEdges(ys, taskId, [a], more) && |more| <= 1
    ensures DispatchEdges(xs + ys, taskId, before + [a], cs + more)
  {
    KindConcat(xs, ys, RoutedTo);
    KindConcat(xs, ys, ProducedResult);
    KindConcat(xs, ys, SupportedBy);
    KindConcat(xs, ys, Won);
    assert RoutedEdges(taskId, before + [a]) == RoutedEdges(taskId, before) + RoutedEdges(taskId, [a]);
    assert ProducedEdges(taskId, cs + more) == ProducedEdges(taskId, cs) + ProducedEdges(taskId, more);
    AllEvidenceConcat(cs, more);
    CiteConcat(Kind(xs, SupportedBy), Kind(ys, SupportedBy), taskId, AllEvidence(cs), AllEvidence(more));
  }

  lemma AllEvidenceConcat(cs: seq<Candidate>, more: seq<Candidate>)
    requires |more| <= 1
    ensures AllEvidence(cs + more) == AllEvidence(cs) + AllEvidence(more)
  {
    if more == [] {
      assert cs + more == cs;
    } else {
      assert (cs + more)[..|cs|] == cs;
      assert AllEvidence(more) == more[0].result.evidence;
    }
  }

  function IfAnswered(id: string, results: map<string, Result>): seq<Candidate> {
    if id in results then [Candidate(id, results[id])] else []
  }

  lemma CandidatesLast(before: seq<Agent>, a: Agent, results: map<string, Result>)
    ensures Candidates(before + [a], results) == Candidates(before, results) + IfAnswered(a.agentId, results)
  {
    assert (before + [a])[..|before|] == before;
  }

  lemma NoneAsked(taskId: string, results: map<string, Result>)
    ensures DispatchEdges([], taskId, [], Candidates([], results))
  {
    assert Candidates([], results) == [] && ProducedEdges(taskId, []) == [] && RoutedEdges(taskId, []) == [];
    assert forall relation :: Kind([], relation) == [];
  }

  lemma OneMoreAsked(
    cfg: Config, k: nat, taskId: string, before: seq<Agent>, laid: seq<Edge>, a: Agent, results: map<string, Result>)
    requires DispatchEdges(laid, taskId, before, Candidates(before, results))
    ensures DispatchEdges(
              laid + CandidateEdges(cfg, k, taskId, a.agentId, results), taskId, before + [a],
              Candidates(before + [a], results))
  {
    CandidateKinds(cfg, k, taskId, a, results);
    DispatchEdgesConcat(
      laid, CandidateEdges(cfg, k, taskId, a.agentId, results), taskId, before, a,
      Candidates(before, results), IfAnswered(a.agentId, results));
    CandidatesLast(before, a, results);
  }

  /** The bookkeeping loop draws one `routed_to` edge for each agent asked, in pool order, one
      `produced_result` edge for each answer and one `supported_by` edge for each piece of
      evidence of an answer, and nothing else. */
  lemma PoolKinds(cfg: Config, n: nat, taskId: string, pool: seq<Agent>, results: map<string, Result>)
    ensures DispatchEdges(PoolEdges(cfg, n, taskId, pool, results), taskId, pool, Candidates(pool, results))
  {
    var items := (k: nat, a: Agent) => CandidateEdges(cfg, k, taskId, a.agentId, results);
    var good := (asked: seq<Agent>, laid: seq<Edge>) => DispatchEdges(laid, taskId, asked, Candidates(asked, results));
    forall before, laid, k: nat, a | good(before, laid) ensures good(before + [a], laid + items(k, a)) {
      OneMoreAsked(cfg, k, taskId, before, laid, a, results);
    }
    NoneAsked(taskId, results);
    LaidOutInduction(pool, n, items, good);
  }

  /** `route` with a graph draws the edges of a dispatch to the one agent it picked. */
  lemma RouteDraws(cfg: Config, s: State, request: Envelope, task: Task, agent: Agent) returns (drawn: seq<Edge>)
    requires cfg.graph
    ensures Serve(cfg, s, request, task, agent).state.edges == s.edges + drawn
    ensures DispatchEdges(drawn, task.id, [agent], Answers([agent], task, |s.trace|))
  {
    var h := Handle(agent, task, |s.trace|);
    var results := if h.Answered? then map[agent.agentId := h.result] else map[];
    ServeDraws(cfg, s, request, task, agent);
    drawn := RouteEdges(cfg, |s.edges|, task, agent, h);
    CandidateKinds(cfg, |s.edges|, task.id, agent, results);
    assert [agent][..0] == [];
    assert Answers([agent], task, |s.trace|) == Answers([agent][..0], task, |s.trace|) + IfAnswered(agent.agentId, results);
  }

  /** The bookkeeping of a dispatched debate is done: no exception escapes, or only that of the
      conflict approver. */
  predicate Kept(exit: DebateExit) {
    exit.Abandoned? ==> exit.cause.FromConflictApprover?
  }

  /** A dispatched debate with a graph whose bookkeeping is done draws what its dispatch draws,
      and one `won` edge at the end exactly if it returns a verdict. */
  lemma DebateDraws(cfg: Config, s: State, d: Debate) returns (drawn: seq<Edge>)
    requires cfg.graph && DistinctIds(s.agents)
    ensures var p, step := PlanOf(cfg, s, d), Deliberate(cfg, s, d);
            p.Plan? && Kept(step.exit) ==>
              && DispatchEdges(drawn, p.task.id, p.pool, Answers(p.pool, p.task, |p.state.trace|))
              && step.state.edges == s.edges + drawn + WonEdges(p.task.id, step.exit)
  {
    DebateFollowsPlan(cfg, s, d);
    var p := PlanOf(cfg, s, d);
    drawn := [];
    if p.Plan? {
      PlanPool(cfg, s, d);
      drawn := CarryDraws(cfg, p, d);
    }
  }

  /** The `won` edge of a verdict. */
  function WonEdges(taskId: string, exit: DebateExit): seq<Edge> {
    if exit.Decided? then [Edge(TaskNode(taskId), AgentNode(exit.verdict.winnerAgentId), Won, 1.0, None)] else []
  }

  lemma CarryDraws(cfg: Config, p: Plan, d: Debate) returns (drawn: seq<Edge>)
    requires cfg.graph && cfg.arbiter.Some? && p.Plan? && DistinctIds(p.pool)
    ensures var step := Carry(cfg, p, d);
            Kept(step.exit) ==>
              && DispatchEdges(drawn, p.task.id, p.pool, Answers(p.pool, p.task, |p.state.trace|))
              && step.state.edges == p.state.edges + drawn + WonEdges(p.task.id, step.exit)
  {
    var n := |p.state.trace|;
    var dispatched := Dispatch(p.pool, p.task, n);
    drawn := [];
    if dispatched.Results? {
      drawn := PoolEdges(cfg, |p.state.edges|, p.task.id, p.pool, dispatched.results);
      PoolKinds(cfg, |p.state.edges|, p.task.id, p.pool, dispatched.results);
      DispatchedCandidates(p.pool, p.task, n);
      var done := AfterDispatch(p.state, p.pool, p.task, d.parallel);
      var ready := AfterBookkeeping(cfg, done, p.task, p.pool, dispatched.results);
      JudgeDraws(cfg, ready, p.request, p.task, Answers(p.pool, p.task, n), d.quorum);
    }
  }

  /** In any run, a debate an exception escapes from draws nothing, unless it is the exception of
      the conflict approver and there is a graph. */
  lemma AbandonedDrawsNothing(cfg: Config, audited: bool, ops: seq<Op>, d: Debate)
    ensures var s := Run(cfg, audited, ops);
            var step := Deliberate(cfg, s, d);
            step.exit.Abandoned? ==>
              (step.state.edges == s.edges <==> !cfg.graph || !step.exit.cause.FromConflictApprover?)
  {
    var s := Run(cfg, audited, ops);
    DebateFollowsPlan(cfg, s, d);
    PlanHistory(cfg, audited, ops, d);
    var p := PlanOf(cfg, s, d);
    if p.Plan? {
      CarryAbandoned(cfg, p, d);
      if cfg.graph {
        RunKeepsDistinct(cfg, audited, ops);
        PlanPool(cfg, s, d);
        var drawn := CarryDraws(cfg, p, d);
        SomeoneRouted(drawn, p.task.id, p.pool, Answers(p.pool, p.task, |p.state.trace|));
      }
    }
  }

  lemma SomeoneRouted(edges: seq<Edge>, taskId: string, pool: seq<Agent>, cs: seq<Candidate>)
    ensures DispatchEdges(edges, taskId, pool, cs) && pool != [] ==> edges != []
  {
    assert edges == [] ==> Kind(edges, RoutedTo) == [];
  }

  lemma CarryAbandoned(cfg: Config, p: Plan, d: Debate)
    requires cfg.arbiter.Some? && p.Plan? && HistoricalEvidence(p.state.trace, cfg.clockAt(|p.state.trace|)).Ok?
    ensures var step := Carry(cfg, p, d);
            && (step.exit.Abandoned? && (!cfg.graph || !step.exit.cause.FromConflictApprover?)
                ==> step.state.edges == p.state.edges)
            && (step.exit.Abandoned? && step.exit.cause.FromConflictApprover? ==> p.pool != [])
  {
    assert p.state.edges + [] == p.state.edges;
    var dispatched := Dispatch(p.pool, p.task, |p.state.trace|);
    if dispatched.Results? {
      CandidatesFromResults(p.pool, dispatched.results);
    }
  }

  /** What the conflict approver's exception leaves in the graph: all edges of the dispatch, and
      no `won` edge. */
  lemma ConflictBreakDraws(cfg: Config, audited: bool, ops: seq<Op>, d: Debate) returns (drawn: seq<Edge>)
    requires cfg.graph
    ensures var s := Run(cfg, audited, ops);
            var p, step := PlanOf(cfg, s, d), Deliberate(cfg, s, d);
            step.exit.Abandoned? && step.exit.cause.FromConflictApprover? ==>
              && p.Plan?
              && step.state.edges == s.edges + drawn
              && DispatchEdges(drawn, p.task.id, p.pool, Answers(p.pool, p.task, |p.state.trace|))
  {
    var s := Run(cfg, audited, ops);
    RunKeepsDistinct(cfg, audited, ops);
    DebateFollowsPlan(cfg, s, d);
    drawn := DebateDraws(cfg, s, d);
    assert s.edges + drawn + [] == s.edges + drawn;
  }

  /** In any run with a graph, a debate that returns a verdict draws one `won` edge, to the
      winner, and the winner has a `routed_to` and a `produced_result` edge from the same call. */
  lemma WinnerOnRecord(cfg: Config, audited: bool, ops: seq<Op>, d: Debate) returns (added: seq<Edge>)
    requires cfg.graph
    ensures var s := Run(cfg, audited, ops);
            var p, step := PlanOf(cfg, s, d), Deliberate(cfg, s, d);
            step.exit.Decided? ==>
              var winner, result := step.exit.verdict.winnerAgentId, step.exit.verdict.winningResult;
              && p.Plan?
              && step.state.edges == s.edges + added
              && Kind(added, Won) == [Edge(TaskNode(p.task.id), AgentNode(winner), Won, 1.0, None)]
              && Edge(TaskNode(p.task.id), AgentNode(winner), RoutedTo, 1.0, None) in added
              && Edge(AgentNode(winner), TaskNode(p.task.id), ProducedResult,
                      if result.confidence.Some? then result.confidence.value else 1.0, None) in added
  {
    var s := Run(cfg, audited, ops);
    var p, step := PlanOf(cfg, s, d), Deliberate(cfg, s, d);
    added := [];
    if step.exit.Decided? {
      RunKeepsDistinct(cfg, audited, ops);
      var w := VerdictsInRuns(cfg, audited, ops, d);
      var drawn := DebateDraws(cfg, s, d);
      var won := WonEdge(p.task.id, step.exit.verdict.winnerAgentId);
      added := drawn + [won];
      ConcatAssociates(s.edges, drawn, [won]);
      KindConcat(drawn, [won], Won);
      KindOfOne(won, Won);
      assert RoutedEdges(p.task.id, p.pool)[w] in Kind(drawn, RoutedTo);
      FilterElements(drawn, Is(RoutedTo));
      AnsweredIsProduced(p.task, p.pool, |p.state.trace|, w, drawn);
    }
  }

  lemma AnsweredIsProduced(task: Task, pool: seq<Agent>, n: nat, w: nat, drawn: seq<Edge>)
    requires w < |pool| && Handle(pool[w], task, n).Answered?
    requires DispatchEdges(drawn, task.id, pool, Answers(pool, task, n))
    ensures ProducedEdge(task.id, pool[w].agentId, Handle(pool[w], task, n).result) in drawn
  {
    var k := AnswerListed(pool, task, n, w);
    assert ProducedEdges(task.id, Answers(pool, task, n))[k] in Kind(drawn, ProducedResult);
    FilterElements(drawn, Is(ProducedResult));
  }

  lemma {:induction false} AnswerListed(pool: seq<Agent>, task: Task, n: nat, w: nat) returns (k: nat)
    requires w < |pool| && Handle(pool[w], task, n).Answered?
    ensures k < |Answers(pool, task, n)|
    ensures Answers(pool, task, n)[k] == Candidate(pool[w].agentId, Handle(pool[w], task, n).result)
  {
    if w < |pool| - 1 {
      k := AnswerListed(pool[..|pool| - 1], task, n, w);
    } else {
      k := |Answers(pool[..|pool| - 1], task, n)|;
    }
  }
}
