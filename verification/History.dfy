/** The evidence pool trust is computed from, over whole runs, and the agent `route` picks
    with it. */
module History {
  import opened Lists
  import opened Protocol
  import opened StableSort
  import opened Trust
  import opened Arbitration
  import opened Policy
  import opened Agents
  import opened Core
  import opened Records

  // What a run contributes

  /** The agent that gets the task of a `route` call, if any. */
  function RoutedAgent(cfg: Config, s: State, ledger: Ledger, task: Task): Option<Agent> {
    var pool := FindByObjective(s.agents, task.objective);
    if Gated(cfg, task, |s.trace|) || pool == [] then None
    else
      match Chosen(cfg, pool, s.trace, ledger)
      case Ok(best) => Some(pool[best])
      case Raised(_) => None
  }

  /** The result a handler gives a `route` call, if any. */
  function RouteResult(cfg: Config, s: State, ledger: Ledger, task: Task): Option<Result> {
    match RoutedAgent(cfg, s, ledger, task)
    case None => None
    case Some(agent) =>
      match Handle(agent, task, |s.trace|)
      case Answered(r) => Some(r)
      case _ => None
  }

  function EvidenceOf(r: Option<Result>): seq<Evidence> {
    if r.Some? then r.value.evidence else []
  }

  /** The evidence of the result a call returned or declared the winner; losers, errors and
      registry changes contribute nothing. */
  function Contribution(cfg: Config, s: State, op: Op): seq<Evidence> {
    match op
    case DoRoute(r, ledger) =>
      (match NewTask(cfg, |s.trace|, r)
       case Ok(task) =>
         EvidenceOf(RouteResult(cfg, WithRecord(cfg, s, TaskEnvelope(cfg, |s.trace|, task)), ledger, task))
       case Raised(_) => [])
    case DoDebate(d) =>
      (match Deliberate(cfg, s, d).exit
       case Decided(v) => v.winningResult.evidence
       case _ => [])
    case DoRegister(_) => []
    case DoUnregister(_) => []
  }

  function Contributions(cfg: Config, audited: bool, ops: seq<Op>): seq<Evidence> {
    if ops == [] then []
    else
      var before := ops[..|ops| - 1];
      Contributions(cfg, audited, before) + Contribution(cfg, Run(cfg, audited, before), ops[|ops| - 1])
  }

  lemma HistorySnoc(trace: seq<Envelope>, env: Envelope, now: string)
    requires HistoricalEvidence(trace, now).Ok? && EvidenceIn(env, now).Ok?
    ensures HistoricalEvidence(trace + [env], now)
            == Ok(HistoricalEvidence(trace, now).value + EvidenceIn(env, now).value)
  {
    assert (trace + [env])[..|trace|] == trace;
  }

  /** The payload encoding is lossless for evidence. */
  lemma ResultEvidence(env: Envelope, r: Result, now: string)
    requires env.messageType == ResultMessage && env.payload == ResultToPayload(r)
    ensures EvidenceIn(env, now) == Ok(r.evidence)
  {
    ResultPayloadReadsBack(r);
    EvidenceListRoundTrip(r.evidence, now);
  }

  lemma OtherAddsNothing(cfg: Config, s: State, env: Envelope, now: string)
    requires env.messageType != ResultMessage && HistoricalEvidence(s.trace, now).Ok?
    ensures HistoricalEvidence(WithRecord(cfg, s, env).trace, now) == HistoricalEvidence(s.trace, now)
  {
    HistorySnoc(s.trace, env, now);
    assert HistoricalEvidence(s.trace, now).value + [] == HistoricalEvidence(s.trace, now).value;
  }

  /** `t` records the evidence `es` on top of what `s` has on record. */
  ghost predicate Adds(s: State, t: State, es: seq<Evidence>, now: string)
    requires HistoricalEvidence(s.trace, now).Ok?
  {
    HistoricalEvidence(t.trace, now) == Ok(HistoricalEvidence(s.trace, now).value + es)
  }

  lemma AddsNothing(s: State, t: State, now: string)
    requires HistoricalEvidence(s.trace, now).Ok? && HistoricalEvidence(t.trace, now) == HistoricalEvidence(s.trace, now)
    ensures Adds(s, t, [], now)
  {
    assert HistoricalEvidence(s.trace, now).value + [] == HistoricalEvidence(s.trace, now).value;
  }

  lemma ServeAdds(cfg: Config, s: State, request: Envelope, task: Task, agent: Agent, now: string)
    requires HistoricalEvidence(s.trace, now).Ok?
    ensures var h := Handle(agent, task, |s.trace|);
            Adds(s, Serve(cfg, s, request, task, agent).state, if h.Answered? then h.result.evidence else [], now)
  {
    var h, step := Handle(agent, task, |s.trace|), Serve(cfg, s, request, task, agent);
    if step.exit.Replied? {
      var env := step.exit.envelope;
      if h.Answered? {
        ResultEvidence(env, h.result, now);
        HistorySnoc(s.trace, env, now);
      } else {
        OtherAddsNothing(cfg, s, env, now);
        AddsNothing(s, step.state, now);
      }
    } else {
      AddsNothing(s, step.state, now);
    }
  }

  lemma RouteAdds(cfg: Config, s: State, ledger: Ledger, request: Envelope, task: Task, now: string)
    requires HistoricalEvidence(s.trace, now).Ok?
    ensures Adds(s, RouteTask(cfg, s, ledger, request, task).state, EvidenceOf(RouteResult(cfg, s, ledger, task)), now)
  {
    var agent := RoutedAgent(cfg, s, ledger, task);
    var step := RouteTask(cfg, s, ledger, request, task);
    if agent.Some? {
      ServeAdds(cfg, s, request, task, agent.value, now);
    } else {
      if step.exit.Replied? {
        OtherAddsNothing(cfg, s, step.exit.envelope, now);
      }
      AddsNothing(s, step.state, now);
    }
  }

  function WinningEvidence(exit: DebateExit): seq<Evidence> {
    if exit.Decided? then exit.verdict.winningResult.evidence else []
  }

  lemma DeclineAdds(cfg: Config, s: State, request: Envelope, task: Task, fault: Fault, now: string)
    requires HistoricalEvidence(s.trace, now).Ok?
    ensures Adds(s, Decline(cfg, s, request, task, fault).state, [], now)
  {
    OtherAddsNothing(cfg, s, FaultEnvelope(cfg, |s.trace|, request, task, fault), now);
    AddsNothing(s, Decline(cfg, s, request, task, fault).state, now);
  }

  lemma PublishAdds(cfg: Config, s: State, request: Envelope, task: Task, v: Verdict, now: string)
    requires HistoricalEvidence(s.trace, now).Ok?
    ensures var step := Publish(cfg, s, request, task, v);
            Adds(s, step.state, WinningEvidence(step.exit), now)
  {
    var n := |s.trace|;
    var env := ReplyTo(cfg, n, request, ResultMessage, v.winnerAgentId, ResultToPayload(v.winningResult));
    ResultEvidence(env, v.winningResult, now);
    HistorySnoc(s.trace, env, now);
    AddsNothing(s, s, now);
    var gate := ConflictGateFor(cfg, v, n);
    if gate.Judged? {
      DeclineAdds(cfg, s, request, task, ConflictNotApproved(gate.decision.reason, v), now);
    }
  }

  lemma JudgeAdds(
    cfg: Config, s: State, request: Envelope, task: Task, cs: seq<Candidate>, quorum: Option<int>, now: string)
    requires cfg.arbiter.Some? && HistoricalEvidence(s.trace, now).Ok?
    ensures var step := Judge(cfg, s, request, task, cs, quorum);
            Adds(s, step.state, WinningEvidence(step.exit), now)
  {
    AddsNothing(s, s, now);
    if cs == [] {
      DeclineAdds(cfg, s, request, task, NoUsableCandidate(task.objective), now);
    } else if quorum.Some? && |cs| < quorum.value {
      DeclineAdds(cfg, s, request, task, QuorumNotMet(|cs|, quorum.value, task.objective), now);
    } else {
      var history := HistoricalEvidence(s.trace, cfg.clockAt(|s.trace|));
      if history.Ok? {
        var v := Arbitrate(cfg.arbiter.value, task.id, cs, history.value);
        if v.Ok? {
          PublishAdds(cfg, s, request, task, v.value, now);
        }
      }
    }
  }

  lemma DebateAmongAdds(
    cfg: Config, s: State, request: Envelope, task: Task, pool: seq<Agent>, parallel: bool, quorum: Option<int>,
    now: string)
    requires cfg.arbiter.Some? && HistoricalEvidence(s.trace, now).Ok?
    ensures var step := DebateAmong(cfg, s, request, task, pool, parallel, quorum);
            Adds(s, step.state, WinningEvidence(step.exit), now)
  {
    AddsNothing(s, s, now);
    var d := Dispatch(pool, task, |s.trace|);
    if d.Results? {
      var ready := AfterBookkeeping(cfg, AfterDispatch(s, pool, task, parallel), task, pool, d.results);
      JudgeAdds(cfg, ready, request, task, Candidates(pool, d.results), quorum, now);
    }
  }

  lemma DebateAdds(cfg: Config, s: State, request: Envelope, task: Task, d: Debate, now: string)
    requires cfg.arbiter.Some? && HistoricalEvidence(s.trace, now).Ok?
    ensures var step := DebateTask(cfg, s, request, task, d);
            Adds(s, step.state, WinningEvidence(step.exit), now)
  {
    var pool := Invited(s.agents, task.objective, d.agentIds);
    var gate := GateFor(cfg, task, |s.trace|);
    AddsNothing(s, s, now);
    if gate.Broke? {
    } else if gate.decision.action != Allow {
      DeclineAdds(cfg, s, request, task, PolicyBlocked(gate.decision), now);
    } else if pool == [] {
      DeclineAdds(cfg, s, request, task, NoAgent(task.objective), now);
    } else {
      DebateAmongAdds(cfg, s, request, task, Dispatchable(pool, d.maxCandidates), d.parallel, d.quorum, now);
    }
  }

  lemma CallAdds(cfg: Config, s: State, op: Op, now: string)
    requires HistoricalEvidence(s.trace, now).Ok?
    ensures Adds(s, Apply(cfg, s, op), Contribution(cfg, s, op), now)
  {
    var n := |s.trace|;
    AddsNothing(s, s, now);
    match op
    case DoRoute(r, ledger) =>
      var task := NewTask(cfg, n, r);
      if task.Ok? {
        var request := TaskEnvelope(cfg, n, task.value);
        OtherAddsNothing(cfg, s, request, now);
        RouteAdds(cfg, WithRecord(cfg, s, request), ledger, request, task.value, now);
      }
    case DoDebate(d) =>
      var task := NewTask(cfg, n, d.request.(constraints := []));
      if task.Ok? && cfg.arbiter.Some? {
        var request := TaskEnvelope(cfg, n, task.value);
        OtherAddsNothing(cfg, s, request, now);
        DebateAdds(cfg, WithRecord(cfg, s, request), request, task.value, d, now);
      }
    case DoRegister(a) => AddsNothing(s, Apply(cfg, s, op), now);
    case DoUnregister(id) => AddsNothing(s, Apply(cfg, s, op), now);
  }

  /** After any run the evidence on record can be read, and is the evidence of exactly the
      results that calls returned or declared winners, in call order. */
  lemma {:induction false} HistoryIsContributions(cfg: Config, audited: bool, ops: seq<Op>, now: string)
    ensures HistoricalEvidence(Run(cfg, audited, ops).trace, now) == Ok(Contributions(cfg, audited, ops))
  {
    if ops == [] {
    } else {
      var before := ops[..|ops| - 1];
      HistoryIsContributions(cfg, audited, before, now);
      CallAdds(cfg, Run(cfg, audited, before), ops[|ops| - 1], now);
    }
  }
}
