/** What a debate decides and records: threads change nothing, verdicts are sound. */
module Debates {
  import opened Lists
  import opened Protocol
  import opened Arbitration
  import opened Policy
  import opened Agents
  import opened Core
  import opened Records
  import opened History

  /** A debate up to its dispatch: the recorded task, the state then, and the agents to ask. */
  datatype Plan = NoDispatch | Plan(task: Task, request: Envelope, state: State, pool: seq<Agent>)

  function PlanOf(cfg: Config, s: State, d: Debate): Plan {
    var built := NewTask(cfg, |s.trace|, d.request.(constraints := []));
    if cfg.arbiter.None? || built.Raised? then NoDispatch
    else
      var task := built.value;
      var request := TaskEnvelope(cfg, |s.trace|, task);
      var invited := Invited(s.agents, task.objective, d.agentIds);
      if Gated(cfg, task, |s.trace| + 1) || invited == [] then NoDispatch
      else Plan(task, request, WithRecord(cfg, s, request), Dispatchable(invited, d.maxCandidates))
  }

  function Carry(cfg: Config, p: Plan, d: Debate): Step<DebateExit>
    requires cfg.arbiter.Some? && p.Plan?
  {
    DebateAmong(cfg, p.state, p.request, p.task, p.pool, d.parallel, d.quorum)
  }

  /** The approver of the policy is asked about a task and raises. */
  predicate PolicyRaises(cfg: Config, task: Task, moment: nat) {
    cfg.policy.Some? && Asks(cfg.policy.value, task) && RulingOn(cfg.policy.value, task, moment).Raises?
  }

  /** How a debate ends that is not dispatched although its task is recorded. */
  predicate UndispatchedExit(cfg: Config, task: Task, n: nat, exit: DebateExit) {
    if PolicyRaises(cfg, task, n) then exit == Abandoned(FromApprover(RulingOn(cfg.policy.value, task, n).why))
    else
      && exit.Declined?
      && if Gated(cfg, task, n)
         then
           && cfg.policy.Some? && exit.fault.PolicyBlocked?
           && cfg.policy.value.Evaluate(task, n) == Judged(exit.fault.decision)
         else exit.fault == NoAgent(task.objective)
  }

  lemma TaskFollowsPlan(cfg: Config, s: State, request: Envelope, task: Task, d: Debate)
    requires cfg.arbiter.Some?
    ensures var pool, step := Invited(s.agents, task.objective, d.agentIds), DebateTask(cfg, s, request, task, d);
            if !Gated(cfg, task, |s.trace|) && pool != []
            then step == DebateAmong(cfg, s, request, task, Dispatchable(pool, d.maxCandidates), d.parallel, d.quorum)
            else
              && step.state.invoked == s.invoked && step.state.edges == s.edges
              && UndispatchedExit(cfg, task, |s.trace|, step.exit)
  {
  }

  /** The approver raises over the task of a debate. */
  predicate DebateRefused(cfg: Config, s: State, d: Debate) {
    var task := NewTask(cfg, |s.trace|, d.request.(constraints := []));
    cfg.arbiter.Some? && task.Ok? && PolicyRaises(cfg, task.value, |s.trace| + 1)
  }

  lemma PlanCarried(cfg: Config, s: State, d: Debate)
    requires PlanOf(cfg, s, d).Plan?
    ensures cfg.arbiter.Some? && Deliberate(cfg, s, d) == Carry(cfg, PlanOf(cfg, s, d), d)
  {
    var p := PlanOf(cfg, s, d);
    TaskFollowsPlan(cfg, p.state, p.request, p.task, d);
  }

  /** A debate that is not dispatched runs no handler, draws no edge and reaches no verdict; an
      exception escapes from it iff the approver raises over its task. */
  predicate LeavesAlone(cfg: Config, s: State, d: Debate, step: Step<DebateExit>) {
    && step.state.invoked == s.invoked && step.state.edges == s.edges
    && !step.exit.Decided?
    && (step.exit.Abandoned? <==> DebateRefused(cfg, s, d))
    && (step.exit.Abandoned? ==> step.exit.cause.FromApprover?)
  }

  lemma NoPlanNoEffect(cfg: Config, s: State, d: Debate)
    requires PlanOf(cfg, s, d).NoDispatch?
    ensures LeavesAlone(cfg, s, d, Deliberate(cfg, s, d))
  {
    var built := NewTask(cfg, |s.trace|, d.request.(constraints := []));
    if cfg.arbiter.Some? && built.Ok? {
      var request := TaskEnvelope(cfg, |s.trace|, built.value);
      TaskFollowsPlan(cfg, WithRecord(cfg, s, request), request, built.value, d);
    }
  }

  /** A debate carries out its plan, or leaves everything alone. */
  lemma DebateFollowsPlan(cfg: Config, s: State, d: Debate)
    ensures var p, step := PlanOf(cfg, s, d), Deliberate(cfg, s, d);
            if p.Plan? then cfg.arbiter.Some? && step == Carry(cfg, p, d) else LeavesAlone(cfg, s, d, step)
  {
    if PlanOf(cfg, s, d).Plan? {
      PlanCarried(cfg, s, d);
    } else {
      NoPlanNoEffect(cfg, s, d);
    }
  }

  // Threads

  lemma {:induction false} SameInvocations(pool: seq<Agent>, task: Task, moment: nat)
    requires Dispatch(pool, task, moment).Results?
    ensures InvokedBy(pool, task, moment, true) == InvokedBy(pool, task, moment, false)
  {
    if pool == [] {
    } else {
      SameInvocations(pool[..|pool| - 1], task, moment);
    }
  }

  lemma PlanIgnoresThreads(cfg: Config, s: State, d: Debate, parallel: bool)
    ensures PlanOf(cfg, s, d.(parallel := parallel)) == PlanOf(cfg, s, d)
    ensures PlanOf(cfg, s, d).NoDispatch? ==> Deliberate(cfg, s, d.(parallel := parallel)) == Deliberate(cfg, s, d)
  {
  }

  lemma SamePlanSameOutcome(cfg: Config, p: Plan, d: Debate)
    requires cfg.arbiter.Some? && p.Plan?
    ensures var x, y := Carry(cfg, p, d.(parallel := true)), Carry(cfg, p, d.(parallel := false));
            && (x.exit == y.exit <==> p.pool != [])
            && (p.pool != [] ==> x.state.(invoked := {}) == y.state.(invoked := {}))
            && (p.pool != [] && !x.exit.Abandoned? ==> x == y)
  {
    var n := |p.state.trace|;
    var dispatched := Dispatch(p.pool, p.task, n);
    if dispatched.Results? {
      SameInvocations(p.pool, p.task, n);
      JudgeIgnoresPlan(cfg, p, d);
    }
  }

  lemma JudgeIgnoresPlan(cfg: Config, p: Plan, d: Debate)
    requires cfg.arbiter.Some? && p.Plan? && Dispatch(p.pool, p.task, |p.state.trace|).Results?
    requires InvokedBy(p.pool, p.task, |p.state.trace|, true) == InvokedBy(p.pool, p.task, |p.state.trace|, false)
    ensures p.pool != [] ==> Carry(cfg, p, d.(parallel := true)) == Carry(cfg, p, d.(parallel := false))
    ensures p.pool == [] ==> Carry(cfg, p, d.(parallel := true)).exit != Carry(cfg, p, d.(parallel := false)).exit
  {
  }

  /** Threads change nothing a caller sees, except when `max_candidates` leaves no candidate:
      the exit is the same exactly if the debate is not dispatched or some candidate is left.
      Then trace, audit log and graph are the same too, and unless a handler's exception
      escapes so are the handlers run. */
  lemma ParallelMatchesSequential(cfg: Config, s: State, d: Debate)
    ensures var p := PlanOf(cfg, s, d);
            var x, y := Deliberate(cfg, s, d.(parallel := true)), Deliberate(cfg, s, d.(parallel := false));
            && (x.exit == y.exit <==> p.NoDispatch? || p.pool != [])
            && (p.NoDispatch? || p.pool != [] ==> x.state.(invoked := {}) == y.state.(invoked := {}))
            && (p.NoDispatch? || (p.pool != [] && !x.exit.Abandoned?) ==> x == y)
  {
    PlanIgnoresThreads(cfg, s, d, true);
    PlanIgnoresThreads(cfg, s, d, false);
    if PlanOf(cfg, s, d).Plan? {
      DebateFollowsPlan(cfg, s, d.(parallel := true));
      DebateFollowsPlan(cfg, s, d.(parallel := false));
      SamePlanSameOutcome(cfg, PlanOf(cfg, s, d), d);
    }
  }

  /** With a limit of at least one, or none, some candidate is always left. */
  lemma SomeCandidateLeft(cfg: Config, s: State, d: Debate)
    requires d.maxCandidates.Some? ==> d.maxCandidates.value >= 1
    ensures PlanOf(cfg, s, d).Plan? ==> PlanOf(cfg, s, d).pool != []
  {
  }

  // Verdicts

  lemma RegisteredLonger(before: seq<Agent>, pool: seq<Agent>, id: string)
    requires before <= pool && Registered(before, id)
    ensures Registered(pool, id)
  {
    var i :| 0 <= i < |before| && before[i].agentId == id;
    assert pool[i].agentId == id;
  }

  lemma {:induction false} OnlyDispatchedAnswer(pool: seq<Agent>, task: Task, moment: nat, id: string)
    requires Dispatch(pool, task, moment).Results? && id in Dispatch(pool, task, moment).results
    ensures Registered(pool, id)
  {
    var before, last := pool[..|pool| - 1], pool[|pool| - 1];
    if id == last.agentId {
      assert pool[|pool| - 1].agentId == id;
    } else {
      OnlyDispatchedAnswer(before, task, moment, id);
      RegisteredLonger(before, pool, id);
    }
  }

  /** The result map holds what each handler answered, under its agent's id. */
  lemma {:induction false} DispatchAnswers(pool: seq<Agent>, task: Task, moment: nat, i: nat)
    requires DistinctIds(pool) && i < |pool| && Dispatch(pool, task, moment).Results?
    ensures var results, h := Dispatch(pool, task, moment).results, Handle(pool[i], task, moment);
            && (pool[i].agentId in results <==> h.Answered?)
            && (h.Answered? ==> results[pool[i].agentId] == h.result)
  {
    var before, last := pool[..|pool| - 1], pool[|pool| - 1];
    if i < |before| {
      DispatchAnswers(before, task, moment, i);
      assert pool[i] == before[i] && pool[i].agentId != last.agentId;
    } else {
      var answered := Dispatch(before, task, moment).results;
      if last.agentId in answered {
        OnlyDispatchedAnswer(before, task, moment, last.agentId);
      }
    }
  }

  lemma PlanPool(cfg: Config, s: State, d: Debate)
    requires DistinctIds(s.agents) && PlanOf(cfg, s, d).Plan?
    ensures var p := PlanOf(cfg, s, d);
            && DistinctIds(p.pool)
            && (d.maxCandidates.Some? && d.maxCandidates.value >= 0 ==> |p.pool| <= d.maxCandidates.value)
            && (forall i :: 0 <= i < |p.pool| ==> Eligible(s.agents, p.task.objective, d.agentIds, p.pool[i]))
  {
    var p := PlanOf(cfg, s, d);
    var capable := FindByObjective(s.agents, p.task.objective);
    var invited := Invited(s.agents, p.task.objective, d.agentIds);
    FilterKeepsDistinct(s.agents, (a: Agent) => p.task.objective in a.handlers);
    FilterElements(s.agents, (a: Agent) => p.task.objective in a.handlers);
    if d.agentIds.Some? {
      FilterKeepsDistinct(capable, (a: Agent) => a.agentId in d.agentIds.value);
      FilterElements(capable, (a: Agent) => a.agentId in d.agentIds.value);
    }
    forall i | 0 <= i < |p.pool| ensures Eligible(s.agents, p.task.objective, d.agentIds, p.pool[i]) {
      assert p.pool[i] == invited[i];
      assert invited[i] in invited;
    }
  }

  ghost predicate Eligible(agents: seq<Agent>, objective: string, agentIds: Option<seq<string>>, a: Agent) {
    && a in agents
    && objective in a.handlers
    && (agentIds.Some? ==> a.agentId in agentIds.value)
  }

  /** The approver of the conflict policy is asked about a verdict: there is one, and the
      candidates disagree. */
  predicate AsksOn(cfg: Config, v: Verdict) {
    cfg.conflictPolicy.Some? && !v.agreement && cfg.conflictPolicy.value.approver.Some?
  }

  function RulingOnConflict(cfg: Config, v: Verdict, moment: nat): Ruling
    requires AsksOn(cfg, v)
  {
    cfg.conflictPolicy.value.approver.value(v, ConflictDecision(Block, ConflictPending, false), moment)
  }

  /** The conflict gate lets a verdict through. */
  predicate Cleared(cfg: Config, v: Verdict, moment: nat) {
    cfg.conflictPolicy.None? || v.agreement || (AsksOn(cfg, v) && RulingOnConflict(cfg, v, moment) == Grants)
  }

  /** The approver raises over a verdict. */
  predicate ConflictRaises(cfg: Config, v: Verdict, moment: nat) {
    AsksOn(cfg, v) && RulingOnConflict(cfg, v, moment).Raises?
  }

  function CrownEnvelope(cfg: Config, n: nat, request: Envelope, v: Verdict): Envelope {
    ReplyTo(cfg, n, request, ResultMessage, v.winnerAgentId, ResultToPayload(v.winningResult))
  }

  lemma PublishDecides(cfg: Config, s: State, request: Envelope, task: Task, v: Verdict)
    ensures var step := Publish(cfg, s, request, task, v);
            if Cleared(cfg, v, |s.trace|)
            then step.exit == Decided(v) && step.state.trace == s.trace + [CrownEnvelope(cfg, |s.trace|, request, v)]
            else if ConflictRaises(cfg, v, |s.trace|)
            then step == Step(s, Abandoned(FromConflictApprover(RulingOnConflict(cfg, v, |s.trace|).why)))
            else step.exit.Declined? && step.exit.fault.ConflictNotApproved?
  {
  }

  /** What the last steps of a debate need for a verdict to be returned, and what they record. */
  lemma JudgeDecides(
    cfg: Config, s: State, request: Envelope, task: Task, cs: seq<Candidate>, quorum: Option<int>, history: seq<Evidence>)
    requires cfg.arbiter.Some? && HistoricalEvidence(s.trace, cfg.clockAt(|s.trace|)) == Ok(history)
    ensures var step := Judge(cfg, s, request, task, cs, quorum);
            && (step.exit.Decided? <==>
                  && cs != []
                  && (quorum.Some? ==> |cs| >= quorum.value)
                  && Cleared(cfg, Arbitrate(cfg.arbiter.value, task.id, cs, history).value, |s.trace|))
            && (step.exit.Decided? ==>
                  && Arbitrate(cfg.arbiter.value, task.id, cs, history) == Ok(step.exit.verdict)
                  && step.state.trace == s.trace + [CrownEnvelope(cfg, |s.trace|, request, step.exit.verdict)])
  {
    if cs != [] {
      PublishDecides(cfg, s, request, task, Arbitrate(cfg.arbiter.value, task.id, cs, history).value);
    }
  }

  /** The answers of a pool's handlers, in pool order. */
  function Answers(pool: seq<Agent>, task: Task, moment: nat): seq<Candidate> {
    if pool == [] then []
    else
      var last := pool[|pool| - 1];
      var h := Handle(last, task, moment);
      Answers(pool[..|pool| - 1], task, moment) + if h.Answered? then [Candidate(last.agentId, h.result)] else []
  }

  ghost predicate HoldsAnswers(results: map<string, Result>, pool: seq<Agent>, task: Task, moment: nat) {
    forall i :: 0 <= i < |pool| ==>
      var h := Handle(pool[i], task, moment);
      && (pool[i].agentId in results <==> h.Answered?)
      && (h.Answered? ==> results[pool[i].agentId] == h.result)
  }

  lemma {:induction false} CandidatesAreAnswers(results: map<string, Result>, pool: seq<Agent>, task: Task, moment: nat)
    requires HoldsAnswers(results, pool, task, moment)
    ensures Candidates(pool, results) == Answers(pool, task, moment)
  {
    if pool == [] {
    } else {
      var before, last := pool[..|pool| - 1], pool[|pool| - 1];
      assert forall i :: 0 <= i < |before| ==> before[i] == pool[i];
      CandidatesAreAnswers(results, before, task, moment);
      assert pool[|pool| - 1].agentId in results <==> Handle(last, task, moment).Answered?;
    }
  }

  lemma DispatchedCandidates(pool: seq<Agent>, task: Task, moment: nat)
    requires DistinctIds(pool) && Dispatch(pool, task, moment).Results?
    ensures Candidates(pool, Dispatch(pool, task, moment).results) == Answers(pool, task, moment)
  {
    var results := Dispatch(pool, task, moment).results;
    forall i | 0 <= i < |pool|
      ensures var h := Handle(pool[i], task, moment);
              && (pool[i].agentId in results <==> h.Answered?)
              && (h.Answered? ==> results[pool[i].agentId] == h.result)
    {
      DispatchAnswers(pool, task, moment, i);
    }
    CandidatesAreAnswers(results, pool, task, moment);
  }

  /** A dispatch completes exactly if no handler raises an exception it does not catch. */
  lemma {:induction false} DispatchCompletes(pool: seq<Agent>, task: Task, moment: nat)
    ensures Dispatch(pool, task, moment).Results? <==>
              forall i :: 0 <= i < |pool| ==> !Handle(pool[i], task, moment).Crashed?
  {
    if pool == [] {
    } else {
      var before := pool[..|pool| - 1];
      DispatchCompletes(before, task, moment);
      assert forall i :: 0 <= i < |before| ==> before[i] == pool[i];
      var last := Handle(pool[|pool| - 1], task, moment);
      if Dispatch(before, task, moment).Interrupted? {
        var i :| 0 <= i < |before| && Handle(before[i], task, moment).Crashed?;
        assert Handle(pool[i], task, moment).Crashed?;
      }
    }
  }

  lemma {:induction false} AnswersComeFrom(pool: seq<Agent>, task: Task, moment: nat, k: nat) returns (i: nat)
    requires k < |Answers(pool, task, moment)|
    ensures i < |pool|
    ensures pool[i].agentId == Answers(pool, task, moment)[k].agentId
    ensures Handle(pool[i], task, moment) == Answered(Answers(pool, task, moment)[k].result)
  {
    var before := pool[..|pool| - 1];
    if k < |Answers(before, task, moment)| {
      i := AnswersComeFrom(before, task, moment, k);
    } else {
      i := |pool| - 1;
    }
  }

  lemma {:induction false} AnswersBound(pool: seq<Agent>, task: Task, moment: nat)
    ensures |Answers(pool, task, moment)| <= |pool|
  {
    if pool == [] {
    } else {
      AnswersBound(pool[..|pool| - 1], task, moment);
    }
  }

  /** When a debate returns a verdict, and which: exactly if it is dispatched, no handler's
      exception escapes, some candidate answers, the quorum is met and the conflict gate lets
      the verdict through; the verdict is the arbiter's on exactly the answers given, in pool
      order. */
  lemma DecidedIff(cfg: Config, s: State, d: Debate, history: seq<Evidence>)
    requires DistinctIds(s.agents) && PlanOf(cfg, s, d).Plan? && cfg.arbiter.Some?
    requires var t := PlanOf(cfg, s, d).state.trace; HistoricalEvidence(t, cfg.clockAt(|t|)) == Ok(history)
    ensures var p, exit := PlanOf(cfg, s, d), Deliberate(cfg, s, d).exit;
            var n := |p.state.trace|;
            var cs := Answers(p.pool, p.task, n);
            && (exit.Decided? <==>
                  && (forall i :: 0 <= i < |p.pool| ==> !Handle(p.pool[i], p.task, n).Crashed?)
                  && cs != []
                  && (d.quorum.Some? ==> |cs| >= d.quorum.value)
                  && Cleared(cfg, Arbitrate(cfg.arbiter.value, p.task.id, cs, history).value, n))
            && (exit.Decided? ==> Arbitrate(cfg.arbiter.value, p.task.id, cs, history) == Ok(exit.verdict))
  {
    var p := PlanOf(cfg, s, d);
    var n := |p.state.trace|;
    DebateFollowsPlan(cfg, s, d);
    PlanPool(cfg, s, d);
    DispatchCompletes(p.pool, p.task, n);
    CarryDecides(cfg, p, d, history);
  }

  lemma CarryDecides(cfg: Config, p: Plan, d: Debate, history: seq<Evidence>)
    requires cfg.arbiter.Some? && p.Plan? && DistinctIds(p.pool)
    requires HistoricalEvidence(p.state.trace, cfg.clockAt(|p.state.trace|)) == Ok(history)
    ensures var n := |p.state.trace|;
            var cs, step := Answers(p.pool, p.task, n), Carry(cfg, p, d);
            && (step.exit.Decided? <==>
                  && Dispatch(p.pool, p.task, n).Results?
                  && cs != []
                  && (d.quorum.Some? ==> |cs| >= d.quorum.value)
                  && Cleared(cfg, Arbitrate(cfg.arbiter.value, p.task.id, cs, history).value, n))
            && (step.exit.Decided? ==>
                  && Arbitrate(cfg.arbiter.value, p.task.id, cs, history) == Ok(step.exit.verdict)
                  && step.state.trace == p.state.trace + [CrownEnvelope(cfg, n, p.request, step.exit.verdict)])
  {
    var n := |p.state.trace|;
    var dispatched := Dispatch(p.pool, p.task, n);
    if dispatched.Results? {
      DispatchedCandidates(p.pool, p.task, n);
      var done := AfterDispatch(p.state, p.pool, p.task, d.parallel);
      var ready := AfterBookkeeping(cfg, done, p.task, p.pool, dispatched.results);
      JudgeDecides(cfg, ready, p.request, p.task, Answers(p.pool, p.task, n), d.quorum, history);
    }
  }

  /** Every verdict a debate returns has a winner that was asked and gave the winning result,
      is for the debated task, rests on at least the quorum and at most the limit of
      candidates, and is agreed or approved. */
  lemma VerdictIsSound(cfg: Config, s: State, d: Debate, history: seq<Evidence>) returns (w: nat)
    requires DistinctIds(s.agents)
    requires PlanOf(cfg, s, d).Plan? ==>
               var t := PlanOf(cfg, s, d).state.trace; HistoricalEvidence(t, cfg.clockAt(|t|)) == Ok(history)
    ensures var p, exit := PlanOf(cfg, s, d), Deliberate(cfg, s, d).exit;
            exit.Decided? ==>
              var v := exit.verdict;
              && p.Plan? && w < |p.pool|
              && p.pool[w].agentId == v.winnerAgentId
              && Handle(p.pool[w], p.task, |p.state.trace|) == Answered(v.winningResult)
              && Eligible(s.agents, p.task.objective, d.agentIds, p.pool[w])
              && !Gated(cfg, p.task, |p.state.trace|)
              && v.taskId == v.winningResult.taskId == p.task.id
              && (d.quorum.Some? ==> |v.candidates| >= d.quorum.value)
              && (d.maxCandidates.Some? && d.maxCandidates.value >= 0 ==> |v.candidates| <= d.maxCandidates.value)
              && Cleared(cfg, v, |p.state.trace|)
  {
    DebateFollowsPlan(cfg, s, d);
    var p := PlanOf(cfg, s, d);
    w := 0;
    if p.Plan? && Deliberate(cfg, s, d).exit.Decided? {
      var n := |p.state.trace|;
      var cs := Answers(p.pool, p.task, n);
      PlanPool(cfg, s, d);
      DecidedIff(cfg, s, d, history);
      VerdictCharacterised(cfg.arbiter.value, p.task.id, cs, history);
      AnswersBound(p.pool, p.task, n);
      w := AnswersComeFrom(p.pool, p.task, n, Winner(cfg.arbiter.value, cs, history));
    }
  }

  lemma {:induction false} RunKeepsDistinct(cfg: Config, audited: bool, ops: seq<Op>)
    ensures DistinctIds(Run(cfg, audited, ops).agents)
  {
    if ops == [] {
    } else {
      var s, last := Run(cfg, audited, ops[..|ops| - 1]), ops[|ops| - 1];
      RunKeepsDistinct(cfg, audited, ops[..|ops| - 1]);
      match last
      case DoRegister(a) => RegistryKeepsDistinct(s.agents, a, a.agentId);
      case DoUnregister(id) => FilterKeepsDistinct(s.agents, (a: Agent) => a.agentId != id);
      case DoRoute(r, ledger) => RouteKeepsAgents(cfg, s, ledger, r);
      case DoDebate(d) => DebateKeepsAgents(cfg, s, d);
    }
  }

  lemma RouteKeepsAgents(cfg: Config, s: State, ledger: Ledger, r: Request)
    ensures Route(cfg, s, ledger, r).state.agents == s.agents
  {
    var task := NewTask(cfg, |s.trace|, r);
    if task.Ok? {
      var request := TaskEnvelope(cfg, |s.trace|, task.value);
      RouteTaskKeepsAgents(cfg, WithRecord(cfg, s, request), ledger, request, task.value);
    }
  }

  lemma RouteTaskKeepsAgents(cfg: Config, s: State, ledger: Ledger, request: Envelope, task: Task)
    ensures RouteTask(cfg, s, ledger, request, task).state.agents == s.agents
  {
  }

  lemma DebateKeepsAgents(cfg: Config, s: State, d: Debate)
    ensures Deliberate(cfg, s, d).state.agents == s.agents
  {
    var task := NewTask(cfg, |s.trace|, d.request.(constraints := []));
    if cfg.arbiter.Some? && task.Ok? {
      var request := TaskEnvelope(cfg, |s.trace|, task.value);
      DebateTaskKeepsAgents(cfg, WithRecord(cfg, s, request), request, task.value, d);
    }
  }

  lemma DebateTaskKeepsAgents(cfg: Config, s: State, request: Envelope, task: Task, d: Debate)
    requires cfg.arbiter.Some?
    ensures DebateTask(cfg, s, request, task, d).state.agents == s.agents
  {
  }

  lemma PlanHistory(cfg: Config, audited: bool, ops: seq<Op>, d: Debate)
    ensures var p := PlanOf(cfg, Run(cfg, audited, ops), d);
            p.Plan? ==>
              HistoricalEvidence(p.state.trace, cfg.clockAt(|p.state.trace|)) == Ok(Contributions(cfg, audited, ops))
  {
    var s := Run(cfg, audited, ops);
    var p := PlanOf(cfg, s, d);
    if p.Plan? {
      var now := cfg.clockAt(|p.state.trace|);
      HistoryIsContributions(cfg, audited, ops, now);
      OtherAddsNothing(cfg, s, p.request, now);
    }
  }

  /** Over any run: a debate's verdict is the arbiter's on the answers its candidates gave and
      on the evidence of the results returned and declared winning by the calls before; its
      winner was eligible, was asked and gave the winning result; and quorum, limit and both
      gates hold. */
  lemma VerdictsInRuns(cfg: Config, audited: bool, ops: seq<Op>, d: Debate) returns (w: nat)
    ensures var s := Run(cfg, audited, ops);
            var p, exit := PlanOf(cfg, s, d), Deliberate(cfg, s, d).exit;
            exit.Decided? ==>
              var v := exit.verdict;
              && cfg.arbiter.Some? && p.Plan? && w < |p.pool|
              && Ok(v) == Arbitrate(cfg.arbiter.value, p.task.id, Answers(p.pool, p.task, |p.state.trace|),
                                    Contributions(cfg, audited, ops))
              && p.pool[w].agentId == v.winnerAgentId
              && Handle(p.pool[w], p.task, |p.state.trace|) == Answered(v.winningResult)
              && Eligible(s.agents, p.task.objective, d.agentIds, p.pool[w])
              && !Gated(cfg, p.task, |p.state.trace|)
              && v.taskId == v.winningResult.taskId == p.task.id
              && (d.quorum.Some? ==> |v.candidates| >= d.quorum.value)
              && (d.maxCandidates.Some? && d.maxCandidates.value >= 0 ==> |v.candidates| <= d.maxCandidates.value)
              && Cleared(cfg, v, |p.state.trace|)
  {
    var s := Run(cfg, audited, ops);
    RunKeepsDistinct(cfg, audited, ops);
    PlanHistory(cfg, audited, ops, d);
    DebateFollowsPlan(cfg, s, d);
    w := VerdictIsSound(cfg, s, d, Contributions(cfg, audited, ops));
    if PlanOf(cfg, s, d).Plan? {
      DecidedIff(cfg, s, d, Contributions(cfg, audited, ops));
    }
  }
}
