/** How calls end: which exceptions escape, what is replied and what is declined, each in
    terms of the gates and of what the handlers of the agents asked come to. */
module Exits {
  import opened Lists
  import opened Protocol
  import opened Arbitration
  import opened Policy
  import opened Agents
  import opened Core
  import opened Records
  import opened History
  import opened Debates

  // route

  /** An exception of the handler that `route` does not catch. */
  predicate Uncaught(h: Handled) {
    h.Crashed? || h.TimedOut?
  }

  /** The approver raises over the task of a `route` call, or the task goes to an agent whose
      handler raises such an exception. */
  predicate RouteUnanswered(cfg: Config, s: State, ledger: Ledger, r: Request) {
    var task := NewTask(cfg, |s.trace|, r);
    && task.Ok?
    && TaskUnanswered(cfg, WithRecord(cfg, s, TaskEnvelope(cfg, |s.trace|, task.value)), ledger, task.value)
  }

  predicate TaskUnanswered(cfg: Config, s: State, ledger: Ledger, task: Task) {
    var agent := RoutedAgent(cfg, s, ledger, task);
    || PolicyRaises(cfg, task, |s.trace|)
    || (agent.Some? && Uncaught(Handle(agent.value, task, |s.trace|)))
  }

  lemma ReadableAfterRequest(cfg: Config, audited: bool, ops: seq<Op>, task: Task, now: string)
    ensures var s := Run(cfg, audited, ops);
            HistoricalEvidence(WithRecord(cfg, s, TaskEnvelope(cfg, |s.trace|, task)).trace, now).Ok?
  {
    var s := Run(cfg, audited, ops);
    HistoryIsContributions(cfg, audited, ops, now);
    OtherAddsNothing(cfg, s, TaskEnvelope(cfg, |s.trace|, task), now);
  }

  /** What the agent that was picked makes of the call. */
  ghost predicate ReplyOf(env: Envelope, request: Envelope, task: Task, agent: Agent, h: Handled, now: string) {
    && env.sender == agent.agentId
    && env.correlationId == Some(request.messageId)
    && match h
       case Answered(r) => env.messageType == ResultMessage && ResultFromPayload(env.payload, now) == Ok(r)
       case Failed(e) => env.messageType == ErrorMessage && ErrorFromPayload(env.payload) == Ok(e)
       case Unavailable(why) =>
         && env.messageType == ErrorMessage
         && ErrorFromPayload(env.payload) == Ok(ErrorPayload(task.id, "capability_unavailable", why, false))
       case _ => false
  }

  lemma ServeExits(cfg: Config, s: State, request: Envelope, task: Task, agent: Agent, now: string)
    ensures var step, h := Serve(cfg, s, request, task, agent), Handle(agent, task, |s.trace|);
            if Uncaught(h)
            then step.exit == Escaped(FromHandler(h.why)) && step.state.trace == s.trace
            else
              && step.exit.Replied?
              && step.state.trace == s.trace + [step.exit.envelope]
              && ReplyOf(step.exit.envelope, request, task, agent, h, now)
  {
    var h := Handle(agent, task, |s.trace|);
    if h.Answered? {
      ResultRoundTrip(h.result, now);
    } else if h.Failed? {
      ErrorRoundTrip(h.error);
    } else if h.Unavailable? {
      ErrorRoundTrip(ErrorPayload(task.id, "capability_unavailable", h.why, false));
    }
  }

  /** The core's own error reply. */
  ghost predicate FaultReply(env: Envelope, request: Envelope, task: Task, code: string) {
    && env.messageType == ErrorMessage
    && env.sender == CORE_SENDER
    && env.correlationId == Some(request.messageId)
    && var e := ErrorFromPayload(env.payload);
       e.Ok? && e.value.taskId == task.id && e.value.errorCode == code && !e.value.retryable
  }

  lemma FaultReplies(cfg: Config, n: nat, request: Envelope, task: Task, fault: Fault)
    ensures FaultReply(FaultEnvelope(cfg, n, request, task, fault), request, task, ErrorCode(fault))
  {
    ErrorRoundTrip(ErrorPayload(task.id, ErrorCode(fault), cfg.wording(fault), false));
  }

  /** How a `route` call ends once its task is recorded. */
  ghost predicate RoutedAs(
    cfg: Config, s: State, ledger: Ledger, request: Envelope, task: Task, exit: RouteExit, now: string)
  {
    match RoutedAgent(cfg, s, ledger, task)
    case Some(agent) =>
      var h := Handle(agent, task, |s.trace|);
      if Uncaught(h) then exit == Escaped(FromHandler(h.why))
      else exit.Replied? && ReplyOf(exit.envelope, request, task, agent, h, now)
    case None => UnroutedAs(cfg, |s.trace|, request, task, exit)
  }

  /** The same, when the task goes to nobody. */
  ghost predicate UnroutedAs(cfg: Config, n: nat, request: Envelope, task: Task, exit: RouteExit) {
    if PolicyRaises(cfg, task, n) then exit == Escaped(FromApprover(RulingOn(cfg.policy.value, task, n).why))
    else
      && exit.Replied?
      && FaultReply(exit.envelope, request, task,
                    if Gated(cfg, task, n) then "policy_blocked" else "capability_unavailable")
  }

  lemma RouteTaskServed(cfg: Config, s: State, ledger: Ledger, request: Envelope, task: Task)
    requires RoutedAgent(cfg, s, ledger, task).Some?
    ensures RouteTask(cfg, s, ledger, request, task)
            == Serve(cfg, s, request, task, RoutedAgent(cfg, s, ledger, task).value)
  {
  }

  lemma RouteTaskUnserved(cfg: Config, s: State, ledger: Ledger, request: Envelope, task: Task)
    requires HistoricalEvidence(s.trace, cfg.clockAt(|s.trace|)).Ok? && RoutedAgent(cfg, s, ledger, task).None?
    ensures UnroutedAs(cfg, |s.trace|, request, task, RouteTask(cfg, s, ledger, request, task).exit)
  {
    var gate := GateFor(cfg, task, |s.trace|);
    if gate.Broke? {
    } else if gate.decision.action != Allow {
      FaultReplies(cfg, |s.trace|, request, task, PolicyBlocked(gate.decision));
    } else {
      FaultReplies(cfg, |s.trace|, request, task, NoAgent(task.objective));
    }
  }

  lemma RouteTaskExits(cfg: Config, s: State, ledger: Ledger, request: Envelope, task: Task, now: string)
    requires HistoricalEvidence(s.trace, cfg.clockAt(|s.trace|)).Ok?
    ensures RoutedAs(cfg, s, ledger, request, task, RouteTask(cfg, s, ledger, request, task).exit, now)
  {
    var agent := RoutedAgent(cfg, s, ledger, task);
    if agent.Some? {
      RouteTaskServed(cfg, s, ledger, request, task);
      ServeExits(cfg, s, request, task, agent.value, now);
    } else {
      RouteTaskUnserved(cfg, s, ledger, request, task);
    }
  }

  /** In a run a task goes to some agent exactly if the policy allows it and somebody handles it. */
  lemma RoutedIff(cfg: Config, audited: bool, ops: seq<Op>, ledger: Ledger, task: Task)
    ensures var s := Run(cfg, audited, ops);
            RoutedAgent(cfg, WithRecord(cfg, s, TaskEnvelope(cfg, |s.trace|, task)), ledger, task).Some?
            <==> !Gated(cfg, task, |s.trace| + 1) && FindByObjective(s.agents, task.objective) != []
  {
    ReadableAfterRequest(cfg, audited, ops, task, cfg.clockAt(|Run(cfg, audited, ops).trace| + 1));
  }

  /** How a `route` call of a run ends: malformed iff its risk is no risk level, and then nothing
      is recorded; otherwise with the exception of the approver, with the uncaught exception or
      the reply of the handler it goes to, or with the core's error if the policy blocks the task
      or nobody has a handler for it. */
  lemma RouteExits(cfg: Config, audited: bool, ops: seq<Op>, ledger: Ledger, r: Request, now: string)
    ensures var s := Run(cfg, audited, ops);
            var task, step := NewTask(cfg, |s.trace|, r), Route(cfg, s, ledger, r);
            if task.Raised? then step == Step(s, Malformed(task.error))
            else
              var request := TaskEnvelope(cfg, |s.trace|, task.value);
              RoutedAs(cfg, WithRecord(cfg, s, request), ledger, request, task.value, step.exit, now)
  {
    var s := Run(cfg, audited, ops);
    var task := NewTask(cfg, |s.trace|, r);
    if task.Ok? {
      var request := TaskEnvelope(cfg, |s.trace|, task.value);
      ReadableAfterRequest(cfg, audited, ops, task.value, cfg.clockAt(|s.trace| + 1));
      RouteTaskExits(cfg, WithRecord(cfg, s, request), ledger, request, task.value, now);
    }
  }

  /** An exception escapes from `route` iff the approver raises over the task, or it goes to an
      agent whose handler raises one that is not caught. */
  lemma RouteEscapesIff(cfg: Config, audited: bool, ops: seq<Op>, ledger: Ledger, r: Request)
    ensures var s := Run(cfg, audited, ops);
            Route(cfg, s, ledger, r).exit.Escaped? <==> RouteUnanswered(cfg, s, ledger, r)
  {
    var s := Run(cfg, audited, ops);
    var task := NewTask(cfg, |s.trace|, r);
    RouteExits(cfg, audited, ops, ledger, r, "");
    if task.Ok? {
      var request := TaskEnvelope(cfg, |s.trace|, task.value);
      RoutedEscapes(cfg, WithRecord(cfg, s, request), ledger, request, task.value, Route(cfg, s, ledger, r).exit);
    }
  }

  lemma RoutedEscapes(cfg: Config, s: State, ledger: Ledger, request: Envelope, task: Task, exit: RouteExit)
    requires RoutedAs(cfg, s, ledger, request, task, exit, "")
    ensures exit.Escaped? <==> TaskUnanswered(cfg, s, ledger, task)
  {
    RaisingIsGated(cfg, task, |s.trace|);
  }

  lemma RaisingIsGated(cfg: Config, task: Task, moment: nat)
    ensures PolicyRaises(cfg, task, moment) ==> Gated(cfg, task, moment)
  {
  }

  // debate

  /** The approver raises over the task of a debate; or the debate is dispatched to a handler
      whose exception is not caught, with threads to nobody, or to agents whose answers make a
      quorum but a verdict over which the conflict approver raises. */
  ghost predicate DebateUnanswered(cfg: Config, s: State, d: Debate, history: seq<Evidence>) {
    var p := PlanOf(cfg, s, d);
    || DebateRefused(cfg, s, d)
    || (&& p.Plan?
        && (|| (d.parallel && p.pool == [])
            || (exists i :: CrashesAt(p, i))
            || Unsettled(cfg, p, d, history)))
  }

  /** Enough answers, and the conflict approver raises over the verdict on them. */
  predicate Unsettled(cfg: Config, p: Plan, d: Debate, history: seq<Evidence>)
    requires p.Plan?
  {
    var cs := Answers(p.pool, p.task, |p.state.trace|);
    && cfg.arbiter.Some?
    && cs != []
    && (d.quorum.Some? ==> |cs| >= d.quorum.value)
    && ConflictRaises(cfg, Arbitrate(cfg.arbiter.value, p.task.id, cs, history).value, |p.state.trace|)
  }

  predicate CrashesAt(p: Plan, i: int)
    requires p.Plan?
  {
    0 <= i < |p.pool| && Handle(p.pool[i], p.task, |p.state.trace|).Crashed?
  }

  lemma {:induction false} FirstCrash(pool: seq<Agent>, task: Task, moment: nat) returns (i: nat)
    requires Dispatch(pool, task, moment).Interrupted?
    ensures i < |pool| && Handle(pool[i], task, moment) == Crashed(Dispatch(pool, task, moment).why)
    ensures forall j :: 0 <= j < i ==> !Handle(pool[j], task, moment).Crashed?
  {
    var before := pool[..|pool| - 1];
    if Dispatch(before, task, moment).Interrupted? {
      i := FirstCrash(before, task, moment);
    } else {
      DispatchCompletes(before, task, moment);
      i := |pool| - 1;
      assert forall j :: 0 <= j < i ==> before[j] == pool[j];
    }
  }

  /** How a debate ends once all handlers are done: `cs` are the answers, in pool order. */
  ghost predicate JudgedAs(
    cfg: Config, exit: DebateExit, task: Task, cs: seq<Candidate>, quorum: Option<int>, history: seq<Evidence>, n: nat)
    requires cfg.arbiter.Some?
  {
    if cs == [] then exit == Declined(NoUsableCandidate(task.objective))
    else if quorum.Some? && |cs| < quorum.value
    then exit == Declined(QuorumNotMet(|cs|, quorum.value, task.objective))
    else
      var v := Arbitrate(cfg.arbiter.value, task.id, cs, history).value;
      if Cleared(cfg, v, n) then exit == Decided(v)
      else if ConflictRaises(cfg, v, n) then exit == Abandoned(FromConflictApprover(RulingOnConflict(cfg, v, n).why))
      else
        && exit.Declined? && exit.fault.ConflictNotApproved? && exit.fault.verdict == v
        && (exit.fault.ground == NoConflictApprover <==> cfg.conflictPolicy.value.approver.None?)
  }

  lemma PublishExits(cfg: Config, s: State, request: Envelope, task: Task, v: Verdict)
    ensures var exit := Publish(cfg, s, request, task, v).exit;
            if Cleared(cfg, v, |s.trace|) then exit == Decided(v)
            else if ConflictRaises(cfg, v, |s.trace|)
            then exit == Abandoned(FromConflictApprover(RulingOnConflict(cfg, v, |s.trace|).why))
            else
              && exit.Declined? && exit.fault.ConflictNotApproved? && exit.fault.verdict == v
              && (exit.fault.ground == NoConflictApprover <==> cfg.conflictPolicy.value.approver.None?)
  {
  }

  lemma JudgeExits(
    cfg: Config, s: State, request: Envelope, task: Task, cs: seq<Candidate>, quorum: Option<int>, history: seq<Evidence>)
    requires cfg.arbiter.Some? && HistoricalEvidence(s.trace, cfg.clockAt(|s.trace|)) == Ok(history)
    ensures JudgedAs(cfg, Judge(cfg, s, request, task, cs, quorum).exit, task, cs, quorum, history, |s.trace|)
  {
    if cs != [] {
      PublishExits(cfg, s, request, task, Arbitrate(cfg.arbiter.value, task.id, cs, history).value);
    }
  }

  /** How a dispatched debate ends. Of several uncaught exceptions the first in pool order
      gets out. */
  ghost predicate CarriedAs(cfg: Config, exit: DebateExit, p: Plan, d: Debate, history: seq<Evidence>)
    requires cfg.arbiter.Some? && p.Plan?
  {
    var n := |p.state.trace|;
    if d.parallel && p.pool == [] then exit == Abandoned(NoWorkers)
    else if exists i :: CrashesAt(p, i)
    then
      exists i :: CrashesAt(p, i) && (forall j :: 0 <= j < i ==> !CrashesAt(p, j))
                  && exit == Abandoned(FromHandler(Handle(p.pool[i], p.task, n).why))
    else JudgedAs(cfg, exit, p.task, Answers(p.pool, p.task, n), d.quorum, history, n)
  }

  lemma CarryExits(cfg: Config, p: Plan, d: Debate, history: seq<Evidence>)
    requires cfg.arbiter.Some? && p.Plan? && DistinctIds(p.pool)
    requires HistoricalEvidence(p.state.trace, cfg.clockAt(|p.state.trace|)) == Ok(history)
    ensures CarriedAs(cfg, Carry(cfg, p, d).exit, p, d, history)
    ensures Carry(cfg, p, d).exit.Abandoned?
            <==> (d.parallel && p.pool == []) || (exists i :: CrashesAt(p, i)) || Unsettled(cfg, p, d, history)
  {
    var n := |p.state.trace|;
    var dispatched := Dispatch(p.pool, p.task, n);
    DispatchCompletes(p.pool, p.task, n);
    if dispatched.Results? {
      assert !exists i :: CrashesAt(p, i);
      DispatchedCandidates(p.pool, p.task, n);
      var done := AfterDispatch(p.state, p.pool, p.task, d.parallel);
      var ready := AfterBookkeeping(cfg, done, p.task, p.pool, dispatched.results);
      JudgeExits(cfg, ready, p.request, p.task, Answers(p.pool, p.task, n), d.quorum, history);
    } else {
      var i := FirstCrash(p.pool, p.task, n);
      assert CrashesAt(p, i);
      assert forall j :: 0 <= j < i ==> !CrashesAt(p, j);
    }
  }

  /** How a debate ends that is not dispatched. */
  predicate UndispatchedAs(cfg: Config, s: State, d: Debate, exit: DebateExit) {
    var n := |s.trace| + 1;
    var task := NewTask(cfg, |s.trace|, d.request.(constraints := []));
    if cfg.arbiter.None? then exit == NoArbiter
    else if task.Raised? then exit == BadRequest(task.error)
    else UndispatchedExit(cfg, task.value, n, exit)
  }

  lemma UndispatchedExits(cfg: Config, s: State, d: Debate)
    requires PlanOf(cfg, s, d).NoDispatch?
    ensures UndispatchedAs(cfg, s, d, Deliberate(cfg, s, d).exit)
  {
  }

  /** How a `debate` call of a run ends, and with which error: without an arbiter or with a bad
      risk nothing is recorded; a blocked task, an objective nobody handles, no answer, too few
      answers and an unapproved conflict are declined as such; exceptions of approvers, of handlers
      and of an executor for nobody get out. */
  lemma DebateExits(cfg: Config, audited: bool, ops: seq<Op>, d: Debate)
    ensures var s := Run(cfg, audited, ops);
            var p, exit := PlanOf(cfg, s, d), Deliberate(cfg, s, d).exit;
            if p.Plan? then cfg.arbiter.Some? && CarriedAs(cfg, exit, p, d, Contributions(cfg, audited, ops))
            else UndispatchedAs(cfg, s, d, exit)
  {
    var s := Run(cfg, audited, ops);
    DebateFollowsPlan(cfg, s, d);
    if PlanOf(cfg, s, d).Plan? {
      PlanExits(cfg, audited, ops, d);
    } else {
      UndispatchedExits(cfg, s, d);
    }
  }

  lemma PlanExits(cfg: Config, audited: bool, ops: seq<Op>, d: Debate)
    requires cfg.arbiter.Some? && PlanOf(cfg, Run(cfg, audited, ops), d).Plan?
    ensures var p := PlanOf(cfg, Run(cfg, audited, ops), d);
            && CarriedAs(cfg, Carry(cfg, p, d).exit, p, d, Contributions(cfg, audited, ops))
            && (Carry(cfg, p, d).exit.Abandoned?
                <==> || (d.parallel && p.pool == [])
                     || (exists i :: CrashesAt(p, i))
                     || Unsettled(cfg, p, d, Contributions(cfg, audited, ops)))
  {
    var s := Run(cfg, audited, ops);
    RunKeepsDistinct(cfg, audited, ops);
    PlanHistory(cfg, audited, ops, d);
    PlanPool(cfg, s, d);
    CarryExits(cfg, PlanOf(cfg, s, d), d, Contributions(cfg, audited, ops));
  }

  /** An exception escapes from a debate iff the approver raises over its task, or it is dispatched
      and the exception of some handler is not caught, with threads nobody is left to ask, or the
      conflict approver raises over the verdict on enough answers. */
  lemma DebateEscapesIff(cfg: Config, audited: bool, ops: seq<Op>, d: Debate)
    ensures var s := Run(cfg, audited, ops);
            Deliberate(cfg, s, d).exit.Abandoned? <==> DebateUnanswered(cfg, s, d, Contributions(cfg, audited, ops))
  {
    var s := Run(cfg, audited, ops);
    DebateFollowsPlan(cfg, s, d);
    if PlanOf(cfg, s, d).Plan? {
      PlanExits(cfg, audited, ops, d);
      PlanNotRefused(cfg, s, d);
    }
  }

  lemma PlanNotRefused(cfg: Config, s: State, d: Debate)
    requires PlanOf(cfg, s, d).Plan?
    ensures !DebateRefused(cfg, s, d)
  {
    RaisingIsGated(cfg, NewTask(cfg, |s.trace|, d.request.(constraints := [])).value, |s.trace| + 1);
  }

  /** A debate that is declined records its task and the core's error reply, nothing else. */
  lemma DeclinedOnRecord(cfg: Config, s: State, d: Debate)
    ensures var step, task := Deliberate(cfg, s, d), NewTask(cfg, |s.trace|, d.request.(constraints := []));
            step.exit.Declined? ==>
              && task.Ok?
              && |step.state.trace| == |s.trace| + 2
              && step.state.trace[..|s.trace| + 1] == s.trace + [TaskEnvelope(cfg, |s.trace|, task.value)]
              && FaultReply(step.state.trace[|s.trace| + 1], TaskEnvelope(cfg, |s.trace|, task.value), task.value,
                            match step.exit.fault
                            case PolicyBlocked(_) => "policy_blocked"
                            case NoAgent(_) => "capability_unavailable"
                            case NoUsableCandidate(_) => "no_usable_candidate"
                            case QuorumNotMet(_, _, _) => "quorum_not_met"
                            case ConflictNotApproved(_, _) => "conflict_not_approved")
  {
    var task := NewTask(cfg, |s.trace|, d.request.(constraints := []));
    if cfg.arbiter.Some? && task.Ok? {
      var request := TaskEnvelope(cfg, |s.trace|, task.value);
      TaskDeclines(cfg, WithRecord(cfg, s, request), request, task.value, d);
    }
  }

  /** The one envelope a declined debate adds to those of `s`. */
  ghost predicate Declines(cfg: Config, s: State, step: Step<DebateExit>, request: Envelope, task: Task) {
    step.exit.Declined? ==>
      && |step.state.trace| == |s.trace| + 1
      && step.state.trace[..|s.trace|] == s.trace
      && FaultReply(step.state.trace[|s.trace|], request, task, ErrorCode(step.exit.fault))
  }

  lemma OneDeclines(cfg: Config, s: State, request: Envelope, task: Task, fault: Fault)
    ensures Declines(cfg, s, Decline(cfg, s, request, task, fault), request, task)
  {
    FaultReplies(cfg, |s.trace|, request, task, fault);
  }

  lemma JudgeDeclines(
    cfg: Config, s: State, request: Envelope, task: Task, cs: seq<Candidate>, quorum: Option<int>)
    requires cfg.arbiter.Some?
    ensures Declines(cfg, s, Judge(cfg, s, request, task, cs, quorum), request, task)
  {
    var exit := Judge(cfg, s, request, task, cs, quorum).exit;
    if exit.Declined? {
      OneDeclines(cfg, s, request, task, exit.fault);
    }
  }

  lemma AmongDeclines(
    cfg: Config, s: State, request: Envelope, task: Task, pool: seq<Agent>, parallel: bool, quorum: Option<int>)
    requires cfg.arbiter.Some?
    ensures Declines(cfg, s, DebateAmong(cfg, s, request, task, pool, parallel, quorum), request, task)
  {
    var dispatched := Dispatch(pool, task, |s.trace|);
    if dispatched.Results? {
      var ready := AfterBookkeeping(cfg, AfterDispatch(s, pool, task, parallel), task, pool, dispatched.results);
      JudgeDeclines(cfg, ready, request, task, Candidates(pool, dispatched.results), quorum);
    }
  }

  lemma TaskDeclines(cfg: Config, s: State, request: Envelope, task: Task, d: Debate)
    requires cfg.arbiter.Some?
    ensures Declines(cfg, s, DebateTask(cfg, s, request, task, d), request, task)
  {
    var pool := Invited(s.agents, task.objective, d.agentIds);
    var gate := GateFor(cfg, task, |s.trace|);
    if gate.Broke? {
    } else if gate.decision.action != Allow {
      OneDeclines(cfg, s, request, task, PolicyBlocked(gate.decision));
    } else if pool == [] {
      OneDeclines(cfg, s, request, task, NoAgent(task.objective));
    } else {
      AmongDeclines(cfg, s, request, task, Dispatchable(pool, d.maxCandidates), d.parallel, d.quorum);
    }
  }

  /** The core's publication of a verdict: its winner's result, sent as the winner. */
  ghost predicate Publishes(env: Envelope, request: Envelope, v: Verdict, now: string) {
    && env.messageType == ResultMessage
    && env.sender == v.winnerAgentId
    && env.correlationId == Some(request.messageId)
    && ResultFromPayload(env.payload, now) == Ok(v.winningResult)
  }

  /** The one envelope a decided debate adds to those of `s`. */
  ghost predicate Crowns(s: State, step: Step<DebateExit>, request: Envelope, now: string) {
    step.exit.Decided? ==>
      && |step.state.trace| == |s.trace| + 1
      && step.state.trace[..|s.trace|] == s.trace
      && Publishes(step.state.trace[|s.trace|], request, step.exit.verdict, now)
  }

  lemma PublishCrowns(cfg: Config, s: State, request: Envelope, task: Task, v: Verdict, now: string)
    ensures Crowns(s, Publish(cfg, s, request, task, v), request, now)
  {
    PublishDecides(cfg, s, request, task, v);
    ResultRoundTrip(v.winningResult, now);
  }

  lemma JudgeCrowns(
    cfg: Config, s: State, request: Envelope, task: Task, cs: seq<Candidate>, quorum: Option<int>, now: string)
    requires cfg.arbiter.Some?
    ensures Crowns(s, Judge(cfg, s, request, task, cs, quorum), request, now)
  {
    var step := Judge(cfg, s, request, task, cs, quorum);
    if step.exit.Decided? {
      PublishCrowns(cfg, s, request, task, step.exit.verdict, now);
    }
  }

  lemma AmongCrowns(
    cfg: Config, s: State, request: Envelope, task: Task, pool: seq<Agent>, parallel: bool, quorum: Option<int>,
    now: string)
    requires cfg.arbiter.Some?
    ensures Crowns(s, DebateAmong(cfg, s, request, task, pool, parallel, quorum), request, now)
  {
    var dispatched := Dispatch(pool, task, |s.trace|);
    if dispatched.Results? {
      var ready := AfterBookkeeping(cfg, AfterDispatch(s, pool, task, parallel), task, pool, dispatched.results);
      JudgeCrowns(cfg, ready, request, task, Candidates(pool, dispatched.results), quorum, now);
    }
  }

  /** A debate that returns a verdict records its task and the winning result, sent as the winner and
      correlated to the task, nothing else. */
  lemma DecidedOnRecord(cfg: Config, s: State, d: Debate, now: string)
    ensures var step, p := Deliberate(cfg, s, d), PlanOf(cfg, s, d);
            step.exit.Decided? ==>
              && p.Plan?
              && |step.state.trace| == |s.trace| + 2
              && step.state.trace[..|s.trace| + 1] == s.trace + [p.request]
              && Publishes(step.state.trace[|s.trace| + 1], p.request, step.exit.verdict, now)
  {
    DebateFollowsPlan(cfg, s, d);
    var p := PlanOf(cfg, s, d);
    if p.Plan? {
      AmongCrowns(cfg, p.state, p.request, p.task, p.pool, d.parallel, d.quorum, now);
    }
  }

  // Runs

  /** A call, with this evidence on record, whose task gets no reply. */
  ghost predicate Unanswered(cfg: Config, s: State, op: Op, history: seq<Evidence>) {
    match op
    case DoRoute(r, ledger) => RouteUnanswered(cfg, s, ledger, r)
    case DoDebate(d) => DebateUnanswered(cfg, s, d, history)
    case _ => false
  }

  ghost predicate NoneUnanswered(cfg: Config, audited: bool, ops: seq<Op>) {
    ops == []
    || (var before := ops[..|ops| - 1];
        && NoneUnanswered(cfg, audited, before)
        && !Unanswered(cfg, Run(cfg, audited, before), ops[|ops| - 1], Contributions(cfg, audited, before)))
  }

  lemma EscapesIffUnanswered(cfg: Config, audited: bool, ops: seq<Op>, op: Op)
    ensures Escapes(cfg, Run(cfg, audited, ops), op)
            <==> Unanswered(cfg, Run(cfg, audited, ops), op, Contributions(cfg, audited, ops))
  {
    match op
    case DoRoute(r, ledger) => RouteEscapesIff(cfg, audited, ops, ledger, r);
    case DoDebate(d) => DebateEscapesIff(cfg, audited, ops, d);
    case _ =>
  }

  lemma {:induction false} NoneUnansweredIff(cfg: Config, audited: bool, ops: seq<Op>)
    ensures NoneEscapes(cfg, audited, ops) <==> NoneUnanswered(cfg, audited, ops)
  {
    if ops == [] {
    } else {
      var before := ops[..|ops| - 1];
      NoneUnansweredIff(cfg, audited, before);
      EscapesIffUnanswered(cfg, audited, before, ops[|ops| - 1]);
    }
  }

  /** After any run every reply directly follows the task it is correlated to, results carry
      that task's id, and every task is answered (so the trace is a sequence of task and reply
      pairs) iff no approver raised over a task or a verdict, no routed or dispatched task met a
      handler whose exception is not caught, and no threaded debate was left without candidates. */
  lemma TraceIsPaired(cfg: Config, audited: bool, ops: seq<Op>)
    ensures var trace := Run(cfg, audited, ops).trace;
            RepliesFollow(trace) && (AllAnswered(trace) <==> NoneUnanswered(cfg, audited, ops))
  {
    PairedUnlessEscaped(cfg, audited, ops);
    NoneUnansweredIff(cfg, audited, ops);
  }

  lemma RunOfOne(cfg: Config, op: Op)
    ensures Run(cfg, false, [op]) == Apply(cfg, Fresh(false), op)
  {
    assert [op][..0] == [];
    assert Run(cfg, false, [op][..0]) == Fresh(false);
  }

  lemma RunOfTwo(cfg: Config, first: Op, second: Op)
    ensures Run(cfg, false, [first, second]) == Apply(cfg, Run(cfg, false, [first]), second)
  {
    assert [first, second][..1] == [first];
  }

  lemma OneRegistered(cfg: Config, agent: Agent)
    ensures Run(cfg, false, [DoRegister(agent)]) == Fresh(false).(agents := [agent])
  {
    RunOfOne(cfg, DoRegister(agent));
    assert Registering([], agent) == [agent];
  }

  lemma CrashingRoute(cfg: Config, s: State, r: Request, agent: Agent)
    requires cfg.policy.None? && cfg.trust.None? && r.risk.None? && s == Fresh(false).(agents := [agent])
    requires r.objective in agent.handlers && forall t, n :: agent.handlers[r.objective](t, n) == ReturnedOther
    ensures Route(cfg, s, None, r).state.trace == [TaskEnvelope(cfg, 0, NewTask(cfg, 0, r).value)]
  {
    OneHandler(agent, r.objective);
  }

  /** The smallest run with an unanswered task: one agent, whose handler returns something that
      is neither a dict nor a result nor an error, and one `route` call. */
  lemma CrashLeavesTask(cfg: Config, objective: string)
    requires cfg.policy.None? && cfg.trust.None?
    ensures var agent := Agent("agent:a", map[objective := (task, n) => ReturnedOther]);
            var call := DoRoute(Request(objective, map[], [], None, Some("t")), None);
            var trace := Run(cfg, false, [DoRegister(agent), call]).trace;
            |trace| == 1 && trace[0].messageType == TaskMessage && !AllAnswered(trace)
  {
    var agent := Agent("agent:a", map[objective := (task, n) => ReturnedOther]);
    var r := Request(objective, map[], [], None, Some("t"));
    OneRegistered(cfg, agent);
    RunOfTwo(cfg, DoRegister(agent), DoRoute(r, None));
    CrashingRoute(cfg, Fresh(false).(agents := [agent]), r, agent);
  }

  /** The smallest run an approver leaves a task unanswered in: it raises, on a core with no
      agents at all. */
  lemma ApproverLeavesTask(cfg: Config, objective: string, ledger: Ledger)
    requires cfg.policy == Some(PolicyEngine(DEFAULT_RISK_POLICY, Some((t: Task, d: Decision, n: nat) => Raises("down"))))
    ensures var call := DoRoute(Request(objective, map[], [], Some("high"), Some("t")), ledger);
            var trace := Run(cfg, false, [call]).trace;
            |trace| == 1 && trace[0].messageType == TaskMessage && !AllAnswered(trace)
  {
    var r := Request(objective, map[], [], Some("high"), Some("t"));
    RunOfOne(cfg, DoRoute(r, ledger));
    assert NewTask(cfg, 0, r).value.risk == Some(High);
    RaisingRoute(cfg, ledger, r);
  }

  lemma RaisingRoute(cfg: Config, ledger: Ledger, r: Request)
    requires NewTask(cfg, 0, r).Ok? && PolicyRaises(cfg, NewTask(cfg, 0, r).value, 1)
    ensures Route(cfg, Fresh(false), ledger, r).state.trace == [TaskEnvelope(cfg, 0, NewTask(cfg, 0, r).value)]
  {
  }

  /** An agent that answers `objective` with a fixed dict. */
  function Parrot(id: string, objective: string, output: Dict): Agent {
    Agent(id, map[objective := (task, n) => ReturnedDict(output)])
  }

  lemma TwoAnswers(objective: string, x: Dict, y: Dict, task: Task, n: nat)
    requires task.objective == objective
    ensures var a, b := Parrot("agent:a", objective, x), Parrot("agent:b", objective, y);
            && FindByObjective([a, b], objective) == [a, b]
            && Answers([a, b], task, n) == [Candidate("agent:a", Result(task.id, Success, x, None, [])),
                                            Candidate("agent:b", Result(task.id, Success, y, None, []))]
  {
    var a, b := Parrot("agent:a", objective, x), Parrot("agent:b", objective, y);
    OneHandler(b, objective);
    assert [a, b][1..] == [b] && [a, b][..1] == [a] && [a][..0] == [];
    assert Answers([a, b][..1], task, n)
           == Answers([a][..0], task, n) + [Candidate("agent:a", Result(task.id, Success, x, None, []))];
  }

  lemma ParrotPlan(cfg: Config, s: State, d: Debate, objective: string, x: Dict, y: Dict)
    requires cfg.arbiter.Some? && cfg.policy.None?
    requires s == Fresh(false).(agents := [Parrot("agent:a", objective, x), Parrot("agent:b", objective, y)])
    requires d == Debate(Request(objective, map[], [], None, Some("t")), None, false, None, None)
    ensures var p := PlanOf(cfg, s, d);
            && p.Plan? && p.pool == s.agents && p.task.objective == objective
            && p.request == TaskEnvelope(cfg, 0, p.task) && p.state == WithRecord(cfg, s, p.request)
  {
    TwoAnswers(objective, x, y, NewTask(cfg, 0, d.request).value, 1);
  }

  /** What becomes of a dispatched debate whose conflict approver raises. */
  lemma UnsettledExit(cfg: Config, p: Plan, d: Debate, history: seq<Evidence>)
    requires cfg.arbiter.Some? && p.Plan? && DistinctIds(p.pool) && !d.parallel && Unsettled(cfg, p, d, history)
    requires forall i :: 0 <= i < |p.pool| ==> !CrashesAt(p, i)
    requires HistoricalEvidence(p.state.trace, cfg.clockAt(|p.state.trace|)) == Ok(history)
    ensures var exit, n := Carry(cfg, p, d).exit, |p.state.trace|;
            var v := Arbitrate(cfg.arbiter.value, p.task.id, Answers(p.pool, p.task, n), history).value;
            exit == Abandoned(FromConflictApprover(RulingOnConflict(cfg, v, n).why))
  {
    CarryExits(cfg, p, d, history);
  }

  lemma FreshHistory(cfg: Config, s: State, task: Task, now: string)
    requires s.trace == []
    ensures HistoricalEvidence(WithRecord(cfg, s, TaskEnvelope(cfg, 0, task)).trace, now) == Ok([])
  {
    assert HistoricalEvidence([], now) == Ok([]);
    OtherAddsNothing(cfg, s, TaskEnvelope(cfg, 0, task), now);
  }

  lemma PairUnsettled(cfg: Config, p: Plan, d: Debate, objective: string, x: Dict, y: Dict)
    requires cfg.arbiter.Some? && !SameDict(x, y) && p.Plan? && p.task.objective == objective && d.quorum.None?
    requires cfg.conflictPolicy
             == Some(ConflictPolicy(Some((v: Verdict, d: ConflictDecision, n: nat) => Raises("down"))))
    requires p.pool == [Parrot("agent:a", objective, x), Parrot("agent:b", objective, y)]
    ensures Unsettled(cfg, p, d, [])
    ensures var n := |p.state.trace|;
            var v := Arbitrate(cfg.arbiter.value, p.task.id, Answers(p.pool, p.task, n), []).value;
            RulingOnConflict(cfg, v, n) == Raises("down")
  {
    TwoAnswers(objective, x, y, p.task, |p.state.trace|);
    DisagreeingPair(cfg, p.task, x, y);
  }

  lemma ParrotsDoNotCrash(p: Plan, objective: string, x: Dict, y: Dict)
    requires p.Plan? && p.task.objective == objective
    requires p.pool == [Parrot("agent:a", objective, x), Parrot("agent:b", objective, y)]
    ensures DistinctIds(p.pool) && forall i :: 0 <= i < |p.pool| ==> !CrashesAt(p, i)
  {
  }

  lemma PairAbandoned(cfg: Config, p: Plan, d: Debate, objective: string, x: Dict, y: Dict)
    requires cfg.arbiter.Some? && !SameDict(x, y) && p.Plan? && p.task.objective == objective
    requires d.quorum.None? && !d.parallel
    requires cfg.conflictPolicy
             == Some(ConflictPolicy(Some((v: Verdict, d: ConflictDecision, n: nat) => Raises("down"))))
    requires p.pool == [Parrot("agent:a", objective, x), Parrot("agent:b", objective, y)]
    requires |p.state.trace| == 1 && HistoricalEvidence(p.state.trace, cfg.clockAt(1)) == Ok([])
    requires p.request == TaskEnvelope(cfg, 0, p.task)
    ensures Carry(cfg, p, d).exit == Abandoned(FromConflictApprover("down"))
    ensures Carry(cfg, p, d).state.trace == p.state.trace
  {
    PairUnsettled(cfg, p, d, objective, x, y);
    ParrotsDoNotCrash(p, objective, x, y);
    UnsettledExit(cfg, p, d, []);
    AbandonedTrace(cfg, p, d, 0);
  }

  lemma AbandonedTrace(cfg: Config, p: Plan, d: Debate, n: nat)
    requires cfg.arbiter.Some? && p.Plan? && |p.state.trace| == n + 1 && p.request == TaskEnvelope(cfg, n, p.task)
    ensures Carry(cfg, p, d).exit.Abandoned? ==> Carry(cfg, p, d).state.trace == p.state.trace
  {
    DebateAmongReply(cfg, p.state, n, p.task, p.pool, d.parallel, d.quorum);
  }

  /** Two agents that disagree, and a conflict approver that raises: the debate's task stays
      unanswered although every handler answered it. */
  lemma ConflictApproverLeavesTask(cfg: Config, s: State, objective: string, x: Dict, y: Dict)
    requires cfg.arbiter.Some? && cfg.policy.None? && !SameDict(x, y)
    requires cfg.conflictPolicy
             == Some(ConflictPolicy(Some((v: Verdict, d: ConflictDecision, n: nat) => Raises("down"))))
    requires s == Fresh(false).(agents := [Parrot("agent:a", objective, x), Parrot("agent:b", objective, y)])
    ensures var d := Debate(Request(objective, map[], [], None, Some("t")), None, false, None, None);
            var step := Deliberate(cfg, s, d);
            step.exit == Abandoned(FromConflictApprover("down")) && |step.state.trace| == 1
  {
    var d := Debate(Request(objective, map[], [], None, Some("t")), None, false, None, None);
    var p := PlanOf(cfg, s, d);
    ParrotPlan(cfg, s, d, objective, x, y);
    PlanCarried(cfg, s, d);
    FreshHistory(cfg, s, p.task, cfg.clockAt(1));
    PairAbandoned(cfg, p, d, objective, x, y);
  }

  lemma DisagreeingPair(cfg: Config, task: Task, x: Dict, y: Dict)
    requires cfg.arbiter.Some? && !SameDict(x, y)
    ensures var cs := [Candidate("agent:a", Result(task.id, Success, x, None, [])),
                       Candidate("agent:b", Result(task.id, Success, y, None, []))];
            !Arbitrate(cfg.arbiter.value, task.id, cs, []).value.agreement
  {
    var cs := [Candidate("agent:a", Result(task.id, Success, x, None, [])),
               Candidate("agent:b", Result(task.id, Success, y, None, []))];
    VerdictCharacterised(cfg.arbiter.value, task.id, cs, []);
    assert SameDict(x, y) == SameDict(y, x);
    assert cs[1] in cs && !Concur(cs[1], cs[0]);
  }

  lemma OneHandler(agent: Agent, objective: string)
    requires objective in agent.handlers
    ensures FindByObjective([agent], objective) == [agent]
  {
    var keep := (a: Agent) => objective in a.handlers;
    assert [agent][1..] == [] && Filter([agent][1..], keep) == [];
  }

  /** With a limit of zero the two forms of a debate part, whatever the agents: the threaded
      one leaves its task unanswered, the sequential one is declined for want of an answer. */
  lemma NobodyLeftToAsk(cfg: Config, s: State, d: Debate)
    requires PlanOf(cfg, s, d.(maxCandidates := None)).Plan?
    ensures var threaded := d.(maxCandidates := Some(0), parallel := true);
            Deliberate(cfg, s, threaded).exit == Abandoned(NoWorkers)
    ensures var sequential := d.(maxCandidates := Some(0), parallel := false);
            Deliberate(cfg, s, sequential).exit == Declined(NoUsableCandidate(d.request.objective))
  {
    var threaded := d.(maxCandidates := Some(0), parallel := true);
    var sequential := d.(maxCandidates := Some(0), parallel := false);
    DebateFollowsPlan(cfg, s, threaded);
    DebateFollowsPlan(cfg, s, sequential);
    assert PlanOf(cfg, s, sequential).pool == [];
    assert Candidates([], map[]) == [];
  }

  /** A handler that hands back an error for another task has it sent as it is. */
  lemma ForeignErrorSent(cfg: Config, s: State, request: Envelope, task: Task)
    requires task.id != "other"
    ensures var e := ErrorPayload("other", "failed", "", false);
            var agent := Agent("agent:a", map[task.objective := (t, n) => ReturnedError(e)]);
            var exit := Serve(cfg, s, request, task, agent).exit;
            exit.Replied? && StrField(exit.envelope.payload, "task_id") == Ok("other")
  {
  }
}
