/** The two gates: risk policy before dispatch (policy.py), conflict policy after
    arbitration (conflict_policy.py). Approvers are arbitrary functions of what they are
    shown and of the moment they are asked, and may raise. */
module Policy {
  import opened Lists
  import opened Protocol
  import opened Arbitration

  datatype Action = Allow | Block | RequireApproval

  datatype Ground = WithinPolicy | NoApprover | Pending | Approved | Denied | Forbidden

  datatype Decision = Decision(action: Action, reason: Ground, risk: Option<Risk>)

  type RiskPolicy = map<Option<Risk>, Action>

  const DEFAULT_RISK_POLICY: RiskPolicy :=
    map[None := Allow, Some(Low) := Allow, Some(Medium) := Allow,
        Some(High) := RequireApproval, Some(Critical) := RequireApproval]

  /** What asking an approver comes to; it may also raise. */
  datatype Ruling = Grants | Denies | Raises(why: string)

  /** What evaluating a policy comes to: a decision, or the exception of its approver. */
  datatype Judgement<+D> = Judged(decision: D) | Broke(why: string)

  type Approver = (Task, Decision, nat) -> Ruling

  datatype PolicyEngine = PolicyEngine(riskPolicy: RiskPolicy, approver: Option<Approver>) {
    function ActionFor(risk: Option<Risk>): Action {
      if risk in riskPolicy then riskPolicy[risk] else RequireApproval
    }

    function Evaluate(task: Task, moment: nat): Judgement<Decision> {
      match ActionFor(task.risk)
      case Allow => Judged(Decision(Allow, WithinPolicy, task.risk))
      case RequireApproval =>
        if approver.None? then Judged(Decision(Block, NoApprover, task.risk))
        else
          (match approver.value(task, Decision(RequireApproval, Pending, task.risk), moment)
           case Grants => Judged(Decision(Allow, Approved, task.risk))
           case Denies => Judged(Decision(Block, Denied, task.risk))
           case Raises(why) => Broke(why))
      case Block => Judged(Decision(Block, Forbidden, task.risk))
    }
  }

  /** The approver of a policy is asked about a task: there is one, and the risk is mapped to
      approval or not mapped at all. */
  predicate Asks(p: PolicyEngine, task: Task) {
    (task.risk in p.riskPolicy ==> p.riskPolicy[task.risk] == RequireApproval) && p.approver.Some?
  }

  function RulingOn(p: PolicyEngine, task: Task, moment: nat): Ruling
    requires Asks(p, task)
  {
    p.approver.value(task, Decision(RequireApproval, Pending, task.risk), moment)
  }

  /** The gate fails closed: a task passes iff its risk is mapped to allow, or an approver is
      asked and grants it. An approver's exception is not caught. Nothing is left pending. */
  lemma GateFailsClosed(p: PolicyEngine, task: Task, moment: nat)
    ensures var j := p.Evaluate(task, moment);
            && (j.Judged? && j.decision.action == Allow
                <==> || (task.risk in p.riskPolicy && p.riskPolicy[task.risk] == Allow)
                     || (Asks(p, task) && RulingOn(p, task, moment) == Grants))
            && (j.Broke? <==> Asks(p, task) && RulingOn(p, task, moment).Raises?)
            && (j.Broke? ==> j.why == RulingOn(p, task, moment).why)
            && (j.Judged? ==> j.decision.action != RequireApproval)
  {
  }

  /** What a decision says: the task's risk, and why. */
  lemma DecisionGrounds(p: PolicyEngine, task: Task, moment: nat)
    ensures var j := p.Evaluate(task, moment);
            j.Judged? ==>
              && j.decision.risk == task.risk
              && (j.decision.reason == WithinPolicy <==> task.risk in p.riskPolicy && p.riskPolicy[task.risk] == Allow)
              && (j.decision.reason == Forbidden <==> task.risk in p.riskPolicy && p.riskPolicy[task.risk] == Block)
              && (j.decision.reason == Approved <==> Asks(p, task) && RulingOn(p, task, moment) == Grants)
              && (j.decision.reason == Denied <==> Asks(p, task) && RulingOn(p, task, moment) == Denies)
              && j.decision.reason != Pending
  {
  }

  /** The default policy lets a task through iff its risk is not given, low or medium, or there is an
      approver and it grants the task. Only for the others it is asked. */
  lemma DefaultLetsThrough(task: Task, approver: Option<Approver>, moment: nat)
    ensures var p := PolicyEngine(DEFAULT_RISK_POLICY, approver);
            var j, light := p.Evaluate(task, moment), task.risk == None || task.risk == Some(Low) || task.risk == Some(Medium);
            && (j.Judged? && j.decision.action == Allow
                <==> || light
                     || (approver.Some?
                         && approver.value(task, Decision(RequireApproval, Pending, task.risk), moment) == Grants))
            && (Asks(p, task) <==> approver.Some? && !light)
  {
    var p := PolicyEngine(DEFAULT_RISK_POLICY, approver);
    GateFailsClosed(p, task, moment);
    match task.risk
    case None =>
    case Some(Low) =>
    case Some(Medium) =>
    case Some(High) =>
    case Some(Critical) =>
  }

  datatype ConflictGround = CandidatesAgreed | NoConflictApprover | ConflictPending | ConflictApproved | ConflictDenied

  datatype ConflictDecision = ConflictDecision(action: Action, reason: ConflictGround, agreement: bool)

  type ConflictApprover = (Verdict, ConflictDecision, nat) -> Ruling

  datatype ConflictPolicy = ConflictPolicy(approver: Option<ConflictApprover>) {
    function Evaluate(verdict: Verdict, moment: nat): Judgement<ConflictDecision> {
      if verdict.agreement then Judged(ConflictDecision(Allow, CandidatesAgreed, true))
      else if approver.None? then Judged(ConflictDecision(Block, NoConflictApprover, false))
      else
        match approver.value(verdict, ConflictDecision(Block, ConflictPending, false), moment)
        case Grants => Judged(ConflictDecision(Allow, ConflictApproved, false))
        case Denies => Judged(ConflictDecision(Block, ConflictDenied, false))
        case Raises(why) => Broke(why)
    }
  }

  /** The conflict gate: agreement passes unasked; a disagreement passes iff there is an approver that
      grants the verdict, and the approver's exception is not caught. */
  lemma ConflictGateFailsClosed(p: ConflictPolicy, v: Verdict, moment: nat)
    ensures var j := p.Evaluate(v, moment);
            if v.agreement then j == Judged(ConflictDecision(Allow, CandidatesAgreed, true))
            else if p.approver.None? then j == Judged(ConflictDecision(Block, NoConflictApprover, false))
            else
              var ruling := p.approver.value(v, ConflictDecision(Block, ConflictPending, false), moment);
              && (j.Broke? <==> ruling.Raises?)
              && (j.Broke? ==> j.why == ruling.why)
              && (j.Judged? ==> !j.decision.agreement)
              && (j.Judged? && j.decision.action == Allow <==> ruling == Grants)
              && (j.Judged? && j.decision.action == Block <==> ruling == Denies)
              && (j.Judged? ==> j.decision.reason == if ruling == Grants then ConflictApproved else ConflictDenied)
  {
  }
}
