/** What a caller asks for is what is recorded and what the handlers get. */
module Requests {
  import opened Lists
  import opened Protocol
  import opened Arbitration
  import opened Policy
  import opened Agents
  import opened Core
  import opened Records
  import opened History
  import opened Gates

  /** No risk, or one of the four levels by name. */
  predicate KnownRisk(risk: Option<string>) {
    risk.None? || risk.value == "low" || risk.value == "medium" || risk.value == "high" || risk.value == "critical"
  }

  /** `task` is what `r` asks for, under the caller's id if there is one that is not empty. */
  ghost predicate AsksFor(r: Request, constraints: seq<string>, task: Task, freshId: string) {
    && task.objective == r.objective
    && task.input == r.input
    && task.constraints == constraints
    && task.id == (if r.taskId.Some? && r.taskId.value != "" then r.taskId.value else freshId)
    && (task.risk == None <==> r.risk == None)
    && (task.risk == Some(Low) <==> r.risk == Some("low"))
    && (task.risk == Some(Medium) <==> r.risk == Some("medium"))
    && (task.risk == Some(High) <==> r.risk == Some("high"))
    && (task.risk == Some(Critical) <==> r.risk == Some("critical"))
    && task.deadline == None && task.context == map[]
  }

  lemma NewTaskAsked(cfg: Config, n: nat, r: Request)
    ensures NewTask(cfg, n, r).Ok? <==> KnownRisk(r.risk)
    ensures NewTask(cfg, n, r).Raised? ==> NewTask(cfg, n, r).error.ProtocolError?
    ensures NewTask(cfg, n, r).Ok? ==> AsksFor(r, r.constraints, NewTask(cfg, n, r).value, cfg.taskIdAt(n))
  {
  }

  /** The envelope at position `n` is the core's task envelope for `r`. */
  ghost predicate RecordedRequest(cfg: Config, trace: seq<Envelope>, n: nat, r: Request, constraints: seq<string>) {
    && n < |trace|
    && trace[n].messageType == TaskMessage
    && trace[n].messageId == cfg.messageIdAt(n)
    && trace[n].sender == "agent:00000000000000000000000000000000"
    && trace[n].correlationId == None
    && TaskFromPayload(trace[n].payload).Ok?
    && AsksFor(r, constraints, TaskFromPayload(trace[n].payload).value, cfg.taskIdAt(n))
  }

  /** From `s` to `t` a call for `r` was recorded, after everything before it, and the handlers run
      got exactly the task on record. */
  ghost predicate CarriesRequest(cfg: Config, s: State, t: State, r: Request, constraints: seq<string>) {
    var n := |s.trace|;
    && RecordedRequest(cfg, t.trace, n, r, constraints)
    && t.trace[..n] == s.trace
    && forall c :: c in t.invoked - s.invoked ==>
         c.task == TaskFromPayload(t.trace[n].payload).value && c.moment == n + 1
  }

  lemma GrowthCarries(cfg: Config, s: State, t: State, task: Task, r: Request, constraints: seq<string>)
    requires AsksFor(r, constraints, task, cfg.taskIdAt(|s.trace|))
    requires var s1 := WithRecord(cfg, s, TaskEnvelope(cfg, |s.trace|, task));
             AtMostOneMore(cfg, s1, t) && GrowsFor(cfg, s1, t, task)
    ensures CarriesRequest(cfg, s, t, r, constraints)
  {
    var s1 := WithRecord(cfg, s, TaskEnvelope(cfg, |s.trace|, task));
    assert s1.trace[|s.trace|] == TaskEnvelope(cfg, |s.trace|, task);
    assert t.trace[..|s1.trace|] == s1.trace;
    assert t.trace[|s.trace|] == s1.trace[|s.trace|];
    assert t.trace[..|s.trace|] == s1.trace[..|s.trace|] == s.trace;
    TaskRoundTrip(task);
  }

  /** `route`: a risk outside the four levels is refused before anything happens. Any other request
      is recorded with its objective, input, constraints, risk and id, and the handler gets that
      very task. */
  lemma RouteCarriesRequest(cfg: Config, s: State, ledger: Ledger, r: Request)
    ensures var step := Route(cfg, s, ledger, r);
            && (step.exit.Malformed? <==> !KnownRisk(r.risk))
            && (step.exit.Malformed? ==> step.state == s && step.exit.error.ProtocolError?)
            && (!step.exit.Malformed? ==> CarriesRequest(cfg, s, step.state, r, r.constraints))
  {
    NewTaskAsked(cfg, |s.trace|, r);
    if KnownRisk(r.risk) {
      var task := NewTask(cfg, |s.trace|, r).value;
      var request := TaskEnvelope(cfg, |s.trace|, task);
      var s1 := WithRecord(cfg, s, request);
      RouteRecordsOnce(cfg, s1, ledger, request, task);
      RouteGrows(cfg, s1, ledger, request, task);
      GrowthCarries(cfg, s, RouteTask(cfg, s1, ledger, request, task).state, task, r, r.constraints);
    }
  }

  /** `debate`: without an arbiter or with a risk outside the four levels nothing happens. Any other
      request is recorded with its objective, input, risk and id and no constraints, and every
      handler gets that very task. */
  lemma DebateCarriesRequest(cfg: Config, s: State, d: Debate)
    ensures var step := Deliberate(cfg, s, d);
            && (step.exit.NoArbiter? <==> cfg.arbiter.None?)
            && (step.exit.BadRequest? <==> cfg.arbiter.Some? && !KnownRisk(d.request.risk))
            && (step.exit.NoArbiter? || step.exit.BadRequest? ==> step.state == s)
            && (step.exit.BadRequest? ==> step.exit.error.ProtocolError?)
            && (!step.exit.NoArbiter? && !step.exit.BadRequest? ==> CarriesRequest(cfg, s, step.state, d.request, []))
  {
    var r := d.request.(constraints := []);
    NewTaskAsked(cfg, |s.trace|, r);
    if cfg.arbiter.Some? && KnownRisk(r.risk) {
      var task := NewTask(cfg, |s.trace|, r).value;
      var request := TaskEnvelope(cfg, |s.trace|, task);
      var s1 := WithRecord(cfg, s, request);
      DebateRecordsOnce(cfg, s1, request, task, d);
      DebateGrows(cfg, s1, request, task, d);
      RecordedDebate(cfg, s1, request, task, d);
      GrowthCarries(cfg, s, DebateTask(cfg, s1, request, task, d).state, task, d.request, []);
    }
  }

  lemma RecordedDebate(cfg: Config, s: State, request: Envelope, task: Task, d: Debate)
    requires cfg.arbiter.Some?
    ensures var exit := DebateTask(cfg, s, request, task, d).exit; !exit.NoArbiter? && !exit.BadRequest?
  {
  }
}
