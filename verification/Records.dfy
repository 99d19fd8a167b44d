/** What runs of the orchestrator leave in the trace and in the audit log. */
module Records {
  import opened Lists
  import opened Protocol
  import opened Arbitration
  import opened Agents
  import opened Audit
  import opened Core

  /** One call on a core. `route` sees the lessons store as it is at the time. */
  datatype Op =
    | DoRoute(request: Request, ledger: Ledger)
    | DoDebate(debate: Debate)
    | DoRegister(agent: Agent)
    | DoUnregister(agentId: string)

  function Apply(cfg: Config, s: State, op: Op): State {
    match op
    case DoRoute(r, ledger) => Route(cfg, s, ledger, r).state
    case DoDebate(d) => Deliberate(cfg, s, d).state
    case DoRegister(a) => s.(agents := Registering(s.agents, a))
    case DoUnregister(id) => s.(agents := Unregistering(s.agents, id))
  }

  /** The call ended by an exception it does not handle, after recording its task. */
  predicate Escapes(cfg: Config, s: State, op: Op) {
    match op
    case DoRoute(r, ledger) => Route(cfg, s, ledger, r).exit.Escaped?
    case DoDebate(d) => Deliberate(cfg, s, d).exit.Abandoned?
    case _ => false
  }

  /** A core as constructed, with an empty audit log or none. */
  function Fresh(audited: bool): State {
    State([], [], if audited then Some([]) else None, [], {})
  }

  function Run(cfg: Config, audited: bool, ops: seq<Op>): State {
    if ops == [] then Fresh(audited)
    else Apply(cfg, Run(cfg, audited, ops[..|ops| - 1]), ops[|ops| - 1])
  }

  // The trace

  /** The id of the task a request envelope carries. */
  function TaskIdIn(request: Envelope): Decoded<string> {
    var task :- TaskFromPayload(request.payload);
    Ok(task.id)
  }

  /** `reply` is a reply to `request`, and a result is for the requested task. */
  ghost predicate Replies(request: Envelope, reply: Envelope) {
    && request.messageType == TaskMessage
    && reply.messageType != TaskMessage
    && reply.correlationId == Some(request.messageId)
    && (reply.messageType == ResultMessage ==> StrField(reply.payload, "task_id") == TaskIdIn(request))
  }

  /** What one call appends to the trace: nothing, an unanswered task (exactly if an
      exception escapes), or a task and its reply. */
  ghost predicate SegmentOf(segment: seq<Envelope>, escapes: bool) {
    || (segment == [] && !escapes)
    || (|segment| == 1 && segment[0].messageType == TaskMessage && escapes)
    || (|segment| == 2 && Replies(segment[0], segment[1]) && !escapes)
  }

  lemma ResultReplies(cfg: Config, n: nat, task: Task, sender: string, r: Result)
    requires r.taskId == task.id
    ensures var request := TaskEnvelope(cfg, n, task);
            Replies(request, ReplyTo(cfg, n + 1, request, ResultMessage, sender, ResultToPayload(r)))
  {
    TaskRoundTrip(task);
    ResultPayloadReadsBack(r);
  }

  lemma ServeSegment(cfg: Config, s: State, n: nat, task: Task, agent: Agent)
    requires |s.trace| == n + 1
    ensures var request := TaskEnvelope(cfg, n, task);
            var step := Serve(cfg, s, request, task, agent);
            if step.exit.Replied?
            then step.state.trace == s.trace + [step.exit.envelope] && Replies(request, step.exit.envelope)
            else step.state.trace == s.trace && step.exit.Escaped?
  {
    var h := Handle(agent, task, |s.trace|);
    if h.Answered? {
      ResultReplies(cfg, n, task, agent.agentId, h.result);
    }
  }

  lemma RouteSegment(cfg: Config, s: State, ledger: Ledger, r: Request) returns (segment: seq<Envelope>)
    ensures Route(cfg, s, ledger, r).state.trace == s.trace + segment
    ensures SegmentOf(segment, Route(cfg, s, ledger, r).exit.Escaped?)
  {
    var built := NewTask(cfg, |s.trace|, r);
    if built.Raised? {
      return [];
    }
    var task := built.value;
    var request := TaskEnvelope(cfg, |s.trace|, task);
    var s1 := WithRecord(cfg, s, request);
    var step := RouteTask(cfg, s1, ledger, request, task);
    segment := [request] + if step.exit.Replied? then [step.exit.envelope] else [];
    assert s.trace + [request] + segment[1..] == s.trace + segment;
    var pool := FindByObjective(s1.agents, task.objective);
    if !Gated(cfg, task, |s1.trace|) && pool != [] {
      var best := Chosen(cfg, pool, s1.trace, ledger);
      if best.Ok? {
        ServeSegment(cfg, s1, |s.trace|, task, pool[best.value]);
      }
    }
  }

  /** From the dispatch on, a debate appends one reply, or nothing if an exception escapes. */
  ghost predicate OneReply(s: State, step: Step<DebateExit>, request: Envelope) {
    if step.exit.Abandoned? then step.state.trace == s.trace
    else
      && (step.exit.Decided? || step.exit.Declined?)
      && |step.state.trace| == |s.trace| + 1
      && step.state.trace[..|s.trace|] == s.trace
      && Replies(request, step.state.trace[|s.trace|])
  }

  lemma CandidatesAnswer(pool: seq<Agent>, task: Task, moment: nat)
    requires Dispatch(pool, task, moment).Results?
    ensures forall id :: id in Dispatch(pool, task, moment).results ==>
              Dispatch(pool, task, moment).results[id].taskId == task.id
    ensures forall c :: c in Candidates(pool, Dispatch(pool, task, moment).results) ==> c.result.taskId == task.id
  {
    ResultsAreForTask(pool, task, moment);
    CandidatesFromResults(pool, Dispatch(pool, task, moment).results);
  }

  lemma {:induction false} ResultsAreForTask(pool: seq<Agent>, task: Task, moment: nat)
    requires Dispatch(pool, task, moment).Results?
    ensures forall id :: id in Dispatch(pool, task, moment).results ==>
              Dispatch(pool, task, moment).results[id].taskId == task.id
  {
    if pool == [] {
    } else {
      ResultsAreForTask(pool[..|pool| - 1], task, moment);
    }
  }

  lemma {:induction false} CandidatesFromResults(pool: seq<Agent>, results: map<string, Result>)
    ensures forall c :: c in Candidates(pool, results) ==> c.agentId in results && c.result == results[c.agentId]
    ensures |Candidates(pool, results)| <= |pool|
  {
    if pool == [] {
    } else {
      CandidatesFromResults(pool[..|pool| - 1], results);
    }
  }

  lemma VerdictIsForTask(cfg: Config, task: Task, cs: seq<Candidate>, history: seq<Evidence>)
    requires cfg.arbiter.Some? && cs != [] && forall c :: c in cs ==> c.result.taskId == task.id
    ensures var v := Arbitrate(cfg.arbiter.value, task.id, cs, history);
            v.Ok? && v.value.winningResult.taskId == task.id
  {
    VerdictCharacterised(cfg.arbiter.value, task.id, cs, history);
    var w := Winner(cfg.arbiter.value, cs, history);
    assert cs[w] in cs;
  }

  lemma PublishReply(cfg: Config, s: State, n: nat, task: Task, v: Verdict)
    requires |s.trace| == n + 1 && v.winningResult.taskId == task.id
    ensures var request := TaskEnvelope(cfg, n, task);
            OneReply(s, Publish(cfg, s, request, task, v), request)
  {
    ResultReplies(cfg, n, task, v.winnerAgentId, v.winningResult);
  }

  lemma JudgeReply(
    cfg: Config, s: State, n: nat, task: Task, cs: seq<Candidate>, quorum: Option<int>)
    requires cfg.arbiter.Some? && |s.trace| == n + 1
    requires forall c :: c in cs ==> c.result.taskId == task.id
    ensures OneReply(s, Judge(cfg, s, TaskEnvelope(cfg, n, task), task, cs, quorum), TaskEnvelope(cfg, n, task))
  {
    var history := HistoricalEvidence(s.trace, cfg.clockAt(n + 1));
    if cs != [] && history.Ok? {
      VerdictIsForTask(cfg, task, cs, history.value);
      PublishReply(cfg, s, n, task, Arbitrate(cfg.arbiter.value, task.id, cs, history.value).value);
    }
  }

  lemma DebateAmongReply(
    cfg: Config, s: State, n: nat, task: Task, pool: seq<Agent>, parallel: bool, quorum: Option<int>)
    requires cfg.arbiter.Some? && |s.trace| == n + 1
    ensures var request := TaskEnvelope(cfg, n, task);
            OneReply(s, DebateAmong(cfg, s, request, task, pool, parallel, quorum), request)
  {
    var d := Dispatch(pool, task, |s.trace|);
    if d.Results? {
      CandidatesAnswer(pool, task, |s.trace|);
      var ready := AfterBookkeeping(cfg, AfterDispatch(s, pool, task, parallel), task, pool, d.results);
      JudgeReply(cfg, ready, n, task, Candidates(pool, d.results), quorum);
    }
  }

  lemma DebateTaskReply(cfg: Config, s: State, n: nat, task: Task, d: Debate)
    requires cfg.arbiter.Some? && |s.trace| == n + 1
    ensures var request := TaskEnvelope(cfg, n, task);
            OneReply(s, DebateTask(cfg, s, request, task, d), request)
  {
    var pool := Dispatchable(Invited(s.agents, task.objective, d.agentIds), d.maxCandidates);
    DebateAmongReply(cfg, s, n, task, pool, d.parallel, d.quorum);
  }

  lemma DebateSegment(cfg: Config, s: State, d: Debate) returns (segment: seq<Envelope>)
    ensures Deliberate(cfg, s, d).state.trace == s.trace + segment
    ensures SegmentOf(segment, Deliberate(cfg, s, d).exit.Abandoned?)
  {
    var built := NewTask(cfg, |s.trace|, d.request.(constraints := []));
    if cfg.arbiter.None? || built.Raised? {
      return [];
    }
    var request := TaskEnvelope(cfg, |s.trace|, built.value);
    var s1 := WithRecord(cfg, s, request);
    var step := DebateTask(cfg, s1, request, built.value, d);
    DebateTaskReply(cfg, s1, |s.trace|, built.value, d);
    segment := if step.exit.Abandoned? then [request] else [request, step.state.trace[|s.trace| + 1]];
    SplitLast(s1.trace, step.state.trace, s.trace, segment);
  }

  lemma SplitLast(one: seq<Envelope>, two: seq<Envelope>, base: seq<Envelope>, segment: seq<Envelope>)
    requires 1 <= |segment| <= 2 && one == base + [segment[0]]
    requires |two| == |base| + |segment| && two[..|one|] == one && (|segment| == 2 ==> two[|one|] == segment[1])
    ensures two == base + segment
  {
    assert forall i :: 0 <= i < |one| ==> two[i] == one[i];
  }

  lemma CallSegment(cfg: Config, s: State, op: Op) returns (segment: seq<Envelope>)
    ensures Apply(cfg, s, op).trace == s.trace + segment
    ensures SegmentOf(segment, Escapes(cfg, s, op))
  {
    match op
    case DoRoute(r, ledger) => segment := RouteSegment(cfg, s, ledger, r);
    case DoDebate(d) => segment := DebateSegment(cfg, s, d);
    case DoRegister(a) => segment := [];
    case DoUnregister(id) => segment := [];
  }

  /** Every reply directly follows the task it replies to. */
  ghost predicate RepliesFollow(trace: seq<Envelope>) {
    forall i :: 0 <= i < |trace| && trace[i].messageType != TaskMessage ==> i > 0 && Replies(trace[i - 1], trace[i])
  }

  /** Every task is directly followed by its reply. */
  ghost predicate AllAnswered(trace: seq<Envelope>) {
    forall i :: 0 <= i < |trace| && trace[i].messageType == TaskMessage ==>
      i + 1 < |trace| && Replies(trace[i], trace[i + 1])
  }

  lemma SegmentsAddUp(trace: seq<Envelope>, segment: seq<Envelope>, escapes: bool)
    requires RepliesFollow(trace) && SegmentOf(segment, escapes)
    ensures RepliesFollow(trace + segment)
    ensures AllAnswered(trace + segment) <==> AllAnswered(trace) && !escapes
  {
    var more, n := trace + segment, |trace|;
    assert forall i :: 0 <= i < n ==> more[i] == trace[i];
    if segment != [] {
      assert more[n] == segment[0];
    }
    if |segment| == 2 {
      assert more[n + 1] == segment[1];
    }
    if AllAnswered(more) {
      forall i | 0 <= i < n && trace[i].messageType == TaskMessage ensures i + 1 < n && Replies(trace[i], trace[i + 1]) {
        assert Replies(more[i], more[i + 1]);
      }
    }
  }

  /** No call of a run ended by an exception it does not handle. */
  ghost predicate NoneEscapes(cfg: Config, audited: bool, ops: seq<Op>) {
    ops == []
    || (var before := ops[..|ops| - 1];
        NoneEscapes(cfg, audited, before) && !Escapes(cfg, Run(cfg, audited, before), ops[|ops| - 1]))
  }

  /** After any run every reply directly follows the task it is correlated to, results carry
      that task's id, and the unanswered tasks are those of calls an exception escaped from. */
  lemma {:induction false} PairedUnlessEscaped(cfg: Config, audited: bool, ops: seq<Op>)
    ensures var trace := Run(cfg, audited, ops).trace;
            RepliesFollow(trace) && (AllAnswered(trace) <==> NoneEscapes(cfg, audited, ops))
  {
    if ops == [] {
    } else {
      var before, last := ops[..|ops| - 1], ops[|ops| - 1];
      var s := Run(cfg, audited, before);
      PairedUnlessEscaped(cfg, audited, before);
      var segment := CallSegment(cfg, s, last);
      SegmentsAddUp(s.trace, segment, Escapes(cfg, s, last));
    }
  }

  /** Error replies: the core's own always carry the task's id; an error a handler hands back
      goes out as it is, so its id is the task's exactly if the handler put it there. */
  lemma ErrorReplyTask(cfg: Config, s: State, request: Envelope, task: Task, agent: Agent)
    ensures var exit := Serve(cfg, s, request, task, agent).exit;
            exit.Replied? && exit.envelope.messageType == ErrorMessage ==>
              var h := Handle(agent, task, |s.trace|);
              (StrField(exit.envelope.payload, "task_id") == Ok(task.id) <==> h.Unavailable? || h.error.taskId == task.id)
    ensures forall n, fault :: StrField(FaultEnvelope(cfg, n, request, task, fault).payload, "task_id") == Ok(task.id)
  {
  }

  // The audit log

  /** The log holds the trace entry for entry, and verifies. */
  ghost predicate Matches(cfg: Config, trace: seq<Envelope>, events: seq<AuditEvent<Envelope>>) {
    && |events| == |trace|
    && Verifies(cfg.hasher, events)
    && forall i :: 0 <= i < |trace| ==>
         && events[i].fields.payload == trace[i]
         && events[i].fields.eventType == (match trace[i].messageType
                                           case TaskMessage => "task"
                                           case ResultMessage => "result"
                                           case ErrorMessage => "error")
         && events[i].fields.actor == trace[i].sender
         && events[i].fields.eventId == cfg.eventIdAt(i)
         && events[i].fields.occurredAt == cfg.clockAt(i)
  }

  /** Every envelope has the fresh id of its position. */
  ghost predicate FreshIds(cfg: Config, trace: seq<Envelope>) {
    forall i :: 0 <= i < |trace| ==> trace[i].messageId == cfg.messageIdAt(i)
  }

  ghost predicate Audited(cfg: Config, s: State) {
    FreshIds(cfg, s.trace) && (s.audit.Some? ==> Matches(cfg, s.trace, s.audit.value))
  }

  lemma RecordingMatches(cfg: Config, s: State, env: Envelope)
    requires Audited(cfg, s) && env.messageId == cfg.messageIdAt(|s.trace|)
    ensures Audited(cfg, WithRecord(cfg, s, env))
  {
    if s.audit.Some? {
      VerifiesSnoc(cfg.hasher, s.audit.value, EventFor(cfg, |s.trace|, s.audit.value, env));
    }
  }

  /** `t` has the trace and audit log of `s`, or has recorded one more envelope. */
  ghost predicate AtMostOneMore(cfg: Config, s: State, t: State) {
    || (t.trace == s.trace && t.audit == s.audit)
    || (|t.trace| > 0 && var env := t.trace[|t.trace| - 1];
        && t.trace == WithRecord(cfg, s, env).trace && t.audit == WithRecord(cfg, s, env).audit
        && env.messageId == cfg.messageIdAt(|s.trace|))
  }

  lemma OneMoreAudited(cfg: Config, s: State, t: State)
    requires Audited(cfg, s) && AtMostOneMore(cfg, s, t)
    ensures Audited(cfg, t)
  {
    if t.trace != s.trace {
      RecordingMatches(cfg, s, t.trace[|t.trace| - 1]);
    }
  }

  lemma ServeRecordsOnce(cfg: Config, s: State, request: Envelope, task: Task, agent: Agent)
    ensures AtMostOneMore(cfg, s, Serve(cfg, s, request, task, agent).state)
  {
  }

  lemma RouteRecordsOnce(cfg: Config, s: State, ledger: Ledger, request: Envelope, task: Task)
    ensures AtMostOneMore(cfg, s, RouteTask(cfg, s, ledger, request, task).state)
  {
    var pool := FindByObjective(s.agents, task.objective);
    if pool != [] {
      var best := Chosen(cfg, pool, s.trace, ledger);
      if best.Ok? {
        ServeRecordsOnce(cfg, s, request, task, pool[best.value]);
      }
    }
  }

  lemma JudgeRecordsOnce(
    cfg: Config, s: State, request: Envelope, task: Task, cs: seq<Candidate>, quorum: Option<int>)
    requires cfg.arbiter.Some?
    ensures AtMostOneMore(cfg, s, Judge(cfg, s, request, task, cs, quorum).state)
  {
  }

  lemma DebateAmongRecordsOnce(
    cfg: Config, s: State, request: Envelope, task: Task, pool: seq<Agent>, parallel: bool, quorum: Option<int>)
    requires cfg.arbiter.Some?
    ensures AtMostOneMore(cfg, s, DebateAmong(cfg, s, request, task, pool, parallel, quorum).state)
  {
    var d := Dispatch(pool, task, |s.trace|);
    if d.Results? {
      var ready := AfterBookkeeping(cfg, AfterDispatch(s, pool, task, parallel), task, pool, d.results);
      JudgeRecordsOnce(cfg, ready, request, task, Candidates(pool, d.results), quorum);
    }
  }

  lemma DebateRecordsOnce(cfg: Config, s: State, request: Envelope, task: Task, d: Debate)
    requires cfg.arbiter.Some?
    ensures AtMostOneMore(cfg, s, DebateTask(cfg, s, request, task, d).state)
  {
    var pool := Dispatchable(Invited(s.agents, task.objective, d.agentIds), d.maxCandidates);
    DebateAmongRecordsOnce(cfg, s, request, task, pool, d.parallel, d.quorum);
  }

  lemma CallAudited(cfg: Config, s: State, op: Op)
    requires Audited(cfg, s)
    ensures Audited(cfg, Apply(cfg, s, op))
  {
    var n := |s.trace|;
    match op
    case DoRoute(r, ledger) =>
      var task := NewTask(cfg, n, r);
      if task.Ok? {
        var request := TaskEnvelope(cfg, n, task.value);
        RecordingMatches(cfg, s, request);
        RouteRecordsOnce(cfg, WithRecord(cfg, s, request), ledger, request, task.value);
        OneMoreAudited(cfg, WithRecord(cfg, s, request), Apply(cfg, s, op));
      }
    case DoDebate(d) =>
      var task := NewTask(cfg, n, d.request.(constraints := []));
      if task.Ok? && cfg.arbiter.Some? {
        var request := TaskEnvelope(cfg, n, task.value);
        RecordingMatches(cfg, s, request);
        DebateRecordsOnce(cfg, WithRecord(cfg, s, request), request, task.value, d);
        OneMoreAudited(cfg, WithRecord(cfg, s, request), Apply(cfg, s, op));
      }
    case _ =>
  }

  /** An audit log attached from the start matches the trace after every run, escaped
      exceptions included. */
  lemma {:induction false} AuditMatchesTrace(cfg: Config, ops: seq<Op>)
    ensures var s := Run(cfg, true, ops);
            s.audit.Some? && Matches(cfg, s.trace, s.audit.value)
  {
    RunAudited(cfg, true, ops);
  }

  lemma {:induction false} RunAudited(cfg: Config, audited: bool, ops: seq<Op>)
    ensures var s := Run(cfg, audited, ops);
            Audited(cfg, s) && (s.audit.Some? <==> audited)
  {
    if ops == [] {
    } else {
      var s := Run(cfg, audited, ops[..|ops| - 1]);
      RunAudited(cfg, audited, ops[..|ops| - 1]);
      CallAudited(cfg, s, ops[|ops| - 1]);
      CallKeepsLog(cfg, s, ops[|ops| - 1]);
    }
  }

  /** In every run envelopes have ids of their own, if fresh ids are: so a reply's correlation names one
      envelope only. */
  lemma EnvelopeIdsDistinct(cfg: Config, audited: bool, ops: seq<Op>, i: nat, j: nat)
    requires forall m: nat, n: nat :: m != n ==> cfg.messageIdAt(m) != cfg.messageIdAt(n)
    ensures var trace := Run(cfg, audited, ops).trace;
            i < j < |trace| ==> trace[i].messageId != trace[j].messageId
  {
    RunAudited(cfg, audited, ops);
  }

  lemma CallKeepsLog(cfg: Config, s: State, op: Op)
    ensures Apply(cfg, s, op).audit.Some? <==> s.audit.Some?
  {
    var n := |s.trace|;
    match op
    case DoRoute(r, ledger) =>
      var task := NewTask(cfg, n, r);
      if task.Ok? {
        var request := TaskEnvelope(cfg, n, task.value);
        RouteRecordsOnce(cfg, WithRecord(cfg, s, request), ledger, request, task.value);
      }
    case DoDebate(d) =>
      var task := NewTask(cfg, n, d.request.(constraints := []));
      if task.Ok? && cfg.arbiter.Some? {
        var request := TaskEnvelope(cfg, n, task.value);
        DebateRecordsOnce(cfg, WithRecord(cfg, s, request), request, task.value, d);
      }
    case _ =>
  }

  /** The events of a core's audit log. */
  function LogOf(s: State): seq<AuditEvent<Envelope>> {
    if s.audit.Some? then s.audit.value else []
  }

  lemma LogDeterminesTrace(
    c1: Config, c2: Config, t1: seq<Envelope>, t2: seq<Envelope>, events: seq<AuditEvent<Envelope>>)
    requires Matches(c1, t1, events) && Matches(c2, t2, events)
    ensures t1 == t2
  {
    assert forall i :: 0 <= i < |events| ==> t1[i] == events[i].fields.payload == t2[i];
  }

  /** The head hash commits to everything a core ever recorded: two runs, of cores sharing
      the hash function, with one head and different traces give a genuine break of it. */
  lemma HeadCommitsToTrace(c1: Config, c2: Config, ops1: seq<Op>, ops2: seq<Op>) returns (b: Break<Envelope>)
    requires c1.hasher == c2.hasher
    ensures var s, t := Run(c1, true, ops1), Run(c2, true, ops2);
            Head(LogOf(s)) == Head(LogOf(t)) && s.trace != t.trace ==> Genuine(c1.hasher, b)
  {
    var s, t := Run(c1, true, ops1), Run(c2, true, ops2);
    AuditMatchesTrace(c1, ops1);
    AuditMatchesTrace(c2, ops2);
    b := GenesisPreimage("");
    if Head(LogOf(s)) == Head(LogOf(t)) && s.trace != t.trace {
      if LogOf(s) == LogOf(t) {
        LogDeterminesTrace(c1, c2, s.trace, t.trace, LogOf(s));
      }
      b := FindBreak(c1.hasher, LogOf(s), LogOf(t));
    }
  }
}
