/** The class `NexusCore` (core.py), each method proved to do what the functions of module
    Core say. */
module Orchestrator {
  import opened Lists
  import opened Protocol
  import opened StableSort
  import opened Trust
  import opened Arbitration
  import opened Policy
  import opened Agents
  import opened Audit
  import opened Lessons
  import opened Core
  import opened Records

  class NexusCore {
    const config: Config
    const audit: AuditLog?<Envelope>
    const lessons: LessonStore?
    var agents: seq<Agent>
    var trace: seq<Envelope>
    var edges: seq<Edge>
    /** The handler invocations so far. */
    ghost var invoked: set<Call>

    ghost predicate Valid()
      reads this
    {
      && DistinctIds(agents)
      && (audit != null ==> audit.hasher == config.hasher)
    }

    ghost function View(): State
      reads this, audit
    {
      State(agents, trace, if audit == null then None else Some(audit.events), edges, invoked)
    }

    ghost function OnFile(): Ledger
      reads lessons
    {
      if lessons == null then None else Some(lessons.files)
    }

    constructor (config: Config, audit: AuditLog?<Envelope>, lessons: LessonStore?)
      requires audit != null ==> audit.hasher == config.hasher
      ensures Valid() && this.config == config && this.audit == audit && this.lessons == lessons
      ensures View() == State([], [], if audit == null then None else Some(audit.events), [], {})
      ensures audit == null || audit.events == [] ==> View() == Fresh(audit != null)
    {
      this.config, this.audit, this.lessons := config, audit, lessons;
      agents, trace, edges, invoked := [], [], [], {};
    }

    method Register(agent: Agent)
      requires Valid()
      modifies this`agents
      ensures Valid() && View() == old(View()).(agents := Registering(old(agents), agent))
      ensures View() == Apply(config, old(View()), DoRegister(agent))
    {
      RegistryKeepsDistinct(agents, agent, agent.agentId);
      agents := Registering(agents, agent);
    }

    method Unregister(agentId: string)
      requires Valid()
      modifies this`agents
      ensures Valid() && View() == old(View()).(agents := Unregistering(old(agents), agentId))
      ensures View() == Apply(config, old(View()), DoUnregister(agentId))
    {
      FilterKeepsDistinct(agents, (a: Agent) => a.agentId != agentId);
      agents := Unregistering(agents, agentId);
    }

    method Record(env: Envelope)
      requires Valid()
      modifies this`trace, audit
      ensures Valid() && View() == WithRecord(config, old(View()), env)
    {
      var n := |trace|;
      trace := trace + [env];
      if audit != null {
        var _ := audit.Append(TypeName(env.messageType), env.sender, env, config.eventIdAt(n), config.clockAt(n));
      }
    }

    method AddEdge(edge: Edge)
      modifies this`edges
      ensures edges == old(edges) + Drawn(config, [edge])
    {
      if config.graph {
        edges := edges + [edge];
      }
    }

    method EvidenceOnRecord() returns (r: Decoded<seq<Evidence>>)
      ensures r == HistoricalEvidence(trace, config.clockAt(|trace|))
    {
      var pool: seq<Evidence> := [];
      var now := config.clockAt(|trace|);
      for i := 0 to |trace|
        invariant HistoricalEvidence(trace[..i], now) == Ok(pool)
      {
        HistoryStep(trace, i, now);
        if trace[i].messageType == ResultMessage {
          var items := ArrFieldOrEmpty(trace[i].payload, "evidence");
          if items.Raised? {
            return Raised(items.error);
          }
          var decoded := DecodeItems(items.value, now);
          if decoded.Raised? {
            return Raised(decoded.error);
          }
          pool := pool + decoded.value;
        } else {
          assert pool + [] == pool;
        }
      }
      assert trace[..|trace|] == trace;
      return Ok(pool);
    }

    method ChooseAgent(pool: seq<Agent>) returns (r: Decoded<nat>)
      requires pool != []
      ensures r == Chosen(config, pool, trace, OnFile())
    {
      if config.trust.None? || |pool| == 1 {
        return Ok(0);
      }
      var history := EvidenceOnRecord();
      if history.Raised? {
        return Raised(history.error);
      }
      var best := BestOf(config.trust.value, pool, history.value);
      return Ok(best);
    }

    method ScoreOf(weights: Weights, agentId: string, history: seq<Evidence>) returns (score: real)
      ensures score == Evaluate(weights, agentId, history, RecurrencesOn(OnFile(), agentId)).score >= 0.0
    {
      var recurrences: int := 0;
      if lessons != null {
        recurrences := lessons.RecurrencesOf(agentId);
      }
      ScoreInUnit(weights, agentId, history, recurrences);
      score := Evaluate(weights, agentId, history, recurrences).score;
    }

    method BestOf(weights: Weights, pool: seq<Agent>, history: seq<Evidence>) returns (agent: nat)
      requires pool != []
      ensures agent == LeftmostMaxIndex(Scores(weights, pool, history, OnFile()))
    {
      ghost var scores := Scores(weights, pool, history, OnFile());
      agent := 0;
      var bestScore := -1.0;
      for k := 0 to |pool|
        invariant BestSoFar(scores, k, agent, bestScore)
      {
        var score := ScoreOf(weights, pool[k].agentId, history);
        assert scores[k] == score;
        BestStep(scores, k, agent, bestScore);
        if score > bestScore {
          agent, bestScore := k, score;
        }
      }
      BestFound(scores, agent, bestScore);
    }

    method AddAnswerEdges(taskId: string, agentId: string, result: Result)
      modifies this`edges
      ensures edges == old(edges) + Drawn(config, AnswerEdges(config, |old(edges)|, taskId, agentId, result))
    {
      AddEdge(ProducedEdge(taskId, agentId, result));
      ghost var start := edges;
      var es := result.evidence;
      for i := 0 to |es|
        invariant edges == start + Drawn(config, SupportEdges(config, |start|, taskId, es[..i]))
      {
        DrawnSupportStep(config, start, taskId, es, i);
        AddEdge(SupportEdge(config, |edges|, taskId, es[i]));
      }
      assert es[..|es|] == es;
      DrawnAnswer(config, old(edges), taskId, agentId, result);
    }

    /** The handler's turn in `route`. */
    method ServeTask(request: Envelope, task: Task, agent: Agent) returns (exit: RouteExit)
      requires Valid()
      modifies this, audit
      ensures Valid() && Step(View(), exit) == Serve(config, old(View()), request, task, agent)
    {
      var n, id := |trace|, agent.agentId;
      AddEdge(RoutedEdge(task.id, id));
      invoked := invoked + {Call(id, task, n)};
      var reply: Envelope;
      match Handle(agent, task, n) {
        case Answered(result) =>
          AddAnswerEdges(task.id, id, result);
          reply := ReplyTo(config, n, request, ResultMessage, id, ResultToPayload(result));
        case Unavailable(why) =>
          var payload := ErrorToPayload(ErrorPayload(task.id, "capability_unavailable", why, false));
          reply := ReplyTo(config, n, request, ErrorMessage, id, payload);
        case Failed(e) =>
          reply := ReplyTo(config, n, request, ErrorMessage, id, ErrorToPayload(e));
        case TimedOut(why) =>
          return Escaped(FromHandler(why));
        case Crashed(why) =>
          return Escaped(FromHandler(why));
      }
      Record(reply);
      return Replied(reply);
    }

    method Route(r: Request) returns (exit: RouteExit)
      requires Valid()
      modifies this, audit
      ensures Valid() && Step(View(), exit) == Core.Route(config, old(View()), old(OnFile()), r)
      ensures View() == Apply(config, old(View()), DoRoute(r, old(OnFile())))
    {
      var built := NewTask(config, |trace|, r);
      if built.Raised? {
        return Malformed(built.error);
      }
      var task := built.value;
      var request := TaskEnvelope(config, |trace|, task);
      Record(request);
      exit := RouteRecorded(request, task);
    }

    method RouteRecorded(request: Envelope, task: Task) returns (exit: RouteExit)
      requires Valid()
      modifies this, audit
      ensures Valid() && Step(View(), exit) == RouteTask(config, old(View()), old(OnFile()), request, task)
    {
      var n := |trace|;
      if config.policy.Some? {
        var gate := config.policy.value.Evaluate(task, n);
        if gate.Broke? {
          return Escaped(FromApprover(gate.why));
        }
        if gate.decision.action != Allow {
          var blocked := FaultEnvelope(config, n, request, task, PolicyBlocked(gate.decision));
          Record(blocked);
          return Replied(blocked);
        }
      }
      var pool := FindByObjective(agents, task.objective);
      if pool == [] {
        var missing := FaultEnvelope(config, n, request, task, NoAgent(task.objective));
        Record(missing);
        return Replied(missing);
      }
      var best := ChooseAgent(pool);
      if best.Raised? {
        return Escaped(UnreadableHistory(best.error));
      }
      exit := ServeTask(request, task, pool[best.value]);
    }

    method DispatchSequential(pool: seq<Agent>, task: Task) returns (d: Dispatched)
      modifies this`invoked
      ensures d == Dispatch(pool, task, |trace|)
      ensures invoked == old(invoked) + InvokedBy(pool, task, |trace|, false)
    {
      var results: map<string, Result> := map[];
      for i := 0 to |pool|
        invariant Dispatch(pool[..i], task, |trace|) == Results(results)
        invariant invoked == old(invoked) + InvokedBy(pool[..i], task, |trace|, false)
      {
        DispatchStep(pool, i, task, |trace|);
        var id := pool[i].agentId;
        invoked := invoked + {Call(id, task, |trace|)};
        match Handle(pool[i], task, |trace|) {
          case Answered(result) => results := results[id := result];
          case Crashed(why) => return Interrupted(why);
          case _ =>
        }
      }
      assert pool[..|pool|] == pool;
      return Results(results);
    }

    /** Every handler is submitted at once and may finish at any time; the collecting loop
        waits for the futures in pool order, and leaving the executor waits for the rest. */
    method DispatchParallel(pool: seq<Agent>, task: Task) returns (d: Dispatched)
      requires pool != []
      modifies this`invoked
      ensures d == Dispatch(pool, task, |trace|)
      ensures invoked == old(invoked) + InvokedBy(pool, task, |trace|, true)
    {
      var n := |trace|;
      invoked := invoked + InvokedBy(pool, task, n, true);
      var futures: seq<Option<Handled>> := seq(|pool|, _ => None);
      d := Results(map[]);
      var i := 0;
      while i < |pool| && d.Results?
        invariant i <= |pool| == |futures|
        invariant FuturesRight(pool, task, n, futures)
        invariant d == Dispatch(pool[..i], task, n)
        invariant invoked == old(invoked) + InvokedBy(pool, task, n, true)
      {
        futures := WaitFor(pool, task, n, futures, i);
        DispatchStep(pool, i, task, n);
        d := Collecting(d, pool[i].agentId, futures[i].value);
        i := i + 1;
      }
      if d.Interrupted? {
        DispatchInterrupted(pool, i, task, n);
      } else {
        assert pool[..|pool|] == pool;
      }
    }

    method DeclineDebate(request: Envelope, task: Task, fault: Fault) returns (exit: DebateExit)
      requires Valid()
      modifies this, audit
      ensures Valid() && Step(View(), exit) == Decline(config, old(View()), request, task, fault)
    {
      Record(FaultEnvelope(config, |trace|, request, task, fault));
      return Declined(fault);
    }

    method AddCandidateEdges(taskId: string, agentId: string, results: map<string, Result>)
      modifies this`edges
      ensures edges == old(edges) + Drawn(config, CandidateEdges(config, |old(edges)|, taskId, agentId, results))
    {
      AddEdge(RoutedEdge(taskId, agentId));
      if agentId in results {
        ghost var more := AnswerEdges(config, |edges|, taskId, agentId, results[agentId]);
        ConcatAssociates(old(edges), Drawn(config, [RoutedEdge(taskId, agentId)]), Drawn(config, more));
        AddAnswerEdges(taskId, agentId, results[agentId]);
      }
    }

    /** The loop that turns the result map into candidates and edges, in pool order. */
    method Bookkeep(task: Task, pool: seq<Agent>, results: map<string, Result>) returns (candidates: seq<Candidate>)
      requires Valid()
      modifies this`edges
      ensures Valid() && View() == AfterBookkeeping(config, old(View()), task, pool, results)
      ensures candidates == Candidates(pool, results)
    {
      candidates := [];
      for i := 0 to |pool|
        invariant edges == old(edges) + Drawn(config, PoolEdges(config, |old(edges)|, task.id, pool[..i], results))
        invariant candidates == Candidates(pool[..i], results)
      {
        var id := pool[i].agentId;
        CandidatesStep(pool, i, results);
        DrawnPoolStep(config, old(edges), task.id, pool, i, results);
        AddCandidateEdges(task.id, id, results);
        if id in results {
          candidates := candidates + [Candidate(id, results[id])];
        }
      }
      assert pool[..|pool|] == pool;
    }

    /** Runs the handlers; `Debate` calls it once the pool is fixed. */
    method DispatchTo(task: Task, pool: seq<Agent>, parallel: bool) returns (d: Dispatched)
      requires Valid() && (parallel ==> pool != [])
      modifies this`invoked
      ensures Valid() && View() == AfterDispatch(old(View()), pool, task, parallel)
      ensures d == Dispatch(pool, task, |trace|)
    {
      if parallel {
        d := DispatchParallel(pool, task);
      } else {
        d := DispatchSequential(pool, task);
      }
    }

    method JudgeCandidates(request: Envelope, task: Task, candidates: seq<Candidate>, quorum: Option<int>)
      returns (exit: DebateExit)
      requires Valid() && config.arbiter.Some?
      modifies this, audit
      ensures Valid() && Step(View(), exit) == Judge(config, old(View()), request, task, candidates, quorum)
    {
      if candidates == [] {
        exit := DeclineDebate(request, task, NoUsableCandidate(task.objective));
        return;
      }
      if quorum.Some? && |candidates| < quorum.value {
        exit := DeclineDebate(request, task, QuorumNotMet(|candidates|, quorum.value, task.objective));
        return;
      }
      var history := EvidenceOnRecord();
      if history.Raised? {
        return Abandoned(UnreadableHistory(history.error));
      }
      var verdict := Arbitrate(config.arbiter.value, task.id, candidates, history.value);
      if verdict.Raised? {
        return Abandoned(FromArbiter(verdict.error));
      }
      exit := PublishVerdict(request, task, verdict.value);
    }

    method PublishVerdict(request: Envelope, task: Task, verdict: Verdict) returns (exit: DebateExit)
      requires Valid()
      modifies this, audit
      ensures Valid() && Step(View(), exit) == Publish(config, old(View()), request, task, verdict)
    {
      if config.conflictPolicy.Some? {
        var gate := config.conflictPolicy.value.Evaluate(verdict, |trace|);
        if gate.Broke? {
          return Abandoned(FromConflictApprover(gate.why));
        }
        if gate.decision.action != Allow {
          exit := DeclineDebate(request, task, ConflictNotApproved(gate.decision.reason, verdict));
          return;
        }
      }
      AddEdge(WonEdge(task.id, verdict.winnerAgentId));
      var payload := ResultToPayload(verdict.winningResult);
      Record(ReplyTo(config, |trace|, request, ResultMessage, verdict.winnerAgentId, payload));
      return Decided(verdict);
    }

    method DebatePool(request: Envelope, task: Task, pool: seq<Agent>, parallel: bool, quorum: Option<int>)
      returns (exit: DebateExit)
      requires Valid() && config.arbiter.Some?
      modifies this, audit
      ensures Valid() && Step(View(), exit) == DebateAmong(config, old(View()), request, task, pool, parallel, quorum)
    {
      if parallel && pool == [] {
        return Abandoned(NoWorkers);
      }
      var dispatched := DispatchTo(task, pool, parallel);
      if dispatched.Interrupted? {
        return Abandoned(FromHandler(dispatched.why));
      }
      var candidates := Bookkeep(task, pool, dispatched.results);
      exit := JudgeCandidates(request, task, candidates, quorum);
    }

    method DebateRecorded(request: Envelope, task: Task, d: Debate) returns (exit: DebateExit)
      requires Valid() && config.arbiter.Some?
      modifies this, audit
      ensures Valid() && Step(View(), exit) == DebateTask(config, old(View()), request, task, d)
    {
      if config.policy.Some? {
        var gate := config.policy.value.Evaluate(task, |trace|);
        if gate.Broke? {
          return Abandoned(FromApprover(gate.why));
        }
        if gate.decision.action != Allow {
          exit := DeclineDebate(request, task, PolicyBlocked(gate.decision));
          return;
        }
      }
      var pool := Invited(agents, task.objective, d.agentIds);
      if pool == [] {
        exit := DeclineDebate(request, task, NoAgent(task.objective));
        return;
      }
      exit := DebatePool(request, task, Dispatchable(pool, d.maxCandidates), d.parallel, d.quorum);
    }

    method Debate(d: Debate) returns (exit: DebateExit)
      requires Valid()
      modifies this, audit
      ensures Valid() && Step(View(), exit) == Deliberate(config, old(View()), d)
      ensures View() == Apply(config, old(View()), DoDebate(d))
    {
      if config.arbiter.None? {
        return NoArbiter;
      }
      var built := NewTask(config, |trace|, d.request.(constraints := []));
      if built.Raised? {
        return BadRequest(built.error);
      }
      var request := TaskEnvelope(config, |trace|, built.value);
      Record(request);
      exit := DebateRecorded(request, built.value, d);
    }
  }

  lemma CandidatesStep(pool: seq<Agent>, i: nat, results: map<string, Result>)
    requires i < |pool|
    ensures var id := pool[i].agentId;
            Candidates(pool[..i + 1], results)
            == if id in results then Candidates(pool[..i], results) + [Candidate(id, results[id])]
               else Candidates(pool[..i], results)
  {
    assert pool[..i + 1][..i] == pool[..i];
  }

  lemma DrawnSupportStep(cfg: Config, start: seq<Edge>, taskId: string, es: seq<Evidence>, i: nat)
    requires i < |es|
    ensures var before := start + Drawn(cfg, SupportEdges(cfg, |start|, taskId, es[..i]));
            start + Drawn(cfg, SupportEdges(cfg, |start|, taskId, es[..i + 1]))
            == before + Drawn(cfg, [SupportEdge(cfg, |before|, taskId, es[i])])
  {
    assert es[..i + 1] == es[..i] + [es[i]];
    if cfg.graph {
      LaidOutAfter(start, es[..i], es[i], (k: nat, e: Evidence) => [SupportEdge(cfg, k, taskId, e)]);
    }
  }

  lemma DrawnAnswer(cfg: Config, before: seq<Edge>, taskId: string, agentId: string, r: Result)
    ensures var start := before + Drawn(cfg, [ProducedEdge(taskId, agentId, r)]);
            start + Drawn(cfg, SupportEdges(cfg, |start|, taskId, r.evidence))
            == before + Drawn(cfg, AnswerEdges(cfg, |before|, taskId, agentId, r))
  {
    if cfg.graph {
      ConcatAssociates(
        before, [ProducedEdge(taskId, agentId, r)], SupportEdges(cfg, |before| + 1, taskId, r.evidence));
    }
  }

  lemma DrawnPoolStep(
    cfg: Config, start: seq<Edge>, taskId: string, pool: seq<Agent>, i: nat, results: map<string, Result>)
    requires i < |pool|
    ensures var before := start + Drawn(cfg, PoolEdges(cfg, |start|, taskId, pool[..i], results));
            start + Drawn(cfg, PoolEdges(cfg, |start|, taskId, pool[..i + 1], results))
            == before + Drawn(cfg, CandidateEdges(cfg, |before|, taskId, pool[i].agentId, results))
  {
    assert pool[..i + 1] == pool[..i] + [pool[i]];
    if cfg.graph {
      LaidOutAfter(start, pool[..i], pool[i], (k: nat, a: Agent) => CandidateEdges(cfg, k, taskId, a.agentId, results));
    }
  }

  /** Every future that is done holds what its handler comes to. */
  ghost predicate FuturesRight(pool: seq<Agent>, task: Task, moment: nat, futures: seq<Option<Handled>>) {
    && |futures| == |pool|
    && forall i :: 0 <= i < |pool| && futures[i].Some? ==> futures[i].value == Handle(pool[i], task, moment)
  }

  function Running(futures: seq<Option<Handled>>): set<nat> {
    set i | 0 <= i < |futures| && futures[i].None?
  }

  /** Blocks on future `i` while handlers finish in whatever order they do. */
  method WaitFor(pool: seq<Agent>, task: Task, moment: nat, futures: seq<Option<Handled>>, i: nat)
    returns (later: seq<Option<Handled>>)
    requires i < |pool| && FuturesRight(pool, task, moment, futures)
    ensures FuturesRight(pool, task, moment, later) && later[i].Some?
  {
    later := futures;
    while later[i].None?
      invariant FuturesRight(pool, task, moment, later)
      decreases Running(later)
    {
      var j :| 0 <= j < |pool| && later[j].None?;
      ghost var before := later;
      later := later[j := Some(Handle(pool[j], task, moment))];
      assert Running(later) == Running(before) - {j};
    }
  }

  lemma DispatchStep(pool: seq<Agent>, i: nat, task: Task, moment: nat)
    requires i < |pool|
    ensures Dispatch(pool[..i + 1], task, moment)
            == Collecting(Dispatch(pool[..i], task, moment), pool[i].agentId, Handle(pool[i], task, moment))
    ensures Dispatch(pool[..i], task, moment).Results? ==>
              InvokedBy(pool[..i + 1], task, moment, false)
              == InvokedBy(pool[..i], task, moment, false) + {Call(pool[i].agentId, task, moment)}
    ensures Dispatch(pool[..i + 1], task, moment).Interrupted? ==>
              && Dispatch(pool, task, moment) == Dispatch(pool[..i + 1], task, moment)
              && InvokedBy(pool, task, moment, false) == InvokedBy(pool[..i + 1], task, moment, false)
  {
    assert pool[..i + 1][..i] == pool[..i];
    if Dispatch(pool[..i + 1], task, moment).Interrupted? {
      DispatchInterrupted(pool, i + 1, task, moment);
    }
  }

  lemma {:induction false} DispatchInterrupted(pool: seq<Agent>, n: nat, task: Task, moment: nat)
    requires n <= |pool| && Dispatch(pool[..n], task, moment).Interrupted?
    ensures Dispatch(pool, task, moment) == Dispatch(pool[..n], task, moment)
    ensures InvokedBy(pool, task, moment, false) == InvokedBy(pool[..n], task, moment, false)
  {
    if n < |pool| {
      assert pool[..|pool| - 1][..n] == pool[..n];
      DispatchInterrupted(pool[..|pool| - 1], n, task, moment);
    } else {
      assert pool[..n] == pool;
    }
  }

  lemma HistoryStep(trace: seq<Envelope>, i: nat, now: string)
    requires i < |trace| && HistoricalEvidence(trace[..i], now).Ok?
    ensures var before, last := HistoricalEvidence(trace[..i], now).value, EvidenceIn(trace[i], now);
            && (last.Ok? ==> HistoricalEvidence(trace[..i + 1], now) == Ok(before + last.value))
            && (last.Raised? ==> HistoricalEvidence(trace, now) == Raised(last.error))
  {
    assert trace[..i + 1][..i] == trace[..i];
    if EvidenceIn(trace[i], now).Raised? {
      HistoryRaises(trace, i + 1, now);
    }
  }

  lemma {:induction false} HistoryRaises(trace: seq<Envelope>, n: nat, now: string)
    requires n <= |trace| && HistoricalEvidence(trace[..n], now).Raised?
    ensures HistoricalEvidence(trace, now) == Raised(HistoricalEvidence(trace[..n], now).error)
  {
    if n < |trace| {
      assert trace[..|trace| - 1][..n] == trace[..n];
      HistoryRaises(trace[..|trace| - 1], n, now);
    } else {
      assert trace[..n] == trace;
    }
  }

  method DecodeItems(items: seq<Json>, now: string) returns (r: Decoded<seq<Evidence>>)
    ensures r == EvidenceListFromJson(items, now)
  {
    ghost var decode := (item: Json) => EvidenceFromJson(item, now);
    var decoded: seq<Evidence> := [];
    for i := 0 to |items|
      invariant DecodeList(items[..i], decode) == Ok(decoded)
    {
      DecodeListStep(items, i, decode);
      var e := EvidenceFromJson(items[i], now);
      if e.Raised? {
        return Raised(e.error);
      }
      decoded := decoded + [e.value];
    }
    assert items[..|items|] == items;
    return Ok(decoded);
  }

  /** The loop variables of the search for the best score, after `k` candidates. */
  ghost predicate BestSoFar(scores: seq<real>, k: nat, agent: nat, bestScore: real) {
    && k <= |scores|
    && (k == 0 ==> agent == 0 && bestScore == -1.0)
    && (k > 0 ==> LeftmostMax(scores[..k], agent) && bestScore == scores[agent])
  }

  lemma BestStep(scores: seq<real>, k: nat, agent: nat, bestScore: real)
    requires k < |scores| && scores[k] >= 0.0 && BestSoFar(scores, k, agent, bestScore)
    ensures if scores[k] > bestScore then BestSoFar(scores, k + 1, k, scores[k])
            else BestSoFar(scores, k + 1, agent, bestScore)
  {
    assert scores[..k + 1][..k] == scores[..k];
  }

  lemma BestFound(scores: seq<real>, agent: nat, bestScore: real)
    requires scores != [] && BestSoFar(scores, |scores|, agent, bestScore)
    ensures agent == LeftmostMaxIndex(scores)
  {
    assert scores[..|scores|] == scores;
    LeftmostMaxUnique(scores, agent, LeftmostMaxIndex(scores));
  }

  lemma LeftmostMaxUnique(scores: seq<real>, i: int, j: int)
    requires LeftmostMax(scores, i) && LeftmostMax(scores, j)
    ensures i == j
  {
    var x, y := scores[i], scores[j];
  }
}
