/** Which agent `route` picks. */
module Routing {
  import opened Lists
  import opened Protocol
  import opened StableSort
  import opened Trust
  import opened Arbitration
  import opened Lessons
  import opened Agents
  import opened Core
  import opened Records
  import opened History
  import opened Requests

  // Selection

  function Ids(pool: seq<Agent>): seq<string> {
    Map(pool, (a: Agent) => a.agentId)
  }

  ghost predicate AllEqual(scores: seq<real>) {
    forall i, j :: 0 <= i < |scores| && 0 <= j < |scores| ==> scores[i] == scores[j]
  }

  lemma SelectionIsLeftmostMax(
    cfg: Config, pool: seq<Agent>, trace: seq<Envelope>, ledger: Ledger, history: seq<Evidence>) returns (best: nat)
    requires pool != [] && HistoricalEvidence(trace, cfg.clockAt(|trace|)) == Ok(history)
    ensures Chosen(cfg, pool, trace, ledger) == Ok(best)
    ensures if cfg.trust.None? then best == 0 else LeftmostMax(Scores(cfg.trust.value, pool, history, ledger), best)
  {
    best := Chosen(cfg, pool, trace, ledger).value;
  }

  lemma EqualScoresFirst(scores: seq<real>, best: int)
    requires LeftmostMax(scores, best) && AllEqual(scores)
    ensures best == 0
  {
    var first := scores[0];
  }

  /** The best-score loop picks the leftmost candidate of greatest score. That is the first
      match when trust is off and when all scores are equal, and without a lessons store it
      is the head of the ranking of the candidates. */
  lemma RouteSelection(cfg: Config, pool: seq<Agent>, trace: seq<Envelope>, ledger: Ledger, history: seq<Evidence>)
    returns (best: nat)
    requires pool != [] && HistoricalEvidence(trace, cfg.clockAt(|trace|)) == Ok(history)
    ensures Chosen(cfg, pool, trace, ledger) == Ok(best) && best < |pool|
    ensures cfg.trust.None? ==> best == 0
    ensures cfg.trust.Some? ==> LeftmostMax(Scores(cfg.trust.value, pool, history, ledger), best)
    ensures cfg.trust.Some? && AllEqual(Scores(cfg.trust.value, pool, history, ledger)) ==> best == 0
    ensures cfg.trust.Some? && ledger.None? ==>
              && Rank(cfg.trust.value, Ids(pool), history) != []
              && Rank(cfg.trust.value, Ids(pool), history)[0].agentId == pool[best].agentId
  {
    best := SelectionIsLeftmostMax(cfg, pool, trace, ledger, history);
    if cfg.trust.Some? {
      var scores := Scores(cfg.trust.value, pool, history, ledger);
      if AllEqual(scores) {
        EqualScoresFirst(scores, best);
      }
      if ledger.None? {
        RankHead(cfg.trust.value, pool, history, best);
      }
    }
  }

  /** A registered agent's score: on the evidence `history`, and on the recurrences the lessons store,
      if any, has of it. */
  function ScoreOf(weights: Weights, a: Agent, history: seq<Evidence>, ledger: Ledger): real {
    Evaluate(weights, a.agentId, history, if ledger.None? then 0 else RecurrencesFor(ledger.value, a.agentId)).score
  }

  /** Agent `i` is the pick for an objective: it handles it, and of those that do it is the first, with
      trust off, or else the first of those with the greatest score. */
  ghost predicate PickedFor(
    cfg: Config, agents: seq<Agent>, objective: string, history: seq<Evidence>, ledger: Ledger, i: nat)
  {
    && i < |agents|
    && objective in agents[i].handlers
    && forall j :: 0 <= j < |agents| && objective in agents[j].handlers ==>
         if cfg.trust.None? then i <= j
         else
           var mine, other := ScoreOf(cfg.trust.value, agents[i], history, ledger),
                              ScoreOf(cfg.trust.value, agents[j], history, ledger);
           other <= mine && (j < i ==> other < mine)
  }

  lemma CountedBefore<T>(xs: seq<T>, keep: T -> bool, j: nat, i: nat)
    requires j < i < |xs| && keep(xs[j])
    ensures Count(xs[..j], keep) < Count(xs[..i], keep)
  {
    assert xs[..i][..j + 1] == xs[..j] + [xs[j]];
    CountSnoc(xs[..j], xs[j], keep);
    CountMonotone(xs[..i], j + 1, keep);
  }

  /** The leftmost maximum of the candidates, by its place among all agents. */
  lemma PickAmongAll(
    cfg: Config, agents: seq<Agent>, objective: string, history: seq<Evidence>, ledger: Ledger, best: nat)
    returns (i: nat)
    requires best < |FindByObjective(agents, objective)|
    requires if cfg.trust.None? then best == 0
             else LeftmostMax(Scores(cfg.trust.value, FindByObjective(agents, objective), history, ledger), best)
    ensures PickedFor(cfg, agents, objective, history, ledger, i)
    ensures FindByObjective(agents, objective)[best] == agents[i]
  {
    var handles := (a: Agent) => objective in a.handlers;
    var pool := FindByObjective(agents, objective);
    i := FilterSource(agents, handles, best);
    forall j | 0 <= j < |agents| && objective in agents[j].handlers
      ensures if cfg.trust.None? then i <= j
              else
                var mine, other := ScoreOf(cfg.trust.value, agents[i], history, ledger),
                                   ScoreOf(cfg.trust.value, agents[j], history, ledger);
                other <= mine && (j < i ==> other < mine)
    {
      FilterAt(agents, handles, j);
      var k := Count(agents[..j], handles);
      assert pool[k] == agents[j];
      if j < i {
        CountedBefore(agents, handles, j, i);
      } else if i < j {
        CountedBefore(agents, handles, i, j);
      }
      if cfg.trust.Some? {
        var scores := Scores(cfg.trust.value, pool, history, ledger);
        assert scores[k] == ScoreOf(cfg.trust.value, agents[j], history, ledger);
        assert scores[best] == ScoreOf(cfg.trust.value, agents[i], history, ledger);
      }
    }
  }

  /** From `s` to `t` a `route` call for `r` went, on the evidence `history`, to agent `i`: with nobody
      to handle its objective, or a task the policy does not let through, no handler is run; else
      the pick's alone, on the task recorded. */
  ghost predicate RoutedOn(
    cfg: Config, s: State, t: State, ledger: Ledger, r: Request, history: seq<Evidence>, i: nat)
    requires KnownRisk(r.risk)
  {
    var n := |s.trace|;
    var task := NewTask(cfg, n, r).value;
    if !Gated(cfg, task, n + 1) && exists a :: a in s.agents && r.objective in a.handlers
    then
      && PickedFor(cfg, s.agents, r.objective, history, ledger, i)
      && t.invoked == s.invoked + {Call(s.agents[i].agentId, task, n + 1)}
    else t.invoked == s.invoked
  }

  /** The agent a run's `route` call goes to: of the registered agents that handle its objective the
      first with trust off, else the first of greatest score on the evidence of the results
      returned and declared winning by the calls before. */
  lemma RoutedInRuns(cfg: Config, audited: bool, ops: seq<Op>, ledger: Ledger, r: Request) returns (i: nat)
    ensures var s := Run(cfg, audited, ops);
            KnownRisk(r.risk) ==>
              RoutedOn(cfg, s, Route(cfg, s, ledger, r).state, ledger, r, Contributions(cfg, audited, ops), i)
  {
    var s := Run(cfg, audited, ops);
    i := 0;
    NewTaskAsked(cfg, |s.trace|, r);
    if KnownRisk(r.risk) {
      var task := NewTask(cfg, |s.trace|, r).value;
      var now := cfg.clockAt(|s.trace| + 1);
      HistoryIsContributions(cfg, audited, ops, now);
      OtherAddsNothing(cfg, s, TaskEnvelope(cfg, |s.trace|, task), now);
      i := RouteOnHistory(cfg, s, ledger, r, task, Contributions(cfg, audited, ops));
    }
  }

  lemma RouteOnHistory(cfg: Config, s: State, ledger: Ledger, r: Request, task: Task, history: seq<Evidence>)
    returns (i: nat)
    requires KnownRisk(r.risk) && NewTask(cfg, |s.trace|, r) == Ok(task)
    requires HistoricalEvidence(WithRecord(cfg, s, TaskEnvelope(cfg, |s.trace|, task)).trace, cfg.clockAt(|s.trace| + 1))
             == Ok(history)
    ensures RoutedOn(cfg, s, Route(cfg, s, ledger, r).state, ledger, r, history, i)
  {
    var s1, pool := WithRecord(cfg, s, TaskEnvelope(cfg, |s.trace|, task)), FindByObjective(s.agents, r.objective);
    NothingKept(s.agents, (a: Agent) => r.objective in a.handlers);
    RouteInvokes(cfg, s, ledger, r);
    i := 0;
    if pool != [] {
      var best := RouteSelection(cfg, pool, s1.trace, ledger, history);
      i := PickAmongAll(cfg, s.agents, r.objective, history, ledger, best);
    }
  }

  lemma RouteInvokes(cfg: Config, s: State, ledger: Ledger, r: Request)
    requires NewTask(cfg, |s.trace|, r).Ok?
    ensures var task := NewTask(cfg, |s.trace|, r).value;
            var agent := RoutedAgent(cfg, WithRecord(cfg, s, TaskEnvelope(cfg, |s.trace|, task)), ledger, task);
            Route(cfg, s, ledger, r).state.invoked
            == if agent.Some? then s.invoked + {Call(agent.value.agentId, task, |s.trace| + 1)} else s.invoked
  {
    var task := NewTask(cfg, |s.trace|, r).value;
    var request := TaskEnvelope(cfg, |s.trace|, task);
    TaskInvokes(cfg, WithRecord(cfg, s, request), ledger, request, task);
  }

  lemma TaskInvokes(cfg: Config, s: State, ledger: Ledger, request: Envelope, task: Task)
    ensures var agent := RoutedAgent(cfg, s, ledger, task);
            RouteTask(cfg, s, ledger, request, task).state.invoked
            == if agent.Some? then s.invoked + {Call(agent.value.agentId, task, |s.trace|)} else s.invoked
  {
  }

  lemma RankHead(weights: Weights, pool: seq<Agent>, history: seq<Evidence>, best: nat)
    requires LeftmostMax(Scores(weights, pool, history, None), best)
    ensures Rank(weights, Ids(pool), history) != []
    ensures Rank(weights, Ids(pool), history)[0].agentId == pool[best].agentId
  {
    var evaluated := Map(Ids(pool), (a: string) => Evaluate(weights, a, history, 0));
    var key := (s: TrustScore) => s.score;
    assert Map(evaluated, key) == Scores(weights, pool, history, None);
    HeadIsLeftmostMax(evaluated, key, best);
  }

  /** No agent is picked for its lessons: if they get worse for others only, the agent that
      was picked stays picked. */
  lemma RecurrencesNeverHelp(
    weights: Weights, pool: seq<Agent>, history: seq<Evidence>, before: Ledger, after: Ledger, best: nat)
    requires LeftmostMax(Scores(weights, pool, history, before), best)
    requires forall a :: a in pool ==> RecurrencesOn(before, a.agentId) <= RecurrencesOn(after, a.agentId)
    requires RecurrencesOn(before, pool[best].agentId) == RecurrencesOn(after, pool[best].agentId)
    ensures LeftmostMax(Scores(weights, pool, history, after), best)
  {
    var old', new' := Scores(weights, pool, history, before), Scores(weights, pool, history, after);
    forall i | 0 <= i < |pool| ensures new'[i] <= old'[i] {
      assert pool[i] in pool;
      var id := pool[i].agentId;
      RecurrencesOnlyLower(weights, id, history, RecurrencesOn(before, id), RecurrencesOn(after, id));
    }
  }

  /** A lesson moves the pick: two agents with one verbatim entry of full confidence each, and a
      store with one repeated lesson against the first. */
  lemma LessonMovesPick(cfg: Config, e: Evidence, l: Lesson, objective: string, h: Handler)
    requires cfg.trust == Some(map[]) && e.transformation == ExtractedVerbatim && e.confidence == 1.0
    requires l.agentId == Some("agent:a") && l.recurrences == 1
    ensures var agents := [Agent("agent:a", map[objective := h]), Agent("agent:b", map[objective := h])];
            var history := [e.(agentId := "agent:a"), e.(agentId := "agent:b")];
            && PickedFor(cfg, agents, objective, history, None, 0)
            && PickedFor(cfg, agents, objective, history, Some(map["s" := l]), 1)
  {
    var a, b := Agent("agent:a", map[objective := h]), Agent("agent:b", map[objective := h]);
    var x, y := e.(agentId := "agent:a"), e.(agentId := "agent:b");
    var agents, history := [a, b], [x, y];
    assert [] + [x] + [y] == history && [x] + [y] + [] == history;
    forall n: nat | n <= 1 ensures Evaluate(map[], "agent:a", history, n).score == 1.0 - n as real / 20.0 {
      FullEntryScore(x, [], [y], n);
    }
    FullEntryScore(y, [x], [], 0);
    OneLesson("s", l, "agent:a");
    OneLesson("s", l, "agent:b");
  }

  lemma OneLesson(signature: string, l: Lesson, agentId: string)
    ensures RecurrencesFor(map[signature := l], agentId) == if l.agentId == Some(agentId) then l.recurrences else 0
  {
    var files := map[signature := l];
    var sigs := Signatures(files);
    assert |sigs| > 1 ==> sigs[0] == signature == sigs[1];
    SignaturesListed(files);
    assert signature in sigs;
    assert sigs == [signature];
    assert AllLessons(files) == [l];
    assert SumRecurrences([l], agentId)
           == (if l.agentId == Some(agentId) then l.recurrences else 0) + SumRecurrences([l][1..], agentId);
  }
}
