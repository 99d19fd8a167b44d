/** Which of the registered agents a debate asks. */
module Pools {
  import opened Lists
  import opened Protocol
  import opened Policy
  import opened Agents
  import opened Core
  import opened Gates
  import opened Debates
  import opened Requests

  /** The debate is open to an agent: it handles the objective and is on the list, if there is one. */
  predicate OpenTo(d: Debate, a: Agent) {
    d.request.objective in a.handlers && (d.agentIds.Some? ==> a.agentId in d.agentIds.value)
  }

  function Open(d: Debate): Agent -> bool {
    (a: Agent) => OpenTo(d, a)
  }

  /** Agent `i` is within the limit: fewer than that many agents the debate is open to are
      registered before it, or at least that many from it on if the limit is negative. */
  predicate AskedAt(agents: seq<Agent>, d: Debate, i: int) {
    && 0 <= i < |agents|
    && OpenTo(d, agents[i])
    && (d.maxCandidates.Some? && d.maxCandidates.value >= 0 ==> Count(agents[..i], Open(d)) < d.maxCandidates.value)
    && (d.maxCandidates.Some? && d.maxCandidates.value < 0 ==>
          Count(agents, Open(d)) - Count(agents[..i], Open(d)) > -d.maxCandidates.value)
  }

  lemma InvitedAreOpen(agents: seq<Agent>, d: Debate)
    ensures Invited(agents, d.request.objective, d.agentIds) == Filter(agents, Open(d))
  {
    var handles := (a: Agent) => d.request.objective in a.handlers;
    if d.agentIds.None? {
      FilterSame(agents, handles, Open(d));
    } else {
      var listed := (a: Agent) => a.agentId in d.agentIds.value;
      FilterTwice(agents, handles, listed);
      FilterSame(agents, (a: Agent) => handles(a) && listed(a), Open(d));
    }
  }

  /** A debate is dispatched iff there is an arbiter, its risk is known, the policy lets its task
      through and it is open to some registered agent. */
  lemma DispatchedIff(cfg: Config, s: State, d: Debate)
    ensures PlanOf(cfg, s, d).Plan?
            <==> && cfg.arbiter.Some? && KnownRisk(d.request.risk)
                 && !Gated(cfg, NewTask(cfg, |s.trace|, d.request.(constraints := [])).value, |s.trace| + 1)
                 && exists a :: a in s.agents && OpenTo(d, a)
  {
    NewTaskAsked(cfg, |s.trace|, d.request.(constraints := []));
    InvitedAreOpen(s.agents, d);
    NothingKept(s.agents, Open(d));
  }

  /** How many of `total` a limit leaves. */
  lemma LimitLeaves(pool: seq<Agent>, maxCandidates: Option<int>)
    ensures var left := Dispatchable(pool, maxCandidates);
            && left <= pool
            && (maxCandidates.None? ==> left == pool)
            && (maxCandidates.Some? && maxCandidates.value >= 0 ==>
                  |left| == if maxCandidates.value < |pool| then maxCandidates.value else |pool|)
            && (maxCandidates.Some? && maxCandidates.value < 0 ==>
                  |left| == if -maxCandidates.value < |pool| then |pool| + maxCandidates.value else 0)
  {
  }

  /** Agent `i` is at place `k` of the agents asked. */
  ghost predicate AskedAs(agents: seq<Agent>, d: Debate, pool: seq<Agent>, i: int, k: int) {
    AskedAt(agents, d, i) && k == Count(agents[..i], Open(d)) && k < |pool| && pool[k] == agents[i]
  }

  ghost predicate Filled(agents: seq<Agent>, d: Debate, pool: seq<Agent>, k: int) {
    exists i :: AskedAs(agents, d, pool, i, k)
  }

  /** `pool` is the agents asked, each at its place. */
  ghost predicate PoolInOrder(agents: seq<Agent>, d: Debate, pool: seq<Agent>) {
    && (forall i :: AskedAt(agents, d, i) ==> AskedAs(agents, d, pool, i, Count(agents[..i], Open(d))))
    && (forall k :: 0 <= k < |pool| ==> Filled(agents, d, pool, k))
  }

  lemma PoolIsOpen(cfg: Config, s: State, d: Debate)
    requires PlanOf(cfg, s, d).Plan?
    ensures PlanOf(cfg, s, d).pool == Dispatchable(Filter(s.agents, Open(d)), d.maxCandidates)
    ensures PlanOf(cfg, s, d).task.objective == d.request.objective
  {
    InvitedAreOpen(s.agents, d);
  }

  lemma PlaceOf(agents: seq<Agent>, d: Debate, i: nat)
    requires i < |agents| && OpenTo(d, agents[i])
    ensures var pool := Dispatchable(Filter(agents, Open(d)), d.maxCandidates);
            AskedAt(agents, d, i) <==> Count(agents[..i], Open(d)) < |pool|
    ensures AskedAt(agents, d, i) ==>
              AskedAs(agents, d, Dispatchable(Filter(agents, Open(d)), d.maxCandidates), i, Count(agents[..i], Open(d)))
  {
    FilterAt(agents, Open(d), i);
    LimitLeaves(Filter(agents, Open(d)), d.maxCandidates);
  }

  /** The agents a debate asks are the registered ones it is open to, within the limit, in the order
      of registration: each at the place given by the number of such agents before it. */
  lemma AskedInOrder(cfg: Config, s: State, d: Debate)
    requires PlanOf(cfg, s, d).Plan?
    ensures var pool, total := PlanOf(cfg, s, d).pool, Count(s.agents, Open(d));
            && (d.maxCandidates.None? ==> |pool| == total)
            && (d.maxCandidates.Some? && d.maxCandidates.value >= 0 ==>
                  |pool| == if d.maxCandidates.value < total then d.maxCandidates.value else total)
            && (d.maxCandidates.Some? && d.maxCandidates.value < 0 ==>
                  |pool| == if -d.maxCandidates.value < total then total + d.maxCandidates.value else 0)
    ensures PoolInOrder(s.agents, d, PlanOf(cfg, s, d).pool)
  {
    var pool := PlanOf(cfg, s, d).pool;
    PoolIsOpen(cfg, s, d);
    FilterLength(s.agents, Open(d));
    LimitLeaves(Filter(s.agents, Open(d)), d.maxCandidates);
    forall i | AskedAt(s.agents, d, i) ensures AskedAs(s.agents, d, pool, i, Count(s.agents[..i], Open(d))) {
      PlaceOf(s.agents, d, i);
    }
    forall k | 0 <= k < |pool| ensures Filled(s.agents, d, pool, k) {
      var i := FilterSource(s.agents, Open(d), k);
      PlaceOf(s.agents, d, i);
      assert AskedAs(s.agents, d, pool, i, k);
    }
  }

  /** Place `k` of a pool is run: always with threads, else unless a handler before it crashes. */
  predicate RunsAt(pool: seq<Agent>, task: Task, moment: nat, parallel: bool, k: int) {
    && 0 <= k < |pool|
    && (parallel || forall j :: 0 <= j < k ==> !Handle(pool[j], task, moment).Crashed?)
  }

  lemma RunsAtBefore(pool: seq<Agent>, task: Task, moment: nat, parallel: bool, k: int)
    requires pool != []
    ensures RunsAt(pool[..|pool| - 1], task, moment, parallel, k)
            <==> k < |pool| - 1 && RunsAt(pool, task, moment, parallel, k)
  {
    var before := pool[..|pool| - 1];
    assert forall j :: 0 <= j < |before| ==> before[j] == pool[j];
    if k < |before| && !parallel && RunsAt(pool, task, moment, parallel, k) {
      forall j | 0 <= j < k ensures !Handle(before[j], task, moment).Crashed? {
        assert !Handle(pool[j], task, moment).Crashed?;
      }
    }
    if k < |before| && !parallel && RunsAt(before, task, moment, parallel, k) {
      forall j | 0 <= j < k ensures !Handle(pool[j], task, moment).Crashed? {
        assert !Handle(before[j], task, moment).Crashed?;
      }
    }
  }

  lemma {:induction false} InvokedExactly(pool: seq<Agent>, task: Task, moment: nat, parallel: bool, c: Call)
    ensures c in InvokedBy(pool, task, moment, parallel)
            <==> exists k :: RunsAt(pool, task, moment, parallel, k) && c == Call(pool[k].agentId, task, moment)
  {
    if pool == [] {
    } else {
      var before, last := pool[..|pool| - 1], |pool| - 1;
      InvokedExactly(before, task, moment, parallel, c);
      DispatchCompletes(before, task, moment);
      forall k ensures RunsAt(before, task, moment, parallel, k)
                       <==> k < last && RunsAt(pool, task, moment, parallel, k) {
        RunsAtBefore(pool, task, moment, parallel, k);
      }
      assert RunsAt(pool, task, moment, parallel, last)
             <==> parallel || !Dispatch(before, task, moment).Interrupted?;
      if k :| RunsAt(before, task, moment, parallel, k) && c == Call(before[k].agentId, task, moment) {
        assert RunsAt(pool, task, moment, parallel, k) && pool[k] == before[k];
      }
      if k :| RunsAt(pool, task, moment, parallel, k) && c == Call(pool[k].agentId, task, moment) {
        if k < last {
          assert RunsAt(before, task, moment, parallel, k) && before[k] == pool[k];
        }
      }
    }
  }

  lemma PlacesInOrder(agents: seq<Agent>, d: Debate, pool: seq<Agent>, i: int, k: int, j: int, l: int)
    requires AskedAs(agents, d, pool, i, k) && AskedAs(agents, d, pool, j, l)
    ensures j < i <==> l < k
  {
    if j < i {
      LaterPlace(agents, d, j, i);
    } else if i < j {
      LaterPlace(agents, d, i, j);
    }
  }

  lemma LaterPlace(agents: seq<Agent>, d: Debate, j: nat, i: nat)
    requires j < i < |agents| && OpenTo(d, agents[j])
    ensures Count(agents[..j], Open(d)) < Count(agents[..i], Open(d))
  {
    assert agents[..i][..j + 1] == agents[..j] + [agents[j]];
    CountSnoc(agents[..j], agents[j], Open(d));
    CountMonotone(agents[..i], j + 1, Open(d));
  }

  /** The handler of agent `i` is run: it is asked, and without threads no agent asked before it
      has a handler whose exception is not caught. */
  predicate RunFor(agents: seq<Agent>, d: Debate, task: Task, moment: nat, i: int) {
    && AskedAt(agents, d, i)
    && (d.parallel || forall j :: 0 <= j < i && AskedAt(agents, d, j) ==> !Handle(agents[j], task, moment).Crashed?)
  }

  lemma RunForIsRunsAt(agents: seq<Agent>, d: Debate, pool: seq<Agent>, task: Task, moment: nat, i: int, k: int)
    requires PoolInOrder(agents, d, pool) && AskedAs(agents, d, pool, i, k)
    ensures RunFor(agents, d, task, moment, i) <==> RunsAt(pool, task, moment, d.parallel, k)
  {
    if !d.parallel && RunFor(agents, d, task, moment, i) {
      forall l | 0 <= l < k ensures !Handle(pool[l], task, moment).Crashed? {
        assert Filled(agents, d, pool, l);
        var j :| AskedAs(agents, d, pool, j, l);
        PlacesInOrder(agents, d, pool, i, k, j, l);
      }
    }
    if !d.parallel && RunsAt(pool, task, moment, d.parallel, k) {
      forall j | 0 <= j < i && AskedAt(agents, d, j) ensures !Handle(agents[j], task, moment).Crashed? {
        PlacesInOrder(agents, d, pool, i, k, j, Count(agents[..j], Open(d)));
      }
    }
  }

  lemma PoolRuns(agents: seq<Agent>, d: Debate, pool: seq<Agent>, task: Task, moment: nat, c: Call)
    requires PoolInOrder(agents, d, pool)
    ensures c in InvokedBy(pool, task, moment, d.parallel)
            <==> exists i :: RunFor(agents, d, task, moment, i) && c == Call(agents[i].agentId, task, moment)
  {
    InvokedExactly(pool, task, moment, d.parallel, c);
    if k :| RunsAt(pool, task, moment, d.parallel, k) && c == Call(pool[k].agentId, task, moment) {
      assert Filled(agents, d, pool, k);
      var i :| AskedAs(agents, d, pool, i, k);
      RunForIsRunsAt(agents, d, pool, task, moment, i, k);
    }
    if i :| RunFor(agents, d, task, moment, i) && c == Call(agents[i].agentId, task, moment) {
      RunForIsRunsAt(agents, d, pool, task, moment, i, Count(agents[..i], Open(d)));
    }
  }

  /** Which handlers a dispatched debate runs, in any state: those of the registered agents it is
      open to, within the limit, and without threads only up to the first uncaught exception. */
  lemma DebateRuns(cfg: Config, s: State, d: Debate, c: Call)
    requires PlanOf(cfg, s, d).Plan?
    ensures var task, n := PlanOf(cfg, s, d).task, |s.trace| + 1;
            c in Deliberate(cfg, s, d).state.invoked
            <==> || c in s.invoked
                 || exists i :: RunFor(s.agents, d, task, n, i) && c == Call(s.agents[i].agentId, task, n)
  {
    var p := PlanOf(cfg, s, d);
    DebateFollowsPlan(cfg, s, d);
    DebateAmongInvokes(cfg, p.state, p.request, p.task, p.pool, d.parallel, d.quorum);
    AskedInOrder(cfg, s, d);
    PoolRuns(s.agents, d, p.pool, p.task, |s.trace| + 1, c);
  }
}
