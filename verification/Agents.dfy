/** Agents (agent.py) and how their handlers' returns and exceptions are normalised. */
module Agents {
  import opened Lists
  import opened Protocol

  /** What calling a handler comes to. */
  datatype Returned =
    | ReturnedResult(result: Result)
    | ReturnedDict(output: Dict)
    | ReturnedError(error: ErrorPayload)
    | ReturnedOther
    | RaisedUnavailable(why: string)
    | RaisedTaskFailed(error: ErrorPayload)
    | RaisedTimeout(why: string)
    | RaisedOther(why: string)

  /** A handler is an arbitrary function of its task and of the moment it is dispatched, so
      it may remember anything of earlier dispatches; it does not see the handlers that run
      beside it. */
  type Handler = (Task, nat) -> Returned

  datatype Agent = Agent(agentId: string, handlers: map<string, Handler>)

  datatype Handled =
    | Answered(result: Result)
    | Unavailable(why: string)
    | Failed(error: ErrorPayload)
    | TimedOut(why: string)
    | Crashed(why: string)

  /** `Agent.handle`. An answer is always for the task asked about. */
  function Handle(agent: Agent, task: Task, moment: nat): (h: Handled)
    ensures h.Answered? ==> h.result.taskId == task.id
    ensures task.objective !in agent.handlers ==> h.Unavailable?
  {
    if task.objective !in agent.handlers then
      Unavailable("no handler")
    else
      match agent.handlers[task.objective](task, moment)
      case ReturnedResult(r) => if r.taskId != task.id then Crashed("result for another task") else Answered(r)
      case ReturnedDict(output) => Answered(Result(task.id, Success, output, None, []))
      case ReturnedError(e) => Failed(e)
      case ReturnedOther => Crashed("wrong return type")
      case RaisedUnavailable(why) => Unavailable(why)
      case RaisedTaskFailed(e) => Failed(e)
      case RaisedTimeout(why) => TimedOut(why)
      case RaisedOther(why) => Crashed(why)
  }

  /** A handler answers iff it is there and returns a dict, or a result for this very task. It
      fails in an expected way iff it is missing or its capability is, it hands back an error
      or it runs out of time. Everything else escapes. */
  lemma HandleOutcomes(agent: Agent, task: Task, moment: nat)
    ensures var h := Handle(agent, task, moment);
            if task.objective !in agent.handlers then h.Unavailable?
            else
              var r := agent.handlers[task.objective](task, moment);
              && (h.Answered? <==> r.ReturnedDict? || (r.ReturnedResult? && r.result.taskId == task.id))
              && (h.Answered? ==> h.result == if r.ReturnedResult? then r.result
                                                 else Result(task.id, Success, r.output, None, []))
              && (h.Unavailable? <==> r.RaisedUnavailable?)
              && (h.TimedOut? <==> r.RaisedTimeout?)
              && (h.Unavailable? || h.TimedOut? ==> h.why == r.why)
              && (h.Failed? <==> r.ReturnedError? || r.RaisedTaskFailed?)
              && (h.Failed? ==> h.error == r.error)
              && (h.Crashed? <==>
                    r.ReturnedOther? || r.RaisedOther? || (r.ReturnedResult? && r.result.taskId != task.id))
  {
  }

  // The registry of a core: agents in registration order, one per id

  ghost predicate DistinctIds(agents: seq<Agent>) {
    forall i, j :: 0 <= i < j < |agents| ==> agents[i].agentId != agents[j].agentId
  }

  predicate Registered(agents: seq<Agent>, agentId: string) {
    exists i :: 0 <= i < |agents| && agents[i].agentId == agentId
  }

  /** A known id keeps its place and gets the new agent. */
  function Registering(agents: seq<Agent>, agent: Agent): seq<Agent> {
    if Registered(agents, agent.agentId)
    then Map(agents, (a: Agent) => if a.agentId == agent.agentId then agent else a)
    else agents + [agent]
  }

  function Unregistering(agents: seq<Agent>, agentId: string): seq<Agent> {
    Filter(agents, (a: Agent) => a.agentId != agentId)
  }

  /** `find_by_objective` */
  function FindByObjective(agents: seq<Agent>, objective: string): seq<Agent> {
    Filter(agents, (a: Agent) => objective in a.handlers)
  }

  lemma {:induction false} FilterKeepsDistinct(agents: seq<Agent>, keep: Agent -> bool)
    requires DistinctIds(agents)
    ensures DistinctIds(Filter(agents, keep))
  {
    if agents == [] {
    } else {
      var rest := Filter(agents[1..], keep);
      FilterKeepsDistinct(agents[1..], keep);
      forall i | 0 <= i < |rest| ensures rest[i].agentId != agents[0].agentId {
        var j := FilterSource(agents[1..], keep, i);
      }
    }
  }

  /** Registering and unregistering keep the ids distinct. */
  lemma RegistryKeepsDistinct(agents: seq<Agent>, agent: Agent, agentId: string)
    requires DistinctIds(agents)
    ensures DistinctIds(Registering(agents, agent))
    ensures DistinctIds(Unregistering(agents, agentId))
    ensures Registered(Registering(agents, agent), agent.agentId)
    ensures !Registered(Unregistering(agents, agentId), agentId)
  {
    FilterKeepsDistinct(agents, (a: Agent) => a.agentId != agentId);
    var more, fewer := Registering(agents, agent), Unregistering(agents, agentId);
    if Registered(agents, agent.agentId) {
      var i :| 0 <= i < |agents| && agents[i].agentId == agent.agentId;
      assert more[i].agentId == agent.agentId;
    } else {
      assert more[|agents|].agentId == agent.agentId;
    }
    forall i | 0 <= i < |fewer| ensures fewer[i].agentId != agentId {
      var j := FilterSource(agents, (a: Agent) => a.agentId != agentId, i);
    }
  }

  /** Registering a known id puts the new agent in its place, a new one goes to the end. */
  lemma RegisteringPlaces(agents: seq<Agent>, agent: Agent, i: nat)
    requires DistinctIds(agents)
    ensures i < |agents| && agents[i].agentId == agent.agentId ==> Registering(agents, agent) == agents[i := agent]
    ensures (forall a :: a in agents ==> a.agentId != agent.agentId) ==> Registering(agents, agent) == agents + [agent]
  {
    if i < |agents| && agents[i].agentId == agent.agentId {
      assert Registered(agents, agent.agentId);
      forall j | 0 <= j < |agents| && j != i ensures agents[j].agentId != agent.agentId {
        assert if j < i then agents[j].agentId != agents[i].agentId else agents[i].agentId != agents[j].agentId;
      }
    } else if forall a :: a in agents ==> a.agentId != agent.agentId {
      assert !Registered(agents, agent.agentId);
    }
  }

  lemma {:induction false} AllKept(agents: seq<Agent>, keep: Agent -> bool)
    requires forall i :: 0 <= i < |agents| ==> keep(agents[i])
    ensures Filter(agents, keep) == agents
  {
    if agents == [] {
    } else {
      assert agents == [agents[0]] + agents[1..];
      AllKept(agents[1..], keep);
    }
  }

  /** Unregistering takes out the agent of that id, if there is one, and leaves the others in order. */
  lemma UnregisteringPlaces(agents: seq<Agent>, agentId: string, i: nat)
    requires DistinctIds(agents)
    ensures i < |agents| && agents[i].agentId == agentId ==> Unregistering(agents, agentId) == Without(agents, i)
    ensures (forall a :: a in agents ==> a.agentId != agentId) ==> Unregistering(agents, agentId) == agents
  {
    var keep := (a: Agent) => a.agentId != agentId;
    if i < |agents| && agents[i].agentId == agentId {
      var before, after := agents[..i], agents[i + 1..];
      assert agents == before + ([agents[i]] + after);
      FilterConcat(before, [agents[i]] + after, keep);
      FilterConcat([agents[i]], after, keep);
      FilterOne(agents[i], keep);
      AllKept(before, keep);
      AllKept(after, keep);
    } else if forall a :: a in agents ==> a.agentId != agentId {
      AllKept(agents, keep);
    }
  }
}
