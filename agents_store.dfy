/** The `agents` store: agents of every deployment fetched so far, the view of those of
    the selected deployment split by status, and the per-deployment refresh. */
module Agents {

  import opened Wrappers
  import opened Lists
  import Deployments

  datatype Status = Online | Offline | Warning

  /** An agent as the store keeps it; the optional location fields are not read here. */
  datatype Agent = Agent(
    id: string,
    deploymentId: string,
    hostname: string,
    platform: string,
    lastSeen: string,
    status: Status,
    metrics: seq<string>,
    metricsCount: int)

  /** `agents.filter(a => a.deployment_id === id)`; `null` matches no agent. */
  function OfDeployment(agents: seq<Agent>, id: Option<string>): (r: seq<Agent>)
    ensures forall a :: a in r <==> a in agents && id == Some(a.deploymentId)
  {
    Filter(agents, (a: Agent) => id == Some(a.deploymentId))
  }

  /** `agents.filter(a => a.status === status)`. */
  function WithStatus(agents: seq<Agent>, status: Status): (r: seq<Agent>)
    ensures forall a :: a in r <==> a in agents && a.status == status
  {
    Filter(agents, (a: Agent) => a.status == status)
  }

  /** One unfolding of `WithStatus`: the first agent, when it has the status, followed by
      the matching agents of the rest. */
  lemma WithStatusCons(agents: seq<Agent>, status: Status)
    requires agents != []
    ensures multiset(WithStatus(agents, status))
            == multiset(if agents[0].status == status then [agents[0]] else []) + multiset(WithStatus(agents[1..], status))
  {
  }

  /** The online, offline and warning lists together hold every agent of the list they
      are taken from, each as often as it occurs there. */
  lemma StatusPartition(agents: seq<Agent>)
    ensures multiset(WithStatus(agents, Online)) + multiset(WithStatus(agents, Offline))
            + multiset(WithStatus(agents, Warning)) == multiset(agents)
    ensures |WithStatus(agents, Online)| + |WithStatus(agents, Offline)| + |WithStatus(agents, Warning)| == |agents|
  {
    StatusMultisets(agents);
    var on, off, warn := WithStatus(agents, Online), WithStatus(agents, Offline), WithStatus(agents, Warning);
    assert |multiset(on)| == |on| && |multiset(off)| == |off| && |multiset(warn)| == |warn|;
    assert |multiset(on) + multiset(off) + multiset(warn)| == |multiset(on)| + |multiset(off)| + |multiset(warn)|;
    assert |multiset(agents)| == |agents|;
  }

  lemma {:induction false} StatusMultisets(agents: seq<Agent>)
    ensures multiset(WithStatus(agents, Online)) + multiset(WithStatus(agents, Offline))
            + multiset(WithStatus(agents, Warning)) == multiset(agents)
  {
    if agents != [] {
      StatusMultisets(agents[1..]);
      StatusPartitionStep(agents);
    }
  }

  lemma StatusPartitionStep(agents: seq<Agent>)
    requires agents != []
    requires multiset(WithStatus(agents[1..], Online)) + multiset(WithStatus(agents[1..], Offline))
             + multiset(WithStatus(agents[1..], Warning)) == multiset(agents[1..])
    ensures multiset(WithStatus(agents, Online)) + multiset(WithStatus(agents, Offline))
            + multiset(WithStatus(agents, Warning)) == multiset(agents)
  {
    WithStatusCons(agents, Online);
    WithStatusCons(agents, Offline);
    WithStatusCons(agents, Warning);
    MultisetCons(agents);
  }

  /** No agent is in two of the three lists. */
  lemma StatusDisjoint(agents: seq<Agent>)
    ensures forall a :: a in WithStatus(agents, Online) ==> a !in WithStatus(agents, Offline) && a !in WithStatus(agents, Warning)
    ensures forall a :: a in WithStatus(agents, Offline) ==> a !in WithStatus(agents, Warning)
  {
  }

  /** `[...agents.filter(a => a.deployment_id !== id), ...data]`. */
  function Replaced(agents: seq<Agent>, id: string, data: seq<Agent>): (r: seq<Agent>)
    ensures |data| <= |r| <= |agents| + |data|
    ensures r[|r| - |data|..] == data
    ensures forall a :: a in r[..|r| - |data|] <==> a in agents && a.deploymentId != id
  {
    Filter(agents, (a: Agent) => a.deploymentId != id) + data
  }

  /** After the refresh of deployment `id`, that deployment's agents are exactly those of
      the response, and every other deployment keeps its old agents, followed by any the
      response carried for it. */
  lemma ReplacedView(agents: seq<Agent>, id: string, data: seq<Agent>, other: Option<string>)
    ensures OfDeployment(Replaced(agents, id, data), Some(id)) == OfDeployment(data, Some(id))
    ensures other != Some(id) ==>
      OfDeployment(Replaced(agents, id, data), other) == OfDeployment(agents, other) + OfDeployment(data, other)
  {
    var keep := (a: Agent) => a.deploymentId != id;
    var rest := Filter(agents, keep);
    FilterAppend(rest, data, (a: Agent) => Some(id) == Some(a.deploymentId));
    FilterNone(rest, (a: Agent) => Some(id) == Some(a.deploymentId)) by {
      forall i | 0 <= i < |rest|
        ensures rest[i].deploymentId != id
      {
        assert rest[i] in rest;
      }
    }
    if other != Some(id) {
      FilterAppend(rest, data, (a: Agent) => other == Some(a.deploymentId));
      FilterFilter(agents, keep, (a: Agent) => other == Some(a.deploymentId), (a: Agent) => other == Some(a.deploymentId));
    }
  }

  /** `agents.filter(a => a.id !== id)`. */
  function WithoutId(agents: seq<Agent>, id: string): (r: seq<Agent>)
    ensures |r| <= |agents|
    ensures forall a :: a in r <==> a in agents && a.id != id
  {
    Filter(agents, (a: Agent) => a.id != id)
  }

  /** Deleting keeps the order of the rest and is a no-op for an absent id. */
  lemma WithoutIdAppend(a: seq<Agent>, b: seq<Agent>, id: string)
    ensures WithoutId(a + b, id) == WithoutId(a, id) + WithoutId(b, id)
  {
    FilterAppend(a, b, (x: Agent) => x.id != id);
  }

  lemma WithoutIdAbsent(agents: seq<Agent>, id: string)
    requires forall i :: 0 <= i < |agents| ==> agents[i].id != id
    ensures WithoutId(agents, id) == agents
  {
    FilterAll(agents, (x: Agent) => x.id != id);
  }

  /** `agents.find(a => a.id === id)`. */
  function FindById(agents: seq<Agent>, id: string): (r: Option<Agent>)
    ensures r.Some? ==> r.value in agents && r.value.id == id
    ensures r.None? <==> forall i :: 0 <= i < |agents| ==> agents[i].id != id
    ensures r.Some? ==> exists i :: 0 <= i < |agents| && agents[i] == r.value && forall j :: 0 <= j < i ==> agents[j].id != id
  {
    Find(agents, (a: Agent) => a.id == id)
  }

  /** `deploymentId || deploymentsStore.currentDeploymentId`. */
  function TargetDeployment(argument: Option<string>, current: Option<string>): (r: Option<string>)
    ensures Truthy(argument) ==> r == argument
    ensures !Truthy(argument) ==> r == current
  {
    if Truthy(argument) then argument else current
  }

  class Store {
    const deploymentsStore: Deployments.Store
    var agents: seq<Agent>
    var isLoading: bool
    var error: Option<string>

    constructor (deploymentsStore: Deployments.Store)
      ensures this.deploymentsStore == deploymentsStore
      ensures agents == [] && !isLoading && error.None?
    {
      this.deploymentsStore := deploymentsStore;
      agents := [];
      isLoading := false;
      error := None;
    }

    /** `currentDeploymentAgents`. */
    function CurrentDeploymentAgents(): seq<Agent>
      reads this, deploymentsStore
    {
      OfDeployment(agents, deploymentsStore.currentId)
    }

    /** `onlineAgents`, `offlineAgents` and `warningAgents`. */
    function OnlineAgents(): seq<Agent>
      reads this, deploymentsStore
    {
      WithStatus(CurrentDeploymentAgents(), Online)
    }

    function OfflineAgents(): seq<Agent>
      reads this, deploymentsStore
    {
      WithStatus(CurrentDeploymentAgents(), Offline)
    }

    function WarningAgents(): seq<Agent>
      reads this, deploymentsStore
    {
      WithStatus(CurrentDeploymentAgents(), Warning)
    }

    /** `getAgentById`. */
    function GetAgentById(id: string): Option<Agent>
      reads this
    {
      FindById(agents, id)
    }

    /** `fetchAgents`: with no usable deployment id nothing is requested and nothing
        changes; otherwise a success swaps that deployment's agents for the response, and a
        failure records the message and keeps the list. */
    method FetchAgents(deploymentId: Option<string>, answer: ApiResult<seq<Agent>>) returns (path: Option<string>)
      modifies this
      ensures var target := TargetDeployment(deploymentId, deploymentsStore.currentId);
        && (!Truthy(target) ==> path.None? && agents == old(agents) && isLoading == old(isLoading) && error == old(error))
        && (Truthy(target) ==> path == Some("/api/deployments/" + target.value + "/agents") && !isLoading)
        && (Truthy(target) && answer.Success? ==> agents == Replaced(old(agents), target.value, answer.data) && error.None?)
        && (Truthy(target) && answer.Failure? ==> agents == old(agents) && error == Some(answer.msg))
    {
      var target := TargetDeployment(deploymentId, deploymentsStore.currentId);
      if !Truthy(target) {
        return None;
      }
      var depId := target.value;
      path := Some("/api/deployments/" + depId + "/agents");
      isLoading := true;
      error := None;
      match answer {
        case Success(data) =>
          agents := Replaced(agents, depId, data);
        case Failure(msg) =>
          error := Some(msg);
      }
      isLoading := false;
    }

    /** `deleteAgent`: a success removes every agent with the id; a failure records the
        message, rethrows and keeps the list. */
    method DeleteAgent(id: string, answer: ApiResult<()>) returns (path: string, outcome: Outcome<()>)
      modifies this
      ensures path == "/api/agents/" + id
      ensures !isLoading
      ensures answer.Success? ==> outcome == Returned(()) && agents == WithoutId(old(agents), id) && error.None?
      ensures answer.Failure? ==> outcome == Thrown(answer.msg) && agents == old(agents) && error == Some(answer.msg)
    {
      path := "/api/agents/" + id;
      isLoading := true;
      error := None;
      match answer {
        case Success(_) =>
          agents := WithoutId(agents, id);
          outcome := Returned(());
        case Failure(msg) =>
          error := Some(msg);
          outcome := Thrown(msg);
      }
      isLoading := false;
    }
  }
}
