/** The `predictions` store: the query of a prediction request for the selected
    deployment, and the prediction it leaves as current. */
module Predictions {

  import opened Wrappers
  import Text
  import Deployments

  datatype Trend = Increasing | Decreasing | Stable

  datatype Prediction = Prediction(
    metricName: string,
    agentId: string,
    deploymentId: string,
    currentValue: real,
    predictedValues: seq<real>,
    timestamps: seq<string>,
    confidence: real,
    trend: Trend,
    predictedPeak: real,
    peakTime: string)

  /** Query parameters in the order `URLSearchParams` writes them. */
  type Query = seq<(string, string)>

  /** The position of each key in the object literal the query is built from. */
  function KeyRank(key: string): nat {
    if key == "deployment" then 0
    else if key == "metric_name" then 1
    else if key == "agent_id" then 2
    else 3
  }

  /** The value of the first parameter named `key`, if any. */
  function Lookup(query: Query, key: string): Option<string> {
    if query == [] then None
    else if query[0].0 == key then Some(query[0].1)
    else Lookup(query[1..], key)
  }

  /** `new URLSearchParams({deployment, metric_name, ...(agent_id && {agent_id}),
      ...(horizon_hours && {horizon_hours: horizon_hours.toString()})})`: an empty or
      missing agent id and a missing or zero horizon are left out. */
  function QueryParams(deploymentId: string, metricName: string, agentId: Option<string>, horizonHours: Option<int>): (q: Query)
    ensures |q| >= 2 && q[0] == ("deployment", deploymentId) && q[1] == ("metric_name", metricName)
    ensures |q| == 2 + (if Truthy(agentId) then 1 else 0) + (if horizonHours.Some? && horizonHours.value != 0 then 1 else 0)
    ensures forall i, j :: 0 <= i < j < |q| ==> KeyRank(q[i].0) < KeyRank(q[j].0)
  {
    [("deployment", deploymentId), ("metric_name", metricName)]
    + (if Truthy(agentId) then [("agent_id", agentId.value)] else [])
    + (if horizonHours.Some? && horizonHours.value != 0 then [("horizon_hours", Text.IntToString(horizonHours.value))] else [])
  }

  /** Reading the query back gives each argument, with the dropped ones absent. */
  lemma QueryParamsReadBack(deploymentId: string, metricName: string, agentId: Option<string>, horizonHours: Option<int>)
    ensures var q := QueryParams(deploymentId, metricName, agentId, horizonHours);
      && Lookup(q, "deployment") == Some(deploymentId)
      && Lookup(q, "metric_name") == Some(metricName)
      && Lookup(q, "agent_id") == (if Truthy(agentId) then agentId else None)
      && Lookup(q, "horizon_hours") ==
         (if horizonHours.Some? && horizonHours.value != 0 then Some(Text.IntToString(horizonHours.value)) else None)
  {
    var q := QueryParams(deploymentId, metricName, agentId, horizonHours);
    var agent: Query := if Truthy(agentId) then [("agent_id", agentId.value)] else [];
    var horizon: Query :=
      if horizonHours.Some? && horizonHours.value != 0 then [("horizon_hours", Text.IntToString(horizonHours.value))] else [];
    assert q == [("deployment", deploymentId), ("metric_name", metricName)] + (agent + horizon);
    LookupAfter([("deployment", deploymentId), ("metric_name", metricName)], agent + horizon, "agent_id");
    LookupAfter([("deployment", deploymentId), ("metric_name", metricName)], agent + horizon, "horizon_hours");
    if Truthy(agentId) {
      LookupAfter(agent, horizon, "horizon_hours");
    } else {
      assert agent + horizon == horizon;
    }
  }

  /** Parameters with other names before `key` do not change what it reads. */
  lemma {:induction false} LookupAfter(front: Query, back: Query, key: string)
    requires forall i :: 0 <= i < |front| ==> front[i].0 != key
    ensures Lookup(front + back, key) == Lookup(back, key)
  {
    if front != [] {
      assert (front + back)[1..] == front[1..] + back;
      LookupAfter(front[1..], back, key);
    } else {
      assert front + back == back;
    }
  }

  /** Different horizons give different queries, unless both are dropped. */
  lemma QueryParamsHorizonInjective(deploymentId: string, metricName: string, agentId: Option<string>, h1: int, h2: int)
    requires h1 != 0 && h2 != 0
    requires QueryParams(deploymentId, metricName, agentId, Some(h1)) == QueryParams(deploymentId, metricName, agentId, Some(h2))
    ensures h1 == h2
  {
    QueryParamsReadBack(deploymentId, metricName, agentId, Some(h1));
    QueryParamsReadBack(deploymentId, metricName, agentId, Some(h2));
    Text.IntToStringInjective(h1, h2);
  }

  /** `URLSearchParams.toString()`, leaving percent-encoding out. */
  function Encode(query: Query): string {
    if query == [] then ""
    else if |query| == 1 then query[0].0 + "=" + query[0].1
    else query[0].0 + "=" + query[0].1 + "&" + Encode(query[1..])
  }

  class Store {
    const deploymentsStore: Deployments.Store
    var currentPrediction: Option<Prediction>
    var isLoading: bool
    var error: Option<string>

    constructor (deploymentsStore: Deployments.Store)
      ensures this.deploymentsStore == deploymentsStore
      ensures currentPrediction.None? && !isLoading && error.None?
    {
      this.deploymentsStore := deploymentsStore;
      currentPrediction := None;
      isLoading := false;
      error := None;
    }

    /** `getPrediction`: without a selected deployment it requests nothing, returns
        `undefined` (`None`) and changes nothing; otherwise a success makes the answer
        current and returns it, and a failure records the message, rethrows and keeps the
        current prediction. */
    method GetPrediction(metricName: string, agentId: Option<string>, horizonHours: Option<int>, answer: ApiResult<Prediction>)
      returns (path: Option<string>, outcome: Option<Outcome<Prediction>>)
      modifies this
      ensures var dep := deploymentsStore.currentId;
        && (!Truthy(dep) ==> && path.None? && outcome.None?
                             && currentPrediction == old(currentPrediction) && isLoading == old(isLoading) && error == old(error))
        && (Truthy(dep) ==> && path == Some("/api/predict?" + Encode(QueryParams(dep.value, metricName, agentId, horizonHours)))
                            && !isLoading)
        && (Truthy(dep) && answer.Success? ==> && outcome == Some(Returned(answer.data))
                                               && currentPrediction == Some(answer.data) && error.None?)
        && (Truthy(dep) && answer.Failure? ==> && outcome == Some(Thrown(answer.msg))
                                               && currentPrediction == old(currentPrediction) && error == Some(answer.msg))
    {
      var dep := deploymentsStore.currentId;
      if !Truthy(dep) {
        return None, None;
      }
      isLoading := true;
      error := None;
      var query := QueryParams(dep.value, metricName, agentId, horizonHours);
      path := Some("/api/predict?" + Encode(query));
      match answer {
        case Success(data) =>
          currentPrediction := Some(data);
          outcome := Some(Returned(data));
        case Failure(msg) =>
          error := Some(msg);
          outcome := Some(Thrown(msg));
      }
      isLoading := false;
    }

    /** `clearPrediction`. */
    method ClearPrediction()
      modifies this
      ensures currentPrediction.None?
      ensures isLoading == old(isLoading) && error == old(error)
    {
      currentPrediction := None;
    }
  }
}
