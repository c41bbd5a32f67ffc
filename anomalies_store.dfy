/** The `anomalies` store: the anomaly list of one deployment, and the acknowledge and
    resolve actions, which set a flag on the listed anomaly object itself. */
module Anomalies {

  import opened Wrappers
  import Deployments

  datatype Severity = Critical | Warning | Info

  /** An anomaly object; only its two flags are ever written. */
  class Anomaly {
    const id: string
    const deploymentId: string
    const agentId: string
    const metricName: string
    const timestamp: string
    const expectedValue: real
    const actualValue: real
    const deviation: real
    const severity: Severity
    var acknowledged: bool
    var resolved: bool

    constructor (id: string, deploymentId: string, agentId: string, metricName: string, timestamp: string,
                 expectedValue: real, actualValue: real, deviation: real, severity: Severity,
                 acknowledged: bool, resolved: bool)
      ensures this.id == id && this.deploymentId == deploymentId && this.agentId == agentId
      ensures this.metricName == metricName && this.timestamp == timestamp
      ensures this.expectedValue == expectedValue && this.actualValue == actualValue && this.deviation == deviation
      ensures this.severity == severity && this.acknowledged == acknowledged && this.resolved == resolved
    {
      this.id := id;
      this.deploymentId := deploymentId;
      this.agentId := agentId;
      this.metricName := metricName;
      this.timestamp := timestamp;
      this.expectedValue := expectedValue;
      this.actualValue := actualValue;
      this.deviation := deviation;
      this.severity := severity;
      this.acknowledged := acknowledged;
      this.resolved := resolved;
    }
  }

  /** The position `anomalies.find(a => a.id === id)` stops at, if any. */
  function FirstWithId(anomalies: seq<Anomaly>, id: string): (k: Option<nat>)
    ensures k.Some? ==> k.value < |anomalies| && anomalies[k.value].id == id
    ensures k.Some? ==> forall j :: 0 <= j < k.value ==> anomalies[j].id != id
    ensures k.None? <==> forall j :: 0 <= j < |anomalies| ==> anomalies[j].id != id
  {
    if anomalies == [] then None
    else if anomalies[0].id == id then Some(0)
    else match FirstWithId(anomalies[1..], id)
      case None => None
      case Some(k) => Some(k + 1)
  }

  /** The object `find` returns, if any. */
  function Target(anomalies: seq<Anomaly>, id: string): (t: Option<Anomaly>)
    ensures t.Some? ==> t.value in anomalies && t.value.id == id
    ensures t.None? <==> forall j :: 0 <= j < |anomalies| ==> anomalies[j].id != id
  {
    match FirstWithId(anomalies, id)
    case None => None
    case Some(k) => Some(anomalies[k])
  }

  class Store {
    const deploymentsStore: Deployments.Store
    var anomalies: seq<Anomaly>
    var isLoading: bool
    var error: Option<string>

    constructor (deploymentsStore: Deployments.Store)
      ensures this.deploymentsStore == deploymentsStore
      ensures anomalies == [] && !isLoading && error.None?
    {
      this.deploymentsStore := deploymentsStore;
      anomalies := [];
      isLoading := false;
      error := None;
    }

    /** `fetchAnomalies`: with no usable deployment id nothing is requested and nothing
        changes; otherwise a success replaces the whole list and a failure records the
        message and keeps it. */
    method FetchAnomalies(deploymentId: Option<string>, answer: ApiResult<seq<Anomaly>>) returns (path: Option<string>)
      modifies this
      ensures var target := if Truthy(deploymentId) then deploymentId else deploymentsStore.currentId;
        && (!Truthy(target) ==> path.None? && anomalies == old(anomalies) && isLoading == old(isLoading) && error == old(error))
        && (Truthy(target) ==> path == Some("/api/anomalies?deployment=" + target.value) && !isLoading)
        && (Truthy(target) && answer.Success? ==> anomalies == answer.data && error.None?)
        && (Truthy(target) && answer.Failure? ==> anomalies == old(anomalies) && error == Some(answer.msg))
    {
      var target := if Truthy(deploymentId) then deploymentId else deploymentsStore.currentId;
      if !Truthy(target) {
        return None;
      }
      path := Some("/api/anomalies?deployment=" + target.value);
      isLoading := true;
      error := None;
      match answer {
        case Success(data) =>
          anomalies := data;
        case Failure(msg) =>
          error := Some(msg);
      }
      isLoading := false;
    }

    /** `acknowledgeAnomaly`: after a success the first listed anomaly with the id is
        acknowledged and nothing else changes (an absent id changes nothing; an anomaly
        already acknowledged stays as it was); a failure records the message, rethrows and
        changes no flag. The list and `isLoading` are never touched. */
    method AcknowledgeAnomaly(id: string, answer: ApiResult<()>) returns (path: string, outcome: Outcome<()>)
      modifies this, set a | a in anomalies
      ensures path == "/api/anomalies/" + id + "/acknowledge"
      ensures anomalies == old(anomalies) && isLoading == old(isLoading)
      ensures forall a :: a in anomalies ==> a.resolved == old(a.resolved)
      ensures answer.Success? ==> outcome == Returned(()) && error == old(error)
      ensures answer.Success? ==> forall a :: a in anomalies ==>
        a.acknowledged == (old(a.acknowledged) || Target(anomalies, id) == Some(a))
      ensures answer.Success? && (Target(anomalies, id).None? || old(Target(anomalies, id).value.acknowledged)) ==>
        forall a :: a in anomalies ==> a.acknowledged == old(a.acknowledged)
      ensures answer.Failure? ==> outcome == Thrown(answer.msg) && error == Some(answer.msg)
      ensures answer.Failure? ==> forall a :: a in anomalies ==> a.acknowledged == old(a.acknowledged)
    {
      path := "/api/anomalies/" + id + "/acknowledge";
      match answer {
        case Success(_) =>
          var t := Target(anomalies, id);
          if t.Some? {
            t.value.acknowledged := true;
          }
          outcome := Returned(());
        case Failure(msg) =>
          error := Some(msg);
          outcome := Thrown(msg);
      }
    }

    /** `resolveAnomaly`: the same for the `resolved` flag. */
    method ResolveAnomaly(id: string, answer: ApiResult<()>) returns (path: string, outcome: Outcome<()>)
      modifies this, set a | a in anomalies
      ensures path == "/api/anomalies/" + id + "/resolve"
      ensures anomalies == old(anomalies) && isLoading == old(isLoading)
      ensures forall a :: a in anomalies ==> a.acknowledged == old(a.acknowledged)
      ensures answer.Success? ==> outcome == Returned(()) && error == old(error)
      ensures answer.Success? ==> forall a :: a in anomalies ==>
        a.resolved == (old(a.resolved) || Target(anomalies, id) == Some(a))
      ensures answer.Success? && (Target(anomalies, id).None? || old(Target(anomalies, id).value.resolved)) ==>
        forall a :: a in anomalies ==> a.resolved == old(a.resolved)
      ensures answer.Failure? ==> outcome == Thrown(answer.msg) && error == Some(answer.msg)
      ensures answer.Failure? ==> forall a :: a in anomalies ==> a.resolved == old(a.resolved)
    {
      path := "/api/anomalies/" + id + "/resolve";
      match answer {
        case Success(_) =>
          var t := Target(anomalies, id);
          if t.Some? {
            t.value.resolved := true;
          }
          outcome := Returned(());
        case Failure(msg) =>
          error := Some(msg);
          outcome := Thrown(msg);
      }
    }
  }
}
