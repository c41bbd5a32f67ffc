/** The `deployments` store: the deployment list, which deployment is selected, and how
    fetching, creating and deleting keep that selection. Each backend call is given as
    its answer: the data, or the message of the error it threw. */
module Deployments {

  import opened Wrappers
  import opened Lists

  datatype Environment = Development | Staging | Production

  datatype Deployment = Deployment(
    id: string,
    name: string,
    description: string,
    environment: Environment,
    createdAt: string,
    agentsCount: int,
    agentsOnline: int,
    metricsCount: int)

  /** `ds.filter(d => d.id !== id)`. */
  function WithoutId(ds: seq<Deployment>, id: string): (r: seq<Deployment>)
    ensures |r| <= |ds|
    ensures forall i :: 0 <= i < |r| ==> r[i].id != id
    ensures forall d :: d in r <==> d in ds && d.id != id
  {
    var r := Filter(ds, (d: Deployment) => d.id != id);
    assert forall i :: 0 <= i < |r| ==> r[i] in r;
    r
  }

  /** Removing keeps the order of what is left: it works piece by piece. */
  lemma WithoutIdAppend(a: seq<Deployment>, b: seq<Deployment>, id: string)
    ensures WithoutId(a + b, id) == WithoutId(a, id) + WithoutId(b, id)
  {
    FilterAppend(a, b, (d: Deployment) => d.id != id);
  }

  /** Removing an id nobody has changes nothing, and removing twice is removing once. */
  lemma WithoutIdAbsent(ds: seq<Deployment>, id: string)
    requires forall i :: 0 <= i < |ds| ==> ds[i].id != id
    ensures WithoutId(ds, id) == ds
  {
    FilterAll(ds, (d: Deployment) => d.id != id);
  }

  lemma WithoutIdIdempotent(ds: seq<Deployment>, id: string)
    ensures WithoutId(WithoutId(ds, id), id) == WithoutId(ds, id)
  {
    FilterIdempotent(ds, (d: Deployment) => d.id != id);
  }

  /** `ds.find(d => d.id === id) || null`: no id (`null`) matches nothing. */
  function FindById(ds: seq<Deployment>, id: Option<string>): (r: Option<Deployment>)
    ensures r.Some? ==> id.Some? && r.value in ds && r.value.id == id.value
    ensures r.None? <==> id.None? || forall i :: 0 <= i < |ds| ==> ds[i].id != id.value
    ensures r.Some? ==> exists i :: 0 <= i < |ds| && ds[i] == r.value && forall j :: 0 <= j < i ==> ds[j].id != id.value
  {
    if id.None? then None else Find(ds, (d: Deployment) => d.id == id.value)
  }

  /** Selecting the first deployment's id selects that deployment. */
  lemma FindFirstId(ds: seq<Deployment>)
    requires ds != []
    ensures FindById(ds, Some(ds[0].id)) == Some(ds[0])
  {
    var r := FindById(ds, Some(ds[0].id));
    assert r.Some? by {
      assert ds[0].id == ds[0].id;
    }
    var i :| 0 <= i < |ds| && ds[i] == r.value && forall j :: 0 <= j < i ==> ds[j].id != ds[0].id;
    assert i == 0;
  }

  /** `deployments[0]?.id || null`: the first id, unless there is none or it is empty. */
  function FirstIdOrNull(ds: seq<Deployment>): (r: Option<string>)
    ensures r.Some? <==> ds != [] && ds[0].id != ""
    ensures r.Some? ==> r.value == ds[0].id
  {
    if ds != [] && ds[0].id != "" then Some(ds[0].id) else None
  }

  /** After a delete moves the selection, the selection names a deployment that is still
      there, and never the deleted one. */
  lemma SelectionAfterDelete(ds: seq<Deployment>, id: string)
    ensures var rest := WithoutId(ds, id);
      && (FirstIdOrNull(rest).Some? ==> FindById(rest, FirstIdOrNull(rest)) == Some(rest[0]))
      && FirstIdOrNull(rest) != Some(id)
  {
    var rest := WithoutId(ds, id);
    if rest != [] {
      FindFirstId(rest);
    }
  }

  class Store {
    var deployments: seq<Deployment>
    var currentId: Option<string>
    var isLoading: bool
    var error: Option<string>

    constructor ()
      ensures deployments == [] && currentId.None? && !isLoading && error.None?
    {
      deployments := [];
      currentId := None;
      isLoading := false;
      error := None;
    }

    /** `currentDeployment`. */
    function CurrentDeployment(): (d: Option<Deployment>)
      reads this
    {
      FindById(deployments, currentId)
    }

    /** `fetchDeployments`: a success replaces the list and, when nothing was selected
        (no id or an empty one) and the list is non-empty, selects its first entry; a
        failure keeps list and selection and records the message. */
    method FetchDeployments(answer: ApiResult<seq<Deployment>>)
      modifies this
      ensures !isLoading
      ensures answer.Success? ==>
        && deployments == answer.data && error.None?
        && currentId == (if !Truthy(old(currentId)) && answer.data != [] then Some(answer.data[0].id) else old(currentId))
      ensures answer.Failure? ==>
        && deployments == old(deployments) && currentId == old(currentId)
        && error == Some(answer.msg)
    {
      isLoading := true;
      error := None;
      match answer {
        case Success(data) =>
          deployments := data;
          if !Truthy(currentId) && |data| > 0 {
            currentId := Some(data[0].id);
          }
        case Failure(msg) =>
          error := Some(msg);
      }
      isLoading := false;
    }

    /** `createDeployment`: a success appends the new deployment, selects it and returns it;
        a failure records the message, rethrows and leaves the list and selection. */
    method CreateDeployment(answer: ApiResult<Deployment>) returns (outcome: Outcome<Deployment>)
      modifies this
      ensures !isLoading
      ensures answer.Success? ==>
        && outcome == Returned(answer.data)
        && deployments == old(deployments) + [answer.data] && currentId == Some(answer.data.id) && error.None?
      ensures answer.Failure? ==>
        && outcome == Thrown(answer.msg)
        && deployments == old(deployments) && currentId == old(currentId) && error == Some(answer.msg)
    {
      isLoading := true;
      error := None;
      match answer {
        case Success(data) =>
          deployments := deployments + [data];
          currentId := Some(data.id);
          outcome := Returned(data);
        case Failure(msg) =>
          error := Some(msg);
          outcome := Thrown(msg);
      }
      isLoading := false;
    }

    /** `deleteDeployment`: a success removes every entry with the id and, only if that id
        was selected, selects the first remaining one (or nothing); a failure records the
        message and rethrows. */
    method DeleteDeployment(id: string, answer: ApiResult<()>) returns (path: string, outcome: Outcome<()>)
      modifies this
      ensures path == "/api/deployments/" + id
      ensures !isLoading
      ensures answer.Success? ==>
        && outcome == Returned(()) && error.None?
        && deployments == WithoutId(old(deployments), id)
        && currentId == (if old(currentId) == Some(id) then FirstIdOrNull(deployments) else old(currentId))
      ensures answer.Failure? ==>
        && outcome == Thrown(answer.msg)
        && deployments == old(deployments) && currentId == old(currentId) && error == Some(answer.msg)
    {
      path := "/api/deployments/" + id;
      isLoading := true;
      error := None;
      match answer {
        case Success(_) =>
          deployments := WithoutId(deployments, id);
          if currentId == Some(id) {
            currentId := FirstIdOrNull(deployments);
          }
          outcome := Returned(());
        case Failure(msg) =>
          error := Some(msg);
          outcome := Thrown(msg);
      }
      isLoading := false;
    }

    /** `setCurrentDeployment`: the id is taken as given, whether or not it is listed. */
    method SetCurrentDeployment(id: string)
      modifies this
      ensures currentId == Some(id)
      ensures deployments == old(deployments) && isLoading == old(isLoading) && error == old(error)
    {
      currentId := Some(id);
    }
  }
}
