/** The orchestration platform as seen by the operator: pods, deployments and
    pgtask status records in one namespace, plus the trace of every API request
    the operator makes. Each API method takes a `fail` flag: the oracle that
    decides whether the call fails for a reason the model does not see
    (network, version conflict, ...). A missing object makes a call fail too. */
module Kube {

  datatype Option<T> = None | Some(value: T)

  /** A label map. Go reads a missing key as the empty string. */
  type Labels = map<string, string>

  // Label keys shared with the rest of the operator. Only their distinctness matters here.
  const LabelName := "name"
  const LabelPrimary := "primary"
  const LabelPgCluster := "pg-cluster"
  const LabelAutofail := "autofail"
  const LabelServiceName := "service-name"
  const LabelDeploymentName := "deployment-name"
  const LabelTarget := "target"

  /** The container of a database pod that runs PostgreSQL. */
  const DatabaseContainer := "database"

  function Get(labels: Labels, key: string): string
  {
    if key in labels then labels[key] else ""
  }

  datatype ContainerStatus = ContainerStatus(name: string, ready: bool)

  datatype Pod = Pod(
    name: string,
    namespace: string,
    labels: Labels,
    containers: seq<string>,      // names of the spec containers, in order
    statuses: seq<ContainerStatus>)

  /** A deployment is only ever read for its labels; Go's nil label map is None. */
  datatype Deployment = Deployment(labels: Option<Labels>)

  /** One request sent to the platform. */
  datatype Request =
    | GetPod(name: string)
    | ListPods(selector: string)
    | UpdatePod(name: string, labels: Labels)
    | GetDeployment(name: string)
    | DeleteDeployment(name: string)
    | PatchDeployment(name: string, labels: Labels)
    | MergePatchDeployment(name: string, clusterName: string)
    | Exec(pod: string, container: string, command: seq<string>)
    | GetTask(name: string)
    | UpdateTask(name: string, message: string)

  datatype Error =
    | PodNotFound(name: string)
    | DeploymentNotFound(name: string)
    | TaskNotFound(name: string)
    | NoPrimary
    | ManyPrimaries
    | ApiFailure(request: Request)

  /** The Go error text of the errors the operator itself creates. */
  function Message(e: Error): string
  {
    match e
    case NoPrimary => "could not find primary pod"
    case ManyPrimaries => "more than 1 primary pod found in delete primary logic"
    case _ => "api error"
  }

  /** A Go `error`: nil (Pass) or an error value. */
  datatype Outcome = Pass | Fail(error: Error)

  datatype Result<T> = Ok(value: T) | Err(error: Error)

  /** What fetching a pod returns. */
  function LookupPod(pods: map<string, Pod>, name: string, fail: bool): Result<Pod>
  {
    if name !in pods then Err(PodNotFound(name))
    else if fail then Err(ApiFailure(Request.GetPod(name)))
    else Ok(pods[name])
  }

  /** What deleting a deployment returns. */
  function DeleteResult(deployments: map<string, Deployment>, name: string, fail: bool): Outcome
  {
    if name !in deployments then Fail(DeploymentNotFound(name))
    else if fail then Fail(ApiFailure(Request.DeleteDeployment(name)))
    else Pass
  }

  /** The equality selector `key=value`: the label must be present with that value. */
  predicate Selects(labels: Labels, key: string, value: string)
  {
    key in labels && labels[key] == value
  }

  /** Names of the pods the selector `key=value` matches. */
  function Matching(pods: map<string, Pod>, key: string, value: string): set<string>
  {
    set n | n in pods && Selects(pods[n].labels, key, value)
  }

  function Selector(key: string, value: string): string
  {
    key + "=" + value
  }

  function Names(items: seq<Pod>): set<string>
  {
    set q | q in items :: q.name
  }

  lemma {:induction false} NamesAppend(items: seq<Pod>, q: Pod)
    ensures Names(items + [q]) == Names(items) + {q.name}
  {
    forall n | n in Names(items + [q])
      ensures n in Names(items) + {q.name}
    {
      var r :| r in items + [q] && r.name == n;
      if r != q {
        assert r in items;
      }
    }
    forall n | n in Names(items)
      ensures n in Names(items + [q])
    {
      var r :| r in items && r.name == n;
      assert r in items + [q];
    }
    assert q in items + [q];
  }

  /** Lists the pods a label selector matches, in no particular order. */
  method CollectMatching(pods: map<string, Pod>, key: string, value: string) returns (items: seq<Pod>)
    requires forall n :: n in pods ==> pods[n].name == n
    ensures Names(items) == Matching(pods, key, value)
    ensures |items| == |Matching(pods, key, value)|
    ensures forall q :: q in items ==> q.name in pods && pods[q.name] == q
  {
    var all := Matching(pods, key, value);
    var rest := all;
    items := [];
    while rest != {}
      invariant rest <= all
      invariant Names(items) + rest == all
      invariant |items| + |rest| == |all|
      invariant forall q :: q in items ==> q.name in pods && pods[q.name] == q
      decreases |rest|
    {
      var n :| n in rest;
      NamesAppend(items, pods[n]);
      items := items + [pods[n]];
      rest := rest - {n};
    }
  }

  function Base(labels: Option<Labels>): Labels
  {
    match labels
    case None => map[]
    case Some(m) => m
  }

  /** Pods are stored under their own name and, as the platform's validation
      demands, have at least one container. */
  predicate ValidPods(pods: map<string, Pod>)
  {
    forall n :: n in pods ==> pods[n].name == n && |pods[n].containers| > 0
  }

  class Platform {
    var pods: map<string, Pod>
    var deployments: map<string, Deployment>
    var tasks: map<string, string>     // pgtask name -> persisted status message
    var requests: seq<Request>         // every request sent, oldest first

    ghost predicate Valid()
      reads this
    {
      ValidPods(pods)
    }

    method FetchPod(name: string, fail: bool) returns (r: Result<Pod>)
      modifies this`requests
      ensures requests == old(requests) + [Request.GetPod(name)]
      ensures r == LookupPod(pods, name, fail)
    {
      requests := requests + [Request.GetPod(name)];
      r := LookupPod(pods, name, fail);
    }

    method List(key: string, value: string, fail: bool) returns (r: Result<seq<Pod>>)
      requires Valid()
      modifies this`requests
      ensures requests == old(requests) + [Request.ListPods(Selector(key, value))]
      ensures r.Ok? <==> !fail
      ensures r.Ok? ==> Names(r.value) == Matching(pods, key, value)
      ensures r.Ok? ==> |r.value| == |Matching(pods, key, value)|
      ensures r.Ok? ==> forall q :: q in r.value ==> q.name in pods && pods[q.name] == q
    {
      requests := requests + [Request.ListPods(Selector(key, value))];
      if fail {
        r := Err(ApiFailure(Request.ListPods(Selector(key, value))));
      } else {
        var items := CollectMatching(pods, key, value);
        r := Ok(items);
      }
    }

    method Update(pod: Pod, fail: bool) returns (r: Outcome)
      requires Valid() && |pod.containers| > 0
      modifies this`requests, this`pods
      ensures Valid()
      ensures requests == old(requests) + [Request.UpdatePod(pod.name, pod.labels)]
      ensures r == (if pod.name !in old(pods) then Fail(PodNotFound(pod.name))
                    else if fail then Fail(ApiFailure(Request.UpdatePod(pod.name, pod.labels)))
                    else Pass)
      ensures pods == if r.Pass? then old(pods)[pod.name := pod] else old(pods)
    {
      requests := requests + [Request.UpdatePod(pod.name, pod.labels)];
      if pod.name !in pods {
        r := Fail(PodNotFound(pod.name));
      } else if fail {
        r := Fail(ApiFailure(Request.UpdatePod(pod.name, pod.labels)));
      } else {
        r := Pass;
        pods := pods[pod.name := pod];
      }
    }

    method FetchDeployment(name: string, fail: bool) returns (r: Result<Deployment>)
      modifies this`requests
      ensures requests == old(requests) + [Request.GetDeployment(name)]
      ensures r == (if name !in deployments then Err(DeploymentNotFound(name))
                    else if fail then Err(ApiFailure(Request.GetDeployment(name)))
                    else Ok(deployments[name]))
    {
      requests := requests + [Request.GetDeployment(name)];
      if name !in deployments {
        r := Err(DeploymentNotFound(name));
      } else if fail {
        r := Err(ApiFailure(Request.GetDeployment(name)));
      } else {
        r := Ok(deployments[name]);
      }
    }

    method Delete(name: string, fail: bool) returns (r: Outcome)
      modifies this`requests, this`deployments
      ensures requests == old(requests) + [Request.DeleteDeployment(name)]
      ensures r == DeleteResult(old(deployments), name, fail)
      ensures deployments == if r.Pass? then old(deployments) - {name} else old(deployments)
    {
      requests := requests + [Request.DeleteDeployment(name)];
      if name !in deployments {
        r := Fail(DeploymentNotFound(name));
      } else if fail {
        r := Fail(ApiFailure(Request.DeleteDeployment(name)));
      } else {
        r := Pass;
        deployments := deployments - {name};
      }
    }

    /** A merge patch of the deployment's labels: the patched keys take the
        patch's values, the others keep theirs. */
    method Patch(name: string, labels: Labels, fail: bool) returns (r: Outcome)
      modifies this`requests, this`deployments
      ensures requests == old(requests) + [Request.PatchDeployment(name, labels)]
      ensures r == (if name !in old(deployments) then Fail(DeploymentNotFound(name))
                    else if fail then Fail(ApiFailure(Request.PatchDeployment(name, labels)))
                    else Pass)
      ensures deployments == if r.Pass?
        then old(deployments)[name := Deployment(Some(Base(old(deployments)[name].labels) + labels))]
        else old(deployments)
    {
      requests := requests + [Request.PatchDeployment(name, labels)];
      if name !in deployments {
        r := Fail(DeploymentNotFound(name));
      } else if fail {
        r := Fail(ApiFailure(Request.PatchDeployment(name, labels)));
      } else {
        r := Pass;
        deployments := deployments[name := Deployment(Some(Base(deployments[name].labels) + labels))];
      }
    }

    /** The operator's own deployment merge-patch helper; what it changes is not modelled. */
    method MergePatch(name: string, clusterName: string, fail: bool) returns (r: Outcome)
      modifies this`requests
      ensures requests == old(requests) + [Request.MergePatchDeployment(name, clusterName)]
      ensures r == (if name !in deployments then Fail(DeploymentNotFound(name))
                    else if fail then Fail(ApiFailure(Request.MergePatchDeployment(name, clusterName)))
                    else Pass)
    {
      requests := requests + [Request.MergePatchDeployment(name, clusterName)];
      if name !in deployments {
        r := Fail(DeploymentNotFound(name));
      } else if fail {
        r := Fail(ApiFailure(Request.MergePatchDeployment(name, clusterName)));
      } else {
        r := Pass;
      }
    }

    /** Runs a command in a container; its output is only logged, so it is not modelled. */
    method ExecIn(pod: string, container: string, command: seq<string>, fail: bool) returns (r: Outcome)
      modifies this`requests
      ensures requests == old(requests) + [Request.Exec(pod, container, command)]
      ensures r == (if pod !in pods then Fail(PodNotFound(pod))
                    else if fail then Fail(ApiFailure(Request.Exec(pod, container, command)))
                    else Pass)
    {
      requests := requests + [Request.Exec(pod, container, command)];
      if pod !in pods {
        r := Fail(PodNotFound(pod));
      } else if fail {
        r := Fail(ApiFailure(Request.Exec(pod, container, command)));
      } else {
        r := Pass;
      }
    }

    method FetchTask(name: string, fail: bool) returns (r: Outcome)
      modifies this`requests
      ensures requests == old(requests) + [Request.GetTask(name)]
      ensures r.Pass? <==> name in tasks && !fail
    {
      requests := requests + [Request.GetTask(name)];
      if name !in tasks {
        r := Fail(TaskNotFound(name));
      } else if fail {
        r := Fail(ApiFailure(Request.GetTask(name)));
      } else {
        r := Pass;
      }
    }

    method StoreTask(name: string, message: string, fail: bool) returns (r: Outcome)
      modifies this`requests, this`tasks
      ensures requests == old(requests) + [Request.UpdateTask(name, message)]
      ensures r.Pass? <==> name in old(tasks) && !fail
      ensures tasks == if r.Pass? then old(tasks)[name := message] else old(tasks)
    {
      requests := requests + [Request.UpdateTask(name, message)];
      if name !in tasks {
        r := Fail(TaskNotFound(name));
      } else if fail {
        r := Fail(ApiFailure(Request.UpdateTask(name, message)));
      } else {
        r := Pass;
        tasks := tasks[name := message];
      }
    }
  }
}
