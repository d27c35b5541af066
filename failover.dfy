/** Strategy 1 failover: replace a cluster's primary by a chosen replica.
    The steps run in a fixed order; looking up the candidate, deleting the old
    primary's deployment and relabelling the candidate are fatal when they fail,
    status reports and the promote command are not. */
module ClusterFailover {
  import opened Kube

  /** The command run inside the candidate to promote it. */
  const PromoteCommand: seq<string> := ["/opt/cpm/bin/promote.sh"]

  /** A pgtask: its name and labels are fixed, its status message is updated in place. */
  class Task {
    const name: string
    const labels: Labels
    var message: string

    constructor (name: string, labels: Labels, message: string)
      ensures this.name == name && this.labels == labels && this.message == message
    {
      this.name := name;
      this.labels := labels;
      this.message := message;
    }
  }

  /** The pod the task asks to promote. */
  function Target(task: Task): string
  {
    Get(task.labels, LabelTarget)
  }

  // The fixed parts of the three status messages.
  const DeletingText := "deleting primary deployment "
  const PromotingText := "promoting pod "
  const TargetText := " target "
  const RelabelingText := "re-labeling deployment...pod "
  const CompletedText := "was the failover target...failover completed"

  function DeletingMessage(clusterName: string): string
  {
    DeletingText + clusterName
  }

  function PromotingMessage(pod: string, target: string): string
  {
    PromotingText + pod + TargetText + target
  }

  function CompletedMessage(pod: string): string
  {
    RelabelingText + pod + CompletedText
  }

  // ---------------------------------------------------------------------------
  // Status reports

  /** Which of the two calls of one status report fail. */
  datatype StatusFaults = StatusFaults(getFails: bool, updateFails: bool)

  /** The task could be fetched, so the in-memory message gets set. */
  predicate Fetches(tasks: map<string, string>, name: string, f: StatusFaults)
  {
    name in tasks && !f.getFails
  }

  function StatusRequests(tasks: map<string, string>, name: string, message: string, f: StatusFaults): seq<Request>
  {
    [Request.GetTask(name)] + if Fetches(tasks, name, f) then [Request.UpdateTask(name, message)] else []
  }

  function MessageAfter(current: string, tasks: map<string, string>, name: string, message: string, f: StatusFaults): string
  {
    if Fetches(tasks, name, f) then message else current
  }

  function StoreAfter(tasks: map<string, string>, name: string, message: string, f: StatusFaults): map<string, string>
  {
    if Fetches(tasks, name, f) && !f.updateFails then tasks[name := message] else tasks
  }

  /** Best-effort status report: fetch the task, set its message, persist it.
      Any failure is swallowed; there is no result. */
  method UpdateFailoverStatus(p: Platform, task: Task, message: string, f: StatusFaults)
    modifies p`requests, p`tasks, task`message
    ensures p.requests == old(p.requests) + StatusRequests(old(p.tasks), task.name, message, f)
    ensures task.message == MessageAfter(old(task.message), old(p.tasks), task.name, message, f)
    ensures p.tasks == StoreAfter(old(p.tasks), task.name, message, f)
    ensures p.tasks.Keys == old(p.tasks).Keys
    ensures Fetches(old(p.tasks), task.name, f) ==> task.message == message
    ensures !Fetches(old(p.tasks), task.name, f) ==> task.message == old(task.message) && p.tasks == old(p.tasks)
  {
    var fetched := p.FetchTask(task.name, f.getFails);
    if fetched.Fail? {
      return;
    }
    task.message := message;
    var stored := p.StoreTask(task.name, task.message, f.updateFails);
    if stored.Fail? {
      return;
    }
  }

  /** The messages of the task updates in a request trace, in order. */
  function StatusUpdates(requests: seq<Request>): seq<string>
  {
    if requests == [] then []
    else StatusUpdates(requests[..|requests| - 1])
         + match requests[|requests| - 1]
           case UpdateTask(_, message) => [message]
           case _ => []
  }

  lemma {:induction false} StatusUpdatesAppend(a: seq<Request>, b: seq<Request>)
    ensures StatusUpdates(a + b) == StatusUpdates(a) + StatusUpdates(b)
    decreases |b|
  {
    if b != [] {
      assert (a + b)[..|a + b| - 1] == a + b[..|b| - 1];
      StatusUpdatesAppend(a, b[..|b| - 1]);
    } else {
      assert a + b == a;
    }
  }

  // ---------------------------------------------------------------------------
  // Resolving and deleting the primary

  /** The primary is the only pod whose service-name is the bare cluster name;
      its deployment-name label names the deployment to delete. A failed list
      counts as an empty one. */
  ghost function ResolvePrimary(pods: map<string, Pod>, clusterName: string, listFails: bool): Result<string>
  {
    var found := if listFails then {} else Matching(pods, LabelServiceName, clusterName);
    if |found| == 0 then Err(NoPrimary)
    else if |found| > 1 then Err(ManyPrimaries)
    else var n :| n in found; Ok(Get(pods[n].labels, LabelDeploymentName))
  }

  lemma {:induction false} NoPrimaryRefused(pods: map<string, Pod>, clusterName: string)
    requires forall n :: n in pods ==> !Selects(pods[n].labels, LabelServiceName, clusterName)
    ensures ResolvePrimary(pods, clusterName, false) == Err(NoPrimary)
    ensures Message(ResolvePrimary(pods, clusterName, false).error) == "could not find primary pod"
  {
    assert Matching(pods, LabelServiceName, clusterName) == {};
  }

  lemma {:induction false} UniquePrimaryResolved(pods: map<string, Pod>, clusterName: string, n: string)
    requires n in pods && Selects(pods[n].labels, LabelServiceName, clusterName)
    requires forall m :: m in pods && Selects(pods[m].labels, LabelServiceName, clusterName) ==> m == n
    ensures ResolvePrimary(pods, clusterName, false) == Ok(Get(pods[n].labels, LabelDeploymentName))
  {
    assert Matching(pods, LabelServiceName, clusterName) == {n};
  }

  lemma {:induction false} AmbiguousPrimaryRefused(pods: map<string, Pod>, clusterName: string, a: string, b: string)
    requires a != b && a in pods && b in pods
    requires Selects(pods[a].labels, LabelServiceName, clusterName)
    requires Selects(pods[b].labels, LabelServiceName, clusterName)
    ensures ResolvePrimary(pods, clusterName, false) == Err(ManyPrimaries)
    ensures Message(ResolvePrimary(pods, clusterName, false).error)
            == "more than 1 primary pod found in delete primary logic"
  {
    var found := Matching(pods, LabelServiceName, clusterName);
    assert {a, b} <= found;
    assert |{a, b}| == 2;
    SubsetSize({a, b}, found);
  }

  lemma {:induction false} SubsetSize(small: set<string>, large: set<string>)
    requires small <= large
    ensures |small| <= |large|
  {
    assert large == small + (large - small);
  }

  lemma {:induction false} SingletonSet(s: set<string>, x: string)
    requires |s| == 1 && x in s
    ensures s == {x}
  {
    assert |s - {x}| == 0;
  }

  /** Deletes the deployment of the unique primary pod; zero or several primaries
      is an error and nothing is deleted. */
  method DeletePrimary(p: Platform, clusterName: string, listFails: bool, deleteFails: bool) returns (r: Outcome)
    requires p.Valid()
    modifies p`requests, p`deployments
    ensures var res := ResolvePrimary(old(p.pods), clusterName, listFails);
      && p.requests == old(p.requests) + [Request.ListPods(Selector(LabelServiceName, clusterName))]
                         + (if res.Ok? then [Request.DeleteDeployment(res.value)] else [])
      && (res.Err? ==> r == Fail(res.error) && p.deployments == old(p.deployments))
      && (res.Ok? ==> r == DeleteResult(old(p.deployments), res.value, deleteFails))
      && (res.Ok? ==> p.deployments == if r.Pass? then old(p.deployments) - {res.value} else old(p.deployments))
  {
    ghost var found := if listFails then {} else Matching(p.pods, LabelServiceName, clusterName);
    var listed := p.List(LabelServiceName, clusterName, listFails);
    var items := if listed.Ok? then listed.value else [];
    assert |items| == |found|;
    if |items| == 0 {
      return Fail(NoPrimary);
    }
    if |items| > 1 {
      return Fail(ManyPrimaries);
    }
    assert items[0] in items;
    SingletonSet(found, items[0].name);
    var deploymentToDelete := Get(items[0].labels, LabelDeploymentName);
    r := p.Delete(deploymentToDelete, deleteFails);
  }

  /** Runs the promote command in the candidate's first container. */
  method Promote(p: Platform, pod: Pod, fail: bool) returns (r: Outcome)
    requires |pod.containers| > 0
    modifies p`requests
    ensures p.requests == old(p.requests) + [Request.Exec(pod.name, pod.containers[0], PromoteCommand)]
    ensures r.Pass? <==> pod.name in p.pods && !fail
  {
    r := p.ExecIn(pod.name, pod.containers[0], PromoteCommand, fail);
  }

  // ---------------------------------------------------------------------------
  // The failover procedure

  /** Which external call of one failover run fails. */
  datatype FailoverFaults = FailoverFaults(
    candidate: bool,
    list: bool,
    delete: bool,
    deleting: StatusFaults,
    exec: bool,
    promoting: StatusFaults,
    refetch: bool,
    relabel: bool,
    completed: StatusFaults)

  /** The old primary's deployment is resolved and deleted. */
  ghost predicate PrimaryDeleted(pods: map<string, Pod>, deployments: map<string, Deployment>,
                                 clusterName: string, f: FailoverFaults)
  {
    var res := ResolvePrimary(pods, clusterName, f.list);
    res.Ok? && DeleteResult(deployments, res.value, f.delete).Pass?
  }

  /** What one failover run returns, sends and leaves behind. */
  datatype Run = Run(
    result: Outcome,
    requests: seq<Request>,
    pods: map<string, Pod>,
    deployments: map<string, Deployment>,
    tasks: map<string, string>,
    message: string)

  /** The candidate with its service-name set to the cluster name. */
  function WithServiceName(pod: Pod, clusterName: string): Pod
  {
    pod.(labels := pod.labels[LabelServiceName := clusterName])
  }

  // Steps 3 to 5: report, run the promote command (whatever its outcome), report.

  function PromotionRequests(tasks: map<string, string>, taskName: string, clusterName: string,
                             pod: Pod, target: string, f: FailoverFaults): seq<Request>
    requires |pod.containers| > 0
  {
    var afterDeleting := StoreAfter(tasks, taskName, DeletingMessage(clusterName), f.deleting);
    StatusRequests(tasks, taskName, DeletingMessage(clusterName), f.deleting)
    + [Request.Exec(pod.name, pod.containers[0], PromoteCommand)]
    + StatusRequests(afterDeleting, taskName, PromotingMessage(pod.name, target), f.promoting)
  }

  function PromotionTasks(tasks: map<string, string>, taskName: string, clusterName: string,
                          pod: string, target: string, f: FailoverFaults): map<string, string>
  {
    var afterDeleting := StoreAfter(tasks, taskName, DeletingMessage(clusterName), f.deleting);
    StoreAfter(afterDeleting, taskName, PromotingMessage(pod, target), f.promoting)
  }

  function PromotionMessage(current: string, tasks: map<string, string>, taskName: string,
                            clusterName: string, pod: string, target: string, f: FailoverFaults): string
  {
    var afterDeleting := StoreAfter(tasks, taskName, DeletingMessage(clusterName), f.deleting);
    var m := MessageAfter(current, tasks, taskName, DeletingMessage(clusterName), f.deleting);
    MessageAfter(m, afterDeleting, taskName, PromotingMessage(pod, target), f.promoting)
  }

  method ReportAndPromote(p: Platform, clusterName: string, task: Task, pod: Pod, f: FailoverFaults)
    requires |pod.containers| > 0
    modifies p`requests, p`tasks, task`message
    ensures p.requests == old(p.requests)
                          + PromotionRequests(old(p.tasks), task.name, clusterName, pod, Target(task), f)
    ensures p.tasks == PromotionTasks(old(p.tasks), task.name, clusterName, pod.name, Target(task), f)
    ensures p.tasks.Keys == old(p.tasks).Keys
    ensures task.message
            == PromotionMessage(old(task.message), old(p.tasks), task.name, clusterName, pod.name, Target(task), f)
  {
    UpdateFailoverStatus(p, task, DeletingMessage(clusterName), f.deleting);
    // The promote command's error is dropped: Failover overwrites it with the re-fetch's.
    var promoted := Promote(p, pod, f.exec);
    UpdateFailoverStatus(p, task, PromotingMessage(pod.name, Target(task)), f.promoting);
  }

  // Steps 6 and 7: re-fetch the candidate and set its service-name to the
  // cluster name (fatal on failure), then report completion.

  function RelabelRequests(tasks: map<string, string>, taskName: string, clusterName: string,
                           pod: Pod, f: FailoverFaults): seq<Request>
  {
    [Request.GetPod(pod.name)]
    + (if f.refetch then [] else [Request.UpdatePod(pod.name, pod.labels[LabelServiceName := clusterName])])
    + (if f.refetch || f.relabel then [] else StatusRequests(tasks, taskName, CompletedMessage(pod.name), f.completed))
  }

  function RelabelResult(pod: Pod, clusterName: string, f: FailoverFaults): Outcome
  {
    if f.refetch then Fail(ApiFailure(Request.GetPod(pod.name)))
    else if f.relabel then Fail(ApiFailure(Request.UpdatePod(pod.name, pod.labels[LabelServiceName := clusterName])))
    else Pass
  }

  method RelabelAndReport(p: Platform, clusterName: string, task: Task, pod: Pod, f: FailoverFaults)
    returns (r: Outcome)
    requires p.Valid() && pod.name in p.pods && p.pods[pod.name] == pod
    modifies p`requests, p`pods, p`tasks, task`message
    ensures p.Valid()
    ensures p.requests == old(p.requests) + RelabelRequests(old(p.tasks), task.name, clusterName, pod, f)
    ensures r == RelabelResult(pod, clusterName, f)
    ensures p.pods == if r.Pass? then old(p.pods)[pod.name := WithServiceName(pod, clusterName)]
                      else old(p.pods)
    ensures p.tasks == if r.Pass? then StoreAfter(old(p.tasks), task.name, CompletedMessage(pod.name), f.completed)
                       else old(p.tasks)
    ensures task.message == if r.Pass? then MessageAfter(old(task.message), old(p.tasks), task.name,
                                                         CompletedMessage(pod.name), f.completed)
                            else old(task.message)
  {
    var refetched := p.FetchPod(pod.name, f.refetch);
    if refetched.Err? {
      return Fail(refetched.error);
    }
    var upod := refetched.value;
    upod := upod.(labels := upod.labels[LabelServiceName := clusterName]);
    r := p.Update(upod, f.relabel);
    if r.Fail? {
      return;
    }
    UpdateFailoverStatus(p, task, CompletedMessage(pod.name), f.completed);
  }

  /** Steps 3 to 7 once the old primary's deployment is gone: report, promote,
      report, relabel the candidate (fatal on failure), report. */
  function Completion(pods: map<string, Pod>, deployments: map<string, Deployment>,
                      tasks: map<string, string>, message: string,
                      clusterName: string, taskName: string, candidate: Pod, target: string,
                      f: FailoverFaults): Run
    requires |candidate.containers| > 0
  {
    var promotedTasks := PromotionTasks(tasks, taskName, clusterName, candidate.name, target, f);
    var promotedMessage := PromotionMessage(message, tasks, taskName, clusterName, candidate.name, target, f);
    var r := RelabelResult(candidate, clusterName, f);
    Run(r,
        PromotionRequests(tasks, taskName, clusterName, candidate, target, f)
        + RelabelRequests(promotedTasks, taskName, clusterName, candidate, f),
        if r.Pass? then pods[candidate.name := WithServiceName(candidate, clusterName)] else pods,
        deployments,
        if r.Pass? then StoreAfter(promotedTasks, taskName, CompletedMessage(candidate.name), f.completed)
        else promotedTasks,
        if r.Pass? then MessageAfter(promotedMessage, promotedTasks, taskName, CompletedMessage(candidate.name), f.completed)
        else promotedMessage)
  }

  method PromoteAndRelabel(p: Platform, clusterName: string, task: Task, pod: Pod, f: FailoverFaults)
    returns (r: Outcome)
    requires p.Valid() && pod.name in p.pods && p.pods[pod.name] == pod
    modifies p`requests, p`pods, p`tasks, task`message
    ensures p.Valid()
    ensures var done := Completion(old(p.pods), old(p.deployments), old(p.tasks), old(task.message),
                                   clusterName, task.name, pod, Target(task), f);
      && r == done.result
      && p.requests == old(p.requests) + done.requests
      && p.pods == done.pods && p.tasks == done.tasks && task.message == done.message
  {
    ReportAndPromote(p, clusterName, task, pod, f);
    r := RelabelAndReport(p, clusterName, task, pod, f);
  }

  /** A status report that goes through stores exactly its message. */
  lemma {:induction false} ReportUpdates(tasks: map<string, string>, name: string, message: string)
    requires name in tasks
    ensures StatusUpdates(StatusRequests(tasks, name, message, StatusFaults(false, false))) == [message]
  {
    var rs := StatusRequests(tasks, name, message, StatusFaults(false, false));
    var get := [Request.GetTask(name)];
    assert rs == get + [Request.UpdateTask(name, message)];
    assert rs[..|rs| - 1] == get;
    assert get[..|get| - 1] == [];
    assert StatusUpdates(get) == [];
  }

  /** Steps 3 to 5 store "deleting" then "promoting" when both reports go through. */
  lemma {:induction false} PromotionUpdates(tasks: map<string, string>, taskName: string, clusterName: string,
                                            pod: Pod, target: string, f: FailoverFaults)
    requires |pod.containers| > 0 && taskName in tasks
    requires f.deleting == f.promoting == StatusFaults(false, false)
    ensures StatusUpdates(PromotionRequests(tasks, taskName, clusterName, pod, target, f))
            == [DeletingMessage(clusterName), PromotingMessage(pod.name, target)]
    ensures taskName in PromotionTasks(tasks, taskName, clusterName, pod.name, target, f)
  {
    var afterDeleting := StoreAfter(tasks, taskName, DeletingMessage(clusterName), f.deleting);
    var a := StatusRequests(tasks, taskName, DeletingMessage(clusterName), f.deleting);
    var b := [Request.Exec(pod.name, pod.containers[0], PromoteCommand)];
    var c := StatusRequests(afterDeleting, taskName, PromotingMessage(pod.name, target), f.promoting);
    assert PromotionRequests(tasks, taskName, clusterName, pod, target, f) == a + b + c;
    StatusUpdatesAppend(a + b, c);
    StatusUpdatesAppend(a, b);
    ReportUpdates(tasks, taskName, DeletingMessage(clusterName));
    ReportUpdates(afterDeleting, taskName, PromotingMessage(pod.name, target));
    assert StatusUpdates(b) == [] by {
      assert b[..0] == [];
    }
  }

  /** Steps 6 and 7 store only "completed" when the relabel and its report go through. */
  lemma {:induction false} RelabelUpdates(tasks: map<string, string>, taskName: string, clusterName: string,
                                          pod: Pod, f: FailoverFaults)
    requires taskName in tasks && !f.refetch && !f.relabel
    requires f.completed == StatusFaults(false, false)
    ensures StatusUpdates(RelabelRequests(tasks, taskName, clusterName, pod, f)) == [CompletedMessage(pod.name)]
  {
    var d := [Request.GetPod(pod.name), Request.UpdatePod(pod.name, pod.labels[LabelServiceName := clusterName])];
    var e := StatusRequests(tasks, taskName, CompletedMessage(pod.name), f.completed);
    assert RelabelRequests(tasks, taskName, clusterName, pod, f) == d + e;
    StatusUpdatesAppend(d, e);
    ReportUpdates(tasks, taskName, CompletedMessage(pod.name));
    assert StatusUpdates(d) == [] by {
      assert d[..1] == [Request.GetPod(pod.name)];
      assert d[..1][..0] == [];
    }
  }

  /** The requests of steps 1 and 2: fetch the candidate, list the primaries. */
  function ResolveRequests(target: string, clusterName: string): seq<Request>
  {
    [Request.GetPod(target), Request.ListPods(Selector(LabelServiceName, clusterName))]
  }

  /** The failover of clusterName to the task's target, from the given platform
      state, task message and faults: the steps in order, each fatal step ending
      the run with its error. */
  ghost function FailoverRun(pods: map<string, Pod>, deployments: map<string, Deployment>,
                             tasks: map<string, string>, message: string,
                             clusterName: string, taskName: string, target: string, f: FailoverFaults): Run
    requires ValidPods(pods)
  {
    var lookup := LookupPod(pods, target, f.candidate);
    if lookup.Err? then Run(Fail(lookup.error), [Request.GetPod(target)], pods, deployments, tasks, message)
    else
      var res := ResolvePrimary(pods, clusterName, f.list);
      if res.Err? then Run(Fail(res.error), ResolveRequests(target, clusterName), pods, deployments, tasks, message)
      else
        var deleted := DeleteResult(deployments, res.value, f.delete);
        var resolved := ResolveRequests(target, clusterName) + [Request.DeleteDeployment(res.value)];
        if deleted.Fail? then Run(deleted, resolved, pods, deployments, tasks, message)
        else
          var done := Completion(pods, deployments - {res.value}, tasks, message, clusterName, taskName,
                                 lookup.value, target, f);
          done.(requests := resolved + done.requests)
  }

  /** Only the fatal steps decide the result: neither the promote command nor a
      status report does. */
  lemma FailoverPassesExactly(pods: map<string, Pod>, deployments: map<string, Deployment>,
                              tasks: map<string, string>, message: string,
                              clusterName: string, taskName: string, target: string, f: FailoverFaults)
    requires ValidPods(pods)
    ensures FailoverRun(pods, deployments, tasks, message, clusterName, taskName, target, f).result.Pass?
            <==> target in pods && !f.candidate
                 && PrimaryDeleted(pods, deployments, clusterName, f)
                 && !f.refetch && !f.relabel
  {
  }

  /** An unfetchable candidate: its error is returned and nothing else happens. */
  lemma FailoverCandidateMissing(pods: map<string, Pod>, deployments: map<string, Deployment>,
                                 tasks: map<string, string>, message: string,
                                 clusterName: string, taskName: string, target: string, f: FailoverFaults)
    requires ValidPods(pods)
    requires target !in pods || f.candidate
    ensures var run := FailoverRun(pods, deployments, tasks, message, clusterName, taskName, target, f);
      && run.result == (if target !in pods then Fail(PodNotFound(target)) else Fail(ApiFailure(Request.GetPod(target))))
      && run.requests == [Request.GetPod(target)]
      && run.pods == pods && run.deployments == deployments
      && run.tasks == tasks && run.message == message
  {
  }

  /** No single primary, or its deployment cannot be deleted: that error is
      returned before any status report, exec or relabel, and nothing changes. */
  lemma FailoverStopsBeforeReports(pods: map<string, Pod>, deployments: map<string, Deployment>,
                                   tasks: map<string, string>, message: string,
                                   clusterName: string, taskName: string, target: string, f: FailoverFaults)
    requires ValidPods(pods)
    requires target in pods && !f.candidate
    requires !PrimaryDeleted(pods, deployments, clusterName, f)
    ensures var run := FailoverRun(pods, deployments, tasks, message, clusterName, taskName, target, f);
      var res := ResolvePrimary(pods, clusterName, f.list);
      && run.result == (if res.Err? then Fail(res.error) else DeleteResult(deployments, res.value, f.delete))
      && run.requests == ResolveRequests(target, clusterName)
                         + (if res.Ok? then [Request.DeleteDeployment(res.value)] else [])
      && run.pods == pods && run.deployments == deployments
      && run.tasks == tasks && run.message == message
      && StatusUpdates(run.requests) == []
  {
    var res := ResolvePrimary(pods, clusterName, f.list);
    var rs := ResolveRequests(target, clusterName);
    NoStatusUpdates(rs);
    if res.Ok? {
      NoStatusUpdates(rs + [Request.DeleteDeployment(res.value)]);
    }
  }

  /** Once the old primary's deployment is deleted it stays deleted, whatever
      the later steps do, and no other deployment is touched. */
  lemma FailoverDeletesPrimary(pods: map<string, Pod>, deployments: map<string, Deployment>,
                               tasks: map<string, string>, message: string,
                               clusterName: string, taskName: string, target: string, f: FailoverFaults)
    requires ValidPods(pods)
    requires target in pods && !f.candidate
    requires PrimaryDeleted(pods, deployments, clusterName, f)
    ensures var run := FailoverRun(pods, deployments, tasks, message, clusterName, taskName, target, f);
      var primary := ResolvePrimary(pods, clusterName, f.list).value;
      && primary in deployments
      && run.deployments == deployments - {primary}
      && run.requests[..3] == ResolveRequests(target, clusterName) + [Request.DeleteDeployment(primary)]
  {
  }

  /** A successful failover leaves the candidate selected by the primary service,
      with its other labels as they were, and no other pod changed. */
  lemma FailoverRelabelsCandidate(pods: map<string, Pod>, deployments: map<string, Deployment>,
                                  tasks: map<string, string>, message: string,
                                  clusterName: string, taskName: string, target: string, f: FailoverFaults)
    requires ValidPods(pods)
    ensures var run := FailoverRun(pods, deployments, tasks, message, clusterName, taskName, target, f);
      run.result.Pass? ==>
        && ValidPods(run.pods)
        && target in run.pods
        && run.pods[target] == WithServiceName(pods[target], clusterName)
        && Selects(run.pods[target].labels, LabelServiceName, clusterName)
        && run.pods[target].labels - {LabelServiceName} == pods[target].labels - {LabelServiceName}
        && run.pods - {target} == pods - {target}
  {
    var run := FailoverRun(pods, deployments, tasks, message, clusterName, taskName, target, f);
    if run.result.Pass? {
      assert run.pods == pods[target := WithServiceName(pods[target], clusterName)];
      RelabeledPods(pods, target, clusterName);
    }
  }

  /** Relabelling one stored pod keeps the pods valid and touches nothing else. */
  lemma RelabeledPods(pods: map<string, Pod>, target: string, clusterName: string)
    requires ValidPods(pods) && target in pods
    ensures var after := pods[target := WithServiceName(pods[target], clusterName)];
      && ValidPods(after)
      && Selects(after[target].labels, LabelServiceName, clusterName)
      && after[target].labels - {LabelServiceName} == pods[target].labels - {LabelServiceName}
      && after - {target} == pods - {target}
  {
  }

  /** A request trace without task updates stores no status message. */
  lemma {:induction false} NoStatusUpdates(rs: seq<Request>)
    requires forall i :: 0 <= i < |rs| ==> !rs[i].UpdateTask?
    ensures StatusUpdates(rs) == []
  {
    if rs != [] {
      NoStatusUpdates(rs[..|rs| - 1]);
    }
  }

  /** With every status report going through, a successful failover reports
      "deleting", "promoting" and "completed", in that order and nothing else. */
  lemma {:induction false} FailoverReportsInOrder(pods: map<string, Pod>, deployments: map<string, Deployment>,
                                                  tasks: map<string, string>, message: string,
                                                  clusterName: string, taskName: string, target: string,
                                                  f: FailoverFaults)
    requires ValidPods(pods)
    requires taskName in tasks
    requires f.deleting == f.promoting == f.completed == StatusFaults(false, false)
    requires target in pods && !f.candidate && PrimaryDeleted(pods, deployments, clusterName, f)
    requires !f.refetch && !f.relabel
    ensures StatusUpdates(FailoverRun(pods, deployments, tasks, message, clusterName, taskName, target, f).requests)
            == [DeletingMessage(clusterName), PromotingMessage(target, target), CompletedMessage(target)]
  {
    var candidate := pods[target];
    var primary := ResolvePrimary(pods, clusterName, f.list).value;
    var head := ResolveRequests(target, clusterName) + [Request.DeleteDeployment(primary)];
    var promotion := PromotionRequests(tasks, taskName, clusterName, candidate, target, f);
    var promotedTasks := PromotionTasks(tasks, taskName, clusterName, target, target, f);
    var relabel := RelabelRequests(promotedTasks, taskName, clusterName, candidate, f);
    assert FailoverRun(pods, deployments, tasks, message, clusterName, taskName, target, f).requests
           == head + promotion + relabel;
    NoStatusUpdates(head);
    StatusUpdatesAppend(head + promotion, relabel);
    StatusUpdatesAppend(head, promotion);
    PromotionUpdates(tasks, taskName, clusterName, candidate, target, f);
    RelabelUpdates(promotedTasks, taskName, clusterName, candidate, f);
  }

  /** Fails the cluster over to the replica the task targets. */
  method Failover(p: Platform, clusterName: string, task: Task, f: FailoverFaults) returns (r: Outcome)
    requires p.Valid()
    modifies p`requests, p`pods, p`deployments, p`tasks, task`message
    ensures p.Valid()
    ensures var run := FailoverRun(old(p.pods), old(p.deployments), old(p.tasks), old(task.message),
                                   clusterName, task.name, Target(task), f);
      && r == run.result
      && p.requests == old(p.requests) + run.requests
      && p.pods == run.pods && p.deployments == run.deployments
      && p.tasks == run.tasks && task.message == run.message
  {
    ghost var start := p.requests;
    var target := Target(task);
    var found := p.FetchPod(target, f.candidate);
    if found.Err? {
      return Fail(found.error);
    }
    var pod := found.value;
    ghost var res := ResolvePrimary(p.pods, clusterName, f.list);
    r := DeletePrimary(p, clusterName, f.list, f.delete);
    ghost var deleting := if res.Ok? then [Request.DeleteDeployment(res.value)] else [];
    RegroupResolved(start, Request.GetPod(target), Request.ListPods(Selector(LabelServiceName, clusterName)), deleting);
    if r.Fail? {
      return;
    }
    ghost var done := Completion(p.pods, p.deployments, p.tasks, task.message, clusterName, task.name, pod, target, f);
    r := PromoteAndRelabel(p, clusterName, task, pod, f);
    RegroupCompleted(start, Request.GetPod(target), Request.ListPods(Selector(LabelServiceName, clusterName)),
                     deleting, done.requests);
  }

  lemma RegroupResolved(start: seq<Request>, get: Request, list: Request, deleting: seq<Request>)
    ensures start + [get] + [list] + deleting == start + ([get, list] + deleting)
  {
  }

  lemma RegroupCompleted(start: seq<Request>, get: Request, list: Request, deleting: seq<Request>, rest: seq<Request>)
    ensures start + [get] + [list] + deleting + rest == start + (([get, list] + deleting) + rest)
  {
  }

  // ---------------------------------------------------------------------------
  // The alternate relabelling path (not called by Failover)

  /** The labels relabel puts on the target deployment. */
  function PrimaryLabels(clusterName: string): Labels
  {
    map[LabelName := clusterName, LabelPrimary := "true"]
  }

  /** Merges newLabels into a label map that may be nil. */
  method MergeLabels(objLabels: Option<Labels>, newLabels: Labels) returns (merged: Labels)
    ensures merged.Keys == Base(objLabels).Keys + newLabels.Keys
    ensures forall k :: k in newLabels ==> merged[k] == newLabels[k]
    ensures forall k :: k in Base(objLabels) && k !in newLabels ==> merged[k] == Base(objLabels)[k]
  {
    merged := if objLabels.None? then map[] else objLabels.value;
    ghost var base := merged;
    var pending := newLabels.Keys;
    while pending != {}
      invariant pending <= newLabels.Keys
      invariant merged.Keys == base.Keys + (newLabels.Keys - pending)
      invariant forall k :: k in newLabels && k !in pending ==> merged[k] == newLabels[k]
      invariant forall k :: k in base && (k !in newLabels || k in pending) ==> merged[k] == base[k]
      decreases pending
    {
      var key :| key in pending;
      merged := merged[key := newLabels[key]];
      pending := pending - {key};
    }
  }

  lemma MergedIsUnion(objLabels: Option<Labels>, newLabels: Labels, merged: Labels)
    requires merged.Keys == Base(objLabels).Keys + newLabels.Keys
    requires forall k :: k in newLabels ==> merged[k] == newLabels[k]
    requires forall k :: k in Base(objLabels) && k !in newLabels ==> merged[k] == Base(objLabels)[k]
    ensures merged == Base(objLabels) + newLabels
  {
  }

  /** Merges newLabels into the deployment's labels and patches the deployment `name`. */
  method UpdateLabels(p: Platform, deployment: Deployment, name: string, newLabels: Labels, fail: bool)
    returns (r: Outcome)
    modifies p`requests, p`deployments
    ensures p.requests == old(p.requests) + [Request.PatchDeployment(name, Base(deployment.labels) + newLabels)]
    ensures r.Pass? <==> name in old(p.deployments) && !fail
    ensures p.deployments == if r.Pass?
      then old(p.deployments)[name := Deployment(Some(Base(old(p.deployments)[name].labels)
                                                      + (Base(deployment.labels) + newLabels)))]
      else old(p.deployments)
  {
    var objLabels := MergeLabels(deployment.labels, newLabels);
    MergedIsUnion(deployment.labels, newLabels, objLabels);
    r := p.Patch(name, objLabels, fail);
  }

  /** Which external call of a relabel fails. */
  datatype RelabelFaults = RelabelFaults(get: bool, patch: bool, mergePatch: bool)

  /** Puts name=clusterName and primary=true on the target deployment, then
      merge-patches it; only the last call's error is returned. */
  method Relabel(p: Platform, pod: Pod, clusterName: string, target: string, f: RelabelFaults)
    returns (r: Outcome)
    modifies p`requests, p`deployments
    ensures target !in old(p.deployments) || f.get ==>
      && r.Fail?
      && p.requests == old(p.requests) + [Request.GetDeployment(target)]
      && p.deployments == old(p.deployments)
    ensures target in old(p.deployments) && !f.get ==>
      var merged := Base(old(p.deployments)[target].labels) + PrimaryLabels(clusterName);
      && p.requests == old(p.requests)
           + [Request.GetDeployment(target), Request.PatchDeployment(target, merged),
              Request.MergePatchDeployment(target, clusterName)]
      && p.deployments == (if f.patch then old(p.deployments)
                           else old(p.deployments)[target := Deployment(Some(merged))])
      && (r.Pass? <==> !f.mergePatch)
      && (!f.patch ==> Get(Base(p.deployments[target].labels), LabelName) == clusterName
                       && Get(Base(p.deployments[target].labels), LabelPrimary) == "true")
  {
    var fetched := p.FetchDeployment(target, f.get);
    if fetched.Err? {
      return Fail(fetched.error);
    }
    var targetDeployment := fetched.value;
    var newLabels := PrimaryLabels(clusterName);
    // An error from the label patch is only logged: the merge patch's error overwrites it.
    assert Base(targetDeployment.labels) + (Base(targetDeployment.labels) + newLabels)
           == Base(targetDeployment.labels) + newLabels;
    r := UpdateLabels(p, targetDeployment, target, newLabels, f.patch);
    r := p.MergePatch(target, clusterName, f.mergePatch);
  }

  // ---------------------------------------------------------------------------

  /** Whether the pod spec has a container named "database". */
  method ValidateDBContainer(pod: Pod) returns (found: bool)
    ensures found <==> DatabaseContainer in pod.containers
  {
    found := false;
    for i := 0 to |pod.containers|
      invariant DatabaseContainer !in pod.containers[..i]
    {
      if pod.containers[i] == DatabaseContainer {
        return true;
      }
    }
    assert pod.containers[..|pod.containers|] == pod.containers;
  }
}
