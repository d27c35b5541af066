/** The pod controller: on a pod add it labels the pod for its cluster's
    service (primary or replica), on a pod update it fires the autofail,
    policy and workflow triggers, on a pod delete it does nothing. */
module Controller {
  import opened Kube

  /** A call into a collaborator outside this core. */
  datatype Trigger =
    | AutofailBase(ready: bool, cluster: string, namespace: string)
    | ApplyPolicies(cluster: string)
    | CompleteCreateClusterWorkflow(cluster: string)

  // ---------------------------------------------------------------------------
  // Readiness monitor (pod updated)

  /** One AutofailBase call per "database" status, in status order. */
  function AutofailTriggers(statuses: seq<ContainerStatus>, cluster: string, namespace: string): seq<Trigger>
  {
    if statuses == [] then []
    else
      var last := statuses[|statuses| - 1];
      AutofailTriggers(statuses[..|statuses| - 1], cluster, namespace)
      + if last.name == DatabaseContainer then [AutofailBase(last.ready, cluster, namespace)] else []
  }

  /** ApplyPolicies then CompleteCreateClusterWorkflow per ready "database" status. */
  function PolicyTriggers(statuses: seq<ContainerStatus>, cluster: string): seq<Trigger>
  {
    if statuses == [] then []
    else
      var last := statuses[|statuses| - 1];
      PolicyTriggers(statuses[..|statuses| - 1], cluster)
      + if last.name == DatabaseContainer && last.ready
        then [ApplyPolicies(cluster), CompleteCreateClusterWorkflow(cluster)] else []
  }

  predicate AutofailArmed(pod: Pod)
  {
    Get(pod.labels, LabelPrimary) == "true"
    && Get(pod.labels, LabelPgCluster) != ""
    && Get(pod.labels, LabelAutofail) == "true"
  }

  /** The triggers a pod update fires, in order: all autofail calls, then the policy calls. */
  function ReadyTriggers(pod: Pod): seq<Trigger>
  {
    var cluster := Get(pod.labels, LabelPgCluster);
    (if AutofailArmed(pod) then AutofailTriggers(pod.statuses, cluster, pod.namespace) else [])
    + (if Get(pod.labels, LabelPrimary) == "true" then PolicyTriggers(pod.statuses, cluster) else [])
  }

  lemma {:induction false} AutofailTriggersExact(statuses: seq<ContainerStatus>, cluster: string,
                                                 namespace: string, t: Trigger)
    ensures t in AutofailTriggers(statuses, cluster, namespace) <==>
            exists i :: 0 <= i < |statuses| && statuses[i].name == DatabaseContainer
                        && t == AutofailBase(statuses[i].ready, cluster, namespace)
  {
    if statuses != [] {
      var init := statuses[..|statuses| - 1];
      AutofailTriggersExact(init, cluster, namespace, t);
      if exists i :: 0 <= i < |statuses| && statuses[i].name == DatabaseContainer
                     && t == AutofailBase(statuses[i].ready, cluster, namespace) {
        var i :| 0 <= i < |statuses| && statuses[i].name == DatabaseContainer
                 && t == AutofailBase(statuses[i].ready, cluster, namespace);
        if i < |init| {
          assert init[i] == statuses[i];
        }
      }
      if exists i :: 0 <= i < |init| && init[i].name == DatabaseContainer
                     && t == AutofailBase(init[i].ready, cluster, namespace) {
        var i :| 0 <= i < |init| && init[i].name == DatabaseContainer
                 && t == AutofailBase(init[i].ready, cluster, namespace);
        assert statuses[i] == init[i];
      }
    }
  }

  lemma {:induction false} PolicyTriggersExact(statuses: seq<ContainerStatus>, cluster: string, c: string)
    ensures ApplyPolicies(c) in PolicyTriggers(statuses, cluster) <==>
            c == cluster && exists i :: 0 <= i < |statuses| && statuses[i].name == DatabaseContainer
                                        && statuses[i].ready
    ensures forall t :: t in PolicyTriggers(statuses, cluster) ==> !t.AutofailBase? && t.cluster == cluster
  {
    if statuses != [] {
      var init := statuses[..|statuses| - 1];
      PolicyTriggersExact(init, cluster, c);
      if exists i :: 0 <= i < |statuses| && statuses[i].name == DatabaseContainer && statuses[i].ready {
        var i :| 0 <= i < |statuses| && statuses[i].name == DatabaseContainer && statuses[i].ready;
        if i < |init| {
          assert init[i] == statuses[i];
        }
      }
      if exists i :: 0 <= i < |init| && init[i].name == DatabaseContainer && init[i].ready {
        var i :| 0 <= i < |init| && init[i].name == DatabaseContainer && init[i].ready;
        assert statuses[i] == init[i];
      }
    }
  }

  /** Within the policy triggers every ApplyPolicies is directly followed by
      CompleteCreateClusterWorkflow for the same cluster, and every
      CompleteCreateClusterWorkflow directly follows an ApplyPolicies. */
  lemma {:induction false} PolicyTriggersPaired(statuses: seq<ContainerStatus>, cluster: string)
    ensures var ts := PolicyTriggers(statuses, cluster);
      |ts| % 2 == 0
      && forall i :: 0 <= i < |ts| ==>
           ts[i] == (if i % 2 == 0 then ApplyPolicies(cluster) else CompleteCreateClusterWorkflow(cluster))
  {
    if statuses != [] {
      PolicyTriggersPaired(statuses[..|statuses| - 1], cluster);
    }
  }

  /** The autofail branch: an AutofailBase call is made exactly when the pod is a
      primary with a cluster and autofail on, and it carries the readiness of
      some "database" status. */
  lemma ReadyTriggersAutofail(pod: Pod, t: Trigger)
    requires t.AutofailBase?
    ensures t in ReadyTriggers(pod) <==>
            AutofailArmed(pod)
            && t.cluster == Get(pod.labels, LabelPgCluster) && t.namespace == pod.namespace
            && exists i :: 0 <= i < |pod.statuses| && pod.statuses[i].name == DatabaseContainer
                           && pod.statuses[i].ready == t.ready
  {
    var cluster := Get(pod.labels, LabelPgCluster);
    AutofailTriggersExact(pod.statuses, cluster, pod.namespace, t);
    PolicyTriggersExact(pod.statuses, cluster, cluster);
  }

  /** The policy branch: ApplyPolicies is called exactly when the pod is a primary
      with a ready "database" status, whatever its cluster and autofail labels. */
  lemma ReadyTriggersPolicies(pod: Pod, c: string)
    ensures ApplyPolicies(c) in ReadyTriggers(pod) <==>
            Get(pod.labels, LabelPrimary) == "true" && c == Get(pod.labels, LabelPgCluster)
            && exists i :: 0 <= i < |pod.statuses| && pod.statuses[i].name == DatabaseContainer
                           && pod.statuses[i].ready
  {
    var cluster := Get(pod.labels, LabelPgCluster);
    AutofailTriggersExact(pod.statuses, cluster, pod.namespace, ApplyPolicies(c));
    PolicyTriggersExact(pod.statuses, cluster, c);
  }

  /** A status of any container other than "database" fires nothing, wherever it stands. */
  lemma {:induction false} OtherContainersIgnored(pod: Pod, k: nat, s: ContainerStatus)
    requires k <= |pod.statuses| && s.name != DatabaseContainer
    ensures ReadyTriggers(pod.(statuses := pod.statuses[..k] + [s] + pod.statuses[k..])) == ReadyTriggers(pod)
  {
    var cluster := Get(pod.labels, LabelPgCluster);
    InsertIgnored(pod.statuses, k, s, cluster, pod.namespace);
  }

  lemma {:induction false} InsertIgnored(statuses: seq<ContainerStatus>, k: nat, s: ContainerStatus,
                                         cluster: string, namespace: string)
    requires k <= |statuses| && s.name != DatabaseContainer
    ensures var grown := statuses[..k] + [s] + statuses[k..];
      AutofailTriggers(grown, cluster, namespace) == AutofailTriggers(statuses, cluster, namespace)
      && PolicyTriggers(grown, cluster) == PolicyTriggers(statuses, cluster)
    decreases |statuses|
  {
    var grown := statuses[..k] + [s] + statuses[k..];
    if k == |statuses| {
      assert grown[..|grown| - 1] == statuses;
    } else {
      var init := statuses[..|statuses| - 1];
      InsertIgnored(init, k, s, cluster, namespace);
      assert grown[..|grown| - 1] == init[..k] + [s] + init[k..];
      assert grown[|grown| - 1] == statuses[|statuses| - 1];
    }
  }

  // ---------------------------------------------------------------------------
  // Role labeler (pod added)

  /** How many times the labeler tries to fetch and update a pod. */
  const Tries := 8

  /** Attempt j neither ends the labeler nor succeeds: the pod is there, its
      fetch succeeds and its update fails. */
  predicate Continues(present: bool, getFails: nat -> bool, updateFails: nat -> bool, j: nat)
  {
    present && !getFails(j) && updateFails(j)
  }

  /** The attempt at which the labeler stops early: its fetch fails (or the pod
      is gone) or its update succeeds. Tries when every attempt's update fails. */
  ghost function FirstStop(present: bool, getFails: nat -> bool, updateFails: nat -> bool, i: nat): (k: nat)
    requires i <= Tries
    ensures i <= k <= Tries
    ensures forall j :: i <= j < k ==> Continues(present, getFails, updateFails, j)
    ensures k < Tries ==> !Continues(present, getFails, updateFails, k)
    decreases Tries - i
  {
    if i == Tries then Tries
    else if !present || getFails(i) || !updateFails(i) then i
    else FirstStop(present, getFails, updateFails, i + 1)
  }

  /** k attempts whose fetch succeeded and whose update failed. */
  function FailedAttempts(name: string, labels: Labels, k: nat): seq<Request>
  {
    if k == 0 then [] else FailedAttempts(name, labels, k - 1) + [Request.GetPod(name), Request.UpdatePod(name, labels)]
  }

  function ServiceNameFor(role: string, cluster: string): string
  {
    if role == "true" then cluster else cluster + "-replica"
  }

  predicate Managed(pod: Pod)
  {
    Get(pod.labels, LabelPrimary) == "true" || Get(pod.labels, LabelPrimary) == "false"
  }

  /** The fetched pod's labels with the service-name the event pod's role asks for. */
  ghost function Relabeled(pods: map<string, Pod>, newpod: Pod): Labels
  {
    if newpod.name in pods
    then pods[newpod.name].labels[LabelServiceName :=
           ServiceNameFor(Get(newpod.labels, LabelPrimary), Get(newpod.labels, LabelPgCluster))]
    else map[]
  }

  /** Every request the labeler sends for an added pod. */
  ghost function LabelerRequests(pods: map<string, Pod>, newpod: Pod,
                                 getFails: nat -> bool, updateFails: nat -> bool): seq<Request>
  {
    if !Managed(newpod) then []
    else
      var present := newpod.name in pods;
      var k := FirstStop(present, getFails, updateFails, 0);
      var labels := Relabeled(pods, newpod);
      FailedAttempts(newpod.name, labels, k)
      + if k == Tries then []
        else if !present || getFails(k) then [Request.GetPod(newpod.name)]
        else [Request.GetPod(newpod.name), Request.UpdatePod(newpod.name, labels)]
  }

  /** The pods after the labeler: only a successful update changes anything. */
  ghost function LabelerPods(pods: map<string, Pod>, newpod: Pod,
                             getFails: nat -> bool, updateFails: nat -> bool): map<string, Pod>
  {
    var present := newpod.name in pods;
    var k := FirstStop(present, getFails, updateFails, 0);
    if Managed(newpod) && present && k < Tries && !getFails(k)
    then pods[newpod.name := pods[newpod.name].(labels := Relabeled(pods, newpod))]
    else pods
  }

  function UpdateCount(requests: seq<Request>): nat
  {
    if requests == [] then 0
    else UpdateCount(requests[..|requests| - 1]) + if requests[|requests| - 1].UpdatePod? then 1 else 0
  }

  lemma {:induction false} UpdateCountAppend(a: seq<Request>, b: seq<Request>)
    ensures UpdateCount(a + b) == UpdateCount(a) + UpdateCount(b)
    decreases |b|
  {
    if b == [] {
      assert a + b == a;
    } else {
      assert (a + b)[..|a + b| - 1] == a + b[..|b| - 1];
      UpdateCountAppend(a, b[..|b| - 1]);
    }
  }

  lemma {:induction false} FailedAttemptsCount(name: string, labels: Labels, k: nat)
    ensures UpdateCount(FailedAttempts(name, labels, k)) == k
  {
    if k > 0 {
      var pair := [Request.GetPod(name), Request.UpdatePod(name, labels)];
      UpdateCountAppend(FailedAttempts(name, labels, k - 1), pair);
      FailedAttemptsCount(name, labels, k - 1);
      assert pair[..1] == [Request.GetPod(name)];
      assert pair[..1][..0] == [];
      assert UpdateCount(pair[..1]) == 0;
      assert UpdateCount(pair) == 1;
    }
  }

  /** The labeler sends at most Tries updates: one per failed attempt, plus the
      successful one if there is one. */
  lemma LabelerUpdatesBounded(pods: map<string, Pod>, newpod: Pod, getFails: nat -> bool, updateFails: nat -> bool)
    ensures var k := FirstStop(newpod.name in pods, getFails, updateFails, 0);
      var succeeded := Managed(newpod) && newpod.name in pods && k < Tries && !getFails(k);
      && UpdateCount(LabelerRequests(pods, newpod, getFails, updateFails))
         == (if !Managed(newpod) then 0 else if succeeded then k + 1 else k)
      && UpdateCount(LabelerRequests(pods, newpod, getFails, updateFails)) <= Tries
  {
    if Managed(newpod) {
      var present := newpod.name in pods;
      var k := FirstStop(present, getFails, updateFails, 0);
      var labels := Relabeled(pods, newpod);
      var tail := if k == Tries then []
        else if !present || getFails(k) then [Request.GetPod(newpod.name)]
        else [Request.GetPod(newpod.name), Request.UpdatePod(newpod.name, labels)];
      UpdateCountAppend(FailedAttempts(newpod.name, labels, k), tail);
      FailedAttemptsCount(newpod.name, labels, k);
      assert [Request.GetPod(newpod.name)][..0] == [];
      assert [Request.GetPod(newpod.name), Request.UpdatePod(newpod.name, labels)][..1] == [Request.GetPod(newpod.name)];
      assert UpdateCount([Request.GetPod(newpod.name)]) == 0;
      assert UpdateCount([Request.GetPod(newpod.name), Request.UpdatePod(newpod.name, labels)]) == 1;
    }
  }

  /** A successful labeling sets service-name to the cluster for a primary and to
      cluster-replica for a replica, and leaves every other label as fetched. */
  lemma LabelerSetsServiceName(pods: map<string, Pod>, newpod: Pod, getFails: nat -> bool, updateFails: nat -> bool)
    requires Managed(newpod) && newpod.name in pods
    requires var k := FirstStop(true, getFails, updateFails, 0); k < Tries && !getFails(k)
    ensures var labels := LabelerPods(pods, newpod, getFails, updateFails)[newpod.name].labels;
      var cluster := Get(newpod.labels, LabelPgCluster);
      && (Get(newpod.labels, LabelPrimary) == "true" ==> Selects(labels, LabelServiceName, cluster))
      && (Get(newpod.labels, LabelPrimary) == "false" ==> Selects(labels, LabelServiceName, cluster + "-replica"))
      && labels - {LabelServiceName} == pods[newpod.name].labels - {LabelServiceName}
    ensures LabelerPods(pods, newpod, getFails, updateFails) - {newpod.name} == pods - {newpod.name}
  {
  }

  // ---------------------------------------------------------------------------

  /** The controller's clientsets and namespace are one platform: the namespace it watches. */
  class PodController {
    const platform: Platform

    constructor (platform: Platform)
      ensures this.platform == platform
    {
      this.platform := platform;
    }

    /** A pod was added: label it for its service. */
    method OnAdd(newpod: Pod, getFails: nat -> bool, updateFails: nat -> bool)
      requires platform.Valid()
      modifies platform`requests, platform`pods
      ensures platform.Valid()
      ensures platform.requests == old(platform.requests)
                                   + LabelerRequests(old(platform.pods), newpod, getFails, updateFails)
      ensures platform.pods == LabelerPods(old(platform.pods), newpod, getFails, updateFails)
    {
      CheckPostgresPods(newpod, getFails, updateFails);
    }

    /** A pod was updated: fire the triggers its new state calls for. */
    method OnUpdate(oldpod: Pod, newpod: Pod) returns (fired: seq<Trigger>)
      ensures fired == ReadyTriggers(newpod)
    {
      fired := CheckReadyStatus(oldpod, newpod);
    }

    /** A pod was deleted: only logged. */
    method OnDelete(pod: Pod)
      ensures unchanged(platform)
    {
    }

    /** The triggers of a pod update. They depend on the new pod alone, so a
        repeated event fires them again. */
    method CheckReadyStatus(oldpod: Pod, newpod: Pod) returns (fired: seq<Trigger>)
      ensures fired == ReadyTriggers(newpod)
    {
      fired := [];
      var cluster := Get(newpod.labels, LabelPgCluster);
      if Get(newpod.labels, LabelPrimary) == "true" && cluster != "" && Get(newpod.labels, LabelAutofail) == "true" {
        for i := 0 to |newpod.statuses|
          invariant fired == AutofailTriggers(newpod.statuses[..i], cluster, newpod.namespace)
        {
          var v := newpod.statuses[i];
          assert newpod.statuses[..i + 1][..i] == newpod.statuses[..i];
          if v.name == DatabaseContainer {
            fired := fired + [AutofailBase(v.ready, cluster, newpod.namespace)];
          }
        }
        assert newpod.statuses[..|newpod.statuses|] == newpod.statuses;
      }
      ghost var autofail := fired;

      if Get(newpod.labels, LabelPrimary) == "true" {
        for i := 0 to |newpod.statuses|
          invariant fired == autofail + PolicyTriggers(newpod.statuses[..i], cluster)
        {
          var v := newpod.statuses[i];
          assert newpod.statuses[..i + 1][..i] == newpod.statuses[..i];
          if v.name == DatabaseContainer {
            if v.ready {
              fired := fired + [ApplyPolicies(cluster)];
              fired := fired + [CompleteCreateClusterWorkflow(cluster)];
            }
          }
        }
        assert newpod.statuses[..|newpod.statuses|] == newpod.statuses;
      }
    }

    /** Sets the added pod's service-name label, re-fetching the pod before each
        update and retrying a failed update up to Tries attempts in all. A fetch
        error ends it at once; no error reaches the caller. */
    method CheckPostgresPods(newpod: Pod, getFails: nat -> bool, updateFails: nat -> bool)
      requires platform.Valid()
      modifies platform`requests, platform`pods
      ensures platform.Valid()
      ensures platform.requests == old(platform.requests)
                                   + LabelerRequests(old(platform.pods), newpod, getFails, updateFails)
      ensures platform.pods == LabelerPods(old(platform.pods), newpod, getFails, updateFails)
      ensures !Managed(newpod) ==> platform.requests == old(platform.requests) && platform.pods == old(platform.pods)
    {
      ghost var present := newpod.name in platform.pods;
      ghost var labels := Relabeled(platform.pods, newpod);
      var tries := Tries;
      var i := 0;
      while i < tries
        invariant 0 <= i <= Tries
        invariant platform.Valid() && platform.pods == old(platform.pods)
        invariant !Managed(newpod) ==> platform.requests == old(platform.requests)
        invariant Managed(newpod) ==>
                    (forall j :: 0 <= j < i ==> Continues(present, getFails, updateFails, j))
                    && platform.requests == old(platform.requests) + FailedAttempts(newpod.name, labels, i)
      {
        if Get(newpod.labels, LabelPrimary) == "true" || Get(newpod.labels, LabelPrimary) == "false" {
          var fetched := platform.FetchPod(newpod.name, getFails(i));
          if fetched.Err? {
            LabelerStopsAt(old(platform.pods), newpod, getFails, updateFails, i);
            return;
          }
          var pod := fetched.value;
          if Get(newpod.labels, LabelPrimary) == "true" {
            pod := pod.(labels := pod.labels[LabelServiceName := Get(newpod.labels, LabelPgCluster)]);
          } else if Get(newpod.labels, LabelPrimary) == "false" {
            pod := pod.(labels := pod.labels[LabelServiceName := Get(newpod.labels, LabelPgCluster) + "-replica"]);
          }
          var updated := platform.Update(pod, updateFails(i));
          if updated.Pass? {
            LabelerStopsAt(old(platform.pods), newpod, getFails, updateFails, i);
            break;
          }
        }
        i := i + 1;
      }
      if i == Tries && Managed(newpod) {
        LabelerStopsAt(old(platform.pods), newpod, getFails, updateFails, Tries);
      }
    }
  }

  /** The labeler's requests and pods when it stops at attempt i. */
  lemma LabelerStopsAt(pods: map<string, Pod>, newpod: Pod, getFails: nat -> bool, updateFails: nat -> bool, i: nat)
    requires Managed(newpod) && i <= Tries
    requires forall j :: 0 <= j < i ==> Continues(newpod.name in pods, getFails, updateFails, j)
    requires i < Tries ==> !Continues(newpod.name in pods, getFails, updateFails, i)
    ensures var labels := Relabeled(pods, newpod);
      LabelerRequests(pods, newpod, getFails, updateFails)
      == FailedAttempts(newpod.name, labels, i)
         + if i == Tries then []
           else if newpod.name !in pods || getFails(i) then [Request.GetPod(newpod.name)]
           else [Request.GetPod(newpod.name), Request.UpdatePod(newpod.name, labels)]
    ensures LabelerPods(pods, newpod, getFails, updateFails)
            == if newpod.name in pods && i < Tries && !getFails(i)
               then pods[newpod.name := pods[newpod.name].(labels := Relabeled(pods, newpod))]
               else pods
  {
    FirstStopAt(newpod.name in pods, getFails, updateFails, 0, i);
  }

  /** The first stopping attempt is the one after a run of continuing ones. */
  lemma {:induction false} FirstStopAt(present: bool, getFails: nat -> bool, updateFails: nat -> bool,
                                       start: nat, i: nat)
    requires start <= i <= Tries
    requires forall j :: start <= j < i ==> Continues(present, getFails, updateFails, j)
    requires i < Tries ==> !Continues(present, getFails, updateFails, i)
    ensures FirstStop(present, getFails, updateFails, start) == i
    decreases i - start
  {
    if start < i {
      assert Continues(present, getFails, updateFails, start);
      FirstStopAt(present, getFails, updateFails, start + 1, i);
    }
  }
}
