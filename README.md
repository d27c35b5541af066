# Postgres operator: failover strategy 1 and the pod controller

This project models two parts of a Kubernetes operator for PostgreSQL clusters.

The first is **failover strategy 1** (`ClusterFailover`, file `failover.dfy`). A pgtask names a
target replica pod. The operator then:

1. fetches the target pod;
2. finds the cluster's single primary pod: the one whose `service-name` label is the bare
   cluster name;
3. deletes that primary's deployment;
4. reports progress on the task;
5. runs the promote script in the target pod's first container;
6. reports progress on the task again;
7. re-fetches the target pod and sets its `service-name` label to the cluster name, so the
   primary service selects it;
8. reports completion.

Steps 1, 2, 3 and 7 are fatal when they fail. The status reports and the promote script are
best effort. The module also models the alternate relabelling path. That path puts
`name=<cluster>` and `primary=true` on the target deployment by label merge, then applies the
operator's merge patch. It also models the check for a `database` container.

The second is the **pod controller** (`Controller`, file `controller.dfy`), with three
handlers:

- **Pod added:** the role labeler. A pod whose `primary` label is `"true"` or `"false"` is
  fetched and gets `service-name=<cluster>` or `service-name=<cluster>-replica`. A failed update
  is tried again, for up to 8 attempts in all. A fetch failure ends the labeler at once.
- **Pod updated:** the readiness monitor. It fires AutofailBase, ApplyPolicies and
  CompleteCreateClusterWorkflow for the pod's `database` container statuses, as its labels
  ask.
- **Pod deleted:** does nothing.

The platform is modelled in `Kube` (file `kube.dfy`):

- It holds one namespace's pods, deployments and pgtask status messages.
- It keeps a trace of every API request the operator sends, oldest first.
- Every API call takes a failure flag. This flag is the oracle for failures the model does not
  see (network, version conflicts). A call on a missing object fails as well.
- Proofs state results in terms of the initial state and these flags. The contracts of the
  methods that call the platform also state the request trace in full, so they pin down both
  what the operator did and in what order.

## Model

| member | source | states |
|---|---|---|
| ClusterFailover.Failover | operator/cluster/failover_strategy_1.go:38-107 | The result, the request trace and the new pods, deployments, tasks and task message are exactly those of `FailoverRun`, the step-by-step failover from the initial state. Pods stay valid. |
| ClusterFailover.FailoverPassesExactly | operator/cluster/failover_strategy_1.go:46-105 | Success exactly when these four all succeed: fetching the candidate, deleting the resolved primary's deployment, re-fetching the candidate and updating it. The promote command and the status reports never decide the result. |
| ClusterFailover.FailoverCandidateMissing | operator/cluster/failover_strategy_1.go:46-50 | An unfetchable candidate returns its fetch error. Only that fetch is sent and nothing changes. |
| ClusterFailover.FailoverStopsBeforeReports | operator/cluster/failover_strategy_1.go:54-58 | No single primary, or a failed delete, returns that error. Only the fetch, the list and the delete (if one was attempted) are sent. No status report, exec or relabel happens, and nothing changes. |
| ClusterFailover.FailoverDeletesPrimary | operator/cluster/failover_strategy_1.go:54-59 | Once the primary's deployment is deleted, exactly that deployment is gone at the end, whatever the later steps do. The first three requests are the fetch, the list and the delete. |
| ClusterFailover.FailoverRelabelsCandidate | operator/cluster/failover_strategy_1.go:74-92 | On success the candidate is the fetched pod with only its service-name label set to the cluster name. The label is present even when the cluster name is empty, so the primary service selects the pod. No other pod changes and pods stay valid. |
| ClusterFailover.FailoverReportsInOrder | operator/cluster/failover_strategy_1.go:59-96 | When the run succeeds and every status report goes through, exactly three messages are stored, in this order: deleting, promoting, completed. |
| ClusterFailover.PromoteAndRelabel | operator/cluster/failover_strategy_1.go:59-96 | Steps after the deletion, as the function `Completion` lays them out: report, promote, report, re-fetch and relabel, then report. |
| ClusterFailover.ReportAndPromote | operator/cluster/failover_strategy_1.go:59-63 | Reports "deleting primary deployment", runs the promote command, then reports "promoting pod … target …". The promote error is dropped. The task store keeps its keys. |
| ClusterFailover.RelabelAndReport | operator/cluster/failover_strategy_1.go:74-96 | Re-fetches the candidate and writes it back with service-name set to the cluster name. Either failure is returned and stops the run before the completion report. Pods stay valid. |
| ClusterFailover.UpdateFailoverStatus | operator/cluster/failover_strategy_1.go:109-131 | The in-memory message is set exactly when the task fetch succeeds. The message is persisted only if the write succeeds too. A failed fetch changes nothing. No error escapes, and the set of tasks never changes. |
| ClusterFailover.DeletePrimary | operator/cluster/failover_strategy_1.go:133-161 | Lists pods by `service-name=<cluster>`. Deletes the deployment named by the single match's deployment-name label. Zero or several matches return an error and delete nothing. A failed list counts as empty. |
| ClusterFailover.NoPrimaryRefused | operator/cluster/failover_strategy_1.go:139-142 | With no pod carrying `service-name=<cluster>`, resolution fails with NoPrimary, whose text is "could not find primary pod". |
| ClusterFailover.UniquePrimaryResolved | operator/cluster/failover_strategy_1.go:137-148 | With exactly one selected pod, resolution yields that pod's deployment-name label. |
| ClusterFailover.AmbiguousPrimaryRefused | operator/cluster/failover_strategy_1.go:143-146 | With two distinct pods carrying `service-name=<cluster>`, resolution fails with ManyPrimaries, whose text is "more than 1 primary pod found in delete primary logic". |
| ClusterFailover.Promote | operator/cluster/failover_strategy_1.go:163-181 | Records one exec of the promote script in the pod's first container. Succeeds exactly when the pod exists and the exec does not fail. |
| ClusterFailover.Relabel | operator/cluster/failover_strategy_1.go:183-208 | A missing or unfetchable target deployment fails after the fetch alone. Otherwise the deployment's labels are merged with name=<cluster> and primary=true (unless the patch fails), then merge-patched. Only the merge patch decides the result. |
| ClusterFailover.UpdateLabels | operator/cluster/failover_strategy_1.go:211-257 | Sends one patch whose labels are the deployment's labels overlaid with the new ones; a nil label map counts as empty. The result is the patch's. |
| ClusterFailover.MergeLabels | operator/cluster/failover_strategy_1.go:228-237 | The merged keys are the union. The new labels win, and every other old label keeps its value. |
| ClusterFailover.ValidateDBContainer | operator/cluster/failover_strategy_1.go:259-269 | True exactly when some container is named "database". |
| Kube.CollectMatching | operator/cluster/failover_strategy_1.go:137-138 | Listing by the equality selector `key=value` returns each pod that carries the label with that value once, with its current state. It returns no other pod; a pod without the label never matches, even for an empty value. |
| Controller.PodController.OnAdd | controller/podcontroller.go:83-87 | Runs the role labeler on the added pod, with the same outcome. |
| Controller.PodController.OnUpdate | controller/podcontroller.go:90-95 | Fires exactly the triggers the readiness monitor computes for the new pod; the old pod plays no part. |
| Controller.PodController.OnDelete | controller/podcontroller.go:98-101 | Changes nothing on the platform. |
| Controller.PodController.CheckReadyStatus | controller/podcontroller.go:103-133 | The fired triggers, in order, are the autofail calls (if armed), then the policy/workflow pairs (if primary). |
| Controller.AutofailTriggersExact | controller/podcontroller.go:112-116 | AutofailBase(r, cluster, ns) is fired exactly when some "database" status has readiness r. |
| Controller.ReadyTriggersAutofail | controller/podcontroller.go:108-117 | An AutofailBase call happens exactly when primary=true, pg-cluster is non-empty and autofail=true. It carries the pod's cluster, its namespace and the readiness of a "database" status. |
| Controller.PolicyTriggersExact | controller/podcontroller.go:121-130 | The policy triggers contain ApplyPolicies(c) exactly when c is the cluster and some "database" status is ready. |
| Controller.ReadyTriggersPolicies | controller/podcontroller.go:119-131 | ApplyPolicies fires exactly when primary=true and a "database" status is ready, whatever the autofail and cluster labels. |
| Controller.PolicyTriggersPaired | controller/podcontroller.go:124-128 | Policy triggers alternate ApplyPolicies, CompleteCreateClusterWorkflow for the same cluster, and come in pairs. |
| Controller.OtherContainersIgnored | controller/podcontroller.go:112-122 | Inserting a status of a non-"database" container anywhere changes no trigger. |
| Controller.PodController.CheckPostgresPods | controller/podcontroller.go:164-199 | The request trace and the pods after the labeler equal the specification functions `LabelerRequests` and `LabelerPods`. A pod whose role is neither primary nor replica sends nothing and changes nothing. The bound of at most 8 updates is proved about `LabelerRequests` by `Controller.LabelerUpdatesBounded`. |
| Controller.FirstStop | controller/podcontroller.go:169-195 | The attempt at which the retry loop stops. Every earlier attempt fetched and failed its update. The stopping attempt fails its fetch or succeeds its update, unless all 8 attempts ran. |
| Controller.LabelerStopsAt | controller/podcontroller.go:170-197 | When every attempt before i fetched and failed its update, and attempt i stops (or i is 8), the labeler's requests are those failed attempts, then the stopping fetch (and, if the fetch worked, the successful update). Only that successful update changes the pod. |
| Controller.FirstStopAt | controller/podcontroller.go:170-195 | An attempt index reached after only failed updates, with the stop condition holding there, is the loop's stopping point. |
| Controller.LabelerUpdatesBounded | controller/podcontroller.go:169-195 | The labeler sends one update per failed attempt, plus one for the successful attempt, and never more than 8. |
| Controller.LabelerSetsServiceName | controller/podcontroller.go:179-189 | After a successful update the pod carries the service-name label, set to the cluster for a primary and to cluster-replica for a replica. The label is present even when the pg-cluster label is missing or empty. Its other labels are as fetched, and other pods are untouched. |

## Left out

- `ClusterFailover.Failover`: the candidate fetch at operator/cluster/failover_strategy_1.go:46 calls
  `util.GetPod`, whose body is not part of this model. It is modelled as a fetch of the pod named
  by the target, so the candidate's name is the target. The code may instead resolve the target
  to a pod with another name; it logs, reports and re-fetches by the pod's own name (lines 51, 63
  and 75). So `FailoverPassesExactly` needs a pod named by the target, `FailoverRelabelsCandidate`
  relabels that pod, and `FailoverReportsInOrder` reports the target twice in the promoting
  message. A candidate whose name differs from the target is not modelled.
- The informer, its watch loop and its goroutine (`Run`, `watchPods`) are not modelled. Each
  handler is modelled as a single call, and events are not concurrent.
- A concurrent writer is the race that makes the labeler retry. It appears only as the per-attempt
  update-failure flag. Between attempts, the pod is re-fetched from a platform only this code
  changes.
- The `kubeapi` helpers, JSON marshalling, `jsonpatch.CreateMergePatch` and `meta.Accessor` are
  not part of this model. A deployment patch is modelled as its effect: the given labels are
  merged onto the stored ones. The marshalling and accessor errors are not modelled.
- `ClusterFailover.Relabel`: what the operator's `MergePatchDeployment` helper changes is not
  modelled. Only its request and its result are.
- `ClusterFailover.Relabel`: a deployment fetch that reports "not found" is taken to report an
  error too.
- `ClusterFailover.Promote`: the exec's stdout and stderr are only logged, so they are not
  modelled.
- AutofailBase, ApplyPolicies and CompleteCreateClusterWorkflow belong to other packages. They
  are recorded as triggers, in call order, and their effects are not modelled.
- Logging and the commented-out code (the replica-count patches, the pg-cluster based label and
  the old `checkReadyStatus`) are not modelled.
- Go nil-pointer and nil-map panics are not modelled. Examples: writing a label into a pod with
  a nil label map, and a nil pod list when listing fails. A failed list is treated as an empty
  list. A pod's label map is never nil here.
- Pods are taken to have at least one container, as platform validation requires. The promote
  step relies on this when it uses the first container.
- Namespaces: the platform stands for the one namespace the operator works in. The namespace
  arguments are dropped, apart from the pod namespace passed to AutofailBase.
- Deleting a deployment does not remove its pods. Garbage collection by the platform is not
  modelled.
- `ClusterFailover.RelabelAndReport`: the re-fetch of the candidate reads from a platform that
  only this code changes. It therefore returns the pod fetched in step 1, or fails through its
  failure flag. A candidate that another writer changed or removed between the two fetches is
  not modelled, so the write-back of a fresher copy is not modelled either.
- `ClusterFailover.FailoverRelabelsCandidate`: "other labels unchanged" is measured against the
  initial state. It holds because nothing but this code writes to the pods. Against a concurrent
  writer it would read "other labels as re-fetched".
- `ClusterFailover.UpdateFailoverStatus`: the task fetch decodes the stored task into the same
  object. Only the status message of that object is modelled, so other fields the fetch may
  refresh are not.
- The label key strings (`service-name`, `deployment-name`, `primary`, `pg-cluster`,
  `autofail`, `target`, `name`) come from a constants package that is not part of this model.
  They are written here with plausible values, and only their distinctness matters.

## Notes on the code's behaviour

- When no pod carries the primary service label, deleting the primary fails with the error "could
  not find primary pod". Several such pods give a different error.
- In the labeler, a failed pod fetch ends the handler at once. Only a failed update leads to
  another attempt.
- In relabel, the label patch's error is only logged. The merge patch's result overwrites it and
  is what relabel returns.
