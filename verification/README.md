# lazy-xds namespace controller, in Dafny

This project models the namespace controller of Aeraki's lazy-xds feature
(`pkg/lazyxds/namesapce.go`). The controller watches Kubernetes namespaces.
For each reconcile request it fetches the namespace again. If the namespace's
`lazy-xds` annotation is exactly `"true"`, it asks for the namespace's default
sidecar to be created. The controller's comments call this a bootstrap
configMap for sidecar proxies.

- `namespace_controller.dfy` (module `NamespaceController`) holds the decision
  logic:
  - the opt-in policy `ShouldHandle`;
  - the reconcile decision `Reconcile`, from the fetch result to an `Outcome`
    (scheduling result, returned error, requested creation);
  - the create and update filters of the watch.
- `provisioning.dfy` (module `Provisioning`) is an abstraction, not behaviour
  the source states. It stands for the cluster as a `set<string>` of names
  whose default sidecar exists. Each reconcile step also carries whether a
  requested creation took effect. With this, the model states what runs of
  repeated, duplicated and reordered reconciles leave behind.

Fetching the namespace is I/O. Its result is an input: `NotFound`,
`FetchErr(cause)` or `Found(namespace)`. Creating the sidecar is I/O too. It
appears as an output: the name the creation is requested for. A nil annotation
map is the empty map. Reading a missing key gives `""`, as map indexing does in
Go.

Two behaviours of the code are worth stating:
- A failed fetch's error is replaced by a new error whose message is
  `could not fetch Namespace: ` followed by the cause's `%+v` text; the cause
  itself is not wrapped.
- The result of the sidecar creation is discarded (line 68). So a failed
  creation does not fail the reconcile and is not retried through the error path.

## Model

| member | source | states |
|---|---|---|
| NamespaceController.ShouldHandle | pkg/lazyxds/namesapce.go:95-100 | a namespace is handled iff its annotations contain the key `lazy-xds` with exactly the value `"true"`; a missing key is rejected |
| NamespaceController.ShouldHandleIgnoresOtherKeys | pkg/lazyxds/namesapce.go:95-100 | adding, changing or removing any annotation other than `lazy-xds` never changes the policy's answer |
| NamespaceController.ShouldHandleExactMatch | pkg/lazyxds/namesapce.go:96 | any value other than `"true"` under `lazy-xds` is rejected, so is a removed key, and `"true"` is accepted whatever the other annotations |
| NamespaceController.ShouldHandleRejectsNearMisses | pkg/lazyxds/namesapce.go:96 | the match is case-sensitive and exact: `"True"`, `"TRUE"`, `"1"`, `""` and an empty annotation map are all rejected |
| NamespaceController.Reconcile | pkg/lazyxds/namesapce.go:54-71 | every path returns the empty result (no requeue, no delay); an error is returned iff the fetch failed other than NotFound, and its message contains the cause's text; a creation is requested iff the namespace was found and opted in, for the found namespace's name; no creation on any error path |
| NamespaceController.ReconcileDependsOnlyOnNameAndPolicy | pkg/lazyxds/namesapce.go:57-70 | two found namespaces with the same name and the same policy answer reconcile identically, whatever else differs between them |
| NamespaceController.AcceptCreate | pkg/lazyxds/namesapce.go:38-40 | every create notification is accepted |
| NamespaceController.AcceptUpdate | pkg/lazyxds/namesapce.go:41-43 | every update notification is accepted |
| NamespaceController.Accept | pkg/lazyxds/namesapce.go:37-44 | every watched create or update notification passes the filter |
| Provisioning.Apply | pkg/lazyxds/namesapce.go:67-68 | after one reconcile the cluster only grows, and only by the name whose creation was requested and took effect |
| Provisioning.ApplyAgreesWithPolicy | pkg/lazyxds/namesapce.go:58-69 | the change one reconcile makes is exactly the name the opt-in policy selects for a found namespace whose creation took effect |
| Provisioning.Replay | pkg/lazyxds/namesapce.go:54-71 | running reconciles in order leaves the initial cluster plus exactly the names of found, opted-in namespaces whose creation took effect |
| Provisioning.ReplayAppend | pkg/lazyxds/namesapce.go:54-71 | running two batches of reconciles together is the same as running one after the other |
| Provisioning.ReplayOrderIndependent | pkg/lazyxds/namesapce.go:54-71 | the order of reconciles does not change the resulting cluster, under the set abstraction (see Left out: Provisioning.Apply) |
| Provisioning.ReplayDuplicate | pkg/lazyxds/namesapce.go:67-68 | a duplicated reconcile of the same namespace leaves the cluster as a single one does, under the set abstraction (see Left out: Provisioning.Apply) |
| Provisioning.ReplayIdempotent | pkg/lazyxds/namesapce.go:54-71 | rerunning the same reconciles adds nothing, under the set abstraction (see Left out: Provisioning.Apply) |
| Provisioning.ReplayOnlyProvisionsOptedIn | pkg/lazyxds/namesapce.go:59-69 | a name absent before and present after a run was found opted in by some reconcile whose creation took effect; NotFound and failed fetches add nothing |
| Provisioning.ReplayProvisionsOptedIn | pkg/lazyxds/namesapce.go:67-69 | a found, opted-in namespace whose creation took effect is present after the run, and nothing present before is removed |
| Provisioning.TeamScenario | pkg/lazyxds/namesapce.go:54-100 | the opted-in `team-a` reconciled twice, `team-b` without annotations and the deleted `team-c` leave exactly `team-a` provisioned |

## Left out

- `AddNamespaceController` (lines 74-93): construction of the manager and controller, and the watch registration, are framework wiring.
- The controller-runtime client's `Get`, the Istio clientset and `context.Context` are external I/O. Only the fetch result is modelled, as an input.
- `createDefaultSidecar`: its body is not part of this model. It talks to the API server. Here it is an opaque requested effect, and whether it took effect is an input of `Provisioning.Step`.
- Provisioning.Apply: a `set` of names is an abstraction of the cluster. It makes a repeated creation a no-op. The source does not show whether the creation is idempotent.
- Delete and generic notifications: the filter leaves them to the defaults of the controller-runtime library, which is not part of this model. A delete that leads to a reconcile meets `NotFound`, and `Reconcile` treats that as a no-op.
- The logging calls (lines 55 and 91) have no behavioural content.
- Work-queue deduplication, concurrent reconciles and backoff belong to the external driver. `Provisioning.Replay` covers only their sequential effect on the cluster.
- Removing a sidecar when a namespace opts out: the code has no such path, and neither does the model.
