# polyaxon-k8s lifecycle classifier and K8SManager, in Dafny

This project models the two parts of `polyaxon_k8s` that hold logic:

- **The lifecycle vocabularies** of `constants.py`. `JobLifeCycle` has nine status strings, a `CHOICES` table, the `RUNNING_STATUS` and `DONE_STATUS` lists, and three predicates: `is_running`, `is_done` and `is_deletable`. `PodLifeCycle` has six status strings and a `CHOICES` table. The predicates take raw strings, as in Python. An enumeration `JobStatus`, with `Parse`/`Value` between it and the strings, plus a per-constructor `Phase` (Idle, Active, Terminal), gives an independent reference to prove them against.
- **The `K8SManager` facade** of `manager.py`. It covers create-or-update, get, delete, list and the label-scoped bulk deletes, with the `reraise` error policy. The cluster API client is not part of this model. It is replaced by an abstract provider (`ClusterApi`) with three parts:
  - a store of resources in creation order, keyed by (kind, namespace, name);
  - a fault oracle: the set of calls that fail, plus the (kind, namespace) listings that fail;
  - a log of every call issued.

  Beyond injected faults, the provider fails the way the platform does. Creating an existing key is a conflict. Reading, patching or deleting a missing key is not found. Each manager method is a function from (manager, cluster) to `Step(cluster', Returned(v) | Raised(err))`. `Raised` carries the wrapped `PolyaxonK8SError`, an `AttributeError` or a `TypeError`; the last two are the escaping errors described under Findings.

Files:
- `wrappers.dfy` holds `Option` and `Result`.
- `constants.dfy` holds the modules `Constants`, `PodLifeCycle` and `JobLifeCycle`.
- `cluster_api.dfy` is the provider.
- `manager.dfy` holds the manager operations.
- `properties.dfy` holds lemmas that relate several calls.
- `findings.dfy` holds the as-written defects, each stated for all inputs or shown on a concrete cluster.

The per-kind Python methods are near-duplicates, so each family is one function with a `Kind` parameter:
- `CreateOrUpdate(m, c, k, ...)` is `create_or_update_<kind>`.
- `Get(m, c, k, ...)` is `get_<kind>`.
- `Delete(m, c, k, ...)` is `delete_<kind>`.
- `ListNamespaced(m, c, k, ...)` is `list_<kind>s` through `_list_namespace_resource`.

Volumes and nodes are cluster-scoped (`Scope` gives them no namespace). Custom objects carry their group/version/plural in the `Kind`.

Where the code and other descriptions of this library disagree, the model follows the code:
- `create_or_update_*` does not read first. It calls create, and after any create error it calls patch.
- `delete_*` does not check existence first. A missing object is an ApiException like any other: it is swallowed unless `reraise` is set.
- Not-found and other errors are never told apart.
- The job vocabulary is the nine constants of `constants.py` (no Starting, Killed or Finished). Created, Pausing and UNKNOWN are neither running nor done.
- There are no killable, starting, experiment or node predicates.

## Model

| member | source | states |
|---|---|---|
| JobLifeCycle.Parse | polyaxon_k8s/constants.py:54-63 | exactly the nine job status constants are recognised; every other string maps to None |
| JobLifeCycle.ParseValue | polyaxon_k8s/constants.py:55-63 | spelling a status as its constant and recognising it gives the same status back |
| JobLifeCycle.IsRunning | polyaxon_k8s/constants.py:77-82 | `is_running(s)` holds exactly when s is Building, Pending or Running (the Active phase) |
| JobLifeCycle.IsDone | polyaxon_k8s/constants.py:88-90 | `is_done(s)` holds exactly when s is Failed, Deleted or Succeeded (the Terminal phase, as listed in DONE_STATUS) |
| JobLifeCycle.IsDeletable | polyaxon_k8s/constants.py:84-86 | `is_deletable(s)` holds exactly when s is not a Terminal status, including for strings outside the vocabulary |
| JobLifeCycle.DeletableIsNotDone | polyaxon_k8s/constants.py:84-86 | `is_deletable(s) == not is_done(s)` for every string |
| JobLifeCycle.RunningAndDoneDisjoint | polyaxon_k8s/constants.py:77-78 | no string is both running and done |
| JobLifeCycle.IdleStatusesAreDeletable | polyaxon_k8s/constants.py:55-78 | Created, Pausing and UNKNOWN are neither running nor done, hence deletable, and they are exactly the Idle statuses |
| JobLifeCycle.OutsideVocabularyIsDeletable | polyaxon_k8s/constants.py:80-90 | a string that spells no status is not running, not done, and deletable |
| JobLifeCycle.ChoicesListEachStatusOnce | polyaxon_k8s/constants.py:65-75 | CHOICES has nine entries, each an identical (value, label) pair of a status, no value twice, and every status present |
| PodLifeCycle.ValueInjective | polyaxon_k8s/constants.py:37-43 | the six pod status constants are pairwise distinct |
| PodLifeCycle.ChoicesOmitOnlyUnknown | polyaxon_k8s/constants.py:45-51 | pod CHOICES lists Running, Pending, ContainerCreating, Succeeded and Failed once each as identical pairs, and omits UNKNOWN |
| ManagerProperties.SetNamespaceRetargets | polyaxon_k8s/manager.py:32-47 | after set_namespace, namespaced get and delete address the new namespace; volume calls ignore it |
| Manager.CreateOrUpdate | polyaxon_k8s/manager.py:211-221 | create is issued first and patch only after create failed. When create can succeed (no fault, nothing stored under the body's name) the result is `(resp, True)`, the body is appended and no patch is sent. When create fails and patch can succeed, the result is `(resp, False)` with the stored object carrying the patch. When both fail, the store is unchanged and it raises the patch's error wrapped in PolyaxonK8SError if reraise is set, returning None otherwise |
| ManagerProperties.CreateThenPatchFrame | polyaxon_k8s/manager.py:211-221 | the create-then-patch flow shared by every create_or_update_<kind> keeps keys unique and changes no key but the created one and the patched one, whichever kinds the two calls address |
| ManagerProperties.CreateOrUpdateFrame | polyaxon_k8s/manager.py:211-221 | create_or_update keeps keys unique and changes no key other than the ones it created or patched |
| ManagerProperties.CreateOrUpdateUpserts | polyaxon_k8s/manager.py:211-221 | with no injected create or patch fault it is an upsert: it reports creation exactly when the key was absent, and afterwards the key holds the body's data and labels; other keys are untouched |
| ManagerProperties.GetAfterCreateOrUpdate | polyaxon_k8s/manager.py:431-437 | a get of what create_or_update returned reads back exactly that resource |
| Manager.CreateOrUpdateConfigMap | polyaxon_k8s/manager.py:135-145 | the same three cases as create_or_update, but the result is the bare resource: the created config map, or the patched one, or None (the patch's wrapped error with reraise); create is logged first, and patch only after create failed |
| ManagerProperties.CreateOrUpdateConfigMapFrame | polyaxon_k8s/manager.py:135-145 | create_or_update_config_map keeps keys unique and changes no key but the config map it created or patched, faults included |
| ManagerProperties.CreateOrUpdateConfigMapUpserts | polyaxon_k8s/manager.py:135-145 | with no injected create, patch or read fault, create_or_update_config_map returns the config map now stored under the body's name, with the body's data and labels; a get reads it back; other keys are untouched |
| ManagerProperties.CreateOrUpdateVolumeAsWrittenFrame | polyaxon_k8s/manager.py:337-347 | create_or_update_volume as written keeps keys unique and changes no key but the volume it may create and the same-named service it may patch |
| Manager.CreateOrUpdateVolumeAsWritten | polyaxon_k8s/manager.py:337-347 | create addresses the cluster-scoped volume key and, when it can succeed, appends the volume and returns `(resp, True)`. Otherwise the second call patches the service key in the current namespace: `(patched service, False)` when that service exists, and when it does not, the store is unchanged and the result is None or the wrapped error |
| Manager.Get | polyaxon_k8s/manager.py:431-437 | only the read call is issued. A read that can succeed returns the stored object whatever reraise says. With reraise unset, a read fault or a missing key gives None; with reraise set, it raises exactly in those cases, and the error is the read's error wrapped in PolyaxonK8SError |
| Manager.Delete | polyaxon_k8s/manager.py:543-555 | issues one delete call; raises no API error with reraise unset; with reraise set it raises exactly when the delete is faulted or the key is missing, the error is the delete's error wrapped in PolyaxonK8SError, and nothing changes |
| ManagerProperties.DeleteIsIdempotent | polyaxon_k8s/manager.py:543-555 | unless its own call is faulted, delete leaves the key absent and every other key as it was; a second delete then returns normally and changes nothing, and get returns None |
| Manager.DeleteAsWritten | polyaxon_k8s/manager.py:588-603 | delete_deployment and delete_ingress raise AttributeError with the cluster untouched, whatever reraise says; every other delete_<kind> behaves as Delete |
| Manager.ListNamespaced | polyaxon_k8s/manager.py:43-53 | lists in the current namespace; without a list fault it returns exactly the matching objects of that kind; on a fault it returns [] or, with reraise set, raises the listing's error wrapped in PolyaxonK8SError |
| Manager.ListNamespacedAsWritten | polyaxon_k8s/manager.py:43-53 | for custom objects, a listing the provider answers ends in a TypeError, after the list call and whatever reraise says; a rejected listing, and every other kind, behave as ListNamespaced |
| ClusterApi.SelectKeepsOrder | polyaxon_k8s/manager.py:45-53 | the items a label-selected listing returns appear in the same relative order as in the store |
| ManagerProperties.ListNamespacedInOrder | polyaxon_k8s/manager.py:43-53 | when the listing works, _list_namespace_resource returns the provider's matching items in the provider's order |
| Manager.ListNodes | polyaxon_k8s/manager.py:55-63 | when the listing works it returns exactly the provider's node listing (every node, no selector); on a list fault it returns [] with reraise unset and raises the wrapped list error with reraise set |
| ManagerProperties.ListNodesInOrder | polyaxon_k8s/manager.py:57-58 | a working list_nodes returns the stored nodes in the provider's order, as a subsequence of the store |
| Manager.DeleteEach | polyaxon_k8s/manager.py:653-654 | the loop over the listed names only appends to the call log and leaves the fault oracle alone; with reraise unset the corrected loop raises no API error, because each delete swallows its error |
| ManagerProperties.DeleteEachAppend | polyaxon_k8s/manager.py:653-654 | the loop over a + b is the loop over a, then, unless that raised, the loop over b from the state it left |
| ManagerProperties.DeleteEachStopsAtFirstFailure | polyaxon_k8s/manager.py:649-654 | if the first i deletes return and delete i raises, the bulk delete ends with that error: earlier deletions stand and no later name is attempted |
| ManagerProperties.DeleteEachLogsInOrder | polyaxon_k8s/manager.py:653-654 | a completed loop issued exactly one delete per listed name, in list order |
| ManagerProperties.DeleteEachRemoves | polyaxon_k8s/manager.py:653-654 | with reraise unset, afterwards exactly the keys of listed names whose delete is not faulted are absent; every other key is unchanged |
| ManagerProperties.DeleteEachRemovesItems | polyaxon_k8s/manager.py:653-654 | deleting the names of listed stored objects removes exactly those objects |
| Manager.DeleteBulk | polyaxon_k8s/manager.py:649-654 | the list call is issued first. A faulted listing ends it: it returns with nothing deleted, or, with reraise set, raises the list error wrapped in PolyaxonK8SError. A working listing is followed by exactly the delete loop over the listed names in list order, so the loop's first raised error is the bulk delete's. With reraise unset the corrected bulk delete raises no API error |
| ManagerProperties.DeleteBulkRemovesMatching | polyaxon_k8s/manager.py:649-654 | with reraise unset, a working list and no faulted delete, the objects left are exactly the old ones minus those of that kind and namespace matching the selector |
| Manager.DeletePods | polyaxon_k8s/manager.py:649-654 | lists pods first; raises no API error with reraise unset |
| Manager.DeleteJobs | polyaxon_k8s/manager.py:656-661 | lists jobs first; raises no API error with reraise unset |
| Manager.DeleteServices | polyaxon_k8s/manager.py:663-666 | lists services first; raises no API error with reraise unset |
| Manager.DeleteDeploymentsAsWritten | polyaxon_k8s/manager.py:668-671 | lists deployments and issues no other call, and the store is unchanged. When the listing works, any matching deployment makes it raise AttributeError, whatever reraise says; with none it returns normally |
| Manager.DeleteDeployments | polyaxon_k8s/manager.py:668-671 | corrected: lists deployments first; raises no API error with reraise unset |
| Manager.DeleteIngressesAsWritten | polyaxon_k8s/manager.py:673-676 | lists services, not ingresses, and issues no other call, and the store is unchanged. When the listing works, any matching service makes it raise AttributeError (the first delete_ingress fails before its call), whatever reraise says; with none it returns normally |
| Manager.DeleteIngresses | polyaxon_k8s/manager.py:673-676 | corrected: lists ingresses first; raises no API error with reraise unset |
| Findings.DeleteDeploymentsAsWrittenRaises | polyaxon_k8s/manager.py:594 | once any deployment is listed, delete_deployments raises AttributeError even with reraise unset and sends no delete; the corrected version returns |
| Findings.IngressesAsWrittenMissIngress | polyaxon_k8s/manager.py:674 | a labelled ingress with no same-named service survives delete_ingresses as written; the corrected version removes it |
| Findings.VolumeAsWrittenPatchesService | polyaxon_k8s/manager.py:342 | with an existing volume and a same-named service, create_or_update_volume patches the service and leaves the volume; the corrected version patches the volume |
| Findings.VolumeAsWrittenCannotUpdate | polyaxon_k8s/manager.py:342 | with an existing volume and no same-named service, create_or_update_volume returns None and changes nothing |
| Findings.VolumeAsWrittenNeverUpdatesVolume | polyaxon_k8s/manager.py:337-347 | on every cluster holding the volume, create_or_update_volume as written leaves the stored volume as it was, whatever it returns; the corrected operation, unless its patch is faulted, leaves the volume carrying the body's payload |
| Findings.CustomObjectListingAsWrittenRaises | polyaxon_k8s/manager.py:48 | on every cluster whose custom-object listing the provider answers, list_custom_objects as written raises a TypeError even with reraise unset; the corrected listing returns the matching custom objects |

## Left out

- Client construction (manager.py:13-30): kube-config or in-cluster config loading and API client wiring are I/O and environment. The manager is just its namespace (default `"default"`) and its in-cluster flag.
- `get_version` and `update_node_labels` (manager.py:35-41, 112-119): single foreign calls with the same reraise pattern as the modelled operations.
- Logging: every logger call is a side effect only.
- Request bodies are reduced to name, labels and an opaque payload. The contents of the `V1DeleteOptions` are left out, except that a missing constants-module name raises, which is modelled.
- Patch semantics belong to the platform. The model picks one: labels merged with the patch winning, payload replaced, name kept.
- Deletion is immediate in the model: a successful delete removes the object at once. The platform may keep an object through its grace period, and `propagation_policy="Foreground"` (manager.py:595, 639) keeps it until its dependents are gone. So "a get then returns None" in `DeleteIsIdempotent`, and the store after `DeleteBulkRemovesMatching`, describe the state once deletion has completed.
- Label selectors are strings parsed by the platform. The model uses equality selectors: every selector pair must appear among the labels.
- `include_uninitialized` on `list_pods`/`list_jobs`/`delete_pods`/`delete_jobs`: the model assumes a client that accepts this keyword and ignores it. The pinned client (kubernetes 10.0.1, setup.py:52) may no longer accept it on its namespaced pod and job listings. If so, the generated client raises a TypeError before any call, and that escapes `except ApiException`. This is not modelled, because it rests on the client library rather than this code.
- `EventTypes`, `ContainerStatuses` and `PodConditions` (constants.py:18-34): bare literals with no behaviour.
- The `create_<kind>`/`update_<kind>` helpers are the provider's `CreateObject`/`PatchObject`. Their only other effect is a debug log.
- Concurrency and transport timeouts: the code is single-threaded and blocking.
- Client failures other than an ApiException (an unwrapped connection error, say) are not modelled. The code catches only ApiException, so such failures escape whatever `reraise` says. Every "raises no API error with reraise unset" above is therefore about API errors only. The fault oracle produces API errors and nothing else.
- The bulk deletes for pods, jobs and services use `Delete`. `DeleteAsWritten` is provably the same function for those kinds.

## Findings

| source | as written | input that shows it | evidently intended | confidence | as-written member | corrected member |
|---|---|---|---|---|---|---|
| polyaxon_k8s/manager.py:594 | delete_deployment reads `constants.K8S_API_VERSION_APPS_V1`, which constants.py does not define. The AttributeError is not an ApiException, so it escapes even with reraise=False, and no delete is sent. | any call, e.g. delete_deployments on a namespace holding one matching deployment | delete the deployment, swallowing API errors unless reraise | high; not executed | Findings.DeleteDeploymentsAsWrittenRaises | Manager.DeleteDeployments |
| polyaxon_k8s/manager.py:638 | delete_ingress reads `constants.K8S_API_VERSION_NETWORKING_V1_BETA1`, which is not defined either, with the same effect | any call to delete_ingress | delete the ingress, swallowing API errors unless reraise | high; not executed | Manager.DeleteAsWritten | Manager.Delete |
| polyaxon_k8s/manager.py:674 | delete_ingresses lists services, not ingresses. It then calls delete_ingress on the first listed name, which raises AttributeError before any call (manager.py:638), so as written no ingress is ever deleted, and any matching service makes the bulk delete raise | an ingress "web" labelled app=web and no service | list ingresses by the selector | high; not executed | Findings.IngressesAsWrittenMissIngress | Manager.DeleteIngresses |
| polyaxon_k8s/manager.py:342 | create_or_update_volume falls back to update_service | an existing volume "data" plus a service "data" in the current namespace | fall back to update_volume | high; not executed | Findings.VolumeAsWrittenPatchesService | Manager.CreateOrUpdate |
| polyaxon_k8s/manager.py:48 | `_list_namespace_resource` iterates `res.items`. For list_custom_objects (manager.py:81-89), the client's custom-objects listing returns a plain mapping, so `res.items` is the mapping's method and iterating it raises TypeError, which escapes `except ApiException` | list_custom_objects on any namespace whose listing the platform answers | return the mapping's `items` entry as a list | medium: rests on the client library's return type, which is outside this model; not executed | Findings.CustomObjectListingAsWrittenRaises | Manager.ListNamespaced |

The corrected members carry the intended properties. `ManagerProperties.DeleteIsIdempotent` holds for every kind except nodes. `ManagerProperties.CreateOrUpdateUpserts` holds for every kind except config maps and nodes; for config maps, `ManagerProperties.CreateOrUpdateConfigMapUpserts` states the same property. `ManagerProperties.DeleteBulkRemovesMatching` holds for every namespaced kind, which includes every kind with a bulk delete: pods, jobs, services, deployments and ingresses. `ManagerProperties.ListNamespacedInOrder` states the corrected listing's order.
