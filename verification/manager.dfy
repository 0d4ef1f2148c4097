/** The K8SManager facade: create-or-update, get, delete, list and
    label-scoped bulk delete over the cluster API, with the `reraise` error
    policy. Every operation is a function from (manager, cluster) to the
    cluster after the calls it issued and what the Python method returned or
    raised. */
module Manager {
  import opened Wrappers
  import opened ClusterApi
  import Constants

  const DEFAULT_NAMESPACE: string := "default"

  /** The manager's own state. Only `namespace` is read by any operation. */
  datatype K8sManager = K8sManager(namespace: string, inCluster: bool)

  /** What a manager method can raise: the wrapped client error, an
      AttributeError from looking up a name the constants module lacks, or a
      TypeError from iterating something that is not a sequence. */
  datatype ManagerError =
    | PolyaxonK8sError(cause: ApiError)
    | AttributeError(attribute: string)
    | TypeError(detail: string)

  /** A Python method's result: the value it returned, or the error it raised. */
  datatype Outcome<T> = Returned(value: T) | Raised(error: ManagerError)

  /** The cluster after an operation, and the operation's outcome. */
  datatype Step<T> = Step(cluster: Cluster, outcome: Outcome<T>)

  /** `(resp, True)` after a create, `(resp, False)` after a patch. */
  datatype Applied = Applied(resource: Resource, created: bool)

  /** Which manager the bulk deletes run against: the code as it stands, or
      with the missing delete-option constants defined. */
  datatype Revision = AsWritten | Corrected

  function SetNamespace(m: K8sManager, namespace: string): K8sManager {
    m.(namespace := namespace)
  }

  /** The namespace a call on kind k is addressed to: the current one, or none for cluster-scoped kinds. */
  function Scope(m: K8sManager, k: Kind): Option<string> {
    if Namespaced(k) then Some(m.namespace) else None
  }

  /** The shared `except ApiException` policy: wrap and raise, or return the neutral value. */
  function OnError<T>(e: ApiError, reraise: bool, neutral: T): Outcome<T> {
    if reraise then Raised(PolyaxonK8sError(e)) else Returned(neutral)
  }

  /** The body shared by every create_or_update_<kind>: create; on any error
      patch; on a second error apply the policy with None as the neutral value.
      Create and patch may address different kinds, as the volume variant does. */
  function CreateThenPatch(c: Cluster, createKind: Kind, createNs: Option<string>,
                           patchKind: Kind, patchNs: Option<string>,
                           name: string, body: Body, reraise: bool): (s: Step<Option<Applied>>)
    ensures s.cluster.faults == c.faults
    ensures var createKey := Key(createKind, createNs, body.name);
            CanCreate(c, createKey) ==>
              s.outcome == Returned(Some(Applied(Resource(createKind, createNs, body), true)))
              && s.cluster.objects == c.objects + [Resource(createKind, createNs, body)]
              && s.cluster.log == c.log + [Call(Creating, createKey)]
    ensures var createKey := Key(createKind, createNs, body.name);
            var patchKey := Key(patchKind, patchNs, name);
            !CanCreate(c, createKey) ==>
              s.cluster.log == c.log + [Call(Creating, createKey), Call(Patching, patchKey)]
    ensures var createKey := Key(createKind, createNs, body.name);
            var patchKey := Key(patchKind, patchNs, name);
            !CanCreate(c, createKey) && CanPatch(c, patchKey) ==>
              s.outcome == Returned(Some(Applied(Resource(patchKind, patchNs, Patched(Lookup(c, patchKey).value.body, body)), false)))
              && s.outcome.value.value.resource in s.cluster.objects
    ensures var createKey := Key(createKind, createNs, body.name);
            var patchKey := Key(patchKind, patchNs, name);
            !CanCreate(c, createKey) && !CanPatch(c, patchKey) ==>
              s.cluster.objects == c.objects
              && s.outcome == if reraise then Raised(PolyaxonK8sError(CallError(c, Patching, patchKey))) else Returned(None)
  {
    var created := CreateObject(c, createKind, createNs, body);
    if created.result.Success? then
      Step(created.cluster, Returned(Some(Applied(created.result.value, true))))
    else
      var patched := PatchObject(created.cluster, patchKind, patchNs, name, body);
      if patched.result.Success? then
        Step(patched.cluster, Returned(Some(Applied(patched.result.value, false))))
      else
        Step(patched.cluster, OnError(patched.result.error, reraise, None))
  }

  /** create_or_update_<kind> for secrets, services, pods, jobs, custom objects,
      deployments, volume claims, ingresses, and (with its patch call corrected)
      persistent volumes. */
  function CreateOrUpdate(m: K8sManager, c: Cluster, k: Kind, name: string, body: Body, reraise: bool)
    : (s: Step<Option<Applied>>)
    requires !k.ConfigMap? && !k.Node?
    ensures s.cluster.faults == c.faults
    ensures !reraise ==> s.outcome.Returned?
    // Create succeeds: (resp, True), the body is stored, and patch is never attempted.
    ensures var createKey := Key(k, Scope(m, k), body.name);
            CanCreate(c, createKey) ==>
              s.outcome == Returned(Some(Applied(Resource(k, Scope(m, k), body), true)))
              && s.cluster.objects == c.objects + [Resource(k, Scope(m, k), body)]
              && s.cluster.log == c.log + [Call(Creating, createKey)]
    // Create fails: patch is the second and last call.
    ensures var createKey := Key(k, Scope(m, k), body.name);
            var patchKey := Key(k, Scope(m, k), name);
            !CanCreate(c, createKey) ==>
              s.cluster.log == c.log + [Call(Creating, createKey), Call(Patching, patchKey)]
    // Create fails, patch succeeds: (resp, False), the object stored under `name` now carries the patch.
    ensures var createKey := Key(k, Scope(m, k), body.name);
            var patchKey := Key(k, Scope(m, k), name);
            !CanCreate(c, createKey) && CanPatch(c, patchKey) ==>
              s.outcome == Returned(Some(Applied(Resource(k, Scope(m, k), Patched(Lookup(c, patchKey).value.body, body)), false)))
              && s.outcome.value.value.resource in s.cluster.objects
    // Both fail: the patch's error wrapped when reraise is set, None otherwise; the store is unchanged.
    ensures var createKey := Key(k, Scope(m, k), body.name);
            var patchKey := Key(k, Scope(m, k), name);
            !CanCreate(c, createKey) && !CanPatch(c, patchKey) ==>
              s.cluster.objects == c.objects
              && s.outcome == if reraise then Raised(PolyaxonK8sError(CallError(c, Patching, patchKey))) else Returned(None)
  {
    CreateThenPatch(c, k, Scope(m, k), k, Scope(m, k), name, body, reraise)
  }

  /** create_or_update_config_map: the same flow, but it returns the bare
      resource, without the created flag. */
  function CreateOrUpdateConfigMap(m: K8sManager, c: Cluster, name: string, body: Body, reraise: bool)
    : (s: Step<Option<Resource>>)
    ensures s.cluster.faults == c.faults
    ensures !reraise ==> s.outcome.Returned?
    ensures var createKey := Key(ConfigMap, Some(m.namespace), body.name);
            CanCreate(c, createKey) ==>
              s.outcome == Returned(Some(Resource(ConfigMap, Some(m.namespace), body)))
              && s.cluster.objects == c.objects + [Resource(ConfigMap, Some(m.namespace), body)]
              && s.cluster.log == c.log + [Call(Creating, createKey)]
    ensures var createKey := Key(ConfigMap, Some(m.namespace), body.name);
            var patchKey := Key(ConfigMap, Some(m.namespace), name);
            !CanCreate(c, createKey) ==>
              s.cluster.log == c.log + [Call(Creating, createKey), Call(Patching, patchKey)]
    ensures var createKey := Key(ConfigMap, Some(m.namespace), body.name);
            var patchKey := Key(ConfigMap, Some(m.namespace), name);
            !CanCreate(c, createKey) && CanPatch(c, patchKey) ==>
              s.outcome == Returned(Some(Resource(ConfigMap, Some(m.namespace), Patched(Lookup(c, patchKey).value.body, body))))
              && s.outcome.value.value in s.cluster.objects
    ensures var createKey := Key(ConfigMap, Some(m.namespace), body.name);
            var patchKey := Key(ConfigMap, Some(m.namespace), name);
            !CanCreate(c, createKey) && !CanPatch(c, patchKey) ==>
              s.cluster.objects == c.objects
              && s.outcome == if reraise then Raised(PolyaxonK8sError(CallError(c, Patching, patchKey))) else Returned(None)
  {
    var ns := Some(m.namespace);
    var step := CreateThenPatch(c, ConfigMap, ns, ConfigMap, ns, name, body, reraise);
    match step.outcome
    case Raised(e) => Step(step.cluster, Raised(e))
    case Returned(None) => Step(step.cluster, Returned(None))
    case Returned(Some(a)) => Step(step.cluster, Returned(Some(a.resource)))
  }

  /** create_or_update_volume as written: it creates a persistent volume, but
      its fallback is update_service, which patches a service of that name in
      the current namespace. */
  function CreateOrUpdateVolumeAsWritten(m: K8sManager, c: Cluster, name: string, body: Body, reraise: bool)
    : (s: Step<Option<Applied>>)
    ensures s.cluster.faults == c.faults
    ensures !reraise ==> s.outcome.Returned?
    ensures var volumeKey := Key(Volume, None, body.name);
            CanCreate(c, volumeKey) ==>
              s.outcome == Returned(Some(Applied(Resource(Volume, None, body), true)))
              && s.cluster.objects == c.objects + [Resource(Volume, None, body)]
              && s.cluster.log == c.log + [Call(Creating, volumeKey)]
    // The fallback call addresses the service key, never the volume's.
    ensures var volumeKey := Key(Volume, None, body.name);
            var serviceKey := Key(Service, Some(m.namespace), name);
            !CanCreate(c, volumeKey) ==>
              s.cluster.log == c.log + [Call(Creating, volumeKey), Call(Patching, serviceKey)]
    ensures var volumeKey := Key(Volume, None, body.name);
            var serviceKey := Key(Service, Some(m.namespace), name);
            !CanCreate(c, volumeKey) && CanPatch(c, serviceKey) ==>
              s.outcome == Returned(Some(Applied(Resource(Service, Some(m.namespace), Patched(Lookup(c, serviceKey).value.body, body)), false)))
              && s.outcome.value.value.resource in s.cluster.objects
    ensures var volumeKey := Key(Volume, None, body.name);
            var serviceKey := Key(Service, Some(m.namespace), name);
            !CanCreate(c, volumeKey) && !CanPatch(c, serviceKey) ==>
              s.cluster.objects == c.objects
              && s.outcome == if reraise then Raised(PolyaxonK8sError(CallError(c, Patching, serviceKey))) else Returned(None)
  {
    CreateThenPatch(c, Volume, None, Service, Some(m.namespace), name, body, reraise)
  }

  /** get_<kind>: the stored object, None on any error, or the wrapped error when reraise is set. */
  function Get(m: K8sManager, c: Cluster, k: Kind, name: string, reraise: bool): (s: Step<Option<Resource>>)
    requires !k.Node?
    ensures s.cluster == Logged(c, Call(Reading, Key(k, Scope(m, k), name)))
    // A read that succeeds returns the stored object, whatever reraise says.
    ensures CallFails(Reading, Key(k, Scope(m, k), name)) !in c.faults && Lookup(c, Key(k, Scope(m, k), name)).Some? ==>
              s.outcome == Returned(Lookup(c, Key(k, Scope(m, k), name)))
    ensures s.outcome.Returned? && s.outcome.value.Some? ==>
              Lookup(c, Key(k, Scope(m, k), name)) == s.outcome.value
    ensures !reraise ==>
              s.outcome == Returned(if CallFails(Reading, Key(k, Scope(m, k), name)) in c.faults then None
                                    else Lookup(c, Key(k, Scope(m, k), name)))
    ensures reraise ==>
              (s.outcome.Raised? <==> CallFails(Reading, Key(k, Scope(m, k), name)) in c.faults
                                       || Lookup(c, Key(k, Scope(m, k), name)).None?)
    ensures s.outcome.Raised? ==>
              s.outcome.error == PolyaxonK8sError(CallError(c, Reading, Key(k, Scope(m, k), name)))
  {
    var rep := ReadObject(c, k, Scope(m, k), name);
    match rep.result
    case Success(r) => Step(rep.cluster, Returned(Some(r)))
    case Failure(e) => Step(rep.cluster, OnError(e, reraise, None))
  }

  /** delete_<kind> with its delete options left out: every error is swallowed unless reraise is set. */
  function Delete(m: K8sManager, c: Cluster, k: Kind, name: string, reraise: bool): (s: Step<()>)
    requires !k.Node?
    ensures s.cluster.faults == c.faults
    ensures s.cluster.log == c.log + [Call(Deleting, Key(k, Scope(m, k), name))]
    ensures !reraise ==> s.outcome.Returned?
    ensures s.outcome.Raised? <==>
              reraise && (CallFails(Deleting, Key(k, Scope(m, k), name)) in c.faults
                          || Lookup(c, Key(k, Scope(m, k), name)).None?)
    ensures s.outcome.Raised? ==> s.cluster.objects == c.objects
    ensures s.outcome.Raised? ==>
              s.outcome.error == PolyaxonK8sError(CallError(c, Deleting, Key(k, Scope(m, k), name)))
  {
    var rep := DeleteObject(c, k, Scope(m, k), name);
    match rep.result
    case Success(_) => Step(rep.cluster, Returned(()))
    case Failure(e) => Step(rep.cluster, OnError(e, reraise, ()))
  }

  /** The constants-module name each delete_<kind> reads to build its delete
      options; custom objects pass empty options. */
  function DeleteOptionsConstant(k: Kind): Option<string> {
    match k
    case Deployment => Some("K8S_API_VERSION_APPS_V1")
    case Ingress => Some("K8S_API_VERSION_NETWORKING_V1_BETA1")
    case CustomObject(_, _, _) => None
    case _ => Some("K8S_API_VERSION_V1")
  }

  /** delete_<kind> as written: the delete options are built before the call,
      so a constant missing from the constants module raises an AttributeError,
      which `except ApiException` does not catch. */
  function DeleteAsWritten(m: K8sManager, c: Cluster, k: Kind, name: string, reraise: bool): (s: Step<()>)
    requires !k.Node?
    ensures k.Deployment? ==> s == Step(c, Raised(AttributeError("K8S_API_VERSION_APPS_V1")))
    ensures k.Ingress? ==> s == Step(c, Raised(AttributeError("K8S_API_VERSION_NETWORKING_V1_BETA1")))
    ensures !k.Deployment? && !k.Ingress? ==> s == Delete(m, c, k, name, reraise)
  {
    var constant := DeleteOptionsConstant(k);
    if constant.Some? && constant.value !in Constants.ATTRIBUTES then
      Step(c, Raised(AttributeError(constant.value)))
    else
      Delete(m, c, k, name, reraise)
  }

  function DeleteIn(rev: Revision, m: K8sManager, c: Cluster, k: Kind, name: string, reraise: bool): Step<()>
    requires !k.Node?
  {
    match rev
    case AsWritten => DeleteAsWritten(m, c, k, name, reraise)
    case Corrected => Delete(m, c, k, name, reraise)
  }

  /** _list_namespace_resource: the provider's items, copied in order; [] on
      error, or the wrapped error when reraise is set. */
  function ListNamespaced(m: K8sManager, c: Cluster, k: Kind, selector: Labels, reraise: bool)
    : (s: Step<seq<Resource>>)
    requires Namespaced(k)
    ensures s.cluster == Logged(c, ListCall(k, Some(m.namespace), selector))
    ensures !reraise ==> s.outcome.Returned?
    ensures s.outcome.Raised? <==> reraise && ListFails(k, Some(m.namespace)) in c.faults
    ensures s.outcome.Raised? ==> s.outcome.error == PolyaxonK8sError(Injected(ListFails(k, Some(m.namespace))))
    ensures ListFails(k, Some(m.namespace)) in c.faults && !reraise ==> s.outcome == Returned([])
    ensures ListFails(k, Some(m.namespace)) !in c.faults ==>
              s.outcome.Returned?
              && (forall x :: x in s.outcome.value <==>
                    x in c.objects && x.kind == k && x.namespace == Some(m.namespace)
                    && Matches(x.body.labels, selector))
  {
    var rep := ListObjects(c, k, Some(m.namespace), selector);
    match rep.result
    case Success(items) => Step(rep.cluster, Returned(items))
    case Failure(e) => Step(rep.cluster, OnError(e, reraise, []))
  }

  /** The `_list_namespace_resource` behind list_custom_objects, as written.
      The custom-objects client hands back a plain mapping rather than a list
      object, so `res.items` is the mapping's `items` method and iterating it
      raises a TypeError, which `except ApiException` does not catch. A listing
      the provider rejects still takes the ApiException path; every other kind
      behaves as ListNamespaced. */
  function ListNamespacedAsWritten(m: K8sManager, c: Cluster, k: Kind, selector: Labels, reraise: bool)
    : (s: Step<seq<Resource>>)
    requires Namespaced(k)
    ensures k.CustomObject? && ListFails(k, Some(m.namespace)) !in c.faults ==>
              s == Step(Logged(c, ListCall(k, Some(m.namespace), selector)), Raised(TypeError(MAPPING_ITEMS)))
    ensures !k.CustomObject? || ListFails(k, Some(m.namespace)) in c.faults ==>
              s == ListNamespaced(m, c, k, selector, reraise)
  {
    var listed := ListNamespaced(m, c, k, selector, reraise);
    if k.CustomObject? && listed.outcome.Returned? && ListFails(k, Some(m.namespace)) !in c.faults then
      Step(listed.cluster, Raised(TypeError(MAPPING_ITEMS)))
    else
      listed
  }

  /** What iterating a mapping's bound `items` method reports. */
  const MAPPING_ITEMS: string := "'builtin_function_or_method' object is not iterable"

  /** list_nodes: every node, cluster-wide, with no selector. */
  function ListNodes(c: Cluster, reraise: bool): (s: Step<seq<Resource>>)
    ensures s.cluster == Logged(c, ListCall(Node, None, map[]))
    ensures !reraise ==> s.outcome.Returned?
    ensures ListFails(Node, None) !in c.faults ==>
              s.outcome == Returned(Select(c.objects, Node, None, map[]))
    ensures ListFails(Node, None) !in c.faults ==>
              s.outcome.Returned? && (forall x :: x in s.outcome.value <==> x in c.objects && x.kind == Node && x.namespace == None)
    ensures ListFails(Node, None) in c.faults ==>
              s.outcome == if reraise then Raised(PolyaxonK8sError(Injected(ListFails(Node, None)))) else Returned([])
  {
    var rep := ListObjects(c, Node, None, map[]);
    match rep.result
    case Success(items) => Step(rep.cluster, Returned(items))
    case Failure(e) => Step(rep.cluster, OnError(e, reraise, []))
  }

  /** The metadata names of listed objects, in list order. */
  function Names(items: seq<Resource>): (names: seq<string>)
    ensures |names| == |items|
    ensures forall i :: 0 <= i < |items| ==> names[i] == items[i].body.name
  {
    seq(|items|, i requires 0 <= i < |items| => items[i].body.name)
  }

  /** The `for obj in objs: self.delete_<kind>(...)` loop: deletes one name
      at a time in order; the first raised error ends the loop. */
  function DeleteEach(rev: Revision, m: K8sManager, c: Cluster, k: Kind, names: seq<string>, reraise: bool)
    : (s: Step<()>)
    requires !k.Node?
    decreases |names|
    ensures s.cluster.faults == c.faults
    ensures rev == Corrected && !reraise ==> s.outcome.Returned?
    ensures c.log <= s.cluster.log
  {
    if |names| == 0 then Step(c, Returned(()))
    else
      var first := DeleteIn(rev, m, c, k, names[0], reraise);
      if first.outcome.Raised? then first
      else DeleteEach(rev, m, first.cluster, k, names[1..], reraise)
  }

  /** delete_<kinds>(labels): list `listKind` by selector, then delete each
      listed name as `deleteKind`. A failed list with reraise unset lists nothing. */
  function DeleteBulk(rev: Revision, m: K8sManager, c: Cluster, listKind: Kind, deleteKind: Kind,
                      selector: Labels, reraise: bool): (s: Step<()>)
    requires Namespaced(listKind) && !deleteKind.Node?
    ensures s.cluster.faults == c.faults
    ensures |c.log| < |s.cluster.log| && s.cluster.log[|c.log|] == ListCall(listKind, Some(m.namespace), selector)
    ensures rev == Corrected && !reraise ==> s.outcome.Returned?
    // A faulted listing ends the bulk delete: nothing listed, or the wrapped list error.
    ensures ListFails(listKind, Some(m.namespace)) in c.faults ==>
              s == Step(Logged(c, ListCall(listKind, Some(m.namespace), selector)),
                        if reraise then Raised(PolyaxonK8sError(Injected(ListFails(listKind, Some(m.namespace)))))
                        else Returned(()))
    // A working listing is followed by the delete loop over the listed names, in list order.
    ensures ListFails(listKind, Some(m.namespace)) !in c.faults ==>
              s == DeleteEach(rev, m, Logged(c, ListCall(listKind, Some(m.namespace), selector)), deleteKind,
                              Names(Select(c.objects, listKind, Some(m.namespace), selector)), reraise)
  {
    var listed := ListNamespaced(m, c, listKind, selector, reraise);
    match listed.outcome
    case Raised(e) => Step(listed.cluster, Raised(e))
    case Returned(items) => DeleteEach(rev, m, listed.cluster, deleteKind, Names(items), reraise)
  }

  function DeletePods(m: K8sManager, c: Cluster, selector: Labels, reraise: bool): (s: Step<()>)
    ensures !reraise ==> s.outcome.Returned?
    ensures |c.log| < |s.cluster.log| && s.cluster.log[|c.log|] == ListCall(Pod, Some(m.namespace), selector)
  {
    DeleteBulk(Corrected, m, c, Pod, Pod, selector, reraise)
  }

  function DeleteJobs(m: K8sManager, c: Cluster, selector: Labels, reraise: bool): (s: Step<()>)
    ensures !reraise ==> s.outcome.Returned?
    ensures |c.log| < |s.cluster.log| && s.cluster.log[|c.log|] == ListCall(Job, Some(m.namespace), selector)
  {
    DeleteBulk(Corrected, m, c, Job, Job, selector, reraise)
  }

  function DeleteServices(m: K8sManager, c: Cluster, selector: Labels, reraise: bool): (s: Step<()>)
    ensures !reraise ==> s.outcome.Returned?
    ensures |c.log| < |s.cluster.log| && s.cluster.log[|c.log|] == ListCall(Service, Some(m.namespace), selector)
  {
    DeleteBulk(Corrected, m, c, Service, Service, selector, reraise)
  }

  /** delete_deployments as written: the first delete_deployment raises an
      AttributeError before any call, so no deployment is ever deleted. */
  function DeleteDeploymentsAsWritten(m: K8sManager, c: Cluster, selector: Labels, reraise: bool): (s: Step<()>)
    ensures |c.log| < |s.cluster.log| && s.cluster.log[|c.log|] == ListCall(Deployment, Some(m.namespace), selector)
    ensures |s.cluster.log| == |c.log| + 1
    ensures s.cluster.objects == c.objects
    // Any listed deployment makes the first delete_deployment raise, whatever reraise says.
    ensures ListFails(Deployment, Some(m.namespace)) !in c.faults
            && Select(c.objects, Deployment, Some(m.namespace), selector) != [] ==>
              s.outcome == Raised(AttributeError("K8S_API_VERSION_APPS_V1"))
    ensures ListFails(Deployment, Some(m.namespace)) !in c.faults
            && Select(c.objects, Deployment, Some(m.namespace), selector) == [] ==>
              s.outcome == Returned(())
  {
    DeleteBulk(AsWritten, m, c, Deployment, Deployment, selector, reraise)
  }

  function DeleteDeployments(m: K8sManager, c: Cluster, selector: Labels, reraise: bool): (s: Step<()>)
    ensures !reraise ==> s.outcome.Returned?
    ensures |c.log| < |s.cluster.log| && s.cluster.log[|c.log|] == ListCall(Deployment, Some(m.namespace), selector)
  {
    DeleteBulk(Corrected, m, c, Deployment, Deployment, selector, reraise)
  }

  /** delete_ingresses as written: it lists services, then calls delete_ingress
      on the first listed name, which raises an AttributeError before any call,
      so no ingress is ever deleted. */
  function DeleteIngressesAsWritten(m: K8sManager, c: Cluster, selector: Labels, reraise: bool): (s: Step<()>)
    ensures |c.log| < |s.cluster.log| && s.cluster.log[|c.log|] == ListCall(Service, Some(m.namespace), selector)
    ensures |s.cluster.log| == |c.log| + 1
    ensures s.cluster.objects == c.objects
    // Any listed service makes the first delete_ingress raise, whatever reraise says; no ingress is deleted.
    ensures ListFails(Service, Some(m.namespace)) !in c.faults
            && Select(c.objects, Service, Some(m.namespace), selector) != [] ==>
              s.outcome == Raised(AttributeError("K8S_API_VERSION_NETWORKING_V1_BETA1"))
    ensures ListFails(Service, Some(m.namespace)) !in c.faults
            && Select(c.objects, Service, Some(m.namespace), selector) == [] ==>
              s.outcome == Returned(())
  {
    DeleteBulk(AsWritten, m, c, Service, Ingress, selector, reraise)
  }

  function DeleteIngresses(m: K8sManager, c: Cluster, selector: Labels, reraise: bool): (s: Step<()>)
    ensures !reraise ==> s.outcome.Returned?
    ensures |c.log| < |s.cluster.log| && s.cluster.log[|c.log|] == ListCall(Ingress, Some(m.namespace), selector)
  {
    DeleteBulk(Corrected, m, c, Ingress, Ingress, selector, reraise)
  }
}
