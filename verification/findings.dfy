/** Where the manager as written departs from what its own naming and its
    sibling methods evidently intend, each stated for every input or shown on
    a concrete cluster, next to the corrected operation. */
module Findings {
  import opened Wrappers
  import opened ClusterApi
  import opened Manager

  const M: K8sManager := K8sManager(DEFAULT_NAMESPACE, false)
  const WEB: Labels := map["app" := "web"]

  /** delete_deployments as written never deletes anything once the list is
      non-empty: its first delete_deployment raises an AttributeError even with
      reraise unset, and no delete call reaches the cluster. The corrected
      bulk delete with reraise unset always returns. */
  lemma DeleteDeploymentsAsWrittenRaises(m: K8sManager, c: Cluster, selector: Labels, reraise: bool)
    requires ListFails(Deployment, Some(m.namespace)) !in c.faults
    requires Select(c.objects, Deployment, Some(m.namespace), selector) != []
    ensures DeleteDeploymentsAsWritten(m, c, selector, reraise) ==
              Step(Logged(c, ListCall(Deployment, Some(m.namespace), selector)),
                   Raised(AttributeError("K8S_API_VERSION_APPS_V1")))
    ensures !reraise ==> DeleteDeployments(m, c, selector, reraise).outcome.Returned?
  {
    var listed := ListNamespaced(m, c, Deployment, selector, reraise);
    assert listed.outcome == Returned(Select(c.objects, Deployment, Some(m.namespace), selector));
  }

  /** delete_ingresses as written lists services, so an ingress with matching
      labels and no service of that name survives, while the corrected bulk
      delete removes it. */
  lemma IngressesAsWrittenMissIngress()
    ensures var ingress := Resource(Ingress, Some(DEFAULT_NAMESPACE), Body("web", WEB, ""));
            var c := Cluster([ingress], {}, []);
            var asWritten := DeleteIngressesAsWritten(M, c, WEB, false);
            && asWritten.outcome == Returned(())
            && asWritten.cluster.objects == [ingress]
            && asWritten.cluster.log == [ListCall(Service, Some(DEFAULT_NAMESPACE), WEB)]
            && DeleteIngresses(M, c, WEB, false).cluster.objects == []
  {
    var ingress := Resource(Ingress, Some(DEFAULT_NAMESPACE), Body("web", WEB, ""));
    var c := Cluster([ingress], {}, []);
    assert Matches(ingress.body.labels, WEB);
    assert Select(c.objects, Service, Some(DEFAULT_NAMESPACE), WEB) == [];
    assert Select(c.objects, Ingress, Some(DEFAULT_NAMESPACE), WEB) == [ingress];
    assert Names([ingress]) == ["web"];
    var asWritten := DeleteIngressesAsWritten(M, c, WEB, false);
    assert asWritten == Step(Logged(c, ListCall(Service, Some(DEFAULT_NAMESPACE), WEB)), Returned(()));
    var listed := ListNamespaced(M, c, Ingress, WEB, false);
    assert listed.outcome == Returned([ingress]);
    var deleted := Delete(M, listed.cluster, Ingress, "web", false);
    assert Find(listed.cluster.objects, Key(Ingress, Some(DEFAULT_NAMESPACE), "web")) == Some(0);
    assert deleted.cluster.objects == [];
    assert DeleteEach(Corrected, M, listed.cluster, Ingress, ["web"], false).cluster.objects == [];
  }

  /** create_or_update_volume as written falls back to update_service: when the
      volume exists, it patches the service of the same name and leaves the
      volume as it was; the corrected operation patches the volume. */
  lemma VolumeAsWrittenPatchesService()
    ensures var volume := Resource(Volume, None, Body("data", map[], "old"));
            var service := Resource(Service, Some(DEFAULT_NAMESPACE), Body("data", map[], "svc"));
            var body := Body("data", map[], "new");
            var c := Cluster([volume, service], {}, []);
            var asWritten := CreateOrUpdateVolumeAsWritten(M, c, "data", body, false);
            var corrected := CreateOrUpdate(M, c, Volume, "data", body, false);
            && asWritten.outcome == Returned(Some(Applied(Resource(Service, Some(DEFAULT_NAMESPACE), body), false)))
            && asWritten.cluster.objects == [volume, Resource(Service, Some(DEFAULT_NAMESPACE), body)]
            && corrected.outcome == Returned(Some(Applied(Resource(Volume, None, body), false)))
            && corrected.cluster.objects == [Resource(Volume, None, body), service]
  {
    var volume := Resource(Volume, None, Body("data", map[], "old"));
    var service := Resource(Service, Some(DEFAULT_NAMESPACE), Body("data", map[], "svc"));
    var c := Cluster([volume, service], {}, []);
    assert Find(c.objects, Key(Volume, None, "data")) == Some(0);
    assert Find(c.objects, Key(Service, Some(DEFAULT_NAMESPACE), "data")) == Some(1);
  }

  /** For every cluster: once a volume is stored under the body's name,
      create_or_update_volume as written never changes it, whatever the
      outcome, while the corrected operation (barring an injected patch fault)
      leaves it carrying the body's payload. */
  lemma VolumeAsWrittenNeverUpdatesVolume(m: K8sManager, c: Cluster, body: Body, reraise: bool)
    requires Valid(c)
    requires Lookup(c, Key(Volume, None, body.name)).Some?
    ensures var volumeKey := Key(Volume, None, body.name);
            Lookup(CreateOrUpdateVolumeAsWritten(m, c, body.name, body, reraise).cluster, volumeKey) == Lookup(c, volumeKey)
    ensures var volumeKey := Key(Volume, None, body.name);
            CallFails(Patching, volumeKey) !in c.faults ==>
              var s := CreateOrUpdate(m, c, Volume, body.name, body, reraise);
              Lookup(s.cluster, volumeKey).Some? && Lookup(s.cluster, volumeKey).value.body.data == body.data
  {
    var volumeKey := Key(Volume, None, body.name);
    var serviceKey := Key(Service, Some(m.namespace), body.name);
    var created := CreateObject(c, Volume, None, body);
    CreateFrame(c, Volume, None, body, volumeKey);
    PatchFrame(created.cluster, Service, Some(m.namespace), body.name, body, volumeKey);
    PatchFrame(created.cluster, Volume, None, body.name, body, volumeKey);
  }

  /** With no service of the volume's name, create_or_update_volume as written
      cannot update an existing volume at all: it returns None. */
  lemma VolumeAsWrittenCannotUpdate()
    ensures var volume := Resource(Volume, None, Body("data", map[], "old"));
            var c := Cluster([volume], {}, []);
            var asWritten := CreateOrUpdateVolumeAsWritten(M, c, "data", Body("data", map[], "new"), false);
            asWritten.outcome == Returned(None) && asWritten.cluster.objects == [volume]
  {
    var volume := Resource(Volume, None, Body("data", map[], "old"));
    var c := Cluster([volume], {}, []);
    assert Find(c.objects, Key(Volume, None, "data")) == Some(0);
    assert Find(c.objects, Key(Service, Some(DEFAULT_NAMESPACE), "data")) == None;
  }

  /** list_custom_objects as written raises a TypeError, even with reraise
      unset, whenever the provider answers the listing; the corrected listing
      returns the matching custom objects. */
  lemma CustomObjectListingAsWrittenRaises(m: K8sManager, c: Cluster, group: string, version: string, plural: string,
                                           selector: Labels, reraise: bool)
    requires ListFails(CustomObject(group, version, plural), Some(m.namespace)) !in c.faults
    ensures var k := CustomObject(group, version, plural);
            && ListNamespacedAsWritten(m, c, k, selector, reraise).outcome == Raised(TypeError(MAPPING_ITEMS))
            && ListNamespaced(m, c, k, selector, reraise).outcome == Returned(Select(c.objects, k, Some(m.namespace), selector))
  {
  }
}
