/** Properties of the manager that relate several calls: namespace switching,
    create-or-update as an upsert, get after write, idempotent delete, and the
    order and effect of the bulk deletes. */
module ManagerProperties {
  import opened Wrappers
  import opened ClusterApi
  import opened Manager

  /** After set_namespace, namespaced calls address the new namespace; calls on
      cluster-scoped kinds are unaffected. */
  lemma SetNamespaceRetargets(m: K8sManager, ns: string, c: Cluster, k: Kind, name: string, reraise: bool)
    requires !k.Node?
    ensures var m' := SetNamespace(m, ns);
            Namespaced(k) ==>
              Get(m', c, k, name, reraise).cluster.log == c.log + [Call(Reading, Key(k, Some(ns), name))]
              && Delete(m', c, k, name, reraise).cluster.log == c.log + [Call(Deleting, Key(k, Some(ns), name))]
    ensures var m' := SetNamespace(m, ns);
            !Namespaced(k) ==>
              Get(m', c, k, name, reraise) == Get(m, c, k, name, reraise)
              && Delete(m', c, k, name, reraise) == Delete(m, c, k, name, reraise)
  {
  }

  /** _list_namespace_resource hands back the provider's items in the order
      the provider keeps them (creation order here). */
  lemma ListNamespacedInOrder(m: K8sManager, c: Cluster, k: Kind, selector: Labels, reraise: bool)
    requires Namespaced(k)
    requires ListFails(k, Some(m.namespace)) !in c.faults
    ensures var s := ListNamespaced(m, c, k, selector, reraise);
            s.outcome.Returned? && InOrderWithin(s.outcome.value, c.objects)
  {
    SelectKeepsOrder(c.objects, k, Some(m.namespace), selector);
  }

  /** list_nodes hands back every node once, in the order the provider keeps them. */
  lemma ListNodesInOrder(c: Cluster, reraise: bool)
    requires ListFails(Node, None) !in c.faults
    ensures var s := ListNodes(c, reraise);
            s.outcome.Returned? && InOrderWithin(s.outcome.value, c.objects)
  {
    SelectKeepsOrder(c.objects, Node, None, map[]);
  }

  /** The create-then-patch flow keeps keys unique and touches no key but the
      one it created or the one it patched, whichever kinds the two calls address. */
  lemma CreateThenPatchFrame(c: Cluster, createKind: Kind, createNs: Option<string>,
                             patchKind: Kind, patchNs: Option<string>,
                             name: string, body: Body, reraise: bool, key: Key)
    requires Valid(c)
    ensures var s := CreateThenPatch(c, createKind, createNs, patchKind, patchNs, name, body, reraise);
            Valid(s.cluster)
            && (key != Key(createKind, createNs, body.name) && key != Key(patchKind, patchNs, name) ==>
                  Lookup(s.cluster, key) == Lookup(c, key))
  {
    var created := CreateObject(c, createKind, createNs, body);
    CreateFrame(c, createKind, createNs, body, key);
    if created.result.Failure? {
      PatchFrame(created.cluster, patchKind, patchNs, name, body, key);
    }
  }

  /** create_or_update keeps keys unique and touches no key but the one it wrote. */
  lemma CreateOrUpdateFrame(m: K8sManager, c: Cluster, k: Kind, name: string, body: Body, reraise: bool, key: Key)
    requires !k.ConfigMap? && !k.Node?
    requires Valid(c)
    ensures var s := CreateOrUpdate(m, c, k, name, body, reraise);
            Valid(s.cluster)
            && (key != Key(k, Scope(m, k), body.name) && key != Key(k, Scope(m, k), name) ==>
                  Lookup(s.cluster, key) == Lookup(c, key))
  {
    CreateThenPatchFrame(c, k, Scope(m, k), k, Scope(m, k), name, body, reraise, key);
  }

  /** create_or_update_config_map keeps keys unique and touches no other key. */
  lemma CreateOrUpdateConfigMapFrame(m: K8sManager, c: Cluster, name: string, body: Body, reraise: bool, key: Key)
    requires Valid(c)
    ensures var s := CreateOrUpdateConfigMap(m, c, name, body, reraise);
            Valid(s.cluster)
            && (key != Key(ConfigMap, Some(m.namespace), body.name) && key != Key(ConfigMap, Some(m.namespace), name) ==>
                  Lookup(s.cluster, key) == Lookup(c, key))
  {
    var ns := Some(m.namespace);
    CreateThenPatchFrame(c, ConfigMap, ns, ConfigMap, ns, name, body, reraise, key);
  }

  /** create_or_update_volume as written keeps keys unique and touches only
      the volume it may create and the service it may patch. */
  lemma CreateOrUpdateVolumeAsWrittenFrame(m: K8sManager, c: Cluster, name: string, body: Body, reraise: bool, key: Key)
    requires Valid(c)
    ensures var s := CreateOrUpdateVolumeAsWritten(m, c, name, body, reraise);
            Valid(s.cluster)
            && (key != Key(Volume, None, body.name) && key != Key(Service, Some(m.namespace), name) ==>
                  Lookup(s.cluster, key) == Lookup(c, key))
  {
    CreateThenPatchFrame(c, Volume, None, Service, Some(m.namespace), name, body, reraise, key);
  }

  /** With no injected create or patch fault, create_or_update is an upsert:
      it reports a creation exactly when nothing was stored, and afterwards the
      key holds the body's payload and labels, while every other key is unchanged. */
  lemma CreateOrUpdateUpserts(m: K8sManager, c: Cluster, k: Kind, body: Body, reraise: bool, other: Key)
    requires !k.ConfigMap? && !k.Node?
    requires Valid(c)
    requires CallFails(Creating, Key(k, Scope(m, k), body.name)) !in c.faults
    requires CallFails(Patching, Key(k, Scope(m, k), body.name)) !in c.faults
    ensures var s := CreateOrUpdate(m, c, k, body.name, body, reraise);
            var key := Key(k, Scope(m, k), body.name);
            && s.outcome.Returned? && s.outcome.value.Some?
            && (s.outcome.value.value.created <==> Lookup(c, key).None?)
            && Lookup(s.cluster, key) == Some(s.outcome.value.value.resource)
            && s.outcome.value.value.resource.body.data == body.data
            && Matches(s.outcome.value.value.resource.body.labels, body.labels)
            && (other != key ==> Lookup(s.cluster, other) == Lookup(c, other))
  {
    var ns := Scope(m, k);
    var key := Key(k, ns, body.name);
    var created := CreateObject(c, k, ns, body);
    CreateFrame(c, k, ns, body, key);
    CreateFrame(c, k, ns, body, other);
    if created.result.Failure? {
      PatchFrame(created.cluster, k, ns, body.name, body, key);
      PatchFrame(created.cluster, k, ns, body.name, body, other);
    }
  }

  /** create_or_update_config_map is the same upsert: with no injected create
      or patch fault it returns the stored config map, which holds the body's
      payload and labels, and a get then reads it back; other keys are unchanged. */
  lemma CreateOrUpdateConfigMapUpserts(m: K8sManager, c: Cluster, body: Body, reraise: bool, other: Key)
    requires Valid(c)
    requires CallFails(Creating, Key(ConfigMap, Some(m.namespace), body.name)) !in c.faults
    requires CallFails(Patching, Key(ConfigMap, Some(m.namespace), body.name)) !in c.faults
    requires CallFails(Reading, Key(ConfigMap, Some(m.namespace), body.name)) !in c.faults
    ensures var s := CreateOrUpdateConfigMap(m, c, body.name, body, reraise);
            var key := Key(ConfigMap, Some(m.namespace), body.name);
            && s.outcome.Returned? && s.outcome.value.Some?
            && Valid(s.cluster)
            && Lookup(s.cluster, key) == s.outcome.value
            && s.outcome.value.value.body.data == body.data
            && Matches(s.outcome.value.value.body.labels, body.labels)
            && Get(m, s.cluster, ConfigMap, body.name, reraise).outcome == Returned(s.outcome.value)
            && (other != key ==> Lookup(s.cluster, other) == Lookup(c, other))
  {
    var ns := Some(m.namespace);
    var key := Key(ConfigMap, ns, body.name);
    var created := CreateObject(c, ConfigMap, ns, body);
    CreateFrame(c, ConfigMap, ns, body, key);
    CreateFrame(c, ConfigMap, ns, body, other);
    if created.result.Failure? {
      PatchFrame(created.cluster, ConfigMap, ns, body.name, body, key);
      PatchFrame(created.cluster, ConfigMap, ns, body.name, body, other);
    }
  }

  /** Reading back what create_or_update reported returns exactly that resource. */
  lemma GetAfterCreateOrUpdate(m: K8sManager, c: Cluster, k: Kind, name: string, body: Body, reraise: bool)
    requires !k.ConfigMap? && !k.Node?
    requires Valid(c)
    requires var s := CreateOrUpdate(m, c, k, name, body, reraise);
             s.outcome.Returned? && s.outcome.value.Some?
             && CallFails(Reading, KeyOf(s.outcome.value.value.resource)) !in c.faults
    ensures var s := CreateOrUpdate(m, c, k, name, body, reraise);
            var r := s.outcome.value.value.resource;
            Get(m, s.cluster, k, r.body.name, reraise).outcome == Returned(Some(r))
  {
    var s := CreateOrUpdate(m, c, k, name, body, reraise);
    var r := s.outcome.value.value.resource;
    CreateOrUpdateFrame(m, c, k, name, body, reraise, KeyOf(r));
    if s.outcome.value.value.created {
      assert s.cluster.objects[|c.objects|] == r;
    }
    LookupOwnKey(s.cluster, r);
  }

  /** delete_<kind> removes its own key and nothing else; unless the delete
      itself is faulted, the key is absent afterwards, so a second delete with
      reraise unset is a no-op and a get returns None. */
  lemma DeleteIsIdempotent(m: K8sManager, c: Cluster, k: Kind, name: string, reraise: bool, other: Key)
    requires !k.Node?
    requires Valid(c)
    requires CallFails(Deleting, Key(k, Scope(m, k), name)) !in c.faults
    ensures var s := Delete(m, c, k, name, reraise);
            && Valid(s.cluster)
            && Lookup(s.cluster, Key(k, Scope(m, k), name)).None?
            && (other != Key(k, Scope(m, k), name) ==> Lookup(s.cluster, other) == Lookup(c, other))
            && Delete(m, s.cluster, k, name, false).cluster.objects == s.cluster.objects
            && Delete(m, s.cluster, k, name, false).outcome == Returned(())
            && Get(m, s.cluster, k, name, false).outcome == Returned(None)
  {
    var key := Key(k, Scope(m, k), name);
    DeleteFrame(c, k, Scope(m, k), name, key);
    DeleteFrame(c, k, Scope(m, k), name, other);
  }

  /** The delete calls a bulk delete issues for a list of names, in order. */
  function DeleteCalls(k: Kind, ns: Option<string>, names: seq<string>): (calls: seq<Call>)
    ensures |calls| == |names|
    ensures forall i :: 0 <= i < |names| ==> calls[i] == Call(Deleting, Key(k, ns, names[i]))
  {
    seq(|names|, i requires 0 <= i < |names| => Call(Deleting, Key(k, ns, names[i])))
  }

  /** Running the loop over a + b is running it over a, then, unless that
      raised, over b from where it stopped. */
  lemma {:induction false} DeleteEachAppend(rev: Revision, m: K8sManager, c: Cluster, k: Kind,
                                            a: seq<string>, b: seq<string>, reraise: bool)
    requires !k.Node?
    ensures var s := DeleteEach(rev, m, c, k, a, reraise);
            DeleteEach(rev, m, c, k, a + b, reraise) ==
              if s.outcome.Raised? then s else DeleteEach(rev, m, s.cluster, k, b, reraise)
    decreases |a|
  {
    if |a| == 0 {
      assert a + b == b;
    } else {
      assert (a + b)[0] == a[0];
      assert (a + b)[1..] == a[1..] + b;
      var first := DeleteIn(rev, m, c, k, a[0], reraise);
      if !first.outcome.Raised? {
        DeleteEachAppend(rev, m, first.cluster, k, a[1..], b, reraise);
      }
    }
  }

  /** With reraise set, the first delete that raises ends the bulk delete:
      the earlier deletions stand, and no later name is attempted. */
  lemma DeleteEachStopsAtFirstFailure(rev: Revision, m: K8sManager, c: Cluster, k: Kind,
                                      names: seq<string>, i: nat, reraise: bool)
    requires !k.Node?
    requires i < |names|
    requires DeleteEach(rev, m, c, k, names[..i], reraise).outcome.Returned?
    requires DeleteIn(rev, m, DeleteEach(rev, m, c, k, names[..i], reraise).cluster, k, names[i], reraise).outcome.Raised?
    ensures var before := DeleteEach(rev, m, c, k, names[..i], reraise);
            DeleteEach(rev, m, c, k, names, reraise) == DeleteIn(rev, m, before.cluster, k, names[i], reraise)
    ensures var before := DeleteEach(rev, m, c, k, names[..i], reraise);
            rev == Corrected ==>
              DeleteEach(rev, m, c, k, names, reraise).cluster ==
                before.cluster.(log := before.cluster.log + [Call(Deleting, Key(k, Scope(m, k), names[i]))])
  {
    assert names == names[..i] + names[i..];
    DeleteEachAppend(rev, m, c, k, names[..i], names[i..], reraise);
    assert names[i..][0] == names[i];
  }

  /** One step of the corrected loop: the first delete, then, unless it
      raised, the loop over the remaining names. */
  lemma DeleteEachStep(m: K8sManager, c: Cluster, k: Kind, names: seq<string>, reraise: bool)
    requires !k.Node? && |names| > 0
    ensures var first := Delete(m, c, k, names[0], reraise);
            && first.cluster.log == c.log + [Call(Deleting, Key(k, Scope(m, k), names[0]))]
            && DeleteEach(Corrected, m, c, k, names, reraise) ==
                 if first.outcome.Raised? then first else DeleteEach(Corrected, m, first.cluster, k, names[1..], reraise)
  {
  }

  /** When the loop completes, it issued one delete per name, in list order. */
  lemma {:induction false} DeleteEachLogsInOrder(m: K8sManager, c: Cluster, k: Kind, names: seq<string>, reraise: bool)
    requires !k.Node?
    ensures var s := DeleteEach(Corrected, m, c, k, names, reraise);
            s.outcome.Returned? ==> s.cluster.log == c.log + DeleteCalls(k, Scope(m, k), names)
    decreases |names|
  {
    if |names| > 0 {
      var first := Delete(m, c, k, names[0], reraise);
      DeleteEachStep(m, c, k, names, reraise);
      if first.outcome.Returned? {
        var call := Call(Deleting, Key(k, Scope(m, k), names[0]));
        DeleteEachLogsInOrder(m, first.cluster, k, names[1..], reraise);
        assert DeleteCalls(k, Scope(m, k), names) == [call] + DeleteCalls(k, Scope(m, k), names[1..]);
      }
    } else {
      assert DeleteCalls(k, Scope(m, k), names) == [];
    }
  }

  /** With reraise unset the loop attempts every name, and afterwards exactly
      the keys of listed names whose delete is not faulted are gone. */
  lemma {:induction false} DeleteEachRemoves(m: K8sManager, c: Cluster, k: Kind, names: seq<string>, key: Key)
    requires !k.Node?
    requires Valid(c)
    ensures var s := DeleteEach(Corrected, m, c, k, names, false);
            && Valid(s.cluster)
            && Lookup(s.cluster, key) ==
                 if key.kind == k && key.namespace == Scope(m, k) && key.name in names
                    && CallFails(Deleting, key) !in c.faults
                 then None
                 else Lookup(c, key)
    decreases |names|
  {
    if |names| > 0 {
      var ns := Scope(m, k);
      var first := Delete(m, c, k, names[0], false);
      DeleteFrame(c, k, ns, names[0], key);
      DeleteEachRemoves(m, first.cluster, k, names[1..], key);
      assert names == [names[0]] + names[1..];
      assert key.name in names <==> key.name == names[0] || key.name in names[1..];
      if key == Key(k, ns, names[0]) && CallFails(Deleting, key) !in c.faults {
        assert Lookup(first.cluster, key).None?;
      }
    } else {
      assert Valid(c);
    }
  }

  /** In a valid store, a stored object whose key matches a listed stored
      object's kind, namespace and name is that listed object. */
  lemma NamedStoredObjectIsListed(c: Cluster, k: Kind, ns: Option<string>, items: seq<Resource>, x: Resource)
    requires Valid(c)
    requires forall y :: y in items ==> y in c.objects && y.kind == k && y.namespace == ns
    requires x in c.objects && x.kind == k && x.namespace == ns && x.body.name in Names(items)
    ensures x in items
  {
    var names := Names(items);
    var j :| 0 <= j < |names| && names[j] == x.body.name;
    var y := items[j];
    assert y in items;
    assert KeyOf(y) == KeyOf(x);
    LookupOwnKey(c, x);
    LookupOwnKey(c, y);
  }

  /** Deleting the names of some stored objects of kind k (with reraise unset
      and no faulted delete) removes exactly those objects. */
  lemma DeleteEachRemovesItems(m: K8sManager, c: Cluster, k: Kind, items: seq<Resource>, x: Resource)
    requires !k.Node?
    requires Valid(c)
    requires forall n :: CallFails(Deleting, Key(k, Scope(m, k), n)) !in c.faults
    requires forall y :: y in items ==> y in c.objects && y.kind == k && y.namespace == Scope(m, k)
    ensures var s := DeleteEach(Corrected, m, c, k, Names(items), false);
            && Valid(s.cluster)
            && (x in s.cluster.objects <==> x in c.objects && x !in items)
  {
    var names := Names(items);
    var s := DeleteEach(Corrected, m, c, k, names, false);
    DeleteEachRemoves(m, c, k, names, KeyOf(x));
    var gone := x.kind == k && x.namespace == Scope(m, k) && x.body.name in names;
    if x in items {
      var j :| 0 <= j < |items| && items[j] == x;
      assert names[j] == x.body.name;
      assert gone;
    }
    if x in c.objects && gone {
      NamedStoredObjectIsListed(c, k, Scope(m, k), items, x);
    }
    if x in s.cluster.objects {
      LookupOwnKey(s.cluster, x);
    }
    if x in c.objects && x !in items {
      LookupOwnKey(c, x);
    }
  }

  /** The label-scoped bulk delete (list kind = delete kind) with reraise unset,
      a working list and no faulted delete removes every object of that kind in
      the namespace matching the selector, and keeps every other object. */
  lemma DeleteBulkRemovesMatching(m: K8sManager, c: Cluster, k: Kind, selector: Labels)
    requires Namespaced(k)
    requires Valid(c)
    requires ListFails(k, Some(m.namespace)) !in c.faults
    requires forall n :: CallFails(Deleting, Key(k, Some(m.namespace), n)) !in c.faults
    ensures var s := DeleteBulk(Corrected, m, c, k, k, selector, false);
            && s.outcome.Returned?
            && Valid(s.cluster)
            && forall x :: x in s.cluster.objects <==>
                 x in c.objects && !(x.kind == k && x.namespace == Some(m.namespace) && Matches(x.body.labels, selector))
  {
    var listed := ListNamespaced(m, c, k, selector, false);
    var items := listed.outcome.value;
    var s := DeleteEach(Corrected, m, listed.cluster, k, Names(items), false);
    assert DeleteBulk(Corrected, m, c, k, k, selector, false) == s;
    assert listed.cluster.objects == c.objects;
    assert Valid(listed.cluster);
    assert forall x :: x in items <==>
      x in c.objects && x.kind == k && x.namespace == Some(m.namespace) && Matches(x.body.labels, selector);
    DeleteEachRemovesItems(m, listed.cluster, k, items, Resource(k, None, Body("", map[], "")));
    forall x
      ensures x in s.cluster.objects <==>
                x in c.objects && !(x.kind == k && x.namespace == Some(m.namespace) && Matches(x.body.labels, selector))
    {
      DeleteEachRemovesItems(m, listed.cluster, k, items, x);
    }
  }
}
