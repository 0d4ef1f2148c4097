/** The cluster resource provider the manager wraps, as an abstract state.

    The real provider is the orchestration platform's API client; here it is a
    store of resources kept in creation order, a fault oracle naming the calls
    that fail, and a log of every call made, so that "which calls were issued,
    in which order" is part of the observable result. Beyond the injected
    faults, calls fail the way the platform fails them: creating an existing
    object is a conflict, and reading, patching or deleting a missing one is
    not found. */
module ClusterApi {
  import opened Wrappers

  /** The resource kinds the manager handles. Custom objects carry the
      group/version/plural triple that addresses them. */
  datatype Kind =
    | ConfigMap | Secret | Service | Pod | Job | Deployment
    | Volume | VolumeClaim | Ingress | Node
    | CustomObject(group: string, version: string, plural: string)

  /** Persistent volumes and nodes are cluster-scoped; every other kind lives in a namespace. */
  predicate Namespaced(k: Kind) {
    !k.Volume? && !k.Node?
  }

  type Labels = map<string, string>

  /** The part of a request body the model keeps: metadata name, labels, and an opaque payload. */
  datatype Body = Body(name: string, labels: Labels, data: string)

  /** A stored object; `namespace` is None for cluster-scoped kinds. */
  datatype Resource = Resource(kind: Kind, namespace: Option<string>, body: Body)

  datatype Key = Key(kind: Kind, namespace: Option<string>, name: string)

  function KeyOf(r: Resource): Key {
    Key(r.kind, r.namespace, r.body.name)
  }

  /** Equality-based label selection: every selector pair appears in the labels. */
  predicate Matches(labels: Labels, selector: Labels) {
    forall l :: l in selector ==> l in labels && labels[l] == selector[l]
  }

  datatype Verb = Creating | Patching | Reading | Deleting

  datatype Call =
    | Call(verb: Verb, key: Key)
    | ListCall(kind: Kind, namespace: Option<string>, selector: Labels)

  /** The fault oracle's vocabulary: a call on one key, or a listing of one kind in one namespace. */
  datatype Fault =
    | CallFails(verb: Verb, key: Key)
    | ListFails(kind: Kind, namespace: Option<string>)

  /** The errors the client raises (an ApiException in the client library). */
  datatype ApiError =
    | NotFound(key: Key)
    | AlreadyExists(key: Key)
    | Injected(fault: Fault)

  datatype Cluster = Cluster(objects: seq<Resource>, faults: set<Fault>, log: seq<Call>)

  /** A provider call's effect: the cluster after the call, and its value or error. */
  datatype Reply<T> = Reply(cluster: Cluster, result: Result<T, ApiError>)

  /** No two stored objects share a key. */
  ghost predicate Valid(c: Cluster) {
    forall i, j :: 0 <= i < j < |c.objects| ==> KeyOf(c.objects[i]) != KeyOf(c.objects[j])
  }

  /** Index of the first object with the given key. */
  function Find(objs: seq<Resource>, key: Key): (r: Option<nat>)
    ensures r.Some? ==> r.value < |objs| && KeyOf(objs[r.value]) == key
    ensures r.Some? ==> forall i :: 0 <= i < r.value ==> KeyOf(objs[i]) != key
    ensures r.None? ==> forall i :: 0 <= i < |objs| ==> KeyOf(objs[i]) != key
  {
    if |objs| == 0 then None
    else if KeyOf(objs[0]) == key then Some(0)
    else
      match Find(objs[1..], key)
      case None => None
      case Some(i) => Some(i + 1)
  }

  /** The object stored under a key, if any. */
  function Lookup(c: Cluster, key: Key): (r: Option<Resource>)
    ensures r.Some? ==> r.value in c.objects && KeyOf(r.value) == key
    ensures r.None? <==> forall x :: x in c.objects ==> KeyOf(x) != key
  {
    match Find(c.objects, key)
    case None => None
    case Some(i) => Some(c.objects[i])
  }

  function Logged(c: Cluster, call: Call): Cluster {
    c.(log := c.log + [call])
  }

  /** The state a patch leaves: the name is kept, labels are merged with the
      patch's winning, and the payload is replaced. */
  function Patched(stored: Body, patch: Body): Body {
    Body(stored.name, stored.labels + patch.labels, patch.data)
  }

  /** A create on this key succeeds: it is not faulted and nothing is stored under the key. */
  predicate CanCreate(c: Cluster, key: Key) {
    CallFails(Creating, key) !in c.faults && Lookup(c, key).None?
  }

  /** A patch on this key succeeds: it is not faulted and an object is stored under the key. */
  predicate CanPatch(c: Cluster, key: Key) {
    CallFails(Patching, key) !in c.faults && Lookup(c, key).Some?
  }

  /** The error a failing call reports: the injected fault if there is one,
      otherwise the platform's own conflict (create) or not-found (the rest). */
  function CallError(c: Cluster, verb: Verb, key: Key): ApiError {
    if CallFails(verb, key) in c.faults then Injected(CallFails(verb, key))
    else if verb == Creating then AlreadyExists(key)
    else NotFound(key)
  }

  /** `create_namespaced_<kind>` / `create_persistent_volume`: the key comes from the body's name. */
  function CreateObject(c: Cluster, kind: Kind, ns: Option<string>, body: Body): (rep: Reply<Resource>)
    ensures rep.cluster.log == c.log + [Call(Creating, Key(kind, ns, body.name))]
    ensures rep.cluster.faults == c.faults
    ensures rep.result.Success? <==>
              CallFails(Creating, Key(kind, ns, body.name)) !in c.faults && Lookup(c, Key(kind, ns, body.name)).None?
    ensures rep.result.Success? ==>
              rep.result.value == Resource(kind, ns, body) && rep.cluster.objects == c.objects + [rep.result.value]
    ensures rep.result.Failure? ==> rep.cluster.objects == c.objects
    ensures rep.result.Failure? ==> rep.result.error == CallError(c, Creating, Key(kind, ns, body.name))
  {
    var key := Key(kind, ns, body.name);
    var c' := Logged(c, Call(Creating, key));
    if CallFails(Creating, key) in c.faults then Reply(c', Failure(Injected(CallFails(Creating, key))))
    else if Find(c.objects, key).Some? then Reply(c', Failure(AlreadyExists(key)))
    else
      var r := Resource(kind, ns, body);
      Reply(c'.(objects := c.objects + [r]), Success(r))
  }

  /** `patch_namespaced_<kind>` / `patch_persistent_volume`: the key comes from the name argument. */
  function PatchObject(c: Cluster, kind: Kind, ns: Option<string>, name: string, patch: Body): (rep: Reply<Resource>)
    ensures rep.cluster.log == c.log + [Call(Patching, Key(kind, ns, name))]
    ensures rep.cluster.faults == c.faults
    ensures rep.result.Success? <==>
              CallFails(Patching, Key(kind, ns, name)) !in c.faults && Lookup(c, Key(kind, ns, name)).Some?
    ensures rep.result.Success? ==>
              rep.result.value == Resource(kind, ns, Patched(Lookup(c, Key(kind, ns, name)).value.body, patch))
              && rep.result.value in rep.cluster.objects
    ensures rep.result.Failure? ==> rep.cluster.objects == c.objects
    ensures rep.result.Failure? ==> rep.result.error == CallError(c, Patching, Key(kind, ns, name))
  {
    var key := Key(kind, ns, name);
    var c' := Logged(c, Call(Patching, key));
    if CallFails(Patching, key) in c.faults then Reply(c', Failure(Injected(CallFails(Patching, key))))
    else
      match Find(c.objects, key)
      case None => Reply(c', Failure(NotFound(key)))
      case Some(i) =>
        var r := Resource(kind, ns, Patched(c.objects[i].body, patch));
        assert c.objects[i := r][i] == r;
        Reply(c'.(objects := c.objects[i := r]), Success(r))
  }

  /** `read_namespaced_<kind>` / `read_persistent_volume`. */
  function ReadObject(c: Cluster, kind: Kind, ns: Option<string>, name: string): (rep: Reply<Resource>)
    ensures rep.cluster == Logged(c, Call(Reading, Key(kind, ns, name)))
    ensures rep.result.Success? <==>
              CallFails(Reading, Key(kind, ns, name)) !in c.faults && Lookup(c, Key(kind, ns, name)).Some?
    ensures rep.result.Success? ==> Lookup(c, Key(kind, ns, name)) == Some(rep.result.value)
    ensures rep.result.Failure? ==> rep.result.error == CallError(c, Reading, Key(kind, ns, name))
  {
    var key := Key(kind, ns, name);
    var c' := Logged(c, Call(Reading, key));
    if CallFails(Reading, key) in c.faults then Reply(c', Failure(Injected(CallFails(Reading, key))))
    else
      match Lookup(c, key)
      case None => Reply(c', Failure(NotFound(key)))
      case Some(r) => Reply(c', Success(r))
  }

  /** `delete_namespaced_<kind>` / `delete_persistent_volume`. */
  function DeleteObject(c: Cluster, kind: Kind, ns: Option<string>, name: string): (rep: Reply<()>)
    ensures rep.cluster.log == c.log + [Call(Deleting, Key(kind, ns, name))]
    ensures rep.cluster.faults == c.faults
    ensures rep.result.Success? <==>
              CallFails(Deleting, Key(kind, ns, name)) !in c.faults && Lookup(c, Key(kind, ns, name)).Some?
    ensures rep.result.Failure? ==> rep.cluster.objects == c.objects
    ensures rep.result.Failure? ==> rep.result.error == CallError(c, Deleting, Key(kind, ns, name))
    ensures |rep.cluster.objects| <= |c.objects|
  {
    var key := Key(kind, ns, name);
    var c' := Logged(c, Call(Deleting, key));
    if CallFails(Deleting, key) in c.faults then Reply(c', Failure(Injected(CallFails(Deleting, key))))
    else
      match Find(c.objects, key)
      case None => Reply(c', Failure(NotFound(key)))
      case Some(i) => Reply(c'.(objects := RemoveAt(c.objects, i)), Success(()))
  }

  /** The stored objects of one kind in one namespace whose labels match the selector, in store order. */
  function Select(objs: seq<Resource>, kind: Kind, ns: Option<string>, selector: Labels): (r: seq<Resource>)
    ensures |r| <= |objs|
    ensures forall x :: x in r <==> x in objs && x.kind == kind && x.namespace == ns && Matches(x.body.labels, selector)
  {
    if |objs| == 0 then []
    else
      var rest := Select(objs[1..], kind, ns, selector);
      var x := objs[0];
      if x.kind == kind && x.namespace == ns && Matches(x.body.labels, selector) then [x] + rest else rest
  }

  /** `sub` can be obtained from `objs` by dropping elements: it keeps their relative order. */
  predicate InOrderWithin(sub: seq<Resource>, objs: seq<Resource>)
    decreases |objs|
  {
    if |sub| == 0 then true
    else if |objs| == 0 then false
    else if sub[0] == objs[0] then InOrderWithin(sub[1..], objs[1..])
    else InOrderWithin(sub, objs[1..])
  }

  /** A listing returns the matching objects in the order they are stored. */
  lemma {:induction false} SelectKeepsOrder(objs: seq<Resource>, kind: Kind, ns: Option<string>, selector: Labels)
    ensures InOrderWithin(Select(objs, kind, ns, selector), objs)
    decreases |objs|
  {
    if |objs| > 0 {
      SelectKeepsOrder(objs[1..], kind, ns, selector);
      var rest := Select(objs[1..], kind, ns, selector);
      var x := objs[0];
      if x.kind == kind && x.namespace == ns && Matches(x.body.labels, selector) {
        assert ([x] + rest)[1..] == rest;
      } else if |rest| > 0 {
        assert rest[0] in rest;
      }
    }
  }

  /** `list_namespaced_<kind>(namespace, label_selector)` and `list_node()`. */
  function ListObjects(c: Cluster, kind: Kind, ns: Option<string>, selector: Labels): (rep: Reply<seq<Resource>>)
    ensures rep.cluster == Logged(c, ListCall(kind, ns, selector))
    ensures rep.result.Success? <==> ListFails(kind, ns) !in c.faults
    ensures rep.result.Success? ==> rep.result.value == Select(c.objects, kind, ns, selector)
    ensures rep.result.Failure? ==> rep.result.error == Injected(ListFails(kind, ns))
  {
    var c' := Logged(c, ListCall(kind, ns, selector));
    if ListFails(kind, ns) in c.faults then Reply(c', Failure(Injected(ListFails(kind, ns))))
    else Reply(c', Success(Select(c.objects, kind, ns, selector)))
  }

  /** In a valid store, an object is what its own key looks up. */
  lemma LookupOwnKey(c: Cluster, x: Resource)
    requires Valid(c) && x in c.objects
    ensures Lookup(c, KeyOf(x)) == Some(x)
  {
    var i :| 0 <= i < |c.objects| && c.objects[i] == x;
    var f := Find(c.objects, KeyOf(x));
    assert KeyOf(c.objects[i]) == KeyOf(x);
    // Find returns the first index with the key, and validity leaves no earlier or later one.
    assert f == Some(i);
  }

  /** A successful create adds exactly the new object and keeps the store valid. */
  lemma CreateFrame(c: Cluster, kind: Kind, ns: Option<string>, body: Body, key: Key)
    requires Valid(c)
    ensures Valid(CreateObject(c, kind, ns, body).cluster)
    ensures var rep := CreateObject(c, kind, ns, body);
            Lookup(rep.cluster, key) ==
              if rep.result.Success? && key == Key(kind, ns, body.name) then Some(rep.result.value)
              else Lookup(c, key)
  {
    var rep := CreateObject(c, kind, ns, body);
    var c' := rep.cluster;
    if rep.result.Success? {
      var r := rep.result.value;
      var n := |c.objects|;
      forall i, j | 0 <= i < j < |c'.objects|
        ensures KeyOf(c'.objects[i]) != KeyOf(c'.objects[j])
      {
        if j == n {
          assert c.objects[i] in c.objects;
        }
      }
      assert c'.objects[n] == r;
      if key == KeyOf(r) {
        LookupOwnKey(c', r);
      } else if Lookup(c, key).Some? {
        LookupOwnKey(c', Lookup(c, key).value);
      }
    }
  }

  /** A successful patch replaces exactly the patched object and keeps the store valid. */
  lemma PatchFrame(c: Cluster, kind: Kind, ns: Option<string>, name: string, patch: Body, key: Key)
    requires Valid(c)
    ensures Valid(PatchObject(c, kind, ns, name, patch).cluster)
    ensures var rep := PatchObject(c, kind, ns, name, patch);
            Lookup(rep.cluster, key) ==
              if rep.result.Success? && key == Key(kind, ns, name) then Some(rep.result.value)
              else Lookup(c, key)
  {
    var rep := PatchObject(c, kind, ns, name, patch);
    var c' := rep.cluster;
    if rep.result.Success? {
      var i := Find(c.objects, Key(kind, ns, name)).value;
      var r := rep.result.value;
      assert c'.objects == c.objects[i := r];
      assert KeyOf(r) == KeyOf(c.objects[i]);
      forall a, b | 0 <= a < b < |c'.objects|
        ensures KeyOf(c'.objects[a]) != KeyOf(c'.objects[b])
      {
        assert KeyOf(c'.objects[a]) == KeyOf(c.objects[a]);
        assert KeyOf(c'.objects[b]) == KeyOf(c.objects[b]);
      }
      if key == KeyOf(r) {
        assert c'.objects[i] == r;
        LookupOwnKey(c', r);
      } else if Lookup(c, key).Some? {
        var y := Lookup(c, key).value;
        var j :| 0 <= j < |c.objects| && c.objects[j] == y;
        assert j != i;
        assert c'.objects[j] == y;
        LookupOwnKey(c', y);
      } else {
        forall x | x in c'.objects
          ensures KeyOf(x) != key
        {
          var j :| 0 <= j < |c'.objects| && c'.objects[j] == x;
          if j != i {
            assert c.objects[j] in c.objects;
          }
        }
      }
    }
  }

  /** Position i removed; later objects move down by one. */
  function RemoveAt(objs: seq<Resource>, i: nat): (r: seq<Resource>)
    requires i < |objs|
    ensures |r| == |objs| - 1
    ensures forall k :: 0 <= k < |r| ==> r[k] == objs[if k < i then k else k + 1]
  {
    objs[..i] + objs[i + 1..]
  }

  /** With unique keys, removing position i removes exactly the objects with that position's key. */
  lemma RemoveAtMembers(c: Cluster, i: nat, x: Resource)
    requires Valid(c) && i < |c.objects|
    ensures x in RemoveAt(c.objects, i) <==> x in c.objects && KeyOf(x) != KeyOf(c.objects[i])
  {
    var objs := c.objects;
    var r := RemoveAt(objs, i);
    if x in r {
      var k :| 0 <= k < |r| && r[k] == x;
      var k' := if k < i then k else k + 1;
      assert x == objs[k'];
      if k' < i {
        assert KeyOf(objs[k']) != KeyOf(objs[i]);
      } else {
        assert KeyOf(objs[i]) != KeyOf(objs[k']);
      }
    }
    if x in objs && KeyOf(x) != KeyOf(objs[i]) {
      var j :| 0 <= j < |objs| && objs[j] == x;
      if j < i {
        assert r[j] == x;
      } else {
        assert j != i;
        assert r[j - 1] == x;
      }
    }
  }

  /** A delete keeps the store valid. */
  lemma DeleteKeepsValid(c: Cluster, kind: Kind, ns: Option<string>, name: string)
    requires Valid(c)
    ensures Valid(DeleteObject(c, kind, ns, name).cluster)
  {
    var rep := DeleteObject(c, kind, ns, name);
    if rep.result.Success? {
      var i := Find(c.objects, Key(kind, ns, name)).value;
      var r := rep.cluster.objects;
      assert r == RemoveAt(c.objects, i);
      forall a, b | 0 <= a < b < |r|
        ensures KeyOf(r[a]) != KeyOf(r[b])
      {
        var a' := if a < i then a else a + 1;
        var b' := if b < i then b else b + 1;
        assert r[a] == c.objects[a'] && r[b] == c.objects[b'];
      }
    }
  }

  /** A successful delete removes exactly the deleted object and keeps the store valid. */
  lemma DeleteFrame(c: Cluster, kind: Kind, ns: Option<string>, name: string, key: Key)
    requires Valid(c)
    ensures Valid(DeleteObject(c, kind, ns, name).cluster)
    ensures var rep := DeleteObject(c, kind, ns, name);
            Lookup(rep.cluster, key) ==
              if rep.result.Success? && key == Key(kind, ns, name) then None
              else Lookup(c, key)
  {
    DeleteKeepsValid(c, kind, ns, name);
    var rep := DeleteObject(c, kind, ns, name);
    var c' := rep.cluster;
    if rep.result.Success? {
      var i := Find(c.objects, Key(kind, ns, name)).value;
      assert c'.objects == RemoveAt(c.objects, i);
      forall x | x in c'.objects
        ensures x in c.objects && KeyOf(x) != Key(kind, ns, name)
      {
        RemoveAtMembers(c, i, x);
      }
      if key != Key(kind, ns, name) && Lookup(c, key).Some? {
        var y := Lookup(c, key).value;
        RemoveAtMembers(c, i, y);
        LookupOwnKey(c', y);
      }
    }
  }
}
