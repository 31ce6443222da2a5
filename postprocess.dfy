/** Post-processing of the rendered objects (the loop that follows Render):
    stamping the status label on workloads, and sorting objects into the
    related-objects list, the related-cluster-objects list and the list of
    rendered MachineConfigs. */
module PostProcess {
  import opened Api

  /** The three replicated-workload kinds of apps/v1. */
  predicate IsWorkload(o: Obj) {
    o.apiVersion == "apps/v1" && (o.kind == "DaemonSet" || o.kind == "Deployment" || o.kind == "StatefulSet")
  }

  /** A workload that carries the status label with the empty value opts
      out of status generation. */
  predicate OptsOutOfStatus(o: Obj) {
    GenerateStatusLabel in o.labels && o.labels[GenerateStatusLabel] == ""
  }

  /** The value written into the status label: the infrastructure name
      under HyperShift, the stand-alone name otherwise. */
  function StatusScope(hyperShift: bool, infraName: string): string {
    if hyperShift then infraName else StandAloneClusterName
  }

  function Stamp(o: Obj, hyperShift: bool, infraName: string): Obj {
    if IsWorkload(o) && !OptsOutOfStatus(o) then
      o.(labels := o.labels[GenerateStatusLabel := StatusScope(hyperShift, infraName)])
    else
      o
  }

  /** What stamping promises: only workloads that have not opted out change,
      only their status label changes, and it then names the scope. */
  lemma StampSpec(o: Obj, hyperShift: bool, infraName: string)
    ensures var r := Stamp(o, hyperShift, infraName);
      && r.(labels := o.labels) == o
      && (!IsWorkload(o) || OptsOutOfStatus(o) ==> r == o)
      && (IsWorkload(o) && !OptsOutOfStatus(o) ==>
            && GenerateStatusLabel in r.labels
            && r.labels[GenerateStatusLabel] == (if hyperShift then infraName else StandAloneClusterName))
      && (forall k :: k != GenerateStatusLabel ==> (k in r.labels <==> k in o.labels))
      && (forall k :: k != GenerateStatusLabel && k in o.labels ==> r.labels[k] == o.labels[k])
  {
  }

  function StampAll(objs: seq<Obj>, hyperShift: bool, infraName: string): (r: seq<Obj>)
    ensures |r| == |objs|
    ensures forall i :: 0 <= i < |objs| ==> r[i] == Stamp(objs[i], hyperShift, infraName)
  {
    seq(|objs|, i requires 0 <= i < |objs| => Stamp(objs[i], hyperShift, infraName))
  }

  /** The object has a REST mapping, so it can be referenced. */
  predicate Mapped(o: Obj, mapper: map<GroupKind, string>) {
    o.Gk() in mapper
  }

  function Ref(o: Obj, mapper: map<GroupKind, string>): ObjectReference
    requires Mapped(o, mapper)
  {
    ObjectReference(o.Group(), mapper[o.Gk()], o.name, o.namespace)
  }

  /** Destined for the operator's own cluster and mapped: goes to relatedObjects. */
  predicate Local(o: Obj, mapper: map<GroupKind, string>) {
    Mapped(o, mapper) && o.clusterName == ""
  }

  /** Destined for another cluster and mapped: goes to relatedClusterObjects. */
  predicate Remote(o: Obj, mapper: map<GroupKind, string>) {
    Mapped(o, mapper) && o.clusterName != ""
  }

  predicate IsMachineConfig(o: Obj) {
    o.apiVersion == "machineconfiguration.openshift.io/v1" && o.kind == "MachineConfig"
  }

  /** Collected into the rendered MachineConfigs. */
  predicate Collected(o: Obj, mapper: map<GroupKind, string>) {
    Local(o, mapper) && IsMachineConfig(o) && o.convertsToMachineConfig
  }

  /** References of the local objects, in render order. */
  function RelatedRefs(objs: seq<Obj>, mapper: map<GroupKind, string>): seq<ObjectReference>
  {
    if objs == [] then []
    else
      var last := objs[|objs| - 1];
      RelatedRefs(objs[..|objs| - 1], mapper) + (if Local(last, mapper) then [Ref(last, mapper)] else [])
  }

  /** References of the remote objects, in render order. */
  function ClusterRefs(objs: seq<Obj>, mapper: map<GroupKind, string>): seq<RelatedObject>
  {
    if objs == [] then []
    else
      var last := objs[|objs| - 1];
      ClusterRefs(objs[..|objs| - 1], mapper)
        + (if Remote(last, mapper) then [RelatedObject(Ref(last, mapper), last.clusterName)] else [])
  }

  /** The collected MachineConfigs, in render order. */
  function MachineConfigs(objs: seq<Obj>, mapper: map<GroupKind, string>): seq<Obj>
  {
    if objs == [] then []
    else
      var last := objs[|objs| - 1];
      MachineConfigs(objs[..|objs| - 1], mapper) + (if Collected(last, mapper) then [last] else [])
  }

  /** The related list closed by the three fixed references: the applied
      namespace, the operator configuration itself (for must-gather) and the
      cloud network config controller's namespace. */
  function WithFixedRefs(related: seq<ObjectReference>): (r: seq<ObjectReference>)
    ensures |r| == |related| + 3 && r[..|related|] == related
    ensures r[|related|] == ObjectReference("", "namespaces", AppliedNamespace, "")
    ensures r[|related| + 1] == ObjectReference("operator.openshift.io", "networks", "cluster", "")
    ensures r[|related| + 2] == ObjectReference("", "namespaces", "openshift-cloud-network-config-controller", "")
  {
    related
      + [ObjectReference("", "namespaces", AppliedNamespace, "")]
      + [ObjectReference("operator.openshift.io", "networks", "cluster", "")]
      + [ObjectReference("", "namespaces", "openshift-cloud-network-config-controller", "")]
  }

  /** One more object extends each list by that object's own entry. */
  lemma ListsAppend(p: seq<Obj>, o: Obj, mapper: map<GroupKind, string>)
    ensures RelatedRefs(p + [o], mapper) == RelatedRefs(p, mapper) + (if Local(o, mapper) then [Ref(o, mapper)] else [])
    ensures ClusterRefs(p + [o], mapper)
         == ClusterRefs(p, mapper) + (if Remote(o, mapper) then [RelatedObject(Ref(o, mapper), o.clusterName)] else [])
    ensures MachineConfigs(p + [o], mapper) == MachineConfigs(p, mapper) + (if Collected(o, mapper) then [o] else [])
  {
    assert (p + [o])[..|p|] == p;
  }

  /** The three lists follow render order: each distributes over concatenation. */
  lemma {:induction false} ListsFollowRenderOrder(a: seq<Obj>, b: seq<Obj>, mapper: map<GroupKind, string>)
    ensures RelatedRefs(a + b, mapper) == RelatedRefs(a, mapper) + RelatedRefs(b, mapper)
    ensures ClusterRefs(a + b, mapper) == ClusterRefs(a, mapper) + ClusterRefs(b, mapper)
    ensures MachineConfigs(a + b, mapper) == MachineConfigs(a, mapper) + MachineConfigs(b, mapper)
    decreases |b|
  {
    if b == [] {
      assert a + b == a;
    } else {
      var b' := b[..|b| - 1];
      assert (a + b)[..|a + b| - 1] == a + b';
      assert (a + b)[|a + b| - 1] == b[|b| - 1];
      ListsFollowRenderOrder(a, b', mapper);
    }
  }

  /** Every mapped object lands in exactly one of the two reference lists;
      an unmapped object in neither. */
  lemma {:induction false} ListsPartitionMapped(objs: seq<Obj>, mapper: map<GroupKind, string>)
    ensures |RelatedRefs(objs, mapper)| + |ClusterRefs(objs, mapper)|
         == |set i | 0 <= i < |objs| && Mapped(objs[i], mapper)|
  {
    if objs != [] {
      var n := |objs| - 1;
      ListsPartitionMapped(objs[..n], mapper);
      assert objs == objs[..n] + [objs[n]];
      ListsAppend(objs[..n], objs[n], mapper);
      var before := set i | 0 <= i < n && Mapped(objs[..n][i], mapper);
      var all := set i | 0 <= i < |objs| && Mapped(objs[i], mapper);
      if Mapped(objs[n], mapper) {
        assert all == before + {n};
      } else {
        assert all == before;
      }
    }
  }

  /** relatedObjects holds exactly the references of the local objects. */
  lemma {:induction false} RelatedRefsMembers(objs: seq<Obj>, mapper: map<GroupKind, string>, r: ObjectReference)
    ensures r in RelatedRefs(objs, mapper) <==> exists o :: o in objs && Local(o, mapper) && Ref(o, mapper) == r
  {
    if objs != [] {
      var n := |objs| - 1;
      RelatedRefsMembers(objs[..n], mapper, r);
      assert objs == objs[..n] + [objs[n]];
      if r in RelatedRefs(objs, mapper) && r !in RelatedRefs(objs[..n], mapper) {
        assert Local(objs[n], mapper) && Ref(objs[n], mapper) == r;
      }
    }
  }

  /** relatedClusterObjects holds exactly the remote objects, each with its cluster. */
  lemma {:induction false} ClusterRefsMembers(objs: seq<Obj>, mapper: map<GroupKind, string>, r: RelatedObject)
    ensures r in ClusterRefs(objs, mapper) <==>
      exists o :: o in objs && Remote(o, mapper) && r == RelatedObject(Ref(o, mapper), o.clusterName)
  {
    if objs != [] {
      var n := |objs| - 1;
      ClusterRefsMembers(objs[..n], mapper, r);
      assert objs == objs[..n] + [objs[n]];
      if r in ClusterRefs(objs, mapper) && r !in ClusterRefs(objs[..n], mapper) {
        assert Remote(objs[n], mapper) && r == RelatedObject(Ref(objs[n], mapper), objs[n].clusterName);
      }
    }
  }

  /** The collected MachineConfigs are exactly the local, convertible
      MachineConfig objects; a remote object is never collected. */
  lemma {:induction false} MachineConfigsMembers(objs: seq<Obj>, mapper: map<GroupKind, string>, o: Obj)
    ensures o in MachineConfigs(objs, mapper) <==> o in objs && Collected(o, mapper)
    ensures o.clusterName != "" ==> o !in MachineConfigs(objs, mapper)
  {
    if objs != [] {
      var n := |objs| - 1;
      MachineConfigsMembers(objs[..n], mapper, o);
      assert objs == objs[..n] + [objs[n]];
    }
  }

  /** Stamping labels changes no reference and no collected MachineConfig. */
  lemma {:induction false} StampingKeepsLists(objs: seq<Obj>, mapper: map<GroupKind, string>, hyperShift: bool, infraName: string)
    ensures RelatedRefs(StampAll(objs, hyperShift, infraName), mapper) == RelatedRefs(objs, mapper)
    ensures ClusterRefs(StampAll(objs, hyperShift, infraName), mapper) == ClusterRefs(objs, mapper)
    ensures MachineConfigs(StampAll(objs, hyperShift, infraName), mapper) == MachineConfigs(objs, mapper)
  {
    if objs != [] {
      var n := |objs| - 1;
      var s := StampAll(objs, hyperShift, infraName);
      assert s[..n] == StampAll(objs[..n], hyperShift, infraName);
      StampingKeepsLists(objs[..n], mapper, hyperShift, infraName);
    }
  }

  /** The stamping step of the post-processing loop: a workload that has
      not opted out gets the status label, written back into the array. */
  method StampAt(objs: array<Obj>, i: nat, hyperShift: bool, infraName: string) returns (obj: Obj)
    requires i < objs.Length
    modifies objs
    ensures obj == objs[i] == Stamp(old(objs[i]), hyperShift, infraName)
    ensures forall k :: 0 <= k < objs.Length && k != i ==> objs[k] == old(objs[k])
  {
    obj := objs[i];
    if IsWorkload(obj) {
      var l := obj.labels;
      if !(GenerateStatusLabel in l) || l[GenerateStatusLabel] != "" {
        if hyperShift {
          l := l[GenerateStatusLabel := infraName];
        } else {
          l := l[GenerateStatusLabel := StandAloneClusterName];
        }
        obj := obj.(labels := l);
        objs[i] := obj;
      }
    }
  }

  /** The post-processing loop: stamps the objects in place and builds the
      three lists from the stamped objects. */
  method Process(objs: array<Obj>, mapper: map<GroupKind, string>, hyperShift: bool, infraName: string)
    returns (related: seq<ObjectReference>, clusterRelated: seq<RelatedObject>, machineConfigs: seq<Obj>)
    modifies objs
    ensures objs[..] == StampAll(old(objs[..]), hyperShift, infraName)
    ensures related == RelatedRefs(objs[..], mapper)
    ensures clusterRelated == ClusterRefs(objs[..], mapper)
    ensures machineConfigs == MachineConfigs(objs[..], mapper)
  {
    related, clusterRelated, machineConfigs := [], [], [];
    var i := 0;
    while i < objs.Length
      invariant 0 <= i <= objs.Length
      invariant forall k :: 0 <= k < i ==> objs[k] == Stamp(old(objs[k]), hyperShift, infraName)
      invariant forall k :: i <= k < objs.Length ==> objs[k] == old(objs[k])
      invariant related == RelatedRefs(objs[..i], mapper)
      invariant clusterRelated == ClusterRefs(objs[..i], mapper)
      invariant machineConfigs == MachineConfigs(objs[..i], mapper)
    {
      ghost var done := objs[..i];
      var obj := StampAt(objs, i, hyperShift, infraName);
      assert objs[..i + 1] == done + [obj];
      ListsAppend(done, obj, mapper);
      if obj.Gk() in mapper {
        var ref := ObjectReference(obj.Group(), mapper[obj.Gk()], obj.name, obj.namespace);
        if obj.clusterName != "" {
          clusterRelated := clusterRelated + [RelatedObject(ref, obj.clusterName)];
        } else {
          related := related + [ref];
          if obj.apiVersion == "machineconfiguration.openshift.io/v1" && obj.kind == "MachineConfig" {
            if obj.convertsToMachineConfig {
              machineConfigs := machineConfigs + [obj];
            }
          }
        }
      }
      i := i + 1;
    }
    assert objs[..i] == objs[..];
    assert old(objs[..])[..i] == old(objs[..]);
  }
}
