/** The event filters of the controller's four watches and the mapping of
    an admitted event to reconcile requests. */
module Watch {
  import opened Api

  /** A spec or status part compared by deep equality; its fields are
      kept as an uninterpreted map. */
  datatype Snapshot = Snapshot(fields: map<string, string>)

  datatype Meta = Meta(namespace: string, name: string, resourceVersion: string, labels: map<string, string>)

  datatype Payload =
    | ClusterNetwork(networkDiagnostics: Snapshot, otherSpec: Snapshot)   // Network.config.openshift.io
    | OperatorNetwork(spec: Snapshot, status: Snapshot)                  // Network.operator.openshift.io
    | ConfigMap(data: Snapshot)
    | Node(status: Snapshot)

  datatype WatchedObject = WatchedObject(meta: Meta, payload: Payload)

  datatype Event =
    | Create(obj: WatchedObject)
    | Update(oldObj: WatchedObject, newObj: WatchedObject)
    | Delete(obj: WatchedObject)
    | Generic(obj: WatchedObject)

  datatype WatchKind = ClusterConfigWatch | OperatorConfigWatch | ConfigMapWatch | NodeWatch

  /** Filter of the Network.config.openshift.io watch: an update passes
      unless both objects are of that type and their network diagnostics
      are equal; every other event passes. */
  predicate ClusterConfigPasses(e: Event)
    ensures !e.Update? ==> ClusterConfigPasses(e)
    ensures e.Update? && !(e.oldObj.payload.ClusterNetwork? && e.newObj.payload.ClusterNetwork?) ==> ClusterConfigPasses(e)
    ensures e.Update? && e.oldObj.payload.ClusterNetwork? && e.newObj.payload.ClusterNetwork? ==>
      (ClusterConfigPasses(e) <==> e.oldObj.payload.networkDiagnostics != e.newObj.payload.networkDiagnostics)
  {
    match e
    case Update(o, n) =>
      !(o.payload.ClusterNetwork? && n.payload.ClusterNetwork?)
      || o.payload.networkDiagnostics != n.payload.networkDiagnostics
    case _ => true
  }

  /** Filter of the Network.operator.openshift.io watch: an update passes
      unless both objects are of that type and their specs are equal. */
  predicate OperatorConfigPasses(e: Event)
    ensures !e.Update? ==> OperatorConfigPasses(e)
    ensures e.Update? && !(e.oldObj.payload.OperatorNetwork? && e.newObj.payload.OperatorNetwork?) ==> OperatorConfigPasses(e)
    ensures e.Update? && e.oldObj.payload.OperatorNetwork? && e.newObj.payload.OperatorNetwork? ==>
      (OperatorConfigPasses(e) <==> e.oldObj.payload.spec != e.newObj.payload.spec)
  {
    match e
    case Update(o, n) =>
      !(o.payload.OperatorNetwork? && n.payload.OperatorNetwork?) || o.payload.spec != n.payload.spec
    case _ => true
  }

  /** ConfigMaps the cycle itself writes. */
  predicate SelfManagedConfigMap(name: string) {
    name == "network-operator-lock" || name == "applied-cluster"
  }

  /** Filter of the ConfigMap watch: the resource version must change on
      an update, and the object (the new one on an update) must not be a
      ConfigMap the cycle itself writes. */
  predicate ConfigMapPasses(e: Event)
    ensures ConfigMapPasses(e) ==> !SelfManagedConfigMap(Subject(e).meta.name)
    ensures !e.Update? ==> (ConfigMapPasses(e) <==> !SelfManagedConfigMap(Subject(e).meta.name))
    ensures e.Update? ==> (ConfigMapPasses(e) <==>
      e.oldObj.meta.resourceVersion != e.newObj.meta.resourceVersion && !SelfManagedConfigMap(e.newObj.meta.name))
  {
    match e
    case Update(o, n) =>
      n.meta.resourceVersion != o.meta.resourceVersion && !SelfManagedConfigMap(n.meta.name)
    case Create(x) => !SelfManagedConfigMap(x.meta.name)
    case Delete(x) => !SelfManagedConfigMap(x.meta.name)
    case Generic(x) => !SelfManagedConfigMap(x.meta.name)
  }

  /** Filter of the Node watch: creations and deletions pass, updates only
      when the labels change. */
  predicate NodePasses(e: Event)
    ensures !e.Update? ==> NodePasses(e)
    ensures e.Update? ==> (NodePasses(e) <==> e.oldObj.meta.labels != e.newObj.meta.labels)
  {
    match e
    case Update(o, n) => o.meta.labels != n.meta.labels
    case _ => true
  }

  predicate Passes(w: WatchKind, e: Event) {
    match w
    case ClusterConfigWatch => ClusterConfigPasses(e)
    case OperatorConfigWatch => OperatorConfigPasses(e)
    case ConfigMapWatch => ConfigMapPasses(e)
    case NodeWatch => NodePasses(e)
  }

  function Subject(e: Event): WatchedObject {
    match e
    case Create(x) => x
    case Update(_, n) => n
    case Delete(x) => x
    case Generic(x) => x
  }

  /** The map function shared by the ConfigMap and Node watches: whatever
      changed, the request is for the singleton operator configuration. */
  function ReconcileOperConfig(obj: WatchedObject): (r: seq<Request>)
    ensures |r| == 1 && r[0].name == OperatorConfigName && r[0].namespace == ""
  {
    [Request("", OperatorConfigName)]
  }

  /** The requests an event produces on a watch: none when filtered out;
      the object's own key on the two Network watches; the singleton key
      on the others. */
  function Requests(w: WatchKind, e: Event): (r: seq<Request>)
    ensures |r| <= 1
    ensures r != [] <==> Passes(w, e)
  {
    if !Passes(w, e) then []
    else if w == ConfigMapWatch || w == NodeWatch then ReconcileOperConfig(Subject(e))
    else [Request(Subject(e).meta.namespace, Subject(e).meta.name)]
  }

  /** Fan-in: every admitted ConfigMap or Node event becomes the one
      request for the singleton configuration, whatever object it is about. */
  lemma FanIn(w: WatchKind, e: Event)
    requires w == ConfigMapWatch || w == NodeWatch
    requires Passes(w, e)
    ensures Requests(w, e) == [Request("", OperatorConfigName)]
  {
  }

  /** An update of the cluster network configuration starts a cycle
      exactly when its network diagnostics changed. */
  lemma DiagnosticsChangeOnly(o: WatchedObject, n: WatchedObject)
    requires o.payload.ClusterNetwork? && n.payload.ClusterNetwork?
    ensures Requests(ClusterConfigWatch, Update(o, n)) != []
      <==> o.payload.networkDiagnostics != n.payload.networkDiagnostics
    ensures Requests(ClusterConfigWatch, Update(o, n)) != [] ==>
      Requests(ClusterConfigWatch, Update(o, n)) == [Request(n.meta.namespace, n.meta.name)]
  {
  }

  /** Status-only and metadata-only changes of the operator configuration
      never start a cycle; a spec change always does. */
  lemma OperatorSpecChangeOnly(o: WatchedObject, n: WatchedObject)
    requires o.payload.OperatorNetwork? && n.payload.OperatorNetwork?
    ensures Requests(OperatorConfigWatch, Update(o, n)) != [] <==> o.payload.spec != n.payload.spec
  {
  }

  /** Node condition churn is filtered; a label change is not. */
  lemma NodeLabelsOnly(o: WatchedObject, n: WatchedObject)
    ensures Requests(NodeWatch, Update(o, n)) != [] <==> o.meta.labels != n.meta.labels
  {
  }

  /** A ConfigMap update that leaves the resource version unchanged (a
      resync) never starts a cycle. */
  lemma ResyncIgnored(o: WatchedObject, n: WatchedObject)
    requires o.meta.resourceVersion == n.meta.resourceVersion
    ensures Requests(ConfigMapWatch, Update(o, n)) == []
  {
  }

  /** Writes to the ConfigMaps the cycle manages never start a cycle. */
  lemma SelfManagedConfigMapsIgnored(e: Event)
    requires SelfManagedConfigMap(Subject(e).meta.name)
    ensures Requests(ConfigMapWatch, e) == []
  {
  }
}
