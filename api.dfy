/** Values the operconfig reconciler exchanges with the API server and with
    its collaborators: error kinds, call outcomes, rendered objects and the
    references published in the operator status. */
module Api {

  datatype Option<+T> = None | Some(value: T)

  /** The error kinds the reconciler tells apart: `apierrors.IsNotFound`,
      `apierrors.IsConflict` and everything else. */
  datatype ApiError = NotFound | Conflict | Other(msg: string)

  /** Outcome of a collaborator call that yields nothing but success or an error. */
  datatype Outcome = Ok | Fail(error: ApiError)

  /** Outcome of a collaborator call that yields a value. */
  datatype Fetch<+T> = Got(value: T) | Failed(error: ApiError)

  // Well-known names (the repository's pkg/names).

  /** Name of the singleton Network.operator.openshift.io object. */
  const OperatorConfigName: string := "cluster"
  /** Namespace the operator applies its own objects in. */
  const AppliedNamespace: string := "openshift-network-operator"
  /** Label that makes the status manager track a workload. */
  const GenerateStatusLabel: string := "networkoperator.openshift.io/generates-operator-status"
  /** Scope written into GenerateStatusLabel outside HyperShift. */
  const StandAloneClusterName: string := "stand-alone"
  /** Annotation whose presence makes apply failures of an object ignorable. */
  const IgnoreObjectErrorAnnotation: string := "networkoperator.openshift.io/ignore-errors"

  /** A reconcile request: the namespaced name of the object to reconcile. */
  datatype Request = Request(namespace: string, name: string)

  datatype GroupKind = GroupKind(group: string, kind: string)

  /** The API group of an apiVersion: what precedes the first '/', or the
      core group "" when there is no '/' ("v1"). */
  function GroupOf(apiVersion: string): string
  {
    if '/' !in apiVersion then ""
    else if apiVersion[0] == '/' then ""
    else [apiVersion[0]] + GroupOf(apiVersion[1..])
  }

  /** "group/version" names the group; a bare "version" the core group. */
  lemma {:induction false} GroupOfVersioned(group: string, version: string)
    requires '/' !in group
    ensures GroupOf(group + "/" + version) == group
    ensures '/' !in version ==> GroupOf(version) == ""
  {
    if group != [] {
      assert (group + "/" + version)[1..] == group[1..] + "/" + version;
      GroupOfVersioned(group[1..], version);
    }
  }

  /** A rendered object (an unstructured object in the source). Only the
      parts the reconciler inspects are kept: its type, identity, labels,
      the keys of its annotations, the cluster it is destined for ("" for
      the cluster the operator runs in) and whether its body converts to
      a MachineConfig. Its group is the one its apiVersion names. */
  datatype Obj = Obj(
    apiVersion: string,
    kind: string,
    name: string,
    namespace: string,
    labels: map<string, string>,
    annotations: set<string>,
    clusterName: string,
    convertsToMachineConfig: bool)
  {
    function Group(): string { GroupOf(apiVersion) }
    function Gk(): GroupKind { GroupKind(Group(), kind) }
  }

  /** A reference in the operator's relatedObjects list. */
  datatype ObjectReference = ObjectReference(group: string, resource: string, name: string, namespace: string)

  /** A reference in the relatedClusterObjects list: a reference plus the
      cluster the object lives in. */
  datatype RelatedObject = RelatedObject(ref: ObjectReference, clusterName: string)
}
