# The operconfig reconciler of the cluster network operator, in Dafny

This project models the reconciliation cycle of the cluster network
operator's `operconfig` controller, `ReconcileOperConfig.Reconcile`. It also
models the event filters that decide which watch events start a cycle and
the map function that turns them into requests. The project then proves
properties of that model.

One cycle fetches the singleton `Network.operator.openshift.io`
configuration `cluster`. It then:

1. merges in the cluster network configuration and validates the result;
2. compares the result with the previously applied configuration;
3. probes the MTU when it has to, and checks that the change is safe;
4. bootstraps and writes back the defaulted configuration;
5. renders the manifests;
6. stamps the status label on workloads and publishes the related-object
   lists and the rendered MachineConfigs;
7. applies every object on a best-effort basis;
8. runs the requested custom-resource migrations;
9. updates the cluster network status.

Each step can end the cycle. Most early exits raise the `Degraded`
condition with a reason, return an error for retry, or both. Two exits do
neither: a request for a name other than `cluster` (204-208) and an
`Unmanaged` configuration (229-232) end the cycle quietly with an empty
result.

How the model is built:

- **Collaborators are inputs.** Every collaborator is an input: the API
  server, validation, the MTU prober, the change-safety check, bootstrap,
  render, the apply primitive and the migrations. `Cycle.World` holds the
  outcome each of their calls would have.
- **`Cycle.Decide` is the decision table.** It is a pure function. It says
  which calls the cycle makes and in what order, what it writes into the
  status manager, and what it returns. It is split into one function per
  stage (`Prepare`, `Gate`, `Commit`, `Publish`, `Post`, `Finish`,
  `Report`).
- **The reconciler is a class.** `Reconciler.OperConfigReconciler` has one
  method per stage. Each method drives a `Status.StatusManager` object
  step by step and is proved equal to its stage function. So `Reconcile`
  is proved to return what `Decide` returns and to make the calls it
  lists. It writes exactly the conditions and lists `Decide` says it
  writes, and leaves every other status entry as it was.
- **Two loops work on arrays.** The post-processing loop
  (`PostProcess.Process`) and the apply loop (`ApplyLoop.ApplyObjects`)
  work on an array of rendered objects. Each is proved against a
  recursive specification function. Lemmas relate those functions to
  independent characterisations: membership, render order, the partition
  of mapped objects, and the last degrading failure.
- **The watch filters are pure predicates.** They live in module `Watch`.

The properties proved about the cycle (module `CycleProperties`) include:

- only the singleton name is reconciled;
- a deleted configuration raises `NoOperatorConfig` and is not requeued;
- a version conflict on merge or on write-back is retried without raising
  `Degraded`;
- the MTU probe and the change-safety check run exactly when their gates
  hold;
- the applied-configuration record is applied first;
- best-effort apply: the last non-ignored failure wins;
- an owner-reference failure aborts the loop;
- a migration failure does not degrade;
- every cycle is coherent: an error never requeues, and the cycle
  requeues after the resync period (180 s) exactly when it clears
  `Degraded`;
- `Degraded` is cleared exactly when every step succeeds, and then the
  cycle requeues after 180 s with no error.

**Apply conflicts.** Unlike the merge (246) and the write-back (332), the
apply loop (477-497) makes no exception for conflicts: any apply failure
of an object without the ignore-errors annotation raises
`ApplyOperatorConfig`. `CycleProperties.ApplyConflictDegrades` states this.

## Model

| member | source | states |
|---|---|---|
| Reconciler.OperConfigReconciler.Reconcile | pkg/controller/operconfig/operconfig_controller.go:199-562 | returns the result and error of `Decide`, makes exactly its calls in order, writes the OperatorConfig degraded and OperatorRender progressing conditions `Decide` prescribes and nothing else, and publishes the related lists exactly when `Decide` does |
| Reconciler.OperConfigReconciler.PrepareStage | pkg/controller/operconfig/operconfig_controller.go:234-277 | cluster-config, merge, validation, applied-configuration and infrastructure steps behave as `Prepare`: fetch failures return the error without degrading, a merge failure degrades unless it is a conflict, a validation failure degrades `InvalidOperatorConfig` |
| Reconciler.OperConfigReconciler.GateStage | pkg/controller/operconfig/operconfig_controller.go:279-317 | MTU probe and change-safety check behave as `Gate`, including the status writes |
| Reconciler.OperConfigReconciler.CommitStage | pkg/controller/operconfig/operconfig_controller.go:319-342 | bootstrap and write-back of the defaulted configuration behave as `Commit` |
| Reconciler.OperConfigReconciler.PublishStage | pkg/controller/operconfig/operconfig_controller.go:344-370 | render, the render-progress condition and the applied-configuration record behave as `Publish` |
| Reconciler.OperConfigReconciler.PostStage | pkg/controller/operconfig/operconfig_controller.go:370-458 | the record goes first, the objects are post-processed in place, the three lists (plus three fixed references) are published, and a MachineConfig failure degrades `MachineConfigError`, as `Post` says |
| Reconciler.OperConfigReconciler.ApplyStage | pkg/controller/operconfig/operconfig_controller.go:460-504 | the apply loop and its verdict (`InternalError`, `ApplyOperatorConfig`) behave as `Finish` |
| Reconciler.OperConfigReconciler.ReportStage | pkg/controller/operconfig/operconfig_controller.go:506-561 | migrations, cluster network status and the final `SetNotDegraded` with requeue after the resync period behave as `Report` |
| Status.StatusManager.SetDegraded | pkg/controller/operconfig/operconfig_controller.go:215-216 | raises Degraded at the level with the reason; no other status entry changes |
| Status.StatusManager.SetNotDegraded | pkg/controller/operconfig/operconfig_controller.go:556 | clears Degraded at the level; no other status entry changes |
| Status.StatusManager.SetProgressing | pkg/controller/operconfig/operconfig_controller.go:355-357 | raises Progressing at the level with the reason; no other status entry changes |
| Status.StatusManager.UnsetProgressing | pkg/controller/operconfig/operconfig_controller.go:358-360 | clears Progressing at the level; no other status entry changes |
| Status.StatusManager.SetRelatedObjects | pkg/controller/operconfig/operconfig_controller.go:450 | replaces the related-objects list; nothing else changes |
| Status.StatusManager.SetRelatedClusterObjects | pkg/controller/operconfig/operconfig_controller.go:451 | replaces the related-cluster-objects list; nothing else changes |
| Status.StatusManager.SetMachineConfigs | pkg/controller/operconfig/operconfig_controller.go:452-453 | records the rendered MachineConfigs and returns the persistence error, if any |
| Api.GroupOfVersioned | pkg/controller/operconfig/operconfig_controller.go:396-415 | the group of an object is the part of its apiVersion before the '/', and the core group "" for a bare version such as "v1" |
| PostProcess.Process | pkg/controller/operconfig/operconfig_controller.go:376-430 | the array afterwards holds every object stamped, and the three lists are those the specification functions derive from the stamped objects |
| PostProcess.StampAt | pkg/controller/operconfig/operconfig_controller.go:377-395 | the stamping step writes back into the array exactly the stamped object and leaves every other slot as it was |
| PostProcess.WithFixedRefs | pkg/controller/operconfig/operconfig_controller.go:432-449 | the related list keeps every derived reference in front and ends with the applied namespace, the operator `networks/cluster` configuration and the cloud network config controller's namespace, in that order |
| PostProcess.StampSpec | pkg/controller/operconfig/operconfig_controller.go:377-395 | only apps/v1 DaemonSets, Deployments and StatefulSets that have not set the status label to "" change; only that label changes, to the infrastructure name under HyperShift and to the stand-alone name otherwise; every other label is kept |
| PostProcess.ListsFollowRenderOrder | pkg/controller/operconfig/operconfig_controller.go:376-430 | each list distributes over concatenation of the object sequence, i.e. it follows render order |
| PostProcess.ListsPartitionMapped | pkg/controller/operconfig/operconfig_controller.go:396-419 | together the two reference lists have one entry per object with a REST mapping; unmapped objects appear in neither |
| PostProcess.RelatedRefsMembers | pkg/controller/operconfig/operconfig_controller.go:396-419 | a reference is in relatedObjects iff some mapped object with no cluster name has that reference |
| PostProcess.ClusterRefsMembers | pkg/controller/operconfig/operconfig_controller.go:396-413 | an entry is in relatedClusterObjects iff some mapped object with a cluster name has that reference and cluster |
| PostProcess.MachineConfigsMembers | pkg/controller/operconfig/operconfig_controller.go:401-429 | an object is collected iff it is a mapped, local, convertible machineconfiguration.openshift.io/v1 MachineConfig; an object with a cluster name never is |
| PostProcess.StampingKeepsLists | pkg/controller/operconfig/operconfig_controller.go:376-430 | stamping labels before sorting changes none of the three lists |
| ApplyLoop.ApplyObjects | pkg/controller/operconfig/operconfig_controller.go:461-498 | the loop's applied objects and verdict are those of the recursive specification `Run` |
| ApplyLoop.AppliesEveryObject | pkg/controller/operconfig/operconfig_controller.go:461-498 | without an owner-reference failure every object is applied in order, and the surfaced error is that of the last degrading object |
| ApplyLoop.OwnerRefFailureAborts | pkg/controller/operconfig/operconfig_controller.go:463-474 | the first owner-reference failure of a local object aborts the loop with exactly the earlier objects applied |
| ApplyLoop.AppliedInOrder | pkg/controller/operconfig/operconfig_controller.go:463-477 | what has been applied is always a prefix of the objects, and it includes the first object unless its owner reference fails |
| ApplyLoop.LastDegradingIsLast | pkg/controller/operconfig/operconfig_controller.go:487-497 | the surfaced error is absent iff no object degrades, and otherwise comes from a degrading object after which none degrades |
| ApplyLoop.LastDegradingAt | pkg/controller/operconfig/operconfig_controller.go:487-497 | one degrading object makes the surfaced error present, and it is that object's error when no later object degrades |
| ApplyLoop.IgnoredFailureIrrelevant | pkg/controller/operconfig/operconfig_controller.go:487-494 | the apply outcome of an object with the ignore-errors annotation never affects the surfaced error |
| Migrations.MigrateFeatures | pkg/controller/operconfig/operconfig_controller.go:506-533 | the features run and the error returned are those of the specification `Migrate` |
| Migrations.MigrationGate | pkg/controller/operconfig/operconfig_controller.go:506-510 | nothing runs unless a migration with a non-empty network type is requested; a type other than OpenShiftSDN or OVNKubernetes is an error before any conversion |
| Migrations.MigrationOrder | pkg/controller/operconfig/operconfig_controller.go:512-533 | the enabled conversions run in the order EgressFirewall, Multicast, EgressIP up to the first failure, whose error is returned; the run succeeds iff every enabled conversion ran and succeeded |
| Migrations.DisabledFeatureSkipped | pkg/controller/operconfig/operconfig_controller.go:513-527 | a feature whose flag is false in a present feature set never runs |
| CycleProperties.OnlySingletonReconciled | pkg/controller/operconfig/operconfig_controller.go:204-208 | a request for any other name makes no call, writes no status and returns an empty result with no error |
| CycleProperties.DeletedConfigNotRetried | pkg/controller/operconfig/operconfig_controller.go:213-222 | a missing configuration raises `NoOperatorConfig` and returns no error, so it is not requeued |
| CycleProperties.UnmanagedSkipped | pkg/controller/operconfig/operconfig_controller.go:229-232 | an Unmanaged configuration ends the cycle after the fetch, with no status write and no error |
| CycleProperties.MergeConflictRetriedQuietly | pkg/controller/operconfig/operconfig_controller.go:243-251 | a merge failure is returned; Degraded is left alone iff it is a conflict, and otherwise raised with `MergeClusterConfig` |
| CycleProperties.ProbeOnlyWhenGated | pkg/controller/operconfig/operconfig_controller.go:283-294 | the MTU is probed iff NeedMTUProbe holds or the MTU ConfigMap is missing on a non-hosted control plane; a failed probe raises `MTUProbeFailed` and is returned |
| CycleProperties.ChangeSafetyNeedsPrevious | pkg/controller/operconfig/operconfig_controller.go:307-317 | the change-safety check runs iff a previously applied configuration exists; a rejection raises `InvalidOperatorConfig` and is returned |
| CycleProperties.UpdateOnlyWhenDefaultingChanged | pkg/controller/operconfig/operconfig_controller.go:328-338 | the configuration is written back iff defaulting changed it; a failed write is returned and raises `UpdateOperatorConfig` unless it is a conflict |
| CycleProperties.ProgressFollowsRender | pkg/controller/operconfig/operconfig_controller.go:347-360 | the render progress is written iff Render succeeded in a cycle that got that far: it is then `RenderProgressing` iff Render reports progress, and it is never written without a successful Render |
| CycleProperties.RecordAppliedFirst | pkg/controller/operconfig/operconfig_controller.go:362-370 | right after Render, the first object applied is the stamped applied-configuration record |
| CycleProperties.PublishedLists | pkg/controller/operconfig/operconfig_controller.go:370-452 | the lists are published iff Render and the record succeeded in a cycle that got that far; they are then derived from the record followed by the rendered objects, stamped, and the related list ends with the three fixed references |
| CycleProperties.BestEffortApply | pkg/controller/operconfig/operconfig_controller.go:461-504 | without owner-reference failures every object is applied; the last non-ignored failure raises `ApplyOperatorConfig` and is returned, otherwise the cycle goes on to the migrations |
| CycleProperties.ApplyConflictDegrades | pkg/controller/operconfig/operconfig_controller.go:477-503 | a conflict from applying any object without the ignore-errors annotation raises `ApplyOperatorConfig` like any other failure; the error returned is that of the last degrading object, so it is the conflict when no later object degrades |
| CycleProperties.OwnerRefFailureStopsCycle | pkg/controller/operconfig/operconfig_controller.go:463-474 | an owner-reference failure raises `InternalError` and returns its error after applying only the earlier objects |
| CycleProperties.MigrationFailureNotDegraded | pkg/controller/operconfig/operconfig_controller.go:506-533 | a migration failure is returned without writing Degraded |
| CycleProperties.ExitPolicy | pkg/controller/operconfig/operconfig_controller.go:204-561 | a cycle ends with neither an error nor a requeue iff the request names another object, the configuration is absent or it is Unmanaged; every other exit returns an error or requeues, and every raised Degraded except `NoOperatorConfig` comes with an error for retry |
| CycleProperties.CycleCoherent | pkg/controller/operconfig/operconfig_controller.go:556-561 | in every cycle an error means no requeue; the cycle requeues (after 180 s) iff it clears Degraded, and then it returns no error and has written the render progress and the lists |
| CycleProperties.OnlySuccessClearsDegraded | pkg/controller/operconfig/operconfig_controller.go:556-561 | Degraded is cleared iff every step succeeds (configuration fetched, managed, merged, valid and safe; bootstrap, write-back, Render, record and MachineConfigs succeed; no owner-reference failure and no counted apply failure; migrations and the cluster network status succeed), and then the cycle requeues after the resync period with no error |
| Cycle.Decide | pkg/controller/operconfig/operconfig_controller.go:199-562 | the decision table of one cycle: the calls made in order, the Degraded and render-progress writes, the published lists, the result and the error; it has no contract of its own, `Reconcile` is proved equal to it and the `CycleProperties` lemmas state its properties |
| Watch.ClusterConfigPasses | pkg/controller/operconfig/operconfig_controller.go:89-103 | create, delete and generic events pass; an update passes iff the network diagnostics differ, or when either object is not a cluster Network |
| Watch.OperatorConfigPasses | pkg/controller/operconfig/operconfig_controller.go:108-124 | create, delete and generic events pass; an update passes iff the specs differ, or when either object is not an operator Network |
| Watch.ConfigMapPasses | pkg/controller/operconfig/operconfig_controller.go:139-148 | an event never passes for the `network-operator-lock` or `applied-cluster` ConfigMap; other creates, deletes and generic events pass; an update passes iff its resource version changed and the new object is not one of those two ConfigMaps |
| Watch.NodePasses | pkg/controller/operconfig/operconfig_controller.go:156-171 | create, delete and generic events pass; an update passes iff the node's labels changed |
| Watch.ReconcileOperConfig | pkg/controller/operconfig/operconfig_controller.go:581-588 | whatever object changed, the result is the one request for the unnamespaced `cluster` configuration |
| Watch.Requests | pkg/controller/operconfig/operconfig_controller.go:88-175 | an event yields at most one request, and one iff the watch's filter admits it |
| Watch.DiagnosticsChangeOnly | pkg/controller/operconfig/operconfig_controller.go:88-103 | an update of the cluster network configuration is admitted iff its network diagnostics changed, and then requests that object |
| Watch.OperatorSpecChangeOnly | pkg/controller/operconfig/operconfig_controller.go:108-124 | an update of the operator configuration is admitted iff its spec changed |
| Watch.ResyncIgnored | pkg/controller/operconfig/operconfig_controller.go:139-148 | a ConfigMap update with an unchanged resource version is not admitted |
| Watch.SelfManagedConfigMapsIgnored | pkg/controller/operconfig/operconfig_controller.go:139-148 | events on the `network-operator-lock` and `applied-cluster` ConfigMaps are never admitted |
| Watch.NodeLabelsOnly | pkg/controller/operconfig/operconfig_controller.go:156-170 | a Node update is admitted iff the node's labels changed |
| Watch.FanIn | pkg/controller/operconfig/operconfig_controller.go:581-588 | every admitted ConfigMap or Node event becomes the single request for the singleton `cluster` configuration |

## Left out

- Collaborator calls are inputs: client Get and Update, `MergeClusterConfig`, `Validate`, `DeprecatedCanonicalize`, `GetAppliedConfiguration`, `InfraStatus`, `NeedMTUProbe`, `probeMTU`, `FillDefaults`, `IsChangeSafe`, `Bootstrap`, `UpdateOperConfig`, `Render`, `AppliedConfiguration`, `SetControllerReference`, `ApplyObject`, the `migrate*` functions and `ClusterNetworkStatus`. Their internals are not part of this model; only their success, failure kind and the few values the cycle inspects are.
- `World.operConfig` stands for the configuration after merge and canonicalization, and `World.defaulted` for the result of `FillDefaults`. The write-back condition compares the two, as line 328 does.
- The detected MTU value, the filling of defaults into the previous configuration (298) and the body of the configuration are not modelled. Configurations are compared only for equality.
- Error messages and wrapping (`fmt.Errorf`, `errors.Wrapf`, the NetworkAttachmentDefinition hint at 481-483) are dropped. A wrapped error is modelled as the same error.
- Logging, the panic recovery of `HandleCrash` (200), `updateIPsecMetric` (340), the feature gates and the manifest path are left out.
- Status.StatusManager.SetMachineConfigs: the status manager's persistence is an input outcome. The model records the list even when persistence fails, because the status manager's internals are not part of this model.
- Watch: the library predicates `ResourceVersionChangedPredicate`, `NewPredicateFuncs` and `predicate.Funcs` are modelled by their documented behaviour. Events whose objects are nil are not modelled.
- The controller wiring in `Add`, `newReconciler` and `add` is left out: the manager, the informers and `AddCustomInformer`.
- `ResyncPeriod` is modelled as 180 seconds (3 minutes); `time.Duration` arithmetic is left out.
- The names in the repository's `pkg/names` are not part of this model. Their values are taken as `cluster`, `openshift-network-operator`, `networkoperator.openshift.io/generates-operator-status`, `stand-alone` and `networkoperator.openshift.io/ignore-errors`.
- Whether an unstructured object converts to a MachineConfig (423) is an input flag on the object.
- Api.GroupOfVersioned: an apiVersion with more than one '/' is malformed: the source's parser then yields an empty group and kind, so the REST lookup (396) also sees an empty kind; the model takes the part before the first '/'. Rendered manifests always carry a well-formed apiVersion.
- Watch.NodePasses: `reflect.DeepEqual` tells a nil label map from an empty one, so an update between the two passes in the source; Dafny maps have no nil, so the model treats both as the empty map and filters such an update.
- Watch.ConfigMapPasses: it applies the name filter to the new object of an update, as `NewPredicateFuncs` does, and an update event with a nil object is not modelled.
