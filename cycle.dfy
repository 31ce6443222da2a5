/** One reconciliation cycle as a decision table. Every collaborator the
    cycle consults (API reads and writes, validation, the MTU probe, the
    change-safety check, bootstrap, render, the apply primitive, the
    migrations, the network-status computation) is an input: the World
    holds the outcome each call would have. `Decide` says which calls the
    cycle makes, in which order, what it writes into the status and what
    it returns. */
module Cycle {
  import opened Api
  import opened Status
  import opened PostProcess
  import opened ApplyLoop
  import opened Migrations

  /** Management states of the operator configuration. */
  datatype ManagementState = Managed | Unmanaged | Removed | Force

  /** The operator configuration as far as the cycle looks into it; the
      rest of the spec is compared only for equality. */
  datatype OperConfig = OperConfig(managementState: ManagementState, migration: Option<Migration>, spec: map<string, string>)

  datatype Rendering = Rendering(objects: seq<Obj>, progressing: bool)

  datatype World = World(
    operConfig: Fetch<OperConfig>,      // Get of the operator configuration
    clusterConfig: Outcome,             // Get of Network.config.openshift.io
    merge: Outcome,                     // MergeClusterConfig
    validate: Outcome,                  // Validate
    applied: Fetch<bool>,               // GetAppliedConfiguration: whether a previous one exists
    infra: Fetch<bool>,                 // InfraStatus: whether the control plane is hosted
    mtuConfigMap: Outcome,              // Get of the MTU ConfigMap
    needMTUProbe: bool,                 // NeedMTUProbe(prev, spec)
    probe: Outcome,                     // probeMTU
    defaulted: OperConfig,              // the configuration after FillDefaults
    changeSafe: Outcome,                // IsChangeSafe
    bootstrap: Fetch<string>,           // Bootstrap: the infrastructure name it reports
    update: Outcome,                    // UpdateOperConfig
    render: Fetch<Rendering>,           // Render
    record: Fetch<Obj>,                 // AppliedConfiguration: the applied-configuration record
    hyperShift: bool,                   // HyperShift mode enabled
    machineConfigs: Outcome,            // status manager's SetMachineConfigs
    ownerRef: seq<Outcome>,             // SetControllerReference, per object
    apply: seq<Outcome>,                // ApplyObject, per object
    migrations: FeatureOutcomes,        // the three CR migrations
    networkStatus: Fetch<bool>,         // ClusterNetworkStatus: whether there is a status object
    statusApply: Outcome)               // ApplyObject of that status object
  {
    /** One owner-reference and one apply outcome per object applied:
        the applied-configuration record plus the rendered objects. */
    predicate WellFormed() {
      render.Got? ==> |ownerRef| == |apply| == |render.value.objects| + 1
    }
  }

  /** The collaborator calls the cycle makes, in order. */
  datatype Call =
    | GetOperConfig | GetClusterConfig | MergeClusterConfig | Validate
    | GetAppliedConfiguration | GetInfraStatus | GetMTUConfigMap | ProbeMTU
    | IsChangeSafe | Bootstrap | UpdateOperConfig | Render
    | ApplyObject(obj: Obj) | MigrateFeature(feature: Feature)
    | ClusterNetworkStatus | ApplyNetworkStatus

  datatype ReconcileResult = Done | RequeueAfter(seconds: nat)

  /** The resync period, in seconds. */
  const ResyncPeriod: nat := 180

  datatype Published = Published(related: seq<ObjectReference>, clusterRelated: seq<RelatedObject>, machineConfigs: seq<Obj>)

  /** What a cycle does: its return values, its calls, and its writes to the
      status (None: the entry is not written this cycle). */
  datatype CycleEffect = CycleEffect(
    result: ReconcileResult,
    err: Option<ApiError>,
    calls: seq<Call>,
    config: Option<Condition>,          // the OperatorConfig degraded condition
    renderProgress: Option<Condition>,  // the OperatorRender progressing condition
    published: Option<Published>)       // related objects, related cluster objects, machine configs

  function Stop(err: Option<ApiError>, calls: seq<Call>, config: Option<Condition>): CycleEffect {
    CycleEffect(Done, err, calls, config, None, None)
  }

  /** Errors that are retried without raising Degraded. */
  function DegradeUnlessConflict(e: ApiError, reason: string): Option<Condition> {
    if e == Conflict then None else Some(Raised(reason))
  }

  /** The MTU is probed when NeedMTUProbe says so, or when the MTU
      ConfigMap is reported missing and the control plane is not hosted. */
  predicate ProbeGate(w: World)
    requires w.infra.Got?
  {
    w.needMTUProbe || (w.mtuConfigMap == Fail(NotFound) && !w.infra.value)
  }

  /** The objects the apply loop sees: the applied-configuration record
      first, then the rendered objects, all stamped. */
  function ObjectsToApply(w: World): seq<Obj>
    requires w.render.Got? && w.record.Got? && w.bootstrap.Got?
  {
    StampAll([w.record.value] + w.render.value.objects, w.hyperShift, w.bootstrap.value)
  }

  function ApplyCalls(objs: seq<Obj>): (r: seq<Call>)
    ensures |r| == |objs| && forall i :: 0 <= i < |objs| ==> r[i] == ApplyObject(objs[i])
  {
    seq(|objs|, i requires 0 <= i < |objs| => ApplyObject(objs[i]))
  }

  function MigrationCalls(fs: seq<Feature>): (r: seq<Call>)
    ensures |r| == |fs| && forall i :: 0 <= i < |fs| ==> r[i] == MigrateFeature(fs[i])
  {
    seq(|fs|, i requires 0 <= i < |fs| => MigrateFeature(fs[i]))
  }

  /** The cycle for a request. */
  function Decide(req: Request, w: World, mapper: map<GroupKind, string>): CycleEffect
    requires w.WellFormed()
  {
    if req.name != OperatorConfigName then CycleEffect(Done, None, [], None, None, None)
    else match w.operConfig
      case Failed(e) =>
        if e == NotFound then Stop(None, [GetOperConfig], Some(Raised("NoOperatorConfig")))
        else Stop(Some(e), [GetOperConfig], None)
      case Got(cfg) =>
        if cfg.managementState == Unmanaged then Stop(None, [GetOperConfig], None)
        else Prepare(w, mapper)
  }

  /** From fetching the cluster configuration to gathering the
      infrastructure status. */
  function Prepare(w: World, mapper: map<GroupKind, string>): CycleEffect
    requires w.WellFormed() && w.operConfig.Got?
  {
    var c0 := [GetOperConfig, GetClusterConfig];
    if w.clusterConfig.Fail? then Stop(Some(w.clusterConfig.error), c0, None)
    else
    var c1 := c0 + [MergeClusterConfig];
    if w.merge.Fail? then Stop(Some(w.merge.error), c1, DegradeUnlessConflict(w.merge.error, "MergeClusterConfig"))
    else
    var c2 := c1 + [Validate];
    if w.validate.Fail? then Stop(Some(w.validate.error), c2, Some(Raised("InvalidOperatorConfig")))
    else
    var c3 := c2 + [GetAppliedConfiguration];
    if w.applied.Failed? then Stop(Some(w.applied.error), c3, None)
    else
    var c4 := c3 + [GetInfraStatus];
    if w.infra.Failed? then Stop(Some(w.infra.error), c4, None)
    else Gate(w, mapper, c4)
  }

  /** The MTU probe and the change-safety check. */
  function Gate(w: World, mapper: map<GroupKind, string>, calls: seq<Call>): CycleEffect
    requires w.WellFormed() && w.operConfig.Got? && w.applied.Got? && w.infra.Got?
  {
    var cm := calls + [GetMTUConfigMap];
    var c5 := if ProbeGate(w) then cm + [ProbeMTU] else cm;
    if ProbeGate(w) && w.probe.Fail? then Stop(Some(w.probe.error), c5, Some(Raised("MTUProbeFailed")))
    else
    var c6 := if w.applied.value then c5 + [IsChangeSafe] else c5;
    if w.applied.value && w.changeSafe.Fail? then
      Stop(Some(w.changeSafe.error), c6, Some(Raised("InvalidOperatorConfig")))
    else
      Commit(w, mapper, c6)
  }

  /** Bootstrap and the write-back of the defaulted operator configuration. */
  function Commit(w: World, mapper: map<GroupKind, string>, calls: seq<Call>): CycleEffect
    requires w.WellFormed() && w.operConfig.Got?
  {
    var c7 := calls + [Bootstrap];
    if w.bootstrap.Failed? then Stop(Some(w.bootstrap.error), c7, Some(Raised("BootstrapError")))
    else
    var changed := w.defaulted != w.operConfig.value;
    var c8 := if changed then c7 + [UpdateOperConfig] else c7;
    if changed && w.update.Fail? then
      Stop(Some(w.update.error), c8, DegradeUnlessConflict(w.update.error, "UpdateOperatorConfig"))
    else
      Publish(w, mapper, c8)
  }

  /** Render and the record of the applied configuration. */
  function Publish(w: World, mapper: map<GroupKind, string>, calls: seq<Call>): CycleEffect
    requires w.WellFormed() && w.bootstrap.Got?
  {
    var c := calls + [Render];
    if w.render.Failed? then Stop(Some(w.render.error), c, Some(Raised("RenderError")))
    else
    var progress := if w.render.value.progressing then Raised("RenderProgressing") else Cleared;
    if w.record.Failed? then CycleEffect(Done, Some(w.record.error), c, Some(Raised("RenderError")), Some(progress), None)
    else Post(w, mapper, c, progress)
  }

  /** Post-processing and publication of the related lists. */
  function Post(w: World, mapper: map<GroupKind, string>, calls: seq<Call>, progress: Condition): CycleEffect
    requires w.WellFormed() && w.bootstrap.Got? && w.render.Got? && w.record.Got?
  {
    var objs := ObjectsToApply(w);
    var pub := Published(WithFixedRefs(RelatedRefs(objs, mapper)), ClusterRefs(objs, mapper), MachineConfigs(objs, mapper));
    if w.machineConfigs.Fail? then
      CycleEffect(Done, Some(w.machineConfigs.error), calls, Some(Raised("MachineConfigError")), Some(progress), Some(pub))
    else
      Finish(w, objs, calls, progress, pub)
  }

  /** The apply loop. */
  function Finish(w: World, objs: seq<Obj>, calls: seq<Call>, progress: Condition, pub: Published): (r: CycleEffect)
    requires |w.ownerRef| == |objs| == |w.apply|
    ensures r.renderProgress == Some(progress) && r.published == Some(pub)
  {
    var run := Run(objs, w.ownerRef, w.apply);
    var c := calls + ApplyCalls(run.applied);
    match run.verdict
    case Aborted(_, e) => CycleEffect(Done, Some(e), c, Some(Raised("InternalError")), Some(progress), Some(pub))
    case Finished(degradedErr) =>
      if degradedErr.Some? then
        CycleEffect(Done, degradedErr, c, Some(Raised("ApplyOperatorConfig")), Some(progress), Some(pub))
      else
        Report(w, c, progress, pub)
  }

  /** The migrations, the network status and the final clearing of Degraded. */
  function Report(w: World, calls: seq<Call>, progress: Condition, pub: Published): (r: CycleEffect)
    ensures r.renderProgress == Some(progress) && r.published == Some(pub)
  {
    var mig := Migrate(w.defaulted.migration, w.migrations);
    var c1 := calls + MigrationCalls(mig.ran);
    if mig.error.Some? then CycleEffect(Done, mig.error, c1, None, Some(progress), Some(pub))
    else
    var c2 := c1 + [ClusterNetworkStatus];
    if w.networkStatus.Failed? then
      CycleEffect(Done, Some(w.networkStatus.error), c2, Some(Raised("StatusError")), Some(progress), Some(pub))
    else
    var c3 := if w.networkStatus.value then c2 + [ApplyNetworkStatus] else c2;
    if w.networkStatus.value && w.statusApply.Fail? then
      CycleEffect(Done, Some(w.statusApply.error), c3, Some(Raised("StatusError")), Some(progress), Some(pub))
    else
      CycleEffect(RequeueAfter(ResyncPeriod), None, c3, Some(Cleared), Some(progress), Some(pub))
  }
}
