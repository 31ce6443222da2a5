/** The operconfig reconciler: one call of Reconcile is one cycle. It
    drives the status manager step by step and is proved to do exactly
    what the decision table Cycle.Decide prescribes. The cycle is one long
    function in the source; here it is cut into stage methods, one per
    stage function of Cycle, each proved against its stage. */
module Reconciler {
  import opened Api
  import opened Status
  import opened PostProcess
  import opened ApplyLoop
  import opened Migrations
  import opened Cycle

  class OperConfigReconciler {
    const status: StatusManager
    /** The REST mapper: resource name per group and kind, where one exists. */
    const mapper: map<GroupKind, string>

    constructor (status: StatusManager, mapper: map<GroupKind, string>)
      ensures this.status == status && this.mapper == mapper
    {
      this.status := status;
      this.mapper := mapper;
    }

    /** One reconciliation cycle. Its results, the calls it makes and its
        writes to the status are those of Decide; a status entry Decide does
        not write keeps its value. */
    method Reconcile(req: Request, w: World) returns (res: ReconcileResult, err: Option<ApiError>, calls: seq<Call>)
      requires w.WellFormed()
      modifies status
      ensures var c := Decide(req, w, mapper);
        && res == c.result && err == c.err && calls == c.calls
        && status.degraded == Put(old(status.degraded), OperatorConfig, c.config)
        && status.progressing == Put(old(status.progressing), OperatorRender, c.renderProgress)
        && (c.published.Some? ==>
              && status.relatedObjects == c.published.value.related
              && status.relatedClusterObjects == c.published.value.clusterRelated
              && status.machineConfigs == c.published.value.machineConfigs)
        && (c.published.None? ==>
              && status.relatedObjects == old(status.relatedObjects)
              && status.relatedClusterObjects == old(status.relatedClusterObjects)
              && status.machineConfigs == old(status.machineConfigs))
    {
      // Only the singleton configuration is reconciled.
      if req.name != OperatorConfigName {
        return Done, None, [];
      }

      calls := [GetOperConfig];
      if w.operConfig.Failed? {
        if w.operConfig.error == NotFound {
          // Deleted: owned objects are garbage-collected; do not requeue.
          status.SetDegraded(OperatorConfig, "NoOperatorConfig");
          return Done, None, calls;
        }
        return Done, Some(w.operConfig.error), calls;
      }
      if w.operConfig.value.managementState == Unmanaged {
        return Done, None, calls;
      }
      res, err, calls := PrepareStage(w);
    }

    method PrepareStage(w: World) returns (res: ReconcileResult, err: Option<ApiError>, calls: seq<Call>)
      requires w.WellFormed() && w.operConfig.Got?
      modifies status
      ensures var c := Prepare(w, mapper);
        && res == c.result && err == c.err && calls == c.calls
        && status.degraded == Put(old(status.degraded), OperatorConfig, c.config)
        && status.progressing == Put(old(status.progressing), OperatorRender, c.renderProgress)
        && (c.published.Some? ==>
              && status.relatedObjects == c.published.value.related
              && status.relatedClusterObjects == c.published.value.clusterRelated
              && status.machineConfigs == c.published.value.machineConfigs)
        && (c.published.None? ==>
              && status.relatedObjects == old(status.relatedObjects)
              && status.relatedClusterObjects == old(status.relatedClusterObjects)
              && status.machineConfigs == old(status.machineConfigs))
    {
      calls := [GetOperConfig, GetClusterConfig];
      if w.clusterConfig.Fail? {
        return Done, Some(w.clusterConfig.error), calls;
      }

      calls := calls + [MergeClusterConfig];
      if w.merge.Fail? {
        // A version conflict is retried without raising Degraded.
        if w.merge.error != Conflict {
          status.SetDegraded(OperatorConfig, "MergeClusterConfig");
        }
        return Done, Some(w.merge.error), calls;
      }

      calls := calls + [Validate];
      if w.validate.Fail? {
        status.SetDegraded(OperatorConfig, "InvalidOperatorConfig");
        return Done, Some(w.validate.error), calls;
      }

      calls := calls + [GetAppliedConfiguration];
      if w.applied.Failed? {
        return Done, Some(w.applied.error), calls;
      }

      calls := calls + [GetInfraStatus];
      if w.infra.Failed? {
        return Done, Some(w.infra.error), calls;
      }
      res, err, calls := GateStage(w, calls);
    }

    method GateStage(w: World, callsBefore: seq<Call>) returns (res: ReconcileResult, err: Option<ApiError>, calls: seq<Call>)
      requires w.WellFormed() && w.operConfig.Got? && w.applied.Got? && w.infra.Got?
      modifies status
      ensures var c := Gate(w, mapper, callsBefore);
        && res == c.result && err == c.err && calls == c.calls
        && status.degraded == Put(old(status.degraded), OperatorConfig, c.config)
        && status.progressing == Put(old(status.progressing), OperatorRender, c.renderProgress)
        && (c.published.Some? ==>
              && status.relatedObjects == c.published.value.related
              && status.relatedClusterObjects == c.published.value.clusterRelated
              && status.machineConfigs == c.published.value.machineConfigs)
        && (c.published.None? ==>
              && status.relatedObjects == old(status.relatedObjects)
              && status.relatedClusterObjects == old(status.relatedClusterObjects)
              && status.machineConfigs == old(status.machineConfigs))
    {
      var prevExists := w.applied.value;
      var hostedControlPlane := w.infra.value;

      // Probe the MTU if NeedMTUProbe says so, or if the MTU ConfigMap is
      // missing and there are nodes to probe from.
      calls := callsBefore + [GetMTUConfigMap];
      if w.needMTUProbe || (w.mtuConfigMap.Fail? && w.mtuConfigMap.error == NotFound && !hostedControlPlane) {
        calls := calls + [ProbeMTU];
        if w.probe.Fail? {
          status.SetDegraded(OperatorConfig, "MTUProbeFailed");
          return Done, Some(w.probe.error), calls;
        }
      }

      // The change-safety check applies only once a configuration has been applied.
      if prevExists {
        calls := calls + [IsChangeSafe];
        if w.changeSafe.Fail? {
          status.SetDegraded(OperatorConfig, "InvalidOperatorConfig");
          return Done, Some(w.changeSafe.error), calls;
        }
      }

      res, err, calls := CommitStage(w, calls);
    }

    method CommitStage(w: World, callsBefore: seq<Call>) returns (res: ReconcileResult, err: Option<ApiError>, calls: seq<Call>)
      requires w.WellFormed() && w.operConfig.Got?
      modifies status
      ensures var c := Commit(w, mapper, callsBefore);
        && res == c.result && err == c.err && calls == c.calls
        && status.degraded == Put(old(status.degraded), OperatorConfig, c.config)
        && status.progressing == Put(old(status.progressing), OperatorRender, c.renderProgress)
        && (c.published.Some? ==>
              && status.relatedObjects == c.published.value.related
              && status.relatedClusterObjects == c.published.value.clusterRelated
              && status.machineConfigs == c.published.value.machineConfigs)
        && (c.published.None? ==>
              && status.relatedObjects == old(status.relatedObjects)
              && status.relatedClusterObjects == old(status.relatedClusterObjects)
              && status.machineConfigs == old(status.machineConfigs))
    {
      calls := callsBefore + [Bootstrap];
      if w.bootstrap.Failed? {
        status.SetDegraded(OperatorConfig, "BootstrapError");
        return Done, Some(w.bootstrap.error), calls;
      }

      // Write back the defaulted configuration if defaulting changed it.
      if w.operConfig.value != w.defaulted {
        calls := calls + [UpdateOperConfig];
        if w.update.Fail? {
          if w.update.error != Conflict {
            status.SetDegraded(OperatorConfig, "UpdateOperatorConfig");
          }
          return Done, Some(w.update.error), calls;
        }
      }
      res, err, calls := PublishStage(w, calls);
    }

    method PublishStage(w: World, callsBefore: seq<Call>) returns (res: ReconcileResult, err: Option<ApiError>, calls: seq<Call>)
      requires w.WellFormed() && w.bootstrap.Got?
      modifies status
      ensures var c := Publish(w, mapper, callsBefore);
        && res == c.result && err == c.err && calls == c.calls
        && status.degraded == Put(old(status.degraded), OperatorConfig, c.config)
        && status.progressing == Put(old(status.progressing), OperatorRender, c.renderProgress)
        && (c.published.Some? ==>
              && status.relatedObjects == c.published.value.related
              && status.relatedClusterObjects == c.published.value.clusterRelated
              && status.machineConfigs == c.published.value.machineConfigs)
        && (c.published.None? ==>
              && status.relatedObjects == old(status.relatedObjects)
              && status.relatedClusterObjects == old(status.relatedClusterObjects)
              && status.machineConfigs == old(status.machineConfigs))
    {
      calls := callsBefore + [Render];
      if w.render.Failed? {
        status.SetDegraded(OperatorConfig, "RenderError");
        return Done, Some(w.render.error), calls;
      }
      var progress;
      if w.render.value.progressing {
        status.SetProgressing(OperatorRender, "RenderProgressing");
        progress := Raised("RenderProgressing");
      } else {
        status.UnsetProgressing(OperatorRender);
        progress := Cleared;
      }

      if w.record.Failed? {
        status.SetDegraded(OperatorConfig, "RenderError");
        return Done, Some(w.record.error), calls;
      }
      res, err, calls := PostStage(w, calls, progress);
    }

    method PostStage(w: World, callsBefore: seq<Call>, ghost progress: Condition) returns (res: ReconcileResult, err: Option<ApiError>, calls: seq<Call>)
      requires w.WellFormed() && w.bootstrap.Got? && w.render.Got? && w.record.Got?
      modifies status
      ensures var c := Post(w, mapper, callsBefore, progress);
        && res == c.result && err == c.err && calls == c.calls
        && status.degraded == Put(old(status.degraded), OperatorConfig, c.config)
        && status.progressing == old(status.progressing)
        && c.published.Some?
        && status.relatedObjects == c.published.value.related
        && status.relatedClusterObjects == c.published.value.clusterRelated
        && status.machineConfigs == c.published.value.machineConfigs
    {
      // The record of the applied configuration is the first object.
      var all := [w.record.value] + w.render.value.objects;
      var objs := new Obj[|all|](i requires 0 <= i < |all| => all[i]);
      assert objs[..] == all;

      var related, clusterRelated, machineConfigs := Process(objs, mapper, w.hyperShift, w.bootstrap.value);
      related := related + [ObjectReference("", "namespaces", AppliedNamespace, "")];
      related := related + [ObjectReference("operator.openshift.io", "networks", "cluster", "")];
      related := related + [ObjectReference("", "namespaces", "openshift-cloud-network-config-controller", "")];
      assert objs[..] == ObjectsToApply(w);
      assert related == WithFixedRefs(RelatedRefs(objs[..], mapper));
      ghost var pub := Published(related, clusterRelated, machineConfigs);
      assert Post(w, mapper, callsBefore, progress) ==
        if w.machineConfigs.Fail? then
          CycleEffect(Done, Some(w.machineConfigs.error), callsBefore, Some(Raised("MachineConfigError")), Some(progress), Some(pub))
        else
          Finish(w, objs[..], callsBefore, progress, pub);

      status.SetRelatedObjects(related);
      status.SetRelatedClusterObjects(clusterRelated);
      var mcErr := status.SetMachineConfigs(machineConfigs, w.machineConfigs);
      if mcErr.Some? {
        status.SetDegraded(OperatorConfig, "MachineConfigError");
        return Done, mcErr, callsBefore;
      }
      res, err, calls := ApplyStage(w, objs, callsBefore, progress, pub);
    }

    method ApplyStage(w: World, objs: array<Obj>, callsBefore: seq<Call>, ghost progress: Condition, ghost pub: Published)
      returns (res: ReconcileResult, err: Option<ApiError>, calls: seq<Call>)
      requires |w.ownerRef| == objs.Length == |w.apply|
      modifies status
      ensures var c := Finish(w, objs[..], callsBefore, progress, pub);
        && res == c.result && err == c.err && calls == c.calls
        && status.degraded == Put(old(status.degraded), OperatorConfig, c.config)
        && status.progressing == old(status.progressing)
        && status.relatedObjects == old(status.relatedObjects)
        && status.relatedClusterObjects == old(status.relatedClusterObjects)
        && status.machineConfigs == old(status.machineConfigs)
    {
      var run := ApplyObjects(objs, w.ownerRef, w.apply);
      calls := callsBefore + ApplyCalls(run.applied);
      if run.verdict.Aborted? {
        status.SetDegraded(OperatorConfig, "InternalError");
        return Done, Some(run.verdict.error), calls;
      }
      if run.verdict.degradedErr.Some? {
        status.SetDegraded(OperatorConfig, "ApplyOperatorConfig");
        return Done, run.verdict.degradedErr, calls;
      }
      res, err, calls := ReportStage(w, calls, progress, pub);
    }

    method ReportStage(w: World, callsBefore: seq<Call>, ghost progress: Condition, ghost pub: Published)
      returns (res: ReconcileResult, err: Option<ApiError>, calls: seq<Call>)
      modifies status
      ensures var c := Report(w, callsBefore, progress, pub);
        && res == c.result && err == c.err && calls == c.calls
        && status.degraded == Put(old(status.degraded), OperatorConfig, c.config)
        && status.progressing == old(status.progressing)
        && status.relatedObjects == old(status.relatedObjects)
        && status.relatedClusterObjects == old(status.relatedClusterObjects)
        && status.machineConfigs == old(status.machineConfigs)
    {
      // Once written back, the cycle works with the defaulted configuration.
      var ran, migrationErr := MigrateFeatures(w.defaulted.migration, w.migrations);
      calls := callsBefore + MigrationCalls(ran);
      if migrationErr.Some? {
        return Done, migrationErr, calls;
      }

      calls := calls + [ClusterNetworkStatus];
      if w.networkStatus.Failed? {
        status.SetDegraded(OperatorConfig, "StatusError");
        return Done, Some(w.networkStatus.error), calls;
      }
      if w.networkStatus.value {
        calls := calls + [ApplyNetworkStatus];
        if w.statusApply.Fail? {
          status.SetDegraded(OperatorConfig, "StatusError");
          return Done, Some(w.statusApply.error), calls;
        }
      }

      status.SetNotDegraded(OperatorConfig);
      return RequeueAfter(ResyncPeriod), None, calls;
    }
  }
}
