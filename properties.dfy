/** Properties of one reconciliation cycle, stated about the decision
    table Cycle.Decide (and, through the ensures of Reconcile, about the
    reconciler itself). */
module CycleProperties {
  import opened Api
  import opened Status
  import opened PostProcess
  import opened ApplyLoop
  import opened Migrations
  import opened Cycle

  /** Position of a collaborator call in the cycle's program order. */
  function Rank(c: Call): nat {
    match c
    case GetOperConfig => 0
    case GetClusterConfig => 1
    case MergeClusterConfig => 2
    case Validate => 3
    case GetAppliedConfiguration => 4
    case GetInfraStatus => 5
    case GetMTUConfigMap => 6
    case ProbeMTU => 7
    case IsChangeSafe => 8
    case Bootstrap => 9
    case UpdateOperConfig => 10
    case Render => 11
    case ApplyObject(_) => 12
    case MigrateFeature(_) => 13
    case ClusterNetworkStatus => 14
    case ApplyNetworkStatus => 15
  }

  /** `after` keeps every call of `before` and adds only calls ranked at
      least `from`. */
  predicate Extends(before: seq<Call>, after: seq<Call>, from: nat) {
    && (forall x :: x in before ==> x in after)
    && (forall x :: x in after && x !in before ==> Rank(x) >= from)
  }

  /** The requests that get as far as the MTU probe. */
  predicate PassesPrepare(req: Request, w: World) {
    && req.name == OperatorConfigName
    && w.operConfig.Got? && w.operConfig.value.managementState != Unmanaged
    && w.clusterConfig.Ok? && w.merge.Ok? && w.validate.Ok?
    && w.applied.Got? && w.infra.Got?
  }

  /** The requests that get as far as bootstrap. */
  predicate PassesGate(req: Request, w: World) {
    && PassesPrepare(req, w)
    && !(ProbeGate(w) && w.probe.Fail?)
    && !(w.applied.value && w.changeSafe.Fail?)
  }

  // ----- How each stage extends the trace of calls -----

  /** Appending calls ranked at least `from` extends a trace. */
  lemma AppendExtends(before: seq<Call>, extra: seq<Call>, from: nat)
    requires forall i :: 0 <= i < |extra| ==> Rank(extra[i]) >= from
    ensures Extends(before, before + extra, from) && before <= before + extra
  {
    forall x | x in before + extra && x !in before ensures Rank(x) >= from {
      var i :| 0 <= i < |before + extra| && (before + extra)[i] == x;
      assert extra[i - |before|] == x;
    }
  }

  lemma ReportExtends(w: World, calls: seq<Call>, progress: Condition, pub: Published)
    ensures Extends(calls, Report(w, calls, progress, pub).calls, 13)
    ensures calls <= Report(w, calls, progress, pub).calls
  {
    var mig := Migrate(w.defaulted.migration, w.migrations);
    var c1 := calls + MigrationCalls(mig.ran);
    AppendExtends(calls, MigrationCalls(mig.ran), 13);
    if mig.error.None? && w.networkStatus.Got? {
      var c2 := c1 + [ClusterNetworkStatus];
      AppendExtends(c1, [ClusterNetworkStatus], 13);
      if w.networkStatus.value {
        AppendExtends(c2, [ApplyNetworkStatus], 13);
      }
    } else if mig.error.None? {
      AppendExtends(c1, [ClusterNetworkStatus], 13);
    }
  }

  lemma FinishExtends(w: World, objs: seq<Obj>, calls: seq<Call>, progress: Condition, pub: Published)
    requires |w.ownerRef| == |objs| == |w.apply|
    ensures Extends(calls, Finish(w, objs, calls, progress, pub).calls, 12)
    ensures calls + ApplyCalls(Run(objs, w.ownerRef, w.apply).applied) <= Finish(w, objs, calls, progress, pub).calls
  {
    var run := Run(objs, w.ownerRef, w.apply);
    var c := calls + ApplyCalls(run.applied);
    var applyCalls := ApplyCalls(run.applied);
    forall x | x in applyCalls ensures Rank(x) == 12 {
      var i :| 0 <= i < |applyCalls| && applyCalls[i] == x;
    }
    if run.verdict.Finished? && run.verdict.degradedErr.None? {
      ReportExtends(w, c, progress, pub);
    }
  }

  lemma PublishExtends(w: World, mapper: map<GroupKind, string>, calls: seq<Call>)
    requires w.WellFormed() && w.bootstrap.Got?
    ensures Extends(calls, Publish(w, mapper, calls).calls, 11)
  {
    var c := calls + [Render];
    if w.render.Got? && w.record.Got? && w.machineConfigs.Ok? {
      var progress := if w.render.value.progressing then Raised("RenderProgressing") else Cleared;
      var objs := ObjectsToApply(w);
      var pub := Published(WithFixedRefs(RelatedRefs(objs, mapper)), ClusterRefs(objs, mapper), MachineConfigs(objs, mapper));
      FinishExtends(w, objs, c, progress, pub);
    }
  }

  lemma CommitExtends(w: World, mapper: map<GroupKind, string>, calls: seq<Call>)
    requires w.WellFormed() && w.operConfig.Got?
    ensures Extends(calls, Commit(w, mapper, calls).calls, 9)
  {
    if w.bootstrap.Got? && !(w.defaulted != w.operConfig.value && w.update.Fail?) {
      PublishExtends(w, mapper, CommitCalls(w, calls));
    }
  }

  /** The calls made before the MTU ConfigMap is read. */
  function PrepareCalls(): seq<Call> {
    [GetOperConfig, GetClusterConfig] + [MergeClusterConfig] + [Validate] + [GetAppliedConfiguration] + [GetInfraStatus]
  }

  /** The calls of the gate stage that lets the cycle through. */
  function GateCalls(w: World, calls: seq<Call>): seq<Call>
    requires w.applied.Got? && w.infra.Got?
  {
    var cm := calls + [GetMTUConfigMap];
    var c5 := if ProbeGate(w) then cm + [ProbeMTU] else cm;
    if w.applied.value then c5 + [IsChangeSafe] else c5
  }

  /** The calls of the commit stage that lets the cycle through. */
  function CommitCalls(w: World, calls: seq<Call>): seq<Call>
    requires w.operConfig.Got?
  {
    var c7 := calls + [Bootstrap];
    if w.defaulted != w.operConfig.value then c7 + [UpdateOperConfig] else c7
  }

  /** The requests that get as far as Render. */
  predicate PassesCommit(req: Request, w: World) {
    && PassesGate(req, w)
    && w.bootstrap.Got?
    && !(w.defaulted != w.operConfig.value && w.update.Fail?)
  }

  lemma DecideReachesGate(req: Request, w: World, mapper: map<GroupKind, string>)
    requires w.WellFormed() && PassesPrepare(req, w)
    ensures Decide(req, w, mapper) == Gate(w, mapper, PrepareCalls())
  {
  }

  lemma DecideReachesCommit(req: Request, w: World, mapper: map<GroupKind, string>)
    requires w.WellFormed() && PassesGate(req, w)
    ensures Decide(req, w, mapper) == Commit(w, mapper, GateCalls(w, PrepareCalls()))
  {
    DecideReachesGate(req, w, mapper);
  }

  lemma DecideReachesPublish(req: Request, w: World, mapper: map<GroupKind, string>)
    requires w.WellFormed() && PassesCommit(req, w)
    ensures Decide(req, w, mapper) == Publish(w, mapper, CommitCalls(w, GateCalls(w, PrepareCalls())))
  {
    DecideReachesCommit(req, w, mapper);
  }

  // ----- The cycle -----

  /** Only the singleton configuration is reconciled: any other name makes
      no call, writes nothing and does not requeue. */
  lemma OnlySingletonReconciled(req: Request, w: World, mapper: map<GroupKind, string>)
    requires w.WellFormed() && req.name != OperatorConfigName
    ensures Decide(req, w, mapper) == CycleEffect(Done, None, [], None, None, None)
  {
  }

  /** A deleted configuration raises Degraded with NoOperatorConfig and is
      not retried: no error is returned. */
  lemma DeletedConfigNotRetried(req: Request, w: World, mapper: map<GroupKind, string>)
    requires w.WellFormed() && req.name == OperatorConfigName && w.operConfig == Failed(NotFound)
    ensures var c := Decide(req, w, mapper);
      && c.result == Done && c.err.None? && c.calls == [GetOperConfig]
      && c.config == Some(Raised("NoOperatorConfig")) && c.renderProgress.None? && c.published.None?
  {
  }

  /** An Unmanaged configuration is left alone. */
  lemma UnmanagedSkipped(req: Request, w: World, mapper: map<GroupKind, string>)
    requires w.WellFormed() && req.name == OperatorConfigName
    requires w.operConfig.Got? && w.operConfig.value.managementState == Unmanaged
    ensures Decide(req, w, mapper) == CycleEffect(Done, None, [GetOperConfig], None, None, None)
  {
  }

  /** A failing merge of the cluster configuration stops the cycle with its
      error; Degraded is raised unless the failure is a version conflict. */
  lemma MergeConflictRetriedQuietly(req: Request, w: World, mapper: map<GroupKind, string>)
    requires w.WellFormed() && req.name == OperatorConfigName
    requires w.operConfig.Got? && w.operConfig.value.managementState != Unmanaged
    requires w.clusterConfig.Ok? && w.merge.Fail?
    ensures var c := Decide(req, w, mapper);
      && c.result == Done && c.err == Some(w.merge.error)
      && (c.config.None? <==> w.merge.error == Conflict)
      && (w.merge.error != Conflict ==> c.config == Some(Raised("MergeClusterConfig")))
  {
  }

  lemma GateProbes(w: World, mapper: map<GroupKind, string>, calls: seq<Call>)
    requires w.WellFormed() && w.operConfig.Got? && w.applied.Got? && w.infra.Got?
    requires forall x :: x in calls ==> Rank(x) < 6
    ensures ProbeMTU in Gate(w, mapper, calls).calls <==> ProbeGate(w)
    ensures IsChangeSafe in Gate(w, mapper, calls).calls <==> !(ProbeGate(w) && w.probe.Fail?) && w.applied.value
  {
    var cm := calls + [GetMTUConfigMap];
    var c5 := if ProbeGate(w) then cm + [ProbeMTU] else cm;
    assert ProbeMTU in c5 <==> ProbeGate(w);
    assert IsChangeSafe !in c5;
    if !(ProbeGate(w) && w.probe.Fail?) {
      var c6 := if w.applied.value then c5 + [IsChangeSafe] else c5;
      assert IsChangeSafe in c6 <==> w.applied.value;
      if !(w.applied.value && w.changeSafe.Fail?) {
        CommitExtends(w, mapper, c6);
      }
    }
  }

  lemma CommitUpdates(w: World, mapper: map<GroupKind, string>, calls: seq<Call>)
    requires w.WellFormed() && w.operConfig.Got? && w.bootstrap.Got?
    requires forall x :: x in calls ==> Rank(x) < 9
    ensures UpdateOperConfig in Commit(w, mapper, calls).calls <==> w.defaulted != w.operConfig.value
  {
    var c8 := CommitCalls(w, calls);
    assert UpdateOperConfig in c8 <==> w.defaulted != w.operConfig.value;
    if !(w.defaulted != w.operConfig.value && w.update.Fail?) {
      PublishExtends(w, mapper, c8);
    }
  }

  /** The MTU is probed exactly when the probe gate holds; a failed probe
      raises MTUProbeFailed. */
  lemma ProbeOnlyWhenGated(req: Request, w: World, mapper: map<GroupKind, string>)
    requires w.WellFormed() && PassesPrepare(req, w)
    ensures var c := Decide(req, w, mapper);
      && (ProbeMTU in c.calls <==> ProbeGate(w))
      && (ProbeGate(w) && w.probe.Fail? ==>
            c.err == Some(w.probe.error) && c.config == Some(Raised("MTUProbeFailed")))
  {
    DecideReachesGate(req, w, mapper);
    GateProbes(w, mapper, PrepareCalls());
  }

  /** The change-safety check runs exactly when a previously applied
      configuration exists; a rejected change raises InvalidOperatorConfig. */
  lemma ChangeSafetyNeedsPrevious(req: Request, w: World, mapper: map<GroupKind, string>)
    requires w.WellFormed() && PassesPrepare(req, w) && !(ProbeGate(w) && w.probe.Fail?)
    ensures var c := Decide(req, w, mapper);
      && (IsChangeSafe in c.calls <==> w.applied.value)
      && (w.applied.value && w.changeSafe.Fail? ==>
            c.err == Some(w.changeSafe.error) && c.config == Some(Raised("InvalidOperatorConfig")))
  {
    DecideReachesGate(req, w, mapper);
    GateProbes(w, mapper, PrepareCalls());
  }

  /** The defaulted configuration is written back exactly when defaulting
      changed it; a failing write stops the cycle with its error and raises
      Degraded unless the failure is a version conflict. */
  lemma UpdateOnlyWhenDefaultingChanged(req: Request, w: World, mapper: map<GroupKind, string>)
    requires w.WellFormed() && PassesGate(req, w) && w.bootstrap.Got?
    ensures var c := Decide(req, w, mapper);
      && (UpdateOperConfig in c.calls <==> w.defaulted != w.operConfig.value)
      && (w.defaulted != w.operConfig.value && w.update.Fail? ==>
            && c.result == Done && c.err == Some(w.update.error)
            && c.config == DegradeUnlessConflict(w.update.error, "UpdateOperatorConfig"))
  {
    DecideReachesCommit(req, w, mapper);
    var calls := GateCalls(w, PrepareCalls());
    CommitUpdates(w, mapper, calls);
  }

  // ----- The apply loop inside the cycle -----

  /** Best effort: without an owner-reference failure every object is
      handed to the apply primitive, in order; the last failure of an
      object without the ignore-errors annotation, whatever its kind
      (a version conflict included), raises ApplyOperatorConfig and is
      returned; with none the cycle goes on to the migrations. */
  lemma BestEffortApply(w: World, objs: seq<Obj>, calls: seq<Call>, progress: Condition, pub: Published)
    requires |w.ownerRef| == |objs| == |w.apply|
    requires forall j :: 0 <= j < |objs| ==> !OwnerRefFails(objs, w.ownerRef, j)
    ensures var c := Finish(w, objs, calls, progress, pub);
      var last := LastDegrading(objs, w.apply, |objs|);
      && (last.Some? ==>
            c == CycleEffect(Done, last, calls + ApplyCalls(objs), Some(Raised("ApplyOperatorConfig")), Some(progress), Some(pub)))
      && (last.None? ==> c == Report(w, calls + ApplyCalls(objs), progress, pub))
  {
    AppliesEveryObject(objs, w.ownerRef, w.apply);
  }

  /** The record of the applied configuration, stamped, is the first object
      handed to the apply primitive, right after Render; it is applied
      unless setting its owner reference fails. */
  lemma RecordAppliedFirst(w: World, mapper: map<GroupKind, string>, calls: seq<Call>)
    requires w.WellFormed() && w.bootstrap.Got? && w.render.Got? && w.record.Got? && w.machineConfigs.Ok?
    requires !OwnerRefFails(ObjectsToApply(w), w.ownerRef, 0)
    ensures var c := Publish(w, mapper, calls).calls;
      && |c| > |calls| + 1 && c[|calls|] == Render
      && c[|calls| + 1] == ApplyObject(Stamp(w.record.value, w.hyperShift, w.bootstrap.value))
  {
    var objs := ObjectsToApply(w);
    var progress := if w.render.value.progressing then Raised("RenderProgressing") else Cleared;
    var pub := Published(WithFixedRefs(RelatedRefs(objs, mapper)), ClusterRefs(objs, mapper), MachineConfigs(objs, mapper));
    var run := Run(objs, w.ownerRef, w.apply);
    AppliedInOrder(objs, w.ownerRef, w.apply);
    FinishExtends(w, objs, calls + [Render], progress, pub);
    var prefix := calls + [Render] + ApplyCalls(run.applied);
    assert prefix[|calls| + 1] == ApplyObject(objs[0]);
  }

  /** A version conflict from the apply primitive is not retried quietly:
      a conflict on any object without the ignore-errors annotation raises
      ApplyOperatorConfig like any other failure, and the cycle returns the
      last such failure, which is the conflict itself when it came last. */
  lemma ApplyConflictDegrades(w: World, objs: seq<Obj>, calls: seq<Call>, progress: Condition, pub: Published, k: nat)
    requires |w.ownerRef| == |objs| == |w.apply| && k < |objs|
    requires forall j :: 0 <= j < |objs| ==> !OwnerRefFails(objs, w.ownerRef, j)
    requires w.apply[k] == Fail(Conflict) && !Ignored(objs[k])
    ensures var c := Finish(w, objs, calls, progress, pub);
      && c.result == Done && c.config == Some(Raised("ApplyOperatorConfig"))
      && c.err.Some? && c.err == LastDegrading(objs, w.apply, |objs|)
      && ((forall j :: k < j < |objs| ==> !Degrading(objs, w.apply, j)) ==> c.err == Some(Conflict))
  {
    BestEffortApply(w, objs, calls, progress, pub);
    assert Degrading(objs, w.apply, k);
    LastDegradingAt(objs, w.apply, |objs|, k);
  }

  /** The first object, in the operator's own cluster, whose controller
      reference cannot be set stops the loop: the objects before it have
      been applied and InternalError is raised. */
  lemma OwnerRefFailureStopsCycle(w: World, objs: seq<Obj>, calls: seq<Call>, progress: Condition, pub: Published, k: nat)
    requires |w.ownerRef| == |objs| == |w.apply| && k < |objs|
    requires OwnerRefFails(objs, w.ownerRef, k)
    requires forall j :: 0 <= j < k ==> !OwnerRefFails(objs, w.ownerRef, j)
    ensures Finish(w, objs, calls, progress, pub)
         == CycleEffect(Done, Some(w.ownerRef[k].error), calls + ApplyCalls(objs[..k]),
                        Some(Raised("InternalError")), Some(progress), Some(pub))
  {
    OwnerRefFailureAborts(objs, w.ownerRef, w.apply, k);
  }

  /** A failed migration stops the cycle with its error but leaves Degraded alone. */
  lemma MigrationFailureNotDegraded(w: World, calls: seq<Call>, progress: Condition, pub: Published)
    requires Migrate(w.defaulted.migration, w.migrations).error.Some?
    ensures var c := Report(w, calls, progress, pub);
      && c.err == Migrate(w.defaulted.migration, w.migrations).error && c.result == Done && c.config.None?
  {
  }

  // ----- When the cycle succeeds -----

  /** The tail of a successful cycle: after the apply loop. */
  predicate FinishSucceeds(w: World, objs: seq<Obj>)
    requires |w.ownerRef| == |objs| == |w.apply|
  {
    && (forall j :: 0 <= j < |objs| ==> !OwnerRefFails(objs, w.ownerRef, j))
    && LastDegrading(objs, w.apply, |objs|).None?
    && Migrate(w.defaulted.migration, w.migrations).error.None?
    && w.networkStatus.Got? && (w.networkStatus.value ==> w.statusApply.Ok?)
  }

  /** Every step of the cycle goes through: the configuration is fetched,
      managed, merged, valid, safe, bootstrapped and written back if need be;
      Render, the record and the MachineConfigs succeed; no owner reference
      fails and no apply failure counts; the migrations succeed; and the
      cluster network status is computed and, when there is one, applied. */
  predicate Succeeds(req: Request, w: World)
    requires w.WellFormed()
  {
    && PassesCommit(req, w)
    && w.render.Got? && w.record.Got? && w.machineConfigs.Ok?
    && FinishSucceeds(w, ObjectsToApply(w))
  }

  lemma FinishClears(w: World, objs: seq<Obj>, calls: seq<Call>, progress: Condition, pub: Published)
    requires |w.ownerRef| == |objs| == |w.apply|
    ensures var c := Finish(w, objs, calls, progress, pub);
      && (c.config == Some(Cleared) <==> FinishSucceeds(w, objs))
      && (FinishSucceeds(w, objs) ==> c.result == RequeueAfter(ResyncPeriod) && c.err.None?)
  {
    if forall j :: 0 <= j < |objs| ==> !OwnerRefFails(objs, w.ownerRef, j) {
      AppliesEveryObject(objs, w.ownerRef, w.apply);
    } else {
      FirstOwnerRefFailure(objs, w.ownerRef, |objs|);
      var k :| 0 <= k < |objs| && OwnerRefFails(objs, w.ownerRef, k)
               && forall j :: 0 <= j < k ==> !OwnerRefFails(objs, w.ownerRef, j);
      OwnerRefFailureAborts(objs, w.ownerRef, w.apply, k);
    }
  }

  lemma PublishClears(w: World, mapper: map<GroupKind, string>, calls: seq<Call>)
    requires w.WellFormed() && w.bootstrap.Got?
    ensures var c := Publish(w, mapper, calls);
      var ok := w.render.Got? && w.record.Got? && w.machineConfigs.Ok? && FinishSucceeds(w, ObjectsToApply(w));
      && (c.config == Some(Cleared) <==> ok)
      && (ok ==> c.result == RequeueAfter(ResyncPeriod) && c.err.None?)
  {
    if w.render.Got? && w.record.Got? && w.machineConfigs.Ok? {
      var objs := ObjectsToApply(w);
      var progress := if w.render.value.progressing then Raised("RenderProgressing") else Cleared;
      var pub := Published(WithFixedRefs(RelatedRefs(objs, mapper)), ClusterRefs(objs, mapper), MachineConfigs(objs, mapper));
      FinishClears(w, objs, calls + [Render], progress, pub);
    }
  }

  /** A cycle that stops before Render never clears Degraded. */
  lemma EarlyStopKeepsDegraded(req: Request, w: World, mapper: map<GroupKind, string>)
    requires w.WellFormed() && !PassesCommit(req, w)
    ensures Decide(req, w, mapper).config != Some(Cleared)
    ensures Decide(req, w, mapper).published.None?
  {
    if PassesGate(req, w) {
      DecideReachesCommit(req, w, mapper);
    } else if PassesPrepare(req, w) {
      DecideReachesGate(req, w, mapper);
    }
  }

  /** Degraded is cleared exactly when every step succeeds, and that cycle
      requeues after the resync period with no error. */
  lemma OnlySuccessClearsDegraded(req: Request, w: World, mapper: map<GroupKind, string>)
    requires w.WellFormed()
    ensures var c := Decide(req, w, mapper);
      && (c.config == Some(Cleared) <==> Succeeds(req, w))
      && (Succeeds(req, w) ==> c.result == RequeueAfter(ResyncPeriod) && c.err.None?)
  {
    if PassesCommit(req, w) {
      DecideReachesPublish(req, w, mapper);
      PublishClears(w, mapper, CommitCalls(w, GateCalls(w, PrepareCalls())));
    } else {
      EarlyStopKeepsDegraded(req, w, mapper);
    }
  }

  // ----- What every cycle satisfies -----

  /** The shape every cycle's effect has: an error never requeues; the
      cycle requeues after the resync period exactly when it clears
      Degraded, and then it has returned no error, written the render
      progress and published the related lists. */
  predicate Coherent(c: CycleEffect) {
    && (c.err.Some? ==> c.result == Done)
    && (c.result != Done <==> c.config == Some(Cleared))
    && (c.config == Some(Cleared) ==>
          c.result == RequeueAfter(ResyncPeriod) && c.err.None? && c.renderProgress.Some? && c.published.Some?)
  }

  lemma ReportCoherent(w: World, calls: seq<Call>, progress: Condition, pub: Published)
    ensures Coherent(Report(w, calls, progress, pub))
  {
  }

  lemma PublishCoherent(w: World, mapper: map<GroupKind, string>, calls: seq<Call>)
    requires w.WellFormed() && w.bootstrap.Got?
    ensures Coherent(Publish(w, mapper, calls))
  {
    var c := calls + [Render];
    if w.render.Got? && w.record.Got? && w.machineConfigs.Ok? {
      var progress := if w.render.value.progressing then Raised("RenderProgressing") else Cleared;
      var objs := ObjectsToApply(w);
      var pub := Published(WithFixedRefs(RelatedRefs(objs, mapper)), ClusterRefs(objs, mapper), MachineConfigs(objs, mapper));
      var run := Run(objs, w.ownerRef, w.apply);
      if run.verdict.Finished? && run.verdict.degradedErr.None? {
        ReportCoherent(w, c + ApplyCalls(run.applied), progress, pub);
      }
    }
  }

  /** Every cycle is coherent, whatever its collaborators answer. */
  lemma CycleCoherent(req: Request, w: World, mapper: map<GroupKind, string>)
    requires w.WellFormed()
    ensures Coherent(Decide(req, w, mapper))
  {
    if PassesCommit(req, w) {
      DecideReachesPublish(req, w, mapper);
      PublishCoherent(w, mapper, CommitCalls(w, GateCalls(w, PrepareCalls())));
    }
  }

  /** An exit that makes itself heard: it returns an error for retry or
      requeues, and any Degraded it raises comes with an error. */
  predicate Loud(c: CycleEffect) {
    && (c.err.Some? || c.result != Done)
    && (c.config.Some? && c.config.value.Raised? ==> c.err.Some?)
  }

  lemma FinishLoud(w: World, objs: seq<Obj>, calls: seq<Call>, progress: Condition, pub: Published)
    requires |w.ownerRef| == |objs| == |w.apply|
    ensures Loud(Finish(w, objs, calls, progress, pub))
  {
  }

  lemma PublishLoud(w: World, mapper: map<GroupKind, string>, calls: seq<Call>)
    requires w.WellFormed() && w.bootstrap.Got?
    ensures Loud(Publish(w, mapper, calls))
  {
    if w.render.Got? && w.record.Got? && w.machineConfigs.Ok? {
      var progress := if w.render.value.progressing then Raised("RenderProgressing") else Cleared;
      var objs := ObjectsToApply(w);
      var pub := Published(WithFixedRefs(RelatedRefs(objs, mapper)), ClusterRefs(objs, mapper), MachineConfigs(objs, mapper));
      FinishLoud(w, objs, calls + [Render], progress, pub);
    }
  }

  /** A cycle for the singleton, with a configuration that was fetched (or
      failed other than by being absent) and is managed, is loud. */
  lemma ManagedCycleLoud(req: Request, w: World, mapper: map<GroupKind, string>)
    requires w.WellFormed() && req.name == OperatorConfigName && w.operConfig != Failed(NotFound)
    requires w.operConfig.Got? ==> w.operConfig.value.managementState != Unmanaged
    ensures Loud(Decide(req, w, mapper))
  {
    if PassesCommit(req, w) {
      DecideReachesPublish(req, w, mapper);
      PublishLoud(w, mapper, CommitCalls(w, GateCalls(w, PrepareCalls())));
    } else if PassesGate(req, w) {
      DecideReachesCommit(req, w, mapper);
    } else if PassesPrepare(req, w) {
      DecideReachesGate(req, w, mapper);
    }
  }

  /** The early-exit policy of the whole cycle: it ends quietly (no error
      and no requeue) only for a request of another name, a deleted
      configuration or an Unmanaged one; and every raised Degraded other
      than NoOperatorConfig comes with an error for retry. */
  lemma ExitPolicy(req: Request, w: World, mapper: map<GroupKind, string>)
    requires w.WellFormed()
    ensures var c := Decide(req, w, mapper);
      && ((c.err.None? && c.result == Done) <==>
            (|| req.name != OperatorConfigName
             || w.operConfig == Failed(NotFound)
             || (w.operConfig.Got? && w.operConfig.value.managementState == Unmanaged)))
      && (c.config.Some? && c.config.value.Raised? && c.config != Some(Raised("NoOperatorConfig")) ==> c.err.Some?)
  {
    if req.name == OperatorConfigName && w.operConfig != Failed(NotFound)
      && (w.operConfig.Got? ==> w.operConfig.value.managementState != Unmanaged)
    {
      ManagedCycleLoud(req, w, mapper);
    }
  }

  lemma PublishProgress(w: World, mapper: map<GroupKind, string>, calls: seq<Call>)
    requires w.WellFormed() && w.bootstrap.Got?
    ensures var c := Publish(w, mapper, calls);
      && (c.renderProgress.Some? ==>
            && w.render.Got? && Render in c.calls
            && c.renderProgress.value == (if w.render.value.progressing then Raised("RenderProgressing") else Cleared))
      && (w.render.Got? ==>
            c.renderProgress == Some(if w.render.value.progressing then Raised("RenderProgressing") else Cleared))
  {
    PublishExtends(w, mapper, calls);
    assert Render in calls + [Render];
  }

  /** The render progress written is the one Render reports, and it is
      written exactly when Render succeeded. */
  lemma ProgressFollowsRender(req: Request, w: World, mapper: map<GroupKind, string>)
    requires w.WellFormed()
    ensures var c := Decide(req, w, mapper);
      && (c.renderProgress.Some? ==>
            && w.render.Got? && Render in c.calls
            && c.renderProgress.value == (if w.render.value.progressing then Raised("RenderProgressing") else Cleared))
      && (PassesCommit(req, w) && w.render.Got? ==>
            c.renderProgress == Some(if w.render.value.progressing then Raised("RenderProgressing") else Cleared))
  {
    if PassesCommit(req, w) {
      DecideReachesPublish(req, w, mapper);
      PublishProgress(w, mapper, CommitCalls(w, GateCalls(w, PrepareCalls())));
    }
  }

  /** When the lists are published, they are those post-processing derives
      from the record of the applied configuration followed by the rendered
      objects, stamped; the three fixed references close the related list. */
  lemma PublishedLists(req: Request, w: World, mapper: map<GroupKind, string>)
    requires w.WellFormed()
    ensures var c := Decide(req, w, mapper);
      && (c.published.Some? ==>
            && w.render.Got? && w.record.Got? && w.bootstrap.Got?
            && var objs := StampAll([w.record.value] + w.render.value.objects, w.hyperShift, w.bootstrap.value);
            && c.published.value.related == WithFixedRefs(RelatedRefs(objs, mapper))
            && c.published.value.clusterRelated == ClusterRefs(objs, mapper)
            && c.published.value.machineConfigs == MachineConfigs(objs, mapper))
      && (PassesCommit(req, w) && w.render.Got? && w.record.Got? ==> c.published.Some?)
  {
    if PassesCommit(req, w) {
      DecideReachesPublish(req, w, mapper);
      PublishPublishes(w, mapper, CommitCalls(w, GateCalls(w, PrepareCalls())));
    } else {
      EarlyStopKeepsDegraded(req, w, mapper);
    }
  }

  lemma PublishPublishes(w: World, mapper: map<GroupKind, string>, calls: seq<Call>)
    requires w.WellFormed() && w.bootstrap.Got?
    ensures var c := Publish(w, mapper, calls);
      c.published.Some? ==>
        && w.render.Got? && w.record.Got?
        && var objs := ObjectsToApply(w);
        && c.published.value == Published(WithFixedRefs(RelatedRefs(objs, mapper)), ClusterRefs(objs, mapper), MachineConfigs(objs, mapper))
  {
    if w.render.Got? && w.record.Got? && w.machineConfigs.Ok? {
      var progress := if w.render.value.progressing then Raised("RenderProgressing") else Cleared;
      var objs := ObjectsToApply(w);
      var pub := Published(WithFixedRefs(RelatedRefs(objs, mapper)), ClusterRefs(objs, mapper), MachineConfigs(objs, mapper));
    }
  }
}
