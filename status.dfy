/** The part of the status manager the reconciler drives: one condition per
    status level for Degraded and one for Progressing, and the three lists
    the reconciler republishes every cycle. */
module Status {
  import opened Api

  /** The status levels this controller writes. */
  datatype StatusLevel = OperatorConfig | OperatorRender

  /** A condition is raised with a reason, or cleared. */
  datatype Condition = Raised(reason: string) | Cleared

  /** The condition map after an optional write to `level`: a level that is
      not written keeps whatever it held. */
  function Put(m: map<StatusLevel, Condition>, level: StatusLevel, c: Option<Condition>): map<StatusLevel, Condition>
  {
    if c.Some? then m[level := c.value] else m
  }

  class StatusManager {
    var degraded: map<StatusLevel, Condition>
    var progressing: map<StatusLevel, Condition>
    var relatedObjects: seq<ObjectReference>
    var relatedClusterObjects: seq<RelatedObject>
    var machineConfigs: seq<Obj>

    constructor ()
      ensures degraded == map[] && progressing == map[]
      ensures relatedObjects == [] && relatedClusterObjects == [] && machineConfigs == []
    {
      degraded, progressing := map[], map[];
      relatedObjects, relatedClusterObjects, machineConfigs := [], [], [];
    }

    method SetDegraded(level: StatusLevel, reason: string)
      modifies this
      ensures degraded == old(degraded)[level := Raised(reason)]
      ensures progressing == old(progressing)
      ensures relatedObjects == old(relatedObjects) && relatedClusterObjects == old(relatedClusterObjects)
      ensures machineConfigs == old(machineConfigs)
    {
      degraded := degraded[level := Raised(reason)];
    }

    method SetNotDegraded(level: StatusLevel)
      modifies this
      ensures degraded == old(degraded)[level := Cleared]
      ensures progressing == old(progressing)
      ensures relatedObjects == old(relatedObjects) && relatedClusterObjects == old(relatedClusterObjects)
      ensures machineConfigs == old(machineConfigs)
    {
      degraded := degraded[level := Cleared];
    }

    method SetProgressing(level: StatusLevel, reason: string)
      modifies this
      ensures progressing == old(progressing)[level := Raised(reason)]
      ensures degraded == old(degraded)
      ensures relatedObjects == old(relatedObjects) && relatedClusterObjects == old(relatedClusterObjects)
      ensures machineConfigs == old(machineConfigs)
    {
      progressing := progressing[level := Raised(reason)];
    }

    method UnsetProgressing(level: StatusLevel)
      modifies this
      ensures progressing == old(progressing)[level := Cleared]
      ensures degraded == old(degraded)
      ensures relatedObjects == old(relatedObjects) && relatedClusterObjects == old(relatedClusterObjects)
      ensures machineConfigs == old(machineConfigs)
    {
      progressing := progressing[level := Cleared];
    }

    /** Replaces (does not merge into) the related-objects list. */
    method SetRelatedObjects(refs: seq<ObjectReference>)
      modifies this
      ensures relatedObjects == refs
      ensures degraded == old(degraded) && progressing == old(progressing)
      ensures relatedClusterObjects == old(relatedClusterObjects) && machineConfigs == old(machineConfigs)
    {
      relatedObjects := refs;
    }

    /** Replaces the related-cluster-objects list. */
    method SetRelatedClusterObjects(refs: seq<RelatedObject>)
      modifies this
      ensures relatedClusterObjects == refs
      ensures degraded == old(degraded) && progressing == old(progressing)
      ensures relatedObjects == old(relatedObjects) && machineConfigs == old(machineConfigs)
    {
      relatedClusterObjects := refs;
    }

    /** Records the rendered MachineConfigs; `persist` is the outcome of the
        status manager's own persistence call, which is returned. */
    method SetMachineConfigs(mcs: seq<Obj>, persist: Outcome) returns (err: Option<ApiError>)
      modifies this
      ensures machineConfigs == mcs
      ensures err == (if persist.Fail? then Some(persist.error) else None)
      ensures degraded == old(degraded) && progressing == old(progressing)
      ensures relatedObjects == old(relatedObjects) && relatedClusterObjects == old(relatedClusterObjects)
    {
      machineConfigs := mcs;
      err := if persist.Fail? then Some(persist.error) else None;
    }
  }
}
