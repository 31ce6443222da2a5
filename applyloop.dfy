/** The best-effort apply loop: every object is applied in render order; an
    owner-reference failure aborts at once; an apply failure of an object
    without the ignore-errors annotation is remembered and the loop goes on. */
module ApplyLoop {
  import opened Api

  predicate Ignored(o: Obj) {
    IgnoreObjectErrorAnnotation in o.annotations
  }

  /** Setting the controller reference is attempted, and fails, for object i. */
  predicate OwnerRefFails(objs: seq<Obj>, ownerRef: seq<Outcome>, i: nat)
    requires i < |objs| == |ownerRef|
  {
    objs[i].clusterName == "" && ownerRef[i].Fail?
  }

  /** Object i fails to apply and does not carry the ignore-errors annotation. */
  predicate Degrading(objs: seq<Obj>, apply: seq<Outcome>, i: nat)
    requires i < |objs| == |apply|
  {
    apply[i].Fail? && !Ignored(objs[i])
  }

  datatype Verdict =
    | Aborted(at: nat, error: ApiError)         // owner reference of object `at` could not be set
    | Finished(degradedErr: Option<ApiError>)   // loop ran to the end

  /** The objects handed to the apply primitive, in order, and the verdict. */
  datatype ApplyRun = ApplyRun(applied: seq<Obj>, verdict: Verdict)

  function RunFrom(objs: seq<Obj>, ownerRef: seq<Outcome>, apply: seq<Outcome>,
                   i: nat, applied: seq<Obj>, last: Option<ApiError>): ApplyRun
    requires |ownerRef| == |objs| == |apply| && i <= |objs|
    decreases |objs| - i
  {
    if i == |objs| then ApplyRun(applied, Finished(last))
    else if OwnerRefFails(objs, ownerRef, i) then ApplyRun(applied, Aborted(i, ownerRef[i].error))
    else
      RunFrom(objs, ownerRef, apply, i + 1, applied + [objs[i]],
              if Degrading(objs, apply, i) then Some(apply[i].error) else last)
  }

  /** The apply loop as a function of the objects and the outcomes of their
      owner-reference and apply steps. */
  function Run(objs: seq<Obj>, ownerRef: seq<Outcome>, apply: seq<Outcome>): ApplyRun
    requires |ownerRef| == |objs| == |apply|
  {
    RunFrom(objs, ownerRef, apply, 0, [], None)
  }

  /** Reference definition: the error of the last degrading object among the first n. */
  function LastDegrading(objs: seq<Obj>, apply: seq<Outcome>, n: nat): Option<ApiError>
    requires n <= |objs| == |apply|
  {
    if n == 0 then None
    else if Degrading(objs, apply, n - 1) then Some(apply[n - 1].error)
    else LastDegrading(objs, apply, n - 1)
  }

  lemma {:induction false} RunFromFinishes(objs: seq<Obj>, ownerRef: seq<Outcome>, apply: seq<Outcome>, i: nat)
    requires |ownerRef| == |objs| == |apply| && i <= |objs|
    requires forall j :: i <= j < |objs| ==> !OwnerRefFails(objs, ownerRef, j)
    ensures RunFrom(objs, ownerRef, apply, i, objs[..i], LastDegrading(objs, apply, i))
         == ApplyRun(objs, Finished(LastDegrading(objs, apply, |objs|)))
    decreases |objs| - i
  {
    if i == |objs| {
      assert objs[..i] == objs;
    } else {
      assert objs[..i] + [objs[i]] == objs[..i + 1];
      RunFromFinishes(objs, ownerRef, apply, i + 1);
    }
  }

  lemma {:induction false} RunFromAborts(objs: seq<Obj>, ownerRef: seq<Outcome>, apply: seq<Outcome>,
                                         i: nat, k: nat, last: Option<ApiError>)
    requires |ownerRef| == |objs| == |apply| && i <= k < |objs|
    requires OwnerRefFails(objs, ownerRef, k)
    requires forall j :: i <= j < k ==> !OwnerRefFails(objs, ownerRef, j)
    ensures RunFrom(objs, ownerRef, apply, i, objs[..i], last)
         == ApplyRun(objs[..k], Aborted(k, ownerRef[k].error))
    decreases k - i
  {
    if i < k {
      assert objs[..i] + [objs[i]] == objs[..i + 1];
      RunFromAborts(objs, ownerRef, apply, i + 1, k, if Degrading(objs, apply, i) then Some(apply[i].error) else last);
    }
  }

  /** Best effort: with no owner-reference failure every object is applied,
      in render order, and the surfaced error is that of the last degrading
      object (none if there is none). */
  lemma AppliesEveryObject(objs: seq<Obj>, ownerRef: seq<Outcome>, apply: seq<Outcome>)
    requires |ownerRef| == |objs| == |apply|
    requires forall j :: 0 <= j < |objs| ==> !OwnerRefFails(objs, ownerRef, j)
    ensures Run(objs, ownerRef, apply) == ApplyRun(objs, Finished(LastDegrading(objs, apply, |objs|)))
  {
    assert objs[..0] == [];
    RunFromFinishes(objs, ownerRef, apply, 0);
  }

  /** If some object among the first n fails its owner reference, there is
      a first such object. */
  lemma {:induction false} FirstOwnerRefFailure(objs: seq<Obj>, ownerRef: seq<Outcome>, n: nat)
    requires n <= |objs| == |ownerRef|
    requires exists j :: 0 <= j < n && OwnerRefFails(objs, ownerRef, j)
    ensures exists k :: 0 <= k < n && OwnerRefFails(objs, ownerRef, k)
                      && forall j :: 0 <= j < k ==> !OwnerRefFails(objs, ownerRef, j)
  {
    if exists j :: 0 <= j < n - 1 && OwnerRefFails(objs, ownerRef, j) {
      FirstOwnerRefFailure(objs, ownerRef, n - 1);
    } else {
      assert OwnerRefFails(objs, ownerRef, n - 1);
    }
  }

  /** An owner-reference failure at k aborts the loop: exactly the objects
      before k have been applied. */
  lemma OwnerRefFailureAborts(objs: seq<Obj>, ownerRef: seq<Outcome>, apply: seq<Outcome>, k: nat)
    requires |ownerRef| == |objs| == |apply| && k < |objs|
    requires OwnerRefFails(objs, ownerRef, k)
    requires forall j :: 0 <= j < k ==> !OwnerRefFails(objs, ownerRef, j)
    ensures Run(objs, ownerRef, apply) == ApplyRun(objs[..k], Aborted(k, ownerRef[k].error))
  {
    assert objs[..0] == [];
    RunFromAborts(objs, ownerRef, apply, 0, k, None);
  }

  lemma {:induction false} RunFromInOrder(objs: seq<Obj>, ownerRef: seq<Outcome>, apply: seq<Outcome>,
                                          i: nat, last: Option<ApiError>)
    requires |ownerRef| == |objs| == |apply| && i <= |objs|
    ensures objs[..i] <= RunFrom(objs, ownerRef, apply, i, objs[..i], last).applied <= objs
    decreases |objs| - i
  {
    if i == |objs| {
      assert objs[..i] == objs;
    } else if !OwnerRefFails(objs, ownerRef, i) {
      assert objs[..i] + [objs[i]] == objs[..i + 1];
      RunFromInOrder(objs, ownerRef, apply, i + 1, if Degrading(objs, apply, i) then Some(apply[i].error) else last);
    }
  }

  /** Objects are applied in render order with none skipped: what has been
      applied is always a prefix of the objects, and it includes the first
      object unless setting its owner reference fails. */
  lemma AppliedInOrder(objs: seq<Obj>, ownerRef: seq<Outcome>, apply: seq<Outcome>)
    requires |ownerRef| == |objs| == |apply|
    ensures Run(objs, ownerRef, apply).applied <= objs
    ensures |objs| > 0 && !OwnerRefFails(objs, ownerRef, 0) ==>
      |Run(objs, ownerRef, apply).applied| > 0 && Run(objs, ownerRef, apply).applied[0] == objs[0]
  {
    assert objs[..0] == [];
    RunFromInOrder(objs, ownerRef, apply, 0, None);
    if |objs| > 0 && !OwnerRefFails(objs, ownerRef, 0) {
      assert [] + [objs[0]] == objs[..1];
      RunFromInOrder(objs, ownerRef, apply, 1, if Degrading(objs, apply, 0) then Some(apply[0].error) else None);
    }
  }

  /** The reference definition picks the last degrading object. */
  lemma {:induction false} LastDegradingIsLast(objs: seq<Obj>, apply: seq<Outcome>, n: nat)
    requires n <= |objs| == |apply|
    ensures LastDegrading(objs, apply, n).None? <==> forall j :: 0 <= j < n ==> !Degrading(objs, apply, j)
    ensures LastDegrading(objs, apply, n).Some? ==>
      exists k :: 0 <= k < n && Degrading(objs, apply, k) && LastDegrading(objs, apply, n).value == apply[k].error
        && forall j :: k < j < n ==> !Degrading(objs, apply, j)
  {
    if n > 0 {
      LastDegradingIsLast(objs, apply, n - 1);
    }
  }

  /** A degrading object makes the surfaced error present, and it is that
      object's error when no later object degrades. */
  lemma {:induction false} LastDegradingAt(objs: seq<Obj>, apply: seq<Outcome>, n: nat, k: nat)
    requires k < n <= |objs| == |apply| && Degrading(objs, apply, k)
    ensures LastDegrading(objs, apply, n).Some?
    ensures (forall j :: k < j < n ==> !Degrading(objs, apply, j)) ==> LastDegrading(objs, apply, n) == Some(apply[k].error)
  {
    if n - 1 != k && !Degrading(objs, apply, n - 1) {
      LastDegradingAt(objs, apply, n - 1, k);
    }
  }

  /** Failures of objects carrying the ignore-errors annotation never count:
      changing the apply outcome of such an object changes nothing. */
  lemma {:induction false} IgnoredFailureIrrelevant(objs: seq<Obj>, apply: seq<Outcome>, n: nat, i: nat, o: Outcome)
    requires n <= |objs| == |apply| && i < |objs| && Ignored(objs[i])
    ensures LastDegrading(objs, apply[i := o], n) == LastDegrading(objs, apply, n)
  {
    if n > 0 {
      IgnoredFailureIrrelevant(objs, apply, n - 1, i, o);
    }
  }

  /** The apply loop over the (post-processed) objects. */
  method ApplyObjects(objs: array<Obj>, ownerRef: seq<Outcome>, apply: seq<Outcome>) returns (run: ApplyRun)
    requires |ownerRef| == objs.Length == |apply|
    ensures run == Run(objs[..], ownerRef, apply)
  {
    var applied: seq<Obj> := [];
    var degradedErr: Option<ApiError> := None;
    var i := 0;
    while i < objs.Length
      invariant 0 <= i <= objs.Length
      invariant RunFrom(objs[..], ownerRef, apply, i, applied, degradedErr) == Run(objs[..], ownerRef, apply)
    {
      var obj := objs[i];
      if obj.clusterName == "" && ownerRef[i].Fail? {
        return ApplyRun(applied, Aborted(i, ownerRef[i].error));
      }
      applied := applied + [obj];
      if apply[i].Fail? {
        if IgnoreObjectErrorAnnotation in obj.annotations {
          i := i + 1;
          continue;
        }
        degradedErr := Some(apply[i].error);
      }
      i := i + 1;
    }
    run := ApplyRun(applied, Finished(degradedErr));
  }
}
