/** CudaSparseBsrsm2Info: owns one bsrsm2Info handle of the cuSPARSE
    library. The handle is created by cusparseCreateBsrsm2Info and destroyed
    by cusparseDestroyBsrsm2Info. */
module SparseBsrsm2Info {
  import opened Results
  import opened SparseLifecycle

  /** bsrsm2Info: the opaque native handle. */
  datatype Bsrsm2Handle = Bsrsm2Handle(handle: int)

  class CudaSparseBsrsm2Info {
    /** cusparseCreateBsrsm2Info / cusparseDestroyBsrsm2Info. */
    const native: InfoNative<Bsrsm2Handle>
    var info: Bsrsm2Handle
    var res: CusparseStatus
    var disposed: bool
    /** How many times cusparseDestroyBsrsm2Info has been called. */
    ghost var destroyCalls: nat
    /** How many not-disposed warnings the finalizer path has written. */
    ghost var warnings: nat

    ghost function State(): InfoState
      reads this
    {
      InfoState(disposed, res, destroyCalls, warnings)
    }

    /** The wrapper holds the handle native creation produced, and has
        destroyed it once if disposed and never otherwise. */
    ghost predicate Valid()
      reads this
    {
      Consistent(State()) && info == native.create().1
    }

    /** The field assignments of the constructor: create the handle and
        remember the status. The status check is in `New`. */
    constructor (native: InfoNative<Bsrsm2Handle>)
      ensures Valid() && this.native == native
      ensures res == native.create().0
      ensures !disposed && destroyCalls == 0 && warnings == 0
    {
      this.native := native;
      var created := native.create();
      info := created.1;
      res := created.0;
      disposed := false;
      destroyCalls := 0;
      warnings := 0;
    }

    /** `new CudaSparseBsrsm2Info()`: construction succeeds only when native
        creation reports Success, and otherwise fails with a
        CudaSparseException carrying that status. */
    static method New(native: InfoNative<Bsrsm2Handle>) returns (r: Result<CudaSparseBsrsm2Info, CudaSparseException>)
      ensures r.Ok? <==> native.create().0 == Success
      ensures r.Err? ==> r.error == CudaSparseException(native.create().0)
      ensures r.Ok? ==> fresh(r.value) && r.value.Valid() && r.value.native == native
      ensures r.Ok? ==> r.value.State() == InfoState(false, Success, 0, 0)
    {
      var x := new CudaSparseBsrsm2Info(native);
      if x.res != Success {
        return Err(CudaSparseException(x.res));
      }
      return Ok(x);
    }

    /** Dispose(): the explicit release. After it the object is disposed and
        the handle has been destroyed exactly once over the object's life. */
    method Dispose()
      requires Valid()
      modifies this
      ensures Valid() && info == old(info)
      ensures State() == DisposeStep(old(State()), true, native.destroy(info))
      ensures disposed && destroyCalls == 1
    {
      DisposeCore(true);
    }

    /** Dispose(bool fDisposing). The destroy runs only on the explicit path
        of a live object, and a failing destroy status is ignored. The
        finalizer path only warns about a live object. */
    method DisposeCore(fDisposing: bool)
      requires Valid()
      modifies this
      ensures Valid() && info == old(info)
      ensures State() == DisposeStep(old(State()), fDisposing, native.destroy(info))
    {
      if fDisposing && !disposed {
        // the status of the destroy is stored but never checked
        res := native.destroy(info);
        destroyCalls := destroyCalls + 1;
        disposed := true;
      }
      if !fDisposing && !disposed {
        warnings := warnings + 1;
      }
    }

    /** The finalizer: Dispose(false). It never destroys the handle and never
        changes `disposed`; it warns exactly when the object is still live. */
    method Finalize()
      requires Valid()
      modifies this
      ensures Valid() && info == old(info)
      ensures State() == DisposeStep(old(State()), false, native.destroy(info))
      ensures disposed == old(disposed) && destroyCalls == old(destroyCalls) && res == old(res)
      ensures warnings == if old(disposed) then old(warnings) else old(warnings) + 1
    {
      DisposeCore(false);
    }

    /** The Bsrsm2Info getter: the handle that native creation produced. */
    function Bsrsm2Info(): (h: Bsrsm2Handle)
      requires Valid()
      reads this
      ensures h == native.create().1
    {
      info
    }
  }
}
