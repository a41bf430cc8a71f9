/** NPPImage_32fC2: a two-channel, 32-bit float image in pitched device
    memory. The image either owns the memory or borrows it. It has a
    region of interest (ROI), and each operation forwards one native NPP
    call. The fields below are the ones of its base class NPPImageBase
    that this class assigns or passes to native code. */
module NppImage32fC2 {
  import opened Results
  import opened NppNative

  /** The state of an image that its operations read. */
  datatype ImageView = ImageView(
    devPtr: CUdeviceptr,
    devPtrRoi: CUdeviceptr,
    sizeOriginal: NppiSize,
    sizeRoi: NppiSize,
    pointRoi: NppiPoint,
    pitch: int,
    channels: int,
    typeSize: int,
    isOwner: bool)

  /** The ROI is the whole image: it has the full size, starts at (0, 0),
      and its pointer is the base pointer. */
  predicate FullRoi(v: ImageView)
  {
    v.devPtrRoi == v.devPtr && v.sizeRoi == v.sizeOriginal && v.pointRoi == NppiPoint(0, 0)
  }

  /** Two channels of `float`, four bytes each. */
  predicate IsFloat2(v: ImageView)
  {
    v.channels == 2 && v.typeSize == 4
  }

  /** The image built over memory that already exists, as the
      (devPtr, width, height, pitch, isOwner) constructor builds it. */
  function AdoptedView(devPtr: CUdeviceptr, width: int, height: int, pitch: int, isOwner: bool): (v: ImageView)
    ensures FullRoi(v) && IsFloat2(v)
    ensures v.devPtr == devPtr && v.sizeOriginal == NppiSize(width, height) && v.pitch == pitch
    ensures v.isOwner == isOwner
  {
    ImageView(devPtr, devPtr, NppiSize(width, height), NppiSize(width, height), NppiPoint(0, 0),
              pitch, 2, 4, isOwner)
  }

  /** The image built by the allocating constructor. `mallocPtr` and
      `mallocPitch` are what nppiMalloc_32f_C2 returned. A null pointer is a
      "Device allocation error". Otherwise the image is the owning image over
      the new memory. */
  function AllocatedView(nWidthPixels: int, nHeightPixels: int, mallocPtr: CUdeviceptr, mallocPitch: int): (r: Result<ImageView, NppException>)
    ensures r.Err? <==> mallocPtr.pointer == 0
    ensures r.Err? ==> r.error == NppMessage(DeviceAllocationError)
    ensures r.Ok? ==> r.value == AdoptedView(mallocPtr, nWidthPixels, nHeightPixels, mallocPitch, true)
    ensures r.Ok? ==> FullRoi(r.value) && IsFloat2(r.value) && r.value.isOwner
  {
    if mallocPtr.pointer == 0 then Err(NppMessage(DeviceAllocationError))
    else Ok(AdoptedView(mallocPtr, nWidthPixels, nHeightPixels, mallocPitch, true))
  }

  /** ToCudaPitchedDeviceVariable: the base pointer, the full width and
      height, and the pitch. The ROI is dropped. */
  function PitchedVariableOf(v: ImageView): (p: CudaPitchedDeviceVariable)
    ensures p.devicePointer == v.devPtr && p.pitch == v.pitch
    ensures p.width == v.sizeOriginal.width && p.height == v.sizeOriginal.height
  {
    CudaPitchedDeviceVariable(v.devPtr, v.sizeOriginal.width, v.sizeOriginal.height, v.pitch)
  }

  /** Converting to a pitched variable depends on nothing but the base
      pointer, the full size and the pitch: not on the ROI, not on ownership. */
  lemma PitchedVariableIgnoresRoi(v: ImageView, w: ImageView)
    requires v.devPtr == w.devPtr && v.sizeOriginal == w.sizeOriginal && v.pitch == w.pitch
    ensures PitchedVariableOf(v) == PitchedVariableOf(w)
  {
  }

  /** The conversion is a reinterpretation. A pitched variable wrapped as a
      non-owning image converts back to itself. An image whose ROI is the
      whole image is, apart from ownership, the adoption of its own pitched
      variable. */
  lemma PitchedRoundTrip(p: CudaPitchedDeviceVariable, v: ImageView)
    ensures PitchedVariableOf(AdoptedView(p.devicePointer, p.width, p.height, p.pitch, false)) == p
    ensures FullRoi(v) && IsFloat2(v) ==>
              var q := PitchedVariableOf(v);
              AdoptedView(q.devicePointer, q.width, q.height, q.pitch, v.isOwner) == v
  {
  }

  /** The native events of one error-metric call, the status left in the
      image and how the call ends. */
  datatype Run = Run(events: seq<NativeEvent>, finalStatus: NppStatus, outcome: Outcome)

  /** The error-metric call: the ROI pointers and pitches of both images, and
      the ROI size of the first. */
  function MetricCall(metric: ErrorMetric, src1: ImageView, src2: ImageView, pError: CUdeviceptr, buffer: CUdeviceptr): NppCall
  {
    Metric32fC2R(metric, src1.devPtrRoi, src1.pitch, src2.devPtrRoi, src2.pitch, src1.sizeRoi, pError, buffer)
  }

  /** An error metric with a buffer the caller supplies: query the required
      size for the ROI, refuse a buffer that is too small before any native
      call, then compute. `queryStatus`/`querySize` are what the size query
      returned; `opStatus` is what the computation returns. */
  function CallerBufferRun(metric: ErrorMetric, src1: ImageView, src2: ImageView, pError: CUdeviceptr,
                           buffer: CudaDeviceVariable, queryStatus: NppStatus, querySize: int,
                           opStatus: NppStatus): (r: Run)
    ensures |r.events| >= 1 && r.events[0] == Native(BufferHostSize32fC2R(metric, src1.sizeRoi))
    // the computation reaches native code if and only if the buffer is large enough
    ensures DispatchesMetric(r.events) <==> queryStatus == NoError && querySize <= buffer.size
    ensures r.outcome == Raised(NppMessage(BufferTooSmall)) <==> queryStatus == NoError && querySize > buffer.size
    ensures r.outcome.Completed? <==> queryStatus == NoError && querySize <= buffer.size && opStatus == NoError
    ensures forall e | e in r.events && e.Native? && e.call.Metric32fC2R? ::
              e.call == MetricCall(metric, src1, src2, pError, buffer.devicePointer)
    ensures r.finalStatus == if DispatchesMetric(r.events) then opStatus else queryStatus
    // a refused or failed query issues nothing after the query itself
    ensures !DispatchesMetric(r.events) ==> |r.events| == 1
    // a large enough buffer: the query, then the computation on that buffer
    ensures queryStatus == NoError && querySize <= buffer.size ==>
              r.events == [Native(BufferHostSize32fC2R(metric, src1.sizeRoi)),
                           Native(MetricCall(metric, src1, src2, pError, buffer.devicePointer))]
    // the caller's buffer is used as it is: no scratch is ever allocated
    ensures forall e | e in r.events :: !e.ScratchAlloc?
    ensures OutstandingScratch(r.events) == 0
    ensures r.outcome == if queryStatus != NoError then CheckNppStatus(queryStatus)
                         else if querySize > buffer.size then Raised(NppMessage(BufferTooSmall))
                         else CheckNppStatus(opStatus)
  {
    var query := Native(BufferHostSize32fC2R(metric, src1.sizeRoi));
    if queryStatus != NoError then
      Run([query], queryStatus, CheckNppStatus(queryStatus))
    else if querySize > buffer.size then
      Run([query], queryStatus, Raised(NppMessage(BufferTooSmall)))
    else
      var call := Native(MetricCall(metric, src1, src2, pError, buffer.devicePointer));
      var events := [query, call];
      assert events[1].call.Metric32fC2R?;
      assert OutstandingScratch(events) == 0 by {
        OutstandingScratchAppend([query], [call]);
        assert events == [query] + [call];
      }
      Run(events, opStatus, CheckNppStatus(opStatus))
  }

  /** The four events of an internally buffered error metric whose size
      query succeeded. */
  function InternalBufferEvents(metric: ErrorMetric, src1: ImageView, src2: ImageView, pError: CUdeviceptr,
                                querySize: int, scratch: CUdeviceptr): seq<NativeEvent>
  {
    [Native(BufferHostSize32fC2R(metric, src1.sizeRoi)), ScratchAlloc(querySize, scratch),
     Native(MetricCall(metric, src1, src2, pError, scratch)), ScratchFree(scratch)]
  }

  /** An error metric with an internal buffer: query the required size,
      allocate exactly that much scratch at `scratch`, compute, free the
      scratch, and only then check the status. */
  function InternalBufferRun(metric: ErrorMetric, src1: ImageView, src2: ImageView, pError: CUdeviceptr,
                             queryStatus: NppStatus, querySize: int, scratch: CUdeviceptr,
                             opStatus: NppStatus): (r: Run)
    ensures |r.events| >= 1 && r.events[0] == Native(BufferHostSize32fC2R(metric, src1.sizeRoi))
    ensures DispatchesMetric(r.events) <==> queryStatus == NoError
    // the scratch buffer has exactly the queried size and is the one passed to native code
    ensures queryStatus == NoError ==> ScratchAlloc(querySize, scratch) in r.events
    ensures forall e | e in r.events && e.ScratchAlloc? :: e.bytes == querySize
    ensures forall e | e in r.events && e.Native? && e.call.Metric32fC2R? ::
              e.call == MetricCall(metric, src1, src2, pError, scratch)
    // the scratch buffer is freed last, whatever status the computation reported
    ensures queryStatus == NoError ==> r.events[|r.events| - 1] == ScratchFree(scratch)
    // a failed query allocates nothing and computes nothing
    ensures queryStatus != NoError ==> r.events == [Native(BufferHostSize32fC2R(metric, src1.sizeRoi))]
    // on success the order is query, allocate, compute, free
    ensures queryStatus == NoError ==>
              |r.events| == 4 && r.events[1] == ScratchAlloc(querySize, scratch)
              && r.events[2] == Native(MetricCall(metric, src1, src2, pError, scratch))
    ensures OutstandingScratch(r.events) == 0
    ensures r.outcome == CheckNppStatus(if queryStatus == NoError then opStatus else queryStatus)
    ensures r.finalStatus == if queryStatus == NoError then opStatus else queryStatus
  {
    var query := Native(BufferHostSize32fC2R(metric, src1.sizeRoi));
    if queryStatus != NoError then
      Run([query], queryStatus, CheckNppStatus(queryStatus))
    else
      var events := InternalBufferEvents(metric, src1, src2, pError, querySize, scratch);
      assert events[2].call.Metric32fC2R?;
      assert OutstandingScratch(events) == 0 by {
        OutstandingScratchAppend(events[..2], events[2..]);
        OutstandingScratchAppend([events[0]], [events[1]]);
        OutstandingScratchAppend([events[2]], [events[3]]);
        assert events == events[..2] + events[2..];
        assert events[..2] == [events[0]] + [events[1]];
        assert events[2..] == [events[2]] + [events[3]];
      }
      Run(events, opStatus, CheckNppStatus(opStatus))
  }

  /** The success path of InternalBufferRun unfolded, for MetricWithInternalBuffer. */
  lemma InternalBufferRunDispatches(metric: ErrorMetric, src1: ImageView, src2: ImageView, pError: CUdeviceptr,
                                    querySize: int, scratch: CUdeviceptr, opStatus: NppStatus)
    ensures var r := InternalBufferRun(metric, src1, src2, pError, NoError, querySize, scratch, opStatus);
            r.events == InternalBufferEvents(metric, src1, src2, pError, querySize, scratch)
            && r.finalStatus == opStatus && r.outcome == CheckNppStatus(opStatus)
  {
  }

  class NppImage32fC2 {
    var devPtr: CUdeviceptr
    var devPtrRoi: CUdeviceptr
    var sizeOriginal: NppiSize
    var sizeRoi: NppiSize
    var pointRoi: NppiPoint
    var pitch: int
    var channels: int
    var typeSize: int
    var isOwner: bool
    /** The status of the last native call. */
    var status: NppStatus
    /** The native events issued through this image, oldest first. */
    ghost var issued: seq<NativeEvent>

    function View(): ImageView
      reads this
    {
      ImageView(devPtr, devPtrRoi, sizeOriginal, sizeRoi, pointRoi, pitch, channels, typeSize, isOwner)
    }

    /** A two-channel float image that has no scratch buffer left allocated. */
    ghost predicate Valid()
      reads this
    {
      IsFloat2(View()) && OutstandingScratch(issued) == 0
    }

    /** NPPImage_32fC2(devPtr, width, height, pitch, isOwner): wraps memory
        that already exists; no allocation. */
    constructor FromDevicePointer(devPtr: CUdeviceptr, width: int, height: int, pitch: int, isOwner: bool)
      ensures Valid() && View() == AdoptedView(devPtr, width, height, pitch, isOwner)
      ensures status == NoError && issued == []
    {
      this.devPtr := devPtr;
      devPtrRoi := devPtr;
      sizeOriginal := NppiSize(width, height);
      sizeRoi := NppiSize(width, height);
      // the source's constructors leave _pointRoi and status at the zero
      // defaults of NPPImageBase's fields
      pointRoi := NppiPoint(0, 0);
      this.pitch := pitch;
      channels := 2;
      this.isOwner := isOwner;
      typeSize := 4;
      status := NoError;
      issued := [];
    }

    /** NPPImage_32fC2(nWidthPixels, nHeightPixels): allocates pitched device
        memory and owns it. `mallocPtr` and `mallocPitch` are what
        nppiMalloc_32f_C2 returned. */
    static method Allocate(nWidthPixels: int, nHeightPixels: int, mallocPtr: CUdeviceptr, mallocPitch: int)
      returns (r: Result<NppImage32fC2, NppException>)
      ensures var expected := AllocatedView(nWidthPixels, nHeightPixels, mallocPtr, mallocPitch);
              match expected
              case Err(e) => r == Err(e)
              case Ok(v) =>
                && r.Ok? && fresh(r.value) && r.value.Valid() && r.value.View() == v
                && r.value.status == NoError
                && r.value.issued == [Native(Malloc32fC2(nWidthPixels, nHeightPixels))]
    {
      if mallocPtr.pointer == 0 {
        return Err(NppMessage(DeviceAllocationError));
      }
      var img := new NppImage32fC2.FromDevicePointer(mallocPtr, nWidthPixels, nHeightPixels, mallocPitch, true);
      img.issued := [Native(Malloc32fC2(nWidthPixels, nHeightPixels))];
      return Ok(img);
    }

    /** NPPImage_32fC2(NppiSize size): the allocating constructor for
        size.width by size.height. */
    static method AllocateSize(size: NppiSize, mallocPtr: CUdeviceptr, mallocPitch: int)
      returns (r: Result<NppImage32fC2, NppException>)
      ensures var expected := AllocatedView(size.width, size.height, mallocPtr, mallocPitch);
              match expected
              case Err(e) => r == Err(e)
              case Ok(v) =>
                && r.Ok? && fresh(r.value) && r.value.Valid() && r.value.View() == v
                && r.value.status == NoError
                && r.value.issued == [Native(Malloc32fC2(size.width, size.height))]
    {
      r := Allocate(size.width, size.height, mallocPtr, mallocPitch);
    }

    /** NPPImage_32fC2(devPtr, width, height, pitch): wraps existing memory
        without taking ownership. */
    static method FromDevicePointerNotOwner(devPtr: CUdeviceptr, width: int, height: int, pitch: int)
      returns (img: NppImage32fC2)
      ensures fresh(img) && img.Valid() && img.View() == AdoptedView(devPtr, width, height, pitch, false)
      ensures !img.isOwner && img.status == NoError && img.issued == []
    {
      img := new NppImage32fC2.FromDevicePointer(devPtr, width, height, pitch, false);
    }

    /** NPPImage_32fC2(NPPImageBase image): a second, non-owning image over the
        memory of `image`, with its full size and pitch and without its ROI. */
    static method FromImage(image: NppImage32fC2) returns (img: NppImage32fC2)
      ensures fresh(img) && img.Valid()
      ensures img.View() == AdoptedView(image.devPtr, image.sizeOriginal.width, image.sizeOriginal.height, image.pitch, false)
      ensures !img.isOwner && img.status == NoError && img.issued == []
    {
      img := new NppImage32fC2.FromDevicePointer(image.devPtr, image.sizeOriginal.width, image.sizeOriginal.height,
                                                 image.pitch, false);
    }

    /** NPPImage_32fC2(devPtr, size, pitch, isOwner). */
    static method FromDevicePointerSize(devPtr: CUdeviceptr, size: NppiSize, pitch: int, isOwner: bool)
      returns (img: NppImage32fC2)
      ensures fresh(img) && img.Valid() && img.View() == AdoptedView(devPtr, size.width, size.height, pitch, isOwner)
      ensures img.status == NoError && img.issued == []
    {
      img := new NppImage32fC2.FromDevicePointer(devPtr, size.width, size.height, pitch, isOwner);
    }

    /** NPPImage_32fC2(devPtr, size, pitch): wraps existing memory without
        taking ownership. */
    static method FromDevicePointerSizeNotOwner(devPtr: CUdeviceptr, size: NppiSize, pitch: int)
      returns (img: NppImage32fC2)
      ensures fresh(img) && img.Valid() && img.View() == AdoptedView(devPtr, size.width, size.height, pitch, false)
      ensures !img.isOwner && img.status == NoError && img.issued == []
    {
      img := FromDevicePointerNotOwner(devPtr, size.width, size.height, pitch);
    }

    /** ToCudaPitchedDeviceVariable: the same memory as a pitched variable,
        without ROI information and without copying. */
    method ToCudaPitchedDeviceVariable() returns (p: CudaPitchedDeviceVariable)
      ensures p == PitchedVariableOf(View())
    {
      p := PitchedVariableOf(View());
    }

    /** Issue one NPP call and keep its status. */
    method Issue(call: NppCall, nativeStatus: NppStatus)
      requires Valid()
      modifies this`status, this`issued
      ensures Valid()
      ensures issued == old(issued) + [Native(call)] && status == nativeStatus
    {
      OutstandingScratchAppend(issued, [Native(call)]);
      issued := issued + [Native(call)];
      status := nativeStatus;
    }

    /** AlphaComp: both sources and the destination by their ROI pointers,
        over this image's ROI size. */
    method AlphaComp(src2: NppImage32fC2, dest: NppImage32fC2, nppAlphaOp: NppiAlphaOp, nativeStatus: NppStatus)
      returns (o: Outcome)
      requires Valid()
      modifies this`status, this`issued
      ensures Valid()
      ensures issued == old(issued) + [Native(AlphaComp32fAC1R(devPtrRoi, pitch, src2.devPtrRoi, src2.pitch,
                                                               dest.devPtrRoi, dest.pitch, sizeRoi, nppAlphaOp))]
      ensures status == nativeStatus && o == CheckNppStatus(nativeStatus)
    {
      Issue(AlphaComp32fAC1R(devPtrRoi, pitch, src2.devPtrRoi, src2.pitch, dest.devPtrRoi, dest.pitch, sizeRoi, nppAlphaOp),
            nativeStatus);
      o := CheckNppStatus(status);
    }

    /** Set: every pixel of the ROI, by the ROI pointer and ROI size. */
    method Set(nValue: seq<real>, nativeStatus: NppStatus) returns (o: Outcome)
      requires Valid()
      modifies this`status, this`issued
      ensures Valid()
      ensures issued == old(issued) + [Native(Set32fC2R(nValue, devPtrRoi, pitch, sizeRoi))]
      ensures status == nativeStatus && o == CheckNppStatus(nativeStatus)
    {
      Issue(Set32fC2R(nValue, devPtrRoi, pitch, sizeRoi), nativeStatus);
      o := CheckNppStatus(status);
    }

    /** The scratch size query of `metric` for this image's ROI size. The
        image keeps the query's status; a failing status raises. */
    method GetBufferHostSize(metric: ErrorMetric, nativeStatus: NppStatus, nativeSize: int)
      returns (r: Result<int, NppException>)
      requires Valid()
      modifies this`status, this`issued
      ensures Valid()
      ensures issued == old(issued) + [Native(BufferHostSize32fC2R(metric, sizeRoi))]
      ensures status == nativeStatus
      ensures r.Ok? <==> nativeStatus == NoError
      ensures r.Ok? ==> r.value == nativeSize
      ensures r.Err? ==> r.error == NppStatusError(nativeStatus)
    {
      Issue(BufferHostSize32fC2R(metric, sizeRoi), nativeStatus);
      var checked := CheckNppStatus(status);
      if checked.Raised? {
        return Err(checked.error);
      }
      return Ok(nativeSize);
    }

    /** An error metric against `src2` with a scratch buffer allocated and
        freed inside the call. */
    method MetricWithInternalBuffer(metric: ErrorMetric, src2: NppImage32fC2, pError: CudaDeviceVariable,
                                    queryStatus: NppStatus, querySize: int, scratch: CUdeviceptr,
                                    opStatus: NppStatus)
      returns (o: Outcome)
      requires Valid()
      modifies this`status, this`issued
      ensures Valid()
      ensures var run := InternalBufferRun(metric, View(), src2.View(), pError.devicePointer,
                                           queryStatus, querySize, scratch, opStatus);
              issued == old(issued) + run.events && status == run.finalStatus && o == run.outcome
    {
      ghost var v1, v2 := View(), src2.View();
      var bufferSize := GetBufferHostSize(metric, queryStatus, querySize);
      if bufferSize.Err? {
        return Raised(bufferSize.error);
      }
      // new CudaDeviceVariable<byte>(bufferSize)
      issued := issued + [ScratchAlloc(bufferSize.value, scratch)];
      status := opStatus;
      issued := issued + [Native(MetricCall(metric, View(), src2.View(), pError.devicePointer, scratch))];
      // buffer.Dispose(), before the status check
      issued := issued + [ScratchFree(scratch)];
      ghost var events := InternalBufferEvents(metric, v1, v2, pError.devicePointer, querySize, scratch);
      InternalBufferRunDispatches(metric, v1, v2, pError.devicePointer, querySize, scratch, opStatus);
      assert issued == old(issued) + events;
      OutstandingScratchAppend(old(issued), events);
      o := CheckNppStatus(status);
    }

    /** An error metric against `src2` with a scratch buffer the caller
        supplies. A buffer smaller than the queried size is refused before
        the computation is dispatched. */
    method MetricWithCallerBuffer(metric: ErrorMetric, src2: NppImage32fC2, pError: CudaDeviceVariable,
                                  buffer: CudaDeviceVariable, queryStatus: NppStatus, querySize: int,
                                  opStatus: NppStatus)
      returns (o: Outcome)
      requires Valid()
      modifies this`status, this`issued
      ensures Valid()
      ensures var run := CallerBufferRun(metric, View(), src2.View(), pError.devicePointer, buffer,
                                         queryStatus, querySize, opStatus);
              issued == old(issued) + run.events && status == run.finalStatus && o == run.outcome
    {
      var bufferSize := GetBufferHostSize(metric, queryStatus, querySize);
      if bufferSize.Err? {
        return Raised(bufferSize.error);
      }
      if bufferSize.value > buffer.size {
        return Raised(NppMessage(BufferTooSmall));
      }
      Issue(MetricCall(metric, View(), src2.View(), pError.devicePointer, buffer.devicePointer), opStatus);
      o := CheckNppStatus(status);
    }

    /** MaxError(src2, pError): internally allocated scratch buffer. */
    method MaxError(src2: NppImage32fC2, pError: CudaDeviceVariable, queryStatus: NppStatus, querySize: int,
                    scratch: CUdeviceptr, opStatus: NppStatus)
      returns (o: Outcome)
      requires Valid()
      modifies this`status, this`issued
      ensures Valid()
      ensures var run := InternalBufferRun(MaximumError, View(), src2.View(), pError.devicePointer,
                                           queryStatus, querySize, scratch, opStatus);
              issued == old(issued) + run.events && status == run.finalStatus && o == run.outcome
    {
      o := MetricWithInternalBuffer(MaximumError, src2, pError, queryStatus, querySize, scratch, opStatus);
    }

    /** MaxError(src2, pError, buffer): caller-supplied scratch buffer. */
    method MaxErrorWithBuffer(src2: NppImage32fC2, pError: CudaDeviceVariable, buffer: CudaDeviceVariable,
                              queryStatus: NppStatus, querySize: int, opStatus: NppStatus)
      returns (o: Outcome)
      requires Valid()
      modifies this`status, this`issued
      ensures Valid()
      ensures var run := CallerBufferRun(MaximumError, View(), src2.View(), pError.devicePointer, buffer,
                                         queryStatus, querySize, opStatus);
              issued == old(issued) + run.events && status == run.finalStatus && o == run.outcome
    {
      o := MetricWithCallerBuffer(MaximumError, src2, pError, buffer, queryStatus, querySize, opStatus);
    }

    /** MaxErrorGetBufferHostSize. */
    method MaxErrorGetBufferHostSize(nativeStatus: NppStatus, nativeSize: int) returns (r: Result<int, NppException>)
      requires Valid()
      modifies this`status, this`issued
      ensures Valid()
      ensures issued == old(issued) + [Native(BufferHostSize32fC2R(MaximumError, sizeRoi))]
      ensures status == nativeStatus
      ensures r == if nativeStatus == NoError then Ok(nativeSize) else Err(NppStatusError(nativeStatus))
    {
      r := GetBufferHostSize(MaximumError, nativeStatus, nativeSize);
    }

    /** AverageError(src2, pError): internally allocated scratch buffer. */
    method AverageError(src2: NppImage32fC2, pError: CudaDeviceVariable, queryStatus: NppStatus, querySize: int,
                        scratch: CUdeviceptr, opStatus: NppStatus)
      returns (o: Outcome)
      requires Valid()
      modifies this`status, this`issued
      ensures Valid()
      ensures var run := InternalBufferRun(ErrorMetric.AverageError, View(), src2.View(), pError.devicePointer,
                                           queryStatus, querySize, scratch, opStatus);
              issued == old(issued) + run.events && status == run.finalStatus && o == run.outcome
    {
      o := MetricWithInternalBuffer(ErrorMetric.AverageError, src2, pError, queryStatus, querySize, scratch, opStatus);
    }

    /** AverageError(src2, pError, buffer): caller-supplied scratch buffer. */
    method AverageErrorWithBuffer(src2: NppImage32fC2, pError: CudaDeviceVariable, buffer: CudaDeviceVariable,
                                  queryStatus: NppStatus, querySize: int, opStatus: NppStatus)
      returns (o: Outcome)
      requires Valid()
      modifies this`status, this`issued
      ensures Valid()
      ensures var run := CallerBufferRun(ErrorMetric.AverageError, View(), src2.View(), pError.devicePointer, buffer,
                                         queryStatus, querySize, opStatus);
              issued == old(issued) + run.events && status == run.finalStatus && o == run.outcome
    {
      o := MetricWithCallerBuffer(ErrorMetric.AverageError, src2, pError, buffer, queryStatus, querySize, opStatus);
    }

    /** AverageErrorGetBufferHostSize. */
    method AverageErrorGetBufferHostSize(nativeStatus: NppStatus, nativeSize: int) returns (r: Result<int, NppException>)
      requires Valid()
      modifies this`status, this`issued
      ensures Valid()
      ensures issued == old(issued) + [Native(BufferHostSize32fC2R(ErrorMetric.AverageError, sizeRoi))]
      ensures status == nativeStatus
      ensures r == if nativeStatus == NoError then Ok(nativeSize) else Err(NppStatusError(nativeStatus))
    {
      r := GetBufferHostSize(ErrorMetric.AverageError, nativeStatus, nativeSize);
    }

    /** MaximumRelativeError(src2, pError): internally allocated scratch buffer. */
    method MaximumRelativeError(src2: NppImage32fC2, pError: CudaDeviceVariable, queryStatus: NppStatus,
                                querySize: int, scratch: CUdeviceptr, opStatus: NppStatus)
      returns (o: Outcome)
      requires Valid()
      modifies this`status, this`issued
      ensures Valid()
      ensures var run := InternalBufferRun(ErrorMetric.MaximumRelativeError, View(), src2.View(), pError.devicePointer,
                                           queryStatus, querySize, scratch, opStatus);
              issued == old(issued) + run.events && status == run.finalStatus && o == run.outcome
    {
      o := MetricWithInternalBuffer(ErrorMetric.MaximumRelativeError, src2, pError, queryStatus, querySize,
                                    scratch, opStatus);
    }

    /** MaximumRelativeError(src2, pError, buffer): caller-supplied scratch buffer. */
    method MaximumRelativeErrorWithBuffer(src2: NppImage32fC2, pError: CudaDeviceVariable, buffer: CudaDeviceVariable,
                                          queryStatus: NppStatus, querySize: int, opStatus: NppStatus)
      returns (o: Outcome)
      requires Valid()
      modifies this`status, this`issued
      ensures Valid()
      ensures var run := CallerBufferRun(ErrorMetric.MaximumRelativeError, View(), src2.View(), pError.devicePointer,
                                         buffer, queryStatus, querySize, opStatus);
              issued == old(issued) + run.events && status == run.finalStatus && o == run.outcome
    {
      o := MetricWithCallerBuffer(ErrorMetric.MaximumRelativeError, src2, pError, buffer, queryStatus, querySize,
                                  opStatus);
    }

    /** MaximumRelativeErrorGetBufferHostSize. */
    method MaximumRelativeErrorGetBufferHostSize(nativeStatus: NppStatus, nativeSize: int)
      returns (r: Result<int, NppException>)
      requires Valid()
      modifies this`status, this`issued
      ensures Valid()
      ensures issued == old(issued) + [Native(BufferHostSize32fC2R(ErrorMetric.MaximumRelativeError, sizeRoi))]
      ensures status == nativeStatus
      ensures r == if nativeStatus == NoError then Ok(nativeSize) else Err(NppStatusError(nativeStatus))
    {
      r := GetBufferHostSize(ErrorMetric.MaximumRelativeError, nativeStatus, nativeSize);
    }

    /** AverageRelativeError(src2, pError): internally allocated scratch buffer. */
    method AverageRelativeError(src2: NppImage32fC2, pError: CudaDeviceVariable, queryStatus: NppStatus,
                                querySize: int, scratch: CUdeviceptr, opStatus: NppStatus)
      returns (o: Outcome)
      requires Valid()
      modifies this`status, this`issued
      ensures Valid()
      ensures var run := InternalBufferRun(ErrorMetric.AverageRelativeError, View(), src2.View(), pError.devicePointer,
                                           queryStatus, querySize, scratch, opStatus);
              issued == old(issued) + run.events && status == run.finalStatus && o == run.outcome
    {
      o := MetricWithInternalBuffer(ErrorMetric.AverageRelativeError, src2, pError, queryStatus, querySize,
                                    scratch, opStatus);
    }

    /** AverageRelativeError(src2, pError, buffer): caller-supplied scratch buffer. */
    method AverageRelativeErrorWithBuffer(src2: NppImage32fC2, pError: CudaDeviceVariable, buffer: CudaDeviceVariable,
                                          queryStatus: NppStatus, querySize: int, opStatus: NppStatus)
      returns (o: Outcome)
      requires Valid()
      modifies this`status, this`issued
      ensures Valid()
      ensures var run := CallerBufferRun(ErrorMetric.AverageRelativeError, View(), src2.View(), pError.devicePointer,
                                         buffer, queryStatus, querySize, opStatus);
              issued == old(issued) + run.events && status == run.finalStatus && o == run.outcome
    {
      o := MetricWithCallerBuffer(ErrorMetric.AverageRelativeError, src2, pError, buffer, queryStatus, querySize,
                                  opStatus);
    }

    /** AverageRelativeErrorGetBufferHostSize. */
    method AverageRelativeErrorGetBufferHostSize(nativeStatus: NppStatus, nativeSize: int)
      returns (r: Result<int, NppException>)
      requires Valid()
      modifies this`status, this`issued
      ensures Valid()
      ensures issued == old(issued) + [Native(BufferHostSize32fC2R(ErrorMetric.AverageRelativeError, sizeRoi))]
      ensures status == nativeStatus
      ensures r == if nativeStatus == NoError then Ok(nativeSize) else Err(NppStatusError(nativeStatus))
    {
      r := GetBufferHostSize(ErrorMetric.AverageRelativeError, nativeStatus, nativeSize);
    }

    /** ColorTwist(dest, twistMatrix): the BASE pointers of this image and of
        `dest`, with this image's ROI size. */
    method ColorTwist(dest: NppImage32fC2, twistMatrix: seq<seq<real>>, nativeStatus: NppStatus) returns (o: Outcome)
      requires Valid()
      modifies this`status, this`issued
      ensures Valid()
      ensures issued == old(issued) + [Native(ColorTwist32fC2R(devPtr, pitch, dest.devPtr, dest.pitch, sizeRoi,
                                                               twistMatrix))]
      ensures status == nativeStatus && o == CheckNppStatus(nativeStatus)
    {
      Issue(ColorTwist32fC2R(devPtr, pitch, dest.devPtr, dest.pitch, sizeRoi, twistMatrix), nativeStatus);
      o := CheckNppStatus(status);
    }

    /** ColorTwist(aTwist), in place: the base pointer with the ROI size. */
    method ColorTwistInPlace(aTwist: seq<seq<real>>, nativeStatus: NppStatus) returns (o: Outcome)
      requires Valid()
      modifies this`status, this`issued
      ensures Valid()
      ensures issued == old(issued) + [Native(ColorTwist32fC2IR(devPtr, pitch, sizeRoi, aTwist))]
      ensures status == nativeStatus && o == CheckNppStatus(nativeStatus)
    {
      Issue(ColorTwist32fC2IR(devPtr, pitch, sizeRoi, aTwist), nativeStatus);
      o := CheckNppStatus(status);
    }

    /** FilterBorder: the source as the whole image (base pointer, full size)
        plus the ROI origin as offset, so that the border rule can read pixels
        outside the ROI; the destination by its ROI pointer and ROI size. */
    method FilterBorder(dest: NppImage32fC2, pKernel: CudaDeviceVariable, nKernelSize: NppiSize, oAnchor: NppiPoint,
                        eBorderType: NppiBorderType, nativeStatus: NppStatus)
      returns (o: Outcome)
      requires Valid()
      modifies this`status, this`issued
      ensures Valid()
      ensures issued == old(issued) + [Native(FilterBorder32fC2R(devPtr, pitch, sizeOriginal, pointRoi,
                                                                 dest.devPtrRoi, dest.pitch, dest.sizeRoi,
                                                                 pKernel.devicePointer, nKernelSize, oAnchor,
                                                                 eBorderType))]
      ensures status == nativeStatus && o == CheckNppStatus(nativeStatus)
    {
      Issue(FilterBorder32fC2R(devPtr, pitch, sizeOriginal, pointRoi, dest.devPtrRoi, dest.pitch, dest.sizeRoi,
                               pKernel.devicePointer, nKernelSize, oAnchor, eBorderType),
            nativeStatus);
      o := CheckNppStatus(status);
    }

    /** Filter: source and destination by their ROI pointers, over this
        image's ROI size. */
    method Filter(dst: NppImage32fC2, pKernel: CudaDeviceVariable, oKernelSize: NppiSize, oAnchor: NppiPoint,
                  nativeStatus: NppStatus)
      returns (o: Outcome)
      requires Valid()
      modifies this`status, this`issued
      ensures Valid()
      ensures issued == old(issued) + [Native(Filter32fC2R(devPtrRoi, pitch, dst.devPtrRoi, dst.pitch, sizeRoi,
                                                           pKernel.devicePointer, oKernelSize, oAnchor))]
      ensures status == nativeStatus && o == CheckNppStatus(nativeStatus)
    {
      Issue(Filter32fC2R(devPtrRoi, pitch, dst.devPtrRoi, dst.pitch, sizeRoi, pKernel.devicePointer, oKernelSize,
                         oAnchor),
            nativeStatus);
      o := CheckNppStatus(status);
    }
  }
}
