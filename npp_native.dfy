/** The NPP types that an image wrapper passes to native code, the native
    calls it makes, and the scratch-buffer bookkeeping around them. Native
    results (statuses, sizes, pointers) are inputs of the model. */
module NppNative {

  datatype NppiSize = NppiSize(width: int, height: int)

  datatype NppiPoint = NppiPoint(x: int, y: int)

  /** CUdeviceptr: a device address; 0 is the null pointer. */
  datatype CUdeviceptr = CUdeviceptr(pointer: nat)

  /** NppStatus: NoError, or any other status the library reports. */
  datatype NppStatus = NoError | Other(code: int)

  datatype NppiAlphaOp = NppiAlphaOp(code: int)

  datatype NppiBorderType = NppiBorderType(code: int)

  /** A CudaDeviceVariable as the image wrapper sees it: a device pointer
      and a size in elements. */
  datatype CudaDeviceVariable = CudaDeviceVariable(devicePointer: CUdeviceptr, size: nat)

  /** A CudaPitchedDeviceVariable: pointer, width, height and pitch. */
  datatype CudaPitchedDeviceVariable = CudaPitchedDeviceVariable(devicePointer: CUdeviceptr, width: int, height: int, pitch: int)

  /** NPPException: raised with a message, or for a failing status. */
  datatype NppException = NppMessage(message: string) | NppStatusError(status: NppStatus)

  const DeviceAllocationError: string := "Device allocation error"
  const BufferTooSmall: string := "Provided buffer is too small."

  /** How an image operation ends: it returns, or it raises. */
  datatype Outcome = Completed | Raised(error: NppException)

  /** NPPException.CheckNppStatus after every native call: the call
      completes exactly when the status is NoError, and otherwise raises an
      exception carrying that status. */
  function CheckNppStatus(status: NppStatus): (o: Outcome)
    ensures o.Completed? <==> status == NoError
    ensures o.Raised? ==> o.error == NppStatusError(status)
  {
    if status == NoError then Completed else Raised(NppStatusError(status))
  }

  /** The four image error metrics, each with a scratch-buffer size query and
      a computation. */
  datatype ErrorMetric = MaximumError | AverageError | MaximumRelativeError | AverageRelativeError

  /** A call into the NPP library, with the arguments the wrapper passes. The
      pixel values, twist matrices and kernels are passed through untouched. */
  datatype NppCall =
    | Malloc32fC2(width: int, height: int)
    | AlphaComp32fAC1R(src1: CUdeviceptr, src1Step: int, src2: CUdeviceptr, src2Step: int,
                       dst: CUdeviceptr, dstStep: int, roi: NppiSize, op: NppiAlphaOp)
    | Set32fC2R(value: seq<real>, dst: CUdeviceptr, dstStep: int, roi: NppiSize)
    | BufferHostSize32fC2R(metric: ErrorMetric, roi: NppiSize)
    | Metric32fC2R(metric: ErrorMetric, src1: CUdeviceptr, src1Step: int, src2: CUdeviceptr, src2Step: int,
                   roi: NppiSize, error: CUdeviceptr, buffer: CUdeviceptr)
    | ColorTwist32fC2R(src: CUdeviceptr, srcStep: int, dst: CUdeviceptr, dstStep: int,
                       roi: NppiSize, twist: seq<seq<real>>)
    | ColorTwist32fC2IR(srcDst: CUdeviceptr, srcDstStep: int, roi: NppiSize, twist: seq<seq<real>>)
    | FilterBorder32fC2R(src: CUdeviceptr, srcStep: int, srcSize: NppiSize, srcOffset: NppiPoint,
                         dst: CUdeviceptr, dstStep: int, dstRoi: NppiSize, kernel: CUdeviceptr,
                         kernelSize: NppiSize, anchor: NppiPoint, border: NppiBorderType)
    | Filter32fC2R(src: CUdeviceptr, srcStep: int, dst: CUdeviceptr, dstStep: int, roi: NppiSize,
                   kernel: CUdeviceptr, kernelSize: NppiSize, anchor: NppiPoint)

  /** What an image wrapper does to native state: an NPP call, or the
      allocation or release of a scratch CudaDeviceVariable<byte>. */
  datatype NativeEvent =
    | Native(call: NppCall)
    | ScratchAlloc(bytes: int, buffer: CUdeviceptr)
    | ScratchFree(buffer: CUdeviceptr)

  function ScratchDelta(e: NativeEvent): int
  {
    match e
    case ScratchAlloc(_, _) => 1
    case ScratchFree(_) => -1
    case Native(_) => 0
  }

  /** The number of scratch buffers a log of events leaves allocated. */
  function OutstandingScratch(events: seq<NativeEvent>): int
    decreases |events|
  {
    if events == [] then 0 else ScratchDelta(events[0]) + OutstandingScratch(events[1..])
  }

  /** Outstanding scratch buffers add up over consecutive pieces of a log. */
  lemma {:induction false} OutstandingScratchAppend(a: seq<NativeEvent>, b: seq<NativeEvent>)
    ensures OutstandingScratch(a + b) == OutstandingScratch(a) + OutstandingScratch(b)
    decreases |a|
  {
    if a == [] {
      assert a + b == b;
    } else {
      assert (a + b)[1..] == a[1..] + b;
      OutstandingScratchAppend(a[1..], b);
    }
  }

  /** The operation of an error-metric call reached native code. */
  predicate DispatchesMetric(events: seq<NativeEvent>)
  {
    exists i | 0 <= i < |events| :: events[i].Native? && events[i].call.Metric32fC2R?
  }
}
