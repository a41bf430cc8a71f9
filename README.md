# Native-handle lifecycle and the NPPImage_32fC2 view, in Dafny

This project models two parts of the managedCuda binding layer: the cuSPARSE
"info" handle wrappers and the NPP image view `NPPImage_32fC2`.

- **Handle wrappers.** These are `CudaSparseCsric02Info` and
  `CudaSparseBsrsm2Info`.
  - The constructor creates one native handle. If native creation does not
    report `Success`, the constructor throws a `CudaSparseException`.
  - `Dispose()` destroys the handle at most once, guarded by the `disposed`
    flag. It ignores a failing destroy status.
  - The finalizer calls `Dispose(false)`. That call never destroys the
    handle; it only writes a not-disposed warning while the object is still
    live.
  - The shared module `SparseLifecycle` states this as a step function,
    `DisposeStep`. A replay of any sequence of `Dispose()` and finalizer
    calls is proved to destroy at most once, and exactly once when some
    explicit `Dispose()` was made. It is also proved to warn once per
    finalizer call made before the first `Dispose()`, and never to depend on
    the destroy status. The two wrapper classes carry ghost counters of
    destroy calls and warnings. Each of their methods is proved to change
    the state exactly as `DisposeStep` says.
- **`NPPImage_32fC2`.** This is a two-channel float image over pitched
  device memory. Its constructors assign the base pointer, ROI pointer,
  original and ROI size, pitch, channel count, element size and ownership
  flag. The class also holds the ROI origin and the status of the last native
  call, which the constructors leave at their defaults.
  - Construction:
    - The allocating constructor fails with "Device allocation error" on a
      null pointer.
    - Otherwise every constructor yields a full-ROI view with 2 channels of
      4 bytes.
    - Ownership is true after allocation, the caller's flag after adoption,
      and false for the alias overloads.
  - Each operation appends the native call it makes to a ghost log,
    `issued`, with the exact pointers and sizes it passes.
  - The error metrics follow a scratch-buffer protocol:
    - The required size is queried first.
    - A caller buffer that is too small is refused before any native call
      other than the size query.
    - An internal buffer is allocated at exactly the queried size, and it is
      freed before the status is checked.
  - The image invariant `Valid()` requires that the log leaves no scratch
    buffer allocated. Every method keeps it.

The native libraries are not part of the model. Their results are inputs of
the model:
- The cuSPARSE create/destroy pair is a pair of function values,
  `InfoNative`.
- Each NPP method takes the statuses, sizes and pointers that its native
  calls return as parameters.

The two `ColorTwist` overloads say in their doc comments that the twist is
"applied within ROI" (NPP/NPPImage_32fC2.cs:387-388 and 402-403). Their code
passes the base pointers instead: `_devPtr`, and `dest.DevicePointer`. It
passes them together with `_sizeRoi` (NPP/NPPImage_32fC2.cs:394 and 408). The
model follows the code. For an image whose ROI does not start at the
origin, the call it records therefore addresses a ROI-sized block at the
image origin, not the ROI.

The accessors of the base class `NPPImageBase` are taken to read the
matching fields: `DevicePointer`, `DevicePointerRoi`, `Pitch`, `SizeRoi`,
and `Width`/`Height` from the original size. `NPPImageBase` is not part of
this model.

## Model

| member | source | states |
|---|---|---|
| SparseLifecycle.DisposeStep | CudaSparse/CudaSparseCsric02Info.cs:73-84 | destroy runs only for fDisposing on a live object; the explicit path always ends disposed whatever the destroy status; the finalizer path warns exactly when not disposed; the destroy-count invariant is kept |
| SparseLifecycle.ReplayKeepsConsistent | CudaSparse/CudaSparseCsric02Info.cs:75-81 | after any sequence of Dispose()/finalizer calls, a disposed object has destroyed its handle exactly once and a live one never |
| SparseLifecycle.ReplayDisposedIff | CudaSparse/CudaSparseCsric02Info.cs:75-83 | an object ends disposed iff it already was or some explicit Dispose() was made; the finalizer never disposes |
| SparseLifecycle.ReplayDestroysAtMostOnce | CudaSparse/CudaSparseCsric02Info.cs:75 | over any sequence of teardown calls, destroy is called exactly once if an explicit Dispose() happened and never otherwise, so at most once |
| SparseLifecycle.ReplayWarnings | CudaSparse/CudaSparseCsric02Info.cs:82-83 | a live object writes one not-disposed warning per finalizer call before its first Dispose(); a disposed object writes none |
| SparseLifecycle.ReplayIgnoresDestroyStatus | CudaSparse/CudaSparseCsric02Info.cs:77-80 | the disposed flag, destroy count and warning count never depend on the status the native destroy reports |
| SparseLifecycle.SecondDisposeIsNoOp | CudaSparse/CudaSparseCsric02Info.cs:63-81 | a second Dispose() changes nothing (idempotent) |
| SparseCsric02Info.CudaSparseCsric02Info.constructor | CudaSparse/CudaSparseCsric02Info.cs:43-45 | stores the handle and status of cusparseCreateCsric02Info; live, nothing destroyed, nothing warned |
| SparseCsric02Info.CudaSparseCsric02Info.New | CudaSparse/CudaSparseCsric02Info.cs:41-48 | construction succeeds iff create reports Success, otherwise fails with CudaSparseException(status); a built object is valid and live |
| SparseCsric02Info.CudaSparseCsric02Info.Dispose | CudaSparse/CudaSparseCsric02Info.cs:63-67 | state follows DisposeStep(true); afterwards disposed and destroyed exactly once; handle unchanged |
| SparseCsric02Info.CudaSparseCsric02Info.DisposeCore | CudaSparse/CudaSparseCsric02Info.cs:73-84 | Dispose(bool) changes the state exactly as DisposeStep and keeps the invariant |
| SparseCsric02Info.CudaSparseCsric02Info.Finalize | CudaSparse/CudaSparseCsric02Info.cs:53-56 | never destroys, never changes disposed or res; warns iff not disposed |
| SparseCsric02Info.CudaSparseCsric02Info.Csric02Info | CudaSparse/CudaSparseCsric02Info.cs:90-93 | returns the handle native creation produced, in every reachable state |
| SparseBsrsm2Info.CudaSparseBsrsm2Info.constructor | CudaSparse/CudaSparseBsrsm2Info.cs:43-45 | stores the handle and status of cusparseCreateBsrsm2Info; live, nothing destroyed, nothing warned |
| SparseBsrsm2Info.CudaSparseBsrsm2Info.New | CudaSparse/CudaSparseBsrsm2Info.cs:41-48 | construction succeeds iff create reports Success, otherwise fails with CudaSparseException(status) |
| SparseBsrsm2Info.CudaSparseBsrsm2Info.Dispose | CudaSparse/CudaSparseBsrsm2Info.cs:63-67 | state follows DisposeStep(true); afterwards disposed and destroyed exactly once |
| SparseBsrsm2Info.CudaSparseBsrsm2Info.DisposeCore | CudaSparse/CudaSparseBsrsm2Info.cs:73-84 | Dispose(bool) changes the state exactly as DisposeStep and keeps the invariant |
| SparseBsrsm2Info.CudaSparseBsrsm2Info.Finalize | CudaSparse/CudaSparseBsrsm2Info.cs:53-56 | never destroys, never changes disposed; warns iff not disposed |
| SparseBsrsm2Info.CudaSparseBsrsm2Info.Bsrsm2Info | CudaSparse/CudaSparseBsrsm2Info.cs:90-93 | returns the handle native creation produced |
| NppNative.CheckNppStatus | NPP/NPPImage_32fC2.cs:189 | an operation completes iff its status is NoError, otherwise raises with that status |
| NppImage32fC2.AdoptedView | NPP/NPPImage_32fC2.cs:67-79 | adoption keeps pointer, width, height and pitch; ROI is the full image at the base pointer; 2 channels of 4 bytes; ownership as given |
| NppImage32fC2.AllocatedView | NPP/NPPImage_32fC2.cs:39-56 | a null allocation is "Device allocation error"; otherwise the image equals the owning adoption of the new memory |
| NppImage32fC2.PitchedVariableOf | NPP/NPPImage_32fC2.cs:153-156 | the pitched variable carries base pointer, original width/height and pitch |
| NppImage32fC2.PitchedVariableIgnoresRoi | NPP/NPPImage_32fC2.cs:162 | the conversion does not depend on the ROI or on ownership |
| NppImage32fC2.PitchedRoundTrip | NPP/NPPImage_32fC2.cs:153-156 | converting a non-owning adoption back gives the same pitched variable; a full-ROI image is the adoption of its own pitched variable |
| NppImage32fC2.CallerBufferRun | NPP/NPPImage_32fC2.cs:226-234 | query first; the computation is dispatched iff the query succeeded and the buffer is at least the queried size; a refusal or failed query issues nothing after the query, and a large enough buffer gives exactly the query then the computation; the outcome is the query's status error, else "Provided buffer is too small." when the buffer is smaller, else the computation's status; ROI pointers and ROI size passed; no scratch is ever allocated |
| NppImage32fC2.InternalBufferRun | NPP/NPPImage_32fC2.cs:210-218 | a failed query issues nothing more; otherwise the order is query, scratch allocation of exactly the queried size, computation on that scratch, free last whatever the status; the outcome is decided by the status afterwards |
| NppImage32fC2.NppImage32fC2.FromDevicePointer | NPP/NPPImage_32fC2.cs:67-79 | the image is AdoptedView of the arguments with the caller's ownership flag |
| NppImage32fC2.NppImage32fC2.Allocate | NPP/NPPImage_32fC2.cs:39-57 | fails with the allocation error on a null pointer, else a fresh owning full-ROI image that has issued one nppiMalloc_32f_C2 |
| NppImage32fC2.NppImage32fC2.AllocateSize | NPP/NPPImage_32fC2.cs:108-112 | same as the allocating constructor for size.width by size.height |
| NppImage32fC2.NppImage32fC2.FromDevicePointerNotOwner | NPP/NPPImage_32fC2.cs:88-92 | adoption that never takes ownership |
| NppImage32fC2.NppImage32fC2.FromImage | NPP/NPPImage_32fC2.cs:98-102 | a non-owning image over the other image's base pointer, full size and pitch |
| NppImage32fC2.NppImage32fC2.FromDevicePointerSize | NPP/NPPImage_32fC2.cs:121-125 | adoption from an NppiSize with the caller's ownership flag |
| NppImage32fC2.NppImage32fC2.FromDevicePointerSizeNotOwner | NPP/NPPImage_32fC2.cs:133-137 | adoption from an NppiSize that never takes ownership |
| NppImage32fC2.NppImage32fC2.ToCudaPitchedDeviceVariable | NPP/NPPImage_32fC2.cs:153-156 | returns PitchedVariableOf the current image, without ROI |
| NppImage32fC2.NppImage32fC2.AlphaComp | NPP/NPPImage_32fC2.cs:185-190 | issues nppiAlphaComp_32f_AC1R with the ROI pointers of all three images and this image's ROI size; raises iff status is not NoError |
| NppImage32fC2.NppImage32fC2.Set | NPP/NPPImage_32fC2.cs:196-201 | issues nppiSet_32f_C2R on the ROI pointer and ROI size; raises iff status is not NoError |
| NppImage32fC2.NppImage32fC2.GetBufferHostSize | NPP/NPPImage_32fC2.cs:239-246 | queries with the ROI size, keeps the status; returns the native size iff NoError, else raises |
| NppImage32fC2.NppImage32fC2.MetricWithInternalBuffer | NPP/NPPImage_32fC2.cs:210-218 | log, status and outcome are those of InternalBufferRun; no scratch buffer outlives the call |
| NppImage32fC2.NppImage32fC2.MetricWithCallerBuffer | NPP/NPPImage_32fC2.cs:226-234 | log, status and outcome are those of CallerBufferRun |
| NppImage32fC2.NppImage32fC2.MaxError | NPP/NPPImage_32fC2.cs:210-218 | InternalBufferRun for the maximum error |
| NppImage32fC2.NppImage32fC2.MaxErrorWithBuffer | NPP/NPPImage_32fC2.cs:226-234 | CallerBufferRun for the maximum error |
| NppImage32fC2.NppImage32fC2.MaxErrorGetBufferHostSize | NPP/NPPImage_32fC2.cs:239-246 | query on the ROI size; the size iff NoError, else raises |
| NppImage32fC2.NppImage32fC2.AverageError | NPP/NPPImage_32fC2.cs:255-263 | InternalBufferRun for the average error |
| NppImage32fC2.NppImage32fC2.AverageErrorWithBuffer | NPP/NPPImage_32fC2.cs:271-279 | CallerBufferRun for the average error |
| NppImage32fC2.NppImage32fC2.AverageErrorGetBufferHostSize | NPP/NPPImage_32fC2.cs:284-291 | query on the ROI size; the size iff NoError, else raises |
| NppImage32fC2.NppImage32fC2.MaximumRelativeError | NPP/NPPImage_32fC2.cs:300-308 | InternalBufferRun for the maximum relative error |
| NppImage32fC2.NppImage32fC2.MaximumRelativeErrorWithBuffer | NPP/NPPImage_32fC2.cs:316-324 | CallerBufferRun for the maximum relative error |
| NppImage32fC2.NppImage32fC2.MaximumRelativeErrorGetBufferHostSize | NPP/NPPImage_32fC2.cs:329-336 | query on the ROI size; the size iff NoError, else raises |
| NppImage32fC2.NppImage32fC2.AverageRelativeError | NPP/NPPImage_32fC2.cs:345-353 | InternalBufferRun for the average relative error |
| NppImage32fC2.NppImage32fC2.AverageRelativeErrorWithBuffer | NPP/NPPImage_32fC2.cs:361-369 | CallerBufferRun for the average relative error |
| NppImage32fC2.NppImage32fC2.AverageRelativeErrorGetBufferHostSize | NPP/NPPImage_32fC2.cs:374-381 | query on the ROI size; the size iff NoError, else raises |
| NppImage32fC2.NppImage32fC2.ColorTwist | NPP/NPPImage_32fC2.cs:392-397 | issues nppiColorTwist_32f_C2R with the base pointers of this image and dest and this image's ROI size |
| NppImage32fC2.NppImage32fC2.ColorTwistInPlace | NPP/NPPImage_32fC2.cs:406-411 | issues nppiColorTwist_32f_C2IR with the base pointer and the ROI size |
| NppImage32fC2.NppImage32fC2.FilterBorder | NPP/NPPImage_32fC2.cs:430-435 | issues nppiFilterBorder_32f_C2R with the base pointer, original size and ROI origin of the source, and the ROI pointer and ROI size of dest |
| NppImage32fC2.NppImage32fC2.Filter | NPP/NPPImage_32fC2.cs:448-453 | issues nppiFilter_32f_C2R with both ROI pointers and this image's ROI size |

## Left out

- Native libraries. cuSPARSE creation and destruction, nppiMalloc_32f_C2 and
  every nppi* entry point are outside the model. Their results (status,
  handle, pointer, pitch, size) are inputs.
- Pixel arithmetic. The metrics, alpha composition, colour twist and
  convolution are floating-point GPU work done in native code. Their
  values, twist matrices and kernels pass through unchanged.
- Logging. The `Debug.WriteLine` lines with `DateTime.Now` are not modelled,
  except that the not-disposed warning is counted. Two slips in them are
  not modelled either:
  - NPP/NPPImage_32fC2.cs:50 logs a `res` that this file does not declare.
  - NPP/NPPImage_32fC2.cs:232 logs the wrong operation name.
- Garbage collection. `GC.SuppressFinalize` and the scheduling of
  finalizers belong to the runtime. The finalizer is modelled only as a
  call of `Dispose(false)`.
- New: a failed construction returns no object. In the runtime, the partly
  built object would still be finalized and would write the not-disposed
  warning.
- `NPPImageBase` is not part of this model. This leaves out:
  - its ROI setters;
  - how it computes `DevicePointerRoi`;
  - its `Dispose`, which frees memory according to `_isOwner`, and with it
    the image finalizer at NPP/NPPImage_32fC2.cs:142-145.

  The ROI fields are therefore only ever set by the constructors here.
  Every operation is stated for any value of them.
- NppImage32fC2.NppImage32fC2.FromImage: the source accepts any
  `NPPImageBase`; the model accepts only another `NPPImage_32fC2`.
- `NPPException.CheckNppStatus` is not part of this model. Any status other
  than NoError is taken to raise. Any distinction it may draw among those
  statuses, such as warnings that do not raise, is not modelled.
- NppNative.CheckNppStatus: `NppStatusError` carries only the status, not
  the sender that the source passes along with it (`this`,
  NPP/NPPImage_32fC2.cs:189).
- NppImage32fC2.NppImage32fC2.FromDevicePointer / Allocate: the constructors
  of `NPPImage_32fC2` do not assign `_pointRoi` or `status`. The model takes
  the C# zero defaults of those `NPPImageBase` fields: ROI origin
  NppiPoint(0, 0), and status NoError (NPP_NO_ERROR is 0).
- The scratch `CudaDeviceVariable<byte>`: the model records its allocation
  and release only. A failure of that allocation is not modelled.
- Implicit conversions. The conversion from `CudaPitchedDeviceVariable`
  (NPP/NPPImage_32fC2.cs:173-176) delegates to `ToNPPImage`, which is not
  part of this model. The conversion to it (NPP/NPPImage_32fC2.cs:163-166)
  only calls `ToCudaPitchedDeviceVariable`.
- Integer widths. The wrappers do no arithmetic on their 32-bit `int`
  sizes, so the model uses unbounded integers.
- Concurrency: there is none in this code.
