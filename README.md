# cuda-swift core, modelled in Dafny

This project models the host-side core of cuda-swift, a Swift wrapper over the
CUDA runtime, driver and cuBLAS:

- **Device arrays** (`Sources/CUDARuntime/Array.swift`). A `DeviceArray` is a
  value type. It shares a reference-counted `DeviceArrayBuffer` (one device
  allocation) with its copies. It clones the buffer on the first write while
  the buffer is shared (`cowBuffer`). Module `CUDARuntime` models the buffer as
  a class over an `array<int>` with its strong-reference count. A ghost set of
  holders makes "the count is 1" mean "no other array value shares it". Each
  Swift variable of type `DeviceArray` is one `DeviceArray` object: copying the
  value is the `Copy` constructor, and the end of its lifetime is `Release`.
- **Kernel templates** (`Sources/Warp/KernelSources.swift`). Module
  `WarpKernelSources` holds each CUDA C template as literal text interleaved
  with the placeholders `TYPE`, `KERNEL`, `FUNC` and `OP`. The parameter list
  is data, so one definition gives both the declared signature and the text.
  It also models `StaticString`'s identity-based `==` and `hashValue`.
- **Kernel semantics** (module `WarpKernels`). What each kernel body computes
  is a function on sequences. Each launch is a sequential loop over every
  thread id below `gridDim * blockDim`, and each thread writes only its own
  index when the id is below `count`.
- **Array operations** (`Sources/Warp/DeviceOperations.swift`). Module `Warp`
  holds the launch geometry (`blockSize = min(threshold, count)`,
  `blockCount = ceil(count / blockSize)`) and the positional argument list of
  each launch, checked against the template's declared parameters. It also
  holds `dotProduct`, `•`, `sum`, `sumOfAbsoluteValues`,
  `vectorAdd`/`vectorAdding`, `vectorScale`/`vectorScaled`, `fill` and
  `transform`. The code that hands a kernel the array's device address is not
  part of this model. The model assumes it goes through `cowBuffer`, so that
  every mutating operation first makes the buffer its own and no other array
  value sees the change. `vectorAdding` and `vectorScaled` return
  a changed copy and leave `self` as it was.
- **cuBLAS data types** (`Sources/CuBLAS/Types.swift`). Module `CuBLAS` models
  the `BLAS.DataType` raw codes and their failable decoding. It also models
  `cType` and the `blasDataType` of `Float`, `Double`, `Int8` and `UInt8`.

Elements are mathematical integers throughout. Where the code and its
comments disagree, the model follows the code:

- `KernelSource`'s doc comment gives `fill` two parameters, but the template
  declares three (`vector`, `x`, `count`). The model uses the template's three
  (`Sources/Warp/KernelSources.swift:21` against line 25).
- `KernelSources.swift` has no `axpy` or `scale` case. The kernels named `.axpy`
  and `.scale` (`Sources/Warp/DeviceOperations.swift:50` and `68`) come from
  source outside this model. Their kernels (`WarpKernels.AxpyKernel`,
  `WarpKernels.ScaleKernel`) are inferred from the `vectorAdd` doc comment and
  from the order of each launch's arguments.

## Model

| member | source | states |
|---|---|---|
| CUDARuntime.BufferPointer | Sources/CUDARuntime/Array.swift:19-22 | a view built with no start address has count 0; otherwise it keeps the start and the given count |
| CUDARuntime.TraversalFrom | Sources/CUDARuntime/Array.swift:24-38 | walking by `index(after:)` from `i` to `end` visits `end - i` positions, and position `k` is `i + k` |
| CUDARuntime.IndicesOfCollection | Sources/CUDARuntime/Array.swift:158-172 | walking from `startIndex` to `endIndex` visits exactly 0, 1, ..., count - 1 in order; `index(before:)` and `index(after:)` undo each other |
| CUDARuntime.DeviceArrayBuffer.constructor | Sources/CUDARuntime/Array.swift:60-63 | a fresh allocation whose count equals the capacity, with no holders yet |
| CUDARuntime.DeviceArrayBuffer.Clone | Sources/CUDARuntime/Array.swift:65-68 | a fresh allocation, distinct from the original, with the same count and the same elements |
| CUDARuntime.DeviceArrayBuffer.FromHost | Sources/CUDARuntime/Array.swift:70-75 | a fresh allocation holding the host elements in order, its count their number |
| CUDARuntime.DeviceArrayBuffer.Get | Sources/CUDARuntime/Array.swift:97-100 | reads element `i` of the allocation |
| CUDARuntime.DeviceArrayBuffer.Set | Sources/CUDARuntime/Array.swift:101-103 | writes element `i` in place and changes nothing else in the allocation |
| CUDARuntime.DeviceArray.Release | Sources/CUDARuntime/Array.swift:113 | dropping an array value removes exactly its strong reference from the shared buffer and keeps the buffer's invariant |
| CUDARuntime.DeviceArray.CowBuffer | Sources/CUDARuntime/Array.swift:116-123 | afterwards this value is the buffer's only holder and sees the same elements; a uniquely held buffer is kept, a shared one is cloned into a fresh allocation; the old buffer loses only this holder, and every other holder still sees its old elements |
| CUDARuntime.DeviceArray.constructor | Sources/CUDARuntime/Array.swift:125-127 | a new array with `capacity` elements in a fresh buffer held only by itself |
| CUDARuntime.DeviceArray.FromHost | Sources/CUDARuntime/Array.swift:129-137 | a new array whose elements are the host elements in order, in a fresh buffer held only by itself |
| CUDARuntime.DeviceArray.Copy | Sources/CUDARuntime/Array.swift:139-141 | a copy shares the buffer (nothing is copied): one more reference and holder, same elements |
| CUDARuntime.DeviceArray.MakeHostArray | Sources/CUDARuntime/Array.swift:143-152 | the host array holds the device elements, in order and in number |
| CUDARuntime.DeviceArray.CountIsLength | Sources/CUDARuntime/Array.swift:154-156 | `count` is the number of elements the array holds |
| CUDARuntime.DeviceArray.Get | Sources/CUDARuntime/Array.swift:174-177 | subscript get returns element `i` and changes no state (no clone) |
| CUDARuntime.DeviceArray.Set | Sources/CUDARuntime/Array.swift:178-180 | after `self[i] = v`, element `i` is `v` and every other element is unchanged; a unique buffer is written in place, a shared one is cloned into a fresh allocation and loses only this holder; every other value that shared the buffer still sees its old elements |
| CUDARuntime.DeviceArray.WithUnsafeDeviceMutableBufferPointer | Sources/CUDARuntime/Array.swift:183-186 | the view handed out points at the array's current buffer (shared or not) and covers `count` elements |
| CUDARuntime.HostArray | Sources/CUDARuntime/Array.swift:192-194 | `Array(deviceArray)` holds the device elements in order |
| CUDARuntime.HostRoundTrip | Sources/CUDARuntime/Array.swift:129-152 | host to device and back gives the same elements, the empty sequence included |
| CUDARuntime.CopyOnWrite | Sources/CUDARuntime/Array.swift:116-123 | writing through a copy leaves the original's elements untouched, and the original, left the only holder of its buffer, is then written in place |
| CUDARuntime.WriteAfterRelease | Sources/CUDARuntime/Array.swift:118-121 | once the other holder is gone, a write happens in the same buffer, without a clone (`inPlace`), and gives the written elements |
| WarpKernelSources.ParamListOccurrences | Sources/Warp/KernelSources.swift:23 | a parameter list names `TYPE` once per parameter that is not `long long`, and no other placeholder |
| WarpKernelSources.TemplateOccurrences | Sources/Warp/KernelSources.swift:22-26 | a template names `KERNEL` once in its header, `TYPE` once per typed parameter, plus what its body holds |
| WarpKernelSources.KernelSourcePlaceholders | Sources/Warp/KernelSources.swift:22-26 | the `sum`, `asum` and `fill` templates name `KERNEL` once and `TYPE` at least once, with no `FUNC` or `OP` |
| WarpKernelSources.FunctorialPlaceholders | Sources/Warp/KernelSources.swift:31-33 | the `transform` template names `FUNC` exactly once and has no `OP` |
| WarpKernelSources.BinaryPlaceholders | Sources/Warp/KernelSources.swift:40-43 | the `elementwise` and `scalarRight` templates name `OP` exactly once and have no `FUNC` |
| WarpKernelSources.EqualImpliesEqualHash | Sources/Warp/KernelSources.swift:45-49 | static strings that are `==` have equal hash values, and `==` is symmetric |
| WarpKernelSources.EqualIsTransitive | Sources/Warp/KernelSources.swift:9-13 | `==` on static strings is transitive |
| WarpKernelSources.EqualIgnoresText | Sources/Warp/KernelSources.swift:9-13 | `==` compares start addresses, not text: the same text at two addresses is not equal |
| WarpKernels.SumKernel | Sources/Warp/KernelSources.swift:23 | the `sum` kernel leaves the sum of the first `count` elements in `*result` |
| WarpKernels.AsumKernel | Sources/Warp/KernelSources.swift:24 | the `asum` kernel leaves the sum of the absolute values of the first `count` elements in `*result` |
| WarpKernels.FillKernel | Sources/Warp/KernelSources.swift:25 | the first `min(count, threads)` elements become `x`; the rest keep their values |
| WarpKernels.TransformKernel | Sources/Warp/KernelSources.swift:32 | the first `min(count, threads)` result elements become `FUNC` of the input's; the rest keep their values, also when input and result are the same allocation |
| WarpKernels.ElementwiseKernel | Sources/Warp/KernelSources.swift:41 | the first `min(count, threads)` result elements become `OP(a * x[i], b * y[i])`, read from the inputs as they were before the launch |
| WarpKernels.ScalarRightKernel | Sources/Warp/KernelSources.swift:42 | the first `min(count, threads)` result elements become `OP(a * x[i], rval)` |
| WarpKernels.AxpyKernel | Sources/Warp/DeviceOperations.swift:44-55 | the first `min(count, threads)` elements of `y` gain `alpha * x[i]`; the rest keep their values |
| WarpKernels.ScaleKernel | Sources/Warp/DeviceOperations.swift:67-73 | the first `min(count, threads)` elements of `y` are multiplied by `alpha`; the rest keep their values |
| WarpKernels.AbsSumBoundsSum | Sources/Warp/KernelSources.swift:24 | the asum result is never negative and bounds the sum from above and below |
| WarpKernels.FilledIdempotent | Sources/Warp/DeviceOperations.swift:107-121 | filling twice with the same value is filling once, so the memset followed by the kernel gives the kernel's result |
| WarpKernels.FilledWhole | Sources/Warp/KernelSources.swift:25 | filling every element leaves only `x`, whatever was there, and the sum becomes `count * x` |
| WarpKernels.SumOfScaled | Sources/Warp/DeviceOperations.swift:67-76 | scaling every element by `alpha` multiplies the sum by `alpha` |
| WarpKernels.SumOfAxpy | Sources/Warp/DeviceOperations.swift:44-58 | axpy over all of `y` adds `alpha` times the sum of the `x` elements it read |
| WarpKernels.TransformedComposes | Sources/Warp/KernelSources.swift:32 | two in-place transforms equal one transform by the composed function |
| WarpKernels.ScalarRightIsElementwise | Sources/Warp/KernelSources.swift:41-42 | `scalarRight` is `elementwise` with `b = 1` and a `y` that repeats `rval` |
| WarpKernels.DotIsSymmetric | Sources/Warp/DeviceOperations.swift:22-31 | the dot product does not depend on the order of its operands |
| WarpKernels.DotWithSelfNonNegative | Sources/Warp/DeviceOperations.swift:22-31 | an array's dot product with itself is never negative |
| Warp.BlockSize | Sources/Warp/DeviceOperations.swift:52 | the block size is at most both the threshold and the count, and equals one of them |
| Warp.BlockCount | Sources/Warp/DeviceOperations.swift:53 | the block count gives every element a thread, and one block fewer would not |
| Warp.Geometry | Sources/Warp/DeviceOperations.swift:52-54 | the launch starts at least `count` threads, in blocks no larger than the threshold, with no block left idle |
| Warp.GeometryExample | Sources/Warp/DeviceOperations.swift:52-54 | 300 elements with threshold 128 launch 3 blocks of 128 threads |
| Warp.FillGeometry | Sources/Warp/DeviceOperations.swift:115-118 | fill's swapped launch starts as many threads as the unswapped one, so every element still gets a thread |
| Warp.FillGeometryWithinLimit | Sources/Warp/DeviceOperations.swift:115-118 | fill's swapped launch keeps its blocks within 1024 threads exactly when the array has at most 512 * 1024 elements |
| Warp.FillGeometryExceedsLimit | Sources/Warp/DeviceOperations.swift:118 | 600000 elements make fill launch 512 blocks of 1172 threads, over the 1024-thread limit |
| Warp.FillGeometryCorrected | Sources/Warp/DeviceOperations.swift:115-118 | launched as `<<<(blockCount, blockSize)>>>`, fill's blocks never exceed the limit, with the same number of threads |
| Warp.ArgumentsMatchTemplates | Sources/Warp/DeviceOperations.swift:88-119 | the `sum`, `asum` and `fill` argument lists fill their templates' parameters one to one, in order and kind |
| Warp.TransformArgumentsMismatch | Sources/Warp/DeviceOperations.swift:133-135 | transform's argument list as written has one argument fewer than its template's parameters, so it does not match |
| Warp.TransformArguments | Sources/Warp/DeviceOperations.swift:133-135 | transform's corrected argument list, with the array as both input and result, matches the template |
| Warp.DotProduct | Sources/Warp/DeviceOperations.swift:22-31 | the dot product of the first `min(count, other.count)` elements of both arrays (`DotPrefix`, whose properties the three lemmas above state) |
| Warp.DotOperator | Sources/Warp/DeviceOperations.swift:34-38 | `lhs • rhs` requires equal counts and is the dot product of all the elements |
| Warp.DotPrefixIsSymmetric | Sources/Warp/DeviceOperations.swift:22-31 | swapping the two arrays does not change `dotProduct` |
| Warp.DotPrefixOfEqualLengths | Sources/Warp/DeviceOperations.swift:27 | for arrays of the same count, `dotProduct` is the dot product of all the elements |
| Warp.DotPrefixIgnoresTail | Sources/Warp/DeviceOperations.swift:27 | elements appended to either array past the shorter one's end do not change `dotProduct` |
| Warp.Sum | Sources/Warp/DeviceOperations.swift:84-93 | `sum()` is the sum of all the elements |
| Warp.SumOfAbsoluteValues | Sources/Warp/DeviceOperations.swift:95-104 | `sumOfAbsoluteValues()` is the sum of the absolute values, never negative, and bounds the sum |
| Warp.VectorAdd | Sources/Warp/DeviceOperations.swift:49-58 | every element of `self` gains `alpha` times the same element of `other`; the count is kept; `other` and every value that shared `self`'s buffer keep their elements; a unique buffer is updated in place |
| Warp.VectorAdding | Sources/Warp/DeviceOperations.swift:60-65 | returns a new array holding `self + alpha * other`; `self` keeps its buffer, its reference count, its holders and its elements, so every value sharing it stays usable |
| Warp.VectorScale | Sources/Warp/DeviceOperations.swift:67-76 | every element of `self` is multiplied by `alpha`; the count is kept; every value that shared the buffer keeps its elements |
| Warp.VectorScaled | Sources/Warp/DeviceOperations.swift:78-82 | returns a new array holding `alpha * self`; `self` keeps its buffer, its reference count, its holders and its elements, so every value sharing it stays usable |
| Warp.Fill | Sources/Warp/DeviceOperations.swift:106-122 | with the swapped launch as written, every element becomes `element`, whether or not the 4-byte memset runs first; every value that shared the buffer keeps its elements |
| Warp.Transform | Sources/Warp/DeviceOperations.swift:128-137 | with the corrected argument list of the Findings table (not the two-argument launch as written), every element becomes the functor applied to its old value; every value that shared the buffer keeps its elements |
| Warp.FillCopyIsolation | Sources/Warp/DeviceOperations.swift:106-122 | with B a copy of A, `B.fill(x)` leaves A's elements as they were and B holding only `x` |
| Warp.SelfAddInPlace | Sources/Warp/DeviceOperations.swift:49-58 | `a.vectorAdd(a)` passes a second reference to the buffer, so the write clones it and `a` becomes `a + a` |
| Warp.ScaleThenAdd | Sources/Warp/DeviceOperations.swift:49-76 | `var b = a; b.vectorScale(by: 2); a.vectorAdd(b)` gives `b = 2s` and `a = 3s`: the scale gives `b` an allocation of its own |
| Warp.WriteToScaledCopy | Sources/Warp/DeviceOperations.swift:78-82 | the array `vectorScaled` returns is the only holder of a fresh buffer, so a write to it happens in place and the original is unchanged |
| Warp.SelfAddIsolation | Sources/Warp/DeviceOperations.swift:60-65 | `a.vectorAdding(a)` doubles a copy and leaves `a` as it was |
| CuBLAS.DataType.RawValue | Sources/CuBLAS/Types.swift:12-19 | the codes are float 0, double 1, half 2, int8 3, uint8 8, int32 10, uint32 12, each belonging to exactly one case |
| CuBLAS.FromRawValue | Sources/CuBLAS/Types.swift:12-19 | `init?(rawValue:)` returns a case whose code is the given one, and nil exactly when no case has that code |
| CuBLAS.FromCublasDataType | Sources/CuBLAS/Types.swift:21-24 | `init?(_ cublasDataType_t)` decodes the C value's code the same way |
| CuBLAS.RawValueInjective | Sources/CuBLAS/Types.swift:12-19 | distinct cases have distinct codes |
| CuBLAS.DecodeEncode | Sources/CuBLAS/Types.swift:21-24 | decoding a case's own code gives back that case |
| CuBLAS.ComplexTypesUnsupported | Sources/CuBLAS/Types.swift:21-24 | the complex codes 4, 5, 6, 7, 9, 11 and every code from 13 up decode to nil |
| CuBLAS.BlasDataType | Sources/CuBLAS/Types.swift:38-52 | Float maps to float, Double to double, Int8 to int8, UInt8 to uint8 |
| CuBLAS.CType | Sources/CuBLAS/Types.swift:32-35 | `cType` carries the same code as `blasDataType` and decodes back to it |
| CuBLAS.CTypeInjective | Sources/CuBLAS/Types.swift:38-52 | no two conforming Swift types share a C type |

## Left out

- Device I/O is not part of this model. Allocation, freeing and host↔device copies are whole-sequence copies into and out of an `array<int>`. Deallocation when the last reference goes (`deinit`) is not modelled.
- The kernel cache (`KernelManager`), runtime compilation, `device.sync` and the `<<<>>>` launch mechanism are not part of this model. A launch is the sequential thread loop. Threads never race because each writes only its own index.
- Placeholder substitution in the templates (filling in `TYPE`, `KERNEL`, `FUNC`, `OP`) happens in the kernel compiler, which is not part of this model. The exact text of each template is stated only through its pieces and the placeholder lemmas.
- `Sources/CUDADriver/Device.swift` and `Sources/CUDADriver/Module.swift` are not part of this model. They are foreign driver calls.
- Floating point is not modelled. Elements are integers, so rounding and summation order in `sum`, `asum` and the cuBLAS `dot` do not arise.
- WarpKernels.AxpyKernel: `KernelSources.swift` has no `axpy` case; the kernel `.axpy` names comes from source outside this model. The kernel body is inferred from the doc comment and from the launch's argument order.
- WarpKernels.ScaleKernel: `KernelSources.swift` has no `scale` case; the kernel `.scale` names comes from source outside this model. The kernel body is inferred from the launch's argument order.
- Warp.DotProduct: the `Int32` conversion of the count is not modelled. Arrays longer than 2^31 - 1 elements would trap in the source.
- Warp.VectorAdd, Warp.VectorAdding: require `other.count >= count`. The source does not check this, and a shorter `other` is read out of bounds.
- Warp.VectorAdd: requires that distinct buffers own distinct allocations, and that `self` and `other` are different objects. In Swift the by-value argument is read before the `inout` access to `self` begins, so `a.vectorAdd(a)` passes a second reference to the buffer: here that is a `Copy` of `a`, and `Warp.SelfAddInPlace` shows the result.
- Warp.VectorAdd, Warp.VectorAdding, Warp.VectorScale, Warp.VectorScaled, Warp.Fill, Warp.Transform: require a non-empty array. For an empty array the source divides by a block size of 0, which traps.
- Warp.VectorAdd, Warp.VectorScale, Warp.Transform: `.pointer(to: &self)` and `withUnsafeMutableDevicePointer` are not part of this model. They are assumed to clone a shared buffer before handing out its address, as `cowBuffer` does. The isolation of other values sharing the buffer rests on that assumption. The one unsafe accessor that is shown, `withUnsafeDeviceMutableBufferPointer`, does not clone.
- Warp.Transform: models the corrected argument list of the Findings table, with the array as both `vector` and `result`. The launch as written gives the kernel's `result` parameter no argument, and what it then does is not modelled.
- Warp.Fill: the launch failure of the swapped geometry above 512 * 1024 elements (Findings row 2) is not modelled; the model only launches the same number of threads.
- Warp.Fill: the memset path goes through `withUnsafeMutableDevicePointer`, which is not part of this model. It is assumed to clone a shared buffer first, like `.pointer(to: &self)`.
- CUDARuntime.DeviceArray.WithUnsafeDeviceMutableBufferPointer: writes through the returned view bypass copy-on-write and reach every sharer. The model hands out the view but does not model writes through it, or the view's own unchecked subscript (`Array.swift:40-47`).
- Concurrency and the thread safety of the kernel cache are not modelled.

## Findings

| source | as written | input that shows it | evidently intended | confidence | as-written member | corrected member |
|---|---|---|---|---|---|---|
| Sources/Warp/DeviceOperations.swift:133-135 | `transform` launches with two arguments (`.pointer(to: &self)`, `.longLong(count)`), but its template declares three parameters (`vector`, `count`, `result`) | any call of `transform`, e.g. on a one-element array: the kernel's `result` parameter receives no argument | pass the array as both `vector` and `result`, so the functor is applied in place | high; not executed | Warp.TransformArgumentsMismatch | Warp.TransformArguments |
| Sources/Warp/DeviceOperations.swift:118 | `fill` launches `<<<(blockSize, blockCount)>>>`, with grid and block swapped, so the block dimension grows with the array | an array of 600000 elements: 512 blocks of 1172 threads, over CUDA's limit of 1024 threads per block | `<<<(blockCount, blockSize)>>>`, as every other launch in the file | medium; not executed | Warp.FillGeometryExceedsLimit | Warp.FillGeometryCorrected |
