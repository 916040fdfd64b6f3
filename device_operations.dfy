/**
 * The array operations of Sources/Warp/DeviceOperations.swift over the
 * copy-on-write DeviceArray: launch geometry, the positional argument
 * lists handed to each launch, and the operations themselves. A launch
 * is the sequential thread loop of WarpKernels. The code that turns
 * `.pointer(to: &self)` into a device address is not part of this model;
 * it is assumed to go through cowBuffer, so that every mutating operation
 * first makes the array's buffer its own.
 */
module Warp {
  import opened CUDARuntime
  import opened WarpKernels
  import KS = WarpKernelSources

  // ---------------------------------------------------------------------
  // Launch geometry
  // ---------------------------------------------------------------------

  /** Block-size threshold of vectorAdd. */
  const AxpyThreshold: nat := 128
  /** Block-size threshold of vectorScale, fill and transform. */
  const ElementwiseThreshold: nat := 512

  datatype LaunchConfig = LaunchConfig(gridDim: nat, blockDim: nat)
  {
    function Threads(): nat { gridDim * blockDim }
  }

  /** `blockSize = min(threshold, count)` */
  function BlockSize(threshold: nat, count: nat): (bs: nat)
    ensures bs <= threshold && bs <= count
    ensures bs == threshold || bs == count
  {
    if threshold < count then threshold else count
  }

  lemma CeilingDivision(n: nat, d: nat)
    requires n > 0 && d > 0
    ensures d * ((n + d - 1) / d) >= n
    ensures ((n + d - 1) / d - 1) * d < n
  {
    var q, r := (n + d - 1) / d, (n + d - 1) % d;
    assert n + d - 1 == d * q + r;
    assert (q - 1) * d == d * q - d;
  }

  /** `blockCount = (count + blockSize - 1) / blockSize`: enough blocks to give
      every element a thread, and one block fewer would not be. The division
      traps when blockSize is 0, so an empty array cannot be launched on. */
  function BlockCount(threshold: nat, count: nat): (bc: nat)
    requires threshold > 0 && count > 0
    ensures BlockSize(threshold, count) * bc >= count
    ensures (bc - 1) * BlockSize(threshold, count) < count
  {
    var bs := BlockSize(threshold, count);
    CeilingDivision(count, bs);
    (count + bs - 1) / bs
  }

  /** The `<<<(blockCount, blockSize)>>>` launch of vectorAdd, vectorScale and transform. */
  function Geometry(threshold: nat, count: nat): (c: LaunchConfig)
    requires threshold > 0 && count > 0
    ensures c.Threads() >= count
    ensures c.blockDim <= threshold
    ensures (c.gridDim - 1) * c.blockDim < count
  {
    LaunchConfig(BlockCount(threshold, count), BlockSize(threshold, count))
  }

  /** The most threads one block may hold on every device of compute capability 2.0 or later. */
  const MaxThreadsPerBlock: nat := 1024

  /** fill as written launches `<<<(blockSize, blockCount)>>>`: grid and block
      swapped. It starts the same number of threads, but the block dimension is
      then the block count, which grows with the array. */
  function FillGeometry(count: nat): (c: LaunchConfig)
    requires count > 0
    ensures c.Threads() == Geometry(ElementwiseThreshold, count).Threads()
    ensures c.Threads() >= count
  {
    var g := Geometry(ElementwiseThreshold, count);
    LaunchConfig(g.blockDim, g.gridDim)
  }

  /** The swapped fill launch stays within the per-block limit exactly when the
      array has at most 512 * 1024 elements. */
  lemma {:induction false} FillGeometryWithinLimit(count: nat)
    requires count > 0
    ensures FillGeometry(count).blockDim <= MaxThreadsPerBlock <==> count <= ElementwiseThreshold * MaxThreadsPerBlock
  {
    var bs := BlockSize(ElementwiseThreshold, count);
    var bc := BlockCount(ElementwiseThreshold, count);
    assert FillGeometry(count).blockDim == bc;
    if count <= ElementwiseThreshold {
      assert bs == count;
      assert bc == 1;
    } else {
      assert bs == 512;
      if count <= 512 * 1024 {
        assert (bc - 1) * 512 < count <= 512 * 1024;
      } else {
        assert 512 * bc >= count > 512 * 1024;
      }
    }
  }

  /** An array of 600000 elements makes fill launch blocks of 1172 threads. */
  lemma FillGeometryExceedsLimit()
    ensures FillGeometry(600000) == LaunchConfig(512, 1172)
    ensures FillGeometry(600000).blockDim > MaxThreadsPerBlock
  {
  }

  /** The launch fill evidently intends, in the order of every other launch: its
      blocks never exceed the per-block limit. */
  lemma FillGeometryCorrected(count: nat)
    requires count > 0
    ensures Geometry(ElementwiseThreshold, count).blockDim <= MaxThreadsPerBlock
    ensures Geometry(ElementwiseThreshold, count).Threads() == FillGeometry(count).Threads()
  {
  }

  lemma GeometryExample()
    ensures Geometry(AxpyThreshold, 300) == LaunchConfig(3, 128)
  {
  }

  // ---------------------------------------------------------------------
  // Launch arguments
  // ---------------------------------------------------------------------

  datatype KernelArgument =
    | Value(value: int)
    | Pointer(address: array<int>)
    | ConstPointer(address: array<int>)
    | LongLong(n: int)

  /** Whether an argument can fill a parameter slot: a const pointer only a const
      array or pointer parameter, a writable pointer any array or pointer one. */
  predicate Accepts(p: KS.Param, a: KernelArgument)
  {
    match p.kind
    case ScalarParam => a.Value?
    case LongLongParam => a.LongLong?
    case ArrayParam => a.Pointer? || (a.ConstPointer? && p.isConst)
    case PointerParam => a.Pointer? || (a.ConstPointer? && p.isConst)
  }

  /** The argument list fills the declared parameters one to one, in order. */
  predicate Matches(params: seq<KS.Param>, args: seq<KernelArgument>)
  {
    |params| == |args| && forall i :: 0 <= i < |args| ==> Accepts(params[i], args[i])
  }

  /** `.value(alpha), .constPointer(to: other), .pointer(to: &self), .longLong(count)` */
  function AxpyArguments(alpha: int, other: array<int>, self: array<int>, count: nat): seq<KernelArgument>
  {
    [Value(alpha), ConstPointer(other), Pointer(self), LongLong(count)]
  }

  /** `.pointer(to: &self), .value(alpha), .longLong(count)` */
  function ScaleArguments(self: array<int>, alpha: int, count: nat): seq<KernelArgument>
  {
    [Pointer(self), Value(alpha), LongLong(count)]
  }

  /** `.constPointer(to: self), .longLong(count), .pointer(to: &result)`, for sum and asum */
  function ReductionArguments(self: array<int>, count: nat, result: array<int>): seq<KernelArgument>
  {
    [ConstPointer(self), LongLong(count), Pointer(result)]
  }

  /** `.pointer(to: &self), .value(element), .longLong(count)` */
  function FillArguments(self: array<int>, element: int, count: nat): seq<KernelArgument>
  {
    [Pointer(self), Value(element), LongLong(count)]
  }

  /** transform as written: `.pointer(to: &self), .longLong(count)`. */
  function TransformArgumentsAsWritten(self: array<int>, count: nat): seq<KernelArgument>
  {
    [Pointer(self), LongLong(count)]
  }

  /** transform with the result slot filled: the array is both source and result. */
  function TransformArguments(self: array<int>, count: nat): (args: seq<KernelArgument>)
    ensures Matches(KS.FunctorialKernelSource.Transform.Source().params, args)
  {
    [ConstPointer(self), LongLong(count), Pointer(self)]
  }

  /** sum, asum and fill are launched with arguments in their templates' slot order. */
  lemma ArgumentsMatchTemplates(self: array<int>, result: array<int>, x: int, count: nat)
    ensures Matches(KS.KernelSource.Sum.Source().params, ReductionArguments(self, count, result))
    ensures Matches(KS.KernelSource.Asum.Source().params, ReductionArguments(self, count, result))
    ensures Matches(KS.KernelSource.Fill.Source().params, FillArguments(self, x, count))
  {
  }

  /** transform as written leaves the template's result parameter without an argument. */
  lemma TransformArgumentsMismatch(self: array<int>, count: nat)
    ensures !Matches(KS.FunctorialKernelSource.Transform.Source().params, TransformArgumentsAsWritten(self, count))
    ensures |TransformArgumentsAsWritten(self, count)| + 1 == |KS.FunctorialKernelSource.Transform.Source().params|
  {
  }

  // ---------------------------------------------------------------------
  // Dot product
  // ---------------------------------------------------------------------

  /** The dot product dotProduct asks BLAS for: over the first
      min(|s|, |t|) elements of both operands. */
  function DotPrefix(s: seq<int>, t: seq<int>): int
  {
    var m := Min(|s|, |t|);
    Dot(s[..m], t[..m])
  }

  /** Swapping the operands does not change dotProduct. */
  lemma DotPrefixIsSymmetric(s: seq<int>, t: seq<int>)
    ensures DotPrefix(s, t) == DotPrefix(t, s)
  {
    var m := Min(|s|, |t|);
    assert Min(|t|, |s|) == m;
    DotIsSymmetric(s[..m], t[..m]);
  }

  /** For operands of the same length, dotProduct is the dot product of all the elements. */
  lemma DotPrefixOfEqualLengths(s: seq<int>, t: seq<int>)
    requires |s| == |t|
    ensures DotPrefix(s, t) == Dot(s, t)
  {
    assert s[..|s|] == s && t[..|t|] == t;
  }

  /** Elements past the shorter operand's end, appended to either operand, do
      not change dotProduct. */
  lemma DotPrefixIgnoresTail(s: seq<int>, t: seq<int>, extra: seq<int>)
    ensures |t| <= |s| ==> DotPrefix(s + extra, t) == DotPrefix(s, t)
    ensures |s| <= |t| ==> DotPrefix(s, t + extra) == DotPrefix(s, t)
  {
    if |t| <= |s| {
      assert (s + extra)[..|t|] == s[..|t|];
    }
    if |s| <= |t| {
      assert (t + extra)[..|s|] == t[..|s|];
    }
  }

  /** dotProduct(with:): the BLAS dot over the first min(count, other.count) elements. */
  method DotProduct(self: DeviceArray, other: DeviceArray) returns (r: int)
    requires self.Valid() && other.Valid()
    ensures r == DotPrefix(self.Contents(), other.Contents())
  {
    self.CountIsLength();
    other.CountIsLength();
    var m := Min(self.Count(), other.Count());
    r := Dot(self.Contents()[..m], other.Contents()[..m]);
  }

  /** `lhs • rhs`: the counts must agree; then it is the dot of all elements. */
  method DotOperator(lhs: DeviceArray, rhs: DeviceArray) returns (r: int)
    requires lhs.Valid() && rhs.Valid()
    requires lhs.Count() == rhs.Count()
    ensures |lhs.Contents()| == |rhs.Contents()| && r == Dot(lhs.Contents(), rhs.Contents())
  {
    lhs.CountIsLength();
    rhs.CountIsLength();
    r := DotProduct(lhs, rhs);
    DotPrefixOfEqualLengths(lhs.Contents(), rhs.Contents());
  }

  // ---------------------------------------------------------------------
  // Reductions
  // ---------------------------------------------------------------------

  /** sum(): one thread accumulates into a fresh device value, read back. */
  method Sum(self: DeviceArray) returns (r: int)
    requires self.Valid()
    ensures r == SeqSum(self.Contents())
  {
    self.CountIsLength();
    var result := new int[1];
    var count := self.Count();
    assert self.buffer.baseAddress[..count] == self.Contents();
    var args := ReductionArguments(self.buffer.baseAddress, count, result);
    SumKernel(args[0].address, args[1].n, args[2].address);
    r := result[0];
  }

  /** sumOfAbsoluteValues() */
  method SumOfAbsoluteValues(self: DeviceArray) returns (r: int)
    requires self.Valid()
    ensures r == SeqAbsSum(self.Contents())
    ensures r >= 0 && -r <= SeqSum(self.Contents()) <= r
  {
    self.CountIsLength();
    var result := new int[1];
    var count := self.Count();
    assert self.buffer.baseAddress[..count] == self.Contents();
    var args := ReductionArguments(self.buffer.baseAddress, count, result);
    AsumKernel(args[0].address, args[1].n, args[2].address);
    r := result[0];
    AbsSumBoundsSum(self.Contents());
  }

  // ---------------------------------------------------------------------
  // Mutating operations
  // ---------------------------------------------------------------------

  /** Distinct buffers own distinct device allocations. */
  predicate SeparateAllocations(a: DeviceArray, b: DeviceArray)
    reads a, b
  {
    a.buffer == b.buffer || a.buffer.baseAddress != b.buffer.baseAddress
  }

  /** vectorAdd(_:multipliedBy:): `self[i] += alpha * other[i]` for every index of self.
      other.count is not checked; a shorter other would be read out of bounds. */
  method VectorAdd(self: DeviceArray, other: DeviceArray, alpha: int)
    requires self.Valid() && other.Valid() && self != other
    requires 0 < self.Count() <= other.Count()
    requires SeparateAllocations(self, other)
    modifies self, self.buffer, if self.buffer.refs == 1 then {self.buffer.baseAddress} else {}
    ensures self.Valid() && self.buffer.holders == {self}
    ensures self.Count() == old(self.Count())
    ensures self.Contents() == Axpy(alpha, old(other.Contents()), old(self.Contents()), old(self.Count()))
    ensures other.Valid() && other.Contents() == old(other.Contents())
    ensures old(self.buffer.refs) == 1 ==> self.buffer == old(self.buffer)
    ensures old(self.buffer.refs) != 1 ==>
      && fresh(self.buffer) && fresh(self.buffer.baseAddress)
      && old(self.buffer).Valid()
      && old(self.buffer).refs == old(self.buffer.refs) - 1
      && old(self.buffer).holders == old(self.buffer.holders) - {self}
    ensures forall h :: h in old(self.buffer.holders) && h != self ==>
      h.Valid() && h.Contents() == old(h.Contents())
  {
    self.CountIsLength();
    other.CountIsLength();
    assert self !in other.buffer.holders || other.buffer == self.buffer;
    var b := self.CowBuffer();
    var count := self.Count();
    var g := Geometry(AxpyThreshold, count);
    var args := AxpyArguments(alpha, other.buffer.baseAddress, b.baseAddress, count);
    AxpyKernel(args[0].value, args[1].address, args[2].address, args[3].n, g.gridDim, g.blockDim);
  }

  /** vectorAdding(_:multipliedBy:): a copy of self with other added; self is unchanged. */
  method VectorAdding(self: DeviceArray, other: DeviceArray, alpha: int) returns (copy: DeviceArray)
    requires self.Valid() && other.Valid()
    requires 0 < self.Count() <= other.Count()
    requires SeparateAllocations(self, other)
    modifies self.buffer
    ensures fresh(copy) && copy.Valid()
    ensures fresh(copy.buffer) && fresh(copy.buffer.baseAddress) && copy.buffer.holders == {copy}
    ensures copy.Contents() == Axpy(alpha, old(other.Contents()), old(self.Contents()), old(self.Count()))
    ensures self.Valid() && self.buffer == old(self.buffer)
    ensures self.Contents() == old(self.Contents())
    ensures self.buffer.refs == old(self.buffer.refs) && self.buffer.holders == old(self.buffer.holders)
    ensures other.Valid() && other.Contents() == old(other.Contents())
  {
    copy := new DeviceArray.Copy(self);
    assert self in copy.buffer.holders && self != copy;
    VectorAdd(copy, other, alpha);
  }

  /** vectorScale(by:): `self[i] *= alpha` for every index. */
  method VectorScale(self: DeviceArray, alpha: int)
    requires self.Valid() && self.Count() > 0
    modifies self, self.buffer, if self.buffer.refs == 1 then {self.buffer.baseAddress} else {}
    ensures self.Valid() && self.buffer.holders == {self}
    ensures self.Count() == old(self.Count())
    ensures self.Contents() == Scaled(old(self.Contents()), alpha, old(self.Count()))
    ensures old(self.buffer.refs) == 1 ==> self.buffer == old(self.buffer)
    ensures old(self.buffer.refs) != 1 ==>
      && fresh(self.buffer) && fresh(self.buffer.baseAddress)
      && old(self.buffer).Valid()
      && old(self.buffer).refs == old(self.buffer.refs) - 1
      && old(self.buffer).holders == old(self.buffer.holders) - {self}
    ensures forall h :: h in old(self.buffer.holders) && h != self ==>
      h.Valid() && h.Contents() == old(h.Contents())
  {
    self.CountIsLength();
    var b := self.CowBuffer();
    var count := self.Count();
    var g := Geometry(ElementwiseThreshold, count);
    var args := ScaleArguments(b.baseAddress, alpha, count);
    ScaleKernel(args[0].address, args[1].value, args[2].n, g.gridDim, g.blockDim);
  }

  /** vectorScaled(by:): a scaled copy; self is unchanged. */
  method VectorScaled(self: DeviceArray, alpha: int) returns (copy: DeviceArray)
    requires self.Valid() && self.Count() > 0
    modifies self.buffer
    ensures fresh(copy) && copy.Valid()
    ensures fresh(copy.buffer) && fresh(copy.buffer.baseAddress) && copy.buffer.holders == {copy}
    ensures copy.Contents() == Scaled(old(self.Contents()), alpha, old(self.Count()))
    ensures self.Valid() && self.buffer == old(self.buffer)
    ensures self.Contents() == old(self.Contents())
    ensures self.buffer.refs == old(self.buffer.refs) && self.buffer.holders == old(self.buffer.holders)
  {
    copy := new DeviceArray.Copy(self);
    assert self in copy.buffer.holders && self != copy;
    VectorScale(copy, alpha);
  }

  /** fill(with:): every element becomes `element`. When the element is 4 bytes
      wide a memset writes it first; the fill kernel then runs in every case,
      with the swapped launch as written. */
  method Fill(self: DeviceArray, element: int, elementStride: nat)
    requires self.Valid() && self.Count() > 0
    modifies self, self.buffer, if self.buffer.refs == 1 then {self.buffer.baseAddress} else {}
    ensures self.Valid() && self.buffer.holders == {self}
    ensures self.Count() == old(self.Count())
    ensures self.Contents() == seq(old(self.Count()), _ => element)
    ensures old(self.buffer.refs) == 1 ==> self.buffer == old(self.buffer)
    ensures old(self.buffer.refs) != 1 ==>
      && fresh(self.buffer) && fresh(self.buffer.baseAddress)
      && old(self.buffer).Valid()
      && old(self.buffer).refs == old(self.buffer.refs) - 1
      && old(self.buffer).holders == old(self.buffer.holders) - {self}
    ensures forall h :: h in old(self.buffer.holders) && h != self ==>
      h.Valid() && h.Contents() == old(h.Contents())
  {
    self.CountIsLength();
    var count := self.Count();
    if elementStride == 4 {
      var p := self.CowBuffer();
      forall i | 0 <= i < count {
        p.baseAddress[i] := element;
      }
    }
    var g := FillGeometry(count);
    var b := self.CowBuffer();
    var before := b.baseAddress[..];
    var args := FillArguments(b.baseAddress, element, count);
    FillKernel(args[0].address, args[1].value, args[2].n, g.gridDim, g.blockDim);
    FilledWhole(before, element);
  }

  /** transform(by:): apply the functor to every element, in place. The launch
      fills the template's result slot with the array itself. */
  method Transform(self: DeviceArray, functor: int -> int)
    requires self.Valid() && self.Count() > 0
    modifies self, self.buffer, if self.buffer.refs == 1 then {self.buffer.baseAddress} else {}
    ensures self.Valid() && self.buffer.holders == {self}
    ensures self.Count() == old(self.Count())
    ensures self.Contents() == Transformed(functor, old(self.Contents()), old(self.Contents()), old(self.Count()))
    ensures old(self.buffer.refs) == 1 ==> self.buffer == old(self.buffer)
    ensures old(self.buffer.refs) != 1 ==>
      && fresh(self.buffer) && fresh(self.buffer.baseAddress)
      && old(self.buffer).Valid()
      && old(self.buffer).refs == old(self.buffer.refs) - 1
      && old(self.buffer).holders == old(self.buffer.holders) - {self}
    ensures forall h :: h in old(self.buffer.holders) && h != self ==>
      h.Valid() && h.Contents() == old(h.Contents())
  {
    self.CountIsLength();
    var b := self.CowBuffer();
    var count := self.Count();
    var g := Geometry(ElementwiseThreshold, count);
    var args := TransformArguments(b.baseAddress, count);
    TransformKernel(functor, args[0].address, args[1].n, args[2].address, g.gridDim, g.blockDim);
  }

  // ---------------------------------------------------------------------
  // Value semantics seen from a caller
  // ---------------------------------------------------------------------

  /** A = [s]; B = A; B.fill(x): A still holds s, B holds only x. */
  method FillCopyIsolation(s: seq<int>, x: int, elementStride: nat) returns (a: seq<int>, b: seq<int>)
    requires |s| > 0
    ensures a == s
    ensures b == seq(|s|, _ => x)
  {
    var arrayA := new DeviceArray.FromHost(s);
    var arrayB := new DeviceArray.Copy(arrayA);
    Fill(arrayB, x, elementStride);
    a := arrayA.MakeHostArray();
    b := arrayB.MakeHostArray();
  }

  /** Adding an array to itself through vectorAdding doubles a copy, not the original. */
  method SelfAddIsolation(s: seq<int>) returns (original: seq<int>, doubled: seq<int>)
    requires |s| > 0
    ensures original == s
    ensures |doubled| == |s| && forall i :: 0 <= i < |s| ==> doubled[i] == 2 * s[i]
  {
    var arrayA := new DeviceArray.FromHost(s);
    var sum := VectorAdding(arrayA, arrayA, 1);
    original := arrayA.MakeHostArray();
    doubled := sum.MakeHostArray();
  }

  /** `a.vectorAdd(a)`: the argument is a second reference to a's buffer, so
      the write clones it and a becomes a + a. */
  method SelfAddInPlace(s: seq<int>) returns (doubled: seq<int>)
    requires |s| > 0
    ensures |doubled| == |s| && forall i :: 0 <= i < |s| ==> doubled[i] == 2 * s[i]
  {
    var arrayA := new DeviceArray.FromHost(s);
    var argument := new DeviceArray.Copy(arrayA);
    VectorAdd(arrayA, argument, 1);
    argument.Release();
    doubled := arrayA.MakeHostArray();
  }

  /** `var b = a; b.vectorScale(by: 2); a.vectorAdd(b)`: the scale clones b's
      buffer into an allocation of its own, so a can then add it. */
  method ScaleThenAdd(s: seq<int>) returns (a: seq<int>, b: seq<int>)
    requires |s| > 0
    ensures |a| == |s| && forall i :: 0 <= i < |s| ==> a[i] == 3 * s[i]
    ensures |b| == |s| && forall i :: 0 <= i < |s| ==> b[i] == 2 * s[i]
  {
    var arrayA := new DeviceArray.FromHost(s);
    var arrayB := new DeviceArray.Copy(arrayA);
    VectorScale(arrayB, 2);
    VectorAdd(arrayA, arrayB, 1);
    a := arrayA.MakeHostArray();
    b := arrayB.MakeHostArray();
  }

  /** The array vectorScaled returns is its buffer's only holder, so a write to
      it happens in place. */
  method WriteToScaledCopy(s: seq<int>, v: int) returns (original: seq<int>, scaled: seq<int>, inPlace: bool)
    requires |s| > 0
    ensures original == s
    ensures |scaled| == |s| && scaled[0] == v && forall i :: 1 <= i < |s| ==> scaled[i] == 2 * s[i]
    ensures inPlace
  {
    var arrayA := new DeviceArray.FromHost(s);
    var c := VectorScaled(arrayA, 2);
    var before := c.buffer;
    c.Set(0, v);
    inPlace := c.buffer == before;
    original := arrayA.MakeHostArray();
    scaled := c.MakeHostArray();
  }
}
