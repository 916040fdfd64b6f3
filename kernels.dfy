/**
 * What each kernel body computes (Sources/Warp/KernelSources.swift), run
 * sequentially on the host. The reductions are the single-thread loops
 * their templates spell out; the element-wise kernels are launched as a
 * loop over every thread id `blockIdx.x * blockDim.x + threadIdx.x`, that is
 * over 0 .. gridDim * blockDim, each thread writing only its own index and
 * only when the id is below `count`. FUNC and OP are parameters.
 * Elements are mathematical integers.
 */
module WarpKernels {

  function Min(a: int, b: int): int { if a < b then a else b }

  function Abs(x: int): nat { if x < 0 then -x else x }

  // ---------------------------------------------------------------------
  // Reference definitions
  // ---------------------------------------------------------------------

  /** The sum of the elements, accumulated from the front. */
  function SeqSum(s: seq<int>): int
  {
    if |s| == 0 then 0 else SeqSum(s[..|s| - 1]) + s[|s| - 1]
  }

  /** The sum of the absolute values of the elements. */
  function SeqAbsSum(s: seq<int>): int
  {
    if |s| == 0 then 0 else SeqAbsSum(s[..|s| - 1]) + Abs(s[|s| - 1])
  }

  /** The first n elements of v replaced by x. */
  function Filled(v: seq<int>, x: int, n: nat): seq<int>
    requires n <= |v|
  {
    seq(|v|, i requires 0 <= i < |v| => if i < n then x else v[i])
  }

  /** result with its first n elements replaced by func of vector's. */
  function Transformed(func: int -> int, vector: seq<int>, result: seq<int>, n: nat): seq<int>
    requires n <= |vector| && n <= |result|
  {
    seq(|result|, i requires 0 <= i < |result| => if i < n then func(vector[i]) else result[i])
  }

  /** result with its first n elements replaced by op(a * x[i], b * y[i]). */
  function Elementwise(op: (int, int) -> int, a: int, x: seq<int>, b: int, y: seq<int>, result: seq<int>, n: nat): seq<int>
    requires n <= |x| && n <= |y| && n <= |result|
  {
    seq(|result|, i requires 0 <= i < |result| => if i < n then op(a * x[i], b * y[i]) else result[i])
  }

  /** result with its first n elements replaced by op(a * x[i], rval). */
  function ScalarRight(op: (int, int) -> int, a: int, x: seq<int>, rval: int, result: seq<int>, n: nat): seq<int>
    requires n <= |x| && n <= |result|
  {
    seq(|result|, i requires 0 <= i < |result| => if i < n then op(a * x[i], rval) else result[i])
  }

  /** y with alpha * x[i] added to each of its first n elements. */
  function Axpy(alpha: int, x: seq<int>, y: seq<int>, n: nat): seq<int>
    requires n <= |x| && n <= |y|
  {
    seq(|y|, i requires 0 <= i < |y| => if i < n then y[i] + alpha * x[i] else y[i])
  }

  /** y with each of its first n elements multiplied by alpha. */
  function Scaled(y: seq<int>, alpha: int, n: nat): seq<int>
    requires n <= |y|
  {
    seq(|y|, i requires 0 <= i < |y| => if i < n then alpha * y[i] else y[i])
  }

  /** The dot product of two sequences of the same length. */
  function Dot(s: seq<int>, t: seq<int>): int
    requires |s| == |t|
  {
    if |s| == 0 then 0 else Dot(s[..|s| - 1], t[..|t| - 1]) + s[|s| - 1] * t[|t| - 1]
  }

  // ---------------------------------------------------------------------
  // Kernels: sum and asum (launched <<<(1, 1)>>>: one thread runs the loop)
  // ---------------------------------------------------------------------

  /** `*result = 0; for (i < count) *result += vector[i];` */
  method SumKernel(vector: array<int>, count: nat, result: array<int>)
    requires count <= vector.Length && result.Length == 1 && result != vector
    modifies result
    ensures result[0] == SeqSum(vector[..count])
  {
    result[0] := 0;
    for i := 0 to count
      invariant result[0] == SeqSum(vector[..i])
    {
      assert vector[..i + 1][..i] == vector[..i];
      result[0] := result[0] + vector[i];
    }
  }

  /** `*result = 0; for (i < count) *result += abs(vector[i]);` */
  method AsumKernel(vector: array<int>, count: nat, result: array<int>)
    requires count <= vector.Length && result.Length == 1 && result != vector
    modifies result
    ensures result[0] == SeqAbsSum(vector[..count])
  {
    result[0] := 0;
    for i := 0 to count
      invariant result[0] == SeqAbsSum(vector[..i])
    {
      assert vector[..i + 1][..i] == vector[..i];
      result[0] := result[0] + Abs(vector[i]);
    }
  }

  // ---------------------------------------------------------------------
  // Kernels: guarded per-thread writes
  // ---------------------------------------------------------------------

  /** fill: `if (tid < count) vector[tid] = x;` */
  method FillKernel(vector: array<int>, x: int, count: nat, gridDim: nat, blockDim: nat)
    requires count <= vector.Length
    modifies vector
    ensures vector[..] == Filled(old(vector[..]), x, Min(count, gridDim * blockDim))
  {
    for tid := 0 to gridDim * blockDim
      invariant forall i :: 0 <= i < vector.Length ==>
        vector[i] == if i < Min(count, tid) then x else old(vector[i])
    {
      if tid < count {
        vector[tid] := x;
      }
    }
  }

  /** transform: `if (tid < count) result[tid] = FUNC(vector[tid]);`
      vector and result may be the same allocation. */
  method TransformKernel(func: int -> int, vector: array<int>, count: nat, result: array<int>, gridDim: nat, blockDim: nat)
    requires count <= vector.Length && count <= result.Length
    modifies result
    ensures result[..] == Transformed(func, old(vector[..]), old(result[..]), Min(count, gridDim * blockDim))
  {
    for tid := 0 to gridDim * blockDim
      invariant forall i :: 0 <= i < result.Length ==>
        result[i] == if i < Min(count, tid) then func(old(vector[i])) else old(result[i])
      invariant vector != result ==> vector[..] == old(vector[..])
    {
      if tid < count {
        result[tid] := func(vector[tid]);
      }
    }
  }

  /** elementwise: `if (tid < count) result[tid] = OP(a * x[tid], b * y[tid]);` */
  method ElementwiseKernel(op: (int, int) -> int, a: int, x: array<int>, b: int, y: array<int>, count: nat,
                           result: array<int>, gridDim: nat, blockDim: nat)
    requires count <= x.Length && count <= y.Length && count <= result.Length
    modifies result
    ensures result[..] == Elementwise(op, a, old(x[..]), b, old(y[..]), old(result[..]), Min(count, gridDim * blockDim))
  {
    for tid := 0 to gridDim * blockDim
      invariant forall i :: 0 <= i < result.Length ==>
        result[i] == if i < Min(count, tid) then op(a * old(x[i]), b * old(y[i])) else old(result[i])
      invariant x != result ==> x[..] == old(x[..])
      invariant y != result ==> y[..] == old(y[..])
    {
      if tid < count {
        result[tid] := op(a * x[tid], b * y[tid]);
      }
    }
  }

  /** scalarRight: `if (tid < count) result[tid] = OP(a * x[tid], rval);` */
  method ScalarRightKernel(op: (int, int) -> int, a: int, x: array<int>, rval: int, count: nat,
                           result: array<int>, gridDim: nat, blockDim: nat)
    requires count <= x.Length && count <= result.Length
    modifies result
    ensures result[..] == ScalarRight(op, a, old(x[..]), rval, old(result[..]), Min(count, gridDim * blockDim))
  {
    for tid := 0 to gridDim * blockDim
      invariant forall i :: 0 <= i < result.Length ==>
        result[i] == if i < Min(count, tid) then op(a * old(x[i]), rval) else old(result[i])
      invariant x != result ==> x[..] == old(x[..])
    {
      if tid < count {
        result[tid] := op(a * x[tid], rval);
      }
    }
  }

  /** axpy, with the argument order of its launch: `if (tid < count) y[tid] += alpha * x[tid];` */
  method AxpyKernel(alpha: int, x: array<int>, y: array<int>, count: nat, gridDim: nat, blockDim: nat)
    requires count <= x.Length && count <= y.Length
    modifies y
    ensures y[..] == Axpy(alpha, old(x[..]), old(y[..]), Min(count, gridDim * blockDim))
  {
    for tid := 0 to gridDim * blockDim
      invariant forall i :: 0 <= i < y.Length ==>
        y[i] == if i < Min(count, tid) then old(y[i]) + alpha * old(x[i]) else old(y[i])
      invariant x != y ==> x[..] == old(x[..])
    {
      if tid < count {
        y[tid] := y[tid] + alpha * x[tid];
      }
    }
  }

  /** scale, with the argument order of its launch: `if (tid < count) y[tid] *= alpha;` */
  method ScaleKernel(y: array<int>, alpha: int, count: nat, gridDim: nat, blockDim: nat)
    requires count <= y.Length
    modifies y
    ensures y[..] == Scaled(old(y[..]), alpha, Min(count, gridDim * blockDim))
  {
    for tid := 0 to gridDim * blockDim
      invariant forall i :: 0 <= i < y.Length ==>
        y[i] == if i < Min(count, tid) then alpha * old(y[i]) else old(y[i])
    {
      if tid < count {
        y[tid] := alpha * y[tid];
      }
    }
  }

  // ---------------------------------------------------------------------
  // Properties of the reference definitions
  // ---------------------------------------------------------------------

  /** With integer elements the asum result is never negative, and it bounds |sum|. */
  lemma {:induction false} AbsSumBoundsSum(s: seq<int>)
    ensures SeqAbsSum(s) >= 0
    ensures -SeqAbsSum(s) <= SeqSum(s) <= SeqAbsSum(s)
  {
    if |s| > 0 {
      AbsSumBoundsSum(s[..|s| - 1]);
    }
  }

  /** The sum of a sequence whose elements all equal x. */
  lemma {:induction false} SumOfConstant(s: seq<int>, x: int)
    requires forall i :: 0 <= i < |s| ==> s[i] == x
    ensures SeqSum(s) == |s| * x
  {
    if |s| > 0 {
      SumOfConstant(s[..|s| - 1], x);
    }
  }

  /** Filling twice with the same value is filling once (the stride-4 memset
      followed by the fill kernel leaves the same result). */
  lemma FilledIdempotent(v: seq<int>, x: int, n: nat)
    requires n <= |v|
    ensures Filled(Filled(v, x, n), x, n) == Filled(v, x, n)
  {
  }

  /** Filling a whole array leaves only x, whatever it held. */
  lemma FilledWhole(v: seq<int>, x: int)
    ensures Filled(v, x, |v|) == seq(|v|, _ => x)
    ensures SeqSum(Filled(v, x, |v|)) == |v| * x
  {
    SumOfConstant(Filled(v, x, |v|), x);
  }

  /** Scaling the whole array scales its sum. */
  lemma {:induction false} SumOfScaled(y: seq<int>, alpha: int)
    ensures SeqSum(Scaled(y, alpha, |y|)) == alpha * SeqSum(y)
  {
    if |y| > 0 {
      var k := |y| - 1;
      assert Scaled(y, alpha, |y|)[..k] == Scaled(y[..k], alpha, k);
      SumOfScaled(y[..k], alpha);
      assert alpha * SeqSum(y) == alpha * SeqSum(y[..k]) + alpha * y[k];
    }
  }

  /** axpy over the whole of y adds alpha times the sum of the x it read. */
  lemma {:induction false} SumOfAxpy(alpha: int, x: seq<int>, y: seq<int>)
    requires |y| <= |x|
    ensures SeqSum(Axpy(alpha, x, y, |y|)) == SeqSum(y) + alpha * SeqSum(x[..|y|])
  {
    if |y| > 0 {
      var k := |y| - 1;
      assert Axpy(alpha, x, y, |y|)[..k] == Axpy(alpha, x, y[..k], k);
      assert x[..|y|][..k] == x[..k];
      SumOfAxpy(alpha, x, y[..k]);
      assert alpha * SeqSum(x[..|y|]) == alpha * SeqSum(x[..k]) + alpha * x[k];
    }
  }

  /** Two in-place transforms are one transform by the composed function. */
  lemma TransformedComposes(f: int -> int, g: int -> int, v: seq<int>, n: nat)
    requires n <= |v|
    ensures Transformed(g, Transformed(f, v, v, n), Transformed(f, v, v, n), n)
         == Transformed(x => g(f(x)), v, v, n)
  {
  }

  /** scalarRight is elementwise with b = 1 and a y that repeats rval. */
  lemma ScalarRightIsElementwise(op: (int, int) -> int, a: int, x: seq<int>, rval: int, result: seq<int>, n: nat)
    requires n <= |x| && n <= |result|
    ensures ScalarRight(op, a, x, rval, result, n) == Elementwise(op, a, x, 1, seq(|x|, _ => rval), result, n)
  {
  }

  /** The dot product does not depend on the order of its operands. */
  lemma {:induction false} DotIsSymmetric(s: seq<int>, t: seq<int>)
    requires |s| == |t|
    ensures Dot(s, t) == Dot(t, s)
  {
    if |s| > 0 {
      DotIsSymmetric(s[..|s| - 1], t[..|t| - 1]);
    }
  }

  /** A vector's dot product with itself is never negative. */
  lemma {:induction false} DotWithSelfNonNegative(s: seq<int>)
    ensures Dot(s, s) >= 0
  {
    if |s| > 0 {
      DotWithSelfNonNegative(s[..|s| - 1]);
    }
  }
}
