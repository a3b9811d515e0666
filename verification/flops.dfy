/**
  Kernel variants and the closed-form peak throughput
  (`compute_gflops`, src/cpu/arch/arch.cpp:34-41 and 137-179).

  The per-variant constants `B_<variant>_OP_IT`, `B_<variant>_BYTES`,
  `B_<variant>_FMA_AV` and the kernel trip count `MAXFLOPS_ITERS` come from
  headers that are not part of this model; they are a `Constants` parameter
  and their values are never assumed.
 */
module Flops {
  import opened Wrappers

  /** The six kernel variants, named after their vector width and operations
      per iteration. */
  datatype Variant = B256_6_NoFma | B256_5 | B256_8 | B256_10 | B512_8 | B512_12

  /** Vector-width class of a kernel. */
  datatype Width = W256 | W512

  /** The width class a variant's name declares. */
  function WidthOf(v: Variant): Width {
    match v
    case B512_8 | B512_12 => W512
    case _ => W256
  }

  /** The variant's value in the anonymous enum of arch.cpp. */
  function Code(v: Variant): int {
    match v
    case B256_6_NoFma => 0
    case B256_5 => 1
    case B256_8 => 2
    case B256_10 => 3
    case B512_8 => 4
    case B512_12 => 5
  }

  /** The variant with enum value `code`, if any. */
  function FromCode(code: int): (r: Option<Variant>)
    ensures r.Some? <==> 0 <= code <= 5
    ensures r.Some? ==> Code(r.value) == code
  {
    if code == 0 then Some(B256_6_NoFma)
    else if code == 1 then Some(B256_5)
    else if code == 2 then Some(B256_8)
    else if code == 3 then Some(B256_10)
    else if code == 4 then Some(B512_8)
    else if code == 5 then Some(B512_12)
    else None
  }

  /** Decoding an encoded variant gives it back. */
  lemma CodeRoundTrip(v: Variant)
    ensures FromCode(Code(v)) == Some(v)
  {
  }

  /** The operation mix of one variant. */
  datatype Shape = Shape(opPerIt: int, bytesInVect: int, fmaAvailable: int)

  /** The header constants the throughput formula and the thread check use. */
  datatype Constants = Constants(
    maxflopsIters: int,
    maxNumberThreads: int,
    b256_6NoFma: Shape,
    b256_5: Shape,
    b256_8: Shape,
    b256_10: Shape,
    b512_8: Shape,
    b512_12: Shape)

  /** The constants of one variant. */
  function ShapeOf(k: Constants, v: Variant): Shape {
    match v
    case B256_6_NoFma => k.b256_6NoFma
    case B256_5 => k.b256_5
    case B256_8 => k.b256_8
    case B256_10 => k.b256_10
    case B512_8 => k.b512_8
    case B512_12 => k.b512_12
  }

  /** Euclidean division of a non-negative number brackets it between two
      consecutive multiples of the divisor. */
  lemma DivMod(a: int, b: int)
    requires a >= 0 && b > 0
    ensures 0 <= a / b && (a / b) * b <= a < (a / b) * b + b
  {
    assert a == (a / b) * b + a % b;
  }

  /** C's `int / int`: the quotient truncated toward zero. */
  function TruncDiv(a: int, b: int): (q: int)
    requires b > 0
    ensures a >= 0 ==> 0 <= q && q * b <= a < q * b + b
    ensures a < 0 ==> q <= 0 && q * b - b < a <= q * b
  {
    if a >= 0 then DivMod(a, b); a / b
    else DivMod(-a, b); -((-a) / b)
  }

  /** Single-precision lanes in a vector of `bytes` bytes (`bytes_in_vect / 4`). */
  function Lanes(bytes: int): int {
    TruncDiv(bytes, 4)
  }

  /** Floating-point operations one thread's kernel performs. */
  function PerThreadFlops(k: Constants, s: Shape): int {
    k.maxflopsIters * s.opPerIt * Lanes(s.bytesInVect) * s.fmaAvailable
  }

  /** The integer numerator of `compute_gflops`, as it groups the factors. */
  function FlopCount(k: Constants, nThreads: int, s: Shape): (r: int) {
    nThreads * k.maxflopsIters * s.opPerIt * Lanes(s.bytesInVect) * s.fmaAvailable
  }

  /** Operations per second divided by 10^9, as an exact rational. */
  function Giga(flops: int): real {
    flops as real / 1000000000.0
  }

  /** `compute_gflops(n_threads, bench)`: the variant's peak in GFLOPS, or
      the sentinel -1.0 for a code that names no variant. */
  function ComputeGflops(k: Constants, nThreads: int, bench: int): (r: real)
    ensures FromCode(bench).None? ==> r == -1.0
    ensures FromCode(bench).Some? ==>
      r == Giga(nThreads * PerThreadFlops(k, ShapeOf(k, FromCode(bench).value)))
  {
    var s :=
      if bench == 0 then Some(k.b256_6NoFma)
      else if bench == 1 then Some(k.b256_5)
      else if bench == 2 then Some(k.b256_8)
      else if bench == 3 then Some(k.b256_10)
      else if bench == 4 then Some(k.b512_8)
      else if bench == 5 then Some(k.b512_12)
      else None;
    match s
    case None => -1.0
    case Some(shape) => FlopsPerThread(k, nThreads, shape); Giga(FlopCount(k, nThreads, shape))
  }

  /** The flop count is the thread count times one thread's work. */
  lemma FlopsPerThread(k: Constants, nThreads: int, s: Shape)
    ensures FlopCount(k, nThreads, s) == nThreads * PerThreadFlops(k, s)
  {
    var a, b, c, d := k.maxflopsIters, s.opPerIt, Lanes(s.bytesInVect), s.fmaAvailable;
    assert ((nThreads * a) * b) * c * d == nThreads * (a * b * c * d);
  }

  /** The flop count is additive in the thread count. */
  lemma FlopsAdditive(k: Constants, s: Shape, m: int, n: int)
    ensures FlopCount(k, m + n, s) == FlopCount(k, m, s) + FlopCount(k, n, s)
  {
    FlopsPerThread(k, m + n, s);
    FlopsPerThread(k, m, s);
    FlopsPerThread(k, n, s);
    var p := PerThreadFlops(k, s);
    assert (m + n) * p == m * p + n * p;
  }

  /** Doubling the thread count doubles the reported peak of every variant. */
  lemma GflopsLinear(k: Constants, nThreads: int, bench: int)
    requires FromCode(bench).Some?
    ensures ComputeGflops(k, 2 * nThreads, bench) == 2.0 * ComputeGflops(k, nThreads, bench)
  {
    var s := ShapeOf(k, FromCode(bench).value);
    FlopsAdditive(k, s, nThreads, nThreads);
    FlopsPerThread(k, nThreads, s);
    FlopsPerThread(k, 2 * nThreads, s);
  }

  /** With non-negative constants and thread count the peak is never negative,
      so it cannot be mistaken for the sentinel. */
  lemma GflopsNonNegative(k: Constants, nThreads: int, bench: int)
    requires FromCode(bench).Some?
    requires nThreads >= 0 && k.maxflopsIters >= 0
    requires var s := ShapeOf(k, FromCode(bench).value);
      s.opPerIt >= 0 && s.bytesInVect >= 0 && s.fmaAvailable >= 0
    ensures ComputeGflops(k, nThreads, bench) >= 0.0
  {
    var s := ShapeOf(k, FromCode(bench).value);
    var a, b, c, d := k.maxflopsIters, s.opPerIt, Lanes(s.bytesInVect), s.fmaAvailable;
    assert a * b * c * d >= 0;
  }

  /** A 256-bit variant with eight fused multiply-adds per iteration on one
      thread: 8 * 8 lanes * 2 = 128 operations per iteration, 12.8 GFLOPS
      for 10^8 iterations. */
  lemma PeakExample(k: Constants)
    requires k.maxflopsIters == 100000000
    requires k.b256_8 == Shape(8, 32, 2)
    ensures FlopCount(k, 1, k.b256_8) == 128 * k.maxflopsIters
    ensures ComputeGflops(k, 1, Code(B256_8)) == 12.8
  {
  }
}
