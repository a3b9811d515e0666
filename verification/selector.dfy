/**
  Binding a benchmark type to its kernel and peak (`select_benchmark`,
  src/cpu/arch/arch.cpp:199-267), and the width test `compute()` uses to
  pick the slot it calls (src/cpu/arch/arch.cpp:347).
 */
module Selector {
  import opened Wrappers
  import opened Catalog
  import opened Flops

  /** The kernel entry points, as opaque identities. */
  datatype Kernel =
    | ComputeSandyBridge | ComputeIvyBridge | ComputeHaswell
    | ComputeSkylake256 | ComputeSkylake512 | ComputeBroadwell
    | ComputeIceLake | ComputeKnl | ComputeZen | ComputeZen2

  /** The vector type a kernel's signature takes: `__m512` for the two
      AVX-512 kernels, `__m256` for the rest. */
  function KernelWidth(kernel: Kernel): Width {
    match kernel
    case ComputeSkylake512 | ComputeKnl => W512
    case _ => W256
  }

  /** The test `compute()` makes to choose the 512-bit slot: it picks out
      exactly the benchmarks of the AVX-512 class. */
  predicate Uses512(t: BenchType)
    ensures Uses512(t) <==> t != Invalid && IsaOf(t) == IsaAvx512
  {
    t == Skylake512 || t == KnightsLanding
  }

  /** What `select_benchmark` binds to one benchmark type. */
  datatype Binding = Binding(kernel: Kernel, variant: Variant)

  /** The binding table of `select_benchmark`; `None` for `Invalid`.
      Every binding is width-consistent: the kernel's vector type, the
      variant's width and the display name's instruction-set class agree
      with the test `compute()` makes, and only the AVX-only class uses the
      variant without FMA. */
  function Bind(t: BenchType): (r: Option<Binding>)
    ensures r.Some? <==> t != Invalid
    ensures r.Some? ==> KernelWidth(r.value.kernel) == WidthOf(r.value.variant)
    ensures r.Some? ==> (WidthOf(r.value.variant) == W512 <==> Uses512(t))
    ensures r.Some? ==> (r.value.variant == B256_6_NoFma <==> IsaOf(t) == IsaAvx)
  {
    match t
    case SandyBridge => Some(Binding(ComputeSandyBridge, B256_6_NoFma))
    case IvyBridge => Some(Binding(ComputeIvyBridge, B256_6_NoFma))
    case Haswell => Some(Binding(ComputeHaswell, B256_10))
    case Skylake512 => Some(Binding(ComputeSkylake512, B512_8))
    case Skylake256 => Some(Binding(ComputeSkylake256, B256_8))
    case Broadwell => Some(Binding(ComputeBroadwell, B256_8))
    case KabyLake => Some(Binding(ComputeSkylake256, B256_8))
    case CoffeeLake => Some(Binding(ComputeSkylake256, B256_8))
    case CometLake => Some(Binding(ComputeSkylake256, B256_8))
    case IceLake => Some(Binding(ComputeIceLake, B256_8))
    case KnightsLanding => Some(Binding(ComputeKnl, B512_12))
    case Zen => Some(Binding(ComputeZen, B256_5))
    case ZenPlus => Some(Binding(ComputeZen, B256_5))
    case Zen2 => Some(Binding(ComputeZen2, B256_10))
    case Invalid => None
  }

  /** Which benchmark types `select_benchmark` binds to each variant. */
  lemma VariantClasses(t: BenchType)
    requires t != Invalid
    ensures var v := Bind(t).value.variant;
      && (v == B256_6_NoFma <==> t in {SandyBridge, IvyBridge})
      && (v == B256_10 <==> t in {Haswell, Zen2})
      && (v == B256_8 <==> t in {Skylake256, Broadwell, KabyLake, CoffeeLake, CometLake, IceLake})
      && (v == B512_8 <==> t == Skylake512)
      && (v == B512_12 <==> t == KnightsLanding)
      && (v == B256_5 <==> t in {Zen, ZenPlus})
  {
  }

  /** Which benchmark types `select_benchmark` binds to each kernel: the
      Skylake kernel serves the four Skylake-derived 256-bit types, the Zen
      kernel serves Zen and Zen+, and every other type has its own. */
  lemma KernelClasses(t: BenchType)
    requires t != Invalid
    ensures var kernel := Bind(t).value.kernel;
      && (kernel == ComputeSandyBridge <==> t == SandyBridge)
      && (kernel == ComputeIvyBridge <==> t == IvyBridge)
      && (kernel == ComputeHaswell <==> t == Haswell)
      && (kernel == ComputeSkylake256 <==> t in {Skylake256, KabyLake, CoffeeLake, CometLake})
      && (kernel == ComputeSkylake512 <==> t == Skylake512)
      && (kernel == ComputeBroadwell <==> t == Broadwell)
      && (kernel == ComputeIceLake <==> t == IceLake)
      && (kernel == ComputeKnl <==> t == KnightsLanding)
      && (kernel == ComputeZen <==> t in {Zen, ZenPlus})
      && (kernel == ComputeZen2 <==> t == Zen2)
  {
  }

  /** `struct benchmark`: a thread count, the peak, the name, the type and
      the two kernel slots (`None` is NULL). */
  datatype Benchmark = Benchmark(
    nThreads: int,
    gflops: real,
    name: Option<string>,
    benchType: BenchType,
    fn256: Option<Kernel>,
    fn512: Option<Kernel>)

  /** The slot `compute()` calls for a benchmark: the 512-bit one for the
      AVX-512 class, the 256-bit one for every other type. */
  function Dispatch(b: Benchmark): (r: Option<Kernel>)
    ensures b.benchType != Invalid && IsaOf(b.benchType) == IsaAvx512 ==> r == b.fn512
    ensures b.benchType == Invalid || IsaOf(b.benchType) != IsaAvx512 ==> r == b.fn256
  {
    if Uses512(b.benchType) then b.fn512 else b.fn256
  }

  /** The flag `select_benchmark` returns and the record it leaves behind. */
  datatype Selected = Selected(ok: bool, bench: Benchmark)

  /** `select_benchmark`: clears both slots, then binds the kernel, the
      peak and the name of the benchmark's type. */
  function SelectBenchmark(k: Constants, b: Benchmark): (r: Selected)
    ensures r.bench.nThreads == b.nThreads && r.bench.benchType == b.benchType
    ensures r.ok <==> b.benchType != Invalid
    ensures !r.ok ==> r.bench == b.(fn256 := None, fn512 := None)
    ensures r.ok ==> (r.bench.fn256.Some? <==> r.bench.fn512.None?)
    ensures r.ok ==> (r.bench.fn512.Some? <==> Uses512(b.benchType))
    ensures r.ok ==> Dispatch(r.bench) == Some(Bind(b.benchType).value.kernel)
    ensures r.ok ==> r.bench.name == Some(DisplayName(b.benchType))
    ensures r.ok ==>
      r.bench.gflops == ComputeGflops(k, b.nThreads, Code(Bind(b.benchType).value.variant))
  {
    var cleared := b.(fn256 := None, fn512 := None);
    match Bind(b.benchType)
    case None => Selected(false, cleared)
    case Some(binding) =>
      var slotted :=
        if KernelWidth(binding.kernel) == W512 then cleared.(fn512 := Some(binding.kernel))
        else cleared.(fn256 := Some(binding.kernel));
      Selected(true, slotted.(
        gflops := ComputeGflops(k, b.nThreads, Code(binding.variant)),
        name := Some(DisplayName(b.benchType))))
  }

  /** The peak `select_benchmark` records is the formula for the variant
      bound to the type, and it scales linearly with the thread count. */
  lemma SelectedPeak(k: Constants, b: Benchmark)
    requires b.benchType != Invalid
    ensures var v := Bind(b.benchType).value.variant;
      SelectBenchmark(k, b).bench.gflops
        == Giga(b.nThreads * PerThreadFlops(k, ShapeOf(k, v)))
    ensures SelectBenchmark(k, b.(nThreads := 2 * b.nThreads)).bench.gflops
        == 2.0 * SelectBenchmark(k, b).bench.gflops
  {
    var v := Bind(b.benchType).value.variant;
    CodeRoundTrip(v);
    GflopsLinear(k, b.nThreads, Code(v));
  }

  /** Types sharing a kernel variant report the same peak. */
  lemma SameVariantSamePeak(k: Constants, b: Benchmark, t: BenchType)
    requires b.benchType != Invalid && t != Invalid
    requires Bind(b.benchType).value.variant == Bind(t).value.variant
    ensures SelectBenchmark(k, b).bench.gflops
        == SelectBenchmark(k, b.(benchType := t)).bench.gflops
  {
  }
}
