/**
  Resolving the benchmark to run (`init_benchmark`,
  src/cpu/arch/arch.cpp:269-344): the thread bound, the explicit choice,
  and the automatic mapping from the detected microarchitecture.
 */
module Resolve {
  import opened Wrappers
  import Cpu
  import opened Catalog
  import opened Flops
  import opened Selector

  /** The automatic mapping: the benchmark for the detected
      microarchitecture, or `None` when it is not one the program knows. */
  function AutoSelect(cpu: Cpu.CpuInfo): (r: Option<BenchType>)
    ensures r.Some? <==> cpu.uarch != Cpu.Unlisted
    ensures r.Some? ==> r.value != Invalid
    ensures cpu.uarch == Cpu.Skylake ==> (r == Some(Skylake512) <==> cpu.avx512)
    ensures cpu.uarch == Cpu.CascadeLake ==> r == Some(Skylake512)
  {
    match cpu.uarch
    case SandyBridge => Some(BenchType.SandyBridge)
    case IvyBridge => Some(BenchType.IvyBridge)
    case Haswell => Some(BenchType.Haswell)
    case Skylake => if cpu.avx512 then Some(Skylake512) else Some(Skylake256)
    case CascadeLake => Some(Skylake512)
    case Broadwell => Some(BenchType.Broadwell)
    case KabyLake => Some(BenchType.KabyLake)
    case CoffeeLake => Some(BenchType.CoffeeLake)
    case CometLake => Some(BenchType.CometLake)
    case IceLake => Some(BenchType.IceLake)
    case KnightsLanding => Some(BenchType.KnightsLanding)
    case Zen => Some(BenchType.Zen)
    case ZenPlus => Some(BenchType.ZenPlus)
    case Zen2 => Some(BenchType.Zen2)
    case Unlisted => None
  }

  /** Only Skylake's choice depends on the instruction-set flags. */
  lemma AutoSelectIgnoresFlags(a: Cpu.CpuInfo, b: Cpu.CpuInfo)
    requires a.uarch == b.uarch && a.uarch != Cpu.Skylake
    ensures AutoSelect(a) == AutoSelect(b)
  {
  }

  /** Distinct microarchitectures get distinct benchmarks, except that
      Skylake with AVX-512 and Cascade Lake share `Skylake512`. */
  lemma AutoSelectInjective(a: Cpu.CpuInfo, b: Cpu.CpuInfo)
    requires AutoSelect(a).Some? && AutoSelect(a) == AutoSelect(b)
    requires a.uarch != b.uarch
    ensures {a.uarch, b.uarch} == {Cpu.Skylake, Cpu.CascadeLake}
    ensures AutoSelect(a) == Some(Skylake512)
  {
  }

  /** A microarchitecture that selects `t` automatically. */
  function UarchFor(t: BenchType): (u: Cpu.Uarch)
    requires t != Invalid
  {
    match t
    case SandyBridge => Cpu.SandyBridge
    case IvyBridge => Cpu.IvyBridge
    case Haswell => Cpu.Haswell
    case Broadwell => Cpu.Broadwell
    case Skylake256 => Cpu.Skylake
    case Skylake512 => Cpu.Skylake
    case KabyLake => Cpu.KabyLake
    case CoffeeLake => Cpu.CoffeeLake
    case CometLake => Cpu.CometLake
    case IceLake => Cpu.IceLake
    case KnightsLanding => Cpu.KnightsLanding
    case Zen => Cpu.Zen
    case ZenPlus => Cpu.ZenPlus
    case Zen2 => Cpu.Zen2
  }

  /** Every benchmark is reachable automatically: `UarchFor` inverts
      `AutoSelect`, with AVX-512 reported exactly for `Skylake512`. */
  lemma AutoSelectOnto(t: BenchType, cpu: Cpu.CpuInfo)
    requires t != Invalid
    requires cpu.uarch == UarchFor(t) && cpu.avx512 == (t == Skylake512)
    ensures AutoSelect(cpu) == Some(t)
  {
  }

  /** On Skylake the automatic choice can run exactly when the CPU has FMA
      and the instruction set of the chosen width. */
  lemma SkylakeChoiceSupported(cpu: Cpu.CpuInfo)
    requires cpu.uarch == Cpu.Skylake
    ensures IsSupported(AutoSelect(cpu).value, cpu) <==> cpu.fma && (cpu.avx512 || cpu.avx2)
  {
  }

  /** Cascade Lake is mapped to the AVX-512 benchmark even on a CPU that
      reports no AVX-512, where that benchmark is unsupported. */
  lemma CascadeLakeIgnoresAvx512(cpu: Cpu.CpuInfo)
    requires cpu.uarch == Cpu.CascadeLake && !cpu.avx512
    ensures AutoSelect(cpu) == Some(Skylake512)
    ensures !IsSupported(AutoSelect(cpu).value, cpu)
  {
  }

  /** Why `init_benchmark` returns NULL. */
  datatype InitError = TooManyThreads | NoValidUarch | NoValidBenchmark

  /** `init_benchmark(cpu, n_threads, benchmark_type)`: `Invalid` asks for
      automatic selection; any other type is bound as given. */
  function InitBenchmark(k: Constants, cpu: Cpu.CpuInfo, nThreads: int, t: BenchType)
    : (r: Result<Benchmark, InitError>)
    ensures nThreads > k.maxNumberThreads ==> r == Failure(TooManyThreads)
    ensures nThreads <= k.maxNumberThreads && t != Invalid ==>
      r.Success? && r.value.benchType == t
    ensures nThreads <= k.maxNumberThreads && t == Invalid ==>
      (r.Success? <==> AutoSelect(cpu).Some?)
    ensures r.Success? ==>
      && nThreads <= k.maxNumberThreads
      && r.value.nThreads == nThreads
      && r.value.benchType != Invalid
      && Some(r.value.benchType) == (if t != Invalid then Some(t) else AutoSelect(cpu))
      && Dispatch(r.value) == Some(Bind(r.value.benchType).value.kernel)
      && (r.value.fn256.Some? <==> r.value.fn512.None?)
      && (KernelWidth(Dispatch(r.value).value) == W512 <==> Uses512(r.value.benchType))
      && r.value.name == Some(DisplayName(r.value.benchType))
      && r.value.gflops == Giga(nThreads * PerThreadFlops(k, ShapeOf(k, Bind(r.value.benchType).value.variant)))
  {
    if nThreads > k.maxNumberThreads then Failure(TooManyThreads)
    else
      var chosen := if t != Invalid then Some(t) else AutoSelect(cpu);
      match chosen
      case None => Failure(NoValidUarch)
      case Some(bt) =>
        // `name` and `gflops` are uninitialised here; select overwrites both on success.
        var blank := Benchmark(nThreads, 0.0, None, bt, None, None);
        var sel := SelectBenchmark(k, blank);
        if sel.ok then SelectedPeak(k, blank); Success(sel.bench) else Failure(NoValidBenchmark)
  }

  /** The thread bound is inclusive and there is no lower bound. */
  lemma ThreadBound(k: Constants, cpu: Cpu.CpuInfo, t: BenchType)
    requires t != Invalid
    ensures InitBenchmark(k, cpu, k.maxNumberThreads, t).Success?
    ensures InitBenchmark(k, cpu, k.maxNumberThreads + 1, t) == Failure(TooManyThreads)
    ensures InitBenchmark(k, cpu, -1, t).Success? <==> k.maxNumberThreads >= -1
  {
  }

  /** An explicit choice is bound without any capability check. */
  lemma ExplicitSkipsSupportCheck(k: Constants)
    requires k.maxNumberThreads >= 1
    ensures var bare := Cpu.CpuInfo(Cpu.Unlisted, false, false, false, false);
      && !IsSupported(Zen2, bare)
      && InitBenchmark(k, bare, 1, Zen2).Success?
  {
  }

  /** Automatic selection on a Zen 2 CPU with four threads binds the Zen 2
      benchmark with the `B256_10` peak for four threads. */
  lemma AutoZen2Example(k: Constants)
    requires k.maxNumberThreads >= 4
    ensures var cpu := Cpu.CpuInfo(Cpu.Zen2, true, true, false, true);
      var r := InitBenchmark(k, cpu, 4, Invalid);
      && r.Success?
      && r.value.benchType == Zen2
      && r.value.fn256 == Some(ComputeZen2)
      && r.value.gflops == Giga(4 * PerThreadFlops(k, k.b256_10))
  {
  }
}
