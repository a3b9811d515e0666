/**
  The CPU probe consumed by the benchmark selection logic.  The program
  obtains these facts from a CPU-detection library (`cpu_has_avx`,
  `cpu_has_avx2`, `cpu_has_avx512`, `cpu_has_fma`, `get_uarch_struct`);
  here they are a plain input record.
 */
module Cpu {

  /** The microarchitectures the automatic selection knows about, plus
      every other value the detection library can report. */
  datatype Uarch =
    | SandyBridge | IvyBridge | Haswell | Skylake | CascadeLake
    | Broadwell | KabyLake | CoffeeLake | CometLake | IceLake
    | KnightsLanding | Zen | ZenPlus | Zen2
    | Unlisted

  /** A snapshot of the detected microarchitecture and instruction-set flags. */
  datatype CpuInfo = CpuInfo(uarch: Uarch, avx: bool, avx2: bool, avx512: bool, fma: bool)

  /** Every instruction-set flag set in `a` is also set in `b`. */
  predicate FlagsLe(a: CpuInfo, b: CpuInfo) {
    && (a.avx ==> b.avx)
    && (a.avx2 ==> b.avx2)
    && (a.avx512 ==> b.avx512)
    && (a.fma ==> b.fma)
  }
}
