# Benchmark selection and peak throughput of FLOPS, in Dafny

FLOPS estimates a CPU's peak single-precision throughput by running a
microarchitecture-specific kernel that saturates the vector units and
reporting a theoretical peak computed from the kernel's operation mix.
This project models the decision logic around those kernels in
`src/cpu/arch/arch.cpp`:

- **Catalog** (`catalog.dfy`): the `bench_name` and `bench_types_str`
  tables indexed by `bench_type`, `parse_benchmark` (exact, first-match
  keyword lookup) and `is_benchmark_supported` (the AVX / AVX2+FMA /
  AVX-512+FMA rule).
- **Flops** (`flops.dfy`): the six kernel variants, their enum codes,
  and `compute_gflops`, the closed-form peak
  `n_threads * MAXFLOPS_ITERS * op_per_it * (bytes_in_vect / 4) * fma_available / 10^9`
  with C's truncating integer division, or `-1.0` for an unknown code.
- **Selector** (`selector.dfy`): `select_benchmark`, which clears both
  kernel slots and binds each benchmark type to a kernel, a vector-width
  class and a variant, plus the 512-vs-256 test of `compute()` that picks
  the slot to call.
- **Resolve** (`resolve.dfy`): `init_benchmark`, with its inclusive
  thread bound, the explicit choice bound as given, and the automatic
  mapping from detected microarchitecture to benchmark type.
- `cpu.dfy` holds the CPU probe as an input record (microarchitecture
  and four instruction-set flags); `wrappers.dfy` holds `Option` and
  `Result`.

The header constants `B_<variant>_OP_IT`, `B_<variant>_BYTES`,
`B_<variant>_FMA_AV`, `MAXFLOPS_ITERS` and `MAX_NUMBER_THREADS` are not
part of this model; they enter as the `Flops.Constants` parameter and no
value is assumed for them. GFLOPS is a Dafny `real`: the exact integer
flop count divided by 10^9. A NULL pointer is `None`; a NULL return of
`init_benchmark` is a `Failure` whose `InitError` records which check
produced it (the C code returns the same NULL for all three).

The enum values of `bench_type` are taken to follow the order of the
designated initialisers in the two tables (the enum itself is declared in
`arch.h`, which is not part of this model); keyword lookup does not depend
on that order because the keywords are pairwise distinct.

Three facts about `init_benchmark` shape the model: the thread check at
`src/cpu/arch/arch.cpp:272` runs after the `malloc` at line 270 (the
allocation is not modelled); the automatic switch has a Cascade Lake case
that always picks `BENCH_TYPE_SKYLAKE_512` (lines 305-307); and neither the
explicit nor the automatic path calls `is_benchmark_supported`. Two
as-written choices are kept: Ivy Bridge's peak uses the `256_6_NOFMA`
variant although its kernel is built with the `256_3_NOFMA` operation
count, and Zen+ is bound to the Zen kernel rather than `compute_zen_plus`.

## Model

| member | source | states |
|---|---|---|
| Catalog.Ordinal | src/cpu/arch/arch.cpp:43-75 | each valid type's enum value indexes all three tables and the type table lists that type there |
| Catalog.KeywordsDistinct | src/cpu/arch/arch.cpp:60-75 | no two benchmark types share a keyword |
| Catalog.ParseFrom | src/cpu/arch/arch.cpp:102-110 | the linear search from position i returns the first table entry equal to the string, and INVALID exactly when no later entry matches |
| Catalog.Parse | src/cpu/arch/arch.cpp:102-110 | lookup yields INVALID exactly when the string is not in the keyword table, otherwise a type whose keyword is the string |
| Catalog.ParseKeyword | src/cpu/arch/arch.cpp:60-110 | keyword round trip: parsing a type's own keyword gives back that type |
| Catalog.ParseTotal | src/cpu/arch/arch.cpp:102-110 | lookup never fails and finds a type exactly when the string is some type's keyword |
| Catalog.ParseRejectsNearMisses | src/cpu/arch/arch.cpp:102-110 | the empty string, a capitalised name and a spaced variant are not keywords; "zen2" is Zen 2 |
| Catalog.NameShowsIsa | src/cpu/arch/arch.cpp:43-58 | every display name ends with the instruction-set class its benchmark is checked against |
| Catalog.IsSupported | src/cpu/arch/arch.cpp:77-100 | a type is supported iff it is valid and the CPU has AVX (Sandy/Ivy Bridge, the "(AVX)" names), AVX2 and FMA (the ten "(AVX2)" types), or AVX-512 and FMA (Skylake-512, Knights Landing, the "(AVX512)" names); INVALID never is |
| Catalog.SupportMonotone | src/cpu/arch/arch.cpp:77-99 | turning capability flags on never makes a supported benchmark unsupported |
| Flops.FromCode | src/cpu/arch/arch.cpp:34-41 | a code names a variant exactly when it is 0..5, and that variant encodes back to the code |
| Flops.CodeRoundTrip | src/cpu/arch/arch.cpp:34-41 | decoding an encoded variant gives it back |
| Flops.TruncDiv | src/cpu/arch/arch.cpp:178 | integer division truncates toward zero, bounding the quotient from both sides for either sign |
| Flops.ComputeGflops | src/cpu/arch/arch.cpp:137-179 | an unknown variant code gives exactly -1.0; a known one gives thread count times one thread's flops of that variant's constants, over 10^9 |
| Flops.FlopsPerThread | src/cpu/arch/arch.cpp:178 | the flop count is the thread count times the per-thread work |
| Flops.FlopsAdditive | src/cpu/arch/arch.cpp:178 | the flop count is additive in the thread count |
| Flops.GflopsLinear | src/cpu/arch/arch.cpp:137-178 | doubling the thread count doubles the peak of every known variant |
| Flops.GflopsNonNegative | src/cpu/arch/arch.cpp:178 | with non-negative constants and threads the peak is non-negative, so never the sentinel |
| Flops.PeakExample | src/cpu/arch/arch.cpp:153-178 | eight FMAs on 32-byte vectors for 10^8 iterations on one thread give 12.8 GFLOPS |
| Selector.Bind | src/cpu/arch/arch.cpp:203-263 | every valid type is bound and INVALID is not; the kernel's vector width equals its variant's width, which is 512 exactly for the types compute() sends to the 512-bit slot, which are exactly the AVX-512 class; the no-FMA variant is used exactly for the AVX-only class |
| Selector.KernelClasses | src/cpu/arch/arch.cpp:203-257 | Skylake-256, Kaby, Coffee and Comet Lake share compute_skylake_256; Zen and Zen+ share compute_zen; every other type has its own kernel, each an if-and-only-if |
| Selector.Uses512 | src/cpu/arch/arch.cpp:347 | compute()'s test picks out exactly the benchmarks of the AVX-512 class |
| Selector.Dispatch | src/cpu/arch/arch.cpp:347-361 | compute() calls the 512-bit slot for the AVX-512 class and the 256-bit slot for every other type |
| Selector.VariantClasses | src/cpu/arch/arch.cpp:203-259 | Sandy/Ivy Bridge use 256_6_NOFMA; Haswell and Zen 2 use 256_10; Skylake-256, Broadwell, Kaby, Coffee, Comet and Ice Lake use 256_8; Skylake-512 uses 512_8; Knights Landing uses 512_12; Zen and Zen+ use 256_5, each an if-and-only-if |
| Selector.SelectBenchmark | src/cpu/arch/arch.cpp:199-267 | success iff the type is valid; on failure only the slots change (both NULL); on success exactly one slot is set, the 512-bit one iff compute() tests for 512, the slot compute() calls holds the type's bound kernel, the name is the type's display name and the peak is compute_gflops of the type's bound variant |
| Selector.SelectedPeak | src/cpu/arch/arch.cpp:203-259 | the recorded peak is the formula for the type's bound variant, and doubles when the thread count doubles |
| Selector.SameVariantSamePeak | src/cpu/arch/arch.cpp:220-243 | types bound to the same variant report the same peak |
| Resolve.AutoSelect | src/cpu/arch/arch.cpp:283-338 | every listed microarchitecture yields a valid type and any other yields none; Skylake picks Skylake-512 iff AVX-512 is present; Cascade Lake always picks Skylake-512 |
| Resolve.AutoSelectIgnoresFlags | src/cpu/arch/arch.cpp:289-338 | apart from Skylake the choice does not depend on capability flags |
| Resolve.AutoSelectInjective | src/cpu/arch/arch.cpp:289-338 | two microarchitectures share a benchmark only for Skylake with AVX-512 and Cascade Lake |
| Resolve.AutoSelectOnto | src/cpu/arch/arch.cpp:289-338 | every benchmark type is chosen for its own microarchitecture |
| Resolve.SkylakeChoiceSupported | src/cpu/arch/arch.cpp:299-304 | on Skylake the automatic choice is supported iff the CPU has FMA and AVX-512 or AVX2 |
| Resolve.CascadeLakeIgnoresAvx512 | src/cpu/arch/arch.cpp:305-307 | Cascade Lake without AVX-512 still gets the AVX-512 benchmark, which it cannot run |
| Resolve.InitBenchmark | src/cpu/arch/arch.cpp:269-344 | more threads than the maximum fails; otherwise an explicit type is bound as given and automatic mode succeeds iff the microarchitecture is mapped; a success records the thread count, a valid type, its name, the peak formula for that type's variant, exactly one kernel slot set, and in the slot compute() calls the type's bound kernel, of the matching width |
| Resolve.ThreadBound | src/cpu/arch/arch.cpp:272-275 | the maximum itself is accepted, one more is rejected, and no lower bound is checked |
| Resolve.ExplicitSkipsSupportCheck | src/cpu/arch/arch.cpp:280-282 | an explicit type is bound even on a CPU that cannot run it |
| Resolve.AutoZen2Example | src/cpu/arch/arch.cpp:332-334 | auto mode on Zen 2 with four threads binds the Zen 2 kernel with the 256_10 peak for four threads |

## Left out

- The kernels (`Arch/256_8.c`, `Arch/ivy_bridge.c`, `Arch/zen_plus.c` and the rest): fixed SIMD saturation loops with no decision logic; kernels appear only as the opaque `Selector.Kernel` identities.
- The OpenMP loop in `compute()`: concurrency and intrinsics; only its 512-vs-256 test is modelled (`Selector.Uses512`, `Selector.Dispatch`).
- `print_bench_types`: console colouring and padding only.
- The `printf` diagnostics on the error paths of `is_benchmark_supported`, `compute_gflops`, `select_benchmark` and `init_benchmark`: console output only.
- CPU feature and microarchitecture detection: foreign calls, taken as the `Cpu.CpuInfo` input record.
- Flops.ComputeGflops: the result is an exact rational, not the IEEE double of the division by 1e9, and the `(long)` product cannot overflow in unbounded integers.
- Resolve.InitBenchmark: the `malloc`, its leak on the NULL paths and the uninitialised fields are not modelled; the record built before selection has a placeholder peak and no name, and selection overwrites both on every success.
- Catalog.Parse: the C string is a Dafny `string`; embedded NUL bytes and a NULL argument are not represented.
- `bench_type`: integer codes outside the enum are not representable as a `BenchType`; the model's `Invalid` stands for `BENCH_TYPE_INVALID` only.
- Flops.ComputeGflops: its integer code stands for the `char` value after C's conversion of the argument; the narrowing itself (256 would become 0) is not modelled, as every caller passes one of the constants 0..5.
- `get_gflops` and `get_benchmark_name`: plain field reads of the `Benchmark` record.
