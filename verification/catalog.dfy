/**
  The benchmark catalog: the fixed tables of display names and keywords
  indexed by benchmark type, keyword lookup, and the check of whether a CPU
  can run a benchmark (src/cpu/arch/arch.cpp:43-110).
 */
module Catalog {
  import Cpu

  /** `bench_type`: the fourteen benchmarks, in enum order, and the
      distinguished `BENCH_TYPE_INVALID`. */
  datatype BenchType =
    | SandyBridge | IvyBridge | Haswell | Broadwell
    | Skylake256 | Skylake512 | KabyLake | CoffeeLake | CometLake
    | IceLake | KnightsLanding | Zen | ZenPlus | Zen2
    | Invalid

  /** Every valid benchmark type, position = enum value. */
  const Types: seq<BenchType> := [
    SandyBridge, IvyBridge, Haswell, Broadwell,
    Skylake256, Skylake512, KabyLake, CoffeeLake, CometLake,
    IceLake, KnightsLanding, Zen, ZenPlus, Zen2
  ]

  /** `bench_name`: human-readable label per enum value. */
  const Names: seq<string> := [
    "Sandy Bridge (AVX)",
    "Ivy Bridge (AVX)",
    "Haswell (AVX2)",
    "Broadwell (AVX2)",
    "Skylake (AVX2)",
    "Skylake (AVX512)",
    "Kaby Lake (AVX2)",
    "Coffee Lake (AVX2)",
    "Comet Lake (AVX2)",
    "Ice Lake (AVX2)",
    "Knights Landing (AVX512)",
    "Zen (AVX2)",
    "Zen+ (AVX2)",
    "Zen 2 (AVX2)"
  ]

  /** `bench_types_str`: command-line keyword per enum value. */
  const Keywords: seq<string> := [
    "sandy_bridge",
    "ivy_bridge",
    "haswell",
    "broadwell",
    "skylake_256",
    "skylake_512",
    "kaby_lake",
    "coffee_lake",
    "comet_lake",
    "ice_lake",
    "knights_landing",
    "zen",
    "zen_plus",
    "zen2"
  ]

  /** The enum value of a valid benchmark type: its index in every table. */
  function Ordinal(t: BenchType): (i: nat)
    requires t != Invalid
    ensures i < |Types| == |Names| == |Keywords|
    ensures Types[i] == t
  {
    match t
    case SandyBridge => 0
    case IvyBridge => 1
    case Haswell => 2
    case Broadwell => 3
    case Skylake256 => 4
    case Skylake512 => 5
    case KabyLake => 6
    case CoffeeLake => 7
    case CometLake => 8
    case IceLake => 9
    case KnightsLanding => 10
    case Zen => 11
    case ZenPlus => 12
    case Zen2 => 13
  }

  /** `bench_name[t]`. */
  function DisplayName(t: BenchType): string
    requires t != Invalid
  {
    Names[Ordinal(t)]
  }

  /** `bench_types_str[t]`. */
  function Keyword(t: BenchType): string
    requires t != Invalid
  {
    Keywords[Ordinal(t)]
  }

  /** The type table lists each valid type once, at its own enum value. */
  lemma TypesIndexed(i: nat)
    requires i < |Types|
    ensures Types[i] != Invalid && Ordinal(Types[i]) == i
  {
  }

  /** No two benchmark types share a keyword. */
  lemma KeywordsDistinct(i: nat, j: nat)
    requires i < |Keywords| && j < |Keywords| && i != j
    ensures Keywords[i] != Keywords[j]
  {
  }

  // ---------------------------------------------------------------------
  // Keyword lookup (`parse_benchmark`)
  // ---------------------------------------------------------------------

  /** First-match linear search of the keyword table from position `i`. */
  function ParseFrom(s: string, i: nat): (r: BenchType)
    requires i <= |Keywords|
    decreases |Keywords| - i
    ensures r == Invalid <==> forall j :: i <= j < |Keywords| ==> Keywords[j] != s
    ensures r != Invalid ==>
      && i <= Ordinal(r)
      && Keywords[Ordinal(r)] == s
      && forall j :: i <= j < Ordinal(r) ==> Keywords[j] != s
  {
    if i == |Keywords| then Invalid
    else if Keywords[i] == s then TypesIndexed(i); Types[i]
    else ParseFrom(s, i + 1)
  }

  /** `parse_benchmark`: the type whose keyword is exactly `s`, or `Invalid`. */
  function Parse(s: string): (r: BenchType)
    ensures r == Invalid <==> s !in Keywords
    ensures r != Invalid ==> Keyword(r) == s
  {
    ParseFrom(s, 0)
  }

  /** Keyword round trip: looking up a type's own keyword yields that type. */
  lemma ParseKeyword(t: BenchType)
    requires t != Invalid
    ensures Parse(Keyword(t)) == t
  {
    var r := Parse(Keyword(t));
    assert Keywords[Ordinal(t)] == Keyword(t);
    assert r != Invalid;
    if Ordinal(r) != Ordinal(t) {
      KeywordsDistinct(Ordinal(r), Ordinal(t));
    }
  }

  /** Lookup is total and only the fourteen keywords are recognised:
      a type comes back exactly when `s` is somebody's keyword. */
  lemma ParseTotal(s: string)
    ensures Parse(s) != Invalid <==> exists t :: t != Invalid && Keyword(t) == s
  {
    if s in Keywords {
      var i :| 0 <= i < |Keywords| && Keywords[i] == s;
      TypesIndexed(i);
      assert Keyword(Types[i]) == s;
    }
  }

  /** Matching is exact and case-sensitive: a near miss is not a keyword. */
  lemma ParseRejectsNearMisses()
    ensures Parse("") == Invalid
    ensures Parse("Haswell") == Invalid
    ensures Parse("zen 2") == Invalid
    ensures Parse("zen2") == Zen2
  {
    forall i | 0 <= i < |Keywords|
      ensures Keywords[i] != "" && Keywords[i] != "Haswell" && Keywords[i] != "zen 2"
    {
      KeywordShape(i);
      assert "zen 2"[3] == ' ';
    }
    ParseKeyword(Zen2);
  }

  /** Every keyword is non-empty, starts with a lower-case letter and
      contains no space. */
  lemma KeywordShape(i: nat)
    requires i < |Keywords|
    ensures |Keywords[i]| > 0 && 'a' <= Keywords[i][0] <= 'z'
    ensures forall c :: c in Keywords[i] ==> c != ' '
  {
  }

  // ---------------------------------------------------------------------
  // Capability check (`is_benchmark_supported`)
  // ---------------------------------------------------------------------

  /** The instruction-set class a benchmark is written for. */
  datatype Isa = IsaAvx | IsaAvx2 | IsaAvx512

  /** How an instruction-set class is written at the end of a display name. */
  function IsaSuffix(isa: Isa): string {
    match isa
    case IsaAvx => "(AVX)"
    case IsaAvx2 => "(AVX2)"
    case IsaAvx512 => "(AVX512)"
  }

  predicate EndsWith(s: string, suffix: string) {
    |suffix| <= |s| && s[|s| - |suffix|..] == suffix
  }

  /** The class named in parentheses at the end of a benchmark's display name. */
  function IsaOf(t: BenchType): Isa
    requires t != Invalid
  {
    match t
    case SandyBridge | IvyBridge => IsaAvx
    case Skylake512 | KnightsLanding => IsaAvx512
    case _ => IsaAvx2
  }

  /** Each display name ends with "(<class>)" for its benchmark's class. */
  lemma NameShowsIsa(t: BenchType)
    requires t != Invalid
    ensures EndsWith(DisplayName(t), IsaSuffix(IsaOf(t)))
  {
    match t
    case SandyBridge => SplitName(DisplayName(t), "Sandy Bridge ", "(AVX)");
    case IvyBridge => SplitName(DisplayName(t), "Ivy Bridge ", "(AVX)");
    case Haswell => SplitName(DisplayName(t), "Haswell ", "(AVX2)");
    case Broadwell => SplitName(DisplayName(t), "Broadwell ", "(AVX2)");
    case Skylake256 => SplitName(DisplayName(t), "Skylake ", "(AVX2)");
    case Skylake512 => SplitName(DisplayName(t), "Skylake ", "(AVX512)");
    case KabyLake => SplitName(DisplayName(t), "Kaby Lake ", "(AVX2)");
    case CoffeeLake => SplitName(DisplayName(t), "Coffee Lake ", "(AVX2)");
    case CometLake => SplitName(DisplayName(t), "Comet Lake ", "(AVX2)");
    case IceLake => SplitName(DisplayName(t), "Ice Lake ", "(AVX2)");
    case KnightsLanding => SplitName(DisplayName(t), "Knights Landing ", "(AVX512)");
    case Zen => SplitName(DisplayName(t), "Zen ", "(AVX2)");
    case ZenPlus => SplitName(DisplayName(t), "Zen+ ", "(AVX2)");
    case Zen2 => SplitName(DisplayName(t), "Zen 2 ", "(AVX2)");
  }

  /** A name built as `stem + suffix` ends with `suffix`. */
  lemma SplitName(name: string, stem: string, suffix: string)
    requires name == stem + suffix
    ensures EndsWith(name, suffix)
  {
  }

  /** What a CPU must offer to run code of the given class. */
  predicate Provides(cpu: Cpu.CpuInfo, isa: Isa) {
    match isa
    case IsaAvx => cpu.avx
    case IsaAvx2 => cpu.avx2 && cpu.fma
    case IsaAvx512 => cpu.avx512 && cpu.fma
  }

  /** `is_benchmark_supported`: a benchmark is supported exactly when it is
      a valid type and the CPU provides the class named in its display name. */
  predicate IsSupported(t: BenchType, cpu: Cpu.CpuInfo)
    ensures IsSupported(t, cpu) <==> t != Invalid && Provides(cpu, IsaOf(t))
  {
    match t
    case SandyBridge | IvyBridge =>
      cpu.avx
    case Haswell | Broadwell | Skylake256 | KabyLake | CoffeeLake
       | CometLake | IceLake | Zen | ZenPlus | Zen2 =>
      cpu.avx2 && cpu.fma
    case Skylake512 | KnightsLanding =>
      cpu.avx512 && cpu.fma
    case Invalid =>
      false
  }

  /** Turning a capability flag on never makes a supported benchmark unsupported. */
  lemma SupportMonotone(t: BenchType, a: Cpu.CpuInfo, b: Cpu.CpuInfo)
    requires Cpu.FlagsLe(a, b)
    requires IsSupported(t, a)
    ensures IsSupported(t, b)
  {
  }
}
