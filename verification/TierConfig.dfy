/** Profiles, the packed tier-config words, and the loader that fills them (main.rs, intf.h). */
module TierConfig {
  import Division

  const U16 := 0x1_0000
  const U32 := 0x1_0000_0000
  const U64 := 0x1_0000_0000_0000_0000

  type u8 = x: nat | x < 0x100
  type u16 = x: nat | x < 0x1_0000
  type u32 = x: nat | x < 0x1_0000_0000
  type Tier = t: nat | t < 4

  datatype Option<+T> = None | Some(value: T)

  function Min(a: nat, b: nat): nat {
    if a < b then a else b
  }

  // ---- the fused word [Mult:12][Quantum:16][Starve:20]; masks are %, shifts are * and / ----

  function PackConfig(quantumKns: nat, multiplier: nat, starvationKns: nat): nat {
    multiplier % 0x1000 + (quantumKns % 0x1_0000) * 0x1000 + (starvationKns % 0x10_0000) * 0x1000_0000
  }

  function UnpackMultiplier(word: nat): nat {
    word % 0x1000
  }

  function UnpackQuantumNs(word: nat): nat {
    (word / 0x1000) % 0x1_0000 * 1024
  }

  /** The starvation field is the top one, so the source shifts it down without a mask. */
  function UnpackStarvationNs(word: nat): nat {
    word / 0x1000_0000 * 1024
  }

  lemma UnpackPack(quantumKns: nat, multiplier: nat, starvationKns: nat)
    ensures var w := PackConfig(quantumKns, multiplier, starvationKns);
            && w < 0x1_0000_0000_0000
            && UnpackMultiplier(w) == multiplier % 0x1000
            && UnpackQuantumNs(w) == quantumKns % 0x1_0000 * 1024
            && UnpackStarvationNs(w) == starvationKns % 0x10_0000 * 1024
  {
  }

  // ---- profiles ----

  datatype Profile = Esports | Default | Sim

  /** (quantum, new-flow bonus, T3 starvation), in microseconds. */
  function Values(p: Profile): (nat, nat, nat) {
    match p
    case Esports => (1000, 4000, 50000)
    case Default => (2000, 8000, 100000)
    case Sim => (4000, 8000, 200000)
  }

  /** Entries past the fourth are copies of T3's, for the `& 7` index mask. */
  function StarvationThreshold(p: Profile, i: nat): (s: nat)
    requires i < 8
    ensures 0 < s <= 200_000_000
  {
    match p
    case Esports =>
      if i == 0 then 1_500_000 else if i == 1 then 4_000_000 else if i == 2 then 20_000_000 else 50_000_000
    case Default =>
      if i == 0 then 1_500_000 else if i == 1 then 8_000_000 else if i == 2 then 20_000_000 else 100_000_000
    case Sim =>
      if i == 0 then 3_000_000 else if i == 1 then 8_000_000 else if i == 2 then 80_000_000 else 200_000_000
  }

  /** The same in every profile. */
  function TierMultiplier(p: Profile, i: nat): nat
    requires i < 8
  {
    if i == 0 then 256 else if i == 1 then 1024 else if i == 2 then 2048 else 4095
  }

  /** One starvation entry after the `--starvation` override (microseconds), in wrapping u64 arithmetic. */
  function Scaled(p: Profile, override: Option<nat>, i: nat): nat
    requires i < 8
  {
    match override
    case None => StarvationThreshold(p, i)
    case Some(us) => StarvationThreshold(p, i) * (us * 1000 % U64) % U64 / StarvationThreshold(p, 3)
  }

  function TierWord(p: Profile, quantumUs: nat, override: Option<nat>, i: nat): nat
    requires i < 8
  {
    PackConfig(quantumUs * 1000 % U64 / 1024, TierMultiplier(p, i), Scaled(p, override, i) / 1024)
  }

  function TierWords(p: Profile, quantumUs: nat, override: Option<nat>): seq<nat> {
    seq(8, i requires 0 <= i < 8 => TierWord(p, quantumUs, override, i))
  }

  /** Profile::tier_configs: the loader fills the table entry by entry. */
  method FillTierConfigs(p: Profile, quantumUs: nat, override: Option<nat>) returns (configs: array<nat>)
    ensures configs[..] == TierWords(p, quantumUs, override)
  {
    var starvation := new nat[8](i requires 0 <= i < 8 => StarvationThreshold(p, i));
    if override.Some? {
      var cliNs := override.value * 1000 % U64;
      for i := 0 to 8
        invariant forall k :: 0 <= k < i ==> starvation[k] == Scaled(p, override, k)
      {
        starvation[i] := StarvationThreshold(p, i) * cliNs % U64 / StarvationThreshold(p, 3);
      }
    }
    configs := new nat[8];
    for i := 0 to 8
      invariant forall k :: 0 <= k < 8 ==> starvation[k] == Scaled(p, override, k)
      invariant forall k :: 0 <= k < i ==> configs[k] == TierWord(p, quantumUs, override, k)
    {
      var quantumKns := quantumUs * 1000 % U64 / 1024;
      configs[i] := TierMultiplier(p, i) % 0x1000
        + (quantumKns % 0x1_0000) * 0x1000
        + (starvation[i] / 1024 % 0x10_0000) * 0x1000_0000;
    }
  }

  // ---- what the BPF side reads ----

  /** The loader-written constants the scheduler reads: quantum_ns, new_flow_bonus_ns, tier_configs. */
  datatype Config = Config(quantum: nat, bonus: nat, words: seq<nat>) {
    predicate Valid() {
      |words| == 8
    }

    /** A tier's deadline budget and starvation threshold, in ns. */
    function Budget(t: nat): nat
      requires Valid() && t < 8
    {
      UnpackStarvationNs(words[t])
    }

    /** (quantum_ns * multiplier) >> 10, in wrapping u64 arithmetic. */
    function Slice(t: nat): nat
      requires Valid() && t < 8
    {
      quantum * UnpackMultiplier(words[t]) % U64 / 1024
    }
  }

  predicate BudgetsRise(cfg: Config)
    requires cfg.Valid()
  {
    cfg.Budget(0) <= cfg.Budget(1) <= cfg.Budget(2) <= cfg.Budget(3)
  }

  predicate BudgetsRiseStrictly(cfg: Config)
    requires cfg.Valid()
  {
    cfg.Budget(0) < cfg.Budget(1) < cfg.Budget(2) < cfg.Budget(3)
  }

  /** What Scheduler::new writes for a profile, with the optional command-line overrides. */
  function Loaded(p: Profile, quantum: Option<nat>, bonus: Option<nat>, starvation: Option<nat>): (cfg: Config)
    ensures cfg.Valid()
  {
    var q := if quantum.Some? then quantum.value else Values(p).0;
    var b := if bonus.Some? then bonus.value else Values(p).1;
    Config(q * 1000 % U64, b * 1000 % U64, TierWords(p, q, starvation))
  }

  lemma LoadedBudget(p: Profile, quantum: Option<nat>, bonus: Option<nat>, starvation: Option<nat>, t: Tier)
    ensures Loaded(p, quantum, bonus, starvation).Budget(t) == Scaled(p, starvation, t) / 1024 % 0x10_0000 * 1024
  {
    var q := if quantum.Some? then quantum.value else Values(p).0;
    UnpackPack(q * 1000 % U64 / 1024, TierMultiplier(p, t), Scaled(p, starvation, t) / 1024);
  }

  /** The `--starvation` value whose T3 entry still fits the 20-bit field. */
  predicate Fits(us: nat) {
    us * 1000 / 1024 < 0x10_0000
  }

  /** The least `--starvation` value (microseconds) that keeps the four budgets apart. */
  function LeastStrict(p: Profile): nat {
    if p.Sim? then 26 else 13
  }

  /** base[i] / base[3], in thousandths: exact in every profile. */
  function Rate(p: Profile, i: nat): nat
    requires i < 8
  {
    match p
    case Esports => if i == 0 then 30 else if i == 1 then 80 else if i == 2 then 400 else 1000
    case Default => if i == 0 then 15 else if i == 1 then 80 else if i == 2 then 200 else 1000
    case Sim => if i == 0 then 15 else if i == 1 then 40 else if i == 2 then 400 else 1000
  }

  lemma RateIsExact(p: Profile, i: nat)
    requires i < 8
    ensures StarvationThreshold(p, i) * 1000 == Rate(p, i) * StarvationThreshold(p, 3)
  {
  }

  lemma QuotientExact(p: Profile, x: nat)
    ensures StarvationThreshold(p, 3) * x / StarvationThreshold(p, 3) == x
  {
    match p
    case Esports =>
    case Default =>
    case Sim =>
  }

  /** Below 2.1 s the u64 product does not wrap and the override scales every entry exactly. */
  lemma ScaledExact(p: Profile, us: nat, i: nat)
    requires us * 1000 < 0x8000_0000 && i < 8
    ensures Scaled(p, Some(us), i) == Rate(p, i) * us
  {
    var b, b3, rate := StarvationThreshold(p, i), StarvationThreshold(p, 3), Rate(p, i);
    var ns := us * 1000;
    assert ns % U64 == ns;
    RateIsExact(p, i);
    assert b * ns == b3 * (rate * us);
    Product(b, ns);
    QuotientExact(p, rate * us);
  }

  lemma Product(b: nat, ns: nat)
    requires b <= 200_000_000 && ns < 0x8000_0000
    ensures b * ns % U64 == b * ns
  {
    assert b * ns <= 200_000_000 * ns;
  }

  lemma OverriddenBudget(p: Profile, quantum: Option<nat>, bonus: Option<nat>, us: nat, t: Tier)
    requires Fits(us)
    ensures Loaded(p, quantum, bonus, Some(us)).Budget(t) == Rate(p, t) * us / 1024 * 1024
  {
    LoadedBudget(p, quantum, bonus, Some(us), t);
    ScaledExact(p, us, t);
    FitsField(Rate(p, t), us);
  }

  lemma FitsField(rate: nat, us: nat)
    requires rate <= 1000 && Fits(us)
    ensures rate * us / 1024 % 0x10_0000 == rate * us / 1024
  {
    assert rate * us <= 1000 * us;
  }

  /** Every profile, every fitting `--starvation`: budgets never fall with the tier, and they are
      pairwise apart exactly from LeastStrict up. */
  lemma StarvationOverrideKeepsOrder(p: Profile, quantum: Option<nat>, bonus: Option<nat>, us: nat)
    requires Fits(us)
    ensures var cfg := Loaded(p, quantum, bonus, Some(us));
            BudgetsRise(cfg) && (BudgetsRiseStrictly(cfg) <==> us >= LeastStrict(p))
  {
    OverriddenBudget(p, quantum, bonus, us, 0);
    OverriddenBudget(p, quantum, bonus, us, 1);
    OverriddenBudget(p, quantum, bonus, us, 2);
    OverriddenBudget(p, quantum, bonus, us, 3);
    RatesKeepOrder(p, us);
  }

  lemma RatesKeepOrder(p: Profile, us: nat)
    ensures Rate(p, 0) * us / 1024 <= Rate(p, 1) * us / 1024 <= Rate(p, 2) * us / 1024 <= Rate(p, 3) * us / 1024
    ensures Rate(p, 0) * us / 1024 < Rate(p, 1) * us / 1024 < Rate(p, 2) * us / 1024 < Rate(p, 3) * us / 1024
            <==> us >= LeastStrict(p)
  {
    match p
    case Esports => EsportsRates(us);
    case Default => DefaultRates(us);
    case Sim => SimRates(us);
  }

  lemma EsportsRates(us: nat)
    ensures 30 * us / 1024 <= 80 * us / 1024 <= 400 * us / 1024 <= 1000 * us / 1024
    ensures 30 * us / 1024 < 80 * us / 1024 < 400 * us / 1024 < 1000 * us / 1024 <==> us >= 13
  {
  }

  lemma DefaultRates(us: nat)
    ensures 15 * us / 1024 <= 80 * us / 1024 <= 200 * us / 1024 <= 1000 * us / 1024
    ensures 15 * us / 1024 < 80 * us / 1024 < 200 * us / 1024 < 1000 * us / 1024 <==> us >= 13
  {
  }

  lemma SimRates(us: nat)
    ensures 15 * us / 1024 <= 40 * us / 1024 <= 400 * us / 1024 <= 1000 * us / 1024
    ensures 15 * us / 1024 < 40 * us / 1024 < 400 * us / 1024 < 1000 * us / 1024 <==> us >= 26
  {
  }

  lemma ProfileBudget(p: Profile, quantum: Option<nat>, bonus: Option<nat>, t: Tier)
    ensures Loaded(p, quantum, bonus, None).Budget(t) == StarvationThreshold(p, t) / 1024 * 1024
  {
    LoadedBudget(p, quantum, bonus, None, t);
  }

  /** Without the override every profile's budgets rise strictly. */
  lemma ProfilesKeepOrder(p: Profile, quantum: Option<nat>, bonus: Option<nat>)
    ensures BudgetsRiseStrictly(Loaded(p, quantum, bonus, None))
  {
    ProfileBudget(p, quantum, bonus, 0);
    ProfileBudget(p, quantum, bonus, 1);
    ProfileBudget(p, quantum, bonus, 2);
    ProfileBudget(p, quantum, bonus, 3);
  }

  /** Where a wrapped T3 budget has climbed back to T2's, in microseconds. */
  function ClimbsBackAt(p: Profile): nat {
    if p.Default? then 1_342_177 else 1_789_570
  }

  /** The whole range in which the scaling is exact (below 2.1 s): order survives the override exactly while the T3
      value fits its 20-bit field or, past it, once the wrapped T3 budget has climbed back to T2's. */
  lemma OrderExactly(p: Profile, quantum: Option<nat>, bonus: Option<nat>, us: nat)
    requires us * 1000 < 0x8000_0000
    ensures var cfg := Loaded(p, quantum, bonus, Some(us));
            && (BudgetsRise(cfg) <==> Fits(us) || us >= ClimbsBackAt(p))
            && (BudgetsRiseStrictly(cfg) <==> (Fits(us) && us >= LeastStrict(p)) || us >= ClimbsBackAt(p) + 2)
  {
    if Fits(us) {
      StarvationOverrideKeepsOrder(p, quantum, bonus, us);
    } else {
      WrappedBudget(p, quantum, bonus, us, 0);
      WrappedBudget(p, quantum, bonus, us, 1);
      WrappedBudget(p, quantum, bonus, us, 2);
      WrappedBudget(p, quantum, bonus, us, 3);
      RatesKeepOrder(p, us);
      WrappedOrder(p, us);
    }
  }

  /** The documented proportion, base[i] / base[3] of the given T3 value: it is granted to T3 exactly while that
      value fits the field. */
  lemma GrantedExactly(p: Profile, quantum: Option<nat>, bonus: Option<nat>, us: nat)
    requires us * 1000 < 0x8000_0000
    ensures Loaded(p, quantum, bonus, Some(us)).Budget(3) == us * 1000 / 1024 * 1024 <==> Fits(us)
  {
    LoadedBudget(p, quantum, bonus, Some(us), 3);
    ScaledExact(p, us, 3);
  }

  /** Past the field only T3 wraps, and only once. */
  lemma WrappedBudget(p: Profile, quantum: Option<nat>, bonus: Option<nat>, us: nat, t: Tier)
    requires !Fits(us) && us * 1000 < 0x8000_0000
    ensures Loaded(p, quantum, bonus, Some(us)).Budget(t)
            == (Rate(p, t) * us / 1024 - if t == 3 then 0x10_0000 else 0) * 1024
  {
    LoadedBudget(p, quantum, bonus, Some(us), t);
    ScaledExact(p, us, t);
    WrappedField(Rate(p, t), us);
  }

  lemma WrappedField(rate: nat, us: nat)
    requires 0x10_0000 * 1024 <= us * 1000 < 0x8000_0000 && (rate == 1000 || rate <= 400)
    ensures rate * us / 1024 % 0x10_0000 == rate * us / 1024 - if rate == 1000 then 0x10_0000 else 0
  {
    if rate == 1000 {
      assert 0x10_0000 <= 1000 * us / 1024 < 0x20_0000;
    } else {
      assert rate * us <= 400 * us;
    }
  }

  lemma WrappedOrder(p: Profile, us: nat)
    requires 0x10_0000 * 1024 <= us * 1000 < 0x8000_0000
    ensures Rate(p, 2) * us / 1024 <= 1000 * us / 1024 - 0x10_0000 <==> us >= ClimbsBackAt(p)
    ensures Rate(p, 2) * us / 1024 < 1000 * us / 1024 - 0x10_0000 <==> us >= ClimbsBackAt(p) + 2
  {
    match p
    case Default => WrappedOrderDefault(us);
    case _ => WrappedOrderOther(us);
  }

  lemma WrappedOrderDefault(us: nat)
    ensures 200 * us / 1024 <= 1000 * us / 1024 - 0x10_0000 <==> us >= 1_342_177
    ensures 200 * us / 1024 < 1000 * us / 1024 - 0x10_0000 <==> us >= 1_342_179
  {
  }

  lemma WrappedOrderOther(us: nat)
    ensures 400 * us / 1024 <= 1000 * us / 1024 - 0x10_0000 <==> us >= 1_789_570
    ensures 400 * us / 1024 < 1000 * us / 1024 - 0x10_0000 <==> us >= 1_789_572
  {
  }

  // ---- slices against budgets ----

  /** No tier's slice is longer than its budget. */
  predicate SlicesFit(cfg: Config)
    requires cfg.Valid()
  {
    forall t: Tier :: cfg.Slice(t) <= cfg.Budget(t)
  }

  /** Neither the override nor the new-flow bonus reaches the multiplier. */
  lemma LoadedMultiplier(p: Profile, quantum: Option<nat>, bonus: Option<nat>, starvation: Option<nat>, t: Tier)
    ensures UnpackMultiplier(Loaded(p, quantum, bonus, starvation).words[t]) == TierMultiplier(p, t)
  {
    var q := if quantum.Some? then quantum.value else Values(p).0;
    UnpackPack(q * 1000 % U64 / 1024, TierMultiplier(p, t), Scaled(p, starvation, t) / 1024);
  }

  /** The slice of a quantum small enough for the u64 product. */
  lemma LoadedSlice(p: Profile, q: nat, quantum: Option<nat>, bonus: Option<nat>, starvation: Option<nat>, t: Tier)
    requires q == (if quantum.Some? then quantum.value else Values(p).0) && q * 1000 * 4095 < U64
    ensures Loaded(p, quantum, bonus, starvation).Slice(t) == q * 1000 * TierMultiplier(p, t) / 1024
  {
    LoadedMultiplier(p, quantum, bonus, starvation, t);
    NoProductWrap(q * 1000, TierMultiplier(p, t));
  }

  lemma NoProductWrap(ns: nat, m: nat)
    requires m <= 4095 && ns * 4095 < U64
    ensures ns * m % U64 == ns * m && ns % U64 == ns
  {
    Division.TimesMonotone(4095, m, ns);
    FitsWord(ns * m);
    FitsWord(ns);
  }

  lemma FitsWord(x: nat)
    requires x < U64
    ensures x % U64 == x
  {
  }

  function CeilDiv(a: nat, b: nat): nat
    requires b > 0
  {
    (a + b - 1) / b
  }

  lemma CeilLeast(a: nat, b: nat, u: nat)
    requires b > 0
    ensures a <= b * u <==> CeilDiv(a, b) <= u
  {
    var q := CeilDiv(a, b);
    assert b * q - b < a <= b * q;
    if u >= q { assert b * u >= b * q; } else { assert b * u <= b * (q - 1); }
  }

  /** The least override, in microseconds, whose entry at this rate covers the slice after losing `past` units. */
  function LeastOverride(slice: nat, rate: nat, past: nat): nat
    requires rate > 0
  {
    CeilDiv(1024 * (CeilDiv(slice, 1024) + past), rate)
  }

  lemma CoversExactly(slice: nat, rate: nat, us: nat, past: nat)
    requires rate > 0
    ensures slice <= (rate * us / 1024 - past) * 1024 <==> us >= LeastOverride(slice, rate, past)
  {
    var k := CeilDiv(slice, 1024);
    if rate * us / 1024 >= past { CeilLeast(slice, 1024, rate * us / 1024 - past); }
    CeilLeast(1024 * (k + past), rate, us);
  }

  /** Which overrides below 2.1 s give a tier a budget that covers its slice, for every profile and every quantum: from
      the least such value up, counted for T3 past its field's wrap once the value no longer fits the field. */
  lemma OverrideCoversTier(p: Profile, quantum: Option<nat>, bonus: Option<nat>, us: nat, t: Tier)
    requires us * 1000 < 0x8000_0000
    ensures var cfg := Loaded(p, quantum, bonus, Some(us));
            cfg.Slice(t) <= cfg.Budget(t)
            <==> us >= LeastOverride(cfg.Slice(t), Rate(p, t), if t == 3 && !Fits(us) then 0x10_0000 else 0)
  {
    var cfg, past := Loaded(p, quantum, bonus, Some(us)), if t == 3 && !Fits(us) then 0x10_0000 else 0;
    if Fits(us) { OverriddenBudget(p, quantum, bonus, us, t); } else { WrappedBudget(p, quantum, bonus, us, t); }
    CoversExactly(cfg.Slice(t), Rate(p, t), us, past);
  }

  /** The least `--starvation` value, in microseconds, that covers every slice of the profile's own quantum; and the
      least that does once T3's entry has wrapped. */
  function SafeFrom(p: Profile): nat {
    match p
    case Esports => 12_506
    case Default => 33_383
    case Sim => 100_020
  }

  function SafeAgain(p: Profile): nat {
    match p
    case Esports => 1_077_742
    case Default => 1_081_741
    case Sim => 1_089_739
  }

  /** The least override a tier asks for, under the profile's own quantum. */
  function Asked(p: Profile, t: Tier, past: nat): nat {
    LeastOverride(Values(p).0 * 1000 * TierMultiplier(p, t) / 1024, Rate(p, t), past)
  }

  lemma AskedEsports()
    ensures Asked(Esports, 0, 0) == 8_363 && Asked(Esports, 1, 0) == 12_506 && Asked(Esports, 2, 0) == 5_003
    ensures Asked(Esports, 3, 0) == 4_000 && Asked(Esports, 3, 0x10_0000) == 1_077_742
  {
    assert LeastOverride(250_000, 30, 0) == 8_363;
    assert LeastOverride(1_000_000, 80, 0) == 12_506;
    assert LeastOverride(2_000_000, 400, 0) == 5_003;
    assert LeastOverride(3_999_023, 1000, 0) == 4_000;
    assert LeastOverride(3_999_023, 1000, 0x10_0000) == 1_077_742;
  }

  lemma AskedDefault()
    ensures Asked(Default, 0, 0) == 33_383 && Asked(Default, 1, 0) == 25_012 && Asked(Default, 2, 0) == 20_004
    ensures Asked(Default, 3, 0) == 7_999 && Asked(Default, 3, 0x10_0000) == 1_081_741
  {
    assert LeastOverride(500_000, 15, 0) == 33_383;
    assert LeastOverride(2_000_000, 80, 0) == 25_012;
    assert LeastOverride(4_000_000, 200, 0) == 20_004;
    assert LeastOverride(7_998_046, 1000, 0) == 7_999;
    assert LeastOverride(7_998_046, 1000, 0x10_0000) == 1_081_741;
  }

  lemma AskedSim()
    ensures Asked(Sim, 0, 0) == 66_697 && Asked(Sim, 1, 0) == 100_020 && Asked(Sim, 2, 0) == 20_002
    ensures Asked(Sim, 3, 0) == 15_997 && Asked(Sim, 3, 0x10_0000) == 1_089_739
  {
    assert LeastOverride(1_000_000, 15, 0) == 66_697;
    assert LeastOverride(4_000_000, 40, 0) == 100_020;
    assert LeastOverride(8_000_000, 400, 0) == 20_002;
    assert LeastOverride(15_996_093, 1000, 0) == 15_997;
    assert LeastOverride(15_996_093, 1000, 0x10_0000) == 1_089_739;
  }

  lemma AskedOfAll(p: Profile, us: nat)
    ensures (us >= Asked(p, 0, 0) && us >= Asked(p, 1, 0) && us >= Asked(p, 2, 0)) <==> us >= SafeFrom(p)
    ensures Asked(p, 3, 0) <= SafeFrom(p) && Asked(p, 3, 0x10_0000) == SafeAgain(p)
  {
    match p
    case Esports => AskedEsports();
    case Default => AskedDefault();
    case Sim => AskedSim();
  }

  lemma CoveredExactly(p: Profile, bonus: Option<nat>, us: nat, t: Tier)
    requires us * 1000 < 0x8000_0000
    ensures var cfg := Loaded(p, None, bonus, Some(us));
            cfg.Slice(t) <= cfg.Budget(t) <==> us >= Asked(p, t, if t == 3 && !Fits(us) then 0x10_0000 else 0)
  {
    LoadedSlice(p, Values(p).0, None, bonus, Some(us), t);
    OverrideCoversTier(p, None, bonus, us, t);
  }

  /** The `--starvation` values below 2.1 s that keep every slice within its budget, exactly. */
  lemma StarvationKeepsSlicesFit(p: Profile, bonus: Option<nat>, us: nat)
    requires us * 1000 < 0x8000_0000
    ensures SlicesFit(Loaded(p, None, bonus, Some(us))) <==> us >= SafeFrom(p) && (Fits(us) || us >= SafeAgain(p))
  {
    CoveredExactly(p, bonus, us, 0);
    CoveredExactly(p, bonus, us, 1);
    CoveredExactly(p, bonus, us, 2);
    CoveredExactly(p, bonus, us, 3);
    AskedOfAll(p, us);
    AllTiers(Loaded(p, None, bonus, Some(us)));
  }

  lemma AllTiers(cfg: Config)
    requires cfg.Valid()
    ensures SlicesFit(cfg) <==> (&& cfg.Slice(0) <= cfg.Budget(0) && cfg.Slice(1) <= cfg.Budget(1)
                                 && cfg.Slice(2) <= cfg.Budget(2) && cfg.Slice(3) <= cfg.Budget(3))
  {
  }

  /** The least `--quantum`, in microseconds, that takes some slice past the profile's own budget. */
  function QuantumLimit(p: Profile): nat {
    match p
    case Esports => 4000
    case Default => 5997
    case Sim => 8000
  }

  lemma QuantumOfTier(p: Profile, q: nat, bonus: Option<nat>, t: Tier)
    requires q * 1000 * 4095 < U64
    ensures var cfg := Loaded(p, Some(q), bonus, None);
            cfg.Slice(t) <= cfg.Budget(t)
            <==> q * 1000 * TierMultiplier(p, t) / 1024 <= StarvationThreshold(p, t) / 1024 * 1024
  {
    LoadedSlice(p, q, Some(q), bonus, None, t);
    ProfileBudget(p, Some(q), bonus, t);
  }

  lemma QuantumEsports(q: nat)
    ensures (&& q * 1000 * 256 / 1024 <= 1_500_000 / 1024 * 1024 && q * 1000 * 1024 / 1024 <= 4_000_000 / 1024 * 1024
             && q * 1000 * 2048 / 1024 <= 20_000_000 / 1024 * 1024
             && q * 1000 * 4095 / 1024 <= 50_000_000 / 1024 * 1024) <==> q < 4000
  {
  }

  lemma QuantumDefault(q: nat)
    ensures (&& q * 1000 * 256 / 1024 <= 1_500_000 / 1024 * 1024 && q * 1000 * 1024 / 1024 <= 8_000_000 / 1024 * 1024
             && q * 1000 * 2048 / 1024 <= 20_000_000 / 1024 * 1024
             && q * 1000 * 4095 / 1024 <= 100_000_000 / 1024 * 1024) <==> q < 5997
  {
  }

  lemma QuantumSim(q: nat)
    ensures (&& q * 1000 * 256 / 1024 <= 3_000_000 / 1024 * 1024 && q * 1000 * 1024 / 1024 <= 8_000_000 / 1024 * 1024
             && q * 1000 * 2048 / 1024 <= 80_000_000 / 1024 * 1024
             && q * 1000 * 4095 / 1024 <= 200_000_000 / 1024 * 1024) <==> q < 8000
  {
  }

  /** The `--quantum` values that keep every slice within its budget, exactly, as long as no u64 product wraps. */
  lemma QuantumKeepsSlicesFit(p: Profile, q: nat, bonus: Option<nat>)
    requires q * 1000 * 4095 < U64
    ensures SlicesFit(Loaded(p, Some(q), bonus, None)) <==> q < QuantumLimit(p)
  {
    QuantumOfTier(p, q, bonus, 0);
    QuantumOfTier(p, q, bonus, 1);
    QuantumOfTier(p, q, bonus, 2);
    QuantumOfTier(p, q, bonus, 3);
    AllTiers(Loaded(p, Some(q), bonus, None));
    match p
    case Esports => QuantumEsports(q);
    case Default => QuantumDefault(q);
    case Sim => QuantumSim(q);
  }

  // The documented table of the unmodified profiles: quantum, bonus and budgets, in ns rounded down to 1024.

  lemma DefaultTable()
    ensures var cfg := Loaded(Default, None, None, None);
            && cfg.quantum == 2_000_000 && cfg.bonus == 8_000_000
            && cfg.Budget(0) == 1_499_136 && cfg.Budget(1) == 7_999_488
            && cfg.Budget(2) == 19_999_744 && cfg.Budget(3) == 99_999_744
  {
    ProfileBudget(Default, None, None, 0);
    ProfileBudget(Default, None, None, 1);
    ProfileBudget(Default, None, None, 2);
    ProfileBudget(Default, None, None, 3);
  }

  lemma EsportsTable()
    ensures var cfg := Loaded(Esports, None, None, None);
            && cfg.quantum == 1_000_000 && cfg.bonus == 4_000_000
            && cfg.Budget(0) == 1_499_136 && cfg.Budget(1) == 3_999_744
            && cfg.Budget(2) == 19_999_744 && cfg.Budget(3) == 49_999_872
  {
    ProfileBudget(Esports, None, None, 0);
    ProfileBudget(Esports, None, None, 1);
    ProfileBudget(Esports, None, None, 2);
    ProfileBudget(Esports, None, None, 3);
  }

  lemma SimTable()
    ensures var cfg := Loaded(Sim, None, None, None);
            && cfg.quantum == 4_000_000 && cfg.bonus == 8_000_000
            && cfg.Budget(0) == 2_999_296 && cfg.Budget(1) == 7_999_488
            && cfg.Budget(2) == 80_000_000 && cfg.Budget(3) == 199_999_488
  {
    ProfileBudget(Sim, None, None, 0);
    ProfileBudget(Sim, None, None, 1);
    ProfileBudget(Sim, None, None, 2);
    ProfileBudget(Sim, None, None, 3);
  }

  /** Slices are a quarter, one, two and 4095/1024 of the quantum. */
  lemma SlicesOfQuantum(p: Profile, q: nat, bonus: Option<nat>, starvation: Option<nat>)
    requires q * 1000 * 4095 < U64
    ensures var cfg := Loaded(p, Some(q), bonus, starvation);
            && cfg.Slice(0) == q * 250 && cfg.Slice(1) == q * 1000 && cfg.Slice(2) == q * 2000
            && cfg.Slice(3) == q * 4_095_000 / 1024
  {
    LoadedSlice(p, q, Some(q), bonus, starvation, 0);
    LoadedSlice(p, q, Some(q), bonus, starvation, 1);
    LoadedSlice(p, q, Some(q), bonus, starvation, 2);
    LoadedSlice(p, q, Some(q), bonus, starvation, 3);
  }

  /** For any quantum at all: the slice is the product modulo 2^64, in units of 1024. */
  lemma SliceWraps(cfg: Config, t: Tier)
    requires cfg.Valid()
    ensures var x := cfg.quantum * (cfg.words[t] % 4096) % U64; cfg.Slice(t) * 1024 <= x < (cfg.Slice(t) + 1) * 1024
  {
  }

  /** The quantum field holds the quantum in units of 1024 ns, if it fits 16 bits. */
  lemma QuantumField(p: Profile, q: nat, override: Option<nat>, i: nat)
    requires i < 8 && q * 1000 < 65536 * 1024
    ensures UnpackQuantumNs(TierWords(p, q, override)[i]) <= q * 1000
            < UnpackQuantumNs(TierWords(p, q, override)[i]) + 1024
  {
    UnpackPack(q * 1000 % U64 / 1024, TierMultiplier(p, i), Scaled(p, override, i) / 1024);
  }

  /** The entries past the fourth, for the index mask, are all T3's. */
  lemma PaddingIsT3(p: Profile, quantumUs: nat, override: Option<nat>, i: nat)
    requires 3 <= i < 8
    ensures TierWords(p, quantumUs, override)[i] == TierWords(p, quantumUs, override)[3]
  {
  }

  /** Unmodified profiles grant every tier a slice no longer than its budget. */
  lemma ProfileSlicesFit(p: Profile)
    ensures SlicesFit(Loaded(p, None, None, None))
  {
    forall t: Tier ensures var cfg := Loaded(p, None, None, None); cfg.Slice(t) <= cfg.Budget(t) {
      ProfileBudget(p, None, None, t);
      LoadedSlice(p, Values(p).0, None, None, None, t);
    }
  }
}
