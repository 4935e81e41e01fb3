/** The per-task flow state as a record, and what each callback does to it.
    Times are true nanoseconds; the source truncates them to u32 where this model writes `% U32`. */
module TaskModel {
  import opened TierConfig

  const GATE_T0 := 100
  const GATE_T1 := 2000
  const GATE_T2 := 8000
  const SLEEP_NS := 500_000_000

  /** imperator_task_ctx with packed_info and the fused deficit/average word unpacked. */
  datatype Task = Task(
    nextSlice: nat,
    deficit: u16,
    avg: u16,
    tier: Tier,
    stable: Tier,
    isNew: bool,
    lockHolder: bool,
    irqWake: bool,
    lastRunAt: u32,
    counter: u16,
    overrun: bv8,
    lockSkip: u8,
    sleepEntry: u32,
    burstAcc: u16)

  // ---- allocation ----

  function InitTier(prio: nat): Tier {
    if prio < 120 then 0 else if prio > 130 then 3 else 1
  }

  function InitAvg(tier: Tier): u16 {
    if tier == 0 then GATE_T0 / 2
    else if tier == 1 then (GATE_T0 + GATE_T1) / 2
    else if tier == 2 then (GATE_T1 + GATE_T2) / 2
    else GATE_T2 + 1
  }

  function InitDeficit(cfg: Config): u16 {
    (cfg.quantum + cfg.bonus) % U64 / 1024 % U16
  }

  /** alloc_task_ctx_cold. */
  function Alloc(cfg: Config, prio: nat): Task {
    Task(cfg.quantum, InitDeficit(cfg), InitAvg(InitTier(prio)), InitTier(prio), 0,
         true, false, false, 0, 0, 0, 0, 0, 0)
  }

  // ---- classification of a bout ----

  /** u32 elapsed time: exact modulo 2^32. */
  function Elapsed(now: nat, since: u32): u32 {
    (now % U32 - since) % U32
  }

  function Bout(t: Task, now: nat): u16 {
    Min(Elapsed(now, t.lastRunAt) / 1024, 0xFFFF)
  }

  /** CPU time since the task last slept, saturating. */
  function Sample(t: Task, now: nat): u16 {
    Min(t.burstAcc + Bout(t, now), 0xFFFF)
  }

  /** Promote at 1/4, demote at 1/16; an unfinished burst may only raise the average. */
  function Ewma(avg: u16, rt: u16, runnable: bool): u16 {
    if rt < avg then
      if runnable then avg else avg - avg / 4 + rt / 4
    else
      avg - avg / 16 + rt / 16
  }

  function DemoteGate(i: nat): nat
    requires i < 3
  {
    if i == 0 then GATE_T0 else if i == 1 then GATE_T1 else GATE_T2
  }

  /** 90% of the gate. */
  function PromoteGate(i: nat): nat
    requires i < 3
  {
    DemoteGate(i) - DemoteGate(i) / 10
  }

  function Gate(tier: Tier, i: nat): nat
    requires i < 3
  {
    if tier > i then PromoteGate(i) else DemoteGate(i)
  }

  /** Hysteresis classification of an average, seen from a tier. */
  function Classify(tier: Tier, avg: nat): Tier {
    if avg < Gate(tier, 0) then 0
    else if avg < Gate(tier, 1) then 1
    else if avg < Gate(tier, 2) then 2
    else 3
  }

  /** 1.5 times the tier gate; no check at T3. */
  function OverrunGate(tier: Tier): nat {
    if tier < 3 then DemoteGate(tier) + DemoteGate(tier) / 2 else 0
  }

  function Popcount(h: bv8): nat {
    (if h & 1 != 0 then 1 else 0) + (if h & 2 != 0 then 1 else 0) + (if h & 4 != 0 then 1 else 0) +
    (if h & 8 != 0 then 1 else 0) + (if h & 16 != 0 then 1 else 0) + (if h & 32 != 0 then 1 else 0) +
    (if h & 64 != 0 then 1 else 0) + (if h & 128 != 0 then 1 else 0)
  }

  function Charge(deficit: u16, bout: u16): u16 {
    if bout >= deficit then 0 else deficit - bout
  }

  /** The u16 counter one stop on. */
  function Counted(counter: u16): u16 {
    (counter + 1) % U16
  }

  /** tier_recheck_mask plus one: the masks are one less than a power of two, so `counter & mask` is a remainder. */
  function RecheckPeriod(tier: Tier): nat {
    if tier == 0 then 1024 else if tier == 1 then 128 else if tier == 2 then 32 else 16
  }

  lemma MaskIsRemainder(counter: bv16)
    ensures counter & 1023 == counter % 1024 && counter & 127 == counter % 128
    ensures counter & 31 == counter % 32 && counter & 15 == counter % 16
  {
  }

  /** This stop is not one of the tier's periodic full passes. */
  predicate Masked(counter: u16, tier: Tier) {
    counter % RecheckPeriod(tier) != 0
  }

  /** Graduated backoff: a stable task skips the full pass until its counter comes round. */
  predicate Backoff(t: Task) {
    t.stable == 3 && Masked(Counted(t.counter), t.tier)
  }

  /** The early-return path of reclassify_task_cold. */
  function QuickPass(t: Task, now: nat, runnable: bool): Task {
    var rt := Sample(t, now);
    var newAvg := Ewma(t.avg, rt, runnable);
    var agrees := Classify(t.tier, newAvg) == t.tier;
    t.(burstAcc := if runnable then rt else 0,
       avg := newAvg,
       deficit := Charge(t.deficit, Bout(t, now)),
       counter := if agrees then Counted(t.counter) else 0,
       stable := if agrees then t.stable else 0)
  }

  /** The overrun register after this sample. */
  function Shifted(t: Task, rt: u16): bv8 {
    (t.overrun << 1) | (if rt > OverrunGate(t.tier) then 1 else 0)
  }

  predicate ForcedDemotion(t: Task, rt: u16) {
    t.tier < 3 && Popcount(Shifted(t, rt)) >= 4
  }

  /** Classification, hard-demote cap and overrun demotion, in the source's order. */
  function NewTier(t: Task, newAvg: u16, rt: u16): Tier {
    var classified := Classify(t.tier, newAvg);
    var capped := if newAvg > GATE_T2 * 3 && t.stable >= 3 && classified < 3 then 3 else classified;
    if ForcedDemotion(t, rt) && capped < t.tier + 1 then t.tier + 1 else capped
  }

  /** The full pass of reclassify_task_cold. */
  function FullPass(cfg: Config, t: Task, now: nat, runnable: bool): Task
    requires cfg.Valid()
  {
    var rt := Sample(t, now);
    var newAvg := Ewma(t.avg, rt, runnable);
    var left := Charge(t.deficit, Bout(t, now));
    var newTier := NewTier(t, newAvg, rt);
    var changed := newTier != t.tier;
    t.(burstAcc := if runnable then rt else 0,
       avg := newAvg,
       deficit := left,
       tier := newTier,
       stable := if changed then 0 else Min(t.stable + 1, 3),
       isNew := t.isNew && left != 0,
       overrun := if t.tier == 3 then t.overrun else if ForcedDemotion(t, rt) then 0 else Shifted(t, rt),
       counter := if changed then 0 else if t.stable == 3 then Counted(t.counter) else t.counter,
       nextSlice := cfg.Slice(newTier))
  }

  /** reclassify_task_cold. */
  function Reclassify(cfg: Config, t: Task, now: nat, runnable: bool): Task
    requires cfg.Valid()
  {
    if Backoff(t) then QuickPass(t, now, runnable) else FullPass(cfg, t, now, runnable)
  }

  /** imperator_stopping, less the mask bit: stamp the sleep and reclassify, which neither reads nor writes
      the stamp. A context never stamped by imperator_running is left alone. */
  function Stopping(cfg: Config, t: Task, now: nat, runnable: bool): Task
    requires cfg.Valid()
  {
    if t.lastRunAt == 0 then t
    else Reclassify(cfg, t, now, runnable).(sleepEntry := if runnable then 0 else now % U32)
  }

  // ---- the other callbacks ----

  /** imperator_running. */
  function Running(t: Task, now: nat): Task {
    t.(lastRunAt := now % U32)
  }

  /** The safety gate of imperator_tick. */
  function TickStamp(t: Task, now: nat): Task {
    if t.lastRunAt == 0 then t.(lastRunAt := now % U32) else t
  }

  /** Post-sleep recovery fires on this queued wakeup. */
  predicate Recovers(t: Task, now: nat) {
    t.sleepEntry != 0 && Elapsed(now, t.sleepEntry) > SLEEP_NS
  }

  function SleepMid(tier: Tier): u16 {
    if tier == 0 then 50 else if tier == 1 then 1050 else if tier == 2 then 5000 else 8001
  }

  /** The queued-wakeup part of imperator_enqueue that touches the context: recovery, then the
      one-shot consumption of the sleep stamp and of the IRQ-wake flag. */
  function QueuedWake(t: Task, now: nat): Task {
    t.(avg := if Recovers(t, now) then (t.avg + SleepMid(t.tier)) / 2 else t.avg,
       sleepEntry := 0,
       irqWake := false)
  }

  /** consume_irq_wake_get_tier_slice on the direct-dispatch path. */
  function DirectWake(t: Task): Task {
    t.(irqWake := false)
  }

  /** Everything that happens to one context after its allocation. */
  datatype Event =
    | Run(now: nat)
    | Stop(now: nat, runnable: bool)
    | Tick(now: nat)
    | Irq
    | WakeQueued(now: nat)
    | WakeDirect
    | Lock(held: bool)
    | LockSkip(n: u8)

  function Step(cfg: Config, t: Task, e: Event): Task
    requires cfg.Valid()
  {
    match e
    case Run(now) => Running(t, now)
    case Stop(now, runnable) => Stopping(cfg, t, now, runnable)
    case Tick(now) => TickStamp(t, now)
    case Irq => t.(irqWake := true)
    case WakeQueued(now) => QueuedWake(t, now)
    case WakeDirect => DirectWake(t)
    case Lock(held) => t.(lockHolder := held, lockSkip := if held then t.lockSkip else 0)
    case LockSkip(n) => t.(lockSkip := n)
  }

  /** The context after a run of events, oldest first. */
  function After(cfg: Config, t: Task, es: seq<Event>): Task
    requires cfg.Valid()
  {
    if es == [] then t else Step(cfg, After(cfg, t, Front(es)), Last(es))
  }

  function Front<T>(s: seq<T>): seq<T>
    requires s != []
  {
    s[..|s| - 1]
  }

  function Last<T>(s: seq<T>): T
    requires s != []
  {
    s[|s| - 1]
  }

  /** A stop the source acts on: the context has been stamped. */
  predicate Acts(t: Task, e: Event) {
    e.Stop? && t.lastRunAt != 0
  }

  predicate SleepStop(t: Task, e: Event) {
    Acts(t, e) && !e.runnable
  }

  /** This stop takes the full pass. */
  predicate TakesFullPass(t: Task, e: Event) {
    Acts(t, e) && !Backoff(t)
  }
}
