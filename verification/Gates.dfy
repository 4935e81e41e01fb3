/** The classifier's gates with their hysteresis, in the documented numbers, and what they keep over whole runs. */
module Gates {
  import opened TierConfig
  import opened TaskModel
  import opened TaskInvariant
  import opened TaskRuns
  import opened Backoff

  /** What a new task starts with: its tier and average by priority (120 is nice 0, 130 nice 10), the flat quantum as
      its first slice, a deficit of quantum plus bonus in 1024 ns units, and the new-flow flag. */
  lemma NewTask(cfg: Config, prio: nat)
    requires cfg.Valid()
    ensures var t := Alloc(cfg, prio);
            && (t.tier == 0 <==> prio < 120) && (t.tier == 3 <==> prio > 130) && t.tier != 2
            && (t.tier == 0 ==> t.avg == 50) && (t.tier == 1 ==> t.avg == 1050) && (t.tier == 3 ==> t.avg == 8001)
            && t.nextSlice == cfg.quantum && t.isNew && !t.irqWake && !t.lockHolder && t.stable == 0
            && (cfg.quantum + cfg.bonus < 65536 * 1024 ==>
                  t.deficit * 1024 <= cfg.quantum + cfg.bonus < (t.deficit + 1) * 1024)
  {
  }

  /** The new-flow allowance of the unmodified profiles, in units of 1024 ns. */
  function Allowance(p: Profile): nat {
    match p
    case Esports => 4882
    case Default => 9765
    case Sim => 11718
  }

  lemma NewDeficit(p: Profile, prio: nat)
    ensures Alloc(Loaded(p, None, None, None), prio).deficit == Allowance(p)
  {
  }

  /** In the unmodified profiles a task spends that allowance and no other: its deficit is what is left of it, and it
      keeps the new-flow flag at least as long. */
  lemma NewFlowAllowance(p: Profile, prio: nat, es: seq<Event>)
    ensures var cfg := Loaded(p, None, None, None);
            var t, spent := After(cfg, Alloc(cfg, prio), es), Charged(cfg, Alloc(cfg, prio), es);
            && t.deficit == (if spent >= Allowance(p) then 0 else Allowance(p) - spent)
            && (spent < Allowance(p) ==> t.isNew)
  {
    var cfg := Loaded(p, None, None, None);
    NewDeficit(p, prio);
    AllocInv(cfg, prio);
    SpendsDeficit(cfg, Alloc(cfg, prio), es, Allowance(p));
  }

  lemma SpendsDeficit(cfg: Config, t0: Task, es: seq<Event>, allowed: nat)
    requires cfg.Valid() && Inv(cfg, t0) && t0.deficit == allowed
    ensures var t, spent := After(cfg, t0, es), Charged(cfg, t0, es);
            && t.deficit == (if spent >= allowed then 0 else allowed - spent) && (spent < allowed ==> t.isNew)
  {
    DeficitConserved(cfg, t0, es);
    AfterKeepsInv(cfg, t0, es);
  }

  /** The average after a stop, in sixteenths: it moves a quarter of the way down to a completed burst below it, a
      sixteenth of the way up to a burst above it, to within rounding, and never down for a preempted one. */
  lemma AverageInNumbers(cfg: Config, t: Task, now: nat, runnable: bool)
    requires cfg.Valid() && t.lastRunAt != 0
    ensures var (s, u) := (Sample(t, now), Stopping(cfg, t, now, runnable));
            && (s < t.avg && runnable ==> u.avg == t.avg)
            && (s < t.avg && !runnable ==> 12 * t.avg + 4 * s - 12 <= 16 * u.avg <= 12 * t.avg + 4 * s + 12)
            && (s >= t.avg ==> 15 * t.avg + s - 15 <= 16 * u.avg <= 15 * t.avg + s + 15)
  {
    StopAverages(cfg, t, now, runnable);
  }

  /** A full pass without a forced demotion, for every tier and every average: the tier it arrives at, by gates that
      are ten percent lower for a task coming from above them. */
  lemma TierInNumbers(cfg: Config, t: Task, now: nat, runnable: bool)
    requires cfg.Valid() && t.lastRunAt != 0 && Due(t) && !ForcedDemotion(t, Sample(t, now))
    ensures var u := Stopping(cfg, t, now, runnable);
            && (u.tier <= 0 <==> u.avg < if t.tier > 0 then 90 else 100)
            && (u.tier <= 1 <==> u.avg < if t.tier > 1 then 1800 else 2000)
            && (u.tier <= 2 <==> u.avg < if t.tier > 2 then 7200 else 8000)
            && u.stable == (if u.tier != t.tier then 0 else if t.stable < 3 then t.stable + 1 else 3)
            && u.counter == (if u.tier != t.tier then 0 else if t.stable < 3 then t.counter else (t.counter + 1) % U16)
  {
    FullPassExactly(cfg, t, now, runnable);
    HardDemoteCapNeverDecides(t, Ewma(t.avg, Sample(t, now), runnable), Sample(t, now));
  }

  /** So hysteresis: it leaves a tier upward if and only if the new average is below 90, 1800 or 7200, and downward if
      and only if it is at least 100, 2000 or 8000. */
  lemma Hysteresis(cfg: Config, t: Task, now: nat, runnable: bool)
    requires cfg.Valid() && t.lastRunAt != 0 && Due(t) && !ForcedDemotion(t, Sample(t, now))
    ensures var u := Stopping(cfg, t, now, runnable);
            && (u.tier < t.tier <==>
                  t.tier > 0 && u.avg < if t.tier == 1 then 90 else if t.tier == 2 then 1800 else 7200)
            && (u.tier > t.tier <==>
                  t.tier < 3 && u.avg >= if t.tier == 0 then 100 else if t.tier == 1 then 2000 else 8000)
  {
    TierInNumbers(cfg, t, now, runnable);
  }

  /** A forced demotion goes one tier down, or further where the average says so. */
  lemma ForcedInNumbers(cfg: Config, t: Task, now: nat, runnable: bool)
    requires cfg.Valid() && t.lastRunAt != 0 && Due(t) && ForcedDemotion(t, Sample(t, now))
    ensures var u := Stopping(cfg, t, now, runnable);
            && u.tier > t.tier && u.stable == 0 && u.counter == 0
            && (u.tier <= 1 <==> t.tier == 0 && u.avg < 2000)
            && (u.tier <= 2 <==> t.tier <= 1 && u.avg < 8000)
  {
    FullPassExactly(cfg, t, now, runnable);
    HardDemoteCapNeverDecides(t, Ewma(t.avg, Sample(t, now), runnable), Sample(t, now));
  }

  /** A stop that skips the full pass keeps stability exactly while the average stays inside the tier's own gates. */
  lemma QuickInNumbers(cfg: Config, t: Task, now: nat, runnable: bool)
    requires cfg.Valid() && t.lastRunAt != 0 && !Due(t)
    ensures var u := Stopping(cfg, t, now, runnable);
            && u.tier == t.tier
            && (u.stable == 3 <==>
                  && (t.tier > 0 ==> u.avg >= if t.tier == 1 then 90 else if t.tier == 2 then 1800 else 7200)
                  && (t.tier < 3 ==> u.avg < if t.tier == 0 then 100 else if t.tier == 1 then 2000 else 8000))
            && (u.stable == 3 ==> u.counter == Counted(t.counter))
            && (u.stable != 3 ==> u.stable == 0 && u.counter == 0)
  {
    FullPassExactly(cfg, t, now, runnable);
  }

  // ---- over whole runs ----

  /** A tier above T0 and its promote gate. */
  predicate PromoteAt(k: Tier, gate: nat) {
    (k == 1 && gate == 90) || (k == 2 && gate == 1800) || (k == 3 && gate == 7200)
  }

  lemma AverageStays(t: Task, now: nat, runnable: bool, gate: nat)
    requires t.avg >= gate && (runnable || Sample(t, now) >= gate) && (gate == 90 || gate == 1800 || gate == 7200)
    ensures Ewma(t.avg, Sample(t, now), runnable) >= gate
  {
    if runnable { EwmaBetween(t.avg, Sample(t, now), true); } else { EwmaMonotone(gate, t.avg, gate, Sample(t, now)); }
  }

  lemma StopStays(cfg: Config, t: Task, now: nat, runnable: bool, k: Tier, gate: nat)
    requires cfg.Valid() && t.lastRunAt != 0 && PromoteAt(k, gate)
    requires t.tier >= k && t.avg >= gate && (runnable || Sample(t, now) >= gate)
    ensures var u := Stopping(cfg, t, now, runnable); u.tier >= k && u.avg >= gate
  {
    StopAverages(cfg, t, now, runnable);
    AverageStays(t, now, runnable, gate);
    if !Due(t) { QuickInNumbers(cfg, t, now, runnable); }
    else if ForcedDemotion(t, Sample(t, now)) { ForcedInNumbers(cfg, t, now, runnable); }
    else { TierInNumbers(cfg, t, now, runnable); }
  }

  lemma OtherStays(cfg: Config, t: Task, e: Event, k: Tier, gate: nat)
    requires cfg.Valid() && !Acts(t, e) && PromoteAt(k, gate) && t.tier >= k && t.avg >= gate
    ensures var u := Step(cfg, t, e); u.tier >= k && u.avg >= gate
  {
  }

  /** A task at or below a tier, with its average and its completed bursts at that tier's promote gate or more, never
      rises above it: 7200 us for T3, 1800 for T2, 90 for T1, whatever wakes it and however it is preempted. */
  lemma {:induction false} StaysAtOrBelow(cfg: Config, t: Task, es: seq<Event>, k: Tier, gate: nat)
    requires cfg.Valid() && PromoteAt(k, gate) && t.tier >= k && t.avg >= gate && BurstsAtLeast(cfg, t, es, gate)
    ensures After(cfg, t, es).tier >= k && After(cfg, t, es).avg >= gate
    decreases |es|
  {
    if es != [] {
      var b, e := After(cfg, t, Front(es)), Last(es);
      StaysAtOrBelow(cfg, t, Front(es), k, gate);
      if Acts(b, e) { StopStays(cfg, b, e.now, e.runnable, k, gate); } else { OtherStays(cfg, b, e, k, gate); }
    }
  }

  /** For T3 and T2 that is sharp: at the gate, one completed burst a microsecond shorter takes the task up at its next
      full pass. (T0 is the exception: its average stalls two short of the gate.) */
  lemma PromoteGateIsSharp(cfg: Config, t: Task, now: nat, k: Tier, gate: nat)
    requires cfg.Valid() && t.lastRunAt != 0 && PromoteAt(k, gate) && k >= 2
    requires Due(t) && !ForcedDemotion(t, Sample(t, now)) && t.tier == k && t.avg == gate
    ensures Stopping(cfg, t, now, false).tier < k <==> Sample(t, now) < gate
  {
    StopAverages(cfg, t, now, false);
    Hysteresis(cfg, t, now, false);
  }
}
