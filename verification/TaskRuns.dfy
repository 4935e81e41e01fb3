/** Whole-run behaviour of the classifier: cuts, convergence, and post-sleep recovery. */
module TaskRuns {
  import opened TierConfig
  import opened TaskModel
  import opened TaskInvariant

  // ---- preemption cuts ----

  /** Both code paths feed the average and the accumulator the same way. */
  lemma StopAverages(cfg: Config, t: Task, now: nat, runnable: bool)
    requires cfg.Valid() && t.lastRunAt != 0
    ensures var u := Stopping(cfg, t, now, runnable);
            && u.avg == Ewma(t.avg, Sample(t, now), runnable)
            && u.burstAcc == if runnable then Sample(t, now) else 0
  {
  }

  lemma NonStopKeepsBurst(cfg: Config, t: Task, e: Event)
    requires cfg.Valid() && !Acts(t, e)
    ensures Step(cfg, t, e).burstAcc == t.burstAcc
    ensures !(e.WakeQueued? && Recovers(t, e.now)) ==> Step(cfg, t, e).avg == t.avg
  {
  }

  /** Events while a burst is under way: the task is never woken and every stop is a preemption. */
  predicate Preempted(es: seq<Event>) {
    forall i | 0 <= i < |es| :: !es[i].WakeQueued? && (es[i].Stop? ==> es[i].runnable)
  }

  lemma BurstSoFar(cfg: Config, t: Task, es: seq<Event>)
    requires cfg.Valid() && t.burstAcc == 0 && Preempted(es)
    ensures var u, total := After(cfg, t, es), Charged(cfg, t, es);
            && u.burstAcc == Min(total, 0xFFFF)
            && t.avg <= u.avg && (u.avg <= t.avg || u.avg <= u.burstAcc)
            && (total <= t.avg ==> u.avg == t.avg)
  {
    if es != [] {
      BurstSoFar(cfg, t, Front(es));
      var u, e := After(cfg, t, Front(es)), Last(es);
      assert e == es[|es| - 1];
      if Acts(u, e) {
        StopAverages(cfg, u, e.now, e.runnable);
        EwmaBetween(u.avg, Sample(u, e.now), true);
        if u.avg == t.avg && Sample(u, e.now) == u.avg { }
      } else {
        NonStopKeepsBurst(cfg, u, e);
      }
    }
  }

  /** However a burst is cut by preemptions, a burst within the starting average leaves exactly the average
      the uncut burst would; a longer one lands between the uncut result and the burst itself. */
  lemma CutIndependence(cfg: Config, t: Task, es: seq<Event>, now: nat)
    requires cfg.Valid() && t.burstAcc == 0 && Preempted(es)
    requires After(cfg, t, es).lastRunAt != 0
    ensures var total := Charged(cfg, t, es) + Bout(After(cfg, t, es), now);
            var v := Step(cfg, After(cfg, t, es), Stop(now, false));
            && v.burstAcc == 0
            && (total <= t.avg ==> v.avg == Ewma(t.avg, total, false))
            && (total > t.avg ==> Ewma(t.avg, Min(total, 0xFFFF), false) <= v.avg <= Min(total, 0xFFFF))
  {
    BurstSoFar(cfg, t, es);
    var u := After(cfg, t, es);
    var total, rt := Charged(cfg, t, es) + Bout(u, now), Sample(u, now);
    StopAverages(cfg, u, now, false);
    assert rt == Min(total, 0xFFFF);
    if total > t.avg {
      assert u.avg <= rt;
      EwmaMonotone(t.avg, u.avg, rt, rt);
      EwmaBetween(u.avg, rt, false);
    }
  }

  /** The same burst run in one bout, for comparison. */
  function Uncut(start: nat, us: nat): seq<Event> {
    [Run(start), Stop(start + us * 1024, false)]
  }

  lemma UncutResult(cfg: Config, t: Task, start: nat, us: nat)
    requires cfg.Valid() && t.burstAcc == 0 && start % U32 != 0 && us * 1024 < U32
    ensures After(cfg, t, Uncut(start, us)).avg == Ewma(t.avg, Min(us, 0xFFFF), false)
  {
    var u, end := Running(t, start), start + us * 1024;
    TwoEvents(cfg, t, Run(start), Stop(end, false));
    BoutOf(u, start, us);
    StopAverages(cfg, u, end, false);
  }

  lemma BoutOf(u: Task, start: nat, us: nat)
    requires u.lastRunAt == start % U32 && us * 1024 < U32
    ensures Bout(u, start + us * 1024) == Min(us, 0xFFFF)
  {
    ElapsedExact(start, start + us * 1024);
  }

  lemma TwoEvents(cfg: Config, t: Task, d: Event, e: Event)
    requires cfg.Valid()
    ensures After(cfg, t, [d, e]) == Step(cfg, Step(cfg, t, d), e)
  {
    assert Front([d, e]) == [d] && Front([d]) == [];
    assert After(cfg, t, [d]) == Step(cfg, After(cfg, t, []), d);
  }

  /** u32 subtraction gives the true difference while it stays below 2^32. */
  lemma ElapsedExact(s: nat, now: nat)
    requires s <= now
    ensures Elapsed(now, s % U32) == (now - s) % U32
  {
    var a, b := now / U32, s / U32;
    assert now % U32 - s % U32 == (now - s) - (a - b) * U32;
    ModShift(now - s, a - b);
  }

  lemma ModShift(x: int, k: int)
    ensures (x - k * U32) % U32 == x % U32
  {
    assert (x - k * U32) / U32 == x / U32 - k;
  }

  /** Cut and uncut, side by side. */
  lemma CutAgainstUncut(cfg: Config, t: Task, es: seq<Event>, now: nat, start: nat)
    requires cfg.Valid() && t.burstAcc == 0 && Preempted(es)
    requires After(cfg, t, es).lastRunAt != 0 && start % U32 != 0
    requires (Charged(cfg, t, es) + Bout(After(cfg, t, es), now)) * 1024 < U32
    ensures var total := Charged(cfg, t, es) + Bout(After(cfg, t, es), now);
            var cut := Step(cfg, After(cfg, t, es), Stop(now, false)).avg;
            var uncut := After(cfg, t, Uncut(start, total)).avg;
            (total <= t.avg ==> cut == uncut) && uncut <= cut && (total > t.avg ==> cut <= Min(total, 0xFFFF))
  {
    CutIndependence(cfg, t, es, now);
    UncutResult(cfg, t, start, Charged(cfg, t, es) + Bout(After(cfg, t, es), now));
  }

  // ---- convergence ----

  /** No post-sleep recovery fires during the run. */
  predicate Quiet(cfg: Config, t: Task, es: seq<Event>)
    requires cfg.Valid()
  {
    es == [] ||
    (Quiet(cfg, t, Front(es)) && !(Last(es).WakeQueued? && Recovers(After(cfg, t, Front(es)), Last(es).now)))
  }

  /** Completed bursts in a run. */
  function Bursts(cfg: Config, t: Task, es: seq<Event>): nat
    requires cfg.Valid()
  {
    if es == [] then 0
    else Bursts(cfg, t, Front(es)) + if SleepStop(After(cfg, t, Front(es)), Last(es)) then 1 else 0
  }

  /** Every completed burst is at least `lo` microseconds. */
  predicate BurstsAtLeast(cfg: Config, t: Task, es: seq<Event>, lo: nat)
    requires cfg.Valid()
  {
    es == [] ||
    (var u := After(cfg, t, Front(es));
     BurstsAtLeast(cfg, t, Front(es), lo) && (SleepStop(u, Last(es)) ==> Sample(u, Last(es).now) >= lo))
  }

  /** Every burst, finished or cut short, stays below `hi` microseconds. */
  predicate BurstsBelow(cfg: Config, t: Task, es: seq<Event>, hi: nat)
    requires cfg.Valid()
  {
    es == [] ||
    (var u := After(cfg, t, Front(es));
     BurstsBelow(cfg, t, Front(es), hi) && (Acts(u, Last(es)) ==> Sample(u, Last(es).now) < hi))
  }

  lemma NonStopKeepsClass(cfg: Config, t: Task, e: Event)
    requires cfg.Valid() && !Acts(t, e) && !(e.WakeQueued? && Recovers(t, e.now))
    ensures var u := Step(cfg, t, e); u.avg == t.avg && u.tier == t.tier && u.stable == t.stable
  {
    NonStopKeepsBurst(cfg, t, e);
  }

  function Pow2(k: nat): nat {
    if k == 0 then 1 else 2 * Pow2(k - 1)
  }

  // Bulk tasks: the measure is how far the average is below the T2 gate.

  function BulkGap(avg: u16): nat {
    if avg < GATE_T2 then GATE_T2 - avg else 0
  }

  /** One completed burst of at least 8000 closes a sixteenth of the gap, rounded up. */
  function CloseBulk(g: nat): nat {
    g - (g + 15) / 16
  }

  /** Completed bursts a gap can survive. */
  function BulkRank(g: nat): nat {
    if g == 0 then 0 else 1 + BulkRank(CloseBulk(g))
  }

  lemma BulkRankMonotone(g: nat, h: nat)
    requires g <= h
    ensures BulkRank(g) <= BulkRank(h)
  {
    if g > 0 {
      assert CloseBulk(g) <= CloseBulk(h);
      BulkRankMonotone(CloseBulk(g), CloseBulk(h));
    }
  }

  /** Above m each burst takes off at least m/16, so 16 bursts bring 2m down to m. */
  lemma BulkDescend(g: nat, m: nat, j: nat)
    requires 16 * g <= 16 * m + j * m
    ensures BulkRank(g) <= j + BulkRank(m)
    decreases g
  {
    if g <= m {
      BulkRankMonotone(g, m);
    } else {
      assert 16 * CloseBulk(g) <= 16 * g - m;
      assert (j - 1) * m == j * m - m;
      BulkDescend(CloseBulk(g), m, j - 1);
    }
  }

  lemma BulkRankBound(g: nat, k: nat)
    requires g <= Pow2(k)
    ensures BulkRank(g) <= 16 * k + 1
    decreases k
  {
    if k == 0 {
      if g == 1 { assert CloseBulk(g) == 0; }
    } else {
      BulkDescend(g, Pow2(k - 1), 16);
      BulkRankBound(Pow2(k - 1), k - 1);
    }
  }

  lemma BulkAverage(avg: u16, rt: u16, runnable: bool)
    ensures BulkGap(Ewma(avg, rt, runnable)) <= BulkGap(avg) || (!runnable && rt < GATE_T2)
    ensures !runnable && rt >= GATE_T2 ==> BulkGap(Ewma(avg, rt, runnable)) <= CloseBulk(BulkGap(avg))
  {
  }

  /** Any stop that leaves the average at the T2 gate or above leaves T3, or a state whose next stop is a
      full pass; and from such a state the next stop lands in T3. */
  lemma BulkStop(cfg: Config, t: Task, now: nat, runnable: bool)
    requires cfg.Valid() && Inv(cfg, t) && t.lastRunAt != 0
    requires Stopping(cfg, t, now, runnable).avg >= GATE_T2
    ensures var u := Stopping(cfg, t, now, runnable);
            && (u.tier == 3 || u.stable == 0)
            && (t.tier == 3 || t.stable == 0 ==> u.tier == 3)
  {
    if !Backoff(t) { BulkFullPass(cfg, t, now, runnable); }
  }

  lemma BulkFullPass(cfg: Config, t: Task, now: nat, runnable: bool)
    requires cfg.Valid() && FullPass(cfg, t, now, runnable).avg >= GATE_T2
    ensures FullPass(cfg, t, now, runnable).tier == 3
  {
    HardDemoteCapNeverDecides(t, Ewma(t.avg, Sample(t, now), runnable), Sample(t, now));
  }

  lemma BulkMeasure(cfg: Config, t: Task, es: seq<Event>)
    requires cfg.Valid() && Inv(cfg, t) && Quiet(cfg, t, es) && BurstsAtLeast(cfg, t, es, GATE_T2)
    ensures var u, n := After(cfg, t, es), Bursts(cfg, t, es);
            && (BulkGap(u.avg) > 0 ==> n + BulkRank(BulkGap(u.avg)) <= BulkRank(BulkGap(t.avg)))
            && (n >= 1 && u.avg >= GATE_T2 ==> u.tier == 3 || u.stable == 0)
            && (n >= 2 && n > BulkRank(BulkGap(t.avg)) ==> u.tier == 3)
  {
    if es != [] {
      BulkMeasure(cfg, t, Front(es));
      AfterKeepsInv(cfg, t, Front(es));
      var b, e := After(cfg, t, Front(es)), Last(es);
      if Acts(b, e) {
        StopAverages(cfg, b, e.now, e.runnable);
        BulkAverage(b.avg, Sample(b, e.now), e.runnable);
        var u := Step(cfg, b, e);
        BulkRankMonotone(BulkGap(u.avg), if e.runnable then BulkGap(b.avg) else CloseBulk(BulkGap(b.avg)));
        if u.avg >= GATE_T2 { BulkStop(cfg, b, e.now, e.runnable); }
      } else {
        NonStopKeepsClass(cfg, b, e);
      }
    }
  }

  lemma BulkSettles(cfg: Config, t: Task, es: seq<Event>)
    requires cfg.Valid() && Inv(cfg, t) && Quiet(cfg, t, es) && BurstsAtLeast(cfg, t, es, GATE_T2)
    requires Bursts(cfg, t, es) >= 210
    ensures After(cfg, t, es).tier == 3
  {
    BulkMeasure(cfg, t, es);
    assert Pow2(13) == 8192;
    BulkRankBound(BulkGap(t.avg), 13);
  }

  /** From any reachable state, a task whose completed bursts are all sampled at 8000 us or more is in T3 after 210
      of them, and stays there however the run goes on. */
  lemma BulkConverges(cfg: Config, prio: nat, past: seq<Event>, es: seq<Event>)
    requires cfg.Valid()
    requires var t := After(cfg, Alloc(cfg, prio), past);
             Quiet(cfg, t, es) && BurstsAtLeast(cfg, t, es, GATE_T2) && Bursts(cfg, t, es) >= 210
    ensures After(cfg, After(cfg, Alloc(cfg, prio), past), es).tier == 3
  {
    AllocInv(cfg, prio);
    AfterKeepsInv(cfg, Alloc(cfg, prio), past);
    BulkSettles(cfg, After(cfg, Alloc(cfg, prio), past), es);
  }

  // Critical tasks: the measure is how far the average is above 87.

  function CritGap(avg: u16): nat {
    if avg > 87 then avg - 87 else 0
  }

  function CloseCrit(g: nat): nat {
    if g == 0 then 0 else g - (g + 87) / 4 + 21
  }

  function CritRank(g: nat): nat {
    if g == 0 then 0 else 1 + CritRank(CloseCrit(g))
  }

  lemma CritRankMonotone(g: nat, h: nat)
    requires g <= h
    ensures CritRank(g) <= CritRank(h)
  {
    if g > 0 {
      assert CloseCrit(g) <= CloseCrit(h);
      CritRankMonotone(CloseCrit(g), CloseCrit(h));
    }
  }

  /** Above m each burst takes off at least m/4, so 4 bursts bring 2m down to m. */
  lemma CritDescend(g: nat, m: nat, j: nat)
    requires 4 * g <= 4 * m + j * m
    ensures CritRank(g) <= j + CritRank(m)
    decreases g
  {
    if g <= m {
      CritRankMonotone(g, m);
    } else {
      assert 4 * CloseCrit(g) <= 4 * g - m;
      assert (j - 1) * m == j * m - m;
      CritDescend(CloseCrit(g), m, j - 1);
    }
  }

  lemma CritRankBound(g: nat, k: nat)
    requires g <= Pow2(k)
    ensures CritRank(g) <= 4 * k + 1
    decreases k
  {
    if k == 0 {
      if g == 1 { assert CloseCrit(g) == 0; }
    } else {
      CritDescend(g, Pow2(k - 1), 4);
      CritRankBound(Pow2(k - 1), k - 1);
    }
  }

  lemma CritAverage(avg: u16, rt: u16, runnable: bool)
    requires rt < 88
    ensures CritGap(Ewma(avg, rt, runnable)) <= CritGap(avg)
    ensures !runnable ==> CritGap(Ewma(avg, rt, runnable)) <= CloseCrit(CritGap(avg))
  {
  }

  lemma CleanShift(t: Task, rt: u16)
    requires t.tier < 3 && rt <= OverrunGate(t.tier) && Popcount(t.overrun) <= 3
    ensures !ForcedDemotion(t, rt)
  {
    ShiftInBits(t.overrun, 0);
  }

  lemma UnforcedFullPass(cfg: Config, t: Task, now: nat, runnable: bool)
    requires cfg.Valid() && !ForcedDemotion(t, Sample(t, now))
    ensures var u, c := FullPass(cfg, t, now, runnable), Classify(t.tier, Ewma(t.avg, Sample(t, now), runnable));
            u.tier == c && (c != t.tier ==> u.stable == 0)
  {
    HardDemoteCapNeverDecides(t, Ewma(t.avg, Sample(t, now), runnable), Sample(t, now));
  }

  /** What a stop does to tier and stability when no demotion is forced. */
  lemma UnforcedStop(cfg: Config, t: Task, now: nat, runnable: bool)
    requires cfg.Valid() && t.lastRunAt != 0 && !ForcedDemotion(t, Sample(t, now))
    ensures var u := Stopping(cfg, t, now, runnable);
            var c := Classify(t.tier, Ewma(t.avg, Sample(t, now), runnable));
            u.tier == (if Backoff(t) then t.tier else c) && (c != t.tier ==> u.stable == 0)
  {
    if !Backoff(t) { UnforcedFullPass(cfg, t, now, runnable); }
  }

  lemma CritStop(cfg: Config, t: Task, now: nat, runnable: bool)
    requires cfg.Valid() && Inv(cfg, t) && t.lastRunAt != 0 && Sample(t, now) < 88
    requires Stopping(cfg, t, now, runnable).avg <= 87
    ensures var u := Stopping(cfg, t, now, runnable);
            && (u.tier == 0 || u.stable == 0)
            && (t.tier == 0 || t.stable == 0 ==> u.tier == 0)
  {
    StopAverages(cfg, t, now, runnable);
    if t.tier < 3 { CleanShift(t, Sample(t, now)); }
    UnforcedStop(cfg, t, now, runnable);
  }

  lemma CritMeasure(cfg: Config, t: Task, es: seq<Event>)
    requires cfg.Valid() && Inv(cfg, t) && Quiet(cfg, t, es) && BurstsBelow(cfg, t, es, 88)
    ensures var u, n := After(cfg, t, es), Bursts(cfg, t, es);
            && (CritGap(u.avg) > 0 ==> n + CritRank(CritGap(u.avg)) <= CritRank(CritGap(t.avg)))
            && (n >= 1 && u.avg <= 87 ==> u.tier == 0 || u.stable == 0)
            && (n >= 2 && n > CritRank(CritGap(t.avg)) ==> u.tier == 0)
  {
    if es != [] {
      CritMeasure(cfg, t, Front(es));
      AfterKeepsInv(cfg, t, Front(es));
      var b, e := After(cfg, t, Front(es)), Last(es);
      if Acts(b, e) {
        StopAverages(cfg, b, e.now, e.runnable);
        CritAverage(b.avg, Sample(b, e.now), e.runnable);
        var u := Step(cfg, b, e);
        CritRankMonotone(CritGap(u.avg), if e.runnable then CritGap(b.avg) else CloseCrit(CritGap(b.avg)));
        if u.avg <= 87 { CritStop(cfg, b, e.now, e.runnable); }
      } else {
        NonStopKeepsClass(cfg, b, e);
      }
    }
  }

  lemma CriticalSettles(cfg: Config, t: Task, es: seq<Event>)
    requires cfg.Valid() && Inv(cfg, t) && Quiet(cfg, t, es) && BurstsBelow(cfg, t, es, 88)
    requires Bursts(cfg, t, es) >= 66
    ensures After(cfg, t, es).tier == 0
  {
    CritMeasure(cfg, t, es);
    assert Pow2(8) == 256;
    assert Pow2(16) == 65536;
    CritRankBound(CritGap(t.avg), 16);
  }

  /** From any reachable state, a task whose bursts are all sampled below 88 us is in T0 after 66 completed ones,
      and stays there. */
  lemma CriticalConverges(cfg: Config, prio: nat, past: seq<Event>, es: seq<Event>)
    requires cfg.Valid()
    requires var t := After(cfg, Alloc(cfg, prio), past);
             Quiet(cfg, t, es) && BurstsBelow(cfg, t, es, 88) && Bursts(cfg, t, es) >= 66
    ensures After(cfg, After(cfg, Alloc(cfg, prio), past), es).tier == 0
  {
    AllocInv(cfg, prio);
    AfterKeepsInv(cfg, Alloc(cfg, prio), past);
    CriticalSettles(cfg, After(cfg, Alloc(cfg, prio), past), es);
  }

  // Both thresholds are sharp: integer rounding stalls the average one microsecond short of them.

  /** Every acting stop ends a burst of exactly `us`. */
  predicate AllBursts(cfg: Config, t: Task, es: seq<Event>, us: nat)
    requires cfg.Valid()
  {
    es == [] ||
    (var u := After(cfg, t, Front(es));
     AllBursts(cfg, t, Front(es), us) &&
     (Acts(u, Last(es)) ==> !Last(es).runnable && Sample(u, Last(es).now) == us))
  }

  lemma StallStop(cfg: Config, t: Task, now: nat)
    requires cfg.Valid() && Inv(cfg, t) && t.lastRunAt != 0
    requires (t.tier == 1 && t.avg == 91 && Sample(t, now) == 88)
          || (t.tier == 2 && t.avg == 7984 && Sample(t, now) == 7999)
    ensures var u := Stopping(cfg, t, now, false); u.tier == t.tier && u.avg == t.avg
  {
    StopAverages(cfg, t, now, false);
    CleanShift(t, Sample(t, now));
    UnforcedStop(cfg, t, now, false);
  }

  /** A T1 task at average 91 with bursts of 88 us never reaches T0; a T2 task at 7984 with bursts of
      7999 us never reaches T3. */
  lemma ThresholdsAreSharp(cfg: Config, t: Task, es: seq<Event>)
    requires cfg.Valid() && Inv(cfg, t) && Quiet(cfg, t, es)
    requires (t.tier == 1 && t.avg == 91 && AllBursts(cfg, t, es, 88))
          || (t.tier == 2 && t.avg == 7984 && AllBursts(cfg, t, es, 7999))
    ensures After(cfg, t, es).tier == t.tier && After(cfg, t, es).avg == t.avg
  {
    if es != [] {
      ThresholdsAreSharp(cfg, t, Front(es));
      AfterKeepsInv(cfg, t, Front(es));
      var b, e := After(cfg, t, Front(es)), Last(es);
      if Acts(b, e) { StallStop(cfg, b, e.now); } else { NonStopKeepsClass(cfg, b, e); }
    }
  }
}
