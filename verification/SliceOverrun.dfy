/** Bounded slice overrun, over every interleaving and every wrap of the 32-bit clock. */
module SliceOverrun {
  import opened TierConfig
  import opened TaskModel
  import opened Machine
  import opened MachineInvariant
  import opened MachineRuns

  /** CPU c runs task p, stamped `since`, with cached slice `slice`. */
  predicate InBout(s: Sys, c: nat, p: nat, since: u32, slice: nat) {
    && c < |s.running| && s.running[c] == Some(p) && p in s.ctx
    && s.ctx[p].lastRunAt == since && s.ctx[p].nextSlice == slice
  }

  lemma StillRunning(cfg: Config, tp: Topology, s: Sys, a: Act, c: nat, p: nat)
    requires cfg.Valid() && tp.Valid() && Shape(tp, s) && Enabled(tp, s, a)
    requires tp.Cpu(c) && s.running[c] == Some(p) && !(a.Stop? && a.cpu == c)
    ensures Shape(tp, Next(cfg, tp, s, a)) && Next(cfg, tp, s, a).running[c] == Some(p)
  {
  }

  lemma SameBout(cfg: Config, t: Task, e: Event)
    requires cfg.Valid() && t.lastRunAt != 0 && !e.Stop? && !e.Run?
    ensures Step(cfg, t, e).lastRunAt == t.lastRunAt && Step(cfg, t, e).nextSlice == t.nextSlice
  {
  }

  lemma BoutEvent(cfg: Config, tp: Topology, s: Sys, a: Act, c: nat, p: nat)
    requires cfg.Valid() && tp.Valid() && Shape(tp, s) && Unique(s) && Enabled(tp, s, a)
    requires tp.Cpu(c) && s.running[c] == Some(p) && p in s.ctx && !(a.Stop? && a.cpu == c)
    ensures var e := EventOf(cfg, tp, s, a, p); e.Some? ==> !e.value.Stop? && !e.value.Run?
  {
    if a.Run? { LocalNotRunning(s, a.cpu, c); }
    if a.Stop? { RunningOnce(s, c, a.cpu, p); }
  }

  /** Nothing but a stop on its own CPU ends a bout or moves its stamp or its slice. */
  lemma BoutLasts(cfg: Config, tp: Topology, s: Sys, a: Act, c: nat, p: nat, since: u32, slice: nat)
    requires cfg.Valid() && tp.Valid() && Shape(tp, s) && Unique(s) && Enabled(tp, s, a) && tp.Cpu(c)
    requires InBout(s, c, p, since, slice) && since != 0 && !(a.Stop? && a.cpu == c)
    ensures InBout(Next(cfg, tp, s, a), c, p, since, slice)
  {
    StillRunning(cfg, tp, s, a, c, p);
    Projection(cfg, tp, s, a, p);
    BoutEvent(cfg, tp, s, a, c, p);
    var e := EventOf(cfg, tp, s, a, p);
    if e.Some? { SameBout(cfg, s.ctx[p], e.value); }
  }

  predicate TickOn(a: Act, c: nat) {
    a.Tick? && a.cpu == c
  }

  /** The time of the last tick on c in the run, or `from` when there has been none. */
  function LastTick(acts: seq<Act>, c: nat, from: nat): nat {
    if acts == [] then from
    else if TickOn(Last(acts), c) then Last(acts).now
    else LastTick(Front(acts), c, from)
  }

  /** From time `from` on, c ticks in time order, at most `period` apart, and is never stopped. */
  predicate Steady(acts: seq<Act>, c: nat, from: nat, period: nat) {
    acts == [] ||
    (&& Steady(Front(acts), c, from, period)
     && !(Last(acts).Stop? && Last(acts).cpu == c)
     && (TickOn(Last(acts), c) ==>
           LastTick(Front(acts), c, from) <= Last(acts).now <= LastTick(Front(acts), c, from) + period))
  }

  /** The tick at index k of the run kicks for slice expiry. */
  predicate KicksAt(cfg: Config, tp: Topology, s: Sys, acts: seq<Act>, c: nat, k: nat)
    requires cfg.Valid() && tp.Valid() && Shape(tp, s) && k < |acts|
  {
    var b := Play(cfg, tp, s, acts[..k]);
    Enabled(tp, b, acts[k]) && TickOn(acts[k], c) && TickVerdict(cfg, tp, b, acts[k]) == SliceKick
  }

  /** Work is queued where c would take it at every tick on c. */
  predicate WorkStays(cfg: Config, tp: Topology, s: Sys, acts: seq<Act>, c: nat)
    requires cfg.Valid() && tp.Valid() && Shape(tp, s) && tp.Cpu(c)
  {
    forall k | 0 <= k < |acts| && TickOn(acts[k], c) :: Waiting(tp, Play(cfg, tp, s, acts[..k]), c)
  }

  lemma ElapsedAdvances(now: nat, d: nat, since: u32)
    ensures Elapsed(now + d, since) == (Elapsed(now, since) + d) % U32
  {
    var q := (now + d) / U32 - now / U32;
    assert (now + d) % U32 - since == now % U32 - since + d - q * U32;
    var e := Elapsed(now, since);
    var r := (now % U32 - since) / U32;
    assert now % U32 - since == e + r * U32;
    SameResidue(e + d, r - q);
  }

  lemma SameResidue(x: int, k: int)
    ensures (x + k * U32) % U32 == x % U32
  {
    assert (x + k * U32) / U32 == x / U32 + k;
  }

  /** What an unbroken series of ticks without a kick says about the last one: the bout looks unexpired, and
      as much time has passed as the truncated runtime shows, up to one period. */
  predicate Unexpired(last: nat, from: nat, since: u32, slice: nat, period: nat) {
    last == from || (Elapsed(last, since) <= slice && last <= from + period + Elapsed(last, since))
  }

  lemma QuietTick(last: nat, now: nat, from: nat, since: u32, slice: nat, period: nat)
    requires slice + period < U32 && last <= now <= last + period
    requires Unexpired(last, from, since, slice, period) && Elapsed(now, since) <= slice
    ensures Unexpired(now, from, since, slice, period)
  {
    if last != from {
      ElapsedAdvances(last, now - last, since);
    }
  }

  lemma RunInBout(cfg: Config, tp: Topology, s: Sys, acts: seq<Act>, c: nat, p: nat, since: u32, slice: nat,
                  from: nat, period: nat)
    requires cfg.Valid() && tp.Valid() && Inv(cfg, tp, s) && AllStamp(acts)
    requires InBout(s, c, p, since, slice) && since != 0 && tp.Cpu(c) && Steady(acts, c, from, period)
    ensures InBout(Play(cfg, tp, s, acts), c, p, since, slice)
  {
    if acts != [] {
      RunInBout(cfg, tp, s, Front(acts), c, p, since, slice, from, period);
      PlayKeepsInv(cfg, tp, s, Front(acts));
      var b, a := Play(cfg, tp, s, Front(acts)), Last(acts);
      if Enabled(tp, b, a) { BoutLasts(cfg, tp, b, a, c, p, since, slice); }
    }
  }

  lemma WorkStaysFront(cfg: Config, tp: Topology, s: Sys, acts: seq<Act>, c: nat)
    requires cfg.Valid() && tp.Valid() && Shape(tp, s) && tp.Cpu(c) && acts != []
    requires WorkStays(cfg, tp, s, acts, c)
    ensures WorkStays(cfg, tp, s, Front(acts), c)
    ensures TickOn(Last(acts), c) ==> Waiting(tp, Play(cfg, tp, s, Front(acts)), c)
  {
    forall k | 0 <= k < |Front(acts)| && TickOn(Front(acts)[k], c)
      ensures Waiting(tp, Play(cfg, tp, s, Front(acts)[..k]), c)
    {
      assert Front(acts)[..k] == acts[..k];
    }
    assert acts[..|acts| - 1] == Front(acts);
  }

  /** A tick that finds work and does not kick has seen a truncated runtime within the slice. */
  lemma NoKickMeansWithin(cfg: Config, tp: Topology, b: Sys, a: Act, c: nat, p: nat, since: u32, slice: nat)
    requires cfg.Valid() && tp.Valid() && Inv(cfg, tp, b) && tp.Cpu(c) && Enabled(tp, b, a) && TickOn(a, c)
    requires InBout(b, c, p, since, slice) && Waiting(tp, b, c)
    ensures TickVerdict(cfg, tp, b, a) == SliceKick <==> Elapsed(a.now, since) > slice
  {
    assert CpuTrue(b, c);
  }

  /** If no tick of the run kicks, its last tick is within slice + period of the work's arrival. */
  lemma {:induction false} UnkickedRunIsShort(cfg: Config, tp: Topology, s: Sys, acts: seq<Act>, c: nat, p: nat,
                                              since: u32, slice: nat, from: nat, period: nat)
    requires cfg.Valid() && tp.Valid() && Inv(cfg, tp, s) && AllStamp(acts) && tp.Cpu(c)
    requires InBout(s, c, p, since, slice) && since != 0 && slice + period < U32
    requires Steady(acts, c, from, period) && WorkStays(cfg, tp, s, acts, c)
    requires forall k | 0 <= k < |acts| :: !KicksAt(cfg, tp, s, acts, c, k)
    ensures Unexpired(LastTick(acts, c, from), from, since, slice, period)
    decreases |acts|
  {
    if acts != [] {
      var b, a, k := Play(cfg, tp, s, Front(acts)), Last(acts), |acts| - 1;
      WorkStaysFront(cfg, tp, s, acts, c);
      forall k | 0 <= k < |Front(acts)| ensures !KicksAt(cfg, tp, s, Front(acts), c, k) {
        KickInFront(cfg, tp, s, acts, c, k);
      }
      UnkickedRunIsShort(cfg, tp, s, Front(acts), c, p, since, slice, from, period);
      if TickOn(a, c) {
        PlayKeepsInv(cfg, tp, s, Front(acts));
        RunInBout(cfg, tp, s, Front(acts), c, p, since, slice, from, period);
        assert Enabled(tp, b, a);
        assert acts[..k] == Front(acts) && !KicksAt(cfg, tp, s, acts, c, k);
        NoKickMeansWithin(cfg, tp, b, a, c, p, since, slice);
        QuietTick(LastTick(Front(acts), c, from), a.now, from, since, slice, period);
      }
    }
  }

  /** The kick that a run reaching too far must contain, at one of its ticks. */
  lemma FirstKick(cfg: Config, tp: Topology, s: Sys, acts: seq<Act>, c: nat, p: nat, since: u32,
                  slice: nat, from: nat, period: nat) returns (k: nat)
    requires cfg.Valid() && tp.Valid() && Inv(cfg, tp, s) && AllStamp(acts) && tp.Cpu(c)
    requires InBout(s, c, p, since, slice) && since != 0 && slice + period < U32
    requires Steady(acts, c, from, period) && WorkStays(cfg, tp, s, acts, c)
    requires LastTick(acts, c, from) > from + slice + period
    ensures k < |acts| && KicksAt(cfg, tp, s, acts, c, k) && acts[k].now <= from + slice + 2 * period
    decreases |acts|
  {
    if LastTick(Front(acts), c, from) > from + slice + period {
      WorkStaysFront(cfg, tp, s, acts, c);
      k := FirstKick(cfg, tp, s, Front(acts), c, p, since, slice, from, period);
      KickInFront(cfg, tp, s, acts, c, k);
    } else {
      if forall i | 0 <= i < |acts| :: !KicksAt(cfg, tp, s, acts, c, i) {
        UnkickedRunIsShort(cfg, tp, s, acts, c, p, since, slice, from, period);
        assert false;
      }
      k :| 0 <= k < |acts| && KicksAt(cfg, tp, s, acts, c, k);
      TicksNoLater(acts, c, from, period, k);
    }
  }

  lemma KickInFront(cfg: Config, tp: Topology, s: Sys, acts: seq<Act>, c: nat, k: nat)
    requires cfg.Valid() && tp.Valid() && Shape(tp, s) && acts != [] && k < |acts| - 1
    ensures KicksAt(cfg, tp, s, acts, c, k) <==> KicksAt(cfg, tp, s, Front(acts), c, k)
  {
    assert Front(acts)[..k] == acts[..k];
  }

  /** Bounded slice overrun: from any reachable state in which c runs a task the scheduler knows, if work stays
      queued for c from time `from` on, ticks come at most `period` apart and slice + period stays below 2^32,
      then a run whose ticks reach past from + slice + period kicks the task, at a tick no later than
      from + slice + 2 * period, however often the 32-bit clock wraps. */
  lemma BoundedSliceOverrun(cfg: Config, tp: Topology, s: Sys, acts: seq<Act>, c: nat, p: nat, since: u32,
                            slice: nat, from: nat, period: nat)
    requires cfg.Valid() && tp.Valid() && Reachable(cfg, tp, s) && Shape(tp, s) && AllStamp(acts) && tp.Cpu(c)
    requires InBout(s, c, p, since, slice) && slice + period < U32
    requires Steady(acts, c, from, period) && WorkStays(cfg, tp, s, acts, c)
    requires LastTick(acts, c, from) > from + slice + period
    ensures exists k | 0 <= k < |acts| ::
              KicksAt(cfg, tp, s, acts, c, k) && acts[k].now <= from + slice + 2 * period
  {
    ReachableInv(cfg, tp, s);
    assert CpuTrue(s, c);
    var k := FirstKick(cfg, tp, s, acts, c, p, since, slice, from, period);
  }

  /** Ticks come in time order. */
  lemma TicksNoLater(acts: seq<Act>, c: nat, from: nat, period: nat, k: nat)
    requires Steady(acts, c, from, period) && k < |acts| && TickOn(acts[k], c)
    ensures acts[k].now <= LastTick(acts, c, from)
  {
    if k < |acts| - 1 {
      assert Front(acts)[k] == acts[k];
      TicksNoLater(Front(acts), c, from, period, k);
    }
  }

  /** The bound on slice + period is needed: otherwise a tick at the end of the slice can be followed, one
      period later, by a tick whose truncated runtime is within the slice again. */
  lemma WrapHidesTheOverrun(slice: nat, period: nat, now: nat, since: u32)
    requires slice < U32 && period <= U32 && Elapsed(now, since) == slice
    ensures Elapsed(now + period, since) <= slice <==> slice + period >= U32 || period == 0
  {
    ElapsedAdvances(now, period, since);
  }

  // ---- the bound on slice + period is exact ----

  /** How long after `now` the next tick may come without seeing more than the slice: right away while the slice runs,
      and otherwise once the 32-bit clock has come round. */
  function Hush(now: nat, since: u32, slice: nat): nat {
    var e := Elapsed(now, since);
    if e < slice then 1 else U32 - e
  }

  function HushedTime(from: nat, since: u32, slice: nat, n: nat): nat {
    if n == 0 then from
    else
      var t := HushedTime(from, since, slice, n - 1);
      t + Hush(t, since, slice)
  }

  /** n such ticks. */
  function HushedTicks(c: nat, from: nat, since: u32, slice: nat, n: nat): seq<Act> {
    if n == 0 then []
    else HushedTicks(c, from, since, slice, n - 1) + [Act.Tick(c, HushedTime(from, since, slice, n))]
  }

  lemma HushedWithin(from: nat, since: u32, slice: nat, n: nat)
    requires n > 0
    ensures Elapsed(HushedTime(from, since, slice, n), since) <= slice
  {
    var t := HushedTime(from, since, slice, n - 1);
    ElapsedAdvances(t, Hush(t, since, slice), since);
  }

  lemma HushedSteady(c: nat, from: nat, since: u32, slice: nat, period: nat, n: nat)
    requires slice + period >= U32 && period > 0
    ensures var acts := HushedTicks(c, from, since, slice, n);
            && |acts| == n && AllStamp(acts) && Steady(acts, c, from, period)
            && LastTick(acts, c, from) == HushedTime(from, since, slice, n) >= from + n
  {
    if n > 0 {
      HushedSteady(c, from, since, slice, period, n - 1);
      var before := HushedTicks(c, from, since, slice, n - 1);
      assert Front(before + [Act.Tick(c, HushedTime(from, since, slice, n))]) == before;
    }
  }

  lemma HushedPrefix(c: nat, from: nat, since: u32, slice: nat, n: nat, k: nat)
    requires k <= n
    ensures |HushedTicks(c, from, since, slice, n)| == n
    ensures HushedTicks(c, from, since, slice, n)[..k] == HushedTicks(c, from, since, slice, k)
    ensures k < n ==> HushedTicks(c, from, since, slice, n)[k] == Act.Tick(c, HushedTime(from, since, slice, k + 1))
  {
    if n > 0 {
      var acts, before := HushedTicks(c, from, since, slice, n), HushedTicks(c, from, since, slice, n - 1);
      HushedPrefix(c, from, since, slice, n - 1, Min(k, n - 1));
      assert if k < n then acts[..k] == before[..k] else acts[..k] == acts;
    }
  }

  lemma TickKeepsWork(cfg: Config, tp: Topology, s: Sys, a: Act)
    requires cfg.Valid() && tp.Valid() && Shape(tp, s) && a.Tick?
    ensures Do(cfg, tp, s, a).queue == s.queue && Do(cfg, tp, s, a).local == s.local
  {
  }

  /** Through those ticks the bout lasts and the work stays queued. */
  lemma HushedState(cfg: Config, tp: Topology, s: Sys, c: nat, p: nat, since: u32, slice: nat, from: nat, n: nat)
    requires cfg.Valid() && tp.Valid() && Inv(cfg, tp, s) && tp.Cpu(c)
    requires InBout(s, c, p, since, slice) && since != 0 && Waiting(tp, s, c)
    ensures var b := Play(cfg, tp, s, HushedTicks(c, from, since, slice, n));
            Inv(cfg, tp, b) && InBout(b, c, p, since, slice) && b.queue == s.queue && b.local == s.local
  {
    if n > 0 {
      var acts, a := HushedTicks(c, from, since, slice, n - 1), Act.Tick(c, HushedTime(from, since, slice, n));
      var b := Play(cfg, tp, s, acts);
      HushedState(cfg, tp, s, c, p, since, slice, from, n - 1);
      PlayMore(cfg, tp, s, acts, a);
      TickKeepsWork(cfg, tp, b, a);
      NextKeepsInv(cfg, tp, b, a);
      BoutLasts(cfg, tp, b, a, c, p, since, slice);
    }
  }

  /** None of them kicks. */
  lemma HushedTickPasses(cfg: Config, tp: Topology, s: Sys, c: nat, p: nat, since: u32, slice: nat, from: nat, n: nat,
                         k: nat)
    requires cfg.Valid() && tp.Valid() && Inv(cfg, tp, s) && tp.Cpu(c) && k < n
    requires InBout(s, c, p, since, slice) && since != 0 && Waiting(tp, s, c)
    ensures var acts := HushedTicks(c, from, since, slice, n);
            |acts| == n && Waiting(tp, Play(cfg, tp, s, acts[..k]), c) && !KicksAt(cfg, tp, s, acts, c, k)
  {
    var acts := HushedTicks(c, from, since, slice, n);
    HushedPrefix(c, from, since, slice, n, k);
    HushedState(cfg, tp, s, c, p, since, slice, from, k);
    HushedWithin(from, since, slice, k + 1);
    NoKickMeansWithin(cfg, tp, Play(cfg, tp, s, acts[..k]), acts[k], c, p, since, slice);
  }

  /** Every such run whose ticks reach past `bound` kicks the task. */
  ghost predicate KickedBy(cfg: Config, tp: Topology, s: Sys, c: nat, from: nat, period: nat, bound: nat)
    requires cfg.Valid() && tp.Valid() && Shape(tp, s) && tp.Cpu(c)
  {
    forall acts ::
      AllStamp(acts) && Steady(acts, c, from, period) && WorkStays(cfg, tp, s, acts, c)
      && LastTick(acts, c, from) > bound ==>
        exists k :: 0 <= k < |acts| && KicksAt(cfg, tp, s, acts, c, k)
  }

  lemma NeverKicked(cfg: Config, tp: Topology, s: Sys, c: nat, p: nat, since: u32, slice: nat, from: nat, period: nat,
                    bound: nat)
    requires cfg.Valid() && tp.Valid() && Inv(cfg, tp, s) && tp.Cpu(c)
    requires InBout(s, c, p, since, slice) && since != 0 && Waiting(tp, s, c)
    requires slice + period >= U32 && period > 0
    ensures !KickedBy(cfg, tp, s, c, from, period, bound)
  {
    var n := bound + 1;
    var acts := HushedTicks(c, from, since, slice, n);
    HushedSteady(c, from, since, slice, period, n);
    forall k | 0 <= k < n
      ensures Waiting(tp, Play(cfg, tp, s, acts[..k]), c) && !KicksAt(cfg, tp, s, acts, c, k)
    {
      HushedTickPasses(cfg, tp, s, c, p, since, slice, from, n, k);
    }
  }

  lemma NoPeriodNoTime(acts: seq<Act>, c: nat, from: nat)
    requires Steady(acts, c, from, 0)
    ensures LastTick(acts, c, from) == from
  {
  }

  /** In every reachable state in which c runs a task and work is queued for it: if the work stays and ticks keep
      coming at most `period` apart, some time bounds the kick if and only if slice + period is below 2^32, or the
      period is zero. */
  lemma GuardIsExact(cfg: Config, tp: Topology, s: Sys, c: nat, p: nat, since: u32, slice: nat, from: nat, period: nat)
    requires cfg.Valid() && tp.Valid() && Reachable(cfg, tp, s) && Shape(tp, s) && tp.Cpu(c)
    requires InBout(s, c, p, since, slice) && Waiting(tp, s, c)
    ensures (exists bound: nat :: KickedBy(cfg, tp, s, c, from, period, bound)) <==> slice + period < U32 || period == 0
  {
    ReachableInv(cfg, tp, s);
    assert CpuTrue(s, c);
    if slice + period < U32 || period == 0 {
      var bound := from + slice + period;
      forall acts | AllStamp(acts) && Steady(acts, c, from, period) && WorkStays(cfg, tp, s, acts, c)
                    && LastTick(acts, c, from) > bound
        ensures exists k :: 0 <= k < |acts| && KicksAt(cfg, tp, s, acts, c, k)
      {
        if period == 0 { NoPeriodNoTime(acts, c, from); }
        else { BoundedSliceOverrun(cfg, tp, s, acts, c, p, since, slice, from, period); }
      }
      assert KickedBy(cfg, tp, s, c, from, period, bound);
    } else {
      forall bound: nat ensures !KickedBy(cfg, tp, s, c, from, period, bound) {
        NeverKicked(cfg, tp, s, c, p, since, slice, from, period, bound);
      }
    }
  }
}
