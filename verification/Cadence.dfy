/** How often a CPU's ticks look for starvation: the tick counter in numbers, and its saturation, past which they never
    look again. */
module Cadence {
  import opened TierConfig
  import opened TaskModel
  import opened DeadlineQueue
  import opened Machine
  import opened MachineInvariant
  import opened MachineRuns
  import opened Starvation
  import TaskRuns

  /** A tick that gets past the slice check: CPU c runs a known, stamped task, and the tick does not kick for its
      slice. */
  predicate LooksFurther(cfg: Config, tp: Topology, s: Sys, a: Act)
    requires cfg.Valid() && tp.Valid() && Shape(tp, s) && Enabled(tp, s, a) && a.Tick?
  {
    var p := s.running[a.cpu].value;
    p in s.ctx && s.ctx[p].lastRunAt != 0 && TickVerdict(cfg, tp, s, a) != SliceKick
  }

  lemma CountsSome(q: seq<Entry>, c: nat)
    ensures CountCpu(q, c) > 0 <==> exists k | 0 <= k < |q| :: q[k].taskCpu == c
  {
    if q != [] {
      CountsSome(q[1..], c);
      if k :| 0 <= k < |q[1..]| && q[1..][k].taskCpu == c { assert q[k + 1].taskCpu == c; }
      if k :| 1 <= k < |q| && q[k].taskCpu == c { assert q[1..][k - 1].taskCpu == c; }
    }
  }

  lemma CountsSomewhere(qs: seq<seq<Entry>>, c: nat)
    ensures CountQueues(qs, c) > 0 <==> exists l | 0 <= l < |qs| :: CountCpu(qs[l], c) > 0
  {
    if qs != [] {
      CountsSomewhere(qs[1..], c);
      if l :| 0 <= l < |qs[1..]| && CountCpu(qs[1..][l], c) > 0 { assert CountCpu(qs[l + 1], c) > 0; }
      if l :| 1 <= l < |qs| && CountCpu(qs[l], c) > 0 { assert CountCpu(qs[1..][l - 1], c) > 0; }
    }
  }

  /** The CPU has company when another task waits in its local queue, or in an LLC queue with this CPU as its
      task_cpu. */
  predicate Company(s: Sys, c: nat)
    requires c < |s.local|
  {
    s.local[c] != [] || exists l | 0 <= l < |s.queue| :: Homed(s.queue[l], c)
  }

  predicate Homed(q: seq<Entry>, c: nat) {
    exists k | 0 <= k < |q| :: q[k].taskCpu == c
  }

  lemma CompanyCounts(s: Sys, c: nat)
    requires c < |s.local|
    ensures NrRunning(s, c) > 1 <==> Company(s, c)
  {
    CountsSomewhere(s.queue, c);
    forall l | 0 <= l < |s.queue| ensures CountCpu(s.queue[l], c) > 0 <==> Homed(s.queue[l], c) {
      CountsSome(s.queue[l], c);
    }
  }

  /** The documented cadence: every tick while the counter is below 8, every second below 16, every fourth below 32, and
      every eighth from there on. */
  predicate OnBeat(n: nat) {
    n < 8 || (n < 16 && n % 2 == 0) || (n < 32 && n % 4 == 0) || n % 8 == 0
  }

  /** What the tick does to the counter: on the beat and in company it loses a quarter, rounded down; otherwise it goes
      up by one, to 255 at most. */
  lemma CounterInNumbers(cfg: Config, tp: Topology, s: Sys, a: Act)
    requires cfg.Valid() && tp.Valid() && Shape(tp, s) && Enabled(tp, s, a) && a.Tick? && LooksFurther(cfg, tp, s, a)
    ensures var n, n' := s.mailbox[a.cpu].ticks, Next(cfg, tp, s, a).mailbox[a.cpu].ticks;
            if OnBeat(n) && Company(s, a.cpu) then n' == n - n / 4 else n' == if n < 255 then n + 1 else 255
    ensures forall c | 0 <= c < |s.mailbox| && c != a.cpu ::
              Next(cfg, tp, s, a).mailbox[c].ticks == s.mailbox[c].ticks
  {
    CompanyCounts(s, a.cpu);
  }

  /** And off the beat it does nothing else: no kick, no skip counted. */
  lemma OffBeatIsQuiet(cfg: Config, tp: Topology, s: Sys, a: Act)
    requires cfg.Valid() && tp.Valid() && Shape(tp, s) && Enabled(tp, s, a) && a.Tick?
    requires !OnBeat(s.mailbox[a.cpu].ticks)
    ensures !StarvationBranch(cfg, tp, s, a)
  {
  }

  /** On the beat, the kick in numbers: in company, past the budget, and with no lock held or four skips used up. */
  lemma KickInNumbers(cfg: Config, tp: Topology, s: Sys, a: Act)
    requires cfg.Valid() && tp.Valid() && Shape(tp, s) && Enabled(tp, s, a) && a.Tick? && LooksFurther(cfg, tp, s, a)
    ensures var t, s' := s.ctx[s.running[a.cpu].value], Next(cfg, tp, s, a);
            var starved := OnBeat(s.mailbox[a.cpu].ticks) && Company(s, a.cpu)
                           && (a.now - t.lastRunAt) % U32 > cfg.Budget(t.tier);
            && (TickVerdict(cfg, tp, s, a) == StarvationKick <==> starved && (t.lockHolder ==> t.lockSkip >= 4))
            && s.running[a.cpu].value in s'.ctx
            && s'.ctx[s.running[a.cpu].value].lockSkip
               == if !starved || !t.lockHolder then t.lockSkip else if t.lockSkip < 4 then t.lockSkip + 1 else 0
  {
    CompanyCounts(s, a.cpu);
    SameElapsed(a.now, s.ctx[s.running[a.cpu].value].lastRunAt);
  }

  lemma SameElapsed(now: nat, since: u32)
    ensures Elapsed(now, since) == (now - since) % U32
  {
    var q, r := now / U32, now % U32;
    assert now - since == (r - since) + q * U32;
    TaskRuns.ModShift(r - since, q);
  }

  /** Before all that, the slice check in numbers: a known, stamped task is kicked when its truncated runtime is above
      its slice and something is queued on its CPU or in its LLC. */
  lemma SliceInNumbers(cfg: Config, tp: Topology, s: Sys, a: Act)
    requires cfg.Valid() && tp.Valid() && Shape(tp, s) && Enabled(tp, s, a) && a.Tick?
    ensures var p := s.running[a.cpu].value;
            TickVerdict(cfg, tp, s, a) == SliceKick <==>
              && p in s.ctx && s.ctx[p].lastRunAt != 0
              && (a.now - s.ctx[p].lastRunAt) % U32 > s.ctx[p].nextSlice
              && (s.local[a.cpu] != [] || s.queue[tp.llcOf[a.cpu]] != [])
  {
    var p := s.running[a.cpu].value;
    if p in s.ctx { SameElapsed(a.now, s.ctx[p].lastRunAt); }
  }

  /** A tick on a context that running left unstamped only stamps it: no verdict, no counter, no mailbox. */
  lemma UnstampedTick(cfg: Config, tp: Topology, s: Sys, a: Act)
    requires cfg.Valid() && tp.Valid() && Shape(tp, s) && Enabled(tp, s, a) && a.Tick?
    requires var p := s.running[a.cpu].value; p in s.ctx && s.ctx[p].lastRunAt == 0
    ensures var p, s' := s.running[a.cpu].value, Next(cfg, tp, s, a);
            && TickVerdict(cfg, tp, s, a) == NoKick && s'.mailbox == s.mailbox
            && p in s'.ctx && s'.ctx[p] == s.ctx[p].(lastRunAt := a.now % U32)
  {
  }

  // ---- the promised delay ----

  /** The counter after k ticks off the beat, or alone. */
  function Raised(n: u8, k: nat): nat {
    Min(n + k, 255)
  }

  /** The promised bound, a check at most seven ticks later, holds exactly up to counter 248. From 249 on there is no
      check ever again. */
  lemma SevenTicksAtMost(n: u8)
    ensures (exists k: nat :: k <= 7 && OnBeat(Raised(n, k))) <==> n <= 248
    ensures n > 248 ==> forall k: nat :: !OnBeat(Raised(n, k))
  {
    if n <= 248 {
      var k := (8 - n % 8) % 8;
      assert (n + k) % 8 == 0;
      assert OnBeat(Raised(n, k));
    }
  }

  // ---- in runs of the machine ----

  lemma OtherKeepsTicks(cfg: Config, tp: Topology, s: Sys, a: Act, c: nat)
    requires cfg.Valid() && tp.Valid() && Shape(tp, s) && Enabled(tp, s, a) && c < |s.mailbox|
    requires a.Tick? ==> a.cpu != c || !LooksFurther(cfg, tp, s, a)
    ensures Shape(tp, Next(cfg, tp, s, a)) && Next(cfg, tp, s, a).mailbox[c].ticks == s.mailbox[c].ticks
  {
  }

  /** Once a CPU's counter is past 248 it stays there, in every run, whatever runs on the CPU. */
  lemma {:induction false} NeverDown(cfg: Config, tp: Topology, s: Sys, acts: seq<Act>, c: nat)
    requires cfg.Valid() && tp.Valid() && Shape(tp, s) && c < |s.mailbox| && s.mailbox[c].ticks > 248
    ensures var s' := Play(cfg, tp, s, acts); c < |s'.mailbox| && s'.mailbox[c].ticks > 248
    decreases |acts|
  {
    if acts != [] {
      var b, a := Play(cfg, tp, s, Front(acts)), Last(acts);
      NeverDown(cfg, tp, s, Front(acts), c);
      if Enabled(tp, b, a) {
        if a.Tick? && LooksFurther(cfg, tp, b, a) { CounterInNumbers(cfg, tp, b, a); }
        else { OtherKeepsTicks(cfg, tp, b, a, c); }
      }
    }
  }

  /** So from there on no tick on it ever kicks for starvation or counts a skip, in any configuration. */
  lemma NeverLooksAgain(cfg: Config, tp: Topology, s: Sys, acts: seq<Act>, tick: Act)
    requires cfg.Valid() && tp.Valid() && Shape(tp, s) && tick.Tick? && tick.cpu < |s.mailbox|
    requires s.mailbox[tick.cpu].ticks > 248 && Enabled(tp, Play(cfg, tp, s, acts), tick)
    ensures !StarvationBranch(cfg, tp, Play(cfg, tp, s, acts), tick)
  {
    NeverDown(cfg, tp, s, acts, tick.cpu);
    OffBeatIsQuiet(cfg, tp, Play(cfg, tp, s, acts), tick);
  }

  /** A task started alone on the machine's one CPU, and n ticks, any time apart. */
  function LoneTicks(prio: nat, times: seq<nat>): seq<Act> {
    if times == [] then FreshStart(prio) else LoneTicks(prio, Front(times)) + [Act.Tick(0, Last(times))]
  }

  lemma LoneTicksStamp(prio: nat, times: seq<nat>)
    ensures AllStamp(LoneTicks(prio, times))
  {
  }

  lemma LoneTick(cfg: Config, tp: Topology, s: Sys, now: nat, t: Task)
    requires cfg.Valid() && tp == Topology([0], 1) && Shape(tp, s)
    requires s.local == [[]] && s.queue == [[]] && s.running == [Some(1)] && s.ctx.Keys == {1} && s.ctx[1] == t
    requires t.lastRunAt == 1
    ensures var s', n := Do(cfg, tp, s, Act.Tick(0, now)), s.mailbox[0].ticks;
            && s'.local == [[]] && s'.queue == [[]] && s'.running == [Some(1)]
            && s'.ctx.Keys == {1} && s'.ctx[1] == t && s'.mailbox[0].ticks == if n < 255 then n + 1 else 255
  {
    assert s.queue[1..] == [];
    assert CountQueues(s.queue, 0) == 0;
  }

  /** And it gets there: 249 ticks on a CPU with a single task do it, in a run from boot. */
  lemma LoneTicksSaturate(cfg: Config, tp: Topology, prio: nat, times: seq<nat>)
    requires cfg.Valid() && tp == Topology([0], 1)
    ensures var s := Play(cfg, tp, Boot(tp), LoneTicks(prio, times));
            && s.local == [[]] && s.queue == [[]] && s.running == [Some(1)] && s.ctx.Keys == {1}
            && s.ctx[1] == TaskModel.Running(Alloc(cfg, prio), 1)
            && s.mailbox[0].ticks == Min(|times|, 255)
  {
    if times == [] {
      FreshStarted(cfg, tp, prio);
    } else {
      LoneTicksSaturate(cfg, tp, prio, Front(times));
      PlayMore(cfg, tp, Boot(tp), LoneTicks(prio, Front(times)), Act.Tick(0, Last(times)));
      LoneTick(cfg, tp, Play(cfg, tp, Boot(tp), LoneTicks(prio, Front(times))), Last(times),
               TaskModel.Running(Alloc(cfg, prio), 1));
    }
  }
}
