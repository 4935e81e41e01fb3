/** The callbacks as the source writes them, over words, flags and task contexts updated in place, each proved to
    make exactly the Machine step it stands for. The kernel's queues are part of the object so that its helpers
    can be called; everything else is the scheduler's own BSS. */
module Callbacks {
  import opened TierConfig
  import opened TaskModel
  import opened DeadlineQueue
  import opened Machine
  import opened FlowContext
  import Stealing
  import CpuMask
  import LlcMask

  // ---- mailbox flags: 0x80 | tier once written ----

  const VALID: bv8 := 0x80

  function BoxBits(t: Tier): (b: bv8)
    ensures b <= 3 && BoxTwo(b) == t
  {
    if t == 0 then 0 else if t == 1 then 1 else if t == 2 then 2 else 3
  }

  function BoxTwo(b: bv8): Tier {
    if b == 0 then 0 else if b == 1 then 1 else if b == 2 then 2 else 3
  }

  /** The published tier; an unwritten mailbox is distinct from one publishing T0. */
  function BoxTier(flags: bv8): Option<Tier> {
    if flags & VALID != 0 then Some(BoxTwo(flags & 3)) else None
  }

  lemma Published(cur: bv8, b: bv8)
    requires b <= 3
    ensures (VALID | (cur & !3) | b) & VALID != 0 && (VALID | (cur & !3) | b) & 3 == b
    ensures (VALID | b) & VALID != 0 && (VALID | b) & 3 == b
  {
  }

  /** Both publishing forms, that of imperator_running and that of imperator_tick, publish the tier. */
  lemma PublishesTier(cur: bv8, t: Tier)
    ensures BoxTier(VALID | (cur & !3) | BoxBits(t)) == Some(t)
    ensures BoxTier(VALID | BoxBits(t)) == Some(t)
  {
    Published(cur, BoxBits(t));
  }

  class Scheduler {
    const cfg: Config
    const tp: Topology
    const tierCpuMask: array<CpuMask.Word>
    const llcCpuMask: array<CpuMask.Word>
    const nonempty: array<bool>
    const mboxFlags: array<bv8>
    const mboxTicks: array<u8>

    // the kernel's dispatch queues and what each CPU runs
    var queue: seq<seq<Entry>>
    var local: seq<seq<nat>>
    var running: seq<Option<nat>>

    /** No two arrays are the same object. */
    ghost predicate Separate() {
      var m: object, l: object, n: object, f: object, t: object :=
        tierCpuMask, llcCpuMask, nonempty, mboxFlags, mboxTicks;
      && m != l && m != n && m != f && m != t && l != n && l != f && l != t && n != f && n != t && f != t
    }

    ghost predicate Valid()
      reads this, llcCpuMask
    {
      && Separate() && cfg.Valid() && tp.Valid()
      && tierCpuMask.Length == 4 && llcCpuMask.Length == 8
      && nonempty.Length == tp.nrLlcs && mboxFlags.Length == mboxTicks.Length == 64
      && |queue| == tp.nrLlcs && |local| == |running| == |tp.llcOf|
      && forall l | 0 <= l < 8 :: CpuMask.Members(llcCpuMask[l]) == tp.Members(l)
    }

    ghost predicate ShowsMasks(tierCpus: seq<set<nat>>)
      reads tierCpuMask
    {
      tierCpuMask.Length == |tierCpus| == 4
      && forall k | 0 <= k < 4 :: tierCpus[k] == CpuMask.Members(tierCpuMask[k])
    }

    ghost predicate ShowsFlags(flags: seq<bool>)
      reads nonempty
    {
      |flags| == nonempty.Length && forall l | 0 <= l < |flags| :: flags[l] == nonempty[l]
    }

    ghost predicate ShowsBoxes(boxes: seq<Mailbox>)
      reads mboxFlags, mboxTicks
    {
      |boxes| <= mboxFlags.Length == mboxTicks.Length
      && forall c | 0 <= c < |boxes| :: boxes[c] == Mailbox(BoxTier(mboxFlags[c]), mboxTicks[c])
    }

    /** This object's words and queues are the state s of the abstract machine. */
    ghost predicate Shows(s: Sys)
      requires Valid()
      reads this, llcCpuMask, tierCpuMask, nonempty, mboxFlags, mboxTicks
    {
      && Shape(tp, s)
      && s.queue == queue && s.local == local && s.running == running
      && ShowsFlags(s.nonempty) && ShowsMasks(s.tierCpus) && ShowsBoxes(s.mailbox)
    }

    /** The object and its arrays. */
    ghost function Footprint(): set<object>
    {
      {this, tierCpuMask, llcCpuMask, nonempty, mboxFlags, mboxTicks}
    }

    /** The task-storage lookup for p returned tctx. */
    ghost predicate Looked(s: Sys, p: nat, tctx: TaskCtx?)
      reads tctx
    {
      if tctx == null then p !in s.ctx else p in s.ctx && tctx.Valid() && tctx.Abs() == s.ctx[p]
    }

    /** BSS, and imperator_init: llc_cpu_mask is computed from cpu_llc_id before any task runs. */
    constructor (cfg: Config, tp: Topology)
      requires cfg.Valid() && tp.Valid()
      ensures Valid() && this.cfg == cfg && this.tp == tp && Shows(Boot(tp))
    {
      this.cfg, this.tp := cfg, tp;
      tierCpuMask := new CpuMask.Word[4](_ => 0);
      llcCpuMask := new CpuMask.Word[8](_ => 0);
      nonempty := new bool[tp.nrLlcs](_ => false);
      mboxFlags := new bv8[64](_ => 0);
      mboxTicks := new u8[64](_ => 0);
      queue := seq(tp.nrLlcs, i => []);
      local := seq(|tp.llcOf|, i => []);
      running := seq(|tp.llcOf|, i => None);
      new;
      ZeroShowsBoot();
      FillLlcMasks();
    }

    /** Zeroed BSS is the boot state, part by part. */
    lemma ZeroShowsBoot()
      requires |tp.llcOf| <= 64 && nonempty.Length == tp.nrLlcs
      requires tierCpuMask.Length == 4 && forall k | 0 <= k < 4 :: tierCpuMask[k] == 0
      requires forall l | 0 <= l < nonempty.Length :: !nonempty[l]
      requires mboxFlags.Length == mboxTicks.Length == 64
      requires forall c | 0 <= c < 64 :: mboxFlags[c] == 0 && mboxTicks[c] == 0
      ensures var s := Boot(tp); ShowsMasks(s.tierCpus) && ShowsFlags(s.nonempty) && ShowsBoxes(s.mailbox)
    {
      CpuMask.Empty();
    }

    /** The loop of imperator_init. */
    method FillLlcMasks()
      requires tp.Valid() && llcCpuMask.Length == 8
      requires forall l | 0 <= l < 8 :: llcCpuMask[l] == 0
      modifies llcCpuMask
      ensures forall l | 0 <= l < 8 :: CpuMask.Members(llcCpuMask[l]) == tp.Members(l)
    {
      CpuMask.Empty();
      for cpu := 0 to |tp.llcOf|
        invariant forall l | 0 <= l < 8 :: CpuMask.Members(llcCpuMask[l]) == MembersBelow(tp, l, cpu)
      {
        var llc, bit := tp.llcOf[cpu], cpu as CpuMask.Index;
        CpuMask.AsIndex(cpu);
        CpuMask.SetBit(llcCpuMask[llc], bit);
        llcCpuMask[llc] := llcCpuMask[llc] | (1 << bit);
        assert forall l | 0 <= l < 8 :: MembersBelow(tp, l, cpu + 1)
                                        == MembersBelow(tp, l, cpu) + (if l == llc then {cpu as nat} else {});
      }
      assert forall l | 0 <= l < 8 :: MembersBelow(tp, l, |tp.llcOf|) == tp.Members(l);
    }

    // ---- the kernel's own moves ----

    method AppendLocal(cpu: nat, tid: nat)
      requires cpu < |local|
      modifies this`local
      ensures local == old(local)[cpu := old(local)[cpu] + [tid]]
    {
      local := local[cpu := local[cpu] + [tid]];
    }

    method DropQueued(l: nat, k: nat)
      requires l < |queue| && k < |queue[l]|
      modifies this`queue
      ensures queue == old(queue)[l := Remove(old(queue)[l], k)]
    {
      queue := queue[l := Remove(queue[l], k)];
    }

    method DropLocal(cpu: nat, k: nat)
      requires cpu < |local| && k < |local[cpu]|
      modifies this`local
      ensures local == old(local)[cpu := old(local)[cpu][..k] + old(local)[cpu][k + 1..]]
    {
      local := local[cpu := local[cpu][..k] + local[cpu][k + 1..]];
    }

    // ---- select_cpu ----

    /** imperator_select_cpu: an IRQ-context wakeup is marked; if the kernel found an idle CPU the task goes
        straight to its local queue, the mark is consumed, and an IRQ wakeup gets T0 and T0's slice. */
    method SelectCpu(ghost s: Sys, p: nat, tctx: TaskCtx?, irqContext: bool, idle: Option<nat>)
      returns (tier: Tier, slice: nat)
      requires Valid() && Shows(s) && Looked(s, p, tctx) && Placed(s, p) == 0
      requires idle.Some? ==> tp.Cpu(idle.value)
      modifies this`local, tctx
      ensures Valid() && Shows(Selected(s, p, irqContext, idle)) && Looked(Selected(s, p, irqContext, idle), p, tctx)
      ensures idle.Some? ==>
                if p !in s.ctx then tier == 1 && slice == cfg.quantum
                else if irqContext || s.ctx[p].irqWake then tier == 0 && slice == cfg.Slice(0)
                else tier == s.ctx[p].tier && slice == s.ctx[p].nextSlice
    {
      if irqContext && tctx != null {
        tctx.MarkIrqWake();
      }
      tier, slice := 1, cfg.quantum;
      if idle.Some? {
        if tctx != null {
          tier, slice := tctx.ConsumeIrqWake(cfg);
        }
        local := local[idle.value := local[idle.value] + [p]];
      }
    }

    // ---- running and stopping ----

    method SetTierBit(tier: Tier, cpu: nat, ghost tierCpus: seq<set<nat>>)
      requires cpu < 64 && ShowsMasks(tierCpus)
      modifies tierCpuMask
      ensures ShowsMasks(tierCpus[tier := tierCpus[tier] + {cpu}])
    {
      var bit := cpu as CpuMask.Index;
      CpuMask.AsIndex(cpu);
      CpuMask.SetBit(tierCpuMask[tier], bit);
      tierCpuMask[tier] := tierCpuMask[tier] | (1 << bit);
    }

    method ClearTierBit(tier: Tier, cpu: nat, ghost tierCpus: seq<set<nat>>)
      requires cpu < 64 && ShowsMasks(tierCpus)
      modifies tierCpuMask
      ensures ShowsMasks(tierCpus[tier := tierCpus[tier] - {cpu}])
    {
      var bit := cpu as CpuMask.Index;
      CpuMask.AsIndex(cpu);
      CpuMask.ClearBit(tierCpuMask[tier], bit);
      tierCpuMask[tier] := tierCpuMask[tier] & !(1 << bit);
    }

    /** The kernel takes the head of the local queue and puts it on the CPU. */
    method SwitchIn(cpu: nat)
      requires cpu < |local| == |running| && local[cpu] != []
      modifies this`local, this`running
      ensures local == old(local)[cpu := old(local)[cpu][1..]]
      ensures running == old(running)[cpu := Some(old(local)[cpu][0])]
    {
      running := running[cpu := Some(local[cpu][0])];
      local := local[cpu := local[cpu][1..]];
    }

    /** imperator_running: stamp the task, publish its tier, set the CPU's bit. */
    method Running(ghost s: Sys, p: nat, tctx: TaskCtx?, cpu: nat, now: nat)
      requires Valid() && Shows(s) && Enabled(tp, s, Act.Run(cpu, now))
      requires p == local[cpu][0] && Looked(s, p, tctx)
      modifies this`local, this`running, tctx, mboxFlags, tierCpuMask
      ensures Valid() && Shows(DoRun(tp, s, Act.Run(cpu, now)))
      ensures Looked(DoRun(tp, s, Act.Run(cpu, now)), p, tctx)
    {
      SwitchIn(cpu);
      RunFields(tp, s, cpu, now, p);
      if tctx == null {
        return;
      }
      tctx.Start(now);
      Publish(cpu, tctx.GetTier(), s.mailbox);
      SetTierBit(tctx.GetTier(), cpu, s.tierCpus);
    }

    /** The eager mailbox update of imperator_running. */
    method Publish(cpu: nat, tier: Tier, ghost boxes: seq<Mailbox>)
      requires cpu < |boxes| && ShowsBoxes(boxes) && Separate()
      modifies mboxFlags
      ensures ShowsBoxes(boxes[cpu := boxes[cpu].(tier := Some(tier))])
    {
      var cur := mboxFlags[cpu];
      var flags := VALID | (cur & !3) | BoxBits(tier);
      PublishesTier(cur, tier);
      if cur != flags {
        mboxFlags[cpu] := flags;
      }
    }

    /** imperator_stopping: the bit of the tier that was running is cleared before the task is reclassified. */
    method Stopping(ghost s: Sys, p: nat, tctx: TaskCtx?, cpu: nat, now: nat, runnable: bool)
      requires Valid() && Shows(s) && Enabled(tp, s, Act.Stop(cpu, now, runnable))
      requires running[cpu] == Some(p) && Looked(s, p, tctx)
      modifies this`running, tctx, tierCpuMask
      ensures Valid() && Shows(DoStop(cfg, tp, s, Act.Stop(cpu, now, runnable)))
      ensures Looked(DoStop(cfg, tp, s, Act.Stop(cpu, now, runnable)), p, tctx)
    {
      running := running[cpu := None];
      StopFields(cfg, tp, s, cpu, now, runnable, p);
      if tctx != null && tctx.lastRunAt != 0 {
        ClearTierBit(tctx.GetTier(), cpu, s.tierCpus);
        tctx.Stop(cfg, now, runnable);
      }
    }

    // ---- enqueue ----

    /** scx_bpf_dsq_insert_vtime with tier_deadline's key, then llc_mark_nonempty. */
    method PutInLlc(p: nat, taskCpu: nat, cpus: set<nat>, now: nat, tier: Tier, advance: nat, slice: nat,
                    ghost flags: seq<bool>)
      requires Valid() && ShowsFlags(flags) && tp.Cpu(taskCpu)
      modifies this`queue, nonempty
      ensures var l := tp.llcOf[taskCpu];
              queue == old(queue)[l := Insert(old(queue)[l], Entry(p, TierDeadline(cfg, now, tier, advance), cpus,
                                                                   taskCpu, slice))]
              && ShowsFlags(flags[l := true])
    {
      var l := tp.llcOf[taskCpu];
      queue := queue[l := Insert(queue[l], Entry(p, TierDeadline(cfg, now, tier, advance), cpus, taskCpu, slice))];
      if !nonempty[l] {
        nonempty[l] := true;
      }
    }

    /** Waker-tier inheritance from the mailbox of the enqueuing CPU. */
    method InheritTier(enqCpu: nat, own: Tier, ghost boxes: seq<Mailbox>) returns (tier: Tier)
      requires enqCpu < |boxes| && ShowsBoxes(boxes)
      ensures tier == Inherit(own, boxes[enqCpu])
    {
      tier := own;
      if own > 0 {
        var flags := mboxFlags[enqCpu];
        if flags & VALID != 0 {
          var waker := BoxTwo(flags & 3);
          if waker < tier {
            var promoted: Tier := if waker < 1 then 1 else waker;
            if promoted < tier {
              tier := promoted;
            }
          }
        }
      }
    }

    /** The preemption kick: T3 first, then T2. */
    method Kick(ghost s: Sys, l: nat, tier: Tier) returns (kick: Option<nat>)
      requires Valid() && Shape(tp, s) && ShowsMasks(s.tierCpus) && l < tp.nrLlcs
      ensures kick == KickTarget(tp, s, l, tier)
    {
      kick := None;
      if tier <= 1 {
        kick := Scan(tierCpuMask[3], llcCpuMask[l]);
        if kick == None {
          kick := Scan(tierCpuMask[2], llcCpuMask[l]);
        }
      }
    }

    /** A wakeup of a task with a context: recovery, IRQ override, inheritance, advances, insertion, kick. */
    method EnqueueWakeup(ghost s: Sys, p: nat, tctx: TaskCtx, now: nat, enqCpu: nat, taskCpu: nat, cpus: set<nat>)
      returns (kick: Option<nat>)
      requires Valid() && Shows(s) && Looked(s, p, tctx) && tp.Cpu(enqCpu) && tp.Cpu(taskCpu)
      modifies this`queue, nonempty, tctx
      ensures tctx.Valid() && tctx.Abs() == QueuedWake(s.ctx[p], now)
      ensures ShowsFlags(s.nonempty[tp.llcOf[taskCpu] := true])
      ensures var l, t := tp.llcOf[taskCpu], s.ctx[p];
              var tier := WakeTier(t, s.mailbox[enqCpu]);
              && queue == old(queue)[l := Insert(old(queue)[l],
                                                 Entry(p, TierDeadline(cfg, now, tier, Advance(cfg, t)), cpus, taskCpu,
                                                       t.nextSlice))]
              && kick == KickTarget(tp, s, l, tier)
    {
      var own := tctx.Wake(now);
      var tier := InheritTier(enqCpu, own, s.mailbox);
      var advance := 0;
      if tctx.IsNew() {
        advance := advance + cfg.bonus;
      }
      if tctx.HoldsLock() {
        advance := advance + cfg.bonus;
      }
      PutInLlc(p, taskCpu, cpus, now, tier, advance, tctx.nextSlice, s.nonempty);
      kick := Kick(s, tp.llcOf[taskCpu], tier);
    }

    /** imperator_enqueue, on its four paths. */
    method Enqueue(ghost s: Sys, p: nat, tctx: TaskCtx?, now: nat, wakeup: bool, kthread: bool, enqCpu: nat,
                   taskCpu: nat, cpus: set<nat>) returns (kick: Option<nat>)
      requires Valid() && Shows(s) && Looked(s, p, tctx)
      requires Enabled(tp, s, Act.Enqueue(p, now, wakeup, kthread, enqCpu, taskCpu, cpus))
      modifies this`queue, nonempty, tctx
      ensures Valid() && Shows(DoEnqueue(cfg, tp, s, Act.Enqueue(p, now, wakeup, kthread, enqCpu, taskCpu, cpus)))
      ensures Looked(DoEnqueue(cfg, tp, s, Act.Enqueue(p, now, wakeup, kthread, enqCpu, taskCpu, cpus)), p, tctx)
      ensures var f := File(cfg, s, Act.Enqueue(p, now, wakeup, kthread, enqCpu, taskCpu, cpus));
              kick == if f.full then KickTarget(tp, s, tp.llcOf[taskCpu], f.tier) else None
    {
      EnqueueFields(cfg, tp, s, Act.Enqueue(p, now, wakeup, kthread, enqCpu, taskCpu, cpus));
      kick := None;
      if kthread && tctx == null {
        PutInLlc(p, taskCpu, cpus, now, 1, 0, cfg.quantum, s.nonempty);
      } else if !wakeup {
        var yieldTier: Tier := if tctx != null then tctx.GetTier() else 3;
        PutInLlc(p, taskCpu, cpus, now, yieldTier, 0, cfg.quantum, s.nonempty);
      } else if tctx == null {
        PutInLlc(p, taskCpu, cpus, now, 2, 0, cfg.quantum, s.nonempty);
      } else {
        kick := EnqueueWakeup(s, p, tctx, now, enqCpu, taskCpu, cpus);
      }
    }

    // ---- tick ----

    /** The mailbox update of imperator_tick. */
    method PublishTick(cpu: nat, tier: Tier, ghost boxes: seq<Mailbox>)
      requires cpu < |boxes| && ShowsBoxes(boxes) && Separate()
      modifies mboxFlags
      ensures ShowsBoxes(boxes[cpu := boxes[cpu].(tier := Some(tier))])
    {
      var flags := VALID | BoxBits(tier);
      PublishesTier(flags, tier);
      if mboxFlags[cpu] != flags {
        mboxFlags[cpu] := flags;
      }
    }

    method SetTicks(cpu: nat, ticks: u8, ghost boxes: seq<Mailbox>)
      requires cpu < |boxes| && ShowsBoxes(boxes) && Separate()
      modifies mboxTicks
      ensures ShowsBoxes(boxes[cpu := boxes[cpu].(ticks := ticks)])
    {
      mboxTicks[cpu] := ticks;
    }

    /** Past the starvation threshold with someone waiting: a lock holder is spared four times in a row. */
    method Starve(tctx: TaskCtx) returns (verdict: Verdict)
      requires tctx.Valid()
      modifies tctx`lockSkipCount
      ensures tctx.Valid()
      ensures var t := old(tctx.Abs());
              if t.lockHolder && t.lockSkip < 4 then
                verdict == NoKick && tctx.Abs() == t.(lockSkip := t.lockSkip + 1)
              else
                verdict == StarvationKick && tctx.Abs() == if t.lockHolder then t.(lockSkip := 0) else t
    {
      if tctx.HoldsLock() {
        if tctx.lockSkipCount < 4 {
          tctx.lockSkipCount := tctx.lockSkipCount + 1;
          return NoKick;
        }
        tctx.lockSkipCount := 0;
      }
      return StarvationKick;
    }

    /** The second phase of imperator_tick: the starvation check, under its graduated backoff. */
    method StarvationPhase(ghost s: Sys, tctx: TaskCtx, cpu: nat, runtime: u32)
      returns (verdict: Verdict, ghost ticks: u8)
      requires Valid() && Shows(s) && tctx.Valid() && tp.Cpu(cpu)
      modifies tctx`lockSkipCount, mboxTicks
      ensures Valid() && tctx.Valid() && ShowsBoxes(s.mailbox[cpu := s.mailbox[cpu].(ticks := ticks)])
      ensures Ticked(verdict, tctx.Abs(), ticks, true)
              == PhaseTwo(cfg, old(tctx.Abs()), s.mailbox[cpu].ticks, runtime, NrRunning(s, cpu))
    {
      verdict := NoKick;
      var tc := mboxTicks[cpu];
      var next: u8 := if tc < 255 then tc + 1 else tc;
      if tc % SkipPeriod(tc) == 0 {
        if 1 + |local[cpu]| + CountQueues(queue, cpu) > 1 {
          next := tc - tc / 4;
          if runtime > cfg.Budget(tctx.GetTier()) {
            verdict := Starve(tctx);
          }
        }
      }
      SetTicks(cpu, next, s.mailbox);
      ticks := next;
    }

    /** imperator_tick, less frequency steering. */
    method Tick(ghost s: Sys, p: nat, tctx: TaskCtx?, cpu: nat, now: nat) returns (verdict: Verdict)
      requires Valid() && Shows(s) && Enabled(tp, s, Act.Tick(cpu, now))
      requires running[cpu] == Some(p) && Looked(s, p, tctx)
      modifies tctx, mboxFlags, mboxTicks
      ensures Valid() && Shows(DoTick(cfg, tp, s, Act.Tick(cpu, now)))
      ensures Looked(DoTick(cfg, tp, s, Act.Tick(cpu, now)), p, tctx)
      ensures verdict == TickVerdict(cfg, tp, s, Act.Tick(cpu, now))
    {
      TickFields(cfg, tp, s, cpu, now, p);
      verdict := NoKick;
      if tctx == null {
        return;
      }
      if tctx.lastRunAt == 0 {
        tctx.Stamp(now);
        return;
      }
      var runtime, tier := Elapsed(now, tctx.lastRunAt), tctx.GetTier();
      if runtime > tctx.nextSlice {
        if queue[tp.llcOf[cpu]] != [] || local[cpu] != [] {
          PublishTick(cpu, tier, s.mailbox);
          verdict := SliceKick;
          return;
        }
      }
      ghost var ticks;
      verdict, ticks := StarvationPhase(s, tctx, cpu, runtime);
      PublishTick(cpu, tier, s.mailbox[cpu := s.mailbox[cpu].(ticks := ticks)]);
    }

    // ---- dispatch ----

    /** scx_bpf_dsq_move_to_local: the first task of the queue whose affinity allows this CPU. */
    method MoveToLocal(l: nat, cpu: nat) returns (moved: bool)
      requires l < |queue| && cpu < |local|
      modifies this`queue, this`local
      ensures var q, k := old(queue)[l], FirstAllowed(old(queue)[l], cpu);
              && moved == (k < |q|)
              && queue == (if moved then old(queue)[l := Remove(q, k)] else old(queue))
              && local == if moved then old(local)[cpu := old(local)[cpu] + [q[k].tid]] else old(local)
    {
      var k := FirstAllowed(queue[l], cpu);
      moved := k < |queue[l]|;
      if moved {
        local := local[cpu := local[cpu] + [queue[l][k].tid]];
        queue := queue[l := Remove(queue[l], k)];
      }
    }

    /** One attempt: move a task, or clear the flag of a queue that is really empty. */
    method TryLlc(l: nat, cpu: nat, ghost flags: seq<bool>) returns (moved: bool, ghost flags': seq<bool>)
      requires Valid() && l < tp.nrLlcs && tp.Cpu(cpu) && ShowsFlags(flags)
      modifies this`queue, this`local, nonempty
      ensures Valid() && ShowsFlags(flags')
      ensures var q, k := old(queue)[l], FirstAllowed(old(queue)[l], cpu);
              && moved == (k < |q|)
              && queue == (if moved then old(queue)[l := Remove(q, k)] else old(queue))
              && local == (if moved then old(local)[cpu := old(local)[cpu] + [q[k].tid]] else old(local))
              && flags' == if !moved && q == [] then flags[l := false] else flags
    {
      moved := MoveToLocal(l, cpu);
      flags' := flags;
      if !moved && |queue[l]| == 0 {
        nonempty[l] := false;
        flags' := flags[l := false];
      }
    }

    /** The steal mask and the cheapest known victim, read off the flags before the local one was cleared. */
    method StealMask(my: nat, row: seq<nat>, ghost before: seq<bool>, ghost flags: seq<bool>)
      returns (steal: LlcMask.Word, cheapest: nat)
      requires tp.Valid() && nonempty.Length == tp.nrLlcs <= |row| && my < tp.nrLlcs && ShowsFlags(flags)
      requires |before| == |flags| && (flags == before || flags == before[my := false])
      ensures MarksBelow(steal, my, before, tp.nrLlcs)
      ensures cheapest == Stealing.Cheapest(my, before, row, tp.nrLlcs)
    {
      steal, cheapest := 0, tp.nrLlcs;
      var minCost := 0;
      LlcMask.Empty();
      for i := 0 to tp.nrLlcs
        invariant MarksBelow(steal, my, before, i)
        invariant cheapest == Stealing.Cheapest(my, before, row, i)
        invariant minCost == if cheapest == tp.nrLlcs then 0 else row[cheapest]
      {
        var bit := i as LlcMask.Index;
        LlcMask.AsIndex(i);
        MarkStep(steal, my, before, bit, i);
        if i != my && nonempty[i] {
          steal := steal | (1 << bit);
          var c := row[i];
          if c > 0 && (minCost == 0 || c < minCost) {
            minCost, cheapest := c, i;
          }
        }
      }
    }

    /** What a search that has come to its end leaves: the outcome f, and the moved task in the local queue. */
    ghost predicate Ended(f: Stealing.Found, cpu: nat, was: seq<seq<nat>>)
      requires cpu < |was|
      reads this`queue, this`local, nonempty
    {
      && queue == f.queue && ShowsFlags(f.flags)
      && local == if f.moved.Some? then was[cpu := was[cpu] + [f.moved.value.tid]] else was
    }

    /** The remaining victims in bit-scan order. The trip bound never ends the scan early. */
    method StealInOrder(mask: LlcMask.Word, cpu: nat, ghost order: seq<nat>, ghost flags0: seq<bool>)
      requires Valid() && tp.Cpu(cpu) && ShowsFlags(flags0) && Climbs(order, tp.nrLlcs) && Marks(mask, order)
      modifies this`queue, this`local, nonempty
      ensures Valid()
      ensures Ended(Stealing.TryInOrder(old(queue), flags0, order, cpu), cpu, old(local))
    {
      var steal := mask;
      ghost var f := Stealing.TryInOrder(queue, flags0, order, cpu);
      ghost var rest, flags := order, flags0;
      ClimbsIsShort(rest, tp.nrLlcs);
      var i := 0;
      while steal != 0 && i < tp.nrLlcs
        invariant Valid() && ShowsFlags(flags) && local == old(local)
        invariant Climbs(rest, tp.nrLlcs) && Marks(steal, rest) && i + |rest| <= tp.nrLlcs
        invariant Stealing.TryInOrder(queue, flags, rest, cpu) == f
        decreases tp.nrLlcs - i
      {
        NextVictim(steal, rest, tp.nrLlcs);
        var victim := LlcMask.Ctz(steal) as nat;
        steal := steal & (steal - 1);
        ghost var flags';
        var moved;
        moved, flags' := TryLlc(victim, cpu, flags);
        if moved {
          return;
        }
        flags, rest := flags', rest[1..];
        i := i + 1;
      }
      if steal == 0 {
        NoVictims(rest);
      }
    }

    /** imperator_dispatch. */
    method Dispatch(ghost s: Sys, cpu: nat, row: seq<nat>)
      requires Valid() && Shows(s) && Enabled(tp, s, Act.Dispatch(cpu, row))
      modifies this`queue, this`local, nonempty
      ensures Valid() && Shows(DoDispatch(tp, s, Act.Dispatch(cpu, row)))
    {
      var my := tp.llcOf[cpu];
      ghost var flags;
      var moved;
      moved, flags := TryLlc(my, cpu, s.nonempty);
      SearchSplits(s.queue, s.nonempty, my, row, cpu);
      DispatchFields(tp, s, cpu, row);
      if moved {
        return;
      }
      Steal(cpu, my, row, s.nonempty, flags);
    }

    /** The stealing half of imperator_dispatch: the cheapest known victim, then the rest. */
    method Steal(cpu: nat, my: nat, row: seq<nat>, ghost before: seq<bool>, ghost flags0: seq<bool>)
      requires Valid() && tp.Cpu(cpu) && my < tp.nrLlcs <= |row| && ShowsFlags(flags0)
      requires |before| == |flags0| && (flags0 == before || flags0 == before[my := false])
      modifies this`queue, this`local, nonempty
      ensures Valid() && Below(Stealing.StealOrder(my, before, row), tp.nrLlcs)
      ensures Ended(Stealing.TryInOrder(old(queue), flags0, Stealing.StealOrder(my, before, row), cpu), cpu,
                    old(local))
    {
      Stealing.StealOrderExact(my, before, row);
      if tp.nrLlcs <= 1 {
        NoRemote(my, before, row);
        return;
      }
      var steal, cheapest := StealMask(my, row, before, flags0);
      MarkRest(steal, my, before, cheapest);
      ghost var rest := Stealing.Ascending(my, before, cheapest, 0);
      if cheapest < tp.nrLlcs {
        steal := steal & !(1 << (cheapest as LlcMask.Index));
        StealFrom(cheapest, steal, cpu, rest, flags0);
      } else {
        assert Stealing.StealOrder(my, before, row) == rest;
        StealInOrder(steal, cpu, rest, flags0);
      }
    }

    method StealFrom(cheapest: nat, steal: LlcMask.Word, cpu: nat, ghost rest: seq<nat>, ghost flags0: seq<bool>)
      requires Valid() && tp.Cpu(cpu) && cheapest < tp.nrLlcs && ShowsFlags(flags0)
      requires Climbs(rest, tp.nrLlcs) && Marks(steal, rest)
      modifies this`queue, this`local, nonempty
      ensures Valid() && Below([cheapest] + rest, tp.nrLlcs)
      ensures Ended(Stealing.TryInOrder(old(queue), flags0, [cheapest] + rest, cpu), cpu, old(local))
    {
      ghost var flags;
      var moved;
      assert ([cheapest] + rest)[1..] == rest;
      moved, flags := TryLlc(cheapest, cpu, flags0);
      if !moved {
        StealInOrder(steal, cpu, rest, flags);
      }
    }
  }

  // ---- masks and orders ----

  /** The bits of the mask are the entries of the order. */
  ghost predicate Marks(m: LlcMask.Word, order: seq<nat>) {
    forall v: nat :: v in LlcMask.Members(m) <==> v in order
  }

  /** The bits of the mask are the candidates below n. */
  ghost predicate MarksBelow(m: LlcMask.Word, my: nat, flags: seq<bool>, n: nat) {
    CandidatesBelow(LlcMask.Members(m), my, flags, n)
  }

  ghost predicate CandidatesBelow(victims: set<nat>, my: nat, flags: seq<bool>, n: nat) {
    forall v: nat :: v in victims <==> v < n && Stealing.Candidate(my, flags, v)
  }

  lemma MarkStep(m: LlcMask.Word, my: nat, flags: seq<bool>, x: LlcMask.Index, n: nat)
    requires x as nat == n && MarksBelow(m, my, flags, n)
    ensures Stealing.Candidate(my, flags, n) ==> MarksBelow(m | (1 << x), my, flags, n + 1)
    ensures !Stealing.Candidate(my, flags, n) ==> MarksBelow(m, my, flags, n + 1)
  {
    LlcMask.SetBit(m, x);
    CandidateStep(LlcMask.Members(m), my, flags, n);
  }

  lemma CandidateStep(victims: set<nat>, my: nat, flags: seq<bool>, n: nat)
    requires CandidatesBelow(victims, my, flags, n)
    ensures CandidatesBelow(victims + (if Stealing.Candidate(my, flags, n) then {n} else {}), my, flags, n + 1)
    ensures !Stealing.Candidate(my, flags, n) ==> CandidatesBelow(victims, my, flags, n + 1)
  {
  }

  /** Without the cheapest victim, the mask holds the order the scan follows. */
  lemma MarkRest(m: LlcMask.Word, my: nat, flags: seq<bool>, skip: nat)
    requires |flags| <= 32 && MarksBelow(m, my, flags, |flags|) && skip <= |flags|
    ensures skip == |flags| ==> Marks(m, Stealing.Ascending(my, flags, skip, 0))
    ensures skip < |flags| ==> Marks(m & !(1 << (skip as LlcMask.Index)), Stealing.Ascending(my, flags, skip, 0))
    ensures Climbs(Stealing.Ascending(my, flags, skip, 0), |flags|)
  {
    RestClimbs(my, flags, skip);
    if skip < |flags| {
      LlcMask.AsIndex(skip);
      MarkWithout(m, my, flags, skip as LlcMask.Index, skip);
    }
  }

  lemma RestClimbs(my: nat, flags: seq<bool>, skip: nat)
    ensures Climbs(Stealing.Ascending(my, flags, skip, 0), |flags|)
  {
    var order := Stealing.Ascending(my, flags, skip, 0);
    forall k | 0 <= k < |order| ensures order[k] < |flags| {
      assert order[k] in order;
    }
  }

  lemma MarkWithout(m: LlcMask.Word, my: nat, flags: seq<bool>, x: LlcMask.Index, skip: nat)
    requires x as nat == skip < |flags| && MarksBelow(m, my, flags, |flags|)
    ensures Marks(m & !(1 << x), Stealing.Ascending(my, flags, skip, 0))
  {
    LlcMask.ClearBit(m, x);
    WithoutSkip(LlcMask.Members(m), my, flags, skip);
  }

  lemma WithoutSkip(victims: set<nat>, my: nat, flags: seq<bool>, skip: nat)
    requires CandidatesBelow(victims, my, flags, |flags|)
    ensures forall v: nat :: v in victims - {skip} <==> v in Stealing.Ascending(my, flags, skip, 0)
  {
  }

  predicate Below(order: seq<nat>, n: nat) {
    forall k | 0 <= k < |order| :: order[k] < n
  }

  predicate Climbs(order: seq<nat>, n: nat) {
    Below(order, n) && forall j, k | 0 <= j < k < |order| :: order[j] < order[k]
  }

  lemma ClimbsIsShort(order: seq<nat>, n: nat)
    requires Climbs(order, n)
    ensures |order| <= n
  {
    if order != [] { ClimbsIsShort(order[..|order| - 1], order[|order| - 1]); }
  }

  /** The bit scan picks the head of an ascending order, and clearing the lowest bit leaves its tail. */
  lemma NextVictim(m: LlcMask.Word, order: seq<nat>, n: nat)
    requires m != 0 && Marks(m, order) && Climbs(order, n)
    ensures order != [] && LlcMask.Ctz(m) as nat == order[0]
    ensures Marks(m & (m - 1), order[1..]) && Climbs(order[1..], n)
  {
    LlcMask.CtzIsLeast(m);
    LlcMask.DropLowest(m);
    var v := LlcMask.Ctz(m) as nat;
    assert v in order;
    assert order[0] in order;
    forall u: nat ensures u in order[1..] <==> u in order && u != order[0] {
      if u in order && u != order[0] {
        var k :| 0 <= k < |order| && order[k] == u;
        assert order[1..][k - 1] == u;
      }
    }
  }

  lemma NoVictims(order: seq<nat>)
    requires Marks(0, order)
    ensures order == []
  {
    if order != [] {
      assert order[0] in order;
      LlcMask.Empty();
    }
  }

  lemma NoRemote(my: nat, flags: seq<bool>, row: seq<nat>)
    requires |flags| == 1 <= |row| && my == 0
    ensures Stealing.StealOrder(my, flags, row) == []
  {
    var order := Stealing.StealOrder(my, flags, row);
    if order != [] {
      assert order[0] in order;
      Stealing.StealOrderExact(my, flags, row);
    }
  }

  /** The search order is the local queue and then the steal order. */
  lemma SearchSplits(queue: seq<seq<Entry>>, flags: seq<bool>, my: nat, row: seq<nat>, cpu: nat)
    requires |queue| == |flags| <= |row| && my < |queue|
    ensures var k := FirstAllowed(queue[my], cpu);
            var order := Stealing.StealOrder(my, flags, row);
            Below(order, |queue|)
            && Stealing.Dispatch(queue, flags, my, row, cpu)
               == if k < |queue[my]| then
                    Stealing.Found(queue[my := Remove(queue[my], k)], flags, Some(queue[my][k]))
                  else
                    Stealing.TryInOrder(queue, if queue[my] == [] then flags[my := false] else flags, order, cpu)
  {
    Stealing.StealOrderExact(my, flags, row);
    assert Stealing.SearchOrder(flags, my, row)[1..] == Stealing.StealOrder(my, flags, row);
  }

  lemma DispatchFields(tp: Topology, s: Sys, cpu: nat, row: seq<nat>)
    requires tp.Valid() && Shape(tp, s) && Enabled(tp, s, Act.Dispatch(cpu, row))
    ensures var s' := DoDispatch(tp, s, Act.Dispatch(cpu, row));
            var f := Stealing.Dispatch(s.queue, s.nonempty, tp.llcOf[cpu], row, cpu);
            && Shape(tp, s') && s'.queue == f.queue && s'.nonempty == f.flags && s'.running == s.running
            && s'.mailbox == s.mailbox && s'.tierCpus == s.tierCpus && s'.ctx == s.ctx
            && s'.local == if f.moved.Some? then s.local[cpu := s.local[cpu] + [f.moved.value.tid]] else s.local
  {
  }

  lemma TickFields(cfg: Config, tp: Topology, s: Sys, cpu: nat, now: nat, p: nat)
    requires cfg.Valid() && tp.Valid() && Shape(tp, s) && Enabled(tp, s, Act.Tick(cpu, now))
    requires s.running[cpu] == Some(p)
    ensures var s' := DoTick(cfg, tp, s, Act.Tick(cpu, now));
            && Shape(tp, s') && s'.queue == s.queue && s'.nonempty == s.nonempty && s'.local == s.local
            && s'.running == s.running && s'.tierCpus == s.tierCpus
            && if p !in s.ctx then s' == s && TickVerdict(cfg, tp, s, Act.Tick(cpu, now)) == NoKick
               else
                 var k, box := TickTask(cfg, tp, s, cpu, s.ctx[p], now), s.mailbox[cpu];
                 && s'.ctx == s.ctx[p := k.task] && TickVerdict(cfg, tp, s, Act.Tick(cpu, now)) == k.verdict
                 && s'.mailbox
                    == s.mailbox[cpu := Mailbox(if k.published then Some(k.task.tier) else box.tier, k.ticks)]
  {
  }

  /** BIT_SCAN_FORWARD_U64 over the AND of two words: the least CPU in both, if any. */
  method Scan(m: CpuMask.Word, n: CpuMask.Word) returns (v: Option<nat>)
    ensures var both := CpuMask.Members(m) * CpuMask.Members(n);
            v == if both == {} then None else Some(Least(both))
  {
    ScanIsLeast(m, n);
    v := if m & n != 0 then Some(CpuMask.Ctz(m & n) as nat) else None;
  }

  lemma ScanIsLeast(m: CpuMask.Word, n: CpuMask.Word)
    ensures var v := CpuMask.Members(m) * CpuMask.Members(n);
            (m & n != 0 <==> v != {}) && (v != {} ==> Least(v) == CpuMask.Ctz(m & n) as nat)
  {
    CpuMask.Intersect(m, n);
    if m & n != 0 {
      CpuMask.CtzIsLeast(m & n);
    } else {
      CpuMask.Empty();
    }
  }

  // ---- the fields of each abstract step ----

  /** select_cpu as one step. */
  function Selected(s: Sys, p: nat, irqContext: bool, idle: Option<nat>): Sys
    requires idle.Some? ==> idle.value < |s.local|
  {
    var ctx := if irqContext && p in s.ctx then s.ctx[p := s.ctx[p].(irqWake := true)] else s.ctx;
    if idle.None? then s.(ctx := ctx)
    else
      s.(ctx := if p in ctx then ctx[p := DirectWake(ctx[p])] else ctx,
         local := s.local[idle.value := s.local[idle.value] + [p]])
  }

  /** It is the machine's IRQ step, when there is one, and then its idle step, when there is one. */
  lemma SelectedIsTwoSteps(cfg: Config, tp: Topology, s: Sys, p: nat, irqContext: bool, idle: Option<nat>)
    requires cfg.Valid() && tp.Valid() && Shape(tp, s) && Placed(s, p) == 0
    requires idle.Some? ==> tp.Cpu(idle.value)
    ensures var s1 := if irqContext then Next(cfg, tp, s, Act.SelectIrq(p)) else s;
            && Shape(tp, s1) && Placed(s1, p) == 0
            && Selected(s, p, irqContext, idle)
               == if idle.Some? then Next(cfg, tp, s1, Act.SelectIdle(p, idle.value)) else s1
  {
  }

  lemma EnqueueFields(cfg: Config, tp: Topology, s: Sys, a: Act)
    requires cfg.Valid() && tp.Valid() && Shape(tp, s) && Enabled(tp, s, a) && a.Enqueue?
    ensures var s', l := DoEnqueue(cfg, tp, s, a), tp.llcOf[a.taskCpu];
            && Shape(tp, s') && s'.queue == s.queue[l := Insert(s.queue[l], Filed(cfg, s, a))]
            && s'.nonempty == s.nonempty[l := true] && s'.local == s.local && s'.running == s.running
            && s'.mailbox == s.mailbox && s'.tierCpus == s.tierCpus
            && s'.ctx == if File(cfg, s, a).full then s.ctx[a.tid := QueuedWake(s.ctx[a.tid], a.now)] else s.ctx
  {
  }

  lemma RunFields(tp: Topology, s: Sys, cpu: nat, now: nat, p: nat)
    requires tp.Valid() && Shape(tp, s) && Enabled(tp, s, Act.Run(cpu, now)) && p == s.local[cpu][0]
    ensures var s' := DoRun(tp, s, Act.Run(cpu, now));
            && Shape(tp, s') && s'.queue == s.queue && s'.nonempty == s.nonempty
            && s'.local == s.local[cpu := s.local[cpu][1..]] && s'.running == s.running[cpu := Some(p)]
            && if p !in s.ctx then s'.ctx == s.ctx && s'.mailbox == s.mailbox && s'.tierCpus == s.tierCpus
               else
                 var t := s.ctx[p];
                 && s'.ctx == s.ctx[p := TaskModel.Running(t, now)]
                 && s'.mailbox == s.mailbox[cpu := s.mailbox[cpu].(tier := Some(t.tier))]
                 && s'.tierCpus == s.tierCpus[t.tier := s.tierCpus[t.tier] + {cpu}]
  {
  }

  lemma StopFields(cfg: Config, tp: Topology, s: Sys, cpu: nat, now: nat, runnable: bool, p: nat)
    requires cfg.Valid() && tp.Valid() && Shape(tp, s) && Enabled(tp, s, Act.Stop(cpu, now, runnable))
    requires s.running[cpu] == Some(p)
    ensures var s' := DoStop(cfg, tp, s, Act.Stop(cpu, now, runnable));
            && Shape(tp, s') && s'.queue == s.queue && s'.nonempty == s.nonempty && s'.local == s.local
            && s'.mailbox == s.mailbox && s'.running == s.running[cpu := None]
            && if p !in s.ctx || s.ctx[p].lastRunAt == 0 then s'.ctx == s.ctx && s'.tierCpus == s.tierCpus
               else
                 var t := s.ctx[p];
                 && s'.ctx == s.ctx[p := TaskModel.Stopping(cfg, t, now, runnable)]
                 && s'.tierCpus == s.tierCpus[t.tier := s.tierCpus[t.tier] - {cpu}]
  {
  }

  /** The CPUs of an LLC below n. */
  function MembersBelow(tp: Topology, l: nat, n: nat): set<nat>
    requires n <= |tp.llcOf|
  {
    set c: nat | c < n && tp.llcOf[c] == l
  }
}
