/** The in-place scheduler over whole runs: with task storage beside it, any run of kernel acts leaves its words,
    queues and task contexts showing exactly the state the abstract machine reaches. */
module WholeRun {
  import opened TierConfig
  import opened TaskModel
  import opened Machine
  import opened MachineRuns
  import opened FlowContext
  import opened Callbacks
  import CpuMask
  import Filing
  import Starvation

  /** The step changes no context but p's. */
  ghost predicate OnlyTouches(s: Sys, s': Sys, p: nat) {
    s.ctx.Keys == s'.ctx.Keys && forall q | q in s.ctx && q != p :: s'.ctx[q] == s.ctx[q]
  }

  lemma RunTouches(tp: Topology, s: Sys, cpu: nat, now: nat, p: nat)
    requires tp.Valid() && Shape(tp, s) && Enabled(tp, s, Act.Run(cpu, now)) && p == s.local[cpu][0]
    ensures OnlyTouches(s, DoRun(tp, s, Act.Run(cpu, now)), p)
  {
  }

  lemma StopTouches(cfg: Config, tp: Topology, s: Sys, a: Act)
    requires cfg.Valid() && tp.Valid() && Shape(tp, s) && Enabled(tp, s, a) && a.Stop?
    ensures OnlyTouches(s, DoStop(cfg, tp, s, a), s.running[a.cpu].value)
  {
  }

  lemma TickTouches(cfg: Config, tp: Topology, s: Sys, a: Act)
    requires cfg.Valid() && tp.Valid() && Shape(tp, s) && Enabled(tp, s, a) && a.Tick?
    ensures OnlyTouches(s, DoTick(cfg, tp, s, a), s.running[a.cpu].value)
  {
  }

  lemma EnqueueTouches(cfg: Config, tp: Topology, s: Sys, a: Act)
    requires cfg.Valid() && tp.Valid() && Shape(tp, s) && Enabled(tp, s, a) && a.Enqueue?
    ensures OnlyTouches(s, DoEnqueue(cfg, tp, s, a), a.tid)
  {
  }

  lemma SelectTouches(s: Sys, p: nat, irqContext: bool, idle: Option<nat>)
    requires idle.Some? ==> idle.value < |s.local|
    ensures OnlyTouches(s, Selected(s, p, irqContext, idle), p)
  {
  }

  /** What a callback tells the rest of the system: an enqueue the CPU it kicks, if any; a tick its verdict. */
  datatype Signal = Silent | Kicked(victim: Option<nat>) | Checked(verdict: Verdict)

  ghost function SignalOf(cfg: Config, tp: Topology, s: Sys, a: Act): Signal
    requires cfg.Valid() && tp.Valid() && Shape(tp, s) && Enabled(tp, s, a)
  {
    match a
    case Enqueue(_, _, _, _, _, taskCpu, _) =>
      var f := File(cfg, s, a);
      Kicked(if f.full then KickTarget(tp, s, tp.llcOf[taskCpu], f.tier) else None)
    case Tick(_, _) => Checked(TickVerdict(cfg, tp, s, a))
    case _ => Silent
  }

  class System {
    const sched: Scheduler
    /** BPF task storage. */
    var storage: map<nat, TaskCtx>

    /** Task contexts are their own objects. */
    ghost predicate Apart()
      reads this
    {
      && (forall p | p in storage :: (storage[p] as object) !in sched.Footprint())
      && (forall p, q | p in storage && q in storage && p != q :: storage[p] != storage[q])
    }

    /** Every task context stands for its record. */
    ghost predicate Holds(ctx: map<nat, Task>)
      reads this, storage.Values
    {
      && storage.Keys == ctx.Keys
      && (forall p | p in storage :: storage[p].Valid() && storage[p].Abs() == ctx[p])
    }

    /** The words, the queues and all task contexts are the state s. */
    ghost predicate Shows(s: Sys)
      reads this, sched, sched.tierCpuMask, sched.llcCpuMask, sched.nonempty, sched.mboxFlags, sched.mboxTicks
      reads storage.Values
    {
      sched.Valid() && Apart() && sched.Shows(s) && Holds(s.ctx)
    }

    /** Boot: zeroed BSS, init, no task contexts. */
    constructor (cfg: Config, tp: Topology)
      requires cfg.Valid() && tp.Valid()
      ensures sched.cfg == cfg && sched.tp == tp && Shows(Boot(tp))
    {
      sched := new Scheduler(cfg, tp);
      storage := map[];
    }

    /** bpf_task_storage_get. */
    function Lookup(p: nat): (t: TaskCtx?)
      reads this
      ensures p in storage ==> t == storage[p]
      ensures p !in storage ==> t == null
    {
      if p in storage then storage[p] else null
    }

    /** The contexts of the other tasks. */
    ghost function Others(p: nat): set<object>
      reads this
    {
      set q | q in storage && q != p :: storage[q]
    }

    ghost predicate OthersStand(ctx: map<nat, Task>, p: nat)
      reads this, Others(p)
    {
      storage.Keys == ctx.Keys
      && forall q | q in storage && q != p :: storage[q].Valid() && storage[q].Abs() == ctx[q]
    }

    /** A callback about task p that leaves p's context standing for its record in s', where the step changes no
        other, and touches no other context, leaves every context standing for its record. */
    lemma OthersHold(s: Sys, s': Sys, p: nat)
      requires OthersStand(s.ctx, p) && OnlyTouches(s, s', p) && sched.Looked(s', p, Lookup(p))
      ensures Holds(s'.ctx)
    {
    }

    lemma OthersBefore(s: Sys, p: nat)
      requires Shows(s)
      ensures OthersStand(s.ctx, p) && sched.Looked(s, p, Lookup(p))
    {
    }

    /** The callback about p has been made: the scheduler shows s', p's context stands for its record there, and
        the other contexts for theirs in s. */
    ghost predicate Made(s: Sys, s': Sys, p: nat)
      reads this, sched, sched.tierCpuMask, sched.llcCpuMask, sched.nonempty, sched.mboxFlags, sched.mboxTicks
      reads storage.Values
    {
      sched.Valid() && Apart() && sched.Shows(s') && sched.Looked(s', p, Lookup(p)) && OthersStand(s.ctx, p)
    }

    lemma MadeShows(s: Sys, s': Sys, p: nat)
      requires Made(s, s', p) && OnlyTouches(s, s', p)
      ensures Shows(s')
    {
      OthersHold(s, s', p);
    }

    // ---- the callbacks, with task storage ----

    method Running(ghost s: Sys, p: nat, cpu: nat, now: nat)
      requires Shows(s) && Enabled(sched.tp, s, Act.Run(cpu, now)) && p == sched.local[cpu][0]
      modifies sched, sched.tierCpuMask, sched.mboxFlags, Lookup(p)
      ensures Made(s, DoRun(sched.tp, s, Act.Run(cpu, now)), p)
    {
      OthersBefore(s, p);
      sched.Running(s, p, Lookup(p), cpu, now);
    }

    method Stopping(ghost s: Sys, p: nat, cpu: nat, now: nat, runnable: bool)
      requires Shows(s) && Enabled(sched.tp, s, Act.Stop(cpu, now, runnable)) && sched.running[cpu] == Some(p)
      modifies sched, sched.tierCpuMask, Lookup(p)
      ensures Made(s, DoStop(sched.cfg, sched.tp, s, Act.Stop(cpu, now, runnable)), p)
    {
      OthersBefore(s, p);
      sched.Stopping(s, p, Lookup(p), cpu, now, runnable);
    }

    method Tick(ghost s: Sys, p: nat, cpu: nat, now: nat) returns (verdict: Verdict)
      requires Shows(s) && Enabled(sched.tp, s, Act.Tick(cpu, now)) && sched.running[cpu] == Some(p)
      modifies sched.mboxFlags, sched.mboxTicks, Lookup(p)
      ensures Made(s, DoTick(sched.cfg, sched.tp, s, Act.Tick(cpu, now)), p)
      ensures verdict == TickVerdict(sched.cfg, sched.tp, s, Act.Tick(cpu, now))
    {
      OthersBefore(s, p);
      verdict := sched.Tick(s, p, Lookup(p), cpu, now);
    }

    method Enqueue(ghost s: Sys, p: nat, now: nat, wakeup: bool, kthread: bool, enqCpu: nat, taskCpu: nat,
                   cpus: set<nat>) returns (kick: Option<nat>)
      requires Shows(s) && Enabled(sched.tp, s, Act.Enqueue(p, now, wakeup, kthread, enqCpu, taskCpu, cpus))
      modifies sched, sched.nonempty, Lookup(p)
      ensures Made(s, DoEnqueue(sched.cfg, sched.tp, s, Act.Enqueue(p, now, wakeup, kthread, enqCpu, taskCpu, cpus)), p)
      ensures var f := File(sched.cfg, s, Act.Enqueue(p, now, wakeup, kthread, enqCpu, taskCpu, cpus));
              kick == if f.full then KickTarget(sched.tp, s, sched.tp.llcOf[taskCpu], f.tier) else None
    {
      OthersBefore(s, p);
      kick := sched.Enqueue(s, p, Lookup(p), now, wakeup, kthread, enqCpu, taskCpu, cpus);
    }

    method Dispatch(ghost s: Sys, cpu: nat, row: seq<nat>)
      requires Shows(s) && Enabled(sched.tp, s, Act.Dispatch(cpu, row))
      modifies sched, sched.nonempty
      ensures Shows(DoDispatch(sched.tp, s, Act.Dispatch(cpu, row)))
    {
      DispatchFields(sched.tp, s, cpu, row);
      sched.Dispatch(s, cpu, row);
    }

    method SelectCpu(ghost s: Sys, p: nat, irqContext: bool, idle: Option<nat>)
      requires Shows(s) && Placed(s, p) == 0 && (idle.Some? ==> sched.tp.Cpu(idle.value))
      modifies sched, Lookup(p)
      ensures Shows(Selected(s, p, irqContext, idle))
    {
      ghost var s' := Selected(s, p, irqContext, idle);
      SelectTouches(s, p, irqContext, idle);
      OthersBefore(s, p);
      var tier, slice := sched.SelectCpu(s, p, Lookup(p), irqContext, idle);
      OthersHold(s, s', p);
    }

    method Lock(ghost s: Sys, p: nat, held: bool)
      requires Shows(s)
      modifies Lookup(p)
      ensures Shows(if p in s.ctx then Touch(s, p, Step(sched.cfg, s.ctx[p], Event.Lock(held))) else s)
    {
      if p in storage {
        storage[p].SetLockHolder(sched.cfg, held);
      }
    }

    /** imperator_enable: a context is allocated the first time a task is seen. */
    method Enable(ghost s: Sys, p: nat, prio: nat)
      requires Shows(s) && p !in s.ctx
      modifies this`storage
      ensures Shows(Touch(s, p, Alloc(sched.cfg, prio)))
      ensures p in storage && storage == old(storage)[p := storage[p]] && fresh(storage[p])
    {
      var t := new TaskCtx(sched.cfg, prio);
      Admit(t, s, p);
    }

    method Admit(t: TaskCtx, ghost s: Sys, p: nat)
      requires Shows(s) && p !in s.ctx && t.Valid()
      requires (t as object) !in sched.Footprint() && forall q | q in storage :: storage[q] != t
      modifies this`storage
      ensures Shows(Touch(s, p, t.Abs())) && storage == old(storage)[p := t]
    {
      storage := storage[p := t];
      assert Holds(s.ctx[p := t.Abs()]);
    }

    method KernelMove(a: Act, ghost s: Sys)
      requires Shows(s) && Enabled(sched.tp, s, a) && (a.KernelInsert? || a.Dequeue? || a.DequeueLocal?)
      modifies sched
      ensures Shows(Next(sched.cfg, sched.tp, s, a))
    {
      match a
      case KernelInsert(tid, cpu) => sched.AppendLocal(cpu, tid);
      case Dequeue(l, k) => sched.DropQueued(l, k);
      case DequeueLocal(cpu, k) => sched.DropLocal(cpu, k);
    }

    // ---- any act, and any run ----

    ghost function Footprint(): set<object>
      reads this, sched
    {
      {this} + sched.Footprint() + set p | p in storage :: storage[p]
    }

    /** One act of the kernel. */
    method Do(a: Act, ghost s: Sys) returns (signal: Signal)
      requires Shows(s) && Enabled(sched.tp, s, a)
      modifies Footprint()
      ensures Shows(Next(sched.cfg, sched.tp, s, a)) && signal == SignalOf(sched.cfg, sched.tp, s, a)
      ensures forall p | p in storage :: storage[p] in old(Footprint()) || fresh(storage[p])
    {
      signal := Silent;
      match a
      case Enable(tid, prio) => Enable(s, tid, prio);
      case Run(_, _) => DoRunAct(a, s);
      case Stop(_, _, _) => DoStopAct(a, s);
      case Tick(_, _) => signal := DoTickAct(a, s);
      case Enqueue(_, _, _, _, _, _, _) => signal := DoEnqueueAct(a, s);
      case Dispatch(_, _) => DoDispatchAct(a, s);
      case SelectIrq(_) => DoSelectAct(a, s);
      case SelectIdle(_, _) => DoSelectAct(a, s);
      case Lock(_, _) => DoLockAct(a, s);
      case _ => KernelMove(a, s);
    }

    method DoRunAct(a: Act, ghost s: Sys)
      requires Shows(s) && Enabled(sched.tp, s, a) && a.Run?
      modifies Footprint() - {this}
      ensures Shows(Next(sched.cfg, sched.tp, s, a))
    {
      var p := sched.local[a.cpu][0];
      Running(s, p, a.cpu, a.now);
      RunTouches(sched.tp, s, a.cpu, a.now, p);
      MadeShows(s, DoRun(sched.tp, s, a), p);
    }

    method DoStopAct(a: Act, ghost s: Sys)
      requires Shows(s) && Enabled(sched.tp, s, a) && a.Stop?
      modifies Footprint() - {this}
      ensures Shows(Next(sched.cfg, sched.tp, s, a))
    {
      var p := sched.running[a.cpu].value;
      Stopping(s, p, a.cpu, a.now, a.runnable);
      StopTouches(sched.cfg, sched.tp, s, a);
      MadeShows(s, DoStop(sched.cfg, sched.tp, s, a), p);
    }

    method DoTickAct(a: Act, ghost s: Sys) returns (signal: Signal)
      requires Shows(s) && Enabled(sched.tp, s, a) && a.Tick?
      modifies Footprint() - {this}
      ensures Shows(Next(sched.cfg, sched.tp, s, a)) && signal == SignalOf(sched.cfg, sched.tp, s, a)
    {
      var p := sched.running[a.cpu].value;
      var verdict := Tick(s, p, a.cpu, a.now);
      signal := Checked(verdict);
      TickTouches(sched.cfg, sched.tp, s, a);
      MadeShows(s, DoTick(sched.cfg, sched.tp, s, a), p);
    }

    method DoEnqueueAct(a: Act, ghost s: Sys) returns (signal: Signal)
      requires Shows(s) && Enabled(sched.tp, s, a) && a.Enqueue?
      modifies Footprint() - {this}
      ensures Shows(Next(sched.cfg, sched.tp, s, a)) && signal == SignalOf(sched.cfg, sched.tp, s, a)
    {
      var kick := Enqueue(s, a.tid, a.now, a.wakeup, a.kthread, a.enqCpu, a.taskCpu, a.cpus);
      signal := Kicked(kick);
      EnqueueTouches(sched.cfg, sched.tp, s, a);
      MadeShows(s, DoEnqueue(sched.cfg, sched.tp, s, a), a.tid);
    }

    method DoDispatchAct(a: Act, ghost s: Sys)
      requires Shows(s) && Enabled(sched.tp, s, a) && a.Dispatch?
      modifies Footprint() - {this}
      ensures Shows(Next(sched.cfg, sched.tp, s, a))
    {
      Dispatch(s, a.cpu, a.row);
    }

    method DoSelectAct(a: Act, ghost s: Sys)
      requires Shows(s) && Enabled(sched.tp, s, a) && (a.SelectIrq? || a.SelectIdle?)
      modifies Footprint() - {this}
      ensures Shows(Next(sched.cfg, sched.tp, s, a))
    {
      var idle := if a.SelectIdle? then Some(a.cpu) else None;
      SelectedIsTwoSteps(sched.cfg, sched.tp, s, a.tid, a.SelectIrq?, idle);
      SelectCpu(s, a.tid, a.SelectIrq?, idle);
    }

    method DoLockAct(a: Act, ghost s: Sys)
      requires Shows(s) && Enabled(sched.tp, s, a) && a.Lock?
      modifies Footprint() - {this}
      ensures Shows(Next(sched.cfg, sched.tp, s, a))
    {
      Lock(s, a.tid, a.held);
    }

    /** The k-th act of a run, when its turn has come. */
    method Turn(acts: seq<Act>, k: nat, ghost s: Sys) returns (signal: Signal)
      requires sched.cfg.Valid() && sched.tp.Valid() && Shape(sched.tp, s)
      requires AllEnabled(sched.cfg, sched.tp, s, acts) && k < |acts|
      requires Shows(Play(sched.cfg, sched.tp, s, acts[..k]))
      modifies Footprint()
      ensures Shows(Play(sched.cfg, sched.tp, s, acts[..k + 1]))
      ensures signal == SignalOf(sched.cfg, sched.tp, Play(sched.cfg, sched.tp, s, acts[..k]), acts[k])
      ensures forall p | p in storage :: storage[p] in old(Footprint()) || fresh(storage[p])
    {
      EnabledAt(sched.cfg, sched.tp, s, acts, k);
      signal := Do(acts[k], Play(sched.cfg, sched.tp, s, acts[..k]));
    }

    /** Any run of acts the kernel may make, from any state shown, ends showing what the abstract run reaches; and
        every kick and tick verdict on the way is the one the abstract run gives there. */
    method Replay(acts: seq<Act>, ghost s: Sys) returns (signals: seq<Signal>)
      requires Shows(s) && AllEnabled(sched.cfg, sched.tp, s, acts)
      modifies Footprint()
      ensures Shows(Play(sched.cfg, sched.tp, s, acts)) && Signals(sched.cfg, sched.tp, s, acts, signals)
    {
      ghost var cfg, tp := sched.cfg, sched.tp;
      signals := [];
      for k := 0 to |acts|
        invariant sched.cfg == cfg && sched.tp == tp && Shows(Play(cfg, tp, s, acts[..k]))
        invariant |signals| == k && SignalsSoFar(cfg, tp, s, acts, signals)
        invariant forall p | p in storage :: storage[p] in old(Footprint()) || fresh(storage[p])
      {
        var signal := Turn(acts, k, s);
        OneMoreSignal(cfg, tp, s, acts, signals, signal);
        signals := signals + [signal];
      }
      assert acts[..|acts|] == acts;
    }

    /** What the machine's theorems say of the words: after any run from boot, bit c of a tier word is set exactly
        when CPU c runs a task of that tier, and then its mailbox byte publishes that tier. */
    lemma WordsTellTheTruth(s: Sys, c: nat, k: Tier)
      requires sched.cfg.Valid() && sched.tp.Valid() && Shows(s) && Reachable(sched.cfg, sched.tp, s)
      ensures c in CpuMask.Members(sched.tierCpuMask[k]) <==> RunsTier(s, c, k)
      ensures RunsTier(s, c, k) ==> c < 64 && BoxTier(sched.mboxFlags[c]) == Some(k)
    {
      MasksTellTheTruth(sched.cfg, sched.tp, s, c, k);
    }
  }

  /** Every act of the run is one the kernel may make when its turn comes. */
  predicate AllEnabled(cfg: Config, tp: Topology, s: Sys, acts: seq<Act>)
    requires cfg.Valid() && tp.Valid() && Shape(tp, s)
  {
    forall k | 0 <= k < |acts| :: Enabled(tp, Play(cfg, tp, s, acts[..k]), acts[k])
  }

  /** The signals given are those of the first acts of the run. */
  ghost predicate SignalsSoFar(cfg: Config, tp: Topology, s: Sys, acts: seq<Act>, signals: seq<Signal>)
    requires cfg.Valid() && tp.Valid() && Shape(tp, s) && AllEnabled(cfg, tp, s, acts)
  {
    && |signals| <= |acts|
    && forall k | 0 <= k < |signals| :: signals[k] == SignalOf(cfg, tp, Play(cfg, tp, s, acts[..k]), acts[k])
  }

  lemma OneMoreSignal(cfg: Config, tp: Topology, s: Sys, acts: seq<Act>, signals: seq<Signal>, signal: Signal)
    requires cfg.Valid() && tp.Valid() && Shape(tp, s) && AllEnabled(cfg, tp, s, acts)
    requires |signals| < |acts| && SignalsSoFar(cfg, tp, s, acts, signals)
    requires signal == SignalOf(cfg, tp, Play(cfg, tp, s, acts[..|signals|]), acts[|signals|])
    ensures SignalsSoFar(cfg, tp, s, acts, signals + [signal])
  {
  }

  ghost predicate Signals(cfg: Config, tp: Topology, s: Sys, acts: seq<Act>, signals: seq<Signal>)
    requires cfg.Valid() && tp.Valid() && Shape(tp, s) && AllEnabled(cfg, tp, s, acts)
  {
    |signals| == |acts| && SignalsSoFar(cfg, tp, s, acts, signals)
  }

  /** A kick that hits a CPU of the arrival's LLC running T3, or T2. */
  predicate HitsLow(tp: Topology, s: Sys, a: Act, v: nat)
    requires tp.Valid() && Shape(tp, s) && Enabled(tp, s, a)
  {
    a.Enqueue? && v in tp.Members(tp.llcOf[a.taskCpu]) && (RunsTier(s, v, 3) || RunsTier(s, v, 2))
  }

  /** A tick on a CPU whose task's slice is longer than its tier's budget. */
  predicate FindsRoom(cfg: Config, tp: Topology, s: Sys, a: Act)
    requires cfg.Valid() && tp.Valid() && Shape(tp, s) && Enabled(tp, s, a)
  {
    a.Tick? && var p := s.running[a.cpu].value; p in s.ctx && cfg.Budget(s.ctx[p].tier) < s.ctx[p].nextSlice
  }

  /** The right victim for a wakeup filed at this tier in LLC l: for T0 and T1 the lowest-numbered CPU there that is
      running T3, failing that T2, and none if there is neither; none for T2 and T3. */
  predicate RightVictim(tp: Topology, s: Sys, l: nat, tier: Tier, victim: Option<nat>)
    requires tp.Valid()
  {
    match victim
    case None => tier > 1 || forall c | c in tp.Members(l) :: !RunsTier(s, c, 3) && !RunsTier(s, c, 2)
    case Some(v) =>
      && tier <= 1 && v in tp.Members(l)
      && (|| (RunsTier(s, v, 3) && forall c | c in tp.Members(l) && RunsTier(s, c, 3) :: v <= c)
          || (RunsTier(s, v, 2)
              && forall c | c in tp.Members(l) :: !RunsTier(s, c, 3) && (RunsTier(s, c, 2) ==> v <= c)))
  }

  /** In every reachable state, the kick of a queued wakeup whose waker runs in tier w, by the tier it is filed at. */
  lemma WakeupKicks(cfg: Config, tp: Topology, s: Sys, a: Act, w: Tier)
    requires cfg.Valid() && tp.Valid() && Reachable(cfg, tp, s) && Shape(tp, s) && Enabled(tp, s, a)
    requires a.Enqueue? && a.wakeup && a.tid in s.ctx && RunsTier(s, a.enqCpu, w)
    ensures var t, o := s.ctx[a.tid], SignalOf(cfg, tp, s, a);
            o.Kicked? && RightVictim(tp, s, tp.llcOf[a.taskCpu], Filing.TierFrom(t.tier, t.irqWake, w), o.victim)
  {
    var l, tier := tp.llcOf[a.taskCpu], Filing.TierFrom(s.ctx[a.tid].tier, s.ctx[a.tid].irqWake, w);
    MasksTellTheTruth(cfg, tp, s, a.enqCpu, w);
    KickHitsTheRightCpu(cfg, tp, s, l, tier);
    KickOf(cfg, tp, s, a, tier);
  }

  /** No other enqueue kicks. */
  lemma OthersKickNobody(cfg: Config, tp: Topology, s: Sys, a: Act)
    requires cfg.Valid() && tp.Valid() && Shape(tp, s) && Enabled(tp, s, a)
    requires a.Enqueue? && (!a.wakeup || a.tid !in s.ctx)
    ensures SignalOf(cfg, tp, s, a) == Kicked(None)
  {
  }

  lemma KickOf(cfg: Config, tp: Topology, s: Sys, a: Act, tier: Tier)
    requires cfg.Valid() && tp.Valid() && Shape(tp, s) && Enabled(tp, s, a)
    requires a.Enqueue? && a.wakeup && a.tid in s.ctx && s.mailbox[a.enqCpu].tier.Some?
    requires tier == Filing.TierFrom(s.ctx[a.tid].tier, s.ctx[a.tid].irqWake, s.mailbox[a.enqCpu].tier.value)
    ensures SignalOf(cfg, tp, s, a) == Kicked(KickTarget(tp, s, tp.llcOf[a.taskCpu], tier))
  {
  }

  /** What a signal claims is so. */
  predicate Truthful(cfg: Config, tp: Topology, s: Sys, a: Act, o: Signal)
    requires cfg.Valid() && tp.Valid() && Shape(tp, s) && Enabled(tp, s, a)
  {
    && (o.Kicked? && o.victim.Some? ==> HitsLow(tp, s, a, o.victim.value))
    && (o == Checked(StarvationKick) ==> FindsRoom(cfg, tp, s, a))
  }

  lemma SignalIsTruthful(cfg: Config, tp: Topology, s: Sys, a: Act)
    requires cfg.Valid() && tp.Valid() && Reachable(cfg, tp, s) && Shape(tp, s) && Enabled(tp, s, a)
    ensures Truthful(cfg, tp, s, a, SignalOf(cfg, tp, s, a))
  {
    ReachableInv(cfg, tp, s);
    if a.Enqueue? { KickHitsTheRightCpu(cfg, tp, s, tp.llcOf[a.taskCpu], File(cfg, s, a).tier); }
    if a.Tick? && TickVerdict(cfg, tp, s, a) == StarvationKick { Starvation.BranchNeedsRoom(cfg, tp, s, a); }
  }

  lemma PrefixReachable(cfg: Config, tp: Topology, acts: seq<Act>, k: nat)
    requires cfg.Valid() && tp.Valid() && AllStamp(acts) && k <= |acts|
    ensures Reachable(cfg, tp, Play(cfg, tp, Boot(tp), acts[..k]))
  {
    assert AllStamp(acts[..k]);
  }

  /** What the machine's theorems say of the signals of any run from boot: a kick hits a CPU of the arrival's LLC that
      is running T3, or T2; and a starvation kick finds a slice longer than its tier's budget. */
  lemma SignalsTellTheTruth(cfg: Config, tp: Topology, acts: seq<Act>, signals: seq<Signal>, k: nat)
    requires cfg.Valid() && tp.Valid() && AllStamp(acts) && AllEnabled(cfg, tp, Boot(tp), acts)
    requires Signals(cfg, tp, Boot(tp), acts, signals) && k < |acts|
    ensures Truthful(cfg, tp, Play(cfg, tp, Boot(tp), acts[..k]), acts[k], signals[k])
  {
    PrefixReachable(cfg, tp, acts, k);
    SignalIsTruthful(cfg, tp, Play(cfg, tp, Boot(tp), acts[..k]), acts[k]);
  }

  lemma EnabledAt(cfg: Config, tp: Topology, s: Sys, acts: seq<Act>, k: nat)
    requires cfg.Valid() && tp.Valid() && Shape(tp, s) && AllEnabled(cfg, tp, s, acts) && k < |acts|
    ensures var b := Play(cfg, tp, s, acts[..k]);
            Enabled(tp, b, acts[k]) && Play(cfg, tp, s, acts[..k + 1]) == Next(cfg, tp, b, acts[k])
  {
    assert acts[..k + 1][..k] == acts[..k];
  }
}
