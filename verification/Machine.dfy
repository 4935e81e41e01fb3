/** The scheduler as one state machine: every callback is an atomic step over tasks, CPUs, per-LLC queues,
    non-empty flags, per-tier CPU sets and mailboxes. The kernel's part is nondeterminism: it decides which
    step comes next and supplies its arguments. */
module Machine {
  import opened TierConfig
  import opened TaskModel
  import opened DeadlineQueue
  import opened Stealing

  /** cpu_llc_id and nr_llcs. */
  datatype Topology = Topology(llcOf: seq<nat>, nrLlcs: nat) {
    predicate Valid() {
      && |llcOf| <= 64
      && 1 <= nrLlcs <= 8
      && forall c | 0 <= c < |llcOf| :: llcOf[c] < nrLlcs
    }

    predicate Cpu(c: nat) {
      c < |llcOf|
    }

    /** llc_cpu_mask, as a set. */
    function Members(l: nat): set<nat> {
      set c: nat | c < |llcOf| && llcOf[c] == l
    }
  }

  /** mega_mailbox_entry: the published tier (None until first written) and the tick counter. */
  datatype Mailbox = Mailbox(tier: Option<Tier>, ticks: u8)

  datatype Sys = Sys(
    ctx: map<nat, Task>,
    running: seq<Option<nat>>,
    local: seq<seq<nat>>,
    queue: seq<seq<Entry>>,
    nonempty: seq<bool>,
    tierCpus: seq<set<nat>>,
    mailbox: seq<Mailbox>)

  predicate Shape(tp: Topology, s: Sys) {
    && |s.running| == |s.local| == |s.mailbox| == |tp.llcOf|
    && |s.queue| == |s.nonempty| == tp.nrLlcs
    && |s.tierCpus| == 4
  }

  /** BSS zero, empty queues. */
  function Boot(tp: Topology): (s: Sys)
    ensures Shape(tp, s)
  {
    Sys(map[],
        seq(|tp.llcOf|, i => None),
        seq(|tp.llcOf|, i => []),
        seq(tp.nrLlcs, i => []),
        seq(tp.nrLlcs, i => false),
        [{}, {}, {}, {}],
        seq(|tp.llcOf|, i => Mailbox(None, 0)))
  }

  datatype Act =
    | Enable(tid: nat, prio: nat)
    | SelectIrq(tid: nat)
    | SelectIdle(tid: nat, cpu: nat)
    | KernelInsert(tid: nat, cpu: nat)
    | Enqueue(tid: nat, now: nat, wakeup: bool, kthread: bool, enqCpu: nat, taskCpu: nat, cpus: set<nat>)
    | Dispatch(cpu: nat, row: seq<nat>)
    | Run(cpu: nat, now: nat)
    | Stop(cpu: nat, now: nat, runnable: bool)
    | Tick(cpu: nat, now: nat)
    | Lock(tid: nat, held: bool)
    | Dequeue(llc: nat, k: nat)
    | DequeueLocal(cpu: nat, k: nat)

  // ---- where tasks are ----

  function Names(q: seq<Entry>): seq<nat> {
    seq(|q|, i requires 0 <= i < |q| => q[i].tid)
  }

  function QueueLists(qs: seq<seq<Entry>>): seq<seq<nat>> {
    seq(|qs|, i requires 0 <= i < |qs| => Names(qs[i]))
  }

  function CpuList(r: Option<nat>): seq<nat> {
    if r.Some? then [r.value] else []
  }

  function CpuLists(rs: seq<Option<nat>>): seq<seq<nat>> {
    seq(|rs|, i requires 0 <= i < |rs| => CpuList(rs[i]))
  }

  /** Occurrences of t in a family of lists. */
  function Total(qs: seq<seq<nat>>, t: nat): nat {
    if qs == [] then 0 else multiset(qs[0])[t] + Total(qs[1..], t)
  }

  /** How often task t is placed: in an LLC queue, in a CPU's local queue, on a CPU. */
  function Placed(s: Sys, t: nat): nat {
    Total(QueueLists(s.queue), t) + Total(s.local, t) + Total(CpuLists(s.running), t)
  }

  // ---- enqueue ----

  /** Waker-tier inheritance, floored at T1. */
  function Inherit(tier: Tier, waker: Mailbox): Tier {
    if tier > 0 && waker.tier.Some? && waker.tier.value < tier then
      var promoted: Tier := if waker.tier.value < 1 then 1 else waker.tier.value;
      if promoted < tier then promoted else tier
    else tier
  }

  /** The tier a queued wakeup is filed under: T0 for an IRQ wakeup, else its own or its waker's. */
  function WakeTier(t: Task, waker: Mailbox): Tier {
    Inherit(if t.irqWake then 0 else t.tier, waker)
  }

  /** The new-flow and lock-holder advances compound. */
  function Advance(cfg: Config, t: Task): nat {
    (if t.isNew then cfg.bonus else 0) + (if t.lockHolder then cfg.bonus else 0)
  }

  /** What imperator_enqueue files: tier, advance and slice on each of its four paths. */
  datatype Filing = Filing(tier: Tier, advance: nat, slice: nat, full: bool)

  function File(cfg: Config, s: Sys, a: Act): Filing
    requires a.Enqueue? && a.enqCpu < |s.mailbox|
  {
    if a.kthread && a.tid !in s.ctx then Filing(1, 0, cfg.quantum, false)
    else if !a.wakeup then Filing(if a.tid in s.ctx then s.ctx[a.tid].tier else 3, 0, cfg.quantum, false)
    else if a.tid !in s.ctx then Filing(2, 0, cfg.quantum, false)
    else
      var t := s.ctx[a.tid];
      Filing(WakeTier(t, s.mailbox[a.enqCpu]), Advance(cfg, t), t.nextSlice, true)
  }

  function Filed(cfg: Config, s: Sys, a: Act): Entry
    requires cfg.Valid() && a.Enqueue? && a.enqCpu < |s.mailbox|
  {
    var f := File(cfg, s, a);
    Entry(a.tid, TierDeadline(cfg, a.now, f.tier, f.advance), a.cpus, a.taskCpu, f.slice)
  }

  function DoEnqueue(cfg: Config, tp: Topology, s: Sys, a: Act): Sys
    requires cfg.Valid() && tp.Valid() && Shape(tp, s) && Enabled(tp, s, a) && a.Enqueue?
  {
    var l := tp.llcOf[a.taskCpu];
    s.(queue := s.queue[l := Insert(s.queue[l], Filed(cfg, s, a))],
       nonempty := s.nonempty[l := true],
       ctx := if File(cfg, s, a).full then s.ctx[a.tid := QueuedWake(s.ctx[a.tid], a.now)] else s.ctx)
  }

  /** The victim of the preemption kick: the lowest-numbered T3 CPU of the LLC, else the lowest T2 one. */
  ghost function KickTarget(tp: Topology, s: Sys, l: nat, tier: Tier): (k: Option<nat>)
    requires Shape(tp, s)
  {
    var t3, t2 := s.tierCpus[3] * tp.Members(l), s.tierCpus[2] * tp.Members(l);
    if tier > 1 then None
    else if t3 != {} then Some(Least(t3))
    else if t2 != {} then Some(Least(t2))
    else None
  }

  ghost function Least(v: set<nat>): (m: nat)
    requires v != {}
    ensures m in v && forall i | i in v :: m <= i
  {
    LeastExists(v);
    var m :| m in v && forall i | i in v :: m <= i;
    m
  }

  lemma LeastExists(v: set<nat>)
    requires v != {}
    ensures exists m :: m in v && forall i | i in v :: m <= i
  {
    var x :| x in v;
    LeastFrom(v, x);
  }

  lemma LeastFrom(v: set<nat>, x: nat)
    requires x in v
    ensures exists m :: m in v && forall i | i in v :: m <= i
    decreases x
  {
    if y :| y in v && y < x {
      LeastFrom(v, y);
    }
  }

  // ---- dispatch ----

  function DoDispatch(tp: Topology, s: Sys, a: Act): Sys
    requires tp.Valid() && Shape(tp, s) && Enabled(tp, s, a) && a.Dispatch?
  {
    var f := Stealing.Dispatch(s.queue, s.nonempty, tp.llcOf[a.cpu], a.row, a.cpu);
    s.(queue := f.queue, nonempty := f.flags,
       local := if f.moved.Some? then s.local[a.cpu := s.local[a.cpu] + [f.moved.value.tid]] else s.local)
  }

  // ---- running and stopping ----

  function DoRun(tp: Topology, s: Sys, a: Act): Sys
    requires tp.Valid() && Shape(tp, s) && Enabled(tp, s, a) && a.Run?
  {
    var p := s.local[a.cpu][0];
    var s' := s.(local := s.local[a.cpu := s.local[a.cpu][1..]], running := s.running[a.cpu := Some(p)]);
    if p !in s.ctx then s'
    else
      var t := s.ctx[p].tier;
      s'.(ctx := s.ctx[p := Running(s.ctx[p], a.now)],
          mailbox := s.mailbox[a.cpu := s.mailbox[a.cpu].(tier := Some(t))],
          tierCpus := s.tierCpus[t := s.tierCpus[t] + {a.cpu}])
  }

  function DoStop(cfg: Config, tp: Topology, s: Sys, a: Act): Sys
    requires cfg.Valid() && tp.Valid() && Shape(tp, s) && Enabled(tp, s, a) && a.Stop?
  {
    var p := s.running[a.cpu].value;
    var s' := s.(running := s.running[a.cpu := None]);
    if p !in s.ctx || s.ctx[p].lastRunAt == 0 then s'
    else
      var t := s.ctx[p].tier;
      s'.(ctx := s.ctx[p := Stopping(cfg, s.ctx[p], a.now, a.runnable)],
          tierCpus := s.tierCpus[t := s.tierCpus[t] - {a.cpu}])
  }

  // ---- tick ----

  function CountCpu(q: seq<Entry>, c: nat): nat {
    if q == [] then 0 else (if q[0].taskCpu == c then 1 else 0) + CountCpu(q[1..], c)
  }

  function CountQueues(qs: seq<seq<Entry>>, c: nat): nat {
    if qs == [] then 0 else CountCpu(qs[0], c) + CountQueues(qs[1..], c)
  }

  /** rq->scx.nr_running: the running task and every queued task whose task_cpu is c. */
  function NrRunning(s: Sys, c: nat): nat
    requires c < |s.local|
  {
    1 + |s.local[c]| + CountQueues(s.queue, c)
  }

  /** Something is queued where this CPU would take it. */
  predicate Waiting(tp: Topology, s: Sys, c: nat)
    requires tp.Valid() && Shape(tp, s) && tp.Cpu(c)
  {
    s.queue[tp.llcOf[c]] != [] || s.local[c] != []
  }

  datatype Verdict = NoKick | SliceKick | StarvationKick

  /** What a tick decides, and the task and counter it leaves. */
  datatype Ticked = Ticked(verdict: Verdict, task: Task, ticks: u8, published: bool)

  function SkipPeriod(ticks: u8): nat {
    if ticks < 8 then 1 else if ticks < 16 then 2 else if ticks < 32 then 4 else 8
  }

  /** The starvation check, under its graduated backoff. */
  function PhaseTwo(cfg: Config, t: Task, ticks: u8, runtime: u32, nrRunning: nat): (k: Ticked)
    requires cfg.Valid()
    ensures k.task.tier == t.tier && k.published
  {
    var bumped: u8 := if ticks < 255 then ticks + 1 else ticks;
    if ticks % SkipPeriod(ticks) != 0 then Ticked(NoKick, t, bumped, true)
    else if nrRunning <= 1 then Ticked(NoKick, t, bumped, true)
    else if runtime <= cfg.Budget(t.tier) then Ticked(NoKick, t, ticks - ticks / 4, true)
    else if t.lockHolder && t.lockSkip < 4 then
      Ticked(NoKick, t.(lockSkip := t.lockSkip + 1), ticks - ticks / 4, true)
    else Ticked(StarvationKick, if t.lockHolder then t.(lockSkip := 0) else t, ticks - ticks / 4, true)
  }

  /** imperator_tick on a task that has a context. */
  function TickTask(cfg: Config, tp: Topology, s: Sys, c: nat, t: Task, now: nat): Ticked
    requires cfg.Valid() && tp.Valid() && Shape(tp, s) && tp.Cpu(c)
  {
    var ticks := s.mailbox[c].ticks;
    if t.lastRunAt == 0 then Ticked(NoKick, TickStamp(t, now), ticks, false)
    else
      var runtime := Elapsed(now, t.lastRunAt);
      if runtime > t.nextSlice && Waiting(tp, s, c) then Ticked(SliceKick, t, ticks, true)
      else PhaseTwo(cfg, t, ticks, runtime, NrRunning(s, c))
  }

  function TickVerdict(cfg: Config, tp: Topology, s: Sys, a: Act): Verdict
    requires cfg.Valid() && tp.Valid() && Shape(tp, s) && Enabled(tp, s, a) && a.Tick?
  {
    var p := s.running[a.cpu].value;
    if p !in s.ctx then NoKick else TickTask(cfg, tp, s, a.cpu, s.ctx[p], a.now).verdict
  }

  function DoTick(cfg: Config, tp: Topology, s: Sys, a: Act): Sys
    requires cfg.Valid() && tp.Valid() && Shape(tp, s) && Enabled(tp, s, a) && a.Tick?
  {
    var p := s.running[a.cpu].value;
    if p !in s.ctx then s
    else
      var k := TickTask(cfg, tp, s, a.cpu, s.ctx[p], a.now);
      var box := s.mailbox[a.cpu];
      s.(ctx := s.ctx[p := k.task],
         mailbox := s.mailbox[a.cpu := Mailbox(if k.published then Some(k.task.tier) else box.tier, k.ticks)])
  }

  // ---- the machine ----

  /** What the kernel guarantees about its calls. */
  predicate Enabled(tp: Topology, s: Sys, a: Act)
    requires Shape(tp, s)
  {
    match a
    case Enable(tid, _) => tid !in s.ctx && Placed(s, tid) == 0
    case SelectIrq(tid) => Placed(s, tid) == 0
    case SelectIdle(tid, cpu) => Placed(s, tid) == 0 && tp.Cpu(cpu)
    case KernelInsert(tid, cpu) => Placed(s, tid) == 0 && tp.Cpu(cpu)
    case Enqueue(tid, _, _, _, enqCpu, taskCpu, _) => Placed(s, tid) == 0 && tp.Cpu(enqCpu) && tp.Cpu(taskCpu)
    case Dispatch(cpu, row) => tp.Cpu(cpu) && |row| >= tp.nrLlcs
    case Run(cpu, _) => tp.Cpu(cpu) && s.running[cpu].None? && s.local[cpu] != []
    case Stop(cpu, _, _) => tp.Cpu(cpu) && s.running[cpu].Some?
    case Tick(cpu, _) => tp.Cpu(cpu) && s.running[cpu].Some?
    case Lock(_, _) => true
    case Dequeue(llc, k) => llc < |s.queue| && k < |s.queue[llc]|
    case DequeueLocal(cpu, k) => tp.Cpu(cpu) && k < |s.local[cpu]|
  }

  function Touch(s: Sys, tid: nat, t: Task): Sys {
    s.(ctx := s.ctx[tid := t])
  }

  function Next(cfg: Config, tp: Topology, s: Sys, a: Act): Sys
    requires cfg.Valid() && tp.Valid() && Shape(tp, s) && Enabled(tp, s, a)
  {
    match a
    case Enable(tid, prio) => Touch(s, tid, Alloc(cfg, prio))
    case SelectIrq(tid) => if tid in s.ctx then Touch(s, tid, s.ctx[tid].(irqWake := true)) else s
    case SelectIdle(tid, cpu) =>
      var s' := s.(local := s.local[cpu := s.local[cpu] + [tid]]);
      if tid in s.ctx then Touch(s', tid, DirectWake(s.ctx[tid])) else s'
    case KernelInsert(tid, cpu) => s.(local := s.local[cpu := s.local[cpu] + [tid]])
    case Enqueue(_, _, _, _, _, _, _) => DoEnqueue(cfg, tp, s, a)
    case Dispatch(_, _) => DoDispatch(tp, s, a)
    case Run(_, _) => DoRun(tp, s, a)
    case Stop(_, _, _) => DoStop(cfg, tp, s, a)
    case Tick(_, _) => DoTick(cfg, tp, s, a)
    case Lock(tid, held) =>
      if tid in s.ctx then Touch(s, tid, Step(cfg, s.ctx[tid], Event.Lock(held))) else s
    case Dequeue(llc, k) => s.(queue := s.queue[llc := Remove(s.queue[llc], k)])
    case DequeueLocal(cpu, k) => s.(local := s.local[cpu := s.local[cpu][..k] + s.local[cpu][k + 1..]])
  }

  lemma NextKeepsShape(cfg: Config, tp: Topology, s: Sys, a: Act)
    requires cfg.Valid() && tp.Valid() && Shape(tp, s) && Enabled(tp, s, a)
    ensures Shape(tp, Next(cfg, tp, s, a))
  {
  }
}
