/** What every step of the machine keeps, and so holds in every state of every interleaving. */
module MachineInvariant {
  import opened TierConfig
  import opened TaskModel
  import opened DeadlineQueue
  import opened Stealing
  import opened Machine
  import TaskInvariant

  // ---- every task is in at most one place ----

  ghost predicate Unique(s: Sys) {
    forall t: nat :: Placed(s, t) <= 1
  }

  lemma TotalUpdate(qs: seq<seq<nat>>, i: nat, q: seq<nat>, t: nat)
    requires i < |qs|
    ensures Total(qs[i := q], t) + multiset(qs[i])[t] == Total(qs, t) + multiset(q)[t]
  {
    if i == 0 {
      assert qs[0 := q][1..] == qs[1..];
    } else {
      TotalUpdate(qs[1..], i - 1, q, t);
      assert qs[i := q][1..] == qs[1..][i - 1 := q];
    }
  }

  lemma TotalHas(qs: seq<seq<nat>>, i: nat, t: nat)
    requires i < |qs|
    ensures Total(qs, t) >= multiset(qs[i])[t]
  {
    if i > 0 { TotalHas(qs[1..], i - 1, t); }
  }

  lemma TotalHasTwice(qs: seq<seq<nat>>, i: nat, j: nat, t: nat)
    requires i < j < |qs|
    ensures Total(qs, t) >= multiset(qs[i])[t] + multiset(qs[j])[t]
  {
    if i == 0 { TotalHas(qs[1..], j - 1, t); } else { TotalHasTwice(qs[1..], i - 1, j - 1, t); }
  }

  lemma NamesInsert(q: seq<Entry>, e: Entry)
    ensures multiset(Names(Insert(q, e))) == multiset(Names(q)) + multiset{e.tid}
  {
    var p := Position(q, e.deadline);
    assert Names(Insert(q, e)) == Names(q)[..p] + [e.tid] + Names(q)[p..];
    assert Names(q) == Names(q)[..p] + Names(q)[p..];
  }

  lemma NamesRemove(q: seq<Entry>, k: nat)
    requires k < |q|
    ensures multiset(Names(q)) == multiset(Names(Remove(q, k))) + multiset{q[k].tid}
  {
    assert Names(Remove(q, k)) == Names(q)[..k] + Names(q)[k + 1..];
    assert Names(q) == Names(q)[..k] + [q[k].tid] + Names(q)[k + 1..];
  }

  lemma QueueUpdate(qs: seq<seq<Entry>>, l: nat, q: seq<Entry>, t: nat)
    requires l < |qs|
    ensures Total(QueueLists(qs[l := q]), t) + multiset(Names(qs[l]))[t]
            == Total(QueueLists(qs), t) + multiset(Names(q))[t]
  {
    TotalUpdate(QueueLists(qs), l, Names(q), t);
    assert QueueLists(qs[l := q]) == QueueLists(qs)[l := Names(q)];
  }

  function Count(t: nat, o: Option<nat>): nat {
    if o == Some(t) then 1 else 0
  }

  lemma CpuUpdate(rs: seq<Option<nat>>, c: nat, r: Option<nat>, t: nat)
    requires c < |rs|
    ensures Total(CpuLists(rs[c := r]), t) + Count(t, rs[c]) == Total(CpuLists(rs), t) + Count(t, r)
  {
    TotalUpdate(CpuLists(rs), c, CpuList(r), t);
    CountList(t, r);
    CountList(t, rs[c]);
    assert CpuLists(rs[c := r]) == CpuLists(rs)[c := CpuList(r)];
  }

  lemma CountList(t: nat, r: Option<nat>)
    ensures multiset(CpuList(r))[t] == Count(t, r)
  {
  }

  /** A dispatch moves one task from an LLC queue to the local queue, or moves nothing: no task is lost or
      duplicated. */
  lemma DispatchConserves(tp: Topology, s: Sys, a: Act, t: nat)
    requires tp.Valid() && Shape(tp, s) && Enabled(tp, s, a) && a.Dispatch? && FlagsHonest(s.queue, s.nonempty)
    ensures Placed(DoDispatch(tp, s, a), t) == Placed(s, t)
  {
    var f := Stealing.Dispatch(s.queue, s.nonempty, tp.llcOf[a.cpu], a.row, a.cpu);
    DispatchComplete(s.queue, s.nonempty, tp.llcOf[a.cpu], a.row, a.cpu);
    if f.moved.Some? {
      var l :| 0 <= l < |s.queue| && TakenFrom(s.queue, f, [l], 0, a.cpu);
      var k := FirstAllowed(s.queue[l], a.cpu);
      NamesRemove(s.queue[l], k);
      QueueUpdate(s.queue, l, Remove(s.queue[l], k), t);
      LocalGrows(s.local, a.cpu, f.moved.value.tid, t);
    }
  }

  /** The task a step newly places, and the one it takes out of every place. */
  function Arrival(a: Act): Option<nat> {
    match a
    case SelectIdle(tid, _) => Some(tid)
    case KernelInsert(tid, _) => Some(tid)
    case Enqueue(tid, _, _, _, _, _, _) => Some(tid)
    case _ => None
  }

  function Departure(tp: Topology, s: Sys, a: Act): Option<nat>
    requires Shape(tp, s) && Enabled(tp, s, a)
  {
    match a
    case Stop(cpu, _, _) => s.running[cpu]
    case Dequeue(l, k) => Some(s.queue[l][k].tid)
    case DequeueLocal(cpu, k) => Some(s.local[cpu][k])
    case _ => None
  }

  /** Conservation: a task is placed only by a wakeup or an enqueue, and leaves only by stopping or being
      dequeued by the kernel. */
  lemma StepConserves(cfg: Config, tp: Topology, s: Sys, a: Act, t: nat)
    requires cfg.Valid() && tp.Valid() && Shape(tp, s) && Enabled(tp, s, a) && FlagsHonest(s.queue, s.nonempty)
    ensures Placed(Next(cfg, tp, s, a), t) + Count(t, Departure(tp, s, a)) == Placed(s, t) + Count(t, Arrival(a))
  {
    match a
    case Enqueue(_, _, _, _, _, taskCpu, _) => EnqueueConserves(cfg, tp, s, a, t);
    case Dispatch(_, _) => DispatchConserves(tp, s, a, t);
    case Run(cpu, _) => RunConserves(tp, s, a, t);
    case Stop(_, _, _) => StopConserves(cfg, tp, s, a, t);
    case Tick(_, _) => TickConserves(cfg, tp, s, a, t);
    case _ => KernelConserves(cfg, tp, s, a, t);
  }

  lemma TickConserves(cfg: Config, tp: Topology, s: Sys, a: Act, t: nat)
    requires cfg.Valid() && tp.Valid() && Shape(tp, s) && Enabled(tp, s, a) && a.Tick?
    ensures Placed(DoTick(cfg, tp, s, a), t) == Placed(s, t)
  {
  }

  lemma LocalConserves(cfg: Config, tp: Topology, s: Sys, a: Act, t: nat)
    requires cfg.Valid() && tp.Valid() && Shape(tp, s) && Enabled(tp, s, a)
    requires a.SelectIdle? || a.KernelInsert? || a.DequeueLocal?
    ensures Placed(Next(cfg, tp, s, a), t) + Count(t, Departure(tp, s, a)) == Placed(s, t) + Count(t, Arrival(a))
  {
    match a
    case SelectIdle(tid, cpu) => LocalGrows(s.local, cpu, tid, t);
    case KernelInsert(tid, cpu) => LocalGrows(s.local, cpu, tid, t);
    case DequeueLocal(cpu, k) => LocalShrinks(s.local, cpu, k, t);
    case _ =>
  }

  /** The acts that touch at most one queue and at most one context. */
  lemma KernelConserves(cfg: Config, tp: Topology, s: Sys, a: Act, t: nat)
    requires cfg.Valid() && tp.Valid() && Shape(tp, s) && Enabled(tp, s, a)
    requires !a.Enqueue? && !a.Dispatch? && !a.Run? && !a.Stop? && !a.Tick?
    ensures Placed(Next(cfg, tp, s, a), t) + Count(t, Departure(tp, s, a)) == Placed(s, t) + Count(t, Arrival(a))
  {
    if a.SelectIdle? || a.KernelInsert? || a.DequeueLocal? { LocalConserves(cfg, tp, s, a, t); }
    else if a.Dequeue? { DequeueConserves(s, a.llc, a.k, t); }
  }

  lemma StopConserves(cfg: Config, tp: Topology, s: Sys, a: Act, t: nat)
    requires cfg.Valid() && tp.Valid() && Shape(tp, s) && Enabled(tp, s, a) && a.Stop?
    ensures Placed(DoStop(cfg, tp, s, a), t) + Count(t, s.running[a.cpu]) == Placed(s, t)
  {
    CpuUpdate(s.running, a.cpu, None, t);
  }

  lemma DequeueConserves(s: Sys, l: nat, k: nat, t: nat)
    requires l < |s.queue| && k < |s.queue[l]|
    ensures Placed(s.(queue := s.queue[l := Remove(s.queue[l], k)]), t) + Count(t, Some(s.queue[l][k].tid))
            == Placed(s, t)
  {
    NamesRemove(s.queue[l], k);
    QueueUpdate(s.queue, l, Remove(s.queue[l], k), t);
  }

  lemma LocalGrows(ls: seq<seq<nat>>, cpu: nat, tid: nat, t: nat)
    requires cpu < |ls|
    ensures Total(ls[cpu := ls[cpu] + [tid]], t) == Total(ls, t) + Count(t, Some(tid))
  {
    TotalUpdate(ls, cpu, ls[cpu] + [tid], t);
  }

  lemma LocalShrinks(ls: seq<seq<nat>>, cpu: nat, k: nat, t: nat)
    requires cpu < |ls| && k < |ls[cpu]|
    ensures Total(ls[cpu := ls[cpu][..k] + ls[cpu][k + 1..]], t) + Count(t, Some(ls[cpu][k])) == Total(ls, t)
  {
    var q := ls[cpu];
    assert q == q[..k] + [q[k]] + q[k + 1..];
    TotalUpdate(ls, cpu, q[..k] + q[k + 1..], t);
  }

  lemma EnqueueConserves(cfg: Config, tp: Topology, s: Sys, a: Act, t: nat)
    requires cfg.Valid() && tp.Valid() && Shape(tp, s) && Enabled(tp, s, a) && a.Enqueue?
    ensures Placed(DoEnqueue(cfg, tp, s, a), t) == Placed(s, t) + Count(t, Some(a.tid))
  {
    var l := tp.llcOf[a.taskCpu];
    NamesInsert(s.queue[l], Filed(cfg, s, a));
    QueueUpdate(s.queue, l, Insert(s.queue[l], Filed(cfg, s, a)), t);
  }

  lemma RunConserves(tp: Topology, s: Sys, a: Act, t: nat)
    requires tp.Valid() && Shape(tp, s) && Enabled(tp, s, a) && a.Run?
    ensures Placed(DoRun(tp, s, a), t) == Placed(s, t)
  {
    var q := s.local[a.cpu];
    assert q == [q[0]] + q[1..];
    TotalUpdate(s.local, a.cpu, q[1..], t);
    CpuUpdate(s.running, a.cpu, Some(q[0]), t);
  }

  /** Local queues are first in, first out: a step appends one task to a CPU's queue, starts the first, lets the kernel
      take one out, or leaves the queue alone. */
  lemma LocalFifo(cfg: Config, tp: Topology, s: Sys, a: Act, c: nat)
    requires cfg.Valid() && tp.Valid() && Shape(tp, s) && Enabled(tp, s, a) && FlagsHonest(s.queue, s.nonempty)
    requires c < |s.local|
    ensures var q, s' := s.local[c], Next(cfg, tp, s, a);
            && Shape(tp, s')
            && (|| s'.local[c] == q
                || (|s'.local[c]| == |q| + 1 && s'.local[c][..|q|] == q)
                || (a.Run? && a.cpu == c && q != [] && s'.running[c] == Some(q[0]) && s'.local[c] == q[1..])
                || (a.DequeueLocal? && a.cpu == c && a.k < |q| && s'.local[c] == q[..a.k] + q[a.k + 1..]))
  {
  }

  // ---- what a step does to one task context ----

  /** The task event a machine step amounts to, for a task that has a context. A tick amounts to one too:
      it may move the lock-skip count, or stamp a context that running left unstamped. */
  function EventOf(cfg: Config, tp: Topology, s: Sys, a: Act, p: nat): Option<Event>
    requires cfg.Valid() && tp.Valid() && Shape(tp, s) && Enabled(tp, s, a) && p in s.ctx
  {
    match a
    case SelectIrq(tid) => if tid == p then Some(Event.Irq) else None
    case SelectIdle(tid, _) => if tid == p then Some(Event.WakeDirect) else None
    case Enqueue(tid, now, wakeup, _, _, _, _) => if tid == p && wakeup then Some(Event.WakeQueued(now)) else None
    case Run(cpu, now) => if s.local[cpu][0] == p then Some(Event.Run(now)) else None
    case Stop(cpu, now, runnable) => if s.running[cpu] == Some(p) then Some(Event.Stop(now, runnable)) else None
    case Tick(cpu, now) =>
      if s.running[cpu] != Some(p) then None
      else if s.ctx[p].lastRunAt == 0 then Some(Event.Tick(now))
      else Some(Event.LockSkip(TickTask(cfg, tp, s, cpu, s.ctx[p], now).task.lockSkip))
    case Lock(tid, held) => if tid == p then Some(Event.Lock(held)) else None
    case _ => None
  }

  function Lived(cfg: Config, t: Task, e: Option<Event>): Task
    requires cfg.Valid()
  {
    if e.Some? then Step(cfg, t, e.value) else t
  }

  lemma EnqueueProjection(cfg: Config, tp: Topology, s: Sys, a: Act, p: nat)
    requires cfg.Valid() && tp.Valid() && Shape(tp, s) && Enabled(tp, s, a) && p in s.ctx && a.Enqueue?
    ensures DoEnqueue(cfg, tp, s, a).ctx.Keys == s.ctx.Keys
    ensures DoEnqueue(cfg, tp, s, a).ctx[p] == Lived(cfg, s.ctx[p], EventOf(cfg, tp, s, a, p))
  {
  }

  lemma StopProjection(cfg: Config, tp: Topology, s: Sys, a: Act, p: nat)
    requires cfg.Valid() && tp.Valid() && Shape(tp, s) && Enabled(tp, s, a) && p in s.ctx && a.Stop?
    ensures DoStop(cfg, tp, s, a).ctx.Keys == s.ctx.Keys
    ensures DoStop(cfg, tp, s, a).ctx[p] == Lived(cfg, s.ctx[p], EventOf(cfg, tp, s, a, p))
  {
  }

  lemma TickProjection(cfg: Config, tp: Topology, s: Sys, a: Act, p: nat)
    requires cfg.Valid() && tp.Valid() && Shape(tp, s) && Enabled(tp, s, a) && p in s.ctx && a.Tick?
    ensures DoTick(cfg, tp, s, a).ctx.Keys == s.ctx.Keys
    ensures DoTick(cfg, tp, s, a).ctx[p] == Lived(cfg, s.ctx[p], EventOf(cfg, tp, s, a, p))
  {
  }

  lemma RunProjection(cfg: Config, tp: Topology, s: Sys, a: Act, p: nat)
    requires cfg.Valid() && tp.Valid() && Shape(tp, s) && Enabled(tp, s, a) && p in s.ctx && a.Run?
    ensures DoRun(tp, s, a).ctx.Keys == s.ctx.Keys
    ensures DoRun(tp, s, a).ctx[p] == Lived(cfg, s.ctx[p], EventOf(cfg, tp, s, a, p))
  {
  }

  lemma OtherProjection(cfg: Config, tp: Topology, s: Sys, a: Act, p: nat)
    requires cfg.Valid() && tp.Valid() && Shape(tp, s) && Enabled(tp, s, a) && p in s.ctx
    requires !a.Enqueue? && !a.Run? && !a.Stop? && !a.Tick?
    ensures p in Next(cfg, tp, s, a).ctx
    ensures Next(cfg, tp, s, a).ctx[p] == Lived(cfg, s.ctx[p], EventOf(cfg, tp, s, a, p))
  {
  }

  /** Every context evolves by task events, and by at most one a step. */
  lemma Projection(cfg: Config, tp: Topology, s: Sys, a: Act, p: nat)
    requires cfg.Valid() && tp.Valid() && Shape(tp, s) && Enabled(tp, s, a) && p in s.ctx
    ensures p in Next(cfg, tp, s, a).ctx
    ensures Next(cfg, tp, s, a).ctx[p] == Lived(cfg, s.ctx[p], EventOf(cfg, tp, s, a, p))
  {
    match a
    case Enqueue(_, _, _, _, _, _, _) => EnqueueProjection(cfg, tp, s, a, p);
    case Run(_, _) => RunProjection(cfg, tp, s, a, p);
    case Stop(_, _, _) => StopProjection(cfg, tp, s, a, p);
    case Tick(_, _) => TickProjection(cfg, tp, s, a, p);
    case _ => OtherProjection(cfg, tp, s, a, p);
  }

  lemma NewContext(cfg: Config, tp: Topology, s: Sys, a: Act, p: nat)
    requires cfg.Valid() && tp.Valid() && Shape(tp, s) && Enabled(tp, s, a)
    requires p !in s.ctx && p in Next(cfg, tp, s, a).ctx
    ensures a.Enable? && a.tid == p && Next(cfg, tp, s, a).ctx[p] == Alloc(cfg, a.prio)
  {
  }

  // ---- CPUs: the tier masks and the mailboxes tell the truth ----

  /** CPU c's bit is in exactly the mask of the tier of the task it runs, its mailbox publishes that tier, and
      the task has been stamped. A CPU that runs nothing the scheduler has a context for is in no mask. */
  predicate CpuTrue(s: Sys, c: nat)
    requires c < |s.running| == |s.mailbox| && |s.tierCpus| == 4
  {
    if s.running[c].Some? && s.running[c].value in s.ctx then
      var t := s.ctx[s.running[c].value];
      && (forall k | 0 <= k < 4 :: c in s.tierCpus[k] <==> k == t.tier)
      && s.mailbox[c].tier == Some(t.tier)
      && t.lastRunAt != 0
    else
      forall k | 0 <= k < 4 :: c !in s.tierCpus[k]
  }

  predicate CpusTrue(tp: Topology, s: Sys)
    requires Shape(tp, s)
  {
    && (forall c | 0 <= c < |tp.llcOf| :: CpuTrue(s, c))
    && (forall k | 0 <= k < 4 :: forall c | c in s.tierCpus[k] :: c < |tp.llcOf|)
  }

  /** Queues are sorted, their flags honest, and their entries at home. */
  predicate QueuesTrue(tp: Topology, s: Sys)
    requires Shape(tp, s)
  {
    && FlagsHonest(s.queue, s.nonempty)
    && (forall l | 0 <= l < |s.queue| :: Sorted(s.queue[l]) && AtHome(tp, s.queue[l], l))
  }

  predicate AtHome(tp: Topology, q: seq<Entry>, l: nat) {
    forall i | 0 <= i < |q| :: q[i].taskCpu < |tp.llcOf| && tp.llcOf[q[i].taskCpu] == l
  }

  predicate TasksTrue(cfg: Config, s: Sys)
    requires cfg.Valid()
  {
    forall p | p in s.ctx :: TaskInvariant.Inv(cfg, s.ctx[p])
  }

  ghost predicate Inv(cfg: Config, tp: Topology, s: Sys)
    requires cfg.Valid()
  {
    Shape(tp, s) && Unique(s) && QueuesTrue(tp, s) && CpusTrue(tp, s) && TasksTrue(cfg, s)
  }

  // who can be running where

  lemma RunningOnce(s: Sys, c: nat, d: nat, p: nat)
    requires c < |s.running| && d < |s.running| && c != d && Unique(s) && s.running[c] == Some(p)
    ensures s.running[d] != Some(p)
  {
    CountList(p, s.running[c]);
    CountList(p, s.running[d]);
    assert Placed(s, p) <= 1;
    if c < d { TotalHasTwice(CpuLists(s.running), c, d, p); } else { TotalHasTwice(CpuLists(s.running), d, c, p); }
  }

  lemma UnplacedNotRunning(s: Sys, c: nat, p: nat)
    requires c < |s.running| && Placed(s, p) == 0
    ensures s.running[c] != Some(p)
  {
    CountList(p, s.running[c]);
    TotalHas(CpuLists(s.running), c, p);
  }

  lemma LocalNotRunning(s: Sys, c: nat, d: nat)
    requires c < |s.local| && d < |s.running| && s.local[c] != [] && Unique(s)
    ensures s.running[d] != Some(s.local[c][0])
  {
    var p := s.local[c][0];
    CountList(p, s.running[d]);
    TotalHas(CpuLists(s.running), d, p);
    TotalHas(s.local, c, p);
    assert p in s.local[c] && Placed(s, p) <= 1;
  }

  lemma DepartureIsPlaced(tp: Topology, s: Sys, a: Act)
    requires tp.Valid() && Shape(tp, s) && Enabled(tp, s, a) && Departure(tp, s, a).Some?
    ensures Placed(s, Departure(tp, s, a).value) >= 1
  {
    match a
    case Stop(cpu, _, _) =>
      CountList(s.running[cpu].value, s.running[cpu]);
      TotalHas(CpuLists(s.running), cpu, s.running[cpu].value);
    case Dequeue(l, k) =>
      NamesRemove(s.queue[l], k);
      TotalHas(QueueLists(s.queue), l, s.queue[l][k].tid);
    case DequeueLocal(cpu, k) =>
      assert s.local[cpu][k] in s.local[cpu];
      TotalHas(s.local, cpu, s.local[cpu][k]);
  }

  /** Every placement change of a step, exactly: the task that arrives was nowhere and is in one place, the one that
      departs was in one place and is nowhere, and every other task is where it was. */
  lemma PlacesMove(cfg: Config, tp: Topology, s: Sys, a: Act, t: nat)
    requires cfg.Valid() && tp.Valid() && Shape(tp, s) && Enabled(tp, s, a)
    requires Unique(s) && FlagsHonest(s.queue, s.nonempty)
    ensures var s' := Next(cfg, tp, s, a);
            if Arrival(a) == Some(t) then Placed(s, t) == 0 && Placed(s', t) == 1
            else if Departure(tp, s, a) == Some(t) then Placed(s, t) == 1 && Placed(s', t) == 0
            else Placed(s', t) == Placed(s, t)
  {
    StepConserves(cfg, tp, s, a, t);
    assert Placed(s, t) <= 1;
    if Departure(tp, s, a) == Some(t) { DepartureIsPlaced(tp, s, a); }
  }

  // ---- each part is kept ----

  lemma KeepsUnique(cfg: Config, tp: Topology, s: Sys, a: Act)
    requires cfg.Valid() && tp.Valid() && Inv(cfg, tp, s) && Enabled(tp, s, a)
    ensures Unique(Next(cfg, tp, s, a))
  {
    forall t: nat ensures Placed(Next(cfg, tp, s, a), t) <= 1 {
      StepConserves(cfg, tp, s, a, t);
    }
  }

  lemma KeepsTasks(cfg: Config, tp: Topology, s: Sys, a: Act)
    requires cfg.Valid() && tp.Valid() && Inv(cfg, tp, s) && Enabled(tp, s, a)
    ensures TasksTrue(cfg, Next(cfg, tp, s, a))
  {
    var s' := Next(cfg, tp, s, a);
    forall p | p in s'.ctx ensures TaskInvariant.Inv(cfg, s'.ctx[p]) {
      if p in s.ctx {
        Projection(cfg, tp, s, a, p);
        var e := EventOf(cfg, tp, s, a, p);
        if e.Some? { TaskInvariant.StepKeepsInv(cfg, s.ctx[p], e.value); }
      } else {
        NewContext(cfg, tp, s, a, p);
        TaskInvariant.AllocInv(cfg, a.prio);
      }
    }
  }

  lemma EnqueueKeepsQueues(cfg: Config, tp: Topology, s: Sys, a: Act)
    requires cfg.Valid() && tp.Valid() && Shape(tp, s) && QueuesTrue(tp, s) && Enabled(tp, s, a) && a.Enqueue?
    ensures QueuesTrue(tp, DoEnqueue(cfg, tp, s, a))
  {
    var l := tp.llcOf[a.taskCpu];
    InsertKeepsSorted(s.queue[l], Filed(cfg, s, a));
    InsertAtHome(tp, s.queue[l], l, Filed(cfg, s, a));
  }

  lemma DequeueKeepsQueues(tp: Topology, s: Sys, l: nat, k: nat)
    requires Shape(tp, s) && QueuesTrue(tp, s) && l < |s.queue| && k < |s.queue[l]|
    ensures QueuesTrue(tp, s.(queue := s.queue[l := Remove(s.queue[l], k)]))
  {
    RemoveKeepsQueue(tp, s.queue[l], l, k);
  }

  lemma KeepsQueues(cfg: Config, tp: Topology, s: Sys, a: Act)
    requires cfg.Valid() && tp.Valid() && Shape(tp, s) && QueuesTrue(tp, s) && Enabled(tp, s, a)
    ensures Shape(tp, Next(cfg, tp, s, a)) && QueuesTrue(tp, Next(cfg, tp, s, a))
  {
    match a
    case Enqueue(_, _, _, _, _, _, _) => EnqueueKeepsQueues(cfg, tp, s, a);
    case Dispatch(_, _) => DispatchKeepsQueues(tp, s, a);
    case Dequeue(l, k) => DequeueKeepsQueues(tp, s, l, k);
    case _ => OtherKeepsQueues(cfg, tp, s, a);
  }

  lemma OtherKeepsQueues(cfg: Config, tp: Topology, s: Sys, a: Act)
    requires cfg.Valid() && tp.Valid() && Shape(tp, s) && QueuesTrue(tp, s) && Enabled(tp, s, a)
    requires !a.Enqueue? && !a.Dispatch? && !a.Dequeue?
    ensures Next(cfg, tp, s, a).queue == s.queue && Next(cfg, tp, s, a).nonempty == s.nonempty
    ensures Shape(tp, Next(cfg, tp, s, a)) && QueuesTrue(tp, Next(cfg, tp, s, a))
  {
  }

  lemma InsertAtHome(tp: Topology, q: seq<Entry>, l: nat, e: Entry)
    requires AtHome(tp, q, l) && e.taskCpu < |tp.llcOf| && tp.llcOf[e.taskCpu] == l
    ensures AtHome(tp, Insert(q, e), l)
  {
  }

  lemma RemoveKeepsQueue(tp: Topology, q: seq<Entry>, l: nat, k: nat)
    requires Sorted(q) && AtHome(tp, q, l) && k < |q|
    ensures Sorted(Remove(q, k)) && AtHome(tp, Remove(q, k), l)
  {
    RemoveKeepsSorted(q, k);
  }

  lemma DispatchKeepsQueues(tp: Topology, s: Sys, a: Act)
    requires tp.Valid() && Shape(tp, s) && QueuesTrue(tp, s) && Enabled(tp, s, a) && a.Dispatch?
    ensures QueuesTrue(tp, DoDispatch(tp, s, a))
  {
    var f := Stealing.Dispatch(s.queue, s.nonempty, tp.llcOf[a.cpu], a.row, a.cpu);
    DispatchComplete(s.queue, s.nonempty, tp.llcOf[a.cpu], a.row, a.cpu);
    if f.moved.Some? {
      var v :| 0 <= v < |s.queue| && TakenFrom(s.queue, f, [v], 0, a.cpu);
      var k := FirstAllowed(s.queue[v], a.cpu);
      RemoveKeepsQueue(tp, s.queue[v], v, k);
      assert f.queue == s.queue[v := Remove(s.queue[v], k)];
      forall l | 0 <= l < |f.queue| ensures Sorted(f.queue[l]) && AtHome(tp, f.queue[l], l) {
        if l != v { assert f.queue[l] == s.queue[l]; }
      }
    }
  }

  // a CPU other than the one a step is about keeps the tier, the stamp and the mask bits it had

  lemma SameTask(cfg: Config, t: Task, e: Event)
    requires cfg.Valid() && t.lastRunAt != 0 && !e.Stop? && !e.Run?
    ensures Step(cfg, t, e).tier == t.tier && Step(cfg, t, e).lastRunAt == t.lastRunAt
  {
  }

  /** The nonzero-stamp assumption: a task is never started at a time that truncates to the unset sentinel. */
  predicate Stamps(a: Act) {
    a.Run? ==> a.now % U32 != 0
  }

  lemma RunKeepsCpu(tp: Topology, s: Sys, a: Act, c: nat)
    requires tp.Valid() && Shape(tp, s) && Unique(s) && CpusTrue(tp, s) && Enabled(tp, s, a)
    requires a.Run? && Stamps(a) && c < |tp.llcOf|
    ensures CpuTrue(DoRun(tp, s, a), c)
  {
    if c != a.cpu { LocalNotRunning(s, a.cpu, c); }
    assert CpuTrue(s, c);
  }

  lemma StopKeepsCpu(cfg: Config, tp: Topology, s: Sys, a: Act, c: nat)
    requires cfg.Valid() && tp.Valid() && Shape(tp, s) && Unique(s) && CpusTrue(tp, s) && Enabled(tp, s, a)
    requires a.Stop? && c < |tp.llcOf|
    ensures CpuTrue(DoStop(cfg, tp, s, a), c)
  {
    assert CpuTrue(s, a.cpu);
    assert CpuTrue(s, c);
    if c != a.cpu { RunningOnce(s, a.cpu, c, s.running[a.cpu].value); }
  }

  lemma TickKeepsCpu(cfg: Config, tp: Topology, s: Sys, a: Act, c: nat)
    requires cfg.Valid() && tp.Valid() && Shape(tp, s) && Unique(s) && CpusTrue(tp, s) && Enabled(tp, s, a)
    requires a.Tick? && c < |tp.llcOf|
    ensures CpuTrue(DoTick(cfg, tp, s, a), c)
  {
    assert CpuTrue(s, a.cpu);
    assert CpuTrue(s, c);
    if c != a.cpu { RunningOnce(s, a.cpu, c, s.running[a.cpu].value); }
  }

  lemma OtherKeepsCpu(cfg: Config, tp: Topology, s: Sys, a: Act, c: nat)
    requires cfg.Valid() && tp.Valid() && Shape(tp, s) && CpusTrue(tp, s) && Enabled(tp, s, a)
    requires !a.Run? && !a.Stop? && !a.Tick? && c < |tp.llcOf|
    ensures CpuTrue(Next(cfg, tp, s, a), c)
  {
    assert CpuTrue(s, c);
    if s.running[c].Some? {
      var p := s.running[c].value;
      if a.Enable? { UnplacedNotRunning(s, c, a.tid); }
      if p in s.ctx {
        Projection(cfg, tp, s, a, p);
        var e := EventOf(cfg, tp, s, a, p);
        if e.Some? { SameTask(cfg, s.ctx[p], e.value); }
      } else if p in Next(cfg, tp, s, a).ctx {
        NewContext(cfg, tp, s, a, p);
      }
    }
  }

  lemma KeepsCpus(cfg: Config, tp: Topology, s: Sys, a: Act)
    requires cfg.Valid() && tp.Valid() && Inv(cfg, tp, s) && Enabled(tp, s, a) && Stamps(a)
    ensures Shape(tp, Next(cfg, tp, s, a)) && CpusTrue(tp, Next(cfg, tp, s, a))
  {
    NextKeepsShape(cfg, tp, s, a);
    forall c | 0 <= c < |tp.llcOf| ensures CpuTrue(Next(cfg, tp, s, a), c) {
      match a
      case Run(_, _) => RunKeepsCpu(tp, s, a, c);
      case Stop(_, _, _) => StopKeepsCpu(cfg, tp, s, a, c);
      case Tick(_, _) => TickKeepsCpu(cfg, tp, s, a, c);
      case _ => OtherKeepsCpu(cfg, tp, s, a, c);
    }
  }

  lemma NextKeepsInv(cfg: Config, tp: Topology, s: Sys, a: Act)
    requires cfg.Valid() && tp.Valid() && Inv(cfg, tp, s) && Enabled(tp, s, a) && Stamps(a)
    ensures Inv(cfg, tp, Next(cfg, tp, s, a))
  {
    KeepsUnique(cfg, tp, s, a);
    KeepsQueues(cfg, tp, s, a);
    KeepsCpus(cfg, tp, s, a);
    KeepsTasks(cfg, tp, s, a);
  }

  /** Without the assumption a stop keeps the CPU's masks true exactly when the task's stamp is nonzero: the
      source skips the whole callback on a zero stamp and leaves the bit behind. */
  lemma StopNeedsStamp(cfg: Config, tp: Topology, s: Sys, a: Act)
    requires cfg.Valid() && tp.Valid() && Shape(tp, s) && Enabled(tp, s, a) && a.Stop?
    requires s.running[a.cpu].value in s.ctx
    requires forall k | 0 <= k < 4 :: a.cpu in s.tierCpus[k] <==> k == s.ctx[s.running[a.cpu].value].tier
    ensures CpuTrue(DoStop(cfg, tp, s, a), a.cpu) <==> s.ctx[s.running[a.cpu].value].lastRunAt != 0
  {
    var t := s.ctx[s.running[a.cpu].value];
    if t.lastRunAt == 0 {
      assert a.cpu in DoStop(cfg, tp, s, a).tierCpus[t.tier];
    }
  }

  lemma BootInv(cfg: Config, tp: Topology)
    requires cfg.Valid() && tp.Valid()
    ensures Inv(cfg, tp, Boot(tp))
  {
    var s := Boot(tp);
    forall t: nat ensures Placed(s, t) == 0 {
      NobodyHome(QueueLists(s.queue), t);
      NobodyHome(s.local, t);
      NobodyHome(CpuLists(s.running), t);
    }
  }

  lemma NobodyHome(qs: seq<seq<nat>>, t: nat)
    requires forall i | 0 <= i < |qs| :: qs[i] == []
    ensures Total(qs, t) == 0
  {
  }
}
