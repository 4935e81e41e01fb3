/** What an enqueue files, in every reachable state: the tier a wakeup gets from its own task, its waker and the IRQ
    mark, and the entry on each of the four paths. */
module Filing {
  import opened TierConfig
  import opened TaskModel
  import opened DeadlineQueue
  import opened Machine
  import opened MachineInvariant
  import opened MachineRuns

  /** The act adds exactly one entry, to the queue of the LLC of task_cpu: this task at this tier's deadline. */
  predicate FiledAs(cfg: Config, tp: Topology, s: Sys, a: Act, tier: Tier, advance: nat, slice: nat)
    requires cfg.Valid() && tp.Valid() && Shape(tp, s) && Enabled(tp, s, a) && a.Enqueue?
  {
    var l := tp.llcOf[a.taskCpu];
    Next(cfg, tp, s, a).queue
    == s.queue[l := Insert(s.queue[l],
                           Entry(a.tid, TierDeadline(cfg, a.now, tier, advance), a.cpus, a.taskCpu, slice))]
  }

  /** The tier of a queued wakeup: T0 with the IRQ mark or in its own right; otherwise its waker's when that is better,
      but no better than T1. */
  function TierFrom(own: Tier, irq: bool, waker: Tier): Tier {
    if irq || own == 0 then 0 else Min(own, if waker == 0 then 1 else waker)
  }

  /** One bonus for the new-flow flag, one for the lock-holder mark. */
  function Advances(cfg: Config, t: Task): nat {
    match (t.isNew, t.lockHolder)
    case (true, true) => 2 * cfg.bonus
    case (false, false) => 0
    case _ => cfg.bonus
  }

  /** A queued wakeup of a task with a context, by what the mailbox of the enqueuing CPU holds: filed at the tier of the
      documentation, with its advances and its own slice. */
  lemma WakeupByMailbox(cfg: Config, tp: Topology, s: Sys, a: Act)
    requires cfg.Valid() && tp.Valid() && Shape(tp, s) && Enabled(tp, s, a)
    requires a.Enqueue? && a.wakeup && a.tid in s.ctx
    ensures var t, box := s.ctx[a.tid], s.mailbox[a.enqCpu].tier;
            FiledAs(cfg, tp, s, a,
                    if box.Some? then TierFrom(t.tier, t.irqWake, box.value) else if t.irqWake then 0 else t.tier,
                    Advances(cfg, t), t.nextSlice)
  {
  }

  /** In every reachable state: with a waker that the scheduler knows running in tier w on the enqueuing CPU, a wakeup
      is filed at T0 if it is marked or a T0 task, and otherwise at the better of its own tier and w, but no better
      than T1. On a CPU that has not run a known task yet it is filed at its own tier, or at T0 if marked. */
  lemma WakeupIsFiled(cfg: Config, tp: Topology, s: Sys, a: Act, w: Tier)
    requires cfg.Valid() && tp.Valid() && Reachable(cfg, tp, s) && Shape(tp, s) && Enabled(tp, s, a)
    requires a.Enqueue? && a.wakeup && a.tid in s.ctx
    ensures var t := s.ctx[a.tid];
            && (RunsTier(s, a.enqCpu, w) ==>
                  FiledAs(cfg, tp, s, a, TierFrom(t.tier, t.irqWake, w), Advances(cfg, t), t.nextSlice))
            && (s.mailbox[a.enqCpu].tier.None? ==>
                  FiledAs(cfg, tp, s, a, if t.irqWake then 0 else t.tier, Advances(cfg, t), t.nextSlice))
  {
    MasksTellTheTruth(cfg, tp, s, a.enqCpu, w);
    WakeupByMailbox(cfg, tp, s, a);
  }

  /** The other paths. A re-enqueue keeps its own tier and gets no advance and the flat quantum; without a context a
      kthread is filed at T1, another wakeup at T2 and another re-enqueue at T3. */
  lemma OthersAreFiled(cfg: Config, tp: Topology, s: Sys, a: Act)
    requires cfg.Valid() && tp.Valid() && Shape(tp, s) && Enabled(tp, s, a)
    requires a.Enqueue? && (!a.wakeup || a.tid !in s.ctx)
    ensures FiledAs(cfg, tp, s, a,
                    if a.tid in s.ctx then s.ctx[a.tid].tier else if a.kthread then 1 else if a.wakeup then 2 else 3,
                    0, cfg.quantum)
    ensures Next(cfg, tp, s, a).ctx == s.ctx
  {
  }
}
