/** The one-shot IRQ mark and the lock-holder mark over whole runs, and the cap on lock-holder skips. */
module Marks {
  import opened TierConfig
  import opened TaskModel
  import opened Machine
  import opened MachineInvariant
  import opened MachineRuns

  /** An IRQ wakeup that no wakeup since has consumed, queued or direct. */
  predicate IrqPending(es: seq<Event>) {
    exists j | 0 <= j < |es| ::
      es[j].Irq? && forall k | j < k < |es| :: !es[k].WakeQueued? && !es[k].WakeDirect?
  }

  /** The last word on the task's lock was that it holds one. */
  predicate HoldsLock(es: seq<Event>) {
    exists j | 0 <= j < |es| :: es[j] == Event.Lock(true) && forall k | j < k < |es| :: !es[k].Lock?
  }

  lemma PendingGrows(es: seq<Event>)
    requires es != []
    ensures var e := Last(es);
            IrqPending(es) <==> e.Irq? || (IrqPending(Front(es)) && !e.WakeQueued? && !e.WakeDirect?)
  {
    var f := Front(es);
    if IrqPending(f) && !Last(es).WakeQueued? && !Last(es).WakeDirect? {
      var j :| 0 <= j < |f| && f[j].Irq? && forall k | j < k < |f| :: !f[k].WakeQueued? && !f[k].WakeDirect?;
      assert es[j].Irq? && forall k | j < k < |f| :: es[k] == f[k];
    }
    if IrqPending(es) && !Last(es).Irq? {
      var j :| 0 <= j < |es| && es[j].Irq? && forall k | j < k < |es| :: !es[k].WakeQueued? && !es[k].WakeDirect?;
      assert f[j].Irq? && forall k | j < k < |f| :: f[k] == es[k];
    }
    if Last(es).Irq? { assert es[|es| - 1].Irq?; }
  }

  lemma HoldsGrows(es: seq<Event>)
    requires es != []
    ensures var e := Last(es); HoldsLock(es) <==> if e.Lock? then e.held else HoldsLock(Front(es))
  {
    var f := Front(es);
    if !Last(es).Lock? && HoldsLock(f) {
      var j :| 0 <= j < |f| && f[j] == Event.Lock(true) && forall k | j < k < |f| :: !f[k].Lock?;
      assert es[j] == f[j] && forall k | j < k < |f| :: es[k] == f[k];
    }
    if !Last(es).Lock? && HoldsLock(es) {
      var j :| 0 <= j < |es| && es[j] == Event.Lock(true) && forall k | j < k < |es| :: !es[k].Lock?;
      assert f[j] == es[j] && forall k | j < k < |f| :: f[k] == es[k];
    }
    if Last(es) == Event.Lock(true) { assert es[|es| - 1] == Event.Lock(true); }
  }

  lemma StepMarks(cfg: Config, t: Task, e: Event)
    requires cfg.Valid()
    ensures var u := Step(cfg, t, e);
            && (u.irqWake <==> e.Irq? || (t.irqWake && !e.WakeQueued? && !e.WakeDirect?))
            && (u.lockHolder <==> if e.Lock? then e.held else t.lockHolder)
            && (e == Event.Lock(false) ==> u.lockSkip == 0)
            && (!e.Lock? && !e.LockSkip? ==> u.lockSkip == t.lockSkip)
  {
  }

  /** After every run a task is marked exactly while an IRQ wakeup is pending, so the mark serves one wakeup; and it
      counts as a lock holder exactly by the last word on its lock. */
  lemma {:induction false} MarksTellTheTruth(cfg: Config, prio: nat, es: seq<Event>)
    requires cfg.Valid()
    ensures var t := After(cfg, Alloc(cfg, prio), es);
            (t.irqWake <==> IrqPending(es)) && (t.lockHolder <==> HoldsLock(es))
  {
    if es != [] {
      MarksTellTheTruth(cfg, prio, Front(es));
      StepMarks(cfg, After(cfg, Alloc(cfg, prio), Front(es)), Last(es));
      PendingGrows(es);
      HoldsGrows(es);
    }
  }

  lemma TickSkips(cfg: Config, tp: Topology, s: Sys, c: nat, t: Task, now: nat)
    requires cfg.Valid() && tp.Valid() && Shape(tp, s) && tp.Cpu(c) && t.lockSkip <= 4
    ensures TickTask(cfg, tp, s, c, t, now).task.lockSkip <= 4
  {
  }

  /** No run of the machine counts more than four skips in a row. */
  lemma {:induction false} FourSkipsAtMost(cfg: Config, tp: Topology, acts: seq<Act>, p: nat)
    requires cfg.Valid() && tp.Valid()
    ensures var s := Play(cfg, tp, Boot(tp), acts); p in s.ctx ==> s.ctx[p].lockSkip <= 4
    decreases |acts|
  {
    if acts != [] {
      var b, a := Play(cfg, tp, Boot(tp), Front(acts)), Last(acts);
      FourSkipsAtMost(cfg, tp, Front(acts), p);
      if Enabled(tp, b, a) {
        if p in b.ctx {
          Projection(cfg, tp, b, a, p);
          SkipStep(cfg, tp, b, a, p);
        } else if p in Next(cfg, tp, b, a).ctx {
          NewContext(cfg, tp, b, a, p);
        }
      }
    }
  }

  lemma SkipStep(cfg: Config, tp: Topology, s: Sys, a: Act, p: nat)
    requires cfg.Valid() && tp.Valid() && Shape(tp, s) && Enabled(tp, s, a) && p in s.ctx && s.ctx[p].lockSkip <= 4
    ensures Lived(cfg, s.ctx[p], EventOf(cfg, tp, s, a, p)).lockSkip <= 4
  {
    if a.Tick? { TickSkips(cfg, tp, s, a.cpu, s.ctx[p], a.now); }
    var e := EventOf(cfg, tp, s, a, p);
    if e.Some? { StepMarks(cfg, s.ctx[p], e.value); }
  }
}
