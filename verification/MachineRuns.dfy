/** Safety of the scheduler over every interleaving. */
module MachineRuns {
  import opened TierConfig
  import opened TaskModel
  import opened DeadlineQueue
  import opened Stealing
  import opened Machine
  import opened MachineInvariant
  import TaskInvariant
  import TaskRuns

  /** One attempted step: an act the kernel would not make leaves the state alone, so every sequence of acts
      is an interleaving. */
  function Do(cfg: Config, tp: Topology, s: Sys, a: Act): (s': Sys)
    requires cfg.Valid() && tp.Valid() && Shape(tp, s)
    ensures Shape(tp, s')
  {
    NextKeepsShapeIfEnabled(cfg, tp, s, a);
    if Enabled(tp, s, a) then Next(cfg, tp, s, a) else s
  }

  lemma NextKeepsShapeIfEnabled(cfg: Config, tp: Topology, s: Sys, a: Act)
    requires cfg.Valid() && tp.Valid() && Shape(tp, s)
    ensures Enabled(tp, s, a) ==> Shape(tp, Next(cfg, tp, s, a))
  {
    if Enabled(tp, s, a) { NextKeepsShape(cfg, tp, s, a); }
  }

  function Play(cfg: Config, tp: Topology, s: Sys, acts: seq<Act>): (s': Sys)
    requires cfg.Valid() && tp.Valid() && Shape(tp, s)
    ensures Shape(tp, s')
  {
    if acts == [] then s else Do(cfg, tp, Play(cfg, tp, s, Front(acts)), Last(acts))
  }

  /** The nonzero-stamp assumption on a whole run. */
  predicate AllStamp(acts: seq<Act>) {
    forall i | 0 <= i < |acts| :: Stamps(acts[i])
  }

  lemma PlayKeepsInv(cfg: Config, tp: Topology, s: Sys, acts: seq<Act>)
    requires cfg.Valid() && tp.Valid() && Inv(cfg, tp, s) && AllStamp(acts)
    ensures Inv(cfg, tp, Play(cfg, tp, s, acts))
  {
    if acts != [] {
      PlayKeepsInv(cfg, tp, s, Front(acts));
      var b := Play(cfg, tp, s, Front(acts));
      if Enabled(tp, b, Last(acts)) { NextKeepsInv(cfg, tp, b, Last(acts)); }
    }
  }

  /** A state some interleaving from boot reaches. */
  ghost predicate Reachable(cfg: Config, tp: Topology, s: Sys)
    requires cfg.Valid() && tp.Valid()
  {
    exists acts :: AllStamp(acts) && Play(cfg, tp, Boot(tp), acts) == s
  }

  lemma ReachableInv(cfg: Config, tp: Topology, s: Sys)
    requires cfg.Valid() && tp.Valid() && Reachable(cfg, tp, s)
    ensures Inv(cfg, tp, s)
  {
    BootInv(cfg, tp);
    var acts :| AllStamp(acts) && Play(cfg, tp, Boot(tp), acts) == s;
    PlayKeepsInv(cfg, tp, Boot(tp), acts);
  }

  /** CPU c runs a task of tier k (one the scheduler has a context for). */
  predicate RunsTier(s: Sys, c: nat, k: Tier) {
    c < |s.running| && s.running[c].Some? && s.running[c].value in s.ctx && s.ctx[s.running[c].value].tier == k
  }

  /** In every reachable state, c's bit is in tier k's mask exactly when c runs a task of tier k; so it is in at
      most one mask; and while c runs such a task its mailbox is valid and holds that tier. */
  lemma MasksTellTheTruth(cfg: Config, tp: Topology, s: Sys, c: nat, k: Tier)
    requires cfg.Valid() && tp.Valid() && Reachable(cfg, tp, s)
    ensures Shape(tp, s)
    ensures c in s.tierCpus[k] <==> RunsTier(s, c, k)
    ensures forall j: Tier :: c in s.tierCpus[k] && c in s.tierCpus[j] ==> j == k
    ensures RunsTier(s, c, k) ==> s.mailbox[c].tier == Some(k)
  {
    ReachableInv(cfg, tp, s);
    if c < |tp.llcOf| { assert CpuTrue(s, c); }
  }

  /** No interleaving loses or duplicates a task: every task is in at most one queue, local queue or CPU. */
  lemma EveryTaskInOnePlace(cfg: Config, tp: Topology, s: Sys, t: nat)
    requires cfg.Valid() && tp.Valid() && Reachable(cfg, tp, s)
    ensures Placed(s, t) <= 1
  {
    ReachableInv(cfg, tp, s);
  }

  /** A dispatch leaves the CPU's local queue as it was exactly when no LLC queue holds a task it may run. */
  lemma DispatchFindsWork(cfg: Config, tp: Topology, s: Sys, a: Act)
    requires cfg.Valid() && tp.Valid() && Reachable(cfg, tp, s) && Shape(tp, s)
    requires Enabled(tp, s, a) && a.Dispatch?
    ensures var s' := Next(cfg, tp, s, a);
            && (s'.local == s.local <==> forall l | 0 <= l < |s.queue| :: !Runnable(s.queue[l], a.cpu))
            && (s'.local != s.local ==> |s'.local[a.cpu]| == |s.local[a.cpu]| + 1)
  {
    ReachableInv(cfg, tp, s);
    DispatchComplete(s.queue, s.nonempty, tp.llcOf[a.cpu], a.row, a.cpu);
    var f := Stealing.Dispatch(s.queue, s.nonempty, tp.llcOf[a.cpu], a.row, a.cpu);
    if f.moved.Some? {
      assert |Next(cfg, tp, s, a).local[a.cpu]| == |s.local[a.cpu]| + 1;
    }
  }

  // ---- the preemption kick ----

  lemma MasksInLlc(cfg: Config, tp: Topology, s: Sys, l: nat, k: Tier)
    requires cfg.Valid() && tp.Valid() && Reachable(cfg, tp, s) && Shape(tp, s)
    ensures forall c: nat :: c in s.tierCpus[k] * tp.Members(l) <==> c in tp.Members(l) && RunsTier(s, c, k)
  {
    forall c: nat ensures c in s.tierCpus[k] <==> RunsTier(s, c, k) {
      MasksTellTheTruth(cfg, tp, s, c, k);
    }
  }

  /** A queued wakeup filed at T0 or T1 kicks the lowest-numbered CPU of its own LLC that is really running T3;
      failing that, T2; and none exactly when the LLC has neither. T0 and T1 CPUs are never hit. */
  lemma KickHitsTheRightCpu(cfg: Config, tp: Topology, s: Sys, l: nat, tier: Tier)
    requires cfg.Valid() && tp.Valid() && Reachable(cfg, tp, s) && Shape(tp, s)
    ensures match KickTarget(tp, s, l, tier)
            case None => tier > 1 || forall c | c in tp.Members(l) :: !RunsTier(s, c, 3) && !RunsTier(s, c, 2)
            case Some(v) =>
              && tier <= 1 && v in tp.Members(l)
              && (RunsTier(s, v, 3) || RunsTier(s, v, 2))
              && (RunsTier(s, v, 3) ==> forall c | c in tp.Members(l) && RunsTier(s, c, 3) :: v <= c)
              && (RunsTier(s, v, 2) ==>
                    forall c | c in tp.Members(l) :: !RunsTier(s, c, 3) && (RunsTier(s, c, 2) ==> v <= c))
  {
    MasksInLlc(cfg, tp, s, l, 3);
    MasksInLlc(cfg, tp, s, l, 2);
  }

  // ---- task lives ----

  /** What a run of the machine has been for one task: not yet known, or the priority it was allocated at and the
      task events since. */
  datatype Life = Unborn | Born(prio: nat, es: seq<Event>)

  function LifeOf(cfg: Config, tp: Topology, acts: seq<Act>, p: nat): Life
    requires cfg.Valid() && tp.Valid()
  {
    if acts == [] then Unborn
    else
      var (b, a) := (Play(cfg, tp, Boot(tp), Front(acts)), Last(acts));
      var before := LifeOf(cfg, tp, Front(acts), p);
      if !Enabled(tp, b, a) then before
      else if before.Born? && p in b.ctx then
        var e := EventOf(cfg, tp, b, a, p);
        if e.Some? then before.(es := before.es + [e.value]) else before
      else if a.Enable? && a.tid == p then Born(a.prio, [])
      else before
  }

  /** Every context in a reachable state is the result of its life, so whatever holds over task runs holds of it;
      and a task has a context exactly when it has a life. */
  lemma EveryContextHasALife(cfg: Config, tp: Topology, acts: seq<Act>, p: nat)
    requires cfg.Valid() && tp.Valid()
    ensures var s, life := Play(cfg, tp, Boot(tp), acts), LifeOf(cfg, tp, acts, p);
            && (p in s.ctx <==> life.Born?)
            && (life.Born? ==> p in s.ctx && s.ctx[p] == After(cfg, Alloc(cfg, life.prio), life.es))
  {
    if acts != [] {
      EveryContextHasALife(cfg, tp, Front(acts), p);
      var b, a, before := Play(cfg, tp, Boot(tp), Front(acts)), Last(acts), LifeOf(cfg, tp, Front(acts), p);
      if Enabled(tp, b, a) {
        if p in b.ctx {
          Projection(cfg, tp, b, a, p);
          var e := EventOf(cfg, tp, b, a, p);
          if e.Some? { assert Front(before.es + [e.value]) == before.es; }
        } else if p in Next(cfg, tp, b, a).ctx {
          NewContext(cfg, tp, b, a, p);
        }
      }
    }
  }

  /** A later state's life extends an earlier one's. */
  lemma {:induction false} LifeGrows(cfg: Config, tp: Topology, acts: seq<Act>, more: seq<Act>, p: nat)
    requires cfg.Valid() && tp.Valid() && LifeOf(cfg, tp, acts, p).Born?
    ensures var (a, b) := (LifeOf(cfg, tp, acts, p), LifeOf(cfg, tp, acts + more, p));
            b.Born? && b.prio == a.prio && a.es <= b.es
    decreases |more|
  {
    if more == [] {
      assert acts + more == acts;
    } else {
      assert Front(acts + more) == acts + Front(more);
      LifeGrows(cfg, tp, acts, Front(more), p);
      EveryContextHasALife(cfg, tp, acts + Front(more), p);
    }
  }

  /** What has happened to p since the run had got to `acts`. */
  function Since(cfg: Config, tp: Topology, acts: seq<Act>, more: seq<Act>, p: nat): seq<Event>
    requires cfg.Valid() && tp.Valid() && LifeOf(cfg, tp, acts, p).Born?
  {
    LifeGrows(cfg, tp, acts, more, p);
    LifeOf(cfg, tp, acts + more, p).es[|LifeOf(cfg, tp, acts, p).es|..]
  }

  lemma {:induction false} AfterAppend(cfg: Config, t: Task, es: seq<Event>, more: seq<Event>)
    requires cfg.Valid()
    ensures After(cfg, t, es + more) == After(cfg, After(cfg, t, es), more)
    decreases |more|
  {
    if more == [] {
      assert es + more == es;
    } else {
      assert Front(es + more) == es + Front(more) && Last(es + more) == Last(more);
      AfterAppend(cfg, t, es, Front(more));
    }
  }

  /** So the task theorems apply from any point of a machine run: the later context is the earlier one after what
      has happened since. */
  lemma LaterContext(cfg: Config, tp: Topology, acts: seq<Act>, more: seq<Act>, p: nat)
    requires cfg.Valid() && tp.Valid() && LifeOf(cfg, tp, acts, p).Born?
    ensures var (s, s') := (Play(cfg, tp, Boot(tp), acts), Play(cfg, tp, Boot(tp), acts + more));
            p in s.ctx && p in s'.ctx && s'.ctx[p] == After(cfg, s.ctx[p], Since(cfg, tp, acts, more, p))
            && TaskInvariant.Inv(cfg, s.ctx[p])
  {
    EveryContextHasALife(cfg, tp, acts, p);
    EveryContextHasALife(cfg, tp, acts + more, p);
    LifeGrows(cfg, tp, acts, more, p);
    var a := LifeOf(cfg, tp, acts, p);
    assert LifeOf(cfg, tp, acts + more, p).es == a.es + Since(cfg, tp, acts, more, p);
    AfterAppend(cfg, Alloc(cfg, a.prio), a.es, Since(cfg, tp, acts, more, p));
    TaskInvariant.AllocInv(cfg, a.prio);
    TaskInvariant.AfterKeepsInv(cfg, Alloc(cfg, a.prio), a.es);
  }

  /** Convergence inside the machine: whatever every other task, CPU and callback does meanwhile, a task that since
      some state has completed 210 bursts all sampled at 8000 us or more, with no recovery, is in T3. */
  lemma BulkTaskSettles(cfg: Config, tp: Topology, acts: seq<Act>, more: seq<Act>, p: nat)
    requires cfg.Valid() && tp.Valid() && LifeOf(cfg, tp, acts, p).Born?
    requires p in Play(cfg, tp, Boot(tp), acts).ctx
    requires var (t, es) := (Play(cfg, tp, Boot(tp), acts).ctx[p], Since(cfg, tp, acts, more, p));
             && TaskRuns.Quiet(cfg, t, es) && TaskRuns.BurstsAtLeast(cfg, t, es, GATE_T2)
             && TaskRuns.Bursts(cfg, t, es) >= 210
    ensures p in Play(cfg, tp, Boot(tp), acts + more).ctx
    ensures Play(cfg, tp, Boot(tp), acts + more).ctx[p].tier == 3
  {
    LaterContext(cfg, tp, acts, more, p);
    TaskRuns.BulkSettles(cfg, Play(cfg, tp, Boot(tp), acts).ctx[p], Since(cfg, tp, acts, more, p));
  }

  /** And a task that since some state has completed 66 bursts, all sampled below 88 us, with no recovery, is in T0. */
  lemma CriticalTaskSettles(cfg: Config, tp: Topology, acts: seq<Act>, more: seq<Act>, p: nat)
    requires cfg.Valid() && tp.Valid() && LifeOf(cfg, tp, acts, p).Born?
    requires p in Play(cfg, tp, Boot(tp), acts).ctx
    requires var (t, es) := (Play(cfg, tp, Boot(tp), acts).ctx[p], Since(cfg, tp, acts, more, p));
             && TaskRuns.Quiet(cfg, t, es) && TaskRuns.BurstsBelow(cfg, t, es, 88)
             && TaskRuns.Bursts(cfg, t, es) >= 66
    ensures p in Play(cfg, tp, Boot(tp), acts + more).ctx
    ensures Play(cfg, tp, Boot(tp), acts + more).ctx[p].tier == 0
  {
    LaterContext(cfg, tp, acts, more, p);
    TaskRuns.CriticalSettles(cfg, Play(cfg, tp, Boot(tp), acts).ctx[p], Since(cfg, tp, acts, more, p));
  }

  // ---- for building runs ----

  lemma PlayMore(cfg: Config, tp: Topology, s: Sys, acts: seq<Act>, a: Act)
    requires cfg.Valid() && tp.Valid() && Shape(tp, s)
    ensures Play(cfg, tp, s, acts + [a]) == Do(cfg, tp, Play(cfg, tp, s, acts), a)
  {
    assert Front(acts + [a]) == acts;
  }

  lemma NobodyWaits(tp: Topology, t: nat)
    requires tp.Valid()
    ensures Placed(Boot(tp), t) == 0
  {
    NobodyHome(QueueLists(Boot(tp).queue), t);
    NobodyHome(Boot(tp).local, t);
    NobodyHome(CpuLists(Boot(tp).running), t);
  }

  lemma OneQueued(b: Sys, t: nat)
    requires |b.queue| == 1 && |b.queue[0]| == 1 && b.queue[0][0].tid != t
    requires |b.local| == |b.running| == 1 && b.local[0] == [] && b.running[0] == None
    ensures Placed(b, t) == 0
  {
    assert Names(b.queue[0]) == [b.queue[0][0].tid];
    assert QueueLists(b.queue)[0] == [b.queue[0][0].tid];
    assert CpuLists(b.running)[0] == [];
    OneList(QueueLists(b.queue), t);
    OneList(b.local, t);
    OneList(CpuLists(b.running), t);
  }

  lemma OneList(qs: seq<seq<nat>>, t: nat)
    requires |qs| == 1
    ensures Total(qs, t) == multiset(qs[0])[t]
  {
    assert qs[1..] == [];
  }

  /** A new task is dispatched to an idle CPU. */
  function FreshTask(prio: nat): seq<Act> {
    [] + [Enable(1, prio)] + [SelectIdle(1, 0)]
  }

  lemma FreshPlaced(cfg: Config, tp: Topology, prio: nat)
    requires cfg.Valid() && tp == Topology([0], 1)
    ensures var s := Play(cfg, tp, Boot(tp), FreshTask(prio));
            && s.local == [[1]] && s.queue == [[]] && s.running == [None] && s.mailbox == [Mailbox(None, 0)]
            && s.tierCpus == [{}, {}, {}, {}] && s.ctx.Keys == {1} && s.ctx[1] == Alloc(cfg, prio)
  {
    var b, t := Boot(tp), Alloc(cfg, prio);
    NobodyWaits(tp, 1);
    var s1 := b.(ctx := map[1 := t]);
    PlayMore(cfg, tp, b, [], Enable(1, prio));
    assert Do(cfg, tp, b, Enable(1, prio)) == s1;
    assert Placed(s1, 1) == 0;
    PlayMore(cfg, tp, b, [] + [Enable(1, prio)], SelectIdle(1, 0));
    assert s1.local[0] + [1] == [1];
    assert DirectWake(t) == t;
  }

  lemma FreshRunning(cfg: Config, tp: Topology, prio: nat, now: nat)
    requires cfg.Valid() && tp == Topology([0], 1)
    ensures var s := Play(cfg, tp, Boot(tp), FreshTask(prio) + [Act.Run(0, now)]);
            && s.running == [Some(1)] && 1 in s.ctx && s.ctx[1] == TaskModel.Running(Alloc(cfg, prio), now)
            && forall k | 0 <= k < 4 :: s.tierCpus[k] == if k == InitTier(prio) then {0} else {}
  {
    FreshPlaced(cfg, tp, prio);
    PlayMore(cfg, tp, Boot(tp), FreshTask(prio), Act.Run(0, now));
  }

  /** What the nonzero-stamp assumption keeps out, in a reachable run: a task started and stopped leaves its idle CPU
      in a tier mask if and only if it was started at a time that truncates to zero. */
  lemma ZeroStampLeavesTheBit(cfg: Config, tp: Topology, prio: nat, now: nat, later: nat, runnable: bool)
    requires cfg.Valid() && tp == Topology([0], 1)
    ensures var s := Play(cfg, tp, Boot(tp), FreshTask(prio) + [Act.Run(0, now)] + [Act.Stop(0, later, runnable)]);
            && s.running == [None]
            && (0 in s.tierCpus[InitTier(prio)] <==> now % U32 == 0)
            && (CpuTrue(s, 0) <==> now % U32 != 0)
  {
    var acts, stop := FreshTask(prio) + [Act.Run(0, now)], Act.Stop(0, later, runnable);
    FreshRunning(cfg, tp, prio, now);
    PlayMore(cfg, tp, Boot(tp), acts, stop);
    StopNeedsStamp(cfg, tp, Play(cfg, tp, Boot(tp), acts), stop);
  }
}
