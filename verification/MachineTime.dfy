/** Tasks of the machine against true CPU time: what the kernel does with its CPUs makes every task's events a legal
    schedule, so what is proved of schedules holds of every task in every interleaving. */
module MachineTime {
  import opened TierConfig
  import opened TaskModel
  import opened Machine
  import opened MachineInvariant
  import opened MachineRuns
  import opened TrueTime
  import TaskRuns
  import TaskSleep

  /** On every CPU a task is stopped no earlier than a task was started there before. */
  predicate ClocksAdvance(acts: seq<Act>) {
    forall i, j | 0 <= i < j < |acts| && acts[i].Run? && acts[j].Stop? && acts[i].cpu == acts[j].cpu ::
      acts[i].now <= acts[j].now
  }

  predicate OnSomeCpu(s: Sys, p: nat) {
    exists c :: 0 <= c < |s.running| && s.running[c] == Some(p)
  }

  /** A stop that comes after every start there has been on its CPU. */
  predicate AfterStarts(acts: seq<Act>, a: Act) {
    a.Stop? ==> forall i | 0 <= i < |acts| && acts[i].Run? && acts[i].cpu == a.cpu :: acts[i].now <= a.now
  }

  /** The watch runs exactly while the task is on some CPU, and since the time it was started on that one. */
  predicate Tracks(s: Sys, acts: seq<Act>, p: nat, w: Watch) {
    && (w.since.Some? <==> OnSomeCpu(s, p))
    && (forall c: nat | c < |s.running| && s.running[c] == Some(p) ::
          w.since.Some? && Act.Run(c, w.since.value) in acts)
  }

  function Ticking(w: Watch, e: Option<Event>): Watch {
    if e.Some? then Clock(w, e.value) else w
  }

  lemma RunTracks(cfg: Config, tp: Topology, s: Sys, acts: seq<Act>, a: Act, p: nat, w: Watch)
    requires cfg.Valid() && tp.Valid() && Inv(cfg, tp, s) && Enabled(tp, s, a) && p in s.ctx
    requires a.Run? && Stamps(a) && Tracks(s, acts, p, w)
    ensures var e := EventOf(cfg, tp, s, a, p);
            (e.Some? ==> Legal(w, e.value)) && Tracks(DoRun(tp, s, a), acts + [a], p, Ticking(w, e))
  {
    var s' := DoRun(tp, s, a);
    forall d: nat | d < |s.running| ensures s.running[d] != Some(s.local[a.cpu][0]) {
      LocalNotRunning(s, a.cpu, d);
    }
    if s.local[a.cpu][0] == p { assert s'.running[a.cpu] == Some(p); }
    else if c: nat :| c < |s.running| && s.running[c] == Some(p) { assert s'.running[c] == Some(p); }
  }

  lemma StopTracks(cfg: Config, tp: Topology, s: Sys, acts: seq<Act>, a: Act, p: nat, w: Watch)
    requires cfg.Valid() && tp.Valid() && Inv(cfg, tp, s) && Enabled(tp, s, a) && p in s.ctx
    requires a.Stop? && Tracks(s, acts, p, w) && AfterStarts(acts, a)
    ensures var e := EventOf(cfg, tp, s, a, p);
            (e.Some? ==> Legal(w, e.value)) && Tracks(DoStop(cfg, tp, s, a), acts + [a], p, Ticking(w, e))
  {
    var s' := DoStop(cfg, tp, s, a);
    forall d: nat | d < |s.running| && d != a.cpu ensures s.running[d] != s.running[a.cpu] {
      RunningOnce(s, a.cpu, d, s.running[a.cpu].value);
    }
    if s.running[a.cpu] != Some(p) {
      if c: nat :| c < |s.running| && s.running[c] == Some(p) { assert s'.running[c] == Some(p); }
    }
  }

  lemma RunningKept(cfg: Config, tp: Topology, s: Sys, a: Act)
    requires cfg.Valid() && tp.Valid() && Shape(tp, s) && Enabled(tp, s, a) && !a.Run? && !a.Stop?
    ensures Next(cfg, tp, s, a).running == s.running
  {
  }

  lemma OtherEvent(cfg: Config, tp: Topology, s: Sys, a: Act, p: nat, w: Watch)
    requires cfg.Valid() && tp.Valid() && Shape(tp, s) && Enabled(tp, s, a) && p in s.ctx && !a.Run? && !a.Stop?
    ensures var e := EventOf(cfg, tp, s, a, p);
            Ticking(w, e) == w && (e.Some? && e.value.Tick? ==> a.Tick? && s.running[a.cpu] == Some(p))
            && (e.Some? ==> !e.value.Run? && !e.value.Stop?)
  {
  }

  lemma StepTracks(cfg: Config, tp: Topology, s: Sys, acts: seq<Act>, a: Act, p: nat, w: Watch)
    requires cfg.Valid() && tp.Valid() && Inv(cfg, tp, s) && Enabled(tp, s, a) && p in s.ctx
    requires Stamps(a) && Tracks(s, acts, p, w) && AfterStarts(acts, a)
    ensures var e := EventOf(cfg, tp, s, a, p);
            (e.Some? ==> Legal(w, e.value)) && Tracks(Next(cfg, tp, s, a), acts + [a], p, Ticking(w, e))
  {
    match a
    case Run(_, _) => RunTracks(cfg, tp, s, acts, a, p, w);
    case Stop(_, _, _) => StopTracks(cfg, tp, s, acts, a, p, w);
    case _ =>
      RunningKept(cfg, tp, s, a);
      OtherEvent(cfg, tp, s, a, p, w);
  }

  lemma BornOffCpu(s: Sys, acts: seq<Act>, s': Sys, p: nat)
    requires Placed(s, p) == 0 && s'.running == s.running
    ensures Tracks(s', acts, p, IDLE)
  {
    forall c: nat | c < |s.running| ensures s.running[c] != Some(p) { UnplacedNotRunning(s, c, p); }
  }

  lemma EarlierStarts(acts: seq<Act>)
    requires acts != [] && ClocksAdvance(acts)
    ensures ClocksAdvance(Front(acts)) && AfterStarts(Front(acts), Last(acts))
  {
  }

  /** In every run of the machine, with every other task, CPU and callback interleaved as they may be, the events of a
      task are a legal schedule, and its watch runs exactly while it is on a CPU. */
  lemma {:induction false} LifeIsScheduled(cfg: Config, tp: Topology, acts: seq<Act>, p: nat)
    requires cfg.Valid() && tp.Valid() && AllStamp(acts) && ClocksAdvance(acts) && LifeOf(cfg, tp, acts, p).Born?
    ensures var es := LifeOf(cfg, tp, acts, p).es;
            Scheduled(IDLE, es) && Tracks(Play(cfg, tp, Boot(tp), acts), acts, p, Clocked(IDLE, es))
    decreases |acts|
  {
    var b, a, before := Play(cfg, tp, Boot(tp), Front(acts)), Last(acts), LifeOf(cfg, tp, Front(acts), p);
    BootInv(cfg, tp);
    PlayKeepsInv(cfg, tp, Boot(tp), Front(acts));
    EveryContextHasALife(cfg, tp, Front(acts), p);
    assert acts == Front(acts) + [a];
    EarlierStarts(acts);
    if before.Born? {
      assert forall i | 0 <= i < |Front(acts)| :: Front(acts)[i] == acts[i];
      LifeIsScheduled(cfg, tp, Front(acts), p);
      if Enabled(tp, b, a) {
        StepTracks(cfg, tp, b, Front(acts), a, p, Clocked(IDLE, before.es));
        var e := EventOf(cfg, tp, b, a, p);
        if e.Some? { assert Front(before.es + [e.value]) == before.es; }
      }
    } else {
      BornOffCpu(b, acts, Next(cfg, tp, b, a), p);
    }
  }

  // ---- convergence ----

  lemma {:induction false} Resume(w: Watch, es: seq<Event>, more: seq<Event>)
    requires Scheduled(w, es + more)
    ensures Scheduled(w, es) && Scheduled(Clocked(w, es), more)
    ensures Clocked(w, es + more) == Clocked(Clocked(w, es), more)
    decreases |more|
  {
    if more == [] {
      assert es + more == es;
    } else {
      assert Front(es + more) == es + Front(more) && Last(es + more) == Last(more);
      Resume(w, es, Front(more));
    }
  }

  /** The stopwatch on task p when the run has got to `acts`. */
  function WatchOf(cfg: Config, tp: Topology, acts: seq<Act>, p: nat): Watch
    requires cfg.Valid() && tp.Valid() && LifeOf(cfg, tp, acts, p).Born?
  {
    Clocked(IDLE, LifeOf(cfg, tp, acts, p).es)
  }

  /** What has happened to p since is a legal schedule from where its watch stood. */
  lemma SinceIsScheduled(cfg: Config, tp: Topology, acts: seq<Act>, more: seq<Act>, p: nat)
    requires cfg.Valid() && tp.Valid() && AllStamp(acts + more) && ClocksAdvance(acts + more)
    requires LifeOf(cfg, tp, acts, p).Born?
    ensures Scheduled(IDLE, LifeOf(cfg, tp, acts, p).es)
    ensures Scheduled(WatchOf(cfg, tp, acts, p), Since(cfg, tp, acts, more, p))
  {
    LifeGrows(cfg, tp, acts, more, p);
    LifeIsScheduled(cfg, tp, acts + more, p);
    var es := LifeOf(cfg, tp, acts, p).es;
    assert LifeOf(cfg, tp, acts + more, p).es == es + Since(cfg, tp, acts, more, p);
    Resume(IDLE, es, Since(cfg, tp, acts, more, p));
  }

  /** Convergence inside the machine, in true time: whatever every other task, CPU and callback does meanwhile, a task
      that since some state has completed 210 bursts, each of readable bouts and at least 8000 units plus the bouts'
      possible remainders by the stopwatch, with no recovery, is in T3. */
  lemma BulkTaskSettlesInTrueTime(cfg: Config, tp: Topology, acts: seq<Act>, more: seq<Act>, p: nat)
    requires cfg.Valid() && tp.Valid() && AllStamp(acts + more) && ClocksAdvance(acts + more)
    requires LifeOf(cfg, tp, acts, p).Born? && p in Play(cfg, tp, Boot(tp), acts).ctx
    requires var es := Since(cfg, tp, acts, more, p);
             && TaskRuns.Quiet(cfg, Play(cfg, tp, Boot(tp), acts).ctx[p], es)
             && LongBursts(WatchOf(cfg, tp, acts, p), es, GATE_T2) && Blocks(es) >= 210
    ensures p in Play(cfg, tp, Boot(tp), acts + more).ctx
    ensures Play(cfg, tp, Boot(tp), acts + more).ctx[p].tier == 3
  {
    var life := LifeOf(cfg, tp, acts, p);
    SinceIsScheduled(cfg, tp, acts, more, p);
    LaterContext(cfg, tp, acts, more, p);
    EveryContextHasALife(cfg, tp, acts, p);
    BulkConvergesInTrueTime(cfg, life.prio, life.es, Since(cfg, tp, acts, more, p));
  }

  /** And one that has completed 66 bursts, with every burst shorter than 88 units by the stopwatch, is in T0. */
  lemma CriticalTaskSettlesInTrueTime(cfg: Config, tp: Topology, acts: seq<Act>, more: seq<Act>, p: nat)
    requires cfg.Valid() && tp.Valid() && AllStamp(acts + more) && ClocksAdvance(acts + more)
    requires LifeOf(cfg, tp, acts, p).Born? && p in Play(cfg, tp, Boot(tp), acts).ctx
    requires var es := Since(cfg, tp, acts, more, p);
             && TaskRuns.Quiet(cfg, Play(cfg, tp, Boot(tp), acts).ctx[p], es)
             && ShortBursts(WatchOf(cfg, tp, acts, p), es, 88) && Blocks(es) >= 66
    ensures p in Play(cfg, tp, Boot(tp), acts + more).ctx
    ensures Play(cfg, tp, Boot(tp), acts + more).ctx[p].tier == 0
  {
    var life := LifeOf(cfg, tp, acts, p);
    SinceIsScheduled(cfg, tp, acts, more, p);
    LaterContext(cfg, tp, acts, more, p);
    EveryContextHasALife(cfg, tp, acts, p);
    CriticalConvergesInTrueTime(cfg, life.prio, life.es, Since(cfg, tp, acts, more, p));
  }

  // ---- recovery ----

  /** Act k of the run took p off the CPU it was on, blocked or not. */
  predicate StopsTask(cfg: Config, tp: Topology, acts: seq<Act>, k: nat, p: nat, now: nat, runnable: bool)
    requires cfg.Valid() && tp.Valid()
  {
    && k < |acts|
    && acts[k].Stop? && acts[k].now == now && acts[k].runnable == runnable
    && Enabled(tp, Play(cfg, tp, Boot(tp), acts[..k]), acts[k])
    && Play(cfg, tp, Boot(tp), acts[..k]).running[acts[k].cpu] == Some(p)
  }

  /** Every stop in a task's life is a stop the machine made, of that task, at that time. */
  lemma {:induction false} StopsAreActs(cfg: Config, tp: Topology, acts: seq<Act>, p: nat, i: nat) returns (k: nat)
    requires cfg.Valid() && tp.Valid() && LifeOf(cfg, tp, acts, p).Born?
    requires i < |LifeOf(cfg, tp, acts, p).es| && LifeOf(cfg, tp, acts, p).es[i].Stop?
    ensures var e := LifeOf(cfg, tp, acts, p).es[i]; StopsTask(cfg, tp, acts, k, p, e.now, e.runnable)
    decreases |acts|
  {
    var b, a, before := Play(cfg, tp, Boot(tp), Front(acts)), Last(acts), LifeOf(cfg, tp, Front(acts), p);
    EveryContextHasALife(cfg, tp, Front(acts), p);
    assert acts[..|acts| - 1] == Front(acts);
    if before.Born? && i < |before.es| {
      k := StopsAreActs(cfg, tp, Front(acts), p, i);
      assert Front(acts)[..k] == acts[..k];
    } else {
      k := |acts| - 1;
    }
  }

  /** Genuine recovery in every run of the machine: if a queued wakeup made now recovers task p, then the machine did
      stop p, blocked, more than 500 ms ago, and p has neither been stopped nor been woken through a queue since. */
  lemma TaskRecoveryIsGenuine(cfg: Config, tp: Topology, acts: seq<Act>, p: nat, now: nat)
    requires cfg.Valid() && tp.Valid() && p in Play(cfg, tp, Boot(tp), acts).ctx
    requires forall k | 0 <= k < |acts| && acts[k].Stop? :: acts[k].now <= now
    ensures LifeOf(cfg, tp, acts, p).Born?
    ensures var (t, life) := (Play(cfg, tp, Boot(tp), acts).ctx[p], LifeOf(cfg, tp, acts, p));
            && (Recovers(t, now) ==>
                  exists i, k: nat :: TaskSleep.Asleep(cfg, Alloc(cfg, life.prio), life.es, i)
                    && StopsTask(cfg, tp, acts, k, p, life.es[i].now, false) && now - acts[k].now > SLEEP_NS)
            && (forall i ::
                  TaskSleep.Asleep(cfg, Alloc(cfg, life.prio), life.es, i) &&
                  life.es[i].now % U32 != 0 && now - life.es[i].now < U32 ==>
                    (Recovers(t, now) <==> now - life.es[i].now > SLEEP_NS))
  {
    EveryContextHasALife(cfg, tp, acts, p);
    var life := LifeOf(cfg, tp, acts, p);
    forall i | 0 <= i < |life.es| && life.es[i].Stop? ensures life.es[i].now <= now {
      var k := StopsAreActs(cfg, tp, acts, p, i);
    }
    TaskSleep.RecoveryIsGenuine(cfg, life.prio, life.es, now);
    if Recovers(Play(cfg, tp, Boot(tp), acts).ctx[p], now) {
      var i :| TaskSleep.Asleep(cfg, Alloc(cfg, life.prio), life.es, i) && now - life.es[i].now > SLEEP_NS;
      var k := StopsAreActs(cfg, tp, acts, p, i);
      assert StopsTask(cfg, tp, acts, k, p, life.es[i].now, false);
    }
  }

  lemma WakeIsAWake(cfg: Config, tp: Topology, s: Sys, wake: Act)
    requires cfg.Valid() && tp.Valid() && Shape(tp, s) && Enabled(tp, s, wake)
    requires wake.Enqueue? && wake.wakeup && wake.tid in s.ctx
    ensures wake.tid in Next(cfg, tp, s, wake).ctx
    ensures Next(cfg, tp, s, wake).ctx[wake.tid] == Step(cfg, s.ctx[wake.tid], Event.WakeQueued(wake.now))
  {
    Projection(cfg, tp, s, wake, wake.tid);
  }

  /** And what it does there: in every run, a queued wakeup of a task asleep for more than 500 ms, read modulo 2^32 ns,
      moves its average half way to its tier's midpoint, and every other queued wakeup leaves it alone. */
  lemma WakeMovesAverage(cfg: Config, tp: Topology, acts: seq<Act>, wake: Act)
    requires cfg.Valid() && tp.Valid() && wake.Enqueue? && wake.wakeup
    requires var s := Play(cfg, tp, Boot(tp), acts); Enabled(tp, s, wake) && wake.tid in s.ctx
    requires forall k | 0 <= k < |acts| && acts[k].Stop? :: acts[k].now <= wake.now
    ensures var s', life := Next(cfg, tp, Play(cfg, tp, Boot(tp), acts), wake), LifeOf(cfg, tp, acts, wake.tid);
            && life.Born? && wake.tid in s'.ctx
            && var t := Play(cfg, tp, Boot(tp), acts).ctx[wake.tid];
               s'.ctx[wake.tid].avg == if TaskSleep.LongAsleep(cfg, Alloc(cfg, life.prio), life.es, wake.now) then
                                         TaskSleep.Halfway(t)
                                       else t.avg
  {
    var s, life := Play(cfg, tp, Boot(tp), acts), LifeOf(cfg, tp, acts, wake.tid);
    EveryContextHasALife(cfg, tp, acts, wake.tid);
    forall i | 0 <= i < |life.es| && life.es[i].Stop? ensures life.es[i].now <= wake.now {
      var k := StopsAreActs(cfg, tp, acts, wake.tid, i);
    }
    TaskSleep.RecoveryMoves(cfg, life.prio, life.es, wake.now);
    WakeIsAWake(cfg, tp, s, wake);
  }
}
