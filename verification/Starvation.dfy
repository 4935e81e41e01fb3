/** The starvation branch of imperator_tick: where it is dead, where it is live, and in which configurations. */
module Starvation {
  import opened TierConfig
  import opened TaskModel
  import opened DeadlineQueue
  import opened Machine
  import opened MachineInvariant
  import opened MachineRuns
  import MachineTime
  import TaskInvariant
  import TaskRuns

  // ---- the cached slice ----

  /** Once a task has been stopped by an acting stop, its cached slice is its tier's in every later state. */
  lemma SliceCoherentFromFirstStop(cfg: Config, tp: Topology, s: Sys, a: Act, later: seq<Act>)
    requires cfg.Valid() && tp.Valid() && Reachable(cfg, tp, s) && Shape(tp, s) && Enabled(tp, s, a) && a.Stop?
    requires s.running[a.cpu].value in s.ctx
    ensures var p := s.running[a.cpu].value;
            var s' := Play(cfg, tp, Do(cfg, tp, s, a), later);
            p in s'.ctx && TaskInvariant.Inv(cfg, s'.ctx[p]) && TaskInvariant.Coherent(cfg, s'.ctx[p])
  {
    ReachableInv(cfg, tp, s);
    var p := s.running[a.cpu].value;
    var s1 := Do(cfg, tp, s, a);
    if later == [] {
      assert CpuTrue(s, a.cpu);
      Projection(cfg, tp, s, a, p);
      TaskInvariant.StepKeepsInv(cfg, s.ctx[p], EventOf(cfg, tp, s, a, p).value);
      TaskInvariant.StepKeepsCoherent(cfg, s.ctx[p], EventOf(cfg, tp, s, a, p).value);
    } else {
      SliceCoherentFromFirstStop(cfg, tp, s, a, Front(later));
      var b := Play(cfg, tp, s1, Front(later));
      if Enabled(tp, b, Last(later)) {
        Projection(cfg, tp, b, Last(later), p);
        var e := EventOf(cfg, tp, b, Last(later), p);
        if e.Some? {
          TaskInvariant.StepKeepsInv(cfg, b.ctx[p], e.value);
          TaskInvariant.StepKeepsCoherent(cfg, b.ctx[p], e.value);
        }
      }
    }
  }

  lemma CountZero(tp: Topology, qs: seq<seq<Entry>>, from: nat, c: nat)
    requires c < |tp.llcOf|
    requires forall i | 0 <= i < |qs| :: AtHome(tp, qs[i], from + i) && (from + i == tp.llcOf[c] ==> qs[i] == [])
    ensures CountQueues(qs, c) == 0
  {
    if qs != [] {
      NoneHere(tp, qs[0], from, c);
      assert forall i | 0 <= i < |qs[1..]| :: qs[1..][i] == qs[i + 1];
      CountZero(tp, qs[1..], from + 1, c);
    }
  }

  lemma NoneHere(tp: Topology, q: seq<Entry>, l: nat, c: nat)
    requires c < |tp.llcOf| && AtHome(tp, q, l) && (l == tp.llcOf[c] ==> q == [])
    ensures CountCpu(q, c) == 0
  {
    if q != [] {
      assert q[0].taskCpu != c;
      assert forall i | 0 <= i < |q[1..]| :: q[1..][i] == q[i + 1];
      NoneHere(tp, q[1..], l, c);
    }
  }

  /** If nr_running exceeds one, the slice check sees the queued task: queues are keyed by the LLC of task_cpu. */
  lemma ContentionIsVisible(cfg: Config, tp: Topology, s: Sys, c: nat)
    requires cfg.Valid() && tp.Valid() && Inv(cfg, tp, s) && c < |tp.llcOf|
    ensures NrRunning(s, c) > 1 ==> Waiting(tp, s, c)
  {
    if !Waiting(tp, s, c) { CountZero(tp, s.queue, 0, c); }
  }

  /** While the cached slice is within the tier's budget, the slice check comes first: a tick neither kicks for
      starvation nor touches the lock-skip count. */
  lemma NoStarvationKick(cfg: Config, tp: Topology, s: Sys, a: Act)
    requires cfg.Valid() && tp.Valid() && Inv(cfg, tp, s) && Enabled(tp, s, a) && a.Tick?
    requires var p := s.running[a.cpu].value; p in s.ctx ==> s.ctx[p].nextSlice <= cfg.Budget(s.ctx[p].tier)
    ensures TickVerdict(cfg, tp, s, a) != StarvationKick
    ensures var p := s.running[a.cpu].value;
            p in s.ctx ==> p in Next(cfg, tp, s, a).ctx && Next(cfg, tp, s, a).ctx[p].lockSkip == s.ctx[p].lockSkip
  {
    ContentionIsVisible(cfg, tp, s, a.cpu);
  }

  /** The starvation kick or the lock-holder skip, at this tick. */
  predicate StarvationBranch(cfg: Config, tp: Topology, s: Sys, tick: Act)
    requires cfg.Valid() && tp.Valid() && Shape(tp, s) && Enabled(tp, s, tick) && tick.Tick?
  {
    var p := s.running[tick.cpu].value;
    || TickVerdict(cfg, tp, s, tick) == StarvationKick
    || (p in s.ctx && p in Next(cfg, tp, s, tick).ctx
        && Next(cfg, tp, s, tick).ctx[p].lockSkip != s.ctx[p].lockSkip)
  }

  /** A tick of a run that comes after a stop of the same task and finds it in tier t. */
  predicate TickAfterStop(cfg: Config, tp: Topology, s: Sys, stop: Act, later: seq<Act>, tick: Act, t: Tier)
    requires cfg.Valid() && tp.Valid() && Shape(tp, s)
  {
    && Enabled(tp, s, stop) && stop.Stop? && s.running[stop.cpu].value in s.ctx && AllStamp(later)
    && var s' := Play(cfg, tp, Do(cfg, tp, s, stop), later);
       && Enabled(tp, s', tick) && tick.Tick? && s'.running[tick.cpu] == s.running[stop.cpu]
       && s'.running[tick.cpu].value in s'.ctx && s'.ctx[s'.running[tick.cpu].value].tier == t
  }

  /** A tier in which the branch can be taken: its slice outlasts its budget, and the 32-bit runtime can show that. */
  predicate Exposed(cfg: Config, t: Tier)
    requires cfg.Valid()
  {
    cfg.Budget(t) < cfg.Slice(t) && cfg.Budget(t) + 1 < U32
  }

  /** The branch needs a runtime above the budget and within the slice. */
  lemma BranchNeedsRoom(cfg: Config, tp: Topology, s: Sys, a: Act)
    requires cfg.Valid() && tp.Valid() && Inv(cfg, tp, s) && Enabled(tp, s, a) && a.Tick?
    requires StarvationBranch(cfg, tp, s, a)
    ensures var p := s.running[a.cpu].value;
            p in s.ctx && cfg.Budget(s.ctx[p].tier) < s.ctx[p].nextSlice && cfg.Budget(s.ctx[p].tier) + 1 < U32
  {
    ContentionIsVisible(cfg, tp, s, a.cpu);
  }

  lemma BranchNeedsExposure(cfg: Config, tp: Topology, s: Sys, stop: Act, later: seq<Act>, tick: Act, t: Tier)
    requires cfg.Valid() && tp.Valid() && Reachable(cfg, tp, s) && Shape(tp, s)
    requires TickAfterStop(cfg, tp, s, stop, later, tick, t)
    requires StarvationBranch(cfg, tp, Play(cfg, tp, Do(cfg, tp, s, stop), later), tick)
    ensures Exposed(cfg, t)
  {
    var s1 := Do(cfg, tp, s, stop);
    ReachableInv(cfg, tp, s);
    NextKeepsInv(cfg, tp, s, stop);
    PlayKeepsInv(cfg, tp, s1, later);
    SliceCoherentFromFirstStop(cfg, tp, s, stop, later);
    BranchNeedsRoom(cfg, tp, Play(cfg, tp, s1, later), tick);
  }

  /** A dead branch, in every run of every configuration whose slices fit its budgets: once a task has been stopped,
      no later tick kicks it for starvation or counts a skip, whatever else the machine does in between. */
  lemma StarvationKickIsDead(cfg: Config, tp: Topology, s: Sys, stop: Act, later: seq<Act>, tick: Act, t: Tier)
    requires cfg.Valid() && tp.Valid() && SlicesFit(cfg) && Reachable(cfg, tp, s) && Shape(tp, s)
    requires TickAfterStop(cfg, tp, s, stop, later, tick, t)
    ensures !StarvationBranch(cfg, tp, Play(cfg, tp, Do(cfg, tp, s, stop), later), tick)
  {
    if StarvationBranch(cfg, tp, Play(cfg, tp, Do(cfg, tp, s, stop), later), tick) {
      BranchNeedsExposure(cfg, tp, s, stop, later, tick, t);
    }
  }

  /** In the unmodified profiles, and in every reachable state, that branch is left only to a task that has never
      been stopped, was allocated at negative nice, and runs under a profile other than Esports. */
  lemma StarvationBranchIsFresh(profile: Profile, tp: Topology, acts: seq<Act>, tick: Act)
    requires tp.Valid() && AllStamp(acts)
    requires Enabled(tp, Play(Loaded(profile, None, None, None), tp, Boot(tp), acts), tick) && tick.Tick?
    requires StarvationBranch(Loaded(profile, None, None, None), tp,
                              Play(Loaded(profile, None, None, None), tp, Boot(tp), acts), tick)
    ensures var cfg := Loaded(profile, None, None, None);
            var p := Play(cfg, tp, Boot(tp), acts).running[tick.cpu].value;
            var life := LifeOf(cfg, tp, acts, p);
            && life.Born? && !TaskInvariant.HasStopped(cfg, Alloc(cfg, life.prio), life.es)
            && life.prio < 120 && !profile.Esports?
  {
    var cfg := Loaded(profile, None, None, None);
    var s := Play(cfg, tp, Boot(tp), acts);
    var p := s.running[tick.cpu].value;
    var life := LifeOf(cfg, tp, acts, p);
    BootInv(cfg, tp);
    PlayKeepsInv(cfg, tp, Boot(tp), acts);
    EveryContextHasALife(cfg, tp, acts, p);
    if life.Born? { SliceWithinBudget(profile, life.prio, life.es); }
    if life.Unborn? || s.ctx[p].nextSlice <= cfg.Budget(s.ctx[p].tier) { NoStarvationKick(cfg, tp, s, tick); }
  }

  lemma SliceWithinBudget(profile: Profile, prio: nat, es: seq<Event>)
    ensures var cfg := Loaded(profile, None, None, None);
            var t := After(cfg, Alloc(cfg, prio), es);
            TaskInvariant.HasStopped(cfg, Alloc(cfg, prio), es) || prio >= 120 || profile.Esports? ==>
              t.nextSlice <= cfg.Budget(t.tier)
  {
    var cfg := Loaded(profile, None, None, None);
    if TaskInvariant.HasStopped(cfg, Alloc(cfg, prio), es) {
      TaskInvariant.SliceStaysCoherent(cfg, prio, es);
      ProfileSlicesFit(profile);
    } else {
      TaskInvariant.UnstoppedIsFresh(cfg, Alloc(cfg, prio), es);
      TaskInvariant.FirstBoutSlice(profile, prio);
    }
  }

  // ---- runs in which the starvation kick does happen ----

  /** It is started at time 1. */
  function FreshStart(prio: nat): seq<Act> {
    FreshTask(prio) + [Act.Run(0, 1)]
  }

  /** Task 1 alone on the machine's one CPU, with nothing ticked yet. */
  predicate Alone(s: Sys, t: Task) {
    && s.local == [[]] && s.queue == [[]] && s.running == [Some(1)] && |s.mailbox| == 1 && s.mailbox[0].ticks == 0
    && s.ctx.Keys == {1} && s.ctx[1] == t
  }

  lemma FreshStarted(cfg: Config, tp: Topology, prio: nat)
    requires cfg.Valid() && tp == Topology([0], 1)
    ensures Alone(Play(cfg, tp, Boot(tp), FreshStart(prio)), TaskModel.Running(Alloc(cfg, prio), 1))
  {
    FreshPlaced(cfg, tp, prio);
    PlayMore(cfg, tp, Boot(tp), FreshTask(prio), Act.Run(0, 1));
    assert [1][1..] == [];
  }

  lemma AloneIsPlaced(s: Sys, t: Task)
    requires Alone(s, t)
    ensures Placed(s, 2) == 0
  {
    OneList(QueueLists(s.queue), 2);
    OneList(s.local, 2);
    OneList(CpuLists(s.running), 2);
  }

  /** Behind it, another task is queued. */
  const RIVAL := Enqueue(2, 1, false, false, 0, 0, {0})

  lemma RivalQueued(cfg: Config, tp: Topology, s: Sys, t: Task)
    requires cfg.Valid() && tp == Topology([0], 1) && Shape(tp, s) && Alone(s, t)
    ensures var s' := Do(cfg, tp, s, RIVAL);
            && s'.running == [Some(1)] && s'.local == [[]] && |s'.queue[0]| == 1 && s'.queue[0][0].taskCpu == 0
            && s'.mailbox[0].ticks == 0 && 1 in s'.ctx && s'.ctx[1] == t
  {
    AloneIsPlaced(s, t);
    assert Enabled(tp, s, RIVAL);
    var e := Filed(cfg, s, RIVAL);
    assert Insert(s.queue[0], e) == [e];
  }

  /** Past its budget, within its slice, with someone counted as waiting, a task is kicked for starvation. */
  lemma Starves(cfg: Config, tp: Topology, s: Sys, now: nat)
    requires cfg.Valid() && tp == Topology([0], 1) && Shape(tp, s)
    requires s.running == [Some(1)] && 1 in s.ctx && s.mailbox[0].ticks == 0 && NrRunning(s, 0) > 1
    requires var t := s.ctx[1];
             t.lastRunAt != 0 && !t.lockHolder && cfg.Budget(t.tier) < Elapsed(now, t.lastRunAt) <= t.nextSlice
    ensures Enabled(tp, s, Act.Tick(0, now)) && TickVerdict(cfg, tp, s, Act.Tick(0, now)) == StarvationKick
  {
  }

  /** So it is once a rival is queued behind a task that is alone and has a slice longer than its budget. */
  lemma RivalStarves(cfg: Config, tp: Topology, s: Sys, t: Task)
    requires cfg.Valid() && tp == Topology([0], 1) && Shape(tp, s) && Alone(s, t)
    requires t.lastRunAt == 1 && !t.lockHolder && cfg.Budget(t.tier) < t.nextSlice && cfg.Budget(t.tier) + 1 < U32
    ensures var s', tick := Do(cfg, tp, s, RIVAL), Act.Tick(0, 2 + cfg.Budget(t.tier));
            && Enabled(tp, s', tick) && TickVerdict(cfg, tp, s', tick) == StarvationKick
            && s'.running == [Some(1)] && 1 in s'.ctx && s'.ctx[1].tier == t.tier
  {
    RivalQueued(cfg, tp, s, t);
    var s' := Do(cfg, tp, s, RIVAL);
    OneInQueue(s'.queue, 0);
    JustPast(cfg.Budget(t.tier));
    Starves(cfg, tp, s', 2 + cfg.Budget(t.tier));
  }

  lemma JustPast(b: nat)
    requires b + 1 < U32
    ensures Elapsed(2 + b, 1) == b + 1
  {
  }

  /** A new task is kicked for starvation in its first bout, by a tick just past its tier's budget, when the flat
      quantum outlasts that. */
  lemma FirstBoutStarves(cfg: Config, tp: Topology, prio: nat)
    requires cfg.Valid() && tp == Topology([0], 1)
    requires cfg.Budget(InitTier(prio)) < cfg.quantum && cfg.Budget(InitTier(prio)) + 1 < U32
    ensures var s := Play(cfg, tp, Boot(tp), FreshStart(prio) + [RIVAL]);
            var tick := Act.Tick(0, 2 + cfg.Budget(InitTier(prio)));
            && Enabled(tp, s, tick) && TickVerdict(cfg, tp, s, tick) == StarvationKick && s.running == [Some(1)]
  {
    FreshStarted(cfg, tp, prio);
    PlayMore(cfg, tp, Boot(tp), FreshStart(prio), RIVAL);
    RivalStarves(cfg, tp, Play(cfg, tp, Boot(tp), FreshStart(prio)), TaskModel.Running(Alloc(cfg, prio), 1));
  }

  lemma FlatQuantumIsLong(profile: Profile)
    requires !profile.Esports?
    ensures var cfg := Loaded(profile, None, None, None); cfg.Budget(0) < cfg.quantum && cfg.Budget(0) + 1 < U32
  {
    ProfileBudget(profile, None, None, 0);
  }

  /** Under Default and Sim that happens to a new task at nice -20. */
  lemma FirstBoutIsStarved(profile: Profile, tp: Topology)
    requires !profile.Esports? && tp == Topology([0], 1)
    ensures var cfg := Loaded(profile, None, None, None);
            var acts, tick := FreshStart(100) + [RIVAL], Act.Tick(0, 2 + cfg.Budget(0));
            var s := Play(cfg, tp, Boot(tp), acts);
            AllStamp(acts) && Enabled(tp, s, tick) && TickVerdict(cfg, tp, s, tick) == StarvationKick
  {
    FlatQuantumIsLong(profile);
    FirstBoutStarves(Loaded(profile, None, None, None), tp, 100);
  }

  lemma OneInQueue(qs: seq<seq<Entry>>, c: nat)
    requires |qs| == 1 && |qs[0]| == 1 && qs[0][0].taskCpu == c
    ensures CountQueues(qs, c) == 1
  {
    assert qs[1..] == [] && qs[0][1..] == [];
    assert CountCpu(qs[0], c) == 1;
  }

  // ---- and after a stop, in any tier ----

  /** A priority and a kind of stop that leave a task in tier t after a bout too short to measure. */
  function PrioFor(t: Tier): nat {
    if t == 0 then 100 else if t == 1 then 120 else 131
  }

  function StoppedOnce(cfg: Config, t: Tier): Task
    requires cfg.Valid()
  {
    Stopping(cfg, TaskModel.Running(Alloc(cfg, PrioFor(t)), 1), 1, t == 3)
  }

  lemma OneStopReaches(cfg: Config, t: Tier)
    requires cfg.Valid()
    ensures var u := StoppedOnce(cfg, t);
            u.tier == t && u.nextSlice == cfg.Slice(t) && !u.lockHolder && !u.irqWake && u.lastRunAt == 1
  {
    var b := TaskModel.Running(Alloc(cfg, PrioFor(t)), 1);
    assert Sample(b, 1) == 0 && !Backoff(b);
    assert Popcount(0) == 0;
    TaskRuns.UnforcedStop(cfg, b, 1, t == 3);
  }

  /** The stop; and from there on, placed again by the wakeup, or by the kernel if it only was preempted, started, and
      a rival queued behind it. */
  function StopFor(t: Tier): Act {
    Act.Stop(0, 1, t == 3)
  }

  function PlacedAgain(t: Tier): Act {
    if t == 3 then KernelInsert(1, 0) else SelectIdle(1, 0)
  }

  function Rerun(t: Tier): seq<Act> {
    [] + [PlacedAgain(t)] + [Act.Run(0, 1)] + [RIVAL]
  }

  lemma StoppedAlone(cfg: Config, tp: Topology, s: Sys, t: Tier)
    requires cfg.Valid() && tp == Topology([0], 1) && Shape(tp, s)
    requires Alone(s, TaskModel.Running(Alloc(cfg, PrioFor(t)), 1))
    ensures var s' := Do(cfg, tp, s, StopFor(t));
            && Enabled(tp, s, StopFor(t)) && Placed(s', 1) == 0
            && s'.local == [[]] && s'.queue == [[]] && s'.running == [None]
            && |s'.mailbox| == 1 && s'.mailbox[0].ticks == 0
            && s'.ctx.Keys == {1} && s'.ctx[1] == StoppedOnce(cfg, t)
  {
    var s' := Do(cfg, tp, s, StopFor(t));
    OneList(QueueLists(s'.queue), 1);
    OneList(s'.local, 1);
    OneList(CpuLists(s'.running), 1);
  }

  lemma BackOnCpu(cfg: Config, tp: Topology, s: Sys, t: Tier, u: Task)
    requires cfg.Valid() && tp == Topology([0], 1) && Shape(tp, s) && Placed(s, 1) == 0
    requires s.local == [[]] && s.queue == [[]] && s.running == [None]
    requires s.mailbox[0].ticks == 0 && s.ctx.Keys == {1} && s.ctx[1] == u && !u.irqWake && u.lastRunAt == 1
    ensures Alone(Play(cfg, tp, s, [] + [PlacedAgain(t)] + [Act.Run(0, 1)]), u)
  {
    PlayMore(cfg, tp, s, [], PlacedAgain(t));
    var s1 := Do(cfg, tp, s, PlacedAgain(t));
    assert DirectWake(u) == u;
    assert s.local[0] + [1] == [1];
    assert s1.local == [[1]] && s1.ctx.Keys == {1} && s1.ctx[1] == u;
    PlayMore(cfg, tp, s, [] + [PlacedAgain(t)], Act.Run(0, 1));
  }

  /** Stopped and started again, the task starves behind a rival. */
  lemma RerunStarves(cfg: Config, tp: Topology, s: Sys, s1: Sys, t: Tier)
    requires cfg.Valid() && tp == Topology([0], 1) && Shape(tp, s) && Exposed(cfg, t)
    requires Alone(s, TaskModel.Running(Alloc(cfg, PrioFor(t)), 1)) && s1 == Do(cfg, tp, s, StopFor(t))
    ensures var s', tick := Play(cfg, tp, s1, Rerun(t)), Act.Tick(0, 2 + cfg.Budget(t));
            && Enabled(tp, s', tick) && TickVerdict(cfg, tp, s', tick) == StarvationKick
            && s'.running == [Some(1)] && 1 in s'.ctx && s'.ctx[1].tier == t
  {
    var u, again := StoppedOnce(cfg, t), [] + [PlacedAgain(t)] + [Act.Run(0, 1)];
    StoppedAlone(cfg, tp, s, t);
    OneStopReaches(cfg, t);
    BackOnCpu(cfg, tp, s1, t, u);
    PlayMore(cfg, tp, s1, again, RIVAL);
    RivalStarves(cfg, tp, Play(cfg, tp, s1, again), u);
  }

  /** In every exposed tier there is such a run: from boot a task is started, stopped into that tier, started again,
      and kicked for starvation. */
  lemma StoppedTaskIsStarved(cfg: Config, tp: Topology, t: Tier)
    requires cfg.Valid() && tp == Topology([0], 1) && Exposed(cfg, t)
    ensures var s := Play(cfg, tp, Boot(tp), FreshStart(PrioFor(t)));
            var tick := Act.Tick(0, 2 + cfg.Budget(t));
            && AllStamp(FreshStart(PrioFor(t))) && TickAfterStop(cfg, tp, s, StopFor(t), Rerun(t), tick, t)
            && StarvationBranch(cfg, tp, Play(cfg, tp, Do(cfg, tp, s, StopFor(t)), Rerun(t)), tick)
  {
    var s := Play(cfg, tp, Boot(tp), FreshStart(PrioFor(t)));
    FreshStarted(cfg, tp, PrioFor(t));
    RerunStarves(cfg, tp, s, Do(cfg, tp, s, StopFor(t)), t);
  }

  /** After its first stop, some task of tier t is kicked for starvation, or skipped, in some run. */
  ghost predicate LiveAfterStop(cfg: Config, t: Tier)
    requires cfg.Valid()
  {
    exists tp: Topology, s, stop, later, tick ::
      && tp.Valid() && Reachable(cfg, tp, s) && Shape(tp, s)
      && TickAfterStop(cfg, tp, s, stop, later, tick, t)
      && StarvationBranch(cfg, tp, Play(cfg, tp, Do(cfg, tp, s, stop), later), tick)
  }

  /** Exactly, for every configuration and every tier: the branch is live after a first stop if and only if the tier
      is exposed. */
  lemma LiveExactly(cfg: Config, t: Tier)
    requires cfg.Valid()
    ensures LiveAfterStop(cfg, t) <==> Exposed(cfg, t)
  {
    if Exposed(cfg, t) {
      var tp := Topology([0], 1);
      StoppedTaskIsStarved(cfg, tp, t);
      assert Reachable(cfg, tp, Play(cfg, tp, Boot(tp), FreshStart(PrioFor(t))));
    }
    if LiveAfterStop(cfg, t) {
      var tp: Topology, s, stop, later, tick :|
        && tp.Valid() && Reachable(cfg, tp, s) && Shape(tp, s)
        && TickAfterStop(cfg, tp, s, stop, later, tick, t)
        && StarvationBranch(cfg, tp, Play(cfg, tp, Do(cfg, tp, s, stop), later), tick);
      BranchNeedsExposure(cfg, tp, s, stop, later, tick, t);
    }
  }

  /** So what the repository promises holds of stopped tasks, for whatever the loader writes, if and only if the slices
      fit the budgets. */
  lemma DeadExactly(p: Profile, quantum: Option<nat>, bonus: Option<nat>, starvation: Option<nat>)
    ensures var cfg := Loaded(p, quantum, bonus, starvation);
            (forall t: Tier :: !LiveAfterStop(cfg, t)) <==> SlicesFit(cfg)
  {
    var cfg := Loaded(p, quantum, bonus, starvation);
    forall t: Tier ensures LiveAfterStop(cfg, t) <==> cfg.Budget(t) < cfg.Slice(t) {
      LiveExactly(cfg, t);
      LoadedBudget(p, quantum, bonus, starvation, t);
    }
  }

  // ---- and before any stop ----

  lemma StoppedHasStop(cfg: Config, t: Task, es: seq<Event>) returns (i: nat)
    requires cfg.Valid() && TaskInvariant.HasStopped(cfg, t, es)
    ensures i < |es| && es[i].Stop?
  {
    if TaskInvariant.HasStopped(cfg, t, Front(es)) { i := StoppedHasStop(cfg, t, Front(es)); } else { i := |es| - 1; }
  }

  /** A run without a stop stops nobody. */
  lemma NoStopNoStopped(cfg: Config, tp: Topology, acts: seq<Act>, p: nat)
    requires cfg.Valid() && tp.Valid() && LifeOf(cfg, tp, acts, p).Born?
    requires forall k | 0 <= k < |acts| :: !acts[k].Stop?
    ensures var life := LifeOf(cfg, tp, acts, p); !TaskInvariant.HasStopped(cfg, Alloc(cfg, life.prio), life.es)
  {
    var life := LifeOf(cfg, tp, acts, p);
    if TaskInvariant.HasStopped(cfg, Alloc(cfg, life.prio), life.es) {
      var i := StoppedHasStop(cfg, Alloc(cfg, life.prio), life.es);
      var k := MachineTime.StopsAreActs(cfg, tp, acts, p, i);
      assert false;
    }
  }

  lemma BornAt(cfg: Config, tp: Topology, prio: nat, more: seq<Act>)
    requires cfg.Valid() && tp.Valid()
    ensures var life := LifeOf(cfg, tp, [Enable(1, prio)] + more, 1); life.Born? && life.prio == prio
  {
    NobodyWaits(tp, 1);
    assert Front([Enable(1, prio)]) == [];
    LifeGrows(cfg, tp, [Enable(1, prio)], more, 1);
  }

  /** Some tick of some run takes the branch for a task allocated at this priority and never stopped. */
  ghost predicate LiveBeforeStop(cfg: Config, prio: nat)
    requires cfg.Valid()
  {
    exists tp: Topology, acts, tick :: tp.Valid() && AllStamp(acts) && FreshBranch(cfg, tp, acts, tick, prio)
  }

  predicate FreshBranch(cfg: Config, tp: Topology, acts: seq<Act>, tick: Act, prio: nat)
    requires cfg.Valid() && tp.Valid()
  {
    var s := Play(cfg, tp, Boot(tp), acts);
    && Enabled(tp, s, tick) && tick.Tick? && StarvationBranch(cfg, tp, s, tick)
    && var life := LifeOf(cfg, tp, acts, s.running[tick.cpu].value);
       life.Born? && life.prio == prio && !TaskInvariant.HasStopped(cfg, Alloc(cfg, prio), life.es)
  }

  lemma FreshBranchNeedsRoom(cfg: Config, tp: Topology, acts: seq<Act>, tick: Act, prio: nat)
    requires cfg.Valid() && tp.Valid() && AllStamp(acts) && FreshBranch(cfg, tp, acts, tick, prio)
    ensures cfg.Budget(InitTier(prio)) < cfg.quantum && cfg.Budget(InitTier(prio)) + 1 < U32
  {
    var s := Play(cfg, tp, Boot(tp), acts);
    var p := s.running[tick.cpu].value;
    BootInv(cfg, tp);
    PlayKeepsInv(cfg, tp, Boot(tp), acts);
    EveryContextHasALife(cfg, tp, acts, p);
    TaskInvariant.UnstoppedIsFresh(cfg, Alloc(cfg, prio), LifeOf(cfg, tp, acts, p).es);
    BranchNeedsRoom(cfg, tp, s, tick);
  }

  lemma FreshActs(prio: nat)
    ensures var acts := FreshStart(prio) + [RIVAL];
            && acts == [Enable(1, prio)] + ([SelectIdle(1, 0)] + [Act.Run(0, 1)] + [RIVAL])
            && AllStamp(acts) && forall k | 0 <= k < |acts| :: !acts[k].Stop?
  {
  }

  lemma UnstoppedLife(cfg: Config, tp: Topology, prio: nat, acts: seq<Act>, more: seq<Act>)
    requires cfg.Valid() && tp.Valid() && acts == [Enable(1, prio)] + more
    requires forall k | 0 <= k < |acts| :: !acts[k].Stop?
    ensures var life := LifeOf(cfg, tp, acts, 1);
            life.Born? && life.prio == prio && !TaskInvariant.HasStopped(cfg, Alloc(cfg, prio), life.es)
  {
    BornAt(cfg, tp, prio, more);
    NoStopNoStopped(cfg, tp, acts, 1);
  }

  lemma FreshBranchHappens(cfg: Config, tp: Topology, prio: nat)
    requires cfg.Valid() && tp == Topology([0], 1)
    requires cfg.Budget(InitTier(prio)) < cfg.quantum && cfg.Budget(InitTier(prio)) + 1 < U32
    ensures AllStamp(FreshStart(prio) + [RIVAL])
    ensures FreshBranch(cfg, tp, FreshStart(prio) + [RIVAL], Act.Tick(0, 2 + cfg.Budget(InitTier(prio))), prio)
  {
    FirstBoutStarves(cfg, tp, prio);
    FreshActs(prio);
    UnstoppedLife(cfg, tp, prio, FreshStart(prio) + [RIVAL], [SelectIdle(1, 0)] + [Act.Run(0, 1)] + [RIVAL]);
  }

  /** Exactly, for every configuration and every priority: a task can take the branch before its first stop if and only
      if the flat quantum outlasts the budget of the tier it starts in. */
  lemma FirstBoutExactly(cfg: Config, prio: nat)
    requires cfg.Valid()
    ensures LiveBeforeStop(cfg, prio)
            <==> cfg.Budget(InitTier(prio)) < cfg.quantum && cfg.Budget(InitTier(prio)) + 1 < U32
  {
    if cfg.Budget(InitTier(prio)) < cfg.quantum && cfg.Budget(InitTier(prio)) + 1 < U32 {
      FreshBranchHappens(cfg, Topology([0], 1), prio);
    }
    if LiveBeforeStop(cfg, prio) {
      var tp: Topology, acts, tick :| tp.Valid() && AllStamp(acts) && FreshBranch(cfg, tp, acts, tick, prio);
      FreshBranchNeedsRoom(cfg, tp, acts, tick, prio);
    }
  }
}
