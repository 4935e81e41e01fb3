/** Bounded overtaking and bounded waiting in an LLC queue, over every interleaving. */
module Overtaking {
  import opened TierConfig
  import opened TaskModel
  import opened DeadlineQueue
  import opened Stealing
  import opened Machine
  import opened MachineInvariant
  import opened MachineRuns

  /** The entries the queue serves before x. */
  function Ahead(q: seq<Entry>, x: Entry): seq<Entry> {
    if q == [] || q[0] == x then [] else [q[0]] + Ahead(q[1..], x)
  }

  predicate OnlyAt(q: seq<Entry>, x: Entry, k: nat) {
    k < |q| && q[k] == x && (forall i | 0 <= i < |q| && i != k :: q[i] != x)
  }

  lemma AheadIsPrefix(q: seq<Entry>, x: Entry, k: nat)
    requires k < |q| && q[k] == x && forall i | 0 <= i < k :: q[i] != x
    ensures Ahead(q, x) == q[..k]
    decreases k
  {
    if k > 0 {
      AheadIsPrefix(q[1..], x, k - 1);
      assert [q[0]] + q[1..][..k - 1] == q[..k];
    }
  }

  lemma RemovalBefore(q: seq<Entry>, x: Entry, k: nat, j: nat)
    requires OnlyAt(q, x, k) && j < k
    ensures Ahead(Remove(q, j), x) == q[..j] + q[j + 1..k]
  {
    var q' := Remove(q, j);
    assert q'[k - 1] == x;
    AheadIsPrefix(q', x, k - 1);
    assert q'[..k - 1] == q[..j] + q[j + 1..k];
  }

  lemma RemovalBehind(q: seq<Entry>, x: Entry, k: nat, j: nat)
    requires OnlyAt(q, x, k) && k < j < |q|
    ensures Ahead(Remove(q, j), x) == q[..k]
  {
    var q' := Remove(q, j);
    AheadIsPrefix(q', x, k);
    assert q'[..k] == q[..k];
  }

  lemma OneOut(q: seq<Entry>, k: nat, j: nat)
    requires j < k <= |q|
    ensures multiset(q[..j] + q[j + 1..k]) <= multiset(q[..k])
  {
    assert q[..k] == q[..j] + [q[j]] + q[j + 1..k];
  }

  /** One removal: nobody new gets ahead, and one removed from ahead makes the line shorter. */
  lemma RemovalAhead(q: seq<Entry>, x: Entry, k: nat, j: nat)
    requires OnlyAt(q, x, k) && j < |q| && j != k
    ensures multiset(Ahead(Remove(q, j), x)) <= multiset(Ahead(q, x))
    ensures |Ahead(Remove(q, j), x)| == |Ahead(q, x)| - (if j < k then 1 else 0)
  {
    AheadIsPrefix(q, x, k);
    if j < k {
      RemovalBefore(q, x, k, j);
      OneOut(q, k, j);
    } else {
      RemovalBehind(q, x, k, j);
    }
  }

  lemma RemovedIsGone(q: seq<Entry>, x: Entry, k: nat)
    requires OnlyAt(q, x, k)
    ensures x !in Remove(q, k)
  {
  }

  /** One late arrival: the line ahead is untouched. */
  lemma ArrivalBehind(q: seq<Entry>, x: Entry, k: nat, e: Entry)
    requires Sorted(q) && OnlyAt(q, x, k) && x.deadline <= e.deadline
    ensures Ahead(Insert(q, e), x) == Ahead(q, x)
  {
    InsertBehind(q, e, k);
    var q' := Insert(q, e);
    assert q'[..k + 1] == q[..k + 1];
    assert forall i | 0 <= i <= k :: q'[i] == q'[..k + 1][i] == q[i];
    AheadIsPrefix(q, x, k);
    AheadIsPrefix(q', x, k);
  }

  lemma ArrivalAhead(q: seq<Entry>, x: Entry, k: nat, e: Entry)
    requires OnlyAt(q, x, k) && e != x && Position(q, e.deadline) <= k
    ensures var p := Position(q, e.deadline); Ahead(Insert(q, e), x) == q[..p] + [e] + q[p..k]
  {
    var p, q' := Position(q, e.deadline), Insert(q, e);
    assert q'[k + 1] == x;
    AheadIsPrefix(q', x, k + 1);
    assert q'[..k + 1] == q[..p] + [e] + q[p..k];
  }

  lemma ArrivalPast(q: seq<Entry>, x: Entry, k: nat, e: Entry)
    requires OnlyAt(q, x, k) && Position(q, e.deadline) > k
    ensures Ahead(Insert(q, e), x) == q[..k]
  {
    var q' := Insert(q, e);
    AheadIsPrefix(q', x, k);
    assert q'[..k] == q[..k];
  }

  lemma OneIn(q: seq<Entry>, k: nat, p: nat, e: Entry)
    requires p <= k <= |q|
    ensures multiset(q[..p] + [e] + q[p..k]) == multiset(q[..k]) + multiset{e}
  {
    assert q[..k] == q[..p] + q[p..k];
  }

  /** Any arrival adds at most itself to the line ahead. */
  lemma ArrivalAddsItself(q: seq<Entry>, x: Entry, k: nat, e: Entry)
    requires OnlyAt(q, x, k) && e != x
    ensures multiset(Ahead(Insert(q, e), x)) <= multiset(Ahead(q, x)) + multiset{e}
    ensures |Ahead(Insert(q, e), x)| <= |Ahead(q, x)| + 1
  {
    AheadIsPrefix(q, x, k);
    if Position(q, e.deadline) <= k {
      ArrivalAhead(q, x, k, e);
      OneIn(q, k, Position(q, e.deadline), e);
    } else {
      ArrivalPast(q, x, k, e);
    }
  }

  // ---- one step ----

  /** A task is queued at most once, so its entry sits at one index. */
  lemma Once(cfg: Config, tp: Topology, s: Sys, l: nat, x: Entry) returns (k: nat)
    requires cfg.Valid() && Inv(cfg, tp, s) && l < |s.queue| && x in s.queue[l]
    ensures OnlyAt(s.queue[l], x, k)
  {
    var q := s.queue[l];
    k :| k < |q| && q[k] == x;
    forall i | 0 <= i < |q| && i != k ensures q[i] != x {
      if q[i] == x {
        assert Placed(s, x.tid) <= 1;
        TotalHas(QueueLists(s.queue), l, x.tid);
        Twice(Names(q), i, k);
      }
    }
  }

  lemma Twice(ts: seq<nat>, i: nat, k: nat)
    requires i < |ts| && k < |ts| && i != k && ts[i] == ts[k]
    ensures multiset(ts)[ts[i]] >= 2
  {
    var (a, b) := if i < k then (i, k) else (k, i);
    assert ts == ts[..a] + [ts[a]] + ts[a + 1..b] + [ts[b]] + ts[b + 1..];
  }

  /** This arrival comes too late to sort ahead of a tier-i task queued at `at`: it is past the cutoff for its own
      tier and advance. */
  predicate TooLate(cfg: Config, s: Sys, a: Act, at: nat, i: Tier)
    requires cfg.Valid() && a.Enqueue? && a.enqCpu < |s.mailbox|
  {
    var f := File(cfg, s, a);
    a.now >= Cutoff(cfg, at, i, f.tier, f.advance)
  }

  /** In terms of time alone, with rising budgets: everything is too late once twice the new-flow bonus has gone by on
      top of the gap to T0's budget, and once a single bonus has, when the arriving task is not marked as a lock
      holder; above T0, once the gap to the next higher tier's budget has, whatever the advance. */
  lemma TooLateByTime(cfg: Config, s: Sys, a: Act, at: nat, i: Tier)
    requires cfg.Valid() && BudgetsRise(cfg) && a.Enqueue? && a.enqCpu < |s.mailbox|
    ensures a.now >= at + cfg.Budget(i) - cfg.Budget(0) + 2 * cfg.bonus ==> TooLate(cfg, s, a, at, i)
    ensures (a.tid in s.ctx ==> !s.ctx[a.tid].lockHolder) && a.now >= at + cfg.Budget(i) - cfg.Budget(0) + cfg.bonus ==>
              TooLate(cfg, s, a, at, i)
    ensures var j := File(cfg, s, a).tier;
            j > 0 && a.now >= at + cfg.Budget(i) - cfg.Budget(j - 1) ==> TooLate(cfg, s, a, at, i)
  {
    var f := File(cfg, s, a);
    CutoffBounds(cfg, at, i, f.tier, f.advance);
  }

  /** Exactly: an arrival sorts behind a waiting task that was filed at `at` without an advance if and only if it is
      too late. */
  lemma TooLateExactly(cfg: Config, s: Sys, a: Act, at: nat, i: Tier)
    requires cfg.Valid() && a.Enqueue? && a.enqCpu < |s.mailbox| && at + cfg.Budget(i) > 0
    ensures TooLate(cfg, s, a, at, i) <==> TierDeadline(cfg, at, i, 0) <= Filed(cfg, s, a).deadline
  {
    var f := File(cfg, s, a);
    CutoffIsTight(cfg, at, i, a.now, f.tier, f.advance);
  }

  lemma LateSortsBehind(cfg: Config, s: Sys, a: Act, at: nat, i: Tier, x: Entry)
    requires cfg.Valid() && a.Enqueue? && a.enqCpu < |s.mailbox|
    requires x.deadline <= at + cfg.Budget(i) && TooLate(cfg, s, a, at, i)
    ensures x.deadline <= Filed(cfg, s, a).deadline
  {
    var f := File(cfg, s, a);
    NoPassAfterCutoff(cfg, at, i, 0, a.now, f.tier, f.advance);
  }

  /** A dispatch by a CPU of LLC l that x may run on. */
  predicate Serves(tp: Topology, s: Sys, a: Act, l: nat, x: Entry)
    requires tp.Valid() && Shape(tp, s) && l < |s.queue|
  {
    Enabled(tp, s, a) && a.Dispatch? && tp.llcOf[a.cpu] == l && a.cpu in x.cpus
  }

  /** What one act leaves of LLC l's queue. */
  predicate QueueStep(cfg: Config, tp: Topology, s: Sys, a: Act, l: nat, q': seq<Entry>)
    requires cfg.Valid() && tp.Valid() && Shape(tp, s) && Enabled(tp, s, a) && l < |s.queue|
  {
    var q := s.queue[l];
    if a.Enqueue? && tp.llcOf[a.taskCpu] == l then q' == Insert(q, Filed(cfg, s, a))
    else q' == q || exists j :: 0 <= j < |q| && q' == Remove(q, j)
  }

  lemma OneQueueStep(cfg: Config, tp: Topology, s: Sys, a: Act, l: nat)
    requires cfg.Valid() && tp.Valid() && Inv(cfg, tp, s) && Enabled(tp, s, a) && l < |s.queue|
    ensures l < |Next(cfg, tp, s, a).queue| && QueueStep(cfg, tp, s, a, l, Next(cfg, tp, s, a).queue[l])
  {
    if a.Dispatch? {
      DispatchComplete(s.queue, s.nonempty, tp.llcOf[a.cpu], a.row, a.cpu);
    }
  }

  /** An eligible CPU's dispatch takes x, or the first entry ahead of x that CPU may run. */
  lemma ServiceIsInOrder(cfg: Config, tp: Topology, s: Sys, a: Act, l: nat, x: Entry, k: nat)
    requires cfg.Valid() && tp.Valid() && Inv(cfg, tp, s) && l < |s.queue|
    requires OnlyAt(s.queue[l], x, k) && Serves(tp, s, a, l, x)
    ensures var j := FirstAllowed(s.queue[l], a.cpu);
            j <= k && l < |Next(cfg, tp, s, a).queue| && Next(cfg, tp, s, a).queue[l] == Remove(s.queue[l], j)
  {
    DispatchComplete(s.queue, s.nonempty, tp.llcOf[a.cpu], a.row, a.cpu);
    assert Runnable(s.queue[l], a.cpu);
  }

  /** A task that is queued is not the one an enqueue files. */
  lemma NewcomerIsAnother(cfg: Config, tp: Topology, s: Sys, a: Act, l: nat, x: Entry)
    requires cfg.Valid() && tp.Valid() && Shape(tp, s) && Enabled(tp, s, a) && a.Enqueue?
    requires l < |s.queue| && x in s.queue[l]
    ensures Filed(cfg, s, a) != x
  {
    var q := s.queue[l];
    var k :| 0 <= k < |q| && q[k] == x;
    TotalHas(QueueLists(s.queue), l, x.tid);
    assert Names(q)[k] == x.tid && x.tid in Names(q);
  }

  /** The entry an act files in LLC l's queue before the waiting task's cutoff, if it does. */
  function EarlyEntry(cfg: Config, tp: Topology, s: Sys, a: Act, l: nat, at: nat, i: Tier): multiset<Entry>
    requires cfg.Valid() && tp.Valid() && Shape(tp, s)
  {
    if Enabled(tp, s, a) && a.Enqueue? && tp.llcOf[a.taskCpu] == l && !TooLate(cfg, s, a, at, i) then
      multiset{Filed(cfg, s, a)}
    else multiset{}
  }

  /** One act, with x still queued after it: only an early arrival can get ahead of x, and an eligible dispatch
      brings x one place nearer. */
  lemma OneStepAhead(cfg: Config, tp: Topology, s: Sys, a: Act, l: nat, x: Entry, at: nat, i: Tier)
    requires cfg.Valid() && tp.Valid() && Inv(cfg, tp, s) && Enabled(tp, s, a)
    requires l < |s.queue| && x in s.queue[l] && x.deadline <= at + cfg.Budget(i)
    requires Shape(tp, Next(cfg, tp, s, a)) && x in Next(cfg, tp, s, a).queue[l]
    ensures var (q, q') := (s.queue[l], Next(cfg, tp, s, a).queue[l]);
            var early := EarlyEntry(cfg, tp, s, a, l, at, i);
            && multiset(Ahead(q', x)) <= multiset(Ahead(q, x)) + early
            && |Ahead(q', x)| + (if Serves(tp, s, a, l, x) then 1 else 0) <= |Ahead(q, x)| + |early|
  {
    var k := Once(cfg, tp, s, l, x);
    var q, q' := s.queue[l], Next(cfg, tp, s, a).queue[l];
    RemovedIsGone(q, x, k);
    if a.Enqueue? && tp.llcOf[a.taskCpu] == l {
      EnqueueAhead(cfg, tp, s, a, l, x, k, at, i);
      assert q' == Insert(q, Filed(cfg, s, a));
    } else if Serves(tp, s, a, l, x) {
      ServiceIsInOrder(cfg, tp, s, a, l, x, k);
      RemovalAhead(q, x, k, FirstAllowed(q, a.cpu));
    } else {
      OneQueueStep(cfg, tp, s, a, l);
      if q' != q {
        var j :| 0 <= j < |q| && q' == Remove(q, j);
        RemovalAhead(q, x, k, j);
      }
    }
  }

  lemma EnqueueAhead(cfg: Config, tp: Topology, s: Sys, a: Act, l: nat, x: Entry, k: nat, at: nat, i: Tier)
    requires cfg.Valid() && tp.Valid() && Inv(cfg, tp, s) && Enabled(tp, s, a)
    requires a.Enqueue? && tp.llcOf[a.taskCpu] == l && l < |s.queue|
    requires OnlyAt(s.queue[l], x, k) && x.deadline <= at + cfg.Budget(i)
    ensures var (q, q') := (s.queue[l], Insert(s.queue[l], Filed(cfg, s, a)));
            var early := EarlyEntry(cfg, tp, s, a, l, at, i);
            && multiset(Ahead(q', x)) <= multiset(Ahead(q, x)) + early && |Ahead(q', x)| <= |Ahead(q, x)| + |early|
  {
    if TooLate(cfg, s, a, at, i) {
      LateSortsBehind(cfg, s, a, at, i, x);
      ArrivalBehind(s.queue[l], x, k, Filed(cfg, s, a));
    } else {
      NewcomerIsAnother(cfg, tp, s, a, l, x);
      ArrivalAddsItself(s.queue[l], x, k, Filed(cfg, s, a));
    }
  }

  // ---- whole runs ----

  /** x stays queued in LLC l through the whole run. */
  predicate Stays(cfg: Config, tp: Topology, s: Sys, acts: seq<Act>, l: nat, x: Entry)
    requires cfg.Valid() && tp.Valid() && Shape(tp, s) && l < tp.nrLlcs
  {
    x in Play(cfg, tp, s, acts).queue[l] && (acts != [] ==> Stays(cfg, tp, s, Front(acts), l, x))
  }

  /** The entries filed in LLC l's queue during the run that were not too late. */
  function Early(cfg: Config, tp: Topology, s: Sys, acts: seq<Act>, l: nat, at: nat, i: Tier): multiset<Entry>
    requires cfg.Valid() && tp.Valid() && Shape(tp, s) && l < tp.nrLlcs
  {
    if acts == [] then multiset{}
    else
      Early(cfg, tp, s, Front(acts), l, at, i)
      + EarlyEntry(cfg, tp, Play(cfg, tp, s, Front(acts)), Last(acts), l, at, i)
  }

  /** How many acts of the run were dispatches by a CPU of LLC l that x may run on. */
  function Served(cfg: Config, tp: Topology, s: Sys, acts: seq<Act>, l: nat, x: Entry): nat
    requires cfg.Valid() && tp.Valid() && Shape(tp, s) && l < tp.nrLlcs
  {
    if acts == [] then 0
    else
      Served(cfg, tp, s, Front(acts), l, x)
      + (if Serves(tp, Play(cfg, tp, s, Front(acts)), Last(acts), l, x) then 1 else 0)
  }

  /** While x stays queued, the entries ahead of it are among those that were and the early arrivals, and every
      dispatch by an eligible CPU of its LLC takes one of them. */
  lemma {:induction false} AheadIsBounded(cfg: Config, tp: Topology, s: Sys, acts: seq<Act>, l: nat, x: Entry,
                                          at: nat, i: Tier)
    requires cfg.Valid() && tp.Valid() && Inv(cfg, tp, s) && AllStamp(acts) && l < tp.nrLlcs
    requires x.deadline <= at + cfg.Budget(i) && Stays(cfg, tp, s, acts, l, x)
    ensures var (q, q') := (s.queue[l], Play(cfg, tp, s, acts).queue[l]);
            var early := Early(cfg, tp, s, acts, l, at, i);
            && multiset(Ahead(q', x)) <= multiset(Ahead(q, x)) + early
            && |Ahead(q', x)| + Served(cfg, tp, s, acts, l, x) <= |Ahead(q, x)| + |early|
    decreases |acts|
  {
    if acts != [] {
      var b, a := Play(cfg, tp, s, Front(acts)), Last(acts);
      AheadIsBounded(cfg, tp, s, Front(acts), l, x, at, i);
      PlayKeepsInv(cfg, tp, s, Front(acts));
      if Enabled(tp, b, a) {
        assert Play(cfg, tp, s, acts) == Next(cfg, tp, b, a);
        OneStepAhead(cfg, tp, b, a, l, x, at, i);
      }
    }
  }

  lemma FiledInTime(cfg: Config, s: Sys, e: Act)
    requires cfg.Valid() && e.Enqueue? && e.enqCpu < |s.mailbox|
    ensures Filed(cfg, s, e).deadline <= e.now + cfg.Budget(File(cfg, s, e).tier)
  {
  }

  /** Bounded overtaking, in every run: take any enqueue made in a reachable state, of effective tier i, and any
      later run through which the task stays queued. Whatever is ahead of it was ahead at the start or came early,
      and it is not still queued once the eligible CPUs of its LLC have dispatched more often than there were
      entries ahead and early arrivals together. */
  lemma BoundedOvertaking(cfg: Config, tp: Topology, s: Sys, e: Act, acts: seq<Act>)
    requires cfg.Valid() && tp.Valid() && Reachable(cfg, tp, s) && AllStamp(acts)
    requires Shape(tp, s) && Enabled(tp, s, e) && e.Enqueue?
    ensures var (l, x, s1, i) := (tp.llcOf[e.taskCpu], Filed(cfg, s, e), Do(cfg, tp, s, e), File(cfg, s, e).tier);
            && x in s1.queue[l]
            && (Stays(cfg, tp, s1, acts, l, x) ==>
                  var early := Early(cfg, tp, s1, acts, l, e.now, i);
                  && multiset(Ahead(Play(cfg, tp, s1, acts).queue[l], x)) <= multiset(Ahead(s1.queue[l], x)) + early
                  && Served(cfg, tp, s1, acts, l, x) <= |Ahead(s1.queue[l], x)| + |early|)
  {
    ReachableInv(cfg, tp, s);
    NextKeepsInv(cfg, tp, s, e);
    var l, x, s1, i := tp.llcOf[e.taskCpu], Filed(cfg, s, e), Do(cfg, tp, s, e), File(cfg, s, e).tier;
    FiledInTime(cfg, s, e);
    assert s1.queue[l][Position(s.queue[l], x.deadline)] == x;
    if Stays(cfg, tp, s1, acts, l, x) {
      AheadIsBounded(cfg, tp, s1, acts, l, x, e.now, i);
    }
  }

  /** Every enqueue of the run comes once the gap to T0's budget and twice the bonus have gone by. */
  predicate AllPast(cfg: Config, acts: seq<Act>, at: nat, i: Tier)
    requires cfg.Valid()
  {
    forall k | 0 <= k < |acts| && acts[k].Enqueue? ::
      acts[k].now >= at + cfg.Budget(i) - cfg.Budget(0) + 2 * cfg.bonus
  }

  lemma NotEarly(cfg: Config, tp: Topology, s: Sys, a: Act, l: nat, at: nat, i: Tier)
    requires cfg.Valid() && tp.Valid() && BudgetsRise(cfg) && Shape(tp, s) && AllPast(cfg, [a], at, i)
    ensures EarlyEntry(cfg, tp, s, a, l, at, i) == multiset{}
  {
    assert [a][0] == a;
    if Enabled(tp, s, a) && a.Enqueue? { TooLateByTime(cfg, s, a, at, i); }
  }

  lemma NothingEarly(cfg: Config, tp: Topology, s: Sys, acts: seq<Act>, l: nat, at: nat, i: Tier)
    requires cfg.Valid() && tp.Valid() && BudgetsRise(cfg) && Shape(tp, s) && l < tp.nrLlcs
    requires AllPast(cfg, acts, at, i)
    ensures Early(cfg, tp, s, acts, l, at, i) == multiset{}
  {
    if acts != [] {
      NothingEarly(cfg, tp, s, Front(acts), l, at, i);
      NotEarly(cfg, tp, Play(cfg, tp, s, Front(acts)), Last(acts), l, at, i);
    }
  }

  /** Past the last cutoff nothing is early, so the line ahead only shrinks: it is a termination measure for being
      pulled. */
  lemma AheadOnlyFalls(cfg: Config, tp: Topology, s: Sys, acts: seq<Act>, l: nat, x: Entry, at: nat, i: Tier)
    requires cfg.Valid() && tp.Valid() && BudgetsRise(cfg) && Inv(cfg, tp, s) && AllStamp(acts) && l < tp.nrLlcs
    requires x.deadline <= at + cfg.Budget(i) && Stays(cfg, tp, s, acts, l, x) && AllPast(cfg, acts, at, i)
    ensures var (q, q') := (s.queue[l], Play(cfg, tp, s, acts).queue[l]);
            && multiset(Ahead(q', x)) <= multiset(Ahead(q, x))
            && |Ahead(q', x)| + Served(cfg, tp, s, acts, l, x) <= |Ahead(q, x)|
  {
    AheadIsBounded(cfg, tp, s, acts, l, x, at, i);
    NothingEarly(cfg, tp, s, acts, l, at, i);
  }

  // ---- the documented gap is not the cutoff ----

  /** Two tasks get contexts: task 1 at nice 0, task 2 at nice -20. */
  function TwoTasks(): seq<Act> {
    [] + [Enable(1, 120)] + [Enable(2, 100)]
  }

  /** Task 1 yields into the queue at time s; task 2 is woken at `now`. */
  function GapRun(s: nat, now: nat): seq<Act> {
    TwoTasks() + [Enqueue(1, s, false, false, 0, 0, {0})] + [Enqueue(2, now, true, false, 0, 0, {0})]
  }

  /** A first context, for a task that is nowhere. */
  lemma Admits(cfg: Config, tp: Topology, s: Sys, s': Sys, p: nat, prio: nat)
    requires cfg.Valid() && tp.Valid() && Shape(tp, s) && p !in s.ctx && Placed(s, p) == 0
    requires s' == s.(ctx := s.ctx[p := Alloc(cfg, prio)])
    ensures Do(cfg, tp, s, Enable(p, prio)) == s' && forall t: nat :: Placed(s', t) == Placed(s, t)
  {
  }

  lemma AfterTwoTasks(cfg: Config, tp: Topology)
    requires cfg.Valid() && tp.Valid()
    ensures var b := Play(cfg, tp, Boot(tp), TwoTasks());
            b == Boot(tp).(ctx := map[1 := Alloc(cfg, 120), 2 := Alloc(cfg, 100)])
            && Placed(b, 1) == 0 && Placed(b, 2) == 0
  {
    var s0 := Boot(tp);
    var s1 := s0.(ctx := s0.ctx[1 := Alloc(cfg, 120)]);
    var s2 := s1.(ctx := s1.ctx[2 := Alloc(cfg, 100)]);
    NobodyWaits(tp, 1);
    NobodyWaits(tp, 2);
    Admits(cfg, tp, s0, s1, 1, 120);
    Admits(cfg, tp, s1, s2, 2, 100);
    PlayMore(cfg, tp, s0, [], Enable(1, 120));
    PlayMore(cfg, tp, s0, [] + [Enable(1, 120)], Enable(2, 100));
    assert s2.ctx == map[1 := Alloc(cfg, 120), 2 := Alloc(cfg, 100)];
  }

  lemma AfterYield(cfg: Config, tp: Topology, s: nat)
    requires cfg.Valid() && tp == Topology([0], 1)
    ensures var b := Play(cfg, tp, Boot(tp), TwoTasks() + [Enqueue(1, s, false, false, 0, 0, {0})]);
            && b.queue == [[Entry(1, s + cfg.Budget(1), {0}, 0, cfg.quantum)]]
            && b.mailbox == Boot(tp).mailbox && Placed(b, 2) == 0
            && 2 in b.ctx && b.ctx[2] == Alloc(cfg, 100)
  {
    var b, a := Play(cfg, tp, Boot(tp), TwoTasks()), Enqueue(1, s, false, false, 0, 0, {0});
    AfterTwoTasks(cfg, tp);
    PlayMore(cfg, tp, Boot(tp), TwoTasks(), a);
    var e := Entry(1, s + cfg.Budget(1), {0}, 0, cfg.quantum);
    assert Filed(cfg, b, a) == e;
    var n := Next(cfg, tp, b, a);
    assert n.queue[0] == [e];
    OneQueued(n, 2);
  }

  /** A reachable run, with no lock held by anyone: the new T0 task is inserted ahead of the waiting T1 task for as
      long as the new-flow bonus lasts past the documented budget gap, and no longer. */
  lemma NewFlowPassesPastTheGap(cfg: Config, tp: Topology, s: nat, now: nat)
    requires cfg.Valid() && tp == Topology([0], 1) && s + cfg.Budget(1) > 0
    ensures var q := Play(cfg, tp, Boot(tp), GapRun(s, now)).queue[0];
            && |q| == 2 && q[0].tid != q[1].tid
            && (q[0].tid == if now < s + (cfg.Budget(1) - cfg.Budget(0)) + cfg.bonus then 2 else 1)
  {
    var a := Enqueue(2, now, true, false, 0, 0, {0});
    var acts := TwoTasks() + [Enqueue(1, s, false, false, 0, 0, {0})];
    var b := Play(cfg, tp, Boot(tp), acts);
    AfterYield(cfg, tp, s);
    PlayMore(cfg, tp, Boot(tp), acts, a);
    CutoffIsTight(cfg, s, 1, now, 0, cfg.bonus);
    var x, e := Entry(1, s + cfg.Budget(1), {0}, 0, cfg.quantum), Filed(cfg, b, a);
    assert e.deadline == TierDeadline(cfg, now, 0, cfg.bonus) && x.deadline == TierDeadline(cfg, s, 1, 0);
    assert Insert([x], e) == if e.deadline < x.deadline then [e, x] else [x, e];
  }
}
