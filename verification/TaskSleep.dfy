/** Post-sleep recovery over whole runs: it answers a genuine sleep, once. */
module TaskSleep {
  import opened TierConfig
  import opened TaskModel
  import opened TaskInvariant
  import opened TaskRuns

  /** Event i is the stop at which the task went to sleep, and it has neither stopped nor been woken
      through the queue since. */
  predicate Asleep(cfg: Config, t: Task, es: seq<Event>, i: int)
    requires cfg.Valid()
  {
    && 0 <= i < |es|
    && SleepStop(After(cfg, t, es[..i]), es[i])
    && forall j | i < j < |es| :: !es[j].WakeQueued? && !Acts(After(cfg, t, es[..j]), es[j])
  }

  lemma SleepStep(cfg: Config, t: Task, e: Event)
    requires cfg.Valid()
    ensures Step(cfg, t, e).sleepEntry
            == if SleepStop(t, e) then e.now % U32 else if Acts(t, e) || e.WakeQueued? then 0 else t.sleepEntry
  {
  }

  lemma AsleepLonger(cfg: Config, t: Task, es: seq<Event>, i: int)
    requires cfg.Valid() && es != [] && i < |es| - 1
    ensures Asleep(cfg, t, es, i)
            <==> Asleep(cfg, t, Front(es), i) && !Last(es).WakeQueued? && !Acts(After(cfg, t, Front(es)), Last(es))
  {
    assert forall j | 0 <= j < |es| :: Front(es)[..j] == es[..j];
  }

  /** The stamp is zero, or is the u32 time of the one stop the task is still asleep from. */
  lemma StampIsTheSleep(cfg: Config, t: Task, es: seq<Event>) returns (i: int)
    requires cfg.Valid() && t.sleepEntry == 0
    ensures i == -1 ==> After(cfg, t, es).sleepEntry == 0
    ensures i != -1 ==> Asleep(cfg, t, es, i) && After(cfg, t, es).sleepEntry == es[i].now % U32
    ensures forall k :: Asleep(cfg, t, es, k) ==> k == i
  {
    if es == [] {
      i := -1;
    } else {
      var b, e := After(cfg, t, Front(es)), Last(es);
      var k := StampIsTheSleep(cfg, t, Front(es));
      SleepStep(cfg, b, e);
      assert es[..|es| - 1] == Front(es);
      i := if SleepStop(b, e) then |es| - 1 else if Acts(b, e) || e.WakeQueued? then -1 else k;
      forall m | 0 <= m < |es| - 1
        ensures Asleep(cfg, t, es, m) <==> Asleep(cfg, t, Front(es), m) && !e.WakeQueued? && !Acts(b, e)
      {
        AsleepLonger(cfg, t, es, m);
      }
    }
  }

  lemma SleptFor(t: Task, s: nat, now: nat)
    requires t.sleepEntry == s % U32 && s <= now
    ensures Recovers(t, now) ==> now - s > SLEEP_NS
    ensures s % U32 != 0 && now - s < U32 ==> (Recovers(t, now) <==> now - s > SLEEP_NS)
  {
    ElapsedExact(s, now);
  }

  /** Recovery fires only on the first queued wakeup after a genuine sleep, and only if the task truly slept
      more than 500 ms; below the 4.3 s wrap, with a nonzero stamp, it fires exactly then. */
  lemma RecoveryIsGenuine(cfg: Config, prio: nat, es: seq<Event>, now: nat)
    requires cfg.Valid()
    requires forall i | 0 <= i < |es| && es[i].Stop? :: es[i].now <= now
    ensures var t0 := Alloc(cfg, prio);
            var t := After(cfg, t0, es);
            && (Recovers(t, now) ==> exists i :: Asleep(cfg, t0, es, i) && now - es[i].now > SLEEP_NS)
            && (forall i :: Asleep(cfg, t0, es, i) && es[i].now % U32 != 0 && now - es[i].now < U32 ==>
                  (Recovers(t, now) <==> now - es[i].now > SLEEP_NS))
  {
    var t0 := Alloc(cfg, prio);
    var i := StampIsTheSleep(cfg, t0, es);
    if i != -1 {
      SleptFor(After(cfg, t0, es), es[i].now, now);
    }
  }

  /** Half way from the average to the documented midpoint of the tier. */
  function Halfway(t: Task): nat {
    match t.tier
    case 0 => (t.avg + 50) / 2
    case 1 => (t.avg + 1050) / 2
    case 2 => (t.avg + 5000) / 2
    case _ => (t.avg + 8001) / 2
  }

  /** A stop that reads as more than 500 ms ago on the 32-bit clock. */
  predicate LongAgo(start: nat, now: nat) {
    start % U32 != 0 && (now - start) % U32 > 500_000_000
  }

  lemma WakeMoves(t: Task, start: nat, now: nat)
    requires t.sleepEntry == start % U32 && start <= now
    ensures QueuedWake(t, now).avg == if LongAgo(start, now) then Halfway(t) else t.avg
  {
    ElapsedExact(start, now);
  }

  lemma NoStampNoMove(t: Task, now: nat)
    requires t.sleepEntry == 0
    ensures QueuedWake(t, now).avg == t.avg
  {
  }

  /** The task is asleep from a stop that long ago. */
  ghost predicate LongAsleep(cfg: Config, t0: Task, es: seq<Event>, now: nat)
    requires cfg.Valid()
  {
    exists i :: Asleep(cfg, t0, es, i) && LongAgo(es[i].now, now)
  }

  /** What recovery does, exactly, over every run: a queued wakeup of a task asleep from a stop that long ago moves its
      average half way to its tier's midpoint, 50, 1050, 5000 or 8001 us, and every other queued wakeup leaves it. */
  lemma RecoveryMoves(cfg: Config, prio: nat, es: seq<Event>, now: nat)
    requires cfg.Valid()
    requires forall i | 0 <= i < |es| && es[i].Stop? :: es[i].now <= now
    ensures var t := After(cfg, Alloc(cfg, prio), es);
            Step(cfg, t, WakeQueued(now)).avg
            == if LongAsleep(cfg, Alloc(cfg, prio), es, now) then Halfway(t) else t.avg
  {
    var t0, t := Alloc(cfg, prio), After(cfg, Alloc(cfg, prio), es);
    var i := StampIsTheSleep(cfg, t0, es);
    if i == -1 {
      NoStampNoMove(t, now);
    } else {
      WakeMoves(t, es[i].now, now);
    }
  }

  /** What a queued wakeup leaves behind: no stamp, the deficit untouched, the rank untouched. */
  lemma RecoveryFrame(t: Task, now: nat, later: nat)
    ensures var u := QueuedWake(t, now);
            && !Recovers(u, later)
            && u.deficit == t.deficit && u.tier == t.tier && u.stable == t.stable && u.overrun == t.overrun
            && (u.avg != t.avg ==> Recovers(t, now))
            && (t.avg <= u.avg <= SleepMid(t.tier) || SleepMid(t.tier) <= u.avg <= t.avg)
  {
  }

  /** A preempted re-enqueue never recovers: the stop before it cleared the stamp. */
  lemma NoRecoveryAfterPreemption(cfg: Config, t: Task, now: nat, later: nat)
    requires cfg.Valid() && t.lastRunAt != 0
    ensures !Recovers(Stopping(cfg, t, now, true), later)
  {
  }
}
