/** Graduated backoff lets the full pass through: exactly on every 1024th, 128th, 32nd or 16th stop of a stable task, so
    within that many stops of any run; and what that brings about. */
module Backoff {
  import opened TierConfig
  import opened Division
  import opened TaskModel
  import opened TaskInvariant
  import opened TaskRuns

  /** How many stops apart the documentation puts the full passes of a stable task. */
  function Apart(tier: Tier): nat {
    match tier
    case 0 => 1024
    case 1 => 128
    case 2 => 32
    case _ => 16
  }

  /** The task is not yet stable, or its next stop is a multiple of that many since the counter was last reset. */
  predicate Due(t: Task) {
    t.stable < 3 || (t.counter + 1) % Apart(t.tier) == 0
  }

  /** Exactly: an acting stop takes the full pass if it is due, and otherwise the quick one. */
  lemma FullPassExactly(cfg: Config, t: Task, now: nat, runnable: bool)
    requires cfg.Valid() && t.lastRunAt != 0
    ensures Stopping(cfg, t, now, runnable).(sleepEntry := t.sleepEntry)
            == if Due(t) then FullPass(cfg, t, now, runnable) else QuickPass(t, now, runnable)
  {
    Multiples(t.counter);
  }

  lemma Multiples(c: u16)
    ensures (c + 1) % U16 % 1024 == (c + 1) % 1024 && (c + 1) % U16 % 128 == (c + 1) % 128
    ensures (c + 1) % U16 % 32 == (c + 1) % 32 && (c + 1) % U16 % 16 == (c + 1) % 16
  {
  }

  /** The documented overrun thresholds. */
  function Over(tier: Tier): nat {
    match tier
    case 0 => 150
    case 1 => 3000
    case _ => 12000
  }

  lemma QuickEffects(cfg: Config, t: Task, now: nat, runnable: bool)
    requires cfg.Valid() && t.lastRunAt != 0 && !Due(t)
    ensures var u := Stopping(cfg, t, now, runnable);
            u.isNew == t.isNew && u.tier == t.tier && u.overrun == t.overrun && u.nextSlice == t.nextSlice
  {
    FullPassExactly(cfg, t, now, runnable);
  }

  lemma FullEffects(cfg: Config, t: Task, now: nat, runnable: bool)
    requires cfg.Valid() && t.lastRunAt != 0 && Due(t)
    ensures var u := Stopping(cfg, t, now, runnable);
            (u.isNew <==> t.isNew && u.deficit > 0) && u.nextSlice == cfg.Slice(u.tier)
  {
    FullPassExactly(cfg, t, now, runnable);
  }

  lemma FullRegister(cfg: Config, t: Task, now: nat, runnable: bool)
    requires cfg.Valid() && t.lastRunAt != 0 && Due(t) && t.tier < 3
    ensures var u := Stopping(cfg, t, now, runnable);
            u.tier == t.tier ==> u.overrun == (t.overrun << 1) | (if Sample(t, now) > Over(t.tier) then 1 else 0)
  {
    FullPassExactly(cfg, t, now, runnable);
    Multiples(t.counter);
    FullPassRegisterValue(cfg, t, Stop(now, runnable));
    if ForcedDemotion(t, Sample(t, now)) { ForcedOutcome(cfg, t, Stop(now, runnable)); }
  }

  /** What only a due stop does: it drops the new-flow flag of a spent deficit, records the sample in the register (a
      one above 150, 3000 or 12000 us), and takes the slice of the tier it arrives at. Any other stop leaves tier, flag,
      register and slice as they were. */
  lemma DueStopEffects(cfg: Config, t: Task, now: nat, runnable: bool)
    requires cfg.Valid() && t.lastRunAt != 0
    ensures var u := Stopping(cfg, t, now, runnable);
            && (Due(t) ==> (u.isNew <==> t.isNew && u.deficit > 0) && u.nextSlice == cfg.Slice(u.tier))
            && (Due(t) && t.tier < 3 && u.tier == t.tier ==>
                  u.overrun == (t.overrun << 1) | (if Sample(t, now) > Over(t.tier) then 1 else 0))
            && (!Due(t) ==>
                  u.isNew == t.isNew && u.tier == t.tier && u.overrun == t.overrun && u.nextSlice == t.nextSlice)
  {
    if !Due(t) { QuickEffects(cfg, t, now, runnable); }
    else {
      FullEffects(cfg, t, now, runnable);
      if t.tier < 3 { FullRegister(cfg, t, now, runnable); }
    }
  }

  // ---- how many stops are left ----

  /** Acting stops until the full pass, it included. */
  function Left(t: Task): (n: nat)
    ensures 1 <= n <= Apart(t.tier)
  {
    if t.stable < 3 then 1 else Apart(t.tier) - t.counter % Apart(t.tier)
  }

  lemma LeftFalls(cfg: Config, t: Task, now: nat, runnable: bool)
    requires cfg.Valid() && t.lastRunAt != 0 && !Due(t)
    ensures var u := Stopping(cfg, t, now, runnable); u.tier == t.tier && Left(u) < Left(t)
  {
    FullPassExactly(cfg, t, now, runnable);
    OneLess(t.counter, t.tier);
  }

  lemma OneLess(c: u16, tier: Tier)
    requires (c + 1) % Apart(tier) != 0
    ensures Counted(c) % Apart(tier) == c % Apart(tier) + 1
  {
    Multiples(c);
    Successor(c, Apart(tier));
  }

  lemma OtherKeepsLeft(cfg: Config, t: Task, e: Event)
    requires cfg.Valid() && !Acts(t, e)
    ensures var u := Step(cfg, t, e);
            && Left(u) == Left(t) && u.tier == t.tier
            && u.isNew == t.isNew && u.deficit == t.deficit && u.overrun == t.overrun
  {
  }

  /** Acting stops in a run. */
  function Stops(cfg: Config, t: Task, es: seq<Event>): nat
    requires cfg.Valid()
  {
    if es == [] then 0
    else Stops(cfg, t, Front(es)) + if Acts(After(cfg, t, Front(es)), Last(es)) then 1 else 0
  }

  /** Event j is an acting stop that is due. */
  predicate FullAt(cfg: Config, t: Task, es: seq<Event>, j: nat)
    requires cfg.Valid()
  {
    j < |es| && Acts(After(cfg, t, es[..j]), es[j]) && Due(After(cfg, t, es[..j]))
  }

  lemma {:induction false} UnlessFull(cfg: Config, t: Task, es: seq<Event>)
    requires cfg.Valid() && forall j: nat :: !FullAt(cfg, t, es, j)
    ensures After(cfg, t, es).tier == t.tier && Stops(cfg, t, es) + Left(After(cfg, t, es)) <= Left(t)
    decreases |es|
  {
    if es != [] {
      var b, e := After(cfg, t, Front(es)), Last(es);
      forall j: nat ensures !FullAt(cfg, t, Front(es), j) {
        if j < |es| - 1 { assert Front(es)[..j] == es[..j] && !FullAt(cfg, t, es, j); }
      }
      UnlessFull(cfg, t, Front(es));
      assert es[..|es| - 1] == Front(es) && !FullAt(cfg, t, es, |es| - 1);
      if Acts(b, e) { LeftFalls(cfg, b, e.now, e.runnable); } else { OtherKeepsLeft(cfg, b, e); }
    }
  }

  /** From any state, any run of 1024, 128, 32 or 16 acting stops contains a full pass, by the tier it starts in. */
  lemma FullPassComesRound(cfg: Config, t: Task, es: seq<Event>) returns (j: nat)
    requires cfg.Valid() && Stops(cfg, t, es) >= Apart(t.tier)
    ensures FullAt(cfg, t, es, j)
  {
    if forall i: nat :: !FullAt(cfg, t, es, i) {
      UnlessFull(cfg, t, es);
      assert false;
    }
    j :| FullAt(cfg, t, es, j);
  }

  /** So the new-flow flag of a task that has spent its deficit is gone after that many acting stops, and with it the
      bonus: at most 1024. */
  lemma {:induction false} NewFlowEnds(cfg: Config, t: Task, es: seq<Event>)
    requires cfg.Valid() && t.deficit == 0
    ensures var u := After(cfg, t, es);
            && u.deficit == 0
            && (u.isNew ==> u.tier == t.tier && Stops(cfg, t, es) + Left(u) <= Left(t))
            && (Stops(cfg, t, es) >= Apart(t.tier) ==> !u.isNew)
    decreases |es|
  {
    if es != [] {
      var b, e := After(cfg, t, Front(es)), Last(es);
      NewFlowEnds(cfg, t, Front(es));
      if Acts(b, e) {
        StopCharges(cfg, b, e.now, e.runnable);
        DueStopEffects(cfg, b, e.now, e.runnable);
        if !Due(b) { LeftFalls(cfg, b, e.now, e.runnable); }
      } else {
        OtherKeepsLeft(cfg, b, e);
      }
    }
  }

  // ---- overruns force a task out ----

  /** Throughout the run the task is in tier k, and every acting stop samples above that tier's threshold. */
  predicate Overrunning(cfg: Config, t: Task, es: seq<Event>, k: Tier)
    requires cfg.Valid()
  {
    After(cfg, t, es).tier == k &&
    (es == [] ||
     (&& Overrunning(cfg, t, Front(es), k)
      && (Acts(After(cfg, t, Front(es)), Last(es)) ==>
            Sample(After(cfg, t, Front(es)), Last(es).now) > Over(k))))
  }

  /** The newest n outcomes in the register are overruns. */
  predicate Newest(r: bv8, n: nat) {
    && (n >= 1 ==> r & 1 != 0) && (n >= 2 ==> r & 2 != 0) && (n >= 3 ==> r & 4 != 0) && (n >= 4 ==> r & 8 != 0)
  }

  lemma OneMoreOverrun(r: bv8, n: nat)
    requires Newest(r, n) && n <= 3
    ensures Newest((r << 1) | 1, n + 1)
  {
    ShiftInBits(r, 1);
  }

  lemma FourAreForced(t: Task, rt: u16)
    requires t.tier < 3 && rt > Over(t.tier) && Newest(t.overrun, 3)
    ensures ForcedDemotion(t, rt)
  {
    OneMoreOverrun(t.overrun, 3);
  }

  lemma OverrunStop(cfg: Config, t: Task, now: nat, runnable: bool, n: nat)
    requires cfg.Valid() && t.lastRunAt != 0 && t.tier < 3 && Sample(t, now) > Over(t.tier)
    requires Due(t) && Newest(t.overrun, n) && n <= 3 && Stopping(cfg, t, now, runnable).tier == t.tier
    ensures n < 3 && Newest(Stopping(cfg, t, now, runnable).overrun, n + 1)
  {
    FullPassExactly(cfg, t, now, runnable);
    OneMoreOverrun(t.overrun, n);
    if n == 3 { FourAreForced(t, Sample(t, now)); }
    DueStopEffects(cfg, t, now, runnable);
  }

  /** A task whose bursts all overrun its tier by half is forced out of it by its fourth full pass: in 4096, 512 or 128
      acting stops, however its average stands. */
  lemma {:induction false} OverrunsForceOut(cfg: Config, t: Task, es: seq<Event>, k: Tier) returns (n: nat)
    requires cfg.Valid() && k < 3 && Overrunning(cfg, t, es, k)
    ensures n <= 3 && Newest(After(cfg, t, es).overrun, n)
    ensures Stops(cfg, t, es) + Left(After(cfg, t, es)) <= (n + 1) * Apart(k)
    ensures Stops(cfg, t, es) < 4 * Apart(k)
    decreases |es|
  {
    if es == [] {
      n := 0;
    } else {
      var b, e := After(cfg, t, Front(es)), Last(es);
      n := OverrunsForceOut(cfg, t, Front(es), k);
      if !Acts(b, e) {
        OtherKeepsLeft(cfg, b, e);
      } else if Due(b) {
        OverrunStop(cfg, b, e.now, e.runnable, n);
        n := n + 1;
      } else {
        LeftFalls(cfg, b, e.now, e.runnable);
        DueStopEffects(cfg, b, e.now, e.runnable);
      }
    }
  }
}
