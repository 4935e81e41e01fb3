/** What every event keeps true of a task context, over every run from its allocation. */
module TaskInvariant {
  import opened TierConfig
  import opened TaskModel

  /** next_slice is the natural slice of the task's tier. */
  predicate Coherent(cfg: Config, t: Task)
    requires cfg.Valid()
  {
    t.nextSlice == cfg.Slice(t.tier)
  }

  /** The stored average classifies to the stored tier. */
  predicate Settled(t: Task) {
    Classify(t.tier, t.avg) == t.tier
  }

  predicate Inv(cfg: Config, t: Task)
    requires cfg.Valid()
  {
    && (t.stable == 3 ==> Settled(t))
    && Popcount(t.overrun) <= 3
    && (!t.isNew ==> t.deficit == 0)
    && (t.stable > 0 ==> Coherent(cfg, t))
  }

  // ---- the average ----

  /** The integer EWMA lies between its arguments. */
  lemma EwmaBetween(avg: u16, rt: u16, runnable: bool)
    ensures rt < avg ==> rt <= Ewma(avg, rt, runnable) <= avg
    ensures rt >= avg ==> avg <= Ewma(avg, rt, runnable) <= rt
  {
  }

  /** ... and is monotone in both. */
  lemma EwmaMonotone(a: u16, a': u16, rt: u16, rt': u16)
    requires a <= a' && rt <= rt'
    ensures Ewma(a, rt, false) <= Ewma(a', rt', false)
  {
    if rt < a && rt' >= a' {
      EwmaBetween(a, rt, false);
      EwmaBetween(a', rt', false);
    }
  }

  /** Halving the distance to the tier's midpoint keeps a settled average settled. */
  lemma RecoveryKeepsSettled(t: Task, now: nat)
    requires Settled(t)
    ensures Settled(QueuedWake(t, now))
  {
  }

  /** The hard-demote cap never decides: an average above it already classifies to T3. */
  lemma HardDemoteCapNeverDecides(t: Task, newAvg: u16, rt: u16)
    ensures NewTier(t, newAvg, rt)
            == if ForcedDemotion(t, rt) && Classify(t.tier, newAvg) < t.tier + 1 then t.tier + 1
               else Classify(t.tier, newAvg)
  {
  }

  // ---- the invariant ----

  lemma AllocInv(cfg: Config, prio: nat)
    requires cfg.Valid()
    ensures Inv(cfg, Alloc(cfg, prio))
  {
  }

  lemma QuickPassKeepsInv(cfg: Config, t: Task, now: nat, runnable: bool)
    requires cfg.Valid() && Inv(cfg, t) && t.stable == 3
    ensures Inv(cfg, QuickPass(t, now, runnable))
  {
  }

  lemma FullPassSettles(cfg: Config, t: Task, now: nat, runnable: bool)
    requires cfg.Valid()
    ensures var u := FullPass(cfg, t, now, runnable); u.stable == 3 ==> Settled(u)
  {
    HardDemoteCapNeverDecides(t, Ewma(t.avg, Sample(t, now), runnable), Sample(t, now));
  }

  lemma FullPassRegister(cfg: Config, t: Task, now: nat, runnable: bool)
    requires cfg.Valid() && Popcount(t.overrun) <= 3
    ensures Popcount(FullPass(cfg, t, now, runnable).overrun) <= 3
  {
    assert Popcount(0) == 0;
  }

  lemma FullPassKeepsInv(cfg: Config, t: Task, now: nat, runnable: bool)
    requires cfg.Valid() && Inv(cfg, t)
    ensures Inv(cfg, FullPass(cfg, t, now, runnable))
  {
    FullPassSettles(cfg, t, now, runnable);
    FullPassRegister(cfg, t, now, runnable);
  }

  lemma StepKeepsInv(cfg: Config, t: Task, e: Event)
    requires cfg.Valid() && Inv(cfg, t)
    ensures Inv(cfg, Step(cfg, t, e))
  {
    match e
    case WakeQueued(now) => if Settled(t) { RecoveryKeepsSettled(t, now); }
    case Stop(now, runnable) =>
      if t.lastRunAt != 0 {
        if Backoff(t) { QuickPassKeepsInv(cfg, t, now, runnable); } else { FullPassKeepsInv(cfg, t, now, runnable); }
      }
    case _ =>
  }

  lemma AfterKeepsInv(cfg: Config, t: Task, es: seq<Event>)
    requires cfg.Valid() && Inv(cfg, t)
    ensures Inv(cfg, After(cfg, t, es))
  {
    if es != [] {
      AfterKeepsInv(cfg, t, Front(es));
      StepKeepsInv(cfg, After(cfg, t, Front(es)), Last(es));
    }
  }

  /** Graduated backoff never hides a tier change: in every reachable state, an average that disagrees
      with the tier sends the next stop through the full pass. */
  lemma BackoffNeverHidesAChange(cfg: Config, prio: nat, es: seq<Event>)
    requires cfg.Valid()
    ensures var t := After(cfg, Alloc(cfg, prio), es); !Settled(t) ==> !Backoff(t)
  {
    AllocInv(cfg, prio);
    AfterKeepsInv(cfg, Alloc(cfg, prio), es);
  }

  // ---- the cached slice ----

  predicate HasStopped(cfg: Config, t: Task, es: seq<Event>)
    requires cfg.Valid()
  {
    es != [] && (HasStopped(cfg, t, Front(es)) || Acts(After(cfg, t, Front(es)), Last(es)))
  }

  lemma StepKeepsCoherent(cfg: Config, t: Task, e: Event)
    requires cfg.Valid() && Inv(cfg, t)
    requires Coherent(cfg, t) || Acts(t, e)
    ensures Coherent(cfg, Step(cfg, t, e))
  {
  }

  /** Once a task has completed a stop, next_slice is its tier's slice in every later state. */
  lemma SliceStaysCoherent(cfg: Config, prio: nat, es: seq<Event>)
    requires cfg.Valid() && HasStopped(cfg, Alloc(cfg, prio), es)
    ensures Coherent(cfg, After(cfg, Alloc(cfg, prio), es))
  {
    var before := After(cfg, Alloc(cfg, prio), Front(es));
    AllocInv(cfg, prio);
    AfterKeepsInv(cfg, Alloc(cfg, prio), Front(es));
    if !Acts(before, Last(es)) { SliceStaysCoherent(cfg, prio, Front(es)); }
    StepKeepsCoherent(cfg, before, Last(es));
  }

  /** A task's first bout runs on the flat quantum, whatever its tier. In the unmodified profiles that fits the
      budget of its starting tier exactly for Esports and for tasks of nice 0 or more. */
  lemma FirstBoutSlice(p: Profile, prio: nat)
    ensures var cfg := Loaded(p, None, None, None);
            var t := Alloc(cfg, prio);
            t.nextSlice <= cfg.Budget(t.tier) <==> p.Esports? || prio >= 120
  {
    ProfileBudget(p, None, None, InitTier(prio));
  }

  /** Until its first acting stop a task keeps the slice and the tier it was allocated with. */
  lemma UnstoppedIsFresh(cfg: Config, t: Task, es: seq<Event>)
    requires cfg.Valid() && !HasStopped(cfg, t, es)
    ensures After(cfg, t, es).nextSlice == t.nextSlice && After(cfg, t, es).tier == t.tier
  {
    if es != [] {
      UnstoppedIsFresh(cfg, t, Front(es));
      NonStopKeepsSlice(cfg, After(cfg, t, Front(es)), Last(es));
    }
  }

  lemma NonStopKeepsSlice(cfg: Config, t: Task, e: Event)
    requires cfg.Valid() && !Acts(t, e)
    ensures Step(cfg, t, e).nextSlice == t.nextSlice && Step(cfg, t, e).tier == t.tier
  {
  }

  // ---- DRR++ ----

  /** The CPU time charged over a run: each acting stop charges its bout once. */
  function Charged(cfg: Config, t: Task, es: seq<Event>): nat
    requires cfg.Valid()
  {
    if es == [] then 0
    else
      var before := After(cfg, t, Front(es));
      Charged(cfg, t, Front(es)) + if Acts(before, Last(es)) then Bout(before, Last(es).now) else 0
  }

  lemma StopCharges(cfg: Config, t: Task, now: nat, runnable: bool)
    requires cfg.Valid() && t.lastRunAt != 0
    ensures var u := Stopping(cfg, t, now, runnable);
            && u.deficit == Charge(t.deficit, Bout(t, now))
            && u.isNew == (t.isNew && (Backoff(t) || u.deficit > 0))
  {
  }

  /** deficit = max(0, initial - charged), whichever path each stop took. */
  lemma DeficitConserved(cfg: Config, t: Task, es: seq<Event>)
    requires cfg.Valid()
    ensures After(cfg, t, es).deficit as int
            == if Charged(cfg, t, es) >= t.deficit then 0 else t.deficit - Charged(cfg, t, es)
  {
    if es != [] {
      DeficitConserved(cfg, t, Front(es));
      var before, e := After(cfg, t, Front(es)), Last(es);
      if Acts(before, e) { StopCharges(cfg, before, e.now, e.runnable); }
      else { NonStopKeepsDeficit(cfg, before, e); }
    }
  }

  lemma NonStopKeepsDeficit(cfg: Config, t: Task, e: Event)
    requires cfg.Valid() && !Acts(t, e)
    ensures Step(cfg, t, e).deficit == t.deficit && Step(cfg, t, e).isNew == t.isNew
  {
  }

  /** The new-flow flag is never set again, is clear only with the deficit spent, and does not survive
      a full pass that leaves the deficit spent. */
  lemma NewFlowFlag(cfg: Config, prio: nat, es: seq<Event>)
    requires cfg.Valid() && es != []
    ensures var t0 := Alloc(cfg, prio);
            var before, after := After(cfg, t0, Front(es)), After(cfg, t0, es);
            && (after.isNew ==> before.isNew)
            && (!after.isNew ==> after.deficit == 0)
            && (TakesFullPass(before, Last(es)) ==> (after.isNew <==> before.isNew && after.deficit > 0))
            && (!TakesFullPass(before, Last(es)) ==> after.isNew == before.isNew)
  {
    AllocInv(cfg, prio);
    AfterKeepsInv(cfg, Alloc(cfg, prio), es);
    var before, e := After(cfg, Alloc(cfg, prio), Front(es)), Last(es);
    if Acts(before, e) { StopCharges(cfg, before, e.now, e.runnable); }
    else { NonStopKeepsDeficit(cfg, before, e); }
  }

  // ---- the overrun register ----

  /** The samples a run recorded on full passes below T3 since the last forced demotion, oldest first. */
  function History(cfg: Config, t: Task, es: seq<Event>): seq<bool>
    requires cfg.Valid()
  {
    if es == [] then []
    else Recorded(After(cfg, t, Front(es)), Last(es), History(cfg, t, Front(es)))
  }

  function Recorded(t: Task, e: Event, h: seq<bool>): seq<bool> {
    if TakesFullPass(t, e) && t.tier < 3 then
      var h' := h + [Sample(t, e.now) > OverrunGate(t.tier)];
      if Overruns(h') >= 4 then [] else h'
    else h
  }

  /** Outcome k samples back. */
  predicate Back(h: seq<bool>, k: nat) {
    k < |h| && h[|h| - 1 - k]
  }

  /** Overruns among the last eight samples. */
  function Overruns(h: seq<bool>): nat {
    (if Back(h, 0) then 1 else 0) + (if Back(h, 1) then 1 else 0) + (if Back(h, 2) then 1 else 0) +
    (if Back(h, 3) then 1 else 0) + (if Back(h, 4) then 1 else 0) + (if Back(h, 5) then 1 else 0) +
    (if Back(h, 6) then 1 else 0) + (if Back(h, 7) then 1 else 0)
  }

  /** The register holds the last eight outcomes, newest in bit 0. */
  predicate Encodes(r: bv8, h: seq<bool>) {
    && (r & 1 != 0 <==> Back(h, 0)) && (r & 2 != 0 <==> Back(h, 1))
    && (r & 4 != 0 <==> Back(h, 2)) && (r & 8 != 0 <==> Back(h, 3))
    && (r & 16 != 0 <==> Back(h, 4)) && (r & 32 != 0 <==> Back(h, 5))
    && (r & 64 != 0 <==> Back(h, 6)) && (r & 128 != 0 <==> Back(h, 7))
  }

  lemma ShiftInBits(r: bv8, b: bv8)
    requires b <= 1
    ensures var s := (r << 1) | b;
            && (s & 1 != 0 <==> b == 1) && (s & 2 != 0 <==> r & 1 != 0) && (s & 4 != 0 <==> r & 2 != 0)
            && (s & 8 != 0 <==> r & 4 != 0) && (s & 16 != 0 <==> r & 8 != 0) && (s & 32 != 0 <==> r & 16 != 0)
            && (s & 64 != 0 <==> r & 32 != 0) && (s & 128 != 0 <==> r & 64 != 0)
  {
  }

  lemma ShiftEncodes(t: Task, rt: u16, h: seq<bool>)
    requires Encodes(t.overrun, h)
    ensures Encodes(Shifted(t, rt), h + [rt > OverrunGate(t.tier)])
  {
    ShiftInBits(t.overrun, if rt > OverrunGate(t.tier) then 1 else 0);
    var h' := h + [rt > OverrunGate(t.tier)];
    assert forall k: nat :: Back(h', k + 1) == Back(h, k);
  }

  lemma BitsAsHistory(r: bv8, h: seq<bool>)
    requires Encodes(r, h)
    ensures Popcount(r) == Overruns(h)
  {
  }

  lemma OneSampleMore(h: seq<bool>, over: bool)
    ensures Overruns(h + [over]) <= Overruns(h) + (if over then 1 else 0)
  {
    assert forall k: nat :: Back(h + [over], k + 1) == Back(h, k);
  }

  /** One event moves the register and the history together. */
  lemma RecordedStep(cfg: Config, t: Task, e: Event, h: seq<bool>)
    requires cfg.Valid() && Encodes(t.overrun, h) && Overruns(h) <= 3
    ensures Encodes(Step(cfg, t, e).overrun, Recorded(t, e, h)) && Overruns(Recorded(t, e, h)) <= 3
  {
    if TakesFullPass(t, e) && t.tier < 3 {
      var rt := Sample(t, e.now);
      ShiftEncodes(t, rt, h);
      BitsAsHistory(Shifted(t, rt), h + [rt > OverrunGate(t.tier)]);
      FullPassRegisterValue(cfg, t, e);
      assert Encodes(0, []);
    } else {
      OtherwiseRegisterValue(cfg, t, e);
    }
  }

  lemma FullPassRegisterValue(cfg: Config, t: Task, e: Event)
    requires cfg.Valid() && TakesFullPass(t, e) && t.tier < 3
    ensures Step(cfg, t, e).overrun == if ForcedDemotion(t, Sample(t, e.now)) then 0 else Shifted(t, Sample(t, e.now))
  {
  }

  lemma OtherwiseRegisterValue(cfg: Config, t: Task, e: Event)
    requires cfg.Valid() && (TakesFullPass(t, e) ==> t.tier == 3)
    ensures Step(cfg, t, e).overrun == t.overrun
  {
  }

  /** The register always encodes the recorded history, which never holds four overruns in its window. */
  lemma RegisterIsHistory(cfg: Config, prio: nat, es: seq<Event>)
    requires cfg.Valid()
    ensures Encodes(After(cfg, Alloc(cfg, prio), es).overrun, History(cfg, Alloc(cfg, prio), es))
    ensures Overruns(History(cfg, Alloc(cfg, prio), es)) <= 3
  {
    var t0 := Alloc(cfg, prio);
    if es == [] {
      assert Encodes(0, []);
    } else {
      RegisterIsHistory(cfg, prio, Front(es));
      RecordedStep(cfg, After(cfg, t0, Front(es)), Last(es), History(cfg, t0, Front(es)));
    }
  }

  lemma ForcedOutcome(cfg: Config, t: Task, e: Event)
    requires cfg.Valid() && TakesFullPass(t, e) && ForcedDemotion(t, Sample(t, e.now))
    ensures Step(cfg, t, e).tier > t.tier && Step(cfg, t, e).stable == 0
  {
  }

  /** A demotion is forced exactly when the fourth overrun enters the window; it raises the tier number
      and resets stability. */
  lemma ForcedExactlyOnFourth(cfg: Config, prio: nat, es: seq<Event>, e: Event)
    requires cfg.Valid()
    requires var t := After(cfg, Alloc(cfg, prio), es); TakesFullPass(t, e) && t.tier < 3
    ensures var t := After(cfg, Alloc(cfg, prio), es);
            var over := Sample(t, e.now) > OverrunGate(t.tier);
            var window := History(cfg, Alloc(cfg, prio), es) + [over];
            && (ForcedDemotion(t, Sample(t, e.now)) <==> over && Overruns(window) == 4)
            && (ForcedDemotion(t, Sample(t, e.now)) ==> Step(cfg, t, e).tier > t.tier && Step(cfg, t, e).stable == 0)
  {
    var t := After(cfg, Alloc(cfg, prio), es);
    var h, rt := History(cfg, Alloc(cfg, prio), es), Sample(t, e.now);
    RegisterIsHistory(cfg, prio, es);
    ShiftEncodes(t, rt, h);
    BitsAsHistory(Shifted(t, rt), h + [rt > OverrunGate(t.tier)]);
    OneSampleMore(h, rt > OverrunGate(t.tier));
    if ForcedDemotion(t, rt) { ForcedOutcome(cfg, t, e); }
  }
}
