/** The classifier against true CPU time: what a task really ran, from the times of its starts and stops alone, and
    what the 32-bit, 1024 ns, 16-bit measurement makes of it. */
module TrueTime {
  import opened TierConfig
  import opened TaskModel
  import opened TaskInvariant
  import opened TaskRuns

  // ---- a stopwatch on the task ----

  /** When the task was put on a CPU, if it is on one; and, for the burst since it last slept: nanoseconds run, bouts,
      whole 1024 ns units bout by bout, nanoseconds those units leave out, and whether every bout is readable. */
  datatype Watch = Watch(since: Option<nat>, burst: nat, bouts: nat, units: nat, lost: nat, readable: bool)

  const IDLE := Watch(None, 0, 0, 0, 0, true)

  /** A bout the measurement reads right: shorter than the 32-bit clock, or saturating it anyway. */
  predicate Readable(d: nat) {
    d < U32 || d % U32 >= 0xFFFF * 1024
  }

  function Span(w: Watch, now: nat): nat {
    if w.since.Some? && w.since.value <= now then now - w.since.value else 0
  }

  /** The burst with the bout that ends now. */
  function Ended(w: Watch, now: nat): Watch {
    var d := Span(w, now);
    Watch(None, w.burst + d, w.bouts + 1, w.units + d / 1024, w.lost + d % 1024, w.readable && Readable(d))
  }

  function Clock(w: Watch, e: Event): Watch {
    match e
    case Run(now) => w.(since := Some(now))
    case Stop(now, runnable) => if runnable then Ended(w, now) else IDLE
    case _ => w
  }

  function Clocked(w: Watch, es: seq<Event>): Watch {
    if es == [] then w else Clock(Clocked(w, Front(es)), Last(es))
  }

  /** On a CPU, since no later than now. */
  predicate OnCpu(w: Watch, now: nat) {
    w.since.Some? && w.since.value <= now
  }

  /** The kernel's order: started when off the CPU, at a time that is not the unset sentinel; stopped and ticked when
      on it. */
  predicate Legal(w: Watch, e: Event) {
    match e
    case Run(now) => w.since.None? && now % U32 != 0
    case Stop(now, _) => OnCpu(w, now)
    case Tick(_) => w.since.Some?
    case _ => true
  }

  predicate Scheduled(w: Watch, es: seq<Event>) {
    es == [] || (Scheduled(w, Front(es)) && Legal(Clocked(w, Front(es)), Last(es)))
  }

  /** Units and what they leave out make up the time run; each bout leaves out less than one unit. */
  predicate Adds(w: Watch) {
    1024 * w.units + w.lost == w.burst && w.lost <= 1023 * w.bouts
  }

  lemma EndedAdds(w: Watch, now: nat)
    requires Adds(w)
    ensures Adds(Ended(w, now))
  {
  }

  lemma ClockAdds(w: Watch, e: Event)
    requires Adds(w)
    ensures Adds(Clock(w, e))
  {
    if e.Stop? { EndedAdds(w, e.now); }
  }

  /** The charged units lie between the true length and the true length less one unit per cut. */
  lemma UnitsAgainstTime(w: Watch)
    requires Adds(w) && w.bouts > 0
    ensures w.units <= w.burst / 1024 <= w.units + (w.bouts - 1)
    ensures w.units == w.burst / 1024 <==> w.lost < 1024
  {
  }

  // ---- one bout ----

  /** A bout is measured right, up to saturation, if and only if it is shorter than 2^32 ns or what is left of it
      modulo 2^32 still saturates. It is never measured too long. */
  lemma BoutExactly(t: Task, start: nat, d: nat)
    requires t.lastRunAt == start % U32
    ensures Bout(t, start + d) == Min(d % U32 / 1024, 0xFFFF)
    ensures Bout(t, start + d) == Min(d / 1024, 0xFFFF) <==> Readable(d)
    ensures Bout(t, start + d) <= Min(d / 1024, 0xFFFF)
  {
    ElapsedExact(start, start + d);
    UnitsOf(d, d % U32);
  }

  lemma UnitsOf(d: nat, r: nat)
    requires r == d % U32
    ensures Min(r / 1024, 0xFFFF) == Min(d / 1024, 0xFFFF) <==> d < U32 || r >= 0xFFFF * 1024
    ensures Min(r / 1024, 0xFFFF) <= Min(d / 1024, 0xFFFF)
  {
    if d >= U32 { assert d / 1024 >= 0xFFFF; }
  }

  // ---- the context and the stopwatch ----

  /** The context's stamp is the true start, and its accumulator is the units of the burst, saturated; at most that
      when some bout was unreadable. */
  predicate Tied(t: Task, w: Watch) {
    && (w.since.Some? ==> t.lastRunAt != 0 && t.lastRunAt == w.since.value % U32)
    && t.burstAcc <= Min(w.units, 0xFFFF)
    && (w.readable ==> t.burstAcc == Min(w.units, 0xFFFF))
  }

  /** What a legal stop samples, against the units of the burst it ends or cuts. */
  lemma SampleOfStop(t: Task, w: Watch, now: nat)
    requires Tied(t, w) && OnCpu(w, now)
    ensures Sample(t, now) <= Min(Ended(w, now).units, 0xFFFF)
    ensures Ended(w, now).readable ==> Sample(t, now) == Min(Ended(w, now).units, 0xFFFF)
  {
    BoutExactly(t, w.since.value, Span(w, now));
  }

  lemma StepTied(cfg: Config, t: Task, w: Watch, e: Event)
    requires cfg.Valid() && Tied(t, w) && Legal(w, e)
    ensures Tied(Step(cfg, t, e), Clock(w, e))
  {
    match e
    case Stop(now, runnable) =>
      SampleOfStop(t, w, now);
      StopAverages(cfg, t, now, runnable);
    case Run(now) =>
    case Tick(now) =>
    case _ => OtherKeepsStamp(cfg, t, e);
  }

  lemma OtherKeepsStamp(cfg: Config, t: Task, e: Event)
    requires cfg.Valid() && !e.Stop? && !e.Run? && !e.Tick?
    ensures Step(cfg, t, e).lastRunAt == t.lastRunAt && Step(cfg, t, e).burstAcc == t.burstAcc
  {
  }

  lemma {:induction false} RunTied(cfg: Config, t: Task, w: Watch, es: seq<Event>)
    requires cfg.Valid() && Tied(t, w) && Adds(w) && Scheduled(w, es)
    ensures Tied(After(cfg, t, es), Clocked(w, es)) && Adds(Clocked(w, es))
  {
    if es != [] {
      RunTied(cfg, t, w, Front(es));
      StepTied(cfg, After(cfg, t, Front(es)), Clocked(w, Front(es)), Last(es));
      ClockAdds(Clocked(w, Front(es)), Last(es));
    }
  }

  lemma AllocTied(cfg: Config, prio: nat)
    requires cfg.Valid()
    ensures Tied(Alloc(cfg, prio), IDLE) && Adds(IDLE)
  {
  }

  // ---- cuts, in true time ----

  /** The burst a run of preempted bouts and a final blocking stop make up. */
  function Whole(es: seq<Event>, now: nat): Watch {
    Ended(Clocked(IDLE, es), now)
  }

  /** However preemptions cut a burst of readable bouts, it is sampled at its true length if and only if the bouts'
      remainders add up to less than one unit, or it saturates anyway; otherwise it is short by at most one unit
      per cut. */
  lemma CutSample(cfg: Config, t: Task, es: seq<Event>, now: nat)
    requires cfg.Valid() && Tied(t, IDLE)
    requires Scheduled(IDLE, es) && OnCpu(Clocked(IDLE, es), now) && Whole(es, now).readable
    ensures var w, s := Whole(es, now), Sample(After(cfg, t, es), now);
            && (s == Min(w.burst / 1024, 0xFFFF) <==> w.lost < 1024 || w.units >= 0xFFFF)
            && s <= Min(w.burst / 1024, 0xFFFF) <= s + (w.bouts - 1)
  {
    var b := Clocked(IDLE, es);
    RunTied(cfg, t, IDLE, es);
    SampleOfStop(After(cfg, t, es), b, now);
    EndedAdds(b, now);
    UnitsAgainstTime(Whole(es, now));
  }

  lemma CutBySample(cfg: Config, t: Task, es: seq<Event>, now: nat)
    requires cfg.Valid() && t.burstAcc == 0 && Preempted(es) && After(cfg, t, es).lastRunAt != 0
    ensures var s := Sample(After(cfg, t, es), now);
            var cut := Step(cfg, After(cfg, t, es), Stop(now, false)).avg;
            && (s <= t.avg ==> cut == Ewma(t.avg, s, false))
            && (s > t.avg ==> Ewma(t.avg, s, false) <= cut <= s)
  {
    CutIndependence(cfg, t, es, now);
    BurstSoFar(cfg, t, es);
    EwmaBetween(t.avg, t.avg, false);
  }

  /** A burst of d ns run in one readable bout. */
  function OneBout(start: nat, d: nat): seq<Event> {
    [Run(start), Stop(start + d, false)]
  }

  lemma OneBoutResult(cfg: Config, t: Task, start: nat, d: nat)
    requires cfg.Valid() && t.burstAcc == 0 && start % U32 != 0 && Readable(d)
    ensures After(cfg, t, OneBout(start, d)).avg == Ewma(t.avg, Min(d / 1024, 0xFFFF), false)
  {
    var u := Running(t, start);
    TwoEvents(cfg, t, Run(start), Stop(start + d, false));
    BoutExactly(u, start, d);
    StopAverages(cfg, u, start + d, false);
  }

  lemma EwmaSlack(avg: u16, s: u16, r: u16, n: nat)
    requires s <= r <= s + n && r <= avg
    ensures Ewma(avg, s, false) <= Ewma(avg, r, false) <= Ewma(avg, s, false) + (n + 3) / 4
  {
  }

  lemma EwmaShortfall(avg: u16, s: u16, r: u16, n: nat)
    requires s <= r <= s + n
    ensures Ewma(avg, r, false) <= Ewma(avg, s, false) + (n + 3) / 4 + 1
  {
  }

  /** Cut and uncut, in true time. A burst within the starting average, of readable bouts: the same average when the
      bouts' remainders add up to less than one unit, and otherwise one lower by at most a quarter unit per cut,
      rounded up. A longer burst lands no higher than the burst itself, and at most one further unit below the uncut
      run. */
  lemma CutInTrueTime(cfg: Config, t: Task, es: seq<Event>, now: nat, start: nat)
    requires cfg.Valid() && Tied(t, IDLE) && Preempted(es) && start % U32 != 0
    requires Scheduled(IDLE, es) && OnCpu(Clocked(IDLE, es), now)
    requires Whole(es, now).readable && Readable(Whole(es, now).burst)
    ensures var w := Whole(es, now);
            var cut := Step(cfg, After(cfg, t, es), Stop(now, false)).avg;
            var uncut := After(cfg, t, OneBout(start, w.burst)).avg;
            && (w.burst / 1024 <= t.avg && w.lost < 1024 ==> cut == uncut)
            && (w.burst / 1024 <= t.avg ==> cut <= uncut <= cut + (w.bouts + 2) / 4)
            && (w.lost < 1024 ==> uncut <= cut)
            && uncut <= cut + (w.bouts + 2) / 4 + 1
            && (w.burst / 1024 > t.avg ==>
                  Ewma(t.avg, Min(w.units, 0xFFFF), false) <= cut <= Min(w.burst / 1024, 0xFFFF))
  {
    var w := Whole(es, now);
    var s, r: u16 := Sample(After(cfg, t, es), now), Min(w.burst / 1024, 0xFFFF);
    RunTied(cfg, t, IDLE, es);
    SampleOfStop(After(cfg, t, es), Clocked(IDLE, es), now);
    CutSample(cfg, t, es, now);
    CutBySample(cfg, t, es, now);
    OneBoutResult(cfg, t, start, w.burst);
    EwmaBetween(t.avg, s, false);
    EwmaShortfall(t.avg, s, r, w.bouts - 1);
    if r <= t.avg { EwmaSlack(t.avg, s, r, w.bouts - 1); }
  }

  // ---- convergence, in true time ----

  /** Completed bursts, counted from the events. */
  function Blocks(es: seq<Event>): nat {
    if es == [] then 0 else Blocks(Front(es)) + if Last(es).Stop? && !Last(es).runnable then 1 else 0
  }

  /** A finished burst that must be sampled at `us` or more: readable, and long enough to spare each bout's
      remainder. */
  predicate Long(w: Watch, us: nat) {
    w.readable && w.burst >= us * 1024 + 1023 * w.bouts
  }

  /** Every burst completed in the run is that long, by the stopwatch. */
  predicate LongBursts(w: Watch, es: seq<Event>, us: nat) {
    es == [] ||
    (LongBursts(w, Front(es), us) &&
     (Last(es).Stop? && !Last(es).runnable ==> Long(Ended(Clocked(w, Front(es)), Last(es).now), us)))
  }

  /** No burst, finished or cut short, reaches `us` units of true time. */
  predicate ShortBursts(w: Watch, es: seq<Event>, us: nat) {
    es == [] ||
    (ShortBursts(w, Front(es), us) &&
     (Last(es).Stop? ==> Ended(Clocked(w, Front(es)), Last(es).now).burst < us * 1024))
  }

  /** A burst's units reach `us` exactly when its time less its bouts' remainders does. */
  lemma LongExactly(w: Watch, us: nat)
    requires Adds(w)
    ensures w.units >= us <==> w.burst - w.lost >= us * 1024
    ensures Long(w, us) ==> w.units >= us
  {
  }

  lemma LegalStopActs(t: Task, w: Watch, e: Event)
    requires Tied(t, w) && Legal(w, e)
    ensures SleepStop(t, e) <==> e.Stop? && !e.runnable
    ensures Acts(t, e) <==> e.Stop?
  {
  }

  lemma LongSample(t: Task, w: Watch, now: nat, us: u16)
    requires Tied(t, w) && Adds(w) && OnCpu(w, now) && Long(Ended(w, now), us)
    ensures Sample(t, now) >= us
  {
    EndedAdds(w, now);
    SampleOfStop(t, w, now);
    LongExactly(Ended(w, now), us);
  }

  lemma {:induction false} ReadAsLong(cfg: Config, t: Task, w: Watch, es: seq<Event>, us: u16)
    requires cfg.Valid() && Tied(t, w) && Adds(w) && Scheduled(w, es) && LongBursts(w, es, us)
    ensures BurstsAtLeast(cfg, t, es, us) && Bursts(cfg, t, es) == Blocks(es)
  {
    if es != [] {
      var b, c, e := After(cfg, t, Front(es)), Clocked(w, Front(es)), Last(es);
      ReadAsLong(cfg, t, w, Front(es), us);
      RunTied(cfg, t, w, Front(es));
      LegalStopActs(b, c, e);
      if e.Stop? && !e.runnable { LongSample(b, c, e.now, us); }
    }
  }

  lemma ShortSample(t: Task, w: Watch, now: nat, us: nat)
    requires Tied(t, w) && Adds(w) && OnCpu(w, now) && Ended(w, now).burst < us * 1024
    ensures Sample(t, now) < us
  {
    EndedAdds(w, now);
    SampleOfStop(t, w, now);
    UnitsBelow(Ended(w, now), us);
  }

  lemma UnitsBelow(v: Watch, us: nat)
    requires Adds(v) && v.burst < us * 1024
    ensures v.units < us
  {
  }

  lemma {:induction false} ReadAsShort(cfg: Config, t: Task, w: Watch, es: seq<Event>, us: nat)
    requires cfg.Valid() && Tied(t, w) && Adds(w) && Scheduled(w, es) && ShortBursts(w, es, us)
    ensures BurstsBelow(cfg, t, es, us) && Bursts(cfg, t, es) == Blocks(es)
  {
    if es != [] {
      var b, c, e := After(cfg, t, Front(es)), Clocked(w, Front(es)), Last(es);
      ReadAsShort(cfg, t, w, Front(es), us);
      RunTied(cfg, t, w, Front(es));
      LegalStopActs(b, c, e);
      if e.Stop? { ShortSample(b, c, e.now, us); }
    }
  }

  lemma PastIsTied(cfg: Config, prio: nat, past: seq<Event>)
    requires cfg.Valid() && Scheduled(IDLE, past)
    ensures Tied(After(cfg, Alloc(cfg, prio), past), Clocked(IDLE, past)) && Adds(Clocked(IDLE, past))
    ensures Inv(cfg, After(cfg, Alloc(cfg, prio), past))
  {
    AllocTied(cfg, prio);
    RunTied(cfg, Alloc(cfg, prio), IDLE, past);
    AllocInv(cfg, prio);
    AfterKeepsInv(cfg, Alloc(cfg, prio), past);
  }

  lemma BulkByTheWatch(cfg: Config, t: Task, w: Watch, es: seq<Event>)
    requires cfg.Valid() && Inv(cfg, t) && Tied(t, w) && Adds(w) && Scheduled(w, es) && Quiet(cfg, t, es)
    requires LongBursts(w, es, GATE_T2) && Blocks(es) >= 210
    ensures After(cfg, t, es).tier == 3
  {
    ReadAsLong(cfg, t, w, es, GATE_T2);
    BulkSettles(cfg, t, es);
  }

  lemma ShortByTheWatch(cfg: Config, t: Task, w: Watch, es: seq<Event>)
    requires cfg.Valid() && Inv(cfg, t) && Tied(t, w) && Adds(w) && Scheduled(w, es) && Quiet(cfg, t, es)
    requires ShortBursts(w, es, 88) && Blocks(es) >= 66
    ensures After(cfg, t, es).tier == 0
  {
    ReadAsShort(cfg, t, w, es, 88);
    CriticalSettles(cfg, t, es);
  }

  /** From every reachable state, in true time: 210 or more completed bursts, each of readable bouts and at least
      8000 units plus the bouts' possible remainders, leave the task in T3. */
  lemma BulkConvergesInTrueTime(cfg: Config, prio: nat, past: seq<Event>, es: seq<Event>)
    requires cfg.Valid() && Scheduled(IDLE, past) && Scheduled(Clocked(IDLE, past), es)
    requires Quiet(cfg, After(cfg, Alloc(cfg, prio), past), es)
    requires LongBursts(Clocked(IDLE, past), es, GATE_T2) && Blocks(es) >= 210
    ensures After(cfg, After(cfg, Alloc(cfg, prio), past), es).tier == 3
  {
    PastIsTied(cfg, prio, past);
    BulkByTheWatch(cfg, After(cfg, Alloc(cfg, prio), past), Clocked(IDLE, past), es);
  }

  /** From every reachable state, in true time: 66 or more completed bursts, with every burst shorter than 88 units,
      leave the task in T0. */
  lemma CriticalConvergesInTrueTime(cfg: Config, prio: nat, past: seq<Event>, es: seq<Event>)
    requires cfg.Valid() && Scheduled(IDLE, past) && Scheduled(Clocked(IDLE, past), es)
    requires Quiet(cfg, After(cfg, Alloc(cfg, prio), past), es)
    requires ShortBursts(Clocked(IDLE, past), es, 88) && Blocks(es) >= 66
    ensures After(cfg, After(cfg, Alloc(cfg, prio), past), es).tier == 0
  {
    PastIsTied(cfg, prio, past);
    ShortByTheWatch(cfg, After(cfg, Alloc(cfg, prio), past), Clocked(IDLE, past), es);
  }

  // ---- runs of equal bursts ----

  /** n bursts of d ns, each in one bout, starting every 2^32 ns. */
  function Beat(d: nat, n: nat): seq<Event> {
    if n == 0 then [] else Beat(d, n - 1) + [Run(1 + (n - 1) * U32)] + [Stop(1 + (n - 1) * U32 + d, false)]
  }

  lemma BeatEnds(d: nat, n: nat)
    requires n > 0
    ensures var es, r := Beat(d, n), Beat(d, n - 1) + [Run(1 + (n - 1) * U32)];
            && es != [] && Front(es) == r && Last(es) == Stop(1 + (n - 1) * U32 + d, false)
            && r != [] && Front(r) == Beat(d, n - 1) && Last(r) == Run(1 + (n - 1) * U32)
            && (1 + (n - 1) * U32) % U32 == 1
  {
    ModShift(1, -(n - 1));
  }

  lemma AfterTwo(cfg: Config, t: Task, es: seq<Event>, d: Event, e: Event)
    requires cfg.Valid()
    ensures After(cfg, t, es + [d] + [e]) == Step(cfg, Step(cfg, After(cfg, t, es), d), e)
    ensures Front(es + [d] + [e]) == es + [d] && Last(es + [d] + [e]) == e
    ensures Front(es + [d]) == es && Last(es + [d]) == d
    ensures After(cfg, t, es + [d]) == Step(cfg, After(cfg, t, es), d)
  {
    assert Front(es + [d] + [e]) == es + [d];
    assert Front(es + [d]) == es;
  }

  /** One burst of d ns in one bout: what it samples and what it leaves. */
  lemma OneBeat(cfg: Config, t: Task, start: nat, d: nat)
    requires cfg.Valid() && t.burstAcc == 0 && start % U32 != 0
    ensures var r := Running(t, start);
            && r.lastRunAt != 0 && Sample(r, start + d) == Min(d % U32 / 1024, 0xFFFF)
            && Stopping(cfg, r, start + d, false).burstAcc == 0
  {
    var r := Running(t, start);
    BoutExactly(r, start, d);
    StopAverages(cfg, r, start + d, false);
  }

  /** Such a run takes no recovery, and every stop samples the same truncated length. */
  lemma {:induction false} BeatRun(cfg: Config, t: Task, d: nat, n: nat)
    requires cfg.Valid() && t.burstAcc == 0
    ensures var es := Beat(d, n);
            && Quiet(cfg, t, es) && AllBursts(cfg, t, es, Min(d % U32 / 1024, 0xFFFF))
            && Bursts(cfg, t, es) == n && After(cfg, t, es).burstAcc == 0
  {
    if n > 0 {
      var p, start := Beat(d, n - 1), 1 + (n - 1) * U32;
      BeatRun(cfg, t, d, n - 1);
      BeatEnds(d, n);
      AfterTwo(cfg, t, p, Run(start), Stop(start + d, false));
      OneBeat(cfg, After(cfg, t, p), start, d);
      BeatMore(cfg, t, p, Run(start), Stop(start + d, false), Min(d % U32 / 1024, 0xFFFF));
    }
  }

  lemma BeatMore(cfg: Config, t: Task, p: seq<Event>, d: Event, e: Event, us: nat)
    requires cfg.Valid() && d.Run? && e.Stop? && !e.runnable
    requires Quiet(cfg, t, p) && AllBursts(cfg, t, p, us)
    requires var r := Step(cfg, After(cfg, t, p), d); r.lastRunAt != 0 && Sample(r, e.now) == us
    ensures var es := p + [d] + [e];
            Quiet(cfg, t, es) && AllBursts(cfg, t, es, us) && Bursts(cfg, t, es) == Bursts(cfg, t, p) + 1
  {
    AfterTwo(cfg, t, p, d, e);
    assert Quiet(cfg, t, p + [d]) && AllBursts(cfg, t, p + [d], us) && Bursts(cfg, t, p + [d]) == Bursts(cfg, t, p);
  }

  /** And it is a legal one, off the CPU at its end. */
  lemma {:induction false} BeatLegal(d: nat, n: nat)
    ensures Scheduled(IDLE, Beat(d, n)) && Clocked(IDLE, Beat(d, n)) == IDLE && Blocks(Beat(d, n)) == n
  {
    if n > 0 {
      BeatLegal(d, n - 1);
      BeatEnds(d, n);
    }
  }

  lemma EqualBursts(cfg: Config, t: Task, es: seq<Event>, us: nat, lo: nat, hi: nat)
    requires cfg.Valid() && AllBursts(cfg, t, es, us)
    ensures lo <= us ==> BurstsAtLeast(cfg, t, es, lo)
    ensures us < hi ==> BurstsBelow(cfg, t, es, hi)
  {
    if es != [] { EqualBursts(cfg, t, Front(es), us, lo, hi); }
  }

  // ---- where true time and the classifier part ----

  /** A task that runs 2^32 ns (4.29 s) at a stretch, 66 times or more, is classified T0, whatever its priority:
      every bout reads as zero. */
  lemma HogsReadAsNothing(cfg: Config, prio: nat, n: nat)
    requires cfg.Valid() && n >= 66
    ensures Scheduled(IDLE, Beat(U32, n)) && Blocks(Beat(U32, n)) == n && !Readable(U32)
    ensures After(cfg, Alloc(cfg, prio), Beat(U32, n)).tier == 0
  {
    BeatLegal(U32, n);
    ShortBeats(cfg, prio, U32, n);
  }

  lemma ShortBeats(cfg: Config, prio: nat, d: nat, n: nat)
    requires cfg.Valid() && n >= 66 && d % U32 / 1024 < 88
    ensures var t, es := Alloc(cfg, prio), Beat(d, n);
            Quiet(cfg, t, es) && AllBursts(cfg, t, es, d % U32 / 1024) && After(cfg, t, es).tier == 0
  {
    var t := Alloc(cfg, prio);
    AllocInv(cfg, prio);
    BeatRun(cfg, t, d, n);
    EqualBursts(cfg, t, Beat(d, n), d % U32 / 1024, 0, 88);
    CriticalSettles(cfg, t, Beat(d, n));
  }

  lemma LongBeats(cfg: Config, prio: nat, d: nat, n: nat)
    requires cfg.Valid() && n >= 210 && GATE_T2 <= d % U32 / 1024 <= 0xFFFF
    ensures var t, es := Alloc(cfg, prio), Beat(d, n);
            Quiet(cfg, t, es) && AllBursts(cfg, t, es, d % U32 / 1024) && After(cfg, t, es).tier == 3
  {
    var t := Alloc(cfg, prio);
    AllocInv(cfg, prio);
    BeatRun(cfg, t, d, n);
    EqualBursts(cfg, t, Beat(d, n), d % U32 / 1024, GATE_T2, 0);
    BulkSettles(cfg, t, Beat(d, n));
  }

  /** When the n-th of them starts. */
  function Slot(n: nat): nat {
    1 + n * 1024
  }

  /** n bouts of 1023 ns, each cut by a preemption. */
  function Chopped(n: nat): seq<Event> {
    if n == 0 then [] else Chopped(n - 1) + [Run(Slot(n - 1))] + [Stop(Slot(n - 1) + 1023, true)]
  }

  /** n bouts of 1023 ns by the stopwatch. */
  function Slivers(n: nat): Watch {
    Watch(None, n * 1023, n, 0, n * 1023, true)
  }

  lemma OneSliver(n: nat, start: nat)
    ensures Ended(Slivers(n).(since := Some(start)), start + 1023) == Slivers(n + 1)
  {
  }

  lemma SlotStamps(n: nat)
    requires n < 0x40_0000
    ensures Slot(n) % U32 != 0
  {
  }

  lemma OneMore(p: seq<Event>, e: Event)
    requires Scheduled(IDLE, p) && Preempted(p) && Legal(Clocked(IDLE, p), e)
    requires !e.WakeQueued? && (e.Stop? ==> e.runnable)
    ensures Scheduled(IDLE, p + [e]) && Preempted(p + [e]) && Clocked(IDLE, p + [e]) == Clock(Clocked(IDLE, p), e)
  {
    assert Front(p + [e]) == p;
  }

  lemma {:induction false} ChoppedLegal(n: nat)
    requires n <= 0x40_0000
    ensures Scheduled(IDLE, Chopped(n)) && Preempted(Chopped(n)) && Clocked(IDLE, Chopped(n)) == Slivers(n)
  {
    if n > 0 {
      var start := Slot(n - 1);
      ChoppedLegal(n - 1);
      SlotStamps(n - 1);
      OneMore(Chopped(n - 1), Run(start));
      OneSliver(n - 1, start);
      OneMore(Chopped(n - 1) + [Run(start)], Stop(start + 1023, true));
    }
  }

  lemma SliverKeeps(cfg: Config, b: Task, d: Event, e: Event)
    requires cfg.Valid() && b.burstAcc == 0 && d.Run? && d.now % U32 != 0 && e.Stop? && e.now == d.now + 1023
    ensures var u := Step(cfg, Step(cfg, b, d), e); u.burstAcc == 0 && u.avg == Ewma(b.avg, 0, e.runnable)
  {
    ShortBout(cfg, b, d.now, e.runnable);
  }

  lemma {:induction false} ChoppedRun(cfg: Config, t: Task, n: nat)
    requires cfg.Valid() && t.burstAcc == 0 && n <= 0x40_0000
    ensures After(cfg, t, Chopped(n)).burstAcc == 0 && After(cfg, t, Chopped(n)).avg == t.avg
  {
    if n > 0 {
      var p, d, e := Chopped(n - 1), Run(Slot(n - 1)), Stop(Slot(n - 1) + 1023, true);
      ChoppedRun(cfg, t, n - 1);
      SlotStamps(n - 1);
      AfterTwo(cfg, t, p, d, e);
      SliverKeeps(cfg, After(cfg, t, p), d, e);
    }
  }

  lemma ChoppedWhole(n: nat)
    requires n < 0x40_0000
    ensures var es := Chopped(n) + [Run(Slot(n))];
            Scheduled(IDLE, es) && Preempted(es) && Whole(es, Slot(n) + 1023) == Slivers(n + 1)
  {
    ChoppedLegal(n);
    SlotStamps(n);
    OneMore(Chopped(n), Run(Slot(n)));
    OneSliver(n, Slot(n));
  }

  lemma ChoppedResult(cfg: Config, t: Task, n: nat)
    requires cfg.Valid() && t.burstAcc == 0 && n < 0x40_0000
    ensures Step(cfg, After(cfg, t, Chopped(n) + [Run(Slot(n))]), Stop(Slot(n) + 1023, false)).avg
            == Ewma(t.avg, 0, false)
  {
    var p, d, e := Chopped(n), Run(Slot(n)), Stop(Slot(n) + 1023, false);
    ChoppedRun(cfg, t, n);
    SlotStamps(n);
    AfterTwo(cfg, t, p, d, e);
    SliverKeeps(cfg, After(cfg, t, p), d, e);
  }

  /** The family in which cuts lose everything: a burst of n + 1 bouts of 1023 ns is sampled as zero, whatever its
      length; in one bout it is sampled at that length. */
  lemma CutsLoseTime(cfg: Config, t: Task, n: nat)
    requires cfg.Valid() && t.burstAcc == 0 && n < 0x40_0000
    ensures var es := Chopped(n) + [Run(Slot(n))];
            && Scheduled(IDLE, es) && Preempted(es) && Whole(es, Slot(n) + 1023) == Slivers(n + 1)
            && Step(cfg, After(cfg, t, es), Stop(Slot(n) + 1023, false)).avg == Ewma(t.avg, 0, false)
    ensures After(cfg, t, OneBout(1, (n + 1) * 1023)).avg == Ewma(t.avg, Min((n + 1) * 1023 / 1024, 0xFFFF), false)
  {
    ChoppedWhole(n);
    ChoppedResult(cfg, t, n);
    OneBoutResult(cfg, t, 1, (n + 1) * 1023);
  }

  /** From average 100, a burst of 8184 ns ends at 76 in one bout, and at 75 in eight bouts of 1023 ns. */
  lemma CutsLoseTimeHere(cfg: Config, t: Task, n: nat)
    requires cfg.Valid() && t.burstAcc == 0 && t.avg == 100 && n == 7
    ensures Whole(Chopped(n) + [Run(Slot(n))], Slot(n) + 1023).burst == 8184
    ensures Step(cfg, After(cfg, t, Chopped(n) + [Run(Slot(n))]), Stop(Slot(n) + 1023, false)).avg == 75
    ensures After(cfg, t, OneBout(1, 8184)).avg == 76
  {
    CutsLoseTime(cfg, t, n);
  }

  /** A bout of 1023 ns samples what was accumulated before it. */
  lemma ShortBout(cfg: Config, t: Task, start: nat, runnable: bool)
    requires cfg.Valid() && t.burstAcc == 0 && start % U32 != 0
    ensures var r := Running(t, start);
            && r.lastRunAt != 0 && Sample(r, start + 1023) == 0
            && Stopping(cfg, r, start + 1023, runnable).burstAcc == 0
            && Stopping(cfg, r, start + 1023, runnable).avg == Ewma(t.avg, 0, runnable)
  {
    var r := Running(t, start);
    BoutExactly(r, start, 1023);
    StopAverages(cfg, r, start + 1023, runnable);
  }

  // ---- which burst lengths cross the gates ----

  /** Average 91 or more, bursts of 88 us or more: a task outside T0 stays outside. */
  lemma {:induction false} StaysOutOfT0(cfg: Config, t: Task, es: seq<Event>)
    requires cfg.Valid() && Inv(cfg, t) && Quiet(cfg, t, es) && BurstsAtLeast(cfg, t, es, 88)
    requires t.tier >= 1 && t.avg >= 91
    ensures After(cfg, t, es).tier >= 1 && After(cfg, t, es).avg >= 91
  {
    if es != [] {
      StaysOutOfT0(cfg, t, Front(es));
      AfterKeepsInv(cfg, t, Front(es));
      var b, e := After(cfg, t, Front(es)), Last(es);
      if Acts(b, e) { StopOutOfT0(cfg, b, e.now, e.runnable); } else { NonStopKeepsClass(cfg, b, e); }
    }
  }

  lemma StopOutOfT0(cfg: Config, t: Task, now: nat, runnable: bool)
    requires cfg.Valid() && t.lastRunAt != 0 && t.tier >= 1 && t.avg >= 91 && (runnable || Sample(t, now) >= 88)
    ensures var u := Stopping(cfg, t, now, runnable); u.tier >= 1 && u.avg >= 91
  {
    StopAverages(cfg, t, now, runnable);
    if !Backoff(t) { HardDemoteCapNeverDecides(t, Ewma(t.avg, Sample(t, now), runnable), Sample(t, now)); }
  }

  /** Average below 8000 and no burst reaching it: a task outside T3 stays outside. */
  lemma {:induction false} StaysOutOfT3(cfg: Config, t: Task, es: seq<Event>)
    requires cfg.Valid() && Inv(cfg, t) && Quiet(cfg, t, es) && BurstsBelow(cfg, t, es, GATE_T2)
    requires t.tier <= 2 && t.avg < GATE_T2
    ensures After(cfg, t, es).tier <= 2 && After(cfg, t, es).avg < GATE_T2
  {
    if es != [] {
      StaysOutOfT3(cfg, t, Front(es));
      AfterKeepsInv(cfg, t, Front(es));
      var b, e := After(cfg, t, Front(es)), Last(es);
      if Acts(b, e) { StopOutOfT3(cfg, b, e.now, e.runnable); } else { NonStopKeepsClass(cfg, b, e); }
    }
  }

  lemma StopOutOfT3(cfg: Config, t: Task, now: nat, runnable: bool)
    requires cfg.Valid() && Inv(cfg, t) && t.lastRunAt != 0
    requires t.tier <= 2 && t.avg < GATE_T2 && Sample(t, now) < GATE_T2
    ensures var u := Stopping(cfg, t, now, runnable); u.tier <= 2 && u.avg < GATE_T2
  {
    StopAverages(cfg, t, now, runnable);
    if t.tier == 2 { CleanShift(t, Sample(t, now)); }
    if !Backoff(t) { HardDemoteCapNeverDecides(t, Ewma(t.avg, Sample(t, now), runnable), Sample(t, now)); }
  }

  lemma NeverT0(cfg: Config, prio: nat, u: u16, es: seq<Event>)
    requires cfg.Valid() && prio >= 120 && u >= 88
    requires Quiet(cfg, Alloc(cfg, prio), es) && AllBursts(cfg, Alloc(cfg, prio), es, u)
    ensures After(cfg, Alloc(cfg, prio), es).tier != 0
  {
    AllocInv(cfg, prio);
    EqualBursts(cfg, Alloc(cfg, prio), es, u, 88, 0);
    StaysOutOfT0(cfg, Alloc(cfg, prio), es);
  }

  lemma NeverT3(cfg: Config, prio: nat, u: u16, es: seq<Event>)
    requires cfg.Valid() && prio <= 130 && u < GATE_T2
    requires Quiet(cfg, Alloc(cfg, prio), es) && AllBursts(cfg, Alloc(cfg, prio), es, u)
    ensures After(cfg, Alloc(cfg, prio), es).tier != 3
  {
    AllocInv(cfg, prio);
    EqualBursts(cfg, Alloc(cfg, prio), es, u, 0, GATE_T2);
    StaysOutOfT3(cfg, Alloc(cfg, prio), es);
  }

  /** Some run of equal completed bursts of u us, from allocation at this priority, ends in the tier. */
  ghost predicate Takes(cfg: Config, prio: nat, u: u16, tier: Tier)
    requires cfg.Valid()
  {
    exists es :: && Quiet(cfg, Alloc(cfg, prio), es) && AllBursts(cfg, Alloc(cfg, prio), es, u)
                 && After(cfg, Alloc(cfg, prio), es).tier == tier
  }

  /** Started at nice 0 or more, equal bursts of u us take a task to T0 if and only if u < 88, although the gate is
      at 90. */
  lemma ReachesT0Exactly(cfg: Config, prio: nat, u: u16)
    requires cfg.Valid() && prio >= 120
    ensures Takes(cfg, prio, u, 0) <==> u < 88
  {
    if u < 88 {
      var n: nat :| n >= 66;
      ShortBeats(cfg, prio, u * 1024, n);
    } else {
      forall es | Quiet(cfg, Alloc(cfg, prio), es) && AllBursts(cfg, Alloc(cfg, prio), es, u)
        ensures After(cfg, Alloc(cfg, prio), es).tier != 0
      {
        NeverT0(cfg, prio, u, es);
      }
    }
  }

  /** Started at nice 10 or less, equal bursts of u us take a task to T3 if and only if u >= 8000. */
  lemma ReachesT3Exactly(cfg: Config, prio: nat, u: u16)
    requires cfg.Valid() && prio <= 130
    ensures Takes(cfg, prio, u, 3) <==> u >= GATE_T2
  {
    if u >= GATE_T2 {
      var n: nat :| n >= 210;
      LongBeats(cfg, prio, u * 1024, n);
    } else {
      forall es | Quiet(cfg, Alloc(cfg, prio), es) && AllBursts(cfg, Alloc(cfg, prio), es, u)
        ensures After(cfg, Alloc(cfg, prio), es).tier != 3
      {
        NeverT3(cfg, prio, u, es);
      }
    }
  }
}
