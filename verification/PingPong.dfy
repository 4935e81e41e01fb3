/** measure_pair: two threads, a two-party barrier, an abort flag, and a compare-and-swap ping-pong. One step of a
    schedule is one atomic action of one thread. */
module PingPong {

  /** warmup_trips, num_round_trips and num_samples. */
  datatype Plan = Plan(warmup: nat, trips: nat, samples: nat)

  datatype Flag = Ping | Pong

  /** Where the pong thread is. Its measurement loop is flat. */
  datatype PongAt = Start | Arriving | Blocked | Passed | Warm(k: nat) | Measure(k: nat) | Done | Quit

  /** Where the ping thread is. Its measurement loop is nested: sample i, trip j. */
  datatype PingAt = Start | Arriving | Blocked | Passed | Warm(k: nat) | Sample(i: nat, j: nat) | Done | Quit

  datatype State = State(ping: PingAt, pong: PongAt, arrived: nat, abort: bool, flag: Flag)

  /** A schedule entry: which thread moves, and, should this be its first move, whether pinning succeeds. */
  datatype Move = Move(pong: bool, pinned: bool)

  const INITIAL := State(PingAt.Start, PongAt.Start, 0, false, Ping)

  // ---- the two threads ----

  /** compare_exchange(PING, PONG): on failure the thread spins, that is, stays where it is. */
  function PongCas(s: State, next: PongAt): State {
    if s.flag == Ping then s.(pong := next, flag := Pong) else s
  }

  function PingCas(s: State, next: PingAt): State {
    if s.flag == Pong then s.(ping := next, flag := Ping) else s
  }

  function PongStep(p: Plan, s: State, pinned: bool): State {
    match s.pong
    case Start => s.(pong := PongAt.Arriving, abort := s.abort || !pinned)
    case Arriving => s.(pong := PongAt.Blocked, arrived := s.arrived + 1)
    case Blocked => if s.arrived >= 2 then s.(pong := PongAt.Passed) else s
    case Passed => s.(pong := if s.abort then PongAt.Quit else PongAt.Warm(0))
    case Warm(k) => if k < p.warmup then PongCas(s, PongAt.Warm(k + 1)) else s.(pong := PongAt.Measure(0))
    case Measure(k) =>
      if k < p.trips * p.samples then PongCas(s, PongAt.Measure(k + 1)) else s.(pong := PongAt.Done)
    case Done => s
    case Quit => s
  }

  function PingStep(p: Plan, s: State, pinned: bool): State {
    match s.ping
    case Start => s.(ping := PingAt.Arriving, abort := s.abort || !pinned)
    case Arriving => s.(ping := PingAt.Blocked, arrived := s.arrived + 1)
    case Blocked => if s.arrived >= 2 then s.(ping := PingAt.Passed) else s
    case Passed => s.(ping := if s.abort then PingAt.Quit else PingAt.Warm(0))
    case Warm(k) => if k < p.warmup then PingCas(s, PingAt.Warm(k + 1)) else s.(ping := PingAt.Sample(0, 0))
    case Sample(i, j) =>
      if i >= p.samples then s.(ping := PingAt.Done)
      else if j < p.trips then PingCas(s, PingAt.Sample(i, j + 1))
      else s.(ping := PingAt.Sample(i + 1, 0))
    case Done => s
    case Quit => s
  }

  function Step(p: Plan, s: State, m: Move): State {
    if m.pong then PongStep(p, s, m.pinned) else PingStep(p, s, m.pinned)
  }

  function Run(p: Plan, ms: seq<Move>): State {
    if ms == [] then INITIAL else Step(p, Run(p, ms[..|ms| - 1]), ms[|ms| - 1])
  }

  // ---- what both loops amount to ----

  /** How many exchanges each thread has won. */
  function Pongs(p: Plan, s: State): nat {
    match s.pong
    case Warm(k) => k
    case Measure(k) => p.warmup + k
    case Done => p.warmup + p.trips * p.samples
    case _ => 0
  }

  function Pings(p: Plan, s: State): nat {
    match s.ping
    case Warm(k) => k
    case Sample(i, j) => p.warmup + p.trips * i + j
    case Done => p.warmup + p.trips * p.samples
    case _ => 0
  }

  predicate PongMeasures(s: State) {
    s.pong.Warm? || s.pong.Measure? || s.pong.Done?
  }

  predicate PingMeasures(s: State) {
    s.ping.Warm? || s.ping.Sample? || s.ping.Done?
  }

  predicate PongBeyond(s: State) {
    s.pong.Passed? || s.pong.Quit? || PongMeasures(s)
  }

  predicate PingBeyond(s: State) {
    s.ping.Passed? || s.ping.Quit? || PingMeasures(s)
  }

  predicate PongEarly(s: State) {
    s.pong.Start? || s.pong.Arriving?
  }

  predicate PingEarly(s: State) {
    s.ping.Start? || s.ping.Arriving?
  }

  /** The barrier counts arrivals, nobody passes before both have arrived, and what they then read of the abort
      flag is final. */
  predicate BarrierTrue(s: State) {
    && s.arrived == (if PongEarly(s) then 0 else 1) + (if PingEarly(s) then 0 else 1)
    && (PongBeyond(s) || PingBeyond(s) ==> s.arrived == 2)
    && (s.pong.Quit? || s.ping.Quit? ==> s.abort)
    && (PongMeasures(s) || PingMeasures(s) ==> !s.abort)
  }

  /** Loop counters are in range. */
  predicate InRange(p: Plan, s: State) {
    && (s.pong.Warm? ==> s.pong.k <= p.warmup)
    && (s.pong.Measure? ==> s.pong.k <= p.trips * p.samples)
    && (s.ping.Warm? ==> s.ping.k <= p.warmup)
    && (s.ping.Sample? ==> s.ping.i <= p.samples && s.ping.j <= p.trips && (s.ping.i == p.samples ==> s.ping.j == 0))
  }

  /** The exchanges alternate, pong first, and the flag says whose turn it is. */
  predicate Alternates(p: Plan, s: State) {
    Pongs(p, s) == Pings(p, s) + (if s.flag == Ping then 0 else 1)
  }

  predicate Inv(p: Plan, s: State) {
    BarrierTrue(s) && InRange(p, s) && Alternates(p, s)
  }

  lemma NextSample(p: Plan, i: nat)
    ensures p.trips * (i + 1) == p.trips * i + p.trips
  {
  }

  lemma KeepsBarrier(p: Plan, s: State, m: Move)
    requires BarrierTrue(s)
    ensures BarrierTrue(Step(p, s, m))
  {
  }

  lemma KeepsRange(p: Plan, s: State, m: Move)
    requires InRange(p, s)
    ensures InRange(p, Step(p, s, m))
  {
  }

  lemma PongAlternates(p: Plan, s: State, pinned: bool)
    requires InRange(p, s) && Alternates(p, s)
    ensures Alternates(p, PongStep(p, s, pinned))
  {
  }

  lemma PingAlternates(p: Plan, s: State, pinned: bool)
    requires InRange(p, s) && Alternates(p, s)
    ensures Alternates(p, PingStep(p, s, pinned))
  {
    match s.ping
    case Sample(i, j) => NextSample(p, i);
    case _ =>
  }

  lemma StepKeepsInv(p: Plan, s: State, m: Move)
    requires Inv(p, s)
    ensures Inv(p, Step(p, s, m))
  {
    KeepsBarrier(p, s, m);
    KeepsRange(p, s, m);
    if m.pong { PongAlternates(p, s, m.pinned); } else { PingAlternates(p, s, m.pinned); }
  }

  lemma {:induction false} RunInv(p: Plan, ms: seq<Move>)
    ensures Inv(p, Run(p, ms))
  {
    if ms != [] {
      RunInv(p, ms[..|ms| - 1]);
      StepKeepsInv(p, Run(p, ms[..|ms| - 1]), ms[|ms| - 1]);
    }
  }

  // ---- safety ----

  /** In every schedule the wins strictly alternate: pong is never behind ping and never more than one ahead. */
  lemma ExchangesAlternate(p: Plan, ms: seq<Move>)
    ensures 0 <= Pongs(p, Run(p, ms)) - Pings(p, Run(p, ms)) <= 1
    ensures Run(p, ms).flag == Ping <==> Pongs(p, Run(p, ms)) == Pings(p, Run(p, ms))
  {
    RunInv(p, ms);
  }

  /** The threads never split: one quitting excludes the other measuring. */
  lemma BothOrNeither(p: Plan, ms: seq<Move>)
    ensures var s := Run(p, ms); !(s.pong.Quit? && PingMeasures(s)) && !(s.ping.Quit? && PongMeasures(s))
  {
    RunInv(p, ms);
  }

  predicate Finished(s: State) {
    (s.pong.Done? || s.pong.Quit?) && (s.ping.Done? || s.ping.Quit?)
  }

  /** Some thread's first move failed to pin it. */
  predicate PinFailed(ms: seq<Move>) {
    exists k | 0 <= k < |ms| :: !ms[k].pinned && forall j | 0 <= j < k :: ms[j].pong != ms[k].pong
  }

  /** The thread has moved. */
  predicate Moved(ms: seq<Move>, pong: bool) {
    exists k | 0 <= k < |ms| :: ms[k].pong == pong
  }

  lemma MovedGrows(ms: seq<Move>, pong: bool)
    requires ms != []
    ensures Moved(ms, pong) <==> Moved(ms[..|ms| - 1], pong) || ms[|ms| - 1].pong == pong
  {
    var front := ms[..|ms| - 1];
    if Moved(front, pong) {
      var k :| 0 <= k < |front| && front[k].pong == pong;
      assert ms[k].pong == pong;
    }
  }

  lemma PinFailedGrows(ms: seq<Move>)
    requires ms != []
    ensures var m, front := ms[|ms| - 1], ms[..|ms| - 1];
            PinFailed(ms) <==> PinFailed(front) || (!m.pinned && !Moved(front, m.pong))
  {
    var m, front := ms[|ms| - 1], ms[..|ms| - 1];
    if PinFailed(front) {
      var k :| 0 <= k < |front| && !front[k].pinned && forall j | 0 <= j < k :: front[j].pong != front[k].pong;
      assert !ms[k].pinned && forall j | 0 <= j < k :: ms[j].pong == front[j].pong;
    }
    if PinFailed(ms) {
      var k :| 0 <= k < |ms| && !ms[k].pinned && forall j | 0 <= j < k :: ms[j].pong != ms[k].pong;
      if k < |front| {
        assert !front[k].pinned && forall j | 0 <= j < k :: front[j].pong == ms[j].pong;
      } else {
        assert forall j | 0 <= j < |front| :: front[j].pong == ms[j].pong;
      }
    }
    if !m.pinned && !Moved(front, m.pong) {
      assert forall j | 0 <= j < |ms| - 1 :: ms[j] == front[j];
    }
  }

  lemma {:induction false} AbortMeansPinFailed(p: Plan, ms: seq<Move>)
    ensures Run(p, ms).abort <==> PinFailed(ms)
    ensures Run(p, ms).pong.Start? <==> !Moved(ms, true)
    ensures Run(p, ms).ping.Start? <==> !Moved(ms, false)
  {
    if ms != [] {
      AbortMeansPinFailed(p, ms[..|ms| - 1]);
      PinFailedGrows(ms);
      MovedGrows(ms, true);
      MovedGrows(ms, false);
    }
  }

  /** A finished run either quit on both sides, which happens exactly when some pinning failed, or measured on
      both sides, with equal counts and the flag back at PING. */
  lemma FinishedAgrees(p: Plan, ms: seq<Move>)
    requires Finished(Run(p, ms))
    ensures var s := Run(p, ms);
            && (s.pong.Quit? <==> PinFailed(ms)) && (s.ping.Quit? <==> PinFailed(ms))
            && (!PinFailed(ms) ==>
                  && s.pong.Done? && s.ping.Done? && s.flag == Ping
                  && Pongs(p, s) == Pings(p, s) == p.warmup + p.trips * p.samples)
  {
    RunInv(p, ms);
    AbortMeansPinFailed(p, ms);
  }

  /** Exchanges really made: how often the schedule moved the flag to PONG, or back to PING. */
  function Flips(p: Plan, ms: seq<Move>, to: Flag): nat {
    if ms == [] then 0
    else
      var before, after := Run(p, ms[..|ms| - 1]).flag, Run(p, ms).flag;
      Flips(p, ms[..|ms| - 1], to) + if before != after && after == to then 1 else 0
  }

  lemma StepFlips(p: Plan, s: State, m: Move)
    requires Inv(p, s)
    ensures var s' := Step(p, s, m);
            && Pongs(p, s') == Pongs(p, s) + (if s.flag == Ping && s'.flag == Pong then 1 else 0)
            && Pings(p, s') == Pings(p, s) + (if s.flag == Pong && s'.flag == Ping then 1 else 0)
  {
    match s.ping
    case Sample(i, j) => NextSample(p, i);
    case _ =>
  }

  /** The loop counters count them: a finished measurement has moved the flag exactly warm-up plus trips times samples
      times in each direction. */
  lemma {:induction false} CountsAreExchanges(p: Plan, ms: seq<Move>)
    ensures var s := Run(p, ms);
            && Pongs(p, s) == Flips(p, ms, Pong) && Pings(p, s) == Flips(p, ms, Ping)
            && (Finished(s) && !PinFailed(ms) ==>
                  Flips(p, ms, Pong) == Flips(p, ms, Ping) == p.warmup + p.trips * p.samples)
  {
    if ms != [] {
      CountsAreExchanges(p, ms[..|ms| - 1]);
      RunInv(p, ms[..|ms| - 1]);
      StepFlips(p, Run(p, ms[..|ms| - 1]), ms[|ms| - 1]);
    }
    if Finished(Run(p, ms)) { FinishedAgrees(p, ms); }
  }

  // ---- progress ----

  /** Steps a thread has left, spinning aside. */
  function PongLeft(p: Plan, s: State): int {
    var all := p.warmup + p.trips * p.samples;
    match s.pong
    case Start => all + 6
    case Arriving => all + 5
    case Blocked => all + 4
    case Passed => all + 3
    case Warm(k) => all - k + 2
    case Measure(k) => p.trips * p.samples - k + 1
    case Done => 0
    case Quit => 0
  }

  function PingLeft(p: Plan, s: State): int {
    var all := p.warmup + p.trips * p.samples + p.samples;
    match s.ping
    case Start => all + 6
    case Arriving => all + 5
    case Blocked => all + 4
    case Passed => all + 3
    case Warm(k) => all - k + 2
    case Sample(i, j) => p.trips * (p.samples - i) - j + (p.samples - i) + 1
    case Done => 0
    case Quit => 0
  }

  function Work(p: Plan, s: State): int {
    PongLeft(p, s) + PingLeft(p, s)
  }

  lemma LeftSample(p: Plan, i: nat)
    requires i < p.samples
    ensures p.trips * (p.samples - i) == p.trips * (p.samples - (i + 1)) + p.trips
  {
  }

  lemma ProductIsNat(x: nat, y: nat)
    ensures x * y >= 0
  {
  }

  lemma LeftIsNat(p: Plan, s: State)
    requires InRange(p, s)
    ensures PongLeft(p, s) >= 0 && PingLeft(p, s) >= 0
  {
    ProductIsNat(p.trips, p.samples);
    match s.ping
    case Sample(i, j) =>
      if i < p.samples {
        LeftSample(p, i);
        ProductIsNat(p.trips, p.samples - (i + 1));
      }
    case _ =>
  }

  lemma PongWorks(p: Plan, s: State, pinned: bool)
    requires InRange(p, s)
    ensures var s' := PongStep(p, s, pinned);
            s' == s || (PongLeft(p, s') < PongLeft(p, s) && PingLeft(p, s') == PingLeft(p, s))
  {
    ProductIsNat(p.trips, p.samples);
  }

  lemma PingWorks(p: Plan, s: State, pinned: bool)
    requires InRange(p, s)
    ensures var s' := PingStep(p, s, pinned);
            s' == s || (PingLeft(p, s') < PingLeft(p, s) && PongLeft(p, s') == PongLeft(p, s))
  {
    ProductIsNat(p.trips, p.samples);
    match s.ping
    case Sample(i, j) => if i < p.samples { LeftSample(p, i); }
    case _ =>
  }

  /** Every step that is not a spin brings the end nearer. */
  lemma StepWorks(p: Plan, s: State, m: Move)
    requires InRange(p, s)
    ensures Step(p, s, m) == s || Work(p, Step(p, s, m)) < Work(p, s)
  {
    if m.pong { PongWorks(p, s, m.pinned); } else { PingWorks(p, s, m.pinned); }
  }

  lemma PongStuck(p: Plan, s: State, pinned: bool)
    requires Inv(p, s) && PongStep(p, s, pinned) == s
    ensures s.pong.Done? || s.pong.Quit? || (s.pong.Blocked? && PingEarly(s))
            || (PongMeasures(s) && s.flag == Pong)
  {
  }

  lemma PingStuck(p: Plan, s: State, pinned: bool)
    requires Inv(p, s) && PingStep(p, s, pinned) == s
    ensures s.ping.Done? || s.ping.Quit? || (s.ping.Blocked? && PongEarly(s))
            || (PingMeasures(s) && s.flag == Ping && Pings(p, s) < p.warmup + p.trips * p.samples)
  {
    if s.ping.Sample? && s.ping.i < p.samples { SampleBelow(p, s.ping.i, s.ping.j); }
  }

  lemma SampleBelow(p: Plan, i: nat, j: nat)
    requires i < p.samples && j < p.trips
    ensures p.trips * i + j < p.trips * p.samples
  {
    LeftSample(p, i);
    assert p.trips * p.samples == p.trips * i + p.trips * (p.samples - i);
    assert p.trips * (p.samples - (i + 1)) >= 0;
  }

  /** No deadlock: until both have finished, some thread's next step is not a spin. */
  lemma SomeoneCanMove(p: Plan, s: State, pinned: bool)
    requires Inv(p, s) && !Finished(s)
    ensures PongStep(p, s, pinned) != s || PingStep(p, s, pinned) != s
  {
    if PongStep(p, s, pinned) == s && PingStep(p, s, pinned) == s {
      PongStuck(p, s, pinned);
      PingStuck(p, s, pinned);
      assert false;
    }
  }

  // ---- fair schedules finish ----

  function RunFrom(p: Plan, s: State, ms: seq<Move>): State
    decreases |ms|
  {
    if ms == [] then s else RunFrom(p, Step(p, s, ms[0]), ms[1..])
  }

  lemma RunAppend(p: Plan, ms: seq<Move>, ns: seq<Move>)
    ensures Run(p, ms + ns) == RunFrom(p, Run(p, ms), ns)
    decreases |ns|
  {
    if ns == [] {
      assert ms + ns == ms;
    } else {
      assert (ms + [ns[0]])[..|ms|] == ms;
      assert ms + ns == ms + [ns[0]] + ns[1..];
      RunAppend(p, ms + [ns[0]], ns[1..]);
    }
  }

  lemma RunNeverWorksMore(p: Plan, s: State, ms: seq<Move>)
    requires Inv(p, s)
    ensures Work(p, RunFrom(p, s, ms)) <= Work(p, s)
    decreases |ms|
  {
    if ms != [] {
      StepWorks(p, s, ms[0]);
      StepKeepsInv(p, s, ms[0]);
      RunNeverWorksMore(p, Step(p, s, ms[0]), ms[1..]);
    }
  }

  /** A thread that can move does, or the other one has, by the time the schedule has given it a turn. */
  lemma TurnWorks(p: Plan, s: State, ms: seq<Move>, pong: bool)
    requires Inv(p, s) && Moved(ms, pong)
    requires Step(p, s, Move(pong, true)) != s && Step(p, s, Move(pong, false)) != s
    ensures Work(p, RunFrom(p, s, ms)) < Work(p, s)
    decreases |ms|
  {
    var s' := Step(p, s, ms[0]);
    if s' != s {
      StepWorks(p, s, ms[0]);
      StepKeepsInv(p, s, ms[0]);
      RunNeverWorksMore(p, s', ms[1..]);
    } else {
      assert ms[0] != Move(pong, true) && ms[0] != Move(pong, false);
      var k :| 0 <= k < |ms| && ms[k].pong == pong;
      assert ms[1..][k - 1].pong == pong;
      TurnWorks(p, s, ms[1..], pong);
    }
  }

  /** Whether a thread can move does not depend on whether pinning would succeed. */
  lemma MovesAnyway(p: Plan, s: State, pong: bool)
    ensures Step(p, s, Move(pong, true)) == s <==> Step(p, s, Move(pong, false)) == s
  {
  }

  /** A round gives each thread at least one turn. */
  predicate Round(ms: seq<Move>) {
    Moved(ms, true) && Moved(ms, false)
  }

  lemma RoundWorks(p: Plan, s: State, ms: seq<Move>)
    requires Inv(p, s) && Round(ms) && !Finished(s)
    ensures Work(p, RunFrom(p, s, ms)) < Work(p, s)
  {
    SomeoneCanMove(p, s, true);
    MovesAnyway(p, s, true);
    MovesAnyway(p, s, false);
    TurnWorks(p, s, ms, Step(p, s, Move(true, true)) != s);
  }

  lemma FinishedStays(p: Plan, s: State, ms: seq<Move>)
    requires Finished(s)
    ensures RunFrom(p, s, ms) == s
    decreases |ms|
  {
    if ms != [] { FinishedStays(p, s, ms[1..]); }
  }

  function Flatten(rounds: seq<seq<Move>>): seq<Move> {
    if rounds == [] then [] else Flatten(rounds[..|rounds| - 1]) + rounds[|rounds| - 1]
  }

  lemma {:induction false} RoundsWork(p: Plan, rounds: seq<seq<Move>>)
    requires forall r | 0 <= r < |rounds| :: Round(rounds[r])
    ensures var s := Run(p, Flatten(rounds)); Finished(s) || Work(p, s) + |rounds| <= Work(p, INITIAL)
  {
    if rounds != [] {
      var front, last := rounds[..|rounds| - 1], rounds[|rounds| - 1];
      RoundsWork(p, front);
      RunAppend(p, Flatten(front), last);
      RunInv(p, Flatten(front));
      var b := Run(p, Flatten(front));
      if Finished(b) { FinishedStays(p, b, last); } else { RoundWorks(p, b, last); }
    }
  }

  /** Both threads finish in every schedule that keeps giving both a turn, within a bound linear in the number of
      exchanges, whatever the interleaving and whatever pinning does. */
  lemma FairRunsFinish(p: Plan, rounds: seq<seq<Move>>)
    requires forall r | 0 <= r < |rounds| :: Round(rounds[r])
    requires |rounds| >= 2 * (p.warmup + p.trips * p.samples) + p.samples + 12
    ensures Finished(Run(p, Flatten(rounds)))
  {
    RoundsWork(p, rounds);
    var s := Run(p, Flatten(rounds));
    RunInv(p, Flatten(rounds));
    LeftIsNat(p, s);
    if !Finished(s) { UnfinishedWorks(p, s); }
  }

  lemma UnfinishedWorks(p: Plan, s: State)
    requires Inv(p, s) && !Finished(s)
    ensures Work(p, s) > 0
  {
    SomeoneCanMove(p, s, true);
    LeftIsNat(p, s);
    PongWorks(p, s, true);
    PingWorks(p, s, true);
    StepKeepsInv(p, s, Move(true, true));
    StepKeepsInv(p, s, Move(false, true));
    LeftIsNat(p, PongStep(p, s, true));
    LeftIsNat(p, PingStep(p, s, true));
  }
}
