/** imperator_task_ctx as the object the callbacks update in place, proved against the TaskModel record. */
module FlowContext {
  import opened TierConfig
  import opened TaskModel
  import opened PackedInfo

  /** PACK_DEFICIT_AVG and its two extractors. */
  function Fuse(deficit: u16, avg: u16): u32 {
    deficit + avg * U16
  }

  function FusedDeficit(fused: u32): u16 {
    fused % U16
  }

  function FusedAvg(fused: u32): u16 {
    fused / U16
  }

  lemma FuseRoundTrip(deficit: u16, avg: u16, fused: u32)
    ensures FusedDeficit(Fuse(deficit, avg)) == deficit && FusedAvg(Fuse(deficit, avg)) == avg
    ensures Fuse(FusedDeficit(fused), FusedAvg(fused)) == fused
  {
  }

  /** The word is clean and decodes to the record; so it is the record's packing. */
  predicate Stands(w: Word, i: Info) {
    Clean(w) && Unpack(w) == i
  }

  class TaskCtx {
    var nextSlice: nat
    var fused: u32
    var packedInfo: Word
    var lastRunAt: u32
    var reclassCounter: u16
    var overrunCount: bv8
    var lockSkipCount: u8
    var sleepEntryTime: u32
    var burstAccUs: u16

    /** What packedInfo records. */
    ghost var info: Info

    ghost predicate Valid()
      reads this
    {
      Stands(packedInfo, info)
    }

    /** The record this object stands for. */
    ghost function Abs(): Task
      reads this
    {
      Task(nextSlice, FusedDeficit(fused), FusedAvg(fused), info.tier, info.stable, info.isNew, info.lockHolder,
           info.irqWake, lastRunAt, reclassCounter, overrunCount, lockSkipCount, sleepEntryTime, burstAccUs)
    }

    // GET_TIER and the other reads of the word.

    function GetTier(): (t: Tier)
      requires Valid()
      reads this
      ensures t == info.tier
    {
      Two(TierBits(packedInfo))
    }

    function GetStable(): (t: Tier)
      requires Valid()
      reads this
      ensures t == info.stable
    {
      Two(StableBits(packedInfo))
    }

    predicate IsNew()
      requires Valid()
      reads this
      ensures IsNew() == info.isNew
    {
      packedInfo & NEW != 0
    }

    predicate HoldsLock()
      requires Valid()
      reads this
      ensures HoldsLock() == info.lockHolder
    {
      packedInfo & LOCK != 0
    }

    /** alloc_task_ctx_cold. */
    constructor (cfg: Config, prio: nat)
      ensures Valid() && Abs() == Alloc(cfg, prio)
    {
      nextSlice := cfg.quantum;
      var initDeficit: u16 := (cfg.quantum + cfg.bonus) % U64 / 1024 % U16;
      lastRunAt, reclassCounter, overrunCount, lockSkipCount := 0, 0, 0, 0;
      sleepEntryTime, burstAccUs := 0, 0;
      var initTier: Tier;
      if prio < 120 {
        initTier := 0;
      } else if prio > 130 {
        initTier := 3;
      } else {
        initTier := 1;
      }
      var initAvg := Midpoint(initTier);
      fused := Fuse(initDeficit, initAvg);
      FuseRoundTrip(initDeficit, initAvg, 0);
      var packed: Word := 0;
      packedInfo := packed | (((Bits(initTier) << 4) | 1) << 24);
      info := Info(initTier, 0, true, false, false);
      AllocWord(Bits(initTier));
    }

    static method Midpoint(initTier: Tier) returns (avg: u16)
      ensures avg == InitAvg(initTier)
    {
      if initTier == 0 {
        avg := GATE_T0 / 2;
      } else if initTier == 1 {
        avg := (GATE_T0 + GATE_T1) / 2;
      } else if initTier == 2 {
        avg := (GATE_T1 + GATE_T2) / 2;
      } else {
        avg := GATE_T2 + 1;
      }
    }

    /** The integer EWMA of both paths: quarter steps down, sixteenth steps up, no step down on a preemption. */
    static method NewAverage(avg: u16, rt: u16, runnable: bool) returns (newAvg: u16)
      ensures newAvg == Ewma(avg, rt, runnable)
    {
      if rt < avg {
        newAvg := if runnable then avg else avg - avg / 4 + rt / 4;
      } else {
        newAvg := avg - avg / 16 + rt / 16;
      }
    }

    /** The hysteresis gates of both paths. */
    static method GateTier(tier: Tier, newAvg: u16) returns (spot: Tier)
      ensures spot == Classify(tier, newAvg)
    {
      var g0 := if tier > 0 then PromoteGate(0) else DemoteGate(0);
      var g1 := if tier > 1 then PromoteGate(1) else DemoteGate(1);
      var g2 := if tier > 2 then PromoteGate(2) else DemoteGate(2);
      if newAvg < g0 {
        spot := 0;
      } else if newAvg < g1 {
        spot := 1;
      } else if newAvg < g2 {
        spot := 2;
      } else {
        spot := 3;
      }
    }

    /** Deficit and average, written only when they change. */
    method StoreFused(deficit: u16, avg: u16)
      modifies this`fused
      ensures fused == Fuse(deficit, avg)
    {
      var newFused := Fuse(deficit, avg);
      if newFused != fused {
        fused := newFused;
      }
    }

    /** The early-return path. The counter and the burst have been stored by the caller. */
    method BackoffPass(rt: u16, bout: u16, runnable: bool)
      requires Valid()
      modifies this`fused, this`packedInfo, this`info, this`reclassCounter
      ensures Valid()
      ensures FusedDeficit(fused) == Charge(FusedDeficit(old(fused)), bout)
      ensures var newAvg := Ewma(FusedAvg(old(fused)), rt, runnable);
              && FusedAvg(fused) == newAvg
              && if Classify(old(info).tier, newAvg) == old(info).tier then
                   info == old(info) && reclassCounter == old(reclassCounter)
                 else
                   info == old(info).(stable := 0) && reclassCounter == 0
    {
      var tier := GetTier();
      var avg, deficit := FusedAvg(fused), FusedDeficit(fused);
      var newAvg := NewAverage(avg, rt, runnable);
      var left: u16 := if bout >= deficit then 0 else deficit - bout;
      StoreFused(left, newAvg);
      FuseRoundTrip(left, newAvg, fused);
      var spot := GateTier(tier, newAvg);
      if spot != tier {
        UnstableInfo(packedInfo);
        packedInfo, info := packedInfo & !(3 << 30), info.(stable := 0);
        reclassCounter := 0;
      }
    }

    /** The overrun register of the full path, below T3. */
    method Record(oldTier: Tier, rt: u16, ghost t: Task) returns (forced: bool)
      requires oldTier == t.tier < 3 && overrunCount == t.overrun
      modifies this`overrunCount
      ensures forced == ForcedDemotion(t, rt)
      ensures overrunCount == if forced then 0 else Shifted(t, rt)
    {
      var outcome: bv8 := if rt > OverrunGate(oldTier) then 1 else 0;
      var hist := (overrunCount << 1) | outcome;
      overrunCount := hist;
      forced := Popcount(hist) >= 4;
      if forced {
        overrunCount := 0;
      }
    }

    /** Classification, hard-demote cap and overrun register of the full path. Only the register is stored. */
    method NextTier(oldTier: Tier, stable: Tier, newAvg: u16, rt: u16, ghost t: Task)
      returns (newTier: Tier, forced: bool)
      requires oldTier == t.tier && stable == t.stable && overrunCount == t.overrun
      modifies this`overrunCount
      ensures newTier == NewTier(t, newAvg, rt) && forced == ForcedDemotion(t, rt)
      ensures forced ==> newTier > oldTier
      ensures overrunCount == if oldTier == 3 then t.overrun else if forced then 0 else Shifted(t, rt)
    {
      newTier := GateTier(oldTier, newAvg);
      if newAvg > GATE_T2 * 3 && stable >= 3 && newTier < 3 {
        newTier := 3;
      }
      forced := false;
      if oldTier < 3 {
        forced := Record(oldTier, rt, t);
        if forced && newTier < oldTier + 1 {
          newTier := oldTier + 1;
        }
      }
    }

    /** The word of the full path, written only when tier, stability or the new-flow flag changes. `stable` is
        what the overrun check left of the old stability. */
    method StoreTier(stable: Tier, newTier: Tier, newStable: Tier, exhausted: bool)
      requires Valid()
      requires stable == info.stable || newTier != info.tier
      modifies this`packedInfo, this`info
      ensures Valid()
      ensures info.tier == newTier && info.stable == newStable && info.isNew == (old(info).isNew && !exhausted)
      ensures info.lockHolder == old(info).lockHolder && info.irqWake == old(info).irqWake
    {
      var packed := packedInfo;
      if newTier != GetTier() || exhausted || newStable != stable {
        var newPacked := (packed & !(0xF << 28)) | (((Bits(newStable) << 2) | Bits(newTier)) << 28);
        RetierInfo(packed, newStable, newTier);
        if exhausted {
          ClearedInfo(newPacked);
          newPacked := newPacked & !NEW;
        }
        packedInfo := newPacked;
        info := Unpack(newPacked);
      }
    }

    /** The stores of the full path, once the new tier is known. */
    method StoreFullPass(cfg: Config, newTier: Tier, forced: bool, newAvg: u16, left: u16)
      requires cfg.Valid() && Valid() && (forced ==> newTier != info.tier)
      modifies this`fused, this`packedInfo, this`info, this`nextSlice, this`reclassCounter
      ensures Valid()
      ensures FusedAvg(fused) == newAvg && FusedDeficit(fused) == left
      ensures info.tier == newTier && info.isNew == (old(info).isNew && left != 0)
      ensures info.stable == if newTier != old(info).tier then 0 else Min(old(info).stable + 1, 3)
      ensures info.lockHolder == old(info).lockHolder && info.irqWake == old(info).irqWake
      ensures reclassCounter == if newTier != old(info).tier then 0 else old(reclassCounter)
      ensures nextSlice == cfg.Slice(newTier)
    {
      var oldTier, stable := GetTier(), GetStable();
      var exhausted := left == 0 && packedInfo & NEW != 0;
      StoreFused(left, newAvg);
      FuseRoundTrip(left, newAvg, fused);
      if forced {
        stable := 0;
      }
      var changed := newTier != oldTier;
      var newStable: Tier := if changed then 0 else if stable < 3 then stable + 1 else 3;
      StoreTier(stable, newTier, newStable, exhausted);
      nextSlice := cfg.quantum * UnpackMultiplier(cfg.words[newTier]) % U64 / 1024;
      if changed {
        reclassCounter := 0;
      }
    }

    /** The part of reclassify_task_cold after the sample has been taken and stored. */
    method FullTail(cfg: Config, rt: u16, bout: u16, runnable: bool, ghost t: Task)
      requires cfg.Valid() && Valid()
      requires info.tier == t.tier && info.stable == t.stable && overrunCount == t.overrun
      modifies this`fused, this`packedInfo, this`info, this`nextSlice, this`reclassCounter, this`overrunCount
      ensures Valid()
      ensures FusedAvg(fused) == Ewma(FusedAvg(old(fused)), rt, runnable)
      ensures FusedDeficit(fused) == Charge(FusedDeficit(old(fused)), bout)
      ensures info.tier == NewTier(t, FusedAvg(fused), rt) && nextSlice == cfg.Slice(info.tier)
      ensures info.isNew == (old(info).isNew && FusedDeficit(fused) != 0)
      ensures info.stable == if info.tier != t.tier then 0 else Min(t.stable + 1, 3)
      ensures info.lockHolder == old(info).lockHolder && info.irqWake == old(info).irqWake
      ensures reclassCounter == if info.tier != t.tier then 0 else old(reclassCounter)
      ensures overrunCount == if t.tier == 3 then t.overrun else if ForcedDemotion(t, rt) then 0 else Shifted(t, rt)
    {
      var newAvg := NewAverage(FusedAvg(fused), rt, runnable);
      var deficit := FusedDeficit(fused);
      var left: u16 := if bout >= deficit then 0 else deficit - bout;
      var newTier, forced := NextTier(GetTier(), GetStable(), newAvg, rt, t);
      StoreFullPass(cfg, newTier, forced, newAvg, left);
    }

    /** The record was t when the callback began; only the burst and the counter have been stored since. */
    ghost predicate Sampled(t: Task, now: nat, runnable: bool, rt: u16, bout: u16)
      reads this
    {
      && t.lastRunAt != 0 && rt == Sample(t, now) && bout == Bout(t, now)
      && burstAccUs == (if runnable then rt else 0)
      && reclassCounter == (if t.stable == 3 then Counted(t.counter) else t.counter)
      && nextSlice == t.nextSlice && FusedAvg(fused) == t.avg && FusedDeficit(fused) == t.deficit
      && info == Info(t.tier, t.stable, t.isNew, t.lockHolder, t.irqWake)
      && lastRunAt == t.lastRunAt && overrunCount == t.overrun && lockSkipCount == t.lockSkip
      && sleepEntryTime == t.sleepEntry
    }

    method TakeBackoffPass(now: nat, runnable: bool, rt: u16, bout: u16, ghost t: Task)
      requires Valid() && Sampled(t, now, runnable, rt, bout) && t.stable == 3
      modifies this`fused, this`packedInfo, this`info, this`reclassCounter
      ensures Valid() && Abs() == QuickPass(t, now, runnable)
    {
      BackoffPass(rt, bout, runnable);
      IsQuickPass(t, Abs(), now, runnable);
    }

    method TakeFullPass(cfg: Config, now: nat, runnable: bool, rt: u16, bout: u16, ghost t: Task)
      requires cfg.Valid() && Valid() && Sampled(t, now, runnable, rt, bout)
      modifies this`fused, this`packedInfo, this`info, this`nextSlice, this`reclassCounter, this`overrunCount
      ensures Valid() && Abs() == FullPass(cfg, t, now, runnable)
    {
      FullTail(cfg, rt, bout, runnable, t);
      IsFullPass(cfg, t, Abs(), now, runnable);
    }

    /** reclassify_task_cold. */
    method Reclassify(cfg: Config, now: nat, runnable: bool)
      requires cfg.Valid() && Valid()
      modifies this
      ensures Valid()
      ensures Abs() == if old(lastRunAt) == 0 then old(Abs())
                       else TaskModel.Reclassify(cfg, old(Abs()), now, runnable)
    {
      if lastRunAt == 0 {
        return;
      }
      ghost var t := Abs();
      var bout, rt, skip := Begin(now, runnable);
      if skip {
        TakeBackoffPass(now, runnable, rt, bout, t);
      } else {
        TakeFullPass(cfg, now, runnable, rt, bout, t);
      }
    }

    /** The measurement and the backoff counter, stored on both paths; and whether this stop skips the full pass. */
    method Begin(now: nat, runnable: bool) returns (bout: u16, rt: u16, skip: bool)
      requires Valid() && lastRunAt != 0
      modifies this`burstAccUs, this`reclassCounter
      ensures Valid() && Sampled(old(Abs()), now, runnable, rt, bout)
      ensures var t := old(Abs()); skip == (t.stable == 3 && Masked(Counted(t.counter), t.tier))
    {
      skip := CountStop();
      bout, rt := Measure(now, runnable);
    }

    /** The backoff counter of a stable task. */
    method CountStop() returns (skip: bool)
      requires Valid()
      modifies this`reclassCounter
      ensures skip == (info.stable == 3 && Masked(Counted(old(reclassCounter)), info.tier))
      ensures reclassCounter == if info.stable == 3 then Counted(old(reclassCounter)) else old(reclassCounter)
    {
      var stable, tier := GetStable(), GetTier();
      skip := false;
      if stable == 3 {
        var counter := Counted(reclassCounter);
        reclassCounter := counter;
        skip := Masked(counter, tier);
      }
    }

    /** The bout just ended, and the burst it extends: u32 subtraction, 1024 ns units, 16-bit saturation. */
    method Measure(now: nat, runnable: bool) returns (bout: u16, rt: u16)
      modifies this`burstAccUs
      ensures bout == Min(Elapsed(now, lastRunAt) / 1024, 0xFFFF) && rt == Min(old(burstAccUs) + bout, 0xFFFF)
      ensures burstAccUs == if runnable then rt else 0
    {
      var runtimeUs := Elapsed(now, lastRunAt) / 1024;
      bout := if runtimeUs > 0xFFFF then 0xFFFF else runtimeUs;
      var burst := burstAccUs + bout;
      rt := if burst > 0xFFFF then 0xFFFF else burst;
      burstAccUs := if runnable then rt else 0;
    }

    /** The stamp of imperator_running. */
    method Start(now: nat)
      requires Valid()
      modifies this`lastRunAt
      ensures Valid() && Abs() == TaskModel.Running(old(Abs()), now)
    {
      lastRunAt := now % U32;
    }

    /** The safety gate of imperator_tick, on a context never stamped. */
    method Stamp(now: nat)
      requires Valid() && lastRunAt == 0
      modifies this`lastRunAt
      ensures Valid() && Abs() == TickStamp(old(Abs()), now)
    {
      lastRunAt := now % U32;
    }

    /** imperator_stopping, after the mask bit has been cleared. */
    method Stop(cfg: Config, now: nat, runnable: bool)
      requires cfg.Valid() && Valid() && lastRunAt != 0
      modifies this
      ensures Valid()
      ensures Abs() == Stopping(cfg, old(Abs()), now, runnable)
    {
      if !runnable {
        sleepEntryTime := now % U32;
      } else {
        sleepEntryTime := 0;
      }
      StampCommutes(cfg, Abs(), old(Abs()), now, runnable, sleepEntryTime);
      Reclassify(cfg, now, runnable);
    }

    /** The part of a queued wakeup that touches the context: post-sleep recovery, the one-shot consumption of
        the sleep stamp, and of the IRQ-wake flag. */
    method Wake(now: nat) returns (tier: Tier)
      requires Valid()
      modifies this`fused, this`sleepEntryTime, this`packedInfo, this`info
      ensures Valid()
      ensures Abs() == QueuedWake(old(Abs()), now)
      ensures tier == if old(info).irqWake then 0 else old(info).tier
    {
      Recover(now);
      tier := GetTier();
      ClearedInfo(packedInfo);
      if packedInfo & IRQ != 0 {
        packedInfo := packedInfo & !IRQ;
        tier := 0;
      }
      info := Unpack(packedInfo);
    }

    /** Post-sleep recovery: half the distance to the tier's midpoint, then the stamp is consumed. */
    method Recover(now: nat)
      requires Valid()
      modifies this`fused, this`sleepEntryTime
      ensures sleepEntryTime == 0
      ensures FusedDeficit(fused) == FusedDeficit(old(fused))
      ensures FusedAvg(fused) == if Recovers(old(Abs()), now) then (FusedAvg(old(fused)) + SleepMid(info.tier)) / 2
                                 else FusedAvg(old(fused))
    {
      if sleepEntryTime != 0 {
        if Elapsed(now, sleepEntryTime) > SLEEP_NS {
          var mid := SleepMid(GetTier());
          var avg, deficit: u16 := (FusedAvg(fused) + mid) / 2, FusedDeficit(fused);
          fused := Fuse(deficit, avg);
          FuseRoundTrip(deficit, avg, fused);
        }
        sleepEntryTime := 0;
      }
    }

    /** consume_irq_wake_get_tier_slice, for a task with a context: an IRQ wakeup runs once at T0 with T0's slice. */
    method ConsumeIrqWake(cfg: Config) returns (tier: Tier, slice: nat)
      requires cfg.Valid() && Valid()
      modifies this`packedInfo, this`info
      ensures Valid()
      ensures Abs() == DirectWake(old(Abs()))
      ensures tier == if old(Abs()).irqWake then 0 else old(Abs()).tier
      ensures slice == if old(Abs()).irqWake then cfg.Slice(0) else nextSlice
    {
      ClearedInfo(packedInfo);
      if packedInfo & IRQ != 0 {
        packedInfo, info := packedInfo & !IRQ, info.(irqWake := false);
        return 0, cfg.quantum * UnpackMultiplier(cfg.words[0]) % U64 / 1024;
      }
      return GetTier(), nextSlice;
    }

    /** The IRQ stamp of imperator_select_cpu. */
    method MarkIrqWake()
      requires Valid()
      modifies this`packedInfo, this`info
      ensures Valid() && Abs() == old(Abs()).(irqWake := true)
    {
      RaisedInfo(packedInfo);
      packedInfo, info := packedInfo | IRQ, info.(irqWake := true);
    }

    /** set_lock_holder and clear_lock_holder. */
    method SetLockHolder(cfg: Config, held: bool)
      requires cfg.Valid() && Valid()
      modifies this
      ensures Valid() && Abs() == Step(cfg, old(Abs()), Event.Lock(held))
    {
      if held {
        RaisedInfo(packedInfo);
        packedInfo, info := packedInfo | LOCK, info.(lockHolder := true);
      } else {
        ClearedInfo(packedInfo);
        packedInfo, info := packedInfo & !LOCK, info.(lockHolder := false);
        lockSkipCount := 0;
      }
    }

    /** Over every run the word is the packing of the abstract record. */
    lemma WordIsThePacking()
      requires Valid()
      ensures packedInfo == Pack(Info(Abs().tier, Abs().stable, Abs().isNew, Abs().lockHolder, Abs().irqWake))
    {
      PackUnpack(packedInfo);
    }
  }

  lemma IsQuickPass(t: Task, r: Task, now: nat, runnable: bool)
    requires r.avg == Ewma(t.avg, Sample(t, now), runnable) && r.deficit == Charge(t.deficit, Bout(t, now))
    requires var agrees := Classify(t.tier, r.avg) == t.tier;
             r.counter == (if agrees then Counted(t.counter) else 0) && r.stable == (if agrees then t.stable else 0)
    requires r.burstAcc == if runnable then Sample(t, now) else 0
    requires r.nextSlice == t.nextSlice && r.tier == t.tier && r.isNew == t.isNew && r.lockHolder == t.lockHolder
    requires r.irqWake == t.irqWake && r.lastRunAt == t.lastRunAt && r.overrun == t.overrun
    requires r.lockSkip == t.lockSkip && r.sleepEntry == t.sleepEntry
    ensures r == QuickPass(t, now, runnable)
  {
    var q := QuickPass(t, now, runnable);
    assert q.avg == r.avg;
    assert q.deficit == r.deficit;
    assert q.burstAcc == r.burstAcc;
    assert q.counter == r.counter && q.stable == r.stable;
  }

  lemma IsFullPass(cfg: Config, t: Task, r: Task, now: nat, runnable: bool)
    requires cfg.Valid()
    requires r.avg == Ewma(t.avg, Sample(t, now), runnable) && r.deficit == Charge(t.deficit, Bout(t, now))
    requires r.tier == NewTier(t, r.avg, Sample(t, now)) && r.nextSlice == cfg.Slice(r.tier)
    requires r.stable == (if r.tier != t.tier then 0 else Min(t.stable + 1, 3))
    requires r.isNew == (t.isNew && r.deficit != 0)
    requires r.overrun == (if t.tier == 3 then t.overrun else if ForcedDemotion(t, Sample(t, now)) then 0
                           else Shifted(t, Sample(t, now)))
    requires r.counter == (if r.tier != t.tier then 0 else if t.stable == 3 then Counted(t.counter) else t.counter)
    requires r.burstAcc == if runnable then Sample(t, now) else 0
    requires r.lockHolder == t.lockHolder && r.irqWake == t.irqWake && r.lastRunAt == t.lastRunAt
    requires r.lockSkip == t.lockSkip && r.sleepEntry == t.sleepEntry
    ensures r == FullPass(cfg, t, now, runnable)
  {
  }

  lemma QuickStamp(s: Task, t: Task, now: nat, runnable: bool, stamp: u32)
    requires s == t.(sleepEntry := stamp)
    ensures QuickPass(s, now, runnable) == QuickPass(t, now, runnable).(sleepEntry := stamp)
  {
    SampleFrame(s, t, now);
  }

  lemma FullStamp(cfg: Config, s: Task, t: Task, now: nat, runnable: bool, stamp: u32)
    requires cfg.Valid() && s == t.(sleepEntry := stamp)
    ensures FullPass(cfg, s, now, runnable) == FullPass(cfg, t, now, runnable).(sleepEntry := stamp)
  {
    SampleFrame(s, t, now);
    NewTierFrame(s, t, Ewma(t.avg, Sample(t, now), runnable), Sample(t, now));
  }

  lemma BackoffStamp(s: Task, t: Task)
    requires s.stable == t.stable && s.counter == t.counter && s.tier == t.tier
    ensures Backoff(s) == Backoff(t)
  {
  }

  lemma NewTierFrame(s: Task, t: Task, newAvg: u16, rt: u16)
    requires s.tier == t.tier && s.stable == t.stable && s.overrun == t.overrun
    ensures NewTier(s, newAvg, rt) == NewTier(t, newAvg, rt)
    ensures Shifted(s, rt) == Shifted(t, rt) && ForcedDemotion(s, rt) == ForcedDemotion(t, rt)
  {
  }

  lemma SampleFrame(s: Task, t: Task, now: nat)
    requires s.lastRunAt == t.lastRunAt && s.burstAcc == t.burstAcc
    ensures Sample(s, now) == Sample(t, now) && Bout(s, now) == Bout(t, now)
  {
  }

  /** Reclassification neither reads nor writes the sleep stamp, so stamping before it is stamping after it. */
  lemma StampCommutes(cfg: Config, s: Task, t: Task, now: nat, runnable: bool, stamp: u32)
    requires cfg.Valid() && s == t.(sleepEntry := stamp)
    ensures TaskModel.Reclassify(cfg, s, now, runnable)
            == TaskModel.Reclassify(cfg, t, now, runnable).(sleepEntry := stamp)
  {
    BackoffStamp(s, t);
    if Backoff(t) {
      QuickStamp(s, t, now, runnable, stamp);
    } else {
      FullStamp(cfg, s, t, now, runnable, stamp);
    }
  }

  lemma AllocWord(t: Word)
    requires t <= 3
    ensures var w := (0 as Word) | (((t << 4) | 1) << 24);
            TierBits(w) == t && StableBits(w) == 0 && Clean(w) && w & NEW != 0 && w & LOCK == 0 && w & IRQ == 0
  {
  }
}
