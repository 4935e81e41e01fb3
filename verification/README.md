# imperator scheduler: verified model

A Dafny model of the imperator sched_ext scheduler: the BPF callbacks of `src/bpf/imperator.bpf.c`, the packed
words of `src/bpf/intf.h`, the bit scans of `src/bpf/bpf_compat.h`, the loader arithmetic of `src/main.rs` and the
calibration protocol of `src/calibrate.rs`. `dafny verify dfyconfig.toml` checks everything.

## What is modelled

The scheduler appears twice, and the two are tied together.

- **As one state machine** (`Machine`): tasks, CPUs, one deadline queue and one non-empty flag per LLC, one CPU set
  per tier, one mailbox per CPU. Each callback is one atomic step; the kernel is nondeterminism, so a run is any
  sequence of steps with any arguments. `MachineInvariant` proves what every step keeps; `MachineRuns`, `Overtaking`,
  `SliceOverrun`, `Starvation`, `Cadence` and `Filing` prove what holds over whole runs. A task context is a record
  there (`TaskModel`), and `TaskInvariant`, `TaskRuns`, `Backoff`, `Gates`, `TaskSleep` and `Marks` prove what holds
  over every run of task events, in the documented numbers, and `TrueTime` what that means for the CPU time really
  used; `EveryContextHasALife` and `LaterContext` say that every context in every reachable machine state is the
  outcome of such a run, and stays so from any point on. `MachineTime` proves that the events of such a run are a
  legal schedule, so that the results in true time hold of every task of the machine.
- **As the source writes it** (`FlowContext`, `Callbacks`): a task context object with the packed `packed_info` word and
  the fused deficit/average word, and a scheduler object with the 64-bit tier and LLC masks, the flag bytes, the
  mailbox bytes and the 32-bit steal mask, all updated in place with the source's branches, loops and skipped writes.
  Every method is proved to make exactly the step of the state machine it stands for. `WholeRun` puts task storage
  beside the scheduler object and proves that any run of kernel acts leaves all words, queues and task contexts
  showing the state the abstract run reaches, so the results about the machine are results about these words.

The remaining modules are `CpuMask` and `LlcMask` (bit masks as sets, and the de Bruijn scans), `TierConfig` (profiles
and the packed tier words), `DeadlineQueue` (`tier_deadline` and the queue it orders), `Stealing` (the search of
`imperator_dispatch`), `EtdPairs` and `EtdCosts` (pair selection, calibration matrix, cost table) `PingPong` (the
two-thread measurement protocol) and `Division` (quotients).

Time is a true nanosecond count; wherever the source truncates to `u32` or `u16`, wraps or saturates, the model writes
it out. `u64` products of the loader and of the slice computation wrap. Averages, bursts and deficits are in units of
1024 ns, called microseconds as in the source.

### Kernel assumptions

- Callbacks are atomic, and operations on one task's context are serialised.
- A dispatch queue is a sequence sorted by key, first in first out on ties; `scx_bpf_dsq_move_to_local` takes the
  first task whose affinity allows the CPU.
- A task is enqueued, or dispatched directly, only when it is in no queue and on no CPU. A context is allocated for a
  task in that state.
- `nr_running` of a CPU is the running task, its local queue, and the queued tasks whose `task_cpu` is that CPU.
- A task is never started at a nanosecond time whose low 32 bits are all zero (`Stamps`): that value is the
  source's "unset" sentinel. `StopNeedsStamp` proves what happens otherwise, and `ZeroStampLeavesTheBit` that it does
  in a reachable run.
- For true time only: on each CPU, stops come no earlier than the starts before them (`ClocksAdvance`).
- CPU ids are below 64, there are 1 to 8 LLCs, and `cpu_llc_id` is below `nr_llcs`; for the cost table, the LLC masks
  agree with `cpu_llc_id` and none below `nr_llcs` is empty.

### Where the code and its documentation differ

The model follows the code. These differences are theorems:

- The repository's README.md:100 says new work of the next higher tier stops passing a queued task after the gap
  between the two budgets: on Default 6.5 ms for T0 past T1, 12 ms for T1 past T2, 80 ms for T2 past T3. An arrival of
  tier j with advance b sorts ahead exactly until that gap plus what tier j may use of b has gone by: all of it at T0,
  and above that at most one less than the gap from tier j to the tier above it (`CutoffIsTight`). With the new-flow
  bonus alone the three times are 14.5 ms, 18.5 ms and 88 ms (`DefaultCutoffs`), and a reachable run with no lock held
  shows the first (`NewFlowPassesPastTheGap`). The 72 and 120 ms its README.md:215 gives for Sim are 77 and 128 ms
  (`SimCutoffs`). For arrivals without an advance the documented gaps are right (`NoPassWithoutAdvance`).
- Its README.md:117 says an average above 24 ms with a stable tier forces T3. That branch never decides anything: such
  an average already classifies to T3 (`HardDemoteCapNeverDecides`).
- Its README.md:217 says `--starvation` preserves ratios and tier order. Below 2.1 s, order survives exactly while the
  T3 value fits its 20-bit field or once the wrapped T3 budget has climbed back to T2's; budgets are strictly apart
  from 13 us (26 us for Sim) on the first side (`OrderExactly`). T3 gets its value exactly while it fits
  (`GrantedExactly`).
- Its README.md:436 says the starvation kick and the lock-holder skip cannot happen, because every budget exceeds its
  slice. For a task that has been stopped this is so exactly when it does: a tier is exposed if and only if its slice
  outlasts its budget (`LiveExactly`, `DeadExactly`). Both overrides can cause that. Slices fit exactly for
  `--starvation` from 12.506 ms on (Esports), 33.383 ms (Default) or 100.020 ms (Sim), less a window once T3's field
  wraps (`StarvationKeepsSlicesFit`), and for `--quantum` below 4000, 5997 or 8000 us (`QuantumKeepsSlicesFit`); with
  both, `OverrideCoversTier` has the exact value. A first bout runs on the flat quantum instead, so there the quantum
  is what must not outlast the budget (`FirstBoutExactly`): under unmodified Default and Sim a new task of negative
  nice is kicked by a tick just past its budget (`FirstBoutIsStarved`), and in the unmodified profiles only such a
  task ever is (`StarvationBranchIsFresh`).
- The comment at src/bpf/imperator.bpf.c:1600-1606 promises a starvation check at most seven ticks apart. The counter
  saturates at 255, which is no multiple of eight, so past 248 no check ever comes again (`SevenTicksAtMost`,
  `NeverLooksAgain`); 249 ticks on a CPU with a single task get it there (`LoneTicksSaturate`).
- A zero `last_run_at` makes `imperator_stopping` skip the whole callback, leaving the CPU's bit set in
  `tier_cpu_mask` (`StopNeedsStamp`); a task started at time 2^32 does that (`ZeroStampLeavesTheBit`).
- Slice expiry is a 32-bit comparison, so a tick may miss it for ever: the kick is bounded in time exactly while slice
  plus tick period stays below 2^32 ns (`GuardIsExact`).
- The run time of a bout is a 32-bit difference, so a bout of 2^32 ns reads as nothing: a task running 4.29 s at a
  stretch is classified T0 (`HogsReadAsNothing`). A bout reads right exactly if it is shorter than that, or saturates
  anyway (`BoutExactly`).
- Each bout is truncated to 1024 ns units on its own, so preemptions can shorten a burst, by up to a unit per cut
  (`CutSample`); a burst cut into bouts of 1023 ns reads as nothing (`CutsLoseTime`).
- Integer rounding stalls the average: from nice 0 or more, equal bursts of u us reach T0 exactly if u < 88, although
  the gate is 90 us (`ReachesT0Exactly`).

## Model

| member | source | states |
|---|---|---|
| `CpuMask.CtzIsLowest` | src/bpf/bpf_compat.h:95-120 | For every nonzero 64-bit mask the de Bruijn scan returns a set bit with no set bit below it |
| `CpuMask.CtzIsLeast` | src/bpf/bpf_compat.h:95-120 | Read as a set of CPUs, the scan returns the lowest-numbered member |
| `CpuMask.SetBit` | src/bpf/imperator.bpf.c:1931 | The atomic OR adds this CPU to the tier's set and changes no other CPU |
| `CpuMask.ClearBit` | src/bpf/imperator.bpf.c:2463-2468 | The atomic AND removes this CPU from the tier's set and changes no other CPU |
| `CpuMask.Intersect` | src/bpf/imperator.bpf.c:1372-1381 | The AND of a tier word and an LLC word names exactly the CPUs in both |
| `LlcMask.CtzIsLeast` | src/bpf/bpf_compat.h:125-139 | The 32-bit scan returns the least LLC of every nonzero steal mask |
| `LlcMask.DropLowest` | src/bpf/imperator.bpf.c:1470-1471 | `mask & (mask - 1)` removes exactly the LLC the scan returned |
| `TierConfig.UnpackPack` | src/bpf/intf.h:464-482 | Every field of a packed tier word comes back as packed, modulo its width, and the word fits 48 bits |
| `TierConfig.FillTierConfigs` | src/main.rs:203-227 | The loader's loops leave in every entry the PACK_CONFIG word of the profile's multiplier, quantum and scaled budget |
| `TierConfig.ScaledExact` | src/main.rs:207-217 | Below 2.1 s the override scales every entry by its exact ratio to T3, with no wrap and no rounding |
| `TierConfig.ProfilesKeepOrder` | src/main.rs:87-141 | Unpacked budgets rise strictly from T0 to T3 in every profile |
| `TierConfig.StarvationOverrideKeepsOrder` | src/main.rs:203-227 | For every profile and every override whose T3 value fits 20 bits, budgets never fall with the tier, and are strictly apart if and only if the override is at least 13 us (26 us for Sim) |
| `TierConfig.OrderExactly` | src/main.rs:203-227 | For every profile and every override below 2.1 s: budgets never fall with the tier if and only if the T3 value fits its field or the override is at least 1.342177 s (Default) or 1.789570 s (Esports, Sim); and likewise, exactly, for strictly apart |
| `TierConfig.GrantedExactly` | src/main.rs:219-225 | T3 is granted the given value, to 1024 ns, if and only if it fits the 20-bit field |
| `TierConfig.OverrideCoversTier` | src/main.rs:203-227 | For every profile, quantum, tier and override below 2.1 s: the budget covers the slice if and only if the override is at least the least value whose entry does, counted past the wrap for T3 once it no longer fits its field |
| `TierConfig.StarvationKeepsSlicesFit` | src/main.rs:87-227 | With the profile's own quantum, an override below 2.1 s keeps every slice within its budget if and only if it is at least 12506, 33383 or 100020 us and, once T3's field has wrapped, at least 1077742, 1081741 or 1089739 us (Esports, Default, Sim) |
| `TierConfig.QuantumKeepsSlicesFit` | src/main.rs:87-227 | With the profile's own budgets, a quantum keeps every slice within its budget if and only if it is below 4000, 5997 or 8000 us (Esports, Default, Sim), as long as no product wraps |
| `TierConfig.ProfileSlicesFit` | src/main.rs:75-183 | In every unmodified profile each tier's slice is at most its budget |
| `TierConfig.DefaultTable` | src/main.rs:75-141 | The documented row of the Default profile in numbers: quantum, bonus and the four budgets as unpacked |
| `TierConfig.EsportsTable` | src/main.rs:75-141 | The documented row of the Esports profile in numbers: quantum, bonus and the four budgets as unpacked |
| `TierConfig.SimTable` | src/main.rs:75-141 | The documented row of the Sim profile in numbers: quantum, bonus and the four budgets as unpacked |
| `TierConfig.SlicesOfQuantum` | src/main.rs:143-183 | For every profile and override, slices are a quarter, one, two and 4095/1024 times the quantum, as long as no product wraps |
| `TierConfig.SliceWraps` | src/bpf/imperator.bpf.c:2214-2248 | For any quantum the slice is the u64 product, modulo 2^64, in units of 1024 |
| `TierConfig.QuantumField` | src/main.rs:219-225 | The packed quantum field gives the quantum back to within 1024 ns while it fits 16 bits |
| `TierConfig.PaddingIsT3` | src/main.rs:87-141 | The table entries past the fourth, reached only through the index mask, are T3's |
| `DeadlineQueue.DeadlineRange` | src/bpf/imperator.bpf.c:323-346 | A key is at most arrival plus the tier's budget; above T0 no advance takes it below arrival plus the next higher tier's budget |
| `DeadlineQueue.SameInstantOrder` | src/bpf/imperator.bpf.c:323-346 | Simultaneous arrivals get keys strictly ordered by tier under all advances if and only if the budgets rise strictly |
| `DeadlineQueue.NoSaturation` | src/bpf/imperator.bpf.c:334-345 | For T1 to T3 the key never saturates at zero and stays above the previous tier's undiscounted key |
| `DeadlineQueue.NoPassAfterCutoff` | src/bpf/imperator.bpf.c:305-346 | No arrival of any tier j with any advance b sorts ahead of a tier-i task once that task has waited budget i minus budget j plus what tier j may use of b, whether budgets rise or not |
| `DeadlineQueue.NoPassWithoutAdvance` | src/bpf/imperator.bpf.c:305-346 | An arrival of tier j without an advance no longer sorts ahead after budget i minus budget j |
| `DeadlineQueue.CutoffIsTight` | src/bpf/imperator.bpf.c:334-345 | An arrival of any tier with any advance sorts ahead of a waiting task that had none if and only if it comes before that cutoff |
| `DeadlineQueue.CutoffBounds` | src/bpf/imperator.bpf.c:323-346 | With rising budgets the cutoff is at most the gap to T0's budget plus the advance, and above T0 at most the gap to the next higher tier's budget, whatever the advance |
| `DeadlineQueue.DefaultCutoffs` | src/bpf/imperator.bpf.c:323-346 | On Default the three documented gaps are 6.5, 12 and 80 ms, and a new flow of the tier above passes for 14.5, 18.5 and 88 ms |
| `DeadlineQueue.SimCutoffs` | src/bpf/imperator.bpf.c:323-346 | On Sim the two documented gaps are 72 and 120 ms, and a new flow of the tier above passes for 77 and 128 ms |
| `DeadlineQueue.InsertKeepsSorted` | src/bpf/imperator.bpf.c:1332-1334 | Insertion keeps the queue sorted and adds exactly the new task |
| `DeadlineQueue.RemoveKeepsSorted` | src/bpf/imperator.bpf.c:1400 | A pull keeps the queue sorted and removes exactly one task |
| `DeadlineQueue.InsertBehind` | src/bpf/imperator.bpf.c:1321-1334 | An arrival with no earlier key leaves a waiting task and everything ahead of it untouched |
| `TaskInvariant.EwmaBetween` | src/bpf/imperator.bpf.c:2043-2053 | The integer average lands between the old average and the sample |
| `TaskInvariant.EwmaMonotone` | src/bpf/imperator.bpf.c:2095-2102 | The integer average is monotone in both arguments, across its two rates |
| `TaskInvariant.HardDemoteCapNeverDecides` | src/bpf/imperator.bpf.c:2137-2150 | The hard-demote cap never changes the tier chosen |
| `TaskInvariant.RecoveryKeepsSettled` | src/bpf/imperator.bpf.c:947-960 | Halving the distance to the midpoint never takes a consistent average out of its tier |
| `TaskInvariant.StepKeepsInv` | src/bpf/imperator.bpf.c:1968-2260 | Every event keeps: stability 3 implies the average agrees with the tier; the register holds at most three overruns; the new-flow flag is clear only with no deficit left; a stable task has its tier's slice |
| `TaskInvariant.BackoffNeverHidesAChange` | src/bpf/imperator.bpf.c:2017-2085 | After every run from allocation, a tier that disagrees with the stored average sends the next stop through the full pass |
| `TaskInvariant.SliceStaysCoherent` | src/bpf/imperator.bpf.c:2214-2248 | After every run containing an acted-on stop, next_slice is (quantum * multiplier) >> 10 of the current tier |
| `TaskInvariant.FirstBoutSlice` | src/bpf/imperator.bpf.c:403 | A first bout's flat quantum fits the budget of the starting tier if and only if the profile is Esports or the task is not of negative nice |
| `TaskInvariant.StopCharges` | src/bpf/imperator.bpf.c:2054-2059 | Both paths of a stop charge the bout to the deficit once, and drop the new-flow flag only on a full pass that leaves no deficit |
| `TaskInvariant.DeficitConserved` | src/bpf/imperator.bpf.c:2104-2117 | Over every run the deficit is the initial one less all charged bouts, floored at zero |
| `TaskInvariant.NewFlowFlag` | src/bpf/imperator.bpf.c:2201-2212 | The new-flow flag is never set again, is clear only if the deficit is zero, and does not survive a full pass leaving zero |
| `TaskInvariant.RegisterIsHistory` | src/bpf/imperator.bpf.c:2152-2199 | After every run the register encodes the last eight samples recorded on full passes below T3 since the last forced demotion, at most three of them overruns |
| `TaskInvariant.ForcedExactlyOnFourth` | src/bpf/imperator.bpf.c:2175-2199 | A demotion is forced exactly when the fourth overrun enters the window, and it raises the tier number and resets stability |
| `TaskModel.MaskIsRemainder` | src/bpf/imperator.bpf.c:348-358 | On 16-bit words the four recheck masks take the remainder by 1024, 128, 32 and 16 |
| `Backoff.FullPassExactly` | src/bpf/imperator.bpf.c:2017-2085 | An acting stop takes the full pass if and only if the task is not yet stable or its counter comes to a multiple of 1024, 128, 32 or 16, by tier; otherwise it takes the quick one |
| `Backoff.DueStopEffects` | src/bpf/imperator.bpf.c:2022-2260 | Only such a stop drops the flag of a spent deficit, records the sample against 150, 3000 or 12000 us, and takes the slice of the tier it arrives at; any other leaves tier, flag, register and slice alone |
| `Backoff.FullPassComesRound` | src/bpf/imperator.bpf.c:348-358 | From any state, any run of 1024, 128, 32 or 16 acting stops, by the tier it starts in, contains a full pass |
| `Backoff.NewFlowEnds` | src/bpf/imperator.bpf.c:2201-2212 | From any state with the deficit spent, the new-flow flag is gone after that many acting stops, whatever happens in between |
| `Backoff.OverrunsForceOut` | src/bpf/imperator.bpf.c:2152-2199 | A task below T3 whose stops all sample above one and a half times its gate has left its tier before 4096, 512 or 128 acting stops |
| `Gates.NewTask` | src/bpf/imperator.bpf.c:394-536 | A new task's tier by priority, its average by tier, flat quantum, new-flow flag, and a deficit of quantum plus bonus in units of 1024 ns |
| `Gates.NewFlowAllowance` | src/bpf/imperator.bpf.c:394-536 | In the unmodified profiles the deficit after every run is what is left of 4882, 9765 or 11718 units, and the flag is kept at least until they are spent |
| `Gates.AverageInNumbers` | src/bpf/imperator.bpf.c:2043-2102 | A stop moves the average a quarter of the way down to a completed burst, a sixteenth of the way up to any burst, to within rounding, and never down for a preempted one |
| `Gates.TierInNumbers` | src/bpf/imperator.bpf.c:2119-2148 | For every tier and average, the tier an unforced full pass arrives at, by 90 or 100, 1800 or 2000, 7200 or 8000 us; and the stability and counter it leaves |
| `Gates.Hysteresis` | src/bpf/imperator.bpf.c:2119-2148 | An unforced full pass leaves a tier upward if and only if the new average is below 90, 1800 or 7200 us, and downward if and only if it is at least 100, 2000 or 8000 |
| `Gates.ForcedInNumbers` | src/bpf/imperator.bpf.c:2175-2199 | A forced demotion ends one tier lower, or where the average says if that is lower still, with stability and counter reset |
| `Gates.QuickInNumbers` | src/bpf/imperator.bpf.c:2036-2085 | A stop that skips the full pass keeps the tier, and keeps stability if and only if the average stays inside the tier's own gates in numbers |
| `Gates.StaysAtOrBelow` | src/bpf/imperator.bpf.c:2119-2199 | Over every run, a task at or below T3, T2 or T1 with average and completed bursts of 7200, 1800 or 90 us or more never rises above that tier, recovery and preemption included |
| `Gates.PromoteGateIsSharp` | src/bpf/imperator.bpf.c:1939-1943 | At the T3 and T2 promote gates one completed burst shorter than the gate takes the task up at an unforced full pass, and no other does |
| `TaskRuns.StopAverages` | src/bpf/imperator.bpf.c:2003-2102 | The backoff path and the full path update average and burst accumulator identically |
| `TaskRuns.ElapsedExact` | src/bpf/imperator.bpf.c:1978 | u32 subtraction of truncated times is the true difference modulo 2^32 |
| `TaskRuns.CutIndependence` | src/bpf/imperator.bpf.c:2003-2015 | Over the units the classifier charges bout by bout: a burst within the starting average ends at the average of the whole charge however it was cut and on whichever paths; a longer one between that and the charge, capped at 65535 |
| `TaskRuns.CutAgainstUncut` | src/bpf/imperator.bpf.c:2003-2102 | The same, against an uncut run of the same charged total |
| `TaskRuns.BulkMeasure` | src/bpf/imperator.bpf.c:2022-2134 | The rank of the gap below the T2 gate falls with every completed burst sampled at 8000 us or more, through backoff and integer stalling |
| `TaskRuns.BulkConverges` | src/bpf/imperator.bpf.c:2022-2134 | From every reachable state, 210 or more completed bursts all sampled at 8000 us or more leave the task in T3 |
| `TaskRuns.CritMeasure` | src/bpf/imperator.bpf.c:2022-2199 | The rank of the excess above 87 falls with every completed burst sampled below 88 us, and no demotion is forced meanwhile |
| `TaskRuns.CriticalConverges` | src/bpf/imperator.bpf.c:2022-2199 | From every reachable state, 66 or more completed bursts with all bursts sampled below 88 us leave the task in T0 |
| `TaskRuns.ThresholdsAreSharp` | src/bpf/imperator.bpf.c:2043-2053 | The two stall points: average 91 with bursts of 88 us, and 7984 with bursts of 7999 us, repeat for ever |
| `TrueTime.BoutExactly` | src/bpf/imperator.bpf.c:1973-2003 | A bout of true length d reads as d, in saturating 1024 ns units, if and only if d is below 2^32 ns or its remainder modulo 2^32 saturates; it never reads longer |
| `TrueTime.RunTied` | src/bpf/imperator.bpf.c:1968-2015 | Over every schedule the context's stamp is the true start, and its accumulator is the units of the burst really run, saturated, as long as every bout was readable |
| `TrueTime.UnitsAgainstTime` | src/bpf/imperator.bpf.c:2000-2015 | The units charged to a burst lie between its true length and that less one unit per cut, and equal it if and only if the bouts' remainders add up to less than one unit |
| `TrueTime.CutSample` | src/bpf/imperator.bpf.c:2003-2015 | However preemptions cut a burst of readable bouts, its sample is its true length if and only if the remainders stay below one unit or it saturates; otherwise it is short by at most one unit per cut |
| `TrueTime.CutInTrueTime` | src/bpf/imperator.bpf.c:2003-2102 | Cut against uncut at the same true length: equal averages when the burst is within the starting average and the remainders stay below one unit; otherwise lower by at most a quarter unit per cut, rounded up; a longer burst lands at most one further unit below the uncut run, and never above itself |
| `TrueTime.LongExactly` | src/bpf/imperator.bpf.c:2000-2015 | A burst's units reach a threshold if and only if its true length less its remainders does |
| `TrueTime.BulkConvergesInTrueTime` | src/bpf/imperator.bpf.c:2022-2134 | From every reachable state, 210 or more completed bursts of readable bouts and a true length of 8000 units plus 1023 ns a bout leave the task in T3 |
| `TrueTime.CriticalConvergesInTrueTime` | src/bpf/imperator.bpf.c:2022-2199 | From every reachable state, 66 or more completed bursts with every burst truly shorter than 88 units leave the task in T0 |
| `TrueTime.HogsReadAsNothing` | src/bpf/imperator.bpf.c:1973-2003 | A task of any priority running 2^32 ns at a stretch, 66 times or more, is classified T0 |
| `TrueTime.CutsLoseTime` | src/bpf/imperator.bpf.c:2000-2015 | A burst of any number of bouts of 1023 ns is sampled as zero, and in one bout at its length |
| `TrueTime.CutsLoseTimeHere` | src/bpf/imperator.bpf.c:2000-2053 | From average 100 a burst of 8184 ns ends at 76 in one bout and at 75 in eight |
| `TrueTime.StaysOutOfT0` | src/bpf/imperator.bpf.c:2043-2053 | With average 91 or more and completed bursts of 88 us or more a task outside T0 stays outside |
| `TrueTime.StaysOutOfT3` | src/bpf/imperator.bpf.c:2119-2199 | With average and bursts below 8000 us a task outside T3 stays outside, the overrun register included |
| `TrueTime.ReachesT0Exactly` | src/bpf/imperator.bpf.c:2043-2134 | From allocation at nice 0 or more, equal completed bursts of u us reach T0 if and only if u < 88 |
| `TrueTime.ReachesT3Exactly` | src/bpf/imperator.bpf.c:2043-2199 | From allocation at nice 10 or less, equal completed bursts of u us reach T3 if and only if u >= 8000 |
| `TaskSleep.StampIsTheSleep` | src/bpf/imperator.bpf.c:2493-2496 | Over every run the sleep stamp is zero or the truncated time of the one blocking stop the task is still asleep from |
| `TaskSleep.RecoveryIsGenuine` | src/bpf/imperator.bpf.c:947-960 | Recovery fires only for a real sleep of more than 500 ms, even under u32 wrap; for sleeps under 4.3 s with a nonzero stamp it fires exactly then |
| `TaskSleep.RecoveryMoves` | src/bpf/imperator.bpf.c:947-960 | Over every run a queued wakeup of a task asleep from a stop that reads as more than 500 ms ago moves the average half way to 50, 1050, 5000 or 8001 us by tier; every other queued wakeup leaves it |
| `TaskSleep.RecoveryFrame` | src/bpf/imperator.bpf.c:947-960 | A queued wakeup leaves no stamp to recover from again, does not touch deficit, tier, stability or register, and moves the average only towards the midpoint |
| `TaskSleep.NoRecoveryAfterPreemption` | src/bpf/imperator.bpf.c:2493-2496 | A task stopped while runnable never recovers at its re-enqueue |
| `Marks.MarksTellTheTruth` | src/bpf/imperator.bpf.c:590-611 | After every run a task carries the IRQ mark if and only if an IRQ wakeup is pending that no wakeup has consumed, and the lock mark if and only if the last word on its lock was that it holds it |
| `Marks.FourSkipsAtMost` | src/bpf/imperator.bpf.c:1655-1672 | In every run of the machine the count of lock-holder skips never exceeds four |
| `Stealing.StealOrderExact` | src/bpf/imperator.bpf.c:1433-1477 | Every flagged remote LLC is tried exactly once, and after the first the indices ascend |
| `Stealing.StealOrderCheapest` | src/bpf/imperator.bpf.c:1433-1463 | The first victim has the least known cost; it has none only if no flagged LLC has one |
| `Stealing.TryFindsFirst` | src/bpf/imperator.bpf.c:1395-1477 | A search takes the first runnable task of the first queue that has one, and comes back empty exactly when none does |
| `Stealing.DispatchComplete` | src/bpf/imperator.bpf.c:1395-1477 | With honest flags, dispatch comes back empty exactly when no LLC queue holds a task this CPU may run; flags stay honest; the local queue has precedence |
| `Stealing.DispatchVictim` | src/bpf/imperator.bpf.c:1429-1477 | With nothing runnable at home, dispatch robs the LLC of least known cost, the lower index on ties, if it holds a runnable task, and otherwise the lowest-numbered flagged one that does |
| `MachineInvariant.StepConserves` | src/bpf/imperator.bpf.c:839-1477 | No step loses or duplicates a task: placements change only by the task a wakeup places and the one that stops or is dequeued |
| `MachineInvariant.PlacesMove` | src/bpf/imperator.bpf.c:839-1477 | A step places exactly the arriving task, which was nowhere, takes out exactly the departing one, which was in one place, and leaves every other task's placement alone |
| `MachineInvariant.DepartureIsPlaced` | src/bpf/imperator.bpf.c:2455-2499 | A task that stops or is dequeued by the kernel was in some queue, local queue or CPU |
| `MachineInvariant.LocalFifo` | src/bpf/imperator.bpf.c:1395-1477 | A step appends one task to a CPU's local queue, starts its first, lets the kernel take one out, or leaves it alone |
| `MachineInvariant.Projection` | src/bpf/imperator.bpf.c:839-2499 | Every machine step is at most one task event for each context |
| `MachineInvariant.NextKeepsInv` | src/bpf/imperator.bpf.c:177-205 | Every step keeps all of: unique placement, sorted queues with honest flags, true masks and mailboxes, classifier invariant |
| `MachineInvariant.StopNeedsStamp` | src/bpf/imperator.bpf.c:2455-2468 | A stop leaves the CPU's mask bits true if and only if the task's stamp is nonzero |
| `MachineRuns.MasksTellTheTruth` | src/bpf/imperator.bpf.c:177-196 | In every reachable state a CPU's bit is in a tier's mask if and only if it runs a task of that tier, so in at most one mask; and its mailbox is then valid and holds that tier |
| `MachineRuns.EveryTaskInOnePlace` | src/bpf/imperator.bpf.c:1395-1477 | In every reachable state a task is in at most one queue, local queue or CPU |
| `MachineRuns.DispatchFindsWork` | src/bpf/imperator.bpf.c:1395-1477 | In every reachable state dispatch leaves the local queue unchanged exactly when no LLC queue holds a task the CPU may run, and otherwise adds one task to it |
| `MachineRuns.KickHitsTheRightCpu` | src/bpf/imperator.bpf.c:1367-1383 | A wakeup filed at T0 or T1 kicks the lowest-numbered CPU of its LLC really running T3, else T2; none exactly when there is neither; never a T0 or T1 CPU |
| `Filing.WakeupByMailbox` | src/bpf/imperator.bpf.c:1226-1334 | A queued wakeup adds one entry, at T0 if marked, at its own tier if the mailbox was never written, and otherwise at the better of its own tier and the mailbox's, but no better than T1; with its advances and its own slice |
| `Filing.WakeupIsFiled` | src/bpf/imperator.bpf.c:1226-1334 | The same in every reachable state by the tier the enqueuing CPU is really running |
| `Filing.OthersAreFiled` | src/bpf/imperator.bpf.c:839-946 | The other paths add one entry without advance on the flat quantum: at the own tier for a re-enqueue, and without a context at T1 for a kthread, T2 for a wakeup, T3 for the rest |
| `MachineRuns.EveryContextHasALife` | src/bpf/imperator.bpf.c:2441-2445 | Along every run a task has a context exactly when it has a life, and the context is the result of that run of task events from its allocation |
| `MachineRuns.LifeGrows` | src/bpf/imperator.bpf.c:2441-2499 | A later state's life extends an earlier one's |
| `MachineRuns.LaterContext` | src/bpf/imperator.bpf.c:2441-2499 | From any point of a machine run, a later context is the earlier one after the events since, and satisfies the classifier invariant |
| `MachineRuns.BulkTaskSettles` | src/bpf/imperator.bpf.c:2022-2134 | Whatever the rest of the machine does, a task that since some state has completed 210 bursts all sampled at 8000 us or more, with no recovery, is in T3 |
| `MachineRuns.CriticalTaskSettles` | src/bpf/imperator.bpf.c:2022-2199 | Whatever the rest of the machine does, a task that since some state has completed 66 bursts with all bursts sampled below 88 us, with no recovery, is in T0 |
| `MachineRuns.ZeroStampLeavesTheBit` | src/bpf/imperator.bpf.c:2455-2468 | A run from boot in which a task is started and stopped leaves its idle CPU in a tier mask if and only if it was started at a time that truncates to zero |
| `MachineTime.LifeIsScheduled` | src/bpf/imperator.bpf.c:1831-2499 | In every run of the machine the events of a task are a legal schedule, and its stopwatch runs exactly while it is on a CPU, since the time it was started there |
| `MachineTime.SinceIsScheduled` | src/bpf/imperator.bpf.c:1831-2499 | From any point of a run on, what has happened to a task since is a legal schedule from where its stopwatch stood |
| `MachineTime.BulkTaskSettlesInTrueTime` | src/bpf/imperator.bpf.c:2022-2134 | Whatever the rest of the machine does, a task that since some state has completed 210 bursts of readable bouts and a true length of 8000 units plus 1023 ns a bout, with no recovery, is in T3 |
| `MachineTime.CriticalTaskSettlesInTrueTime` | src/bpf/imperator.bpf.c:2022-2199 | Whatever the rest of the machine does, a task that since some state has completed 66 bursts with every burst truly shorter than 88 units, with no recovery, is in T0 |
| `MachineTime.StopsAreActs` | src/bpf/imperator.bpf.c:2455-2499 | Every stop in a task's life is a stop the machine made of that task, at that time and of that kind |
| `MachineTime.TaskRecoveryIsGenuine` | src/bpf/imperator.bpf.c:947-960 | In every run, a queued wakeup recovers a task only if the machine stopped it, blocked, more than 500 ms ago and has neither stopped it nor woken it through a queue since; below the 4.3 s wrap, with a nonzero stamp, exactly then |
| `MachineTime.WakeMovesAverage` | src/bpf/imperator.bpf.c:947-960 | In every run of the machine a queued wakeup leaves its task's average half way to the midpoint of its tier if it was asleep for more than 500 ms, read modulo 2^32 ns, and otherwise where it was |
| `Starvation.SliceCoherentFromFirstStop` | src/bpf/imperator.bpf.c:2214-2248 | Once a running task has been stopped, its cached slice is its tier's in every later state of every interleaving |
| `Starvation.ContentionIsVisible` | src/bpf/imperator.bpf.c:1587-1620 | If nr_running exceeds one, the slice check sees queued work, because queues are keyed by the LLC of task_cpu |
| `Starvation.NoStarvationKick` | src/bpf/imperator.bpf.c:1587-1680 | While the cached slice is within the budget a tick neither kicks for starvation nor counts a lock-holder skip |
| `Starvation.StarvationKickIsDead` | src/bpf/imperator.bpf.c:1587-1680 | In every run of every configuration whose slices fit its budgets, no tick after a task's first stop kicks it for starvation or counts a skip |
| `Starvation.BranchNeedsRoom` | src/bpf/imperator.bpf.c:1587-1680 | In every state that keeps the invariant, the branch is taken only by a task the scheduler knows whose cached slice is longer than its tier's budget, and only if the 32-bit runtime can exceed that budget |
| `Starvation.StoppedTaskIsStarved` | src/bpf/imperator.bpf.c:1587-1680 | For every configuration and every exposed tier, a run from boot in which a task is started, stopped into that tier, started again and kicked for starvation |
| `Starvation.LiveExactly` | src/bpf/imperator.bpf.c:1587-1680 | For every configuration and every tier, some run takes the branch for a task of that tier after a stop if and only if the tier's slice outlasts its budget and the 32-bit runtime can show it |
| `Starvation.DeadExactly` | src/bpf/imperator.bpf.c:1587-1680 | For whatever the loader writes, no run takes the branch for a stopped task if and only if every slice is within its budget |
| `Starvation.StarvationBranchIsFresh` | src/bpf/imperator.bpf.c:1587-1680 | In the unmodified profiles, in every reachable state, that branch is left only to a never-stopped task of negative nice under Default or Sim |
| `Starvation.FirstBoutIsStarved` | src/bpf/imperator.bpf.c:403 | A reachable run under Default and Sim in which a new task of nice -20 is kicked for starvation |
| `Starvation.FirstBoutExactly` | src/bpf/imperator.bpf.c:403 | For every configuration and priority, some run takes the branch for a task of that priority before its first stop if and only if the flat quantum outlasts the budget of the tier it starts in and the 32-bit runtime can show it |
| `Cadence.CompanyCounts` | src/bpf/imperator.bpf.c:1617-1622 | nr_running exceeds one if and only if another task waits in the CPU's local queue or in an LLC queue with this CPU as its task_cpu |
| `Cadence.CounterInNumbers` | src/bpf/imperator.bpf.c:1600-1740 | A tick past the slice check lowers the counter by a quarter if it is on the beat and not alone, and otherwise raises it by one up to 255; the beat is every tick below 8, every second below 16, every fourth below 32, then every eighth |
| `Cadence.KickInNumbers` | src/bpf/imperator.bpf.c:1615-1680 | Such a tick kicks for starvation if and only if it is on the beat, not alone, past the budget by the 32-bit runtime, and holds no lock or has used four skips; and the skip count it leaves |
| `Cadence.SliceInNumbers` | src/bpf/imperator.bpf.c:1578-1598 | A tick kicks for its slice if and only if the task is known and stamped, its 32-bit runtime is above its slice, and something is queued on its CPU or in its LLC |
| `Cadence.UnstampedTick` | src/bpf/imperator.bpf.c:1553-1577 | A tick on an unstamped context stamps it and does nothing else |
| `Cadence.SevenTicksAtMost` | src/bpf/imperator.bpf.c:1600-1617 | The promised delay of at most seven ticks to the next check holds if and only if the counter is at most 248; above that no check ever comes |
| `Cadence.NeverLooksAgain` | src/bpf/imperator.bpf.c:1600-1740 | In every run from a state with a CPU's counter above 248, no tick on that CPU ever kicks for starvation or counts a skip, in any configuration |
| `Cadence.LoneTicksSaturate` | src/bpf/imperator.bpf.c:1717-1740 | A run from boot: after n ticks on a CPU with a single task the counter is n, or 255 |
| `Overtaking.TooLateByTime` | src/bpf/imperator.bpf.c:1321-1330 | With rising budgets an arrival is too late once twice the bonus has gone by past the gap to T0's budget, once a single bonus has if the task is not marked as a lock holder, and above T0 once the gap to the next higher tier's budget has |
| `Overtaking.TooLateExactly` | src/bpf/imperator.bpf.c:1321-1330 | An arrival of any tier and advance sorts behind a waiting task filed without an advance if and only if it is too late, that is, past the cutoff for its own tier and advance |
| `Overtaking.OneStepAhead` | src/bpf/imperator.bpf.c:1321-1334 | One step puts nobody ahead of a waiting task but an arrival that is not too late, and an eligible dispatch brings it one place nearer |
| `Overtaking.ServiceIsInOrder` | src/bpf/imperator.bpf.c:1395-1402 | An eligible CPU of the LLC pulls the waiting task or one ahead of it |
| `Overtaking.AheadIsBounded` | src/bpf/imperator.bpf.c:305-346 | Through any run while the task stays queued, the entries ahead are among those that were and the early arrivals, and the number ahead plus the eligible dispatches is at most their number |
| `Overtaking.AheadOnlyFalls` | src/bpf/imperator.bpf.c:305-346 | Past the cutoff the entries ahead are among those that were, and each eligible dispatch removes one |
| `Overtaking.BoundedOvertaking` | src/bpf/imperator.bpf.c:305-346 | From any reachable state, for any enqueue and any later run through which the task stays queued: whatever is ahead was ahead at the start or arrived early, and eligible dispatches number at most those ahead plus the early arrivals |
| `Overtaking.NewFlowPassesPastTheGap` | src/bpf/imperator.bpf.c:323-346 | A reachable run in which a new T0 wakeup is inserted ahead of a waiting T1 task if and only if it comes before the documented gap plus the new-flow bonus |
| `SliceOverrun.BoutLasts` | src/bpf/imperator.bpf.c:1553-1598 | Nothing but a stop on its own CPU ends a bout or moves its stamp or slice |
| `SliceOverrun.UnkickedRunIsShort` | src/bpf/imperator.bpf.c:1578-1598 | While no tick kicks, the truncated runtime accounts for all time since work arrived, up to one period |
| `SliceOverrun.BoundedSliceOverrun` | src/bpf/imperator.bpf.c:1553-1598 | With ticks at most P apart, work staying queued and slice + P below 2^32, the task is kicked by arrival + slice + 2P in every interleaving, however often the 32-bit clock wraps |
| `SliceOverrun.WrapHidesTheOverrun` | src/bpf/imperator.bpf.c:1578-1587 | A tick one period after the end of the slice reads as unexpired if and only if slice + P reaches 2^32 or P is zero |
| `SliceOverrun.NeverKicked` | src/bpf/imperator.bpf.c:1578-1598 | From any such state with slice + P of 2^32 or more there are steady runs of any length, with work queued at every tick, in which no tick kicks |
| `SliceOverrun.GuardIsExact` | src/bpf/imperator.bpf.c:1553-1598 | In every reachable state in which a CPU runs a known task with work queued, some time bounds the kick of all steady runs if and only if slice + P is below 2^32 or P is zero |
| `PackedInfo.UnpackPack` | src/bpf/intf.h:269-287 | Every record packs into a word that decodes to it, reserved bits zero |
| `PackedInfo.PackUnpack` | src/bpf/intf.h:269-287 | A word is the packing of what it decodes to if and only if its reserved bits and unused flag are zero |
| `PackedInfo.RetierInfo` | src/bpf/imperator.bpf.c:2201-2205 | The fused update changes tier and stability and nothing else |
| `PackedInfo.UnstableInfo` | src/bpf/imperator.bpf.c:2075-2079 | The backoff reset clears stability and nothing else |
| `PackedInfo.ClearedInfo` | src/bpf/imperator.bpf.c:1157-1162 | Clearing a flag changes that flag and nothing else |
| `PackedInfo.RaisedInfo` | src/bpf/lock.bpf.c:115-128 | Setting the lock or IRQ flag changes that flag and nothing else |
| `FlowContext.FuseRoundTrip` | src/bpf/intf.h:285-287 | Deficit and average round-trip through the fused word in both directions |
| `FlowContext.TaskCtx.constructor` | src/bpf/imperator.bpf.c:394-536 | Allocation builds words that stand for the allocated record |
| `FlowContext.TaskCtx.Reclassify` | src/bpf/imperator.bpf.c:1968-2260 | On both paths, with its skipped writes, the in-place update leaves the record of the model's reclassification, which `Backoff` and `Gates` state in numbers, or the old one if never stamped |
| `FlowContext.TaskCtx.NextTier` | src/bpf/imperator.bpf.c:2119-2199 | Classification, cap and register shift agree with the model, whose gates `Gates.TierInNumbers` gives; a forced demotion always raises the tier number |
| `FlowContext.TaskCtx.StoreFullPass` | src/bpf/imperator.bpf.c:2194-2260 | Skipping unchanged writes loses none of tier, stability, new-flow flag, deficit, average, counter or slice |
| `FlowContext.TaskCtx.Stop` | src/bpf/imperator.bpf.c:2493-2498 | Stamping before reclassifying leaves the record of the model's stop |
| `FlowContext.TaskCtx.Wake` | src/bpf/imperator.bpf.c:947-1170 | A queued wakeup recovers at most once, as `TaskSleep.RecoveryMoves` says, consumes stamp and IRQ mark, and runs at T0 exactly if the mark was set |
| `FlowContext.TaskCtx.ConsumeIrqWake` | src/bpf/imperator.bpf.c:590-611 | A direct dispatch consumes the IRQ mark and gets T0 and T0's slice exactly if it was set |
| `FlowContext.TaskCtx.SetLockHolder` | src/bpf/lock.bpf.c:115-163 | Setting or clearing the lock flag changes that flag only, and clearing it restores the skip allowance |
| `FlowContext.TaskCtx.WordIsThePacking` | src/bpf/intf.h:269-283 | After every operation the word equals the packing of the abstract record, its low 24 bits zero |
| `Callbacks.PublishesTier` | src/bpf/intf.h:293-316 | Both publishing forms make the mailbox valid and hold the tier, T0 included |
| `Callbacks.Scheduler.constructor` | src/bpf/imperator.bpf.c:2510-2521 | After init the words are the empty machine and each LLC mask names exactly its CPUs |
| `Callbacks.Scheduler.FillLlcMasks` | src/bpf/imperator.bpf.c:2517-2520 | The init loop makes llc_cpu_mask the partition given by cpu_llc_id |
| `Callbacks.Scheduler.SelectCpu` | src/bpf/imperator.bpf.c:613-830 | Marking and direct dispatch are the machine's step, and an IRQ wakeup gets T0's slice |
| `Callbacks.SelectedIsTwoSteps` | src/bpf/imperator.bpf.c:613-830 | select_cpu is the machine's IRQ step followed by its idle step |
| `Callbacks.Scheduler.Running` | src/bpf/imperator.bpf.c:1831-1932 | The mailbox byte and the tier word after running are exactly the machine's step |
| `Callbacks.Scheduler.Stopping` | src/bpf/imperator.bpf.c:2455-2499 | Clearing the bit before reclassifying is exactly the machine's step |
| `Callbacks.Scheduler.EnqueueWakeup` | src/bpf/imperator.bpf.c:947-1383 | Recovery, IRQ override, inheritance, advances, insertion and kick are those of the machine |
| `Callbacks.Scheduler.Enqueue` | src/bpf/imperator.bpf.c:839-1383 | All four paths of enqueue are exactly the machine's step, and only the full path kicks |
| `Callbacks.Scheduler.Kick` | src/bpf/imperator.bpf.c:1367-1383 | Two ANDs and a bit scan find the lowest-numbered T3, else T2, CPU of the LLC, or none |
| `Callbacks.Scheduler.InheritTier` | src/bpf/imperator.bpf.c:1226-1273 | The mailbox byte yields the waker's tier only if valid, floors it at T1 and never demotes; `Filing.WakeupIsFiled` gives the result in numbers |
| `Callbacks.Scheduler.Tick` | src/bpf/imperator.bpf.c:1553-1790 | Kick verdict, lock-skip count, tick counter and mailbox after a tick are exactly the machine's |
| `Callbacks.Scheduler.StealMask` | src/bpf/imperator.bpf.c:1429-1454 | The loop builds the mask of exactly the flagged remote LLCs and finds the first of least known cost |
| `Callbacks.Scheduler.StealInOrder` | src/bpf/imperator.bpf.c:1465-1476 | The bit-driven loop tries the remaining victims in ascending order, and its trip bound never ends it early |
| `Callbacks.Scheduler.Dispatch` | src/bpf/imperator.bpf.c:1395-1477 | The mask-driven dispatch is exactly the machine's search of queues in cost order |
| `WholeRun.System.constructor` | src/bpf/imperator.bpf.c:2510-2521 | After boot the words, the queues and the empty task storage show the boot state |
| `WholeRun.System.Do` | src/bpf/imperator.bpf.c:613-2499 | Any act of the kernel leaves the words, the queues and every task context showing the machine's next state, and gives the machine's kick or tick verdict |
| `WholeRun.System.Replay` | src/bpf/imperator.bpf.c:613-2499 | Any run of acts the kernel may make ends with words, queues and all task contexts showing what the abstract run reaches, and every kick and tick verdict on the way is the abstract run's |
| `WholeRun.System.WordsTellTheTruth` | src/bpf/imperator.bpf.c:177-196 | After any run from boot, a bit of a tier word is set if and only if that CPU runs a task of that tier, and its mailbox byte then publishes that tier |
| `WholeRun.SignalsTellTheTruth` | src/bpf/imperator.bpf.c:1367-1383 | In any run from boot a kick given hits a CPU of the arrival's LLC that is running T3 or T2, and a starvation kick finds a slice longer than its tier's budget |
| `WholeRun.WakeupKicks` | src/bpf/imperator.bpf.c:1226-1383 | In every reachable state a queued wakeup whose waker runs in tier w kicks by the tier it is filed at: the lowest-numbered T3, else T2, CPU of its LLC for T0 and T1, and nobody for T2 and T3 |
| `WholeRun.OthersKickNobody` | src/bpf/imperator.bpf.c:839-946 | No other enqueue kicks |
| `EtdPairs.SpreadIsSpread` | src/main.rs:379-392 | Spread indices are min(k, len) many, strictly increasing, in range, from the first to the last |
| `EtdPairs.SpreadIsEven` | src/main.rs:376-392 | Each index is its exact fraction of the way through the list, rounded down; of eight, three are 0, 3 and 7 |
| `EtdPairs.SelectEtdPairs` | src/main.rs:357-408 | The nested loops produce the samples of every two populated LLCs, and none for fewer than two |
| `EtdPairs.SamplesDistinct` | src/main.rs:396-404 | Two LLCs get exactly min(3, size of A, size of B) samples, on distinct CPUs |
| `EtdPairs.SamplesInNumbers` | src/main.rs:394-406 | Two LLCs get three samples, or as many as the smaller has CPUs, the i-th pairing the CPUs the same fraction of the way through both lists |
| `EtdPairs.SelectedExactly` | src/main.rs:394-406 | For disjoint LLCs a pair crossing A and B is selected if and only if it is one of their samples |
| `EtdPairs.SelectedOnce` | src/main.rs:394-406 | No pair is selected twice |
| `EtdCosts.MeasureWithRetries` | src/calibrate.rs:259-295 | The retry loop keeps the first steady measurement or the fourth unsteady one, and none once pinning fails |
| `EtdCosts.OutcomeExactly` | src/calibrate.rs:264-295 | The deciding attempt is the first that fails or is steady, and in any case the fourth; every earlier one was measured and noisy |
| `EtdCosts.CalibratePairs` | src/calibrate.rs:239-339 | The matrix left in place is the one the pair list and the measurements define, entry by entry |
| `EtdCosts.PositiveExactlyOnPairs` | src/calibrate.rs:277-322 | The matrix is symmetric, positive on the chosen pairs and zero elsewhere, whatever is measured and whatever fails |
| `EtdCosts.EntryIsItsOutcome` | src/calibrate.rs:277-322 | A pair listed once ends with its own deciding median, or 500 ns when it has none or a zero one |
| `EtdCosts.LeastLatency` | src/main.rs:833-844 | The fold finds the least positive latency between two LLCs, or that there is none |
| `EtdCosts.NearerIsNoDearer` | src/main.rs:845-857 | A smaller latency never gets a larger cost, and a cost no larger means less than 4 ns farther than a latency from 4 ns to below 1020 ns |
| `EtdCosts.WriteEtdCosts` | src/main.rs:808-862 | Nothing is written unless some entry is positive; then every off-diagonal entry and no other becomes what the least latency is worth: 0 if there is none, 1 below 8 ns, 255 from 1020 ns on, and otherwise the c with 4c <= latency < 4c + 4 |
| `EtdCosts.SelectedInRange` | src/main.rs:357-408 | Every selected pair indexes the matrix and crosses from a lower to a higher LLC |
| `EtdCosts.CostsCompleteAndSymmetric` | src/main.rs:818-860 | End to end, costs between two LLCs are equal in both directions and in 1..255 |
| `EtdCosts.PositiveWithTwoLlcs` | src/main.rs:357-816 | The calibrated matrix has a positive entry if and only if there are two LLCs or more |
| `EtdCosts.BuildCostTable` | src/main.rs:357-862 | The code end to end, from pair selection to the table: written if and only if there are two LLCs or more; then every entry between two LLCs is in 1..255 and the same in both directions, and no other entry changes |
| `EtdCosts.AlwaysAPreferredVictim` | src/bpf/imperator.bpf.c:1447-1463 | With the table written and any remote LLC flagged, dispatch first tries a flagged LLC of least cost, whose latency is less than 4 ns above that of any flagged one from 4 ns to below 1020 ns |
| `PingPong.StepKeepsInv` | src/calibrate.rs:90-223 | Every atomic action of either thread keeps the barrier count, the loop ranges and the alternation |
| `PingPong.ExchangesAlternate` | src/calibrate.rs:128-205 | In every schedule 0 <= pong - ping <= 1, and the flag says whose turn it is |
| `PingPong.BothOrNeither` | src/calibrate.rs:107-125 | In every schedule one thread quitting excludes the other measuring |
| `PingPong.AbortMeansPinFailed` | src/calibrate.rs:107-175 | The abort flag is set if and only if some thread's pinning failed |
| `PingPong.FinishedAgrees` | src/calibrate.rs:90-223 | Finished threads both quit, exactly if some pinning failed, or both measured with equal counts and the flag at PING |
| `PingPong.CountsAreExchanges` | src/calibrate.rs:128-205 | The loop counters count the exchanges really made: a finished measurement has moved the flag warm-up plus trips times samples times in each direction |
| `PingPong.StepWorks` | src/calibrate.rs:128-215 | Every action that is not a spin decreases a common measure |
| `PingPong.SomeoneCanMove` | src/calibrate.rs:90-223 | Until both have finished some thread can advance |
| `PingPong.FairRunsFinish` | src/calibrate.rs:90-223 | Every schedule that keeps giving both threads a turn finishes within a linear bound |

## Left out

- Burst credit and `SCX_ENQ_PREEMPT` (src/bpf/imperator.bpf.c:966-1140): README.md:181 says credit never accrues; runs
  are without that flag.
- `imperator_init_task` (exec reset, fork inheritance): README.md:120 says those paths never run.
- `src/bpf/lock.bpf.c` beyond setting and clearing the lock-holder bit: it is not loaded by this build; its effect is
  an environment step.
- Interleavings finer than a callback: testing a queue for emptiness and clearing its flag
  (src/bpf/imperator.bpf.c:1406-1407) is not atomic with a concurrent insert, so the flag invariant is a
  callback-atomic claim.
- The two `scx_bpf_now()` calls of one stop (src/bpf/imperator.bpf.c:1973 and 2494) are taken as one time.
- `enqueue_time`, jitter telemetry, statistics, DVFS and hybrid P-core steering: they feed no scheduling decision of the
  model.
- Wrap of the `u64` deadline sum, after 584 years of uptime.
- A failed task-storage allocation: a task without a context is modelled, its failed allocation is not a step.
- Mean, deviation and median of the samples, thread priorities and clocks: a measurement is an arbitrary non-negative
  real and a verdict on its spread. `f64` rounding of latencies is not modelled.
- Memory ordering weaker than sequential consistency, in the ping-pong as in the callbacks.
- Overflow checks of a debug build of the loader: `u64` products wrap, as in a release build.
- Topology detection in `src/topology.rs`: the masks are a precondition.
- TUI, logging, signals, eventfd and build scripts: display and I/O only.
- FlowContext.TaskCtx.Reclassify: the backoff counter is a 16-bit number and its mask a remainder (`MaskIsRemainder`
  has the two agree on 16-bit words); the fused deficit/average word is a 32-bit number with arithmetic in place of
  shifts and masks; `packed_info` is a real bit vector.
- Callbacks.Scheduler.Dispatch: the LLC's row of the cost table is a parameter, since nothing in the callback writes it.
- Callbacks.Scheduler.Tick: `nr_running` is computed from the kernel's queues as defined above, not read from a run
  queue.
- TierConfig.OrderExactly: says nothing of overrides of 2.1 s and more, where T3 wraps again and again and the `u64`
  product eventually does.
- TierConfig.StarvationKeepsSlicesFit: says nothing of them either, for the same reason.
- TierConfig.QuantumKeepsSlicesFit: says nothing of quanta of 52 days and more, where the `u64` slice product wraps.
- EtdCosts.PositiveExactlyOnPairs: assumes measured medians are not negative.
