/** tier_deadline() and the per-LLC dispatch queue it orders. */
module DeadlineQueue {
  import opened TierConfig

  /** Enqueue time plus the tier's budget, less an advance capped below the gap to the tier above. */
  function TierDeadline(cfg: Config, now: nat, tier: nat, advance: nat): nat
    requires cfg.Valid()
  {
    var t := tier % 8;
    var budget := cfg.Budget(t);
    var granted :=
      if advance > 0 && t > 0 then
        var above := cfg.Budget(t - 1);
        var gap := if budget > above then budget - above - 1 else 0;
        Min(advance, gap)
      else
        advance;
    var dl := now + budget;
    if dl > granted then dl - granted else 0
  }

  // ---- what the key promises ----

  lemma DeadlineRange(cfg: Config, now: nat, t: Tier, advance: nat)
    requires cfg.Valid() && BudgetsRise(cfg)
    ensures TierDeadline(cfg, now, t, advance) <= now + cfg.Budget(t)
    ensures t == 0 ==> TierDeadline(cfg, now, t, advance) + advance >= now + cfg.Budget(0)
    ensures t > 0 ==> TierDeadline(cfg, now, t, advance) >= now + cfg.Budget(t - 1)
  {
  }

  /** Same-instant arrivals keep strict tier order under every pair of advances exactly when the
      budgets rise strictly. */
  lemma SameInstantOrder(cfg: Config)
    requires cfg.Valid()
    ensures BudgetsRiseStrictly(cfg) <==>
            forall now: nat, i: Tier, j: Tier, a: nat, b: nat | i < j ::
              TierDeadline(cfg, now, i, a) < TierDeadline(cfg, now, j, b)
  {
    if BudgetsRiseStrictly(cfg) {
      forall now: nat, i: Tier, j: Tier, a: nat, b: nat | i < j
        ensures TierDeadline(cfg, now, i, a) < TierDeadline(cfg, now, j, b)
      {
        BudgetBelow(cfg, i, j);
        DeadlineRange(cfg, now, i, a);
      }
    } else {
      var i: Tier :| i < 3 && cfg.Budget(i) >= cfg.Budget(i + 1);
      assert TierDeadline(cfg, 0, i, 0) == cfg.Budget(i);
      assert TierDeadline(cfg, 0, i + 1, 0) == cfg.Budget(i + 1);
      assert !(TierDeadline(cfg, 0, i, 0) < TierDeadline(cfg, 0, i + 1, 0));
    }
  }

  lemma BudgetBelow(cfg: Config, i: Tier, j: Tier)
    requires cfg.Valid() && BudgetsRiseStrictly(cfg) && i < j
    ensures cfg.Budget(i) <= cfg.Budget(j - 1) < cfg.Budget(j)
  {
  }

  /** Above T0 the key never saturates at 0: a capped advance leaves more than the budget of the tier above. */
  lemma NoSaturation(cfg: Config, now: nat, t: Tier, advance: nat)
    requires cfg.Valid() && BudgetsRiseStrictly(cfg) && t > 0
    ensures TierDeadline(cfg, now, t, advance)
            == now + cfg.Budget(t) - Min(advance, cfg.Budget(t) - cfg.Budget(t - 1) - 1)
    ensures TierDeadline(cfg, now, t, advance) > now + cfg.Budget(t - 1)
  {
  }

  /** How much of an advance a tier can use: all of it at T0, and above that what stays below the gap to the tier
      above. */
  function Granted(cfg: Config, j: Tier, b: nat): nat
    requires cfg.Valid()
  {
    if j == 0 then b
    else if cfg.Budget(j) > cfg.Budget(j - 1) then Min(b, cfg.Budget(j) - cfg.Budget(j - 1) - 1)
    else 0
  }

  /** From here on a newcomer of tier j with advance b cannot sort ahead of a tier-i task queued at s. */
  function Cutoff(cfg: Config, s: nat, i: Tier, j: Tier, b: nat): int
    requires cfg.Valid()
  {
    s + cfg.Budget(i) - cfg.Budget(j) + Granted(cfg, j, b)
  }

  /** No newcomer sorts ahead once the task has waited the gap between the two budgets plus what the newcomer can use
      of its advance. */
  lemma NoPassAfterCutoff(cfg: Config, s: nat, i: Tier, a: nat, now: nat, j: Tier, b: nat)
    requires cfg.Valid() && now >= Cutoff(cfg, s, i, j, b)
    ensures TierDeadline(cfg, s, i, a) <= TierDeadline(cfg, now, j, b)
  {
  }

  /** The cutoff is exact for every arriving tier and every advance: the newcomer sorts ahead of a waiting task that
      had no advance if and only if it comes before the cutoff. */
  lemma CutoffIsTight(cfg: Config, s: nat, i: Tier, now: nat, j: Tier, b: nat)
    requires cfg.Valid() && s + cfg.Budget(i) > 0
    ensures TierDeadline(cfg, now, j, b) < TierDeadline(cfg, s, i, 0) <==> now < Cutoff(cfg, s, i, j, b)
  {
  }

  /** A newcomer of tier j without an advance stops passing once the task has waited the budget gap. */
  lemma NoPassWithoutAdvance(cfg: Config, s: nat, i: Tier, a: nat, now: nat, j: Tier)
    requires cfg.Valid()
    requires now >= s + cfg.Budget(i) - cfg.Budget(j)
    ensures TierDeadline(cfg, s, i, a) <= TierDeadline(cfg, now, j, 0)
  {
    NoPassAfterCutoff(cfg, s, i, a, now, j, 0);
  }

  /** With rising budgets the cutoff of every tier is within the gap to T0's budget plus the advance, and above T0
      within the gap to the next higher tier's budget, whatever the advance. */
  lemma CutoffBounds(cfg: Config, s: nat, i: Tier, j: Tier, b: nat)
    requires cfg.Valid() && BudgetsRise(cfg)
    ensures Cutoff(cfg, s, i, j, b) <= s + cfg.Budget(i) - cfg.Budget(0) + b
    ensures j > 0 ==> Cutoff(cfg, s, i, j, b) <= s + cfg.Budget(i) - cfg.Budget(j - 1)
  {
  }

  /** The three documented gaps of the Default profile, and how long a new flow of the tier above really passes. */
  lemma DefaultCutoffs(s: nat)
    ensures var cfg := Loaded(Default, None, None, None);
            && cfg.Budget(1) - cfg.Budget(0) == 6_500_352 && Cutoff(cfg, s, 1, 0, cfg.bonus) == s + 14_500_352
            && cfg.Budget(2) - cfg.Budget(1) == 12_000_256 && Cutoff(cfg, s, 2, 1, cfg.bonus) == s + 18_500_607
            && cfg.Budget(3) - cfg.Budget(2) == 80_000_000 && Cutoff(cfg, s, 3, 2, cfg.bonus) == s + 88_000_000
  {
    DefaultTable();
  }

  /** And the two of the Sim profile. */
  lemma SimCutoffs(s: nat)
    ensures var cfg := Loaded(Sim, None, None, None);
            && cfg.Budget(2) - cfg.Budget(1) == 72_000_512 && Cutoff(cfg, s, 2, 1, cfg.bonus) == s + 77_000_703
            && cfg.Budget(3) - cfg.Budget(2) == 119_999_488 && Cutoff(cfg, s, 3, 2, cfg.bonus) == s + 127_999_488
  {
    SimTable();
  }

  // ---- the queue ----

  /** A task waiting in an LLC queue: its key, the CPUs its affinity allows, its task_cpu and its slice. */
  datatype Entry = Entry(tid: nat, deadline: nat, cpus: set<nat>, taskCpu: nat, slice: nat)

  predicate Sorted(q: seq<Entry>) {
    forall i, j | 0 <= i < j < |q| :: q[i].deadline <= q[j].deadline
  }

  /** Where a key lands: after every entry with an equal or earlier key. */
  function Position(q: seq<Entry>, deadline: nat): (p: nat)
    ensures p <= |q|
    ensures forall i | 0 <= i < p :: q[i].deadline <= deadline
    ensures p < |q| ==> q[p].deadline > deadline
  {
    if q == [] || q[0].deadline > deadline then 0 else 1 + Position(q[1..], deadline)
  }

  /** scx_bpf_dsq_insert_vtime. */
  function Insert(q: seq<Entry>, e: Entry): seq<Entry> {
    var p := Position(q, e.deadline);
    q[..p] + [e] + q[p..]
  }

  /** The first entry CPU c may run, or the length when there is none. */
  function FirstAllowed(q: seq<Entry>, c: nat): (k: nat)
    ensures k <= |q|
    ensures k < |q| ==> c in q[k].cpus
    ensures forall i | 0 <= i < k :: c !in q[i].cpus
  {
    if q == [] || c in q[0].cpus then 0 else 1 + FirstAllowed(q[1..], c)
  }

  function Remove(q: seq<Entry>, k: nat): seq<Entry>
    requires k < |q|
  {
    q[..k] + q[k + 1..]
  }

  lemma InsertAt(q: seq<Entry>, e: Entry, i: nat)
    requires i <= |q|
    ensures var p := Position(q, e.deadline);
            |Insert(q, e)| == |q| + 1 && Insert(q, e)[i] == if i < p then q[i] else if i == p then e else q[i - 1]
  {
  }

  lemma InsertKeepsMultiset(q: seq<Entry>, e: Entry)
    ensures multiset(Insert(q, e)) == multiset(q) + multiset{e}
  {
    var p := Position(q, e.deadline);
    assert q == q[..p] + q[p..];
  }

  lemma InsertKeepsSorted(q: seq<Entry>, e: Entry)
    requires Sorted(q)
    ensures Sorted(Insert(q, e))
    ensures multiset(Insert(q, e)) == multiset(q) + multiset{e}
  {
    InsertKeepsMultiset(q, e);
    InsertAt(q, e, 0);
    forall i, j | 0 <= i < j < |Insert(q, e)|
      ensures Insert(q, e)[i].deadline <= Insert(q, e)[j].deadline
    {
      InsertAt(q, e, i);
      InsertAt(q, e, j);
      InOrder(q, e, i, j);
    }
  }

  lemma InOrder(q: seq<Entry>, e: Entry, i: nat, j: nat)
    requires Sorted(q) && i < j <= |q|
    ensures var p := Position(q, e.deadline);
            (if i < p then q[i] else if i == p then e else q[i - 1]).deadline
            <= (if j < p then q[j] else if j == p then e else q[j - 1]).deadline
  {
    var p := Position(q, e.deadline);
    if i == p { assert q[p].deadline <= q[j - 1].deadline; }
  }

  lemma RemoveKeepsSorted(q: seq<Entry>, k: nat)
    requires Sorted(q) && k < |q|
    ensures Sorted(Remove(q, k))
    ensures multiset(q) == multiset(Remove(q, k)) + multiset{q[k]}
  {
    assert q == q[..k] + [q[k]] + q[k + 1..];
  }

  /** A newcomer with no earlier key goes behind x and leaves everything ahead of x alone. */
  lemma InsertBehind(q: seq<Entry>, e: Entry, k: nat)
    requires Sorted(q) && k < |q| && q[k].deadline <= e.deadline
    ensures k < |Insert(q, e)| && Insert(q, e)[..k + 1] == q[..k + 1]
  {
    assert Position(q, e.deadline) > k;
  }
}
