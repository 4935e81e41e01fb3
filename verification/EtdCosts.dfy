/** From measured pairs to the steal-cost table: calibrate_pairs and try_write_etd_costs, end to end. */
module EtdCosts {
  import opened TierConfig
  import opened Machine
  import opened EtdPairs
  import CpuMask
  import Stealing

  // ---- calibrate_pairs ----

  /** One call of measure_pair, reduced to what the loop looks at: the median, and whether the spread is
      acceptable. */
  datatype Attempt = Failed | Measured(median: real, steady: bool)

  /** What the n-th attempt at the k-th pair returns. */
  type Meter = (nat, nat) -> Attempt

  const MAX_RETRIES := 3
  const FALLBACK_NS := 500.0

  /** The retry loop: the first steady measurement, or the fourth unsteady one; nothing once pinning fails. */
  function Outcome(measure: Meter, k: nat, retry: nat): Option<real>
    requires retry <= MAX_RETRIES
    decreases MAX_RETRIES - retry
  {
    match measure(k, retry)
    case Failed => None
    case Measured(median, steady) =>
      if steady || retry >= MAX_RETRIES then Some(median) else Outcome(measure, k, retry + 1)
  }

  function Settled(o: Option<real>, before: real): real {
    var v := if o.Some? then o.value else before;
    if v == 0.0 then FALLBACK_NS else v
  }

  predicate Joins(p: (nat, nat), i: nat, j: nat) {
    p == (i, j) || p == (j, i)
  }

  /** The matrix entry after the first n pairs. */
  function Latency(pairs: seq<(nat, nat)>, measure: Meter, n: nat, i: nat, j: nat): real
    requires n <= |pairs|
  {
    if n == 0 then 0.0
    else
      var p := pairs[n - 1];
      if Joins(p, i, j) then Settled(Outcome(measure, n - 1, 0), Latency(pairs, measure, n - 1, p.0, p.1))
      else Latency(pairs, measure, n - 1, i, j)
  }

  /** calibrate_pairs. */
  method CalibratePairs(nrCpus: nat, pairs: seq<(nat, nat)>, measure: Meter) returns (matrix: array2<real>)
    requires forall k | 0 <= k < |pairs| :: pairs[k].0 < nrCpus && pairs[k].1 < nrCpus
    ensures matrix.Length0 == matrix.Length1 == nrCpus
    ensures forall i, j | 0 <= i < nrCpus && 0 <= j < nrCpus ::
              matrix[i, j] == Latency(pairs, measure, |pairs|, i, j)
  {
    matrix := new real[nrCpus, nrCpus]((_, _) => 0.0);
    for k := 0 to |pairs|
      invariant forall i, j | 0 <= i < nrCpus && 0 <= j < nrCpus ::
                  matrix[i, j] == Latency(pairs, measure, k, i, j)
    {
      var (a, b) := pairs[k];
      LatencySymmetric(pairs, measure, k, a, b);
      var got := MeasureWithRetries(measure, k);
      if got.Some? {
        matrix[a, b] := got.value;
        matrix[b, a] := got.value;
      }
      if matrix[a, b] == 0.0 {
        matrix[a, b] := FALLBACK_NS;
        matrix[b, a] := FALLBACK_NS;
      }
    }
  }

  method MeasureWithRetries(measure: Meter, k: nat) returns (got: Option<real>)
    ensures got == Outcome(measure, k, 0)
  {
    var retry := 0;
    while true
      invariant retry <= MAX_RETRIES && Outcome(measure, k, retry) == Outcome(measure, k, 0)
      decreases MAX_RETRIES - retry
    {
      var attempt := measure(k, retry);
      if attempt.Failed? {
        return None;
      }
      if attempt.steady || retry >= MAX_RETRIES {
        return Some(attempt.median);
      }
      retry := retry + 1;
    }
  }

  lemma LatencySymmetric(pairs: seq<(nat, nat)>, measure: Meter, n: nat, i: nat, j: nat)
    requires n <= |pairs|
    ensures Latency(pairs, measure, n, i, j) == Latency(pairs, measure, n, j, i)
  {
    if n > 0 { LatencySymmetric(pairs, measure, n - 1, i, j); }
  }

  /** Latencies are never negative. */
  ghost predicate Sane(measure: Meter) {
    forall k: nat, n: nat :: measure(k, n).Measured? ==> measure(k, n).median >= 0.0
  }

  lemma OutcomeSane(measure: Meter, k: nat, retry: nat)
    requires Sane(measure) && retry <= MAX_RETRIES
    ensures Outcome(measure, k, retry).Some? ==> Outcome(measure, k, retry).value >= 0.0
    decreases MAX_RETRIES - retry
  {
    if retry < MAX_RETRIES { OutcomeSane(measure, k, retry + 1); }
  }

  /** The first n attempts were all measured and all too noisy. */
  predicate Noisy(measure: Meter, k: nat, n: nat) {
    forall r: nat | r < n :: measure(k, r).Measured? && !measure(k, r).steady
  }

  /** Which attempt decides: the first that is not both measured and noisy, and in any case the fourth. */
  lemma OutcomeExactly(measure: Meter, k: nat, retry: nat) returns (n: nat)
    requires retry <= MAX_RETRIES && Noisy(measure, k, retry)
    ensures n <= 3 && Noisy(measure, k, n)
    ensures match measure(k, n)
            case Failed => Outcome(measure, k, retry) == None
            case Measured(median, steady) => (steady || n == 3) && Outcome(measure, k, retry) == Some(median)
    decreases MAX_RETRIES - retry
  {
    var attempt := measure(k, retry);
    if attempt.Measured? && !attempt.steady && retry < MAX_RETRIES {
      n := OutcomeExactly(measure, k, retry + 1);
    } else {
      n := retry;
    }
  }

  lemma UnchosenStaysZero(pairs: seq<(nat, nat)>, measure: Meter, n: nat, i: nat, j: nat)
    requires n <= |pairs| && forall k | 0 <= k < n :: !Joins(pairs[k], i, j)
    ensures Latency(pairs, measure, n, i, j) == 0.0
  {
    if n > 0 { UnchosenStaysZero(pairs, measure, n - 1, i, j); }
  }

  /** A pair listed once ends with its own outcome: the deciding median, or the fallback when there is none or it
      is zero. */
  lemma {:induction false} EntryIsItsOutcome(pairs: seq<(nat, nat)>, measure: Meter, n: nat, k: nat)
    requires k < n <= |pairs|
    requires forall j | 0 <= j < n && j != k :: !Joins(pairs[j], pairs[k].0, pairs[k].1)
    ensures Latency(pairs, measure, n, pairs[k].0, pairs[k].1)
            == match Outcome(measure, k, 0)
               case None => 500.0
               case Some(median) => if median == 0.0 then 500.0 else median
  {
    if k == n - 1 {
      UnchosenStaysZero(pairs, measure, k, pairs[k].0, pairs[k].1);
    } else {
      EntryIsItsOutcome(pairs, measure, n - 1, k);
    }
  }

  predicate Chosen(pairs: seq<(nat, nat)>, n: nat, i: nat, j: nat)
    requires n <= |pairs|
  {
    exists k | 0 <= k < n :: Joins(pairs[k], i, j)
  }

  /** The matrix is symmetric, and positive exactly on the chosen pairs, whatever is measured and whatever fails. */
  lemma {:induction false} PositiveExactlyOnPairs(pairs: seq<(nat, nat)>, measure: Meter, n: nat, i: nat, j: nat)
    requires n <= |pairs| && Sane(measure)
    ensures Latency(pairs, measure, n, i, j) == Latency(pairs, measure, n, j, i)
    ensures if Chosen(pairs, n, i, j) then Latency(pairs, measure, n, i, j) > 0.0
            else Latency(pairs, measure, n, i, j) == 0.0
  {
    LatencySymmetric(pairs, measure, n, i, j);
    if n > 0 {
      var p := pairs[n - 1];
      OutcomeSane(measure, n - 1, 0);
      PositiveExactlyOnPairs(pairs, measure, n - 1, i, j);
      PositiveExactlyOnPairs(pairs, measure, n - 1, p.0, p.1);
      if !Joins(p, i, j) && Chosen(pairs, n, i, j) {
        var k :| 0 <= k < n && Joins(pairs[k], i, j);
        assert k < n - 1;
      }
    }
  }

  // ---- try_write_etd_costs ----

  /** Some measured latency from a CPU of LLC a to one of LLC b. */
  predicate Between(rows: seq<seq<real>>, llcOf: seq<nat>, a: nat, b: nat, i: nat, j: nat) {
    && i < |rows| && j < |rows| && j < |rows[i]| && i < |llcOf| && j < |llcOf|
    && llcOf[i] == a && llcOf[j] == b && rows[i][j] > 0.0
  }

  /** The least positive latency between two LLCs, when there is one. */
  ghost predicate LeastBetween(rows: seq<seq<real>>, llcOf: seq<nat>, a: nat, b: nat, min: Option<real>) {
    && (min.None? ==> forall i: nat, j: nat :: !Between(rows, llcOf, a, b, i, j))
    && (min.Some? ==>
          && (exists i: nat, j: nat :: Between(rows, llcOf, a, b, i, j) && rows[i][j] == min.value)
          && (forall i: nat, j: nat :: Between(rows, llcOf, a, b, i, j) ==> min.value <= rows[i][j]))
  }

  /** What a cost says of the least latency between two LLCs: 0 that there is none, 1 that it is below 8 ns, 255 that it
      is 1020 ns or more, and any other c that it lies in [4c, 4c + 4). */
  predicate Priced(min: Option<real>, c: nat) {
    match min
    case None => c == 0
    case Some(m) =>
      if m < 8.0 then c == 1 else if m >= 1020.0 then c == 255 else 4.0 * c as real <= m < 4.0 * c as real + 4.0
  }

  /** Quarter nanoseconds, floored at 1 and capped at 255; 0 means uncalibrated. */
  function Cost(min: Option<real>): (c: nat)
    requires min.Some? ==> min.value > 0.0
    ensures Priced(min, c)
    ensures min.None? <==> c == 0
    ensures c <= 255
  {
    if min.None? then 0
    else
      var q := (min.value / 4.0).Floor;
      if q < 1 then 1 else if q > 255 then 255 else q
  }

  lemma PricedOnce(min: Option<real>, c: nat, d: nat)
    requires Priced(min, c) && Priced(min, d)
    ensures c == d && (min.Some? ==> 1 <= c <= 255)
  {
  }

  /** A nearer LLC never costs more; and one that costs no more is no more than 4 ns farther, inside the range of the
      table. */
  lemma NearerIsNoDearer(x: real, y: real, c: nat, d: nat)
    requires 0.0 < x && 0.0 < y && Priced(Some(x), c) && Priced(Some(y), d)
    ensures x <= y ==> 1 <= c <= d
    ensures c <= d && 4.0 <= y < 1020.0 ==> x < y + 4.0
  {
  }

  predicate Square(rows: seq<seq<real>>) {
    forall i | 0 <= i < |rows| :: |rows[i]| == |rows|
  }

  predicate Lower(min: Option<real>, v: real) {
    min.Some? && min.value <= v
  }

  /** One row's contribution to the fold. */
  method LeastInRow(rows: seq<seq<real>>, llcOf: seq<nat>, a: nat, b: nat, i: nat, soFar: Option<real>)
    returns (min: Option<real>)
    requires Square(rows) && |rows| <= |llcOf| && i < |rows| && llcOf[i] == a
    ensures soFar.Some? ==> Lower(min, soFar.value)
    ensures forall j: nat :: Between(rows, llcOf, a, b, i, j) ==> Lower(min, rows[i][j])
    ensures min == soFar || (min.Some? && exists j: nat :: Between(rows, llcOf, a, b, i, j) && rows[i][j] == min.value)
  {
    min := soFar;
    for j := 0 to |rows|
      invariant soFar.Some? ==> Lower(min, soFar.value)
      invariant forall k: nat | k < j :: Between(rows, llcOf, a, b, i, k) ==> Lower(min, rows[i][k])
      invariant min == soFar
                || (min.Some? && exists k: nat :: Between(rows, llcOf, a, b, i, k) && rows[i][k] == min.value)
    {
      if llcOf[j] == b {
        var v := rows[i][j];
        if v > 0.0 && (min.None? || v < min.value) {
          assert Between(rows, llcOf, a, b, i, j);
          min := Some(v);
        }
      }
    }
  }

  /** The fold over all CPU pairs of two LLCs. */
  method LeastLatency(rows: seq<seq<real>>, llcOf: seq<nat>, a: nat, b: nat) returns (min: Option<real>)
    requires Square(rows) && |rows| <= |llcOf|
    ensures LeastBetween(rows, llcOf, a, b, min)
  {
    min := None;
    for i := 0 to |rows|
      invariant forall k: nat, j: nat | k < i :: Between(rows, llcOf, a, b, k, j) ==> Lower(min, rows[k][j])
      invariant min.Some? ==> exists k: nat, j: nat :: Between(rows, llcOf, a, b, k, j) && rows[k][j] == min.value
    {
      if llcOf[i] == a {
        min := LeastInRow(rows, llcOf, a, b, i, min);
      }
    }
  }

  predicate AnyPositive(rows: seq<seq<real>>) {
    exists i, j | 0 <= i < |rows| && 0 <= j < |rows[i]| :: rows[i][j] > 0.0
  }

  /** The entry a calibrated matrix puts in the table. */
  ghost predicate IsCost(rows: seq<seq<real>>, llcOf: seq<nat>, a: nat, b: nat, c: nat) {
    exists min: Option<real> ::
      LeastBetween(rows, llcOf, a, b, min) && Priced(min, c)
  }

  /** try_write_etd_costs: nothing is written from an all-zero matrix; otherwise every off-diagonal entry is. */
  method WriteEtdCosts(rows: seq<seq<real>>, llcOf: seq<nat>, nrLlcs: nat, table: array2<nat>)
    returns (written: bool)
    requires Square(rows) && |rows| <= |llcOf| && nrLlcs <= table.Length0 && nrLlcs <= table.Length1
    modifies table
    ensures written == AnyPositive(rows)
    ensures forall a, b | 0 <= a < table.Length0 && 0 <= b < table.Length1 ::
              if written && a < nrLlcs && b < nrLlcs && a != b then IsCost(rows, llcOf, a, b, table[a, b])
              else table[a, b] == old(table[a, b])
  {
    written := AnyPositive(rows);
    if !written {
      return;
    }
    for a := 0 to nrLlcs
      invariant forall i, j | 0 <= i < table.Length0 && 0 <= j < table.Length1 ::
                  if i < a && j < nrLlcs && i != j then IsCost(rows, llcOf, i, j, table[i, j])
                  else table[i, j] == old(table[i, j])
    {
      for b := 0 to nrLlcs
        invariant forall i, j | 0 <= i < table.Length0 && 0 <= j < table.Length1 ::
                    if ((i < a && j < nrLlcs) || (i == a && j < b)) && i != j then
                      IsCost(rows, llcOf, i, j, table[i, j])
                    else table[i, j] == old(table[i, j])
      {
        if a != b {
          var min := LeastLatency(rows, llcOf, a, b);
          assert min.Some? ==> min.value > 0.0;
          table[a, b] := Cost(min);
          assert IsCost(rows, llcOf, a, b, table[a, b]);
        }
      }
    }
  }

  // ---- end to end ----

  /** The masks are the LLCs of the topology: populated below nr_llcs, empty above. */
  predicate MasksOf(tp: Topology, masks: seq<CpuMask.Word>) {
    && tp.nrLlcs <= |masks|
    && (forall l | 0 <= l < |masks| :: CpuMask.Members(masks[l]) == tp.Members(l))
    && (forall l | 0 <= l < |masks| :: masks[l] != 0 <==> l < tp.nrLlcs)
  }

  lemma ListsOfMasks(tp: Topology, masks: seq<CpuMask.Word>, n: nat)
    requires n <= |masks| && forall l | 0 <= l < |masks| :: masks[l] != 0 <==> l < tp.nrLlcs
    ensures |LlcLists(masks[..n], 64)| == Min(n, tp.nrLlcs)
    ensures forall l | 0 <= l < Min(n, tp.nrLlcs) :: LlcLists(masks[..n], 64)[l] == CpusBelow(masks[l], 64)
  {
    if n > 0 {
      ListsOfMasks(tp, masks, n - 1);
      assert masks[..n][..n - 1] == masks[..n - 1];
    }
  }

  /** The list names exactly the CPUs of LLC l. */
  ghost predicate Holds(tp: Topology, cpus: seq<nat>, l: nat) {
    forall c: nat :: c in cpus <==> c in tp.Members(l)
  }

  /** The member lists partition the CPUs, and none is empty. */
  lemma ListsPartition(tp: Topology, masks: seq<CpuMask.Word>)
    requires tp.Valid() && MasksOf(tp, masks)
    ensures var lists := LlcLists(masks, 64);
            && |lists| == tp.nrLlcs && Disjoint(lists)
            && forall l | 0 <= l < |lists| :: Holds(tp, lists[l], l)
  {
    var lists := LlcLists(masks, 64);
    assert masks[..|masks|] == masks;
    ListsOfMasks(tp, masks, |masks|);
    forall l | 0 <= l < |lists|
      ensures Holds(tp, lists[l], l) && lists[l] != []
      ensures forall i, j | 0 <= i < j < |lists[l]| :: lists[l][i] < lists[l][j]
    {
      var mask := masks[l];
      CpusBelowIsMask(mask, 64);
      CpuMask.CtzIsLeast(mask);
      assert CpuMask.Ctz(mask) as nat in lists[l];
    }
  }

  /** Calibration never indexes outside the matrix. */
  lemma SelectedInRange(tp: Topology, masks: seq<CpuMask.Word>, k: nat)
    requires tp.Valid() && MasksOf(tp, masks) && k < |SelectedPairs(LlcLists(masks, 64))|
    ensures var p := SelectedPairs(LlcLists(masks, 64))[k];
            p.0 < |tp.llcOf| && p.1 < |tp.llcOf| && tp.llcOf[p.0] < tp.llcOf[p.1]
  {
    ListsPartition(tp, masks);
    var lists := LlcLists(masks, 64);
    var p := SelectedPairs(lists)[k];
    assert p in PairsBelow(lists, |lists|);
    var a, b := SelectedIsSample(lists, |lists|, p);
    SamplesCross(lists, a, b, p);
    assert Holds(tp, lists[a], a) && Holds(tp, lists[b], b);
    assert p.0 in tp.Members(a) && p.1 in tp.Members(b);
  }

  /** The matrix calibration leaves for the selected pairs. */
  predicate Calibrated(tp: Topology, masks: seq<CpuMask.Word>, measure: Meter, rows: seq<seq<real>>) {
    var pairs := SelectedPairs(LlcLists(masks, 64));
    && |rows| == |tp.llcOf| && Square(rows)
    && forall i, j | 0 <= i < |rows| && 0 <= j < |rows| :: rows[i][j] == Latency(pairs, measure, |pairs|, i, j)
  }

  lemma MeasuredBothWays(tp: Topology, masks: seq<CpuMask.Word>, measure: Meter, rows: seq<seq<real>>, a: nat, b: nat)
    returns (p: (nat, nat))
    requires tp.Valid() && MasksOf(tp, masks) && Sane(measure) && Calibrated(tp, masks, measure, rows)
    requires a < b < tp.nrLlcs
    ensures Between(rows, tp.llcOf, a, b, p.0, p.1) && Between(rows, tp.llcOf, b, a, p.1, p.0)
  {
    var lists, pairs := LlcLists(masks, 64), SelectedPairs(LlcLists(masks, 64));
    ListsPartition(tp, masks);
    p := SamplePair(lists[a], lists[b], 0);
    assert LlcPairs(lists[a], lists[b])[0] == p;
    SelectedExactly(lists, a, b, p);
    assert Holds(tp, lists[a], a) && Holds(tp, lists[b], b);
    assert p.0 in tp.Members(a) && p.1 in tp.Members(b);
    var k :| 0 <= k < |pairs| && pairs[k] == p;
    assert Joins(pairs[k], p.0, p.1);
    PositiveExactlyOnPairs(pairs, measure, |pairs|, p.0, p.1);
  }

  lemma RowsMirrored(tp: Topology, masks: seq<CpuMask.Word>, measure: Meter, rows: seq<seq<real>>, a: nat, b: nat)
    requires Calibrated(tp, masks, measure, rows)
    ensures Mirrored(rows, tp.llcOf, a, b)
  {
    var pairs := SelectedPairs(LlcLists(masks, 64));
    forall i: nat, j: nat | Between(rows, tp.llcOf, a, b, i, j)
      ensures Between(rows, tp.llcOf, b, a, j, i) && rows[i][j] == rows[j][i]
    {
      LatencySymmetric(pairs, measure, |pairs|, i, j);
    }
  }

  ghost predicate Mirrored(rows: seq<seq<real>>, llcOf: seq<nat>, a: nat, b: nat) {
    forall i: nat, j: nat | Between(rows, llcOf, a, b, i, j) ::
      Between(rows, llcOf, b, a, j, i) && rows[i][j] == rows[j][i]
  }

  lemma LeastReflects(rows: seq<seq<real>>, llcOf: seq<nat>, a: nat, b: nat, m: Option<real>, n: Option<real>)
    requires Mirrored(rows, llcOf, a, b) && m.Some?
    requires LeastBetween(rows, llcOf, a, b, m) && LeastBetween(rows, llcOf, b, a, n)
    ensures n.Some? && n.value <= m.value
  {
    var i: nat, j: nat :| Between(rows, llcOf, a, b, i, j) && rows[i][j] == m.value;
    assert Between(rows, llcOf, b, a, j, i);
  }

  lemma SameLeast(rows: seq<seq<real>>, llcOf: seq<nat>, a: nat, b: nat, m: Option<real>, n: Option<real>)
    requires Mirrored(rows, llcOf, a, b) && Mirrored(rows, llcOf, b, a)
    requires LeastBetween(rows, llcOf, a, b, m) && LeastBetween(rows, llcOf, b, a, n)
    ensures m == n
  {
    if m.Some? { LeastReflects(rows, llcOf, a, b, m, n); }
    if n.Some? { LeastReflects(rows, llcOf, b, a, n, m); }
  }

  /** End to end: whatever is measured and however often pinning fails, the costs written for two different LLCs
      are equal in both directions and in 1..255. */
  lemma CostsCompleteAndSymmetric(tp: Topology, masks: seq<CpuMask.Word>, measure: Meter, rows: seq<seq<real>>,
                                  a: nat, b: nat, ab: nat, ba: nat)
    requires tp.Valid() && MasksOf(tp, masks) && Sane(measure) && Calibrated(tp, masks, measure, rows)
    requires a < b < tp.nrLlcs && IsCost(rows, tp.llcOf, a, b, ab) && IsCost(rows, tp.llcOf, b, a, ba)
    ensures AnyPositive(rows) && 1 <= ab == ba <= 255
  {
    var p := MeasuredBothWays(tp, masks, measure, rows, a, b);
    RowsMirrored(tp, masks, measure, rows, a, b);
    RowsMirrored(tp, masks, measure, rows, b, a);
    assert rows[p.0][p.1] > 0.0;
    var m: Option<real> :| LeastBetween(rows, tp.llcOf, a, b, m) && Priced(m, ab);
    var n: Option<real> :| LeastBetween(rows, tp.llcOf, b, a, n) && Priced(n, ba);
    SameLeast(rows, tp.llcOf, a, b, m, n);
    PricedOnce(m, ab, ba);
  }

  lemma OneLlcNoPairs(tp: Topology, masks: seq<CpuMask.Word>)
    requires tp.Valid() && MasksOf(tp, masks)
    ensures tp.nrLlcs == 1 ==> SelectedPairs(LlcLists(masks, 64)) == []
  {
    ListsPartition(tp, masks);
  }

  /** With two LLCs or more something is positive; with one nothing is. */
  lemma PositiveWithTwoLlcs(tp: Topology, masks: seq<CpuMask.Word>, measure: Meter, rows: seq<seq<real>>)
    requires tp.Valid() && MasksOf(tp, masks) && Sane(measure) && Calibrated(tp, masks, measure, rows)
    ensures AnyPositive(rows) <==> tp.nrLlcs >= 2
  {
    OneLlcNoPairs(tp, masks);
    if tp.nrLlcs >= 2 {
      var p := MeasuredBothWays(tp, masks, measure, rows, 0, 1);
      assert rows[p.0][p.1] > 0.0;
    }
  }

  /** The matrix as the table writer clones it, row by row. */
  method Rows(matrix: array2<real>) returns (rows: seq<seq<real>>)
    ensures |rows| == matrix.Length0 && forall i | 0 <= i < |rows| :: |rows[i]| == matrix.Length1
    ensures forall i, j | 0 <= i < matrix.Length0 && 0 <= j < matrix.Length1 :: rows[i][j] == matrix[i, j]
  {
    rows := [];
    for i := 0 to matrix.Length0
      invariant |rows| == i && forall k | 0 <= k < i :: |rows[k]| == matrix.Length1
      invariant forall k, j | 0 <= k < i && 0 <= j < matrix.Length1 :: rows[k][j] == matrix[k, j]
    {
      var row := [];
      for j := 0 to matrix.Length1
        invariant |row| == j && forall k | 0 <= k < j :: row[k] == matrix[i, k]
      {
        row := row + [matrix[i, j]];
      }
      rows := rows + [row];
    }
  }

  /** The code end to end: pair selection, calibration, and the cost table. Nothing is written on a machine with one
      LLC; with more, every entry between two LLCs is written, the same in both directions and in 1..255, whatever is
      measured and however often pinning fails. */
  method BuildCostTable(tp: Topology, masks: seq<CpuMask.Word>, measure: Meter, table: array2<nat>)
    returns (written: bool)
    requires tp.Valid() && MasksOf(tp, masks) && Sane(measure)
    requires tp.nrLlcs <= table.Length0 && tp.nrLlcs <= table.Length1
    modifies table
    ensures written <==> tp.nrLlcs >= 2
    ensures forall a, b | 0 <= a < tp.nrLlcs && 0 <= b < tp.nrLlcs && a != b ::
              1 <= table[a, b] == table[b, a] <= 255
    ensures forall a, b | 0 <= a < table.Length0 && 0 <= b < table.Length1 ::
              a >= tp.nrLlcs || b >= tp.nrLlcs || a == b ==> table[a, b] == old(table[a, b])
  {
    var n := |tp.llcOf|;
    var pairs := SelectEtdPairs(masks);
    forall k | 0 <= k < |pairs| ensures pairs[k].0 < n && pairs[k].1 < n {
      SelectedInRange(tp, masks, k);
    }
    var matrix := CalibratePairs(n, pairs, measure);
    var rows := Rows(matrix);
    PositiveWithTwoLlcs(tp, masks, measure, rows);
    written := WriteEtdCosts(rows, tp.llcOf, tp.nrLlcs, table);
    forall a, b | 0 <= a < b < tp.nrLlcs ensures 1 <= table[a, b] == table[b, a] <= 255 {
      CostsCompleteAndSymmetric(tp, masks, measure, rows, a, b, table[a, b], table[b, a]);
    }
  }

  lemma MeasuredCosts(rows: seq<seq<real>>, llcOf: seq<nat>, a: nat, b: nat, c: nat, i: nat, j: nat)
    requires IsCost(rows, llcOf, a, b, c) && Between(rows, llcOf, a, b, i, j)
    ensures 1 <= c <= 255
  {
    var m: Option<real> :| LeastBetween(rows, llcOf, a, b, m) && Priced(m, c);
    PricedOnce(m, c, c);
  }

  /** Two least latencies between the same LLCs are one. */
  lemma LeastIsOne(rows: seq<seq<real>>, llcOf: seq<nat>, a: nat, b: nat, m: Option<real>, n: Option<real>)
    requires LeastBetween(rows, llcOf, a, b, m) && LeastBetween(rows, llcOf, a, b, n)
    ensures m == n && (m.Some? ==> m.value > 0.0)
  {
    if m.Some? {
      var i: nat, j: nat :| Between(rows, llcOf, a, b, i, j) && rows[i][j] == m.value;
    }
    if n.Some? {
      var i: nat, j: nat :| Between(rows, llcOf, a, b, i, j) && rows[i][j] == n.value;
    }
  }

  /** What two written entries say of the latencies behind them. */
  lemma CheaperIsNear(rows: seq<seq<real>>, llcOf: seq<nat>, my: nat, v: nat, i: nat, cv: nat, ci: nat,
                      mv: real, mi: real)
    requires IsCost(rows, llcOf, my, v, cv) && IsCost(rows, llcOf, my, i, ci) && cv <= ci
    requires LeastBetween(rows, llcOf, my, v, Some(mv)) && LeastBetween(rows, llcOf, my, i, Some(mi))
    ensures 4.0 <= mi < 1020.0 ==> mv < mi + 4.0
  {
    var x: Option<real> :| LeastBetween(rows, llcOf, my, v, x) && Priced(x, cv);
    var y: Option<real> :| LeastBetween(rows, llcOf, my, i, y) && Priced(y, ci);
    LeastIsOne(rows, llcOf, my, v, x, Some(mv));
    LeastIsOne(rows, llcOf, my, i, y, Some(mi));
    NearerIsNoDearer(mv, mi, cv, ci);
  }

  /** So dispatch always has a preferred victim: with any remote LLC flagged, the first one tried is a flagged one of
      least cost; and, in latencies, one less than 4 ns farther than any flagged one from 4 ns to below 1020 ns. */
  lemma AlwaysAPreferredVictim(tp: Topology, masks: seq<CpuMask.Word>, measure: Meter, rows: seq<seq<real>>,
                               my: nat, row: seq<nat>, flags: seq<bool>)
    requires tp.Valid() && MasksOf(tp, masks) && Sane(measure) && Calibrated(tp, masks, measure, rows)
    requires my < tp.nrLlcs == |flags| <= |row|
    requires forall b | 0 <= b < tp.nrLlcs && b != my :: IsCost(rows, tp.llcOf, my, b, row[b])
    requires exists i | 0 <= i < |flags| :: Stealing.Candidate(my, flags, i)
    ensures var order := Stealing.StealOrder(my, flags, row);
            && order != [] && Stealing.Candidate(my, flags, order[0]) && row[order[0]] > 0
            && (forall i: nat | Stealing.Candidate(my, flags, i) :: row[order[0]] <= row[i])
            && (forall i: nat, v: real, m: real | Stealing.Candidate(my, flags, i)
                    && LeastBetween(rows, tp.llcOf, my, order[0], Some(v))
                    && LeastBetween(rows, tp.llcOf, my, i, Some(m)) && 4.0 <= m < 1020.0 ::
                  v < m + 4.0)
  {
    forall b | 0 <= b < tp.nrLlcs && b != my ensures row[b] > 0 {
      var p := MeasuredBothWays(tp, masks, measure, rows, if b < my then b else my, if b < my then my else b);
      var q := if b < my then (p.1, p.0) else p;
      MeasuredCosts(rows, tp.llcOf, my, b, row[b], q.0, q.1);
    }
    Stealing.PreferredVictim(my, flags, row);
    var first := Stealing.StealOrder(my, flags, row)[0];
    forall i: nat, v: real, m: real | Stealing.Candidate(my, flags, i)
        && LeastBetween(rows, tp.llcOf, my, first, Some(v))
        && LeastBetween(rows, tp.llcOf, my, i, Some(m)) && 4.0 <= m < 1020.0
      ensures v < m + 4.0
    {
      CheaperIsNear(rows, tp.llcOf, my, first, i, row[first], row[i], v, m);
    }
  }
}
