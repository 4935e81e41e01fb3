/** Representative pair selection for inter-LLC calibration: select_etd_pairs and spread_indices. */
module EtdPairs {
  import opened TierConfig
  import opened Division
  import CpuMask

  // ---- spread_indices ----

  function SpreadIndices(len: nat, k: nat): seq<nat> {
    if len == 0 || k == 0 then []
    else
      var n := Min(k, len);
      if n == 1 then [0] else seq(n, i requires 0 <= i < n => Spread(len, n, i))
  }

  function Spread(len: nat, n: nat, i: nat): nat
    requires n > 1 && len > 0
  {
    i * (len - 1) / (n - 1)
  }

  lemma SpreadStep(len: nat, n: nat, i: nat)
    requires 1 < n <= len && i + 1 < n
    ensures Spread(len, n, i) < Spread(len, n, i + 1)
  {
    assert (i + 1) * (len - 1) == i * (len - 1) + (len - 1);
    DivideSteps(i * (len - 1), (i + 1) * (len - 1), n - 1);
  }

  lemma SpreadClimbs(len: nat, n: nat, i: nat, j: nat)
    requires 1 < n <= len && i < j < n
    ensures Spread(len, n, i) < Spread(len, n, j)
    decreases j
  {
    SpreadStep(len, n, j - 1);
    if i < j - 1 { SpreadClimbs(len, n, i, j - 1); }
  }

  lemma SpreadEnds(len: nat, n: nat)
    requires 1 < n <= len
    ensures Spread(len, n, 0) == 0 && Spread(len, n, n - 1) == len - 1
  {
    ExactQuotient(len - 1, n - 1);
    ExactQuotient(0, n - 1);
  }

  /** And even: each index is its exact fraction of the way, rounded down. Of eight, three are 0, 3 and 7. */
  lemma SpreadIsEven(len: nat, k: nat, i: nat)
    requires i < |SpreadIndices(len, k)| && |SpreadIndices(len, k)| > 1
    ensures var s := SpreadIndices(len, k);
            s[i] * (|s| - 1) <= i * (len - 1) < (s[i] + 1) * (|s| - 1)
    ensures SpreadIndices(8, 3) == [0, 3, 7]
  {
    var d, x := |SpreadIndices(len, k)| - 1, i * (len - 1);
    assert SpreadIndices(len, k)[i] == x / d;
    assert x == x / d * d + x % d;
  }

  /** min(k, len) indices of a list of length len, strictly increasing, from the first to the last. */
  lemma SpreadIsSpread(len: nat, k: nat)
    ensures var s := SpreadIndices(len, k);
            && |s| == Min(k, len)
            && (forall i, j | 0 <= i < j < |s| :: s[i] < s[j])
            && (forall i | 0 <= i < |s| :: s[i] < len)
            && (s != [] ==> s[0] == 0)
            && (|s| > 1 ==> s[|s| - 1] == len - 1)
  {
    var s, n := SpreadIndices(len, k), Min(k, len);
    if n > 1 {
      forall i, j | 0 <= i < j < |s| ensures s[i] < s[j] { SpreadClimbs(len, n, i, j); }
      SpreadEnds(len, n);
      forall i | 0 <= i < |s| ensures s[i] < len {
        if i < n - 1 { assert s[i] < s[n - 1]; }
      }
    }
  }

  // ---- LLC member lists ----

  /** The CPUs of a mask below n, ascending. */
  function CpusBelow(mask: CpuMask.Word, n: nat): seq<nat>
    requires n <= 64
  {
    if n == 0 then [] else CpusBelow(mask, n - 1) + (if CpuMask.Member(mask, n - 1) then [n - 1] else [])
  }

  lemma CpusBelowIsMask(mask: CpuMask.Word, n: nat)
    requires n <= 64
    ensures var s := CpusBelow(mask, n);
            && (forall c: nat :: c in s <==> c < n && c in CpuMask.Members(mask))
            && (forall i, j | 0 <= i < j < |s| :: s[i] < s[j])
  {
    if n > 0 {
      CpusBelowIsMask(mask, n - 1);
      var rest := CpusBelow(mask, n - 1);
      assert forall j | 0 <= j < |rest| :: rest[j] in rest;
    }
  }

  /** The populated LLCs' member lists, of CPUs below n. */
  function LlcLists(masks: seq<CpuMask.Word>, n: nat): seq<seq<nat>>
    requires n <= 64
  {
    if masks == [] then []
    else
      var rest := LlcLists(masks[..|masks| - 1], n);
      if masks[|masks| - 1] != 0 then rest + [CpusBelow(masks[|masks| - 1], n)] else rest
  }

  // ---- the pairs ----

  const SAMPLES := 3

  function Samples(a: seq<nat>, b: seq<nat>): nat {
    Min(Min(SAMPLES, |a|), |b|)
  }

  /** The i-th sampled pair of two LLCs. */
  function SamplePair(a: seq<nat>, b: seq<nat>, i: nat): (nat, nat)
    requires i < Samples(a, b)
  {
    var k := Samples(a, b);
    SpreadIsSpread(|a|, k);
    SpreadIsSpread(|b|, k);
    (a[SpreadIndices(|a|, k)[i]], b[SpreadIndices(|b|, k)[i]])
  }

  function LlcPairs(a: seq<nat>, b: seq<nat>): seq<(nat, nat)> {
    seq(Samples(a, b), i requires 0 <= i < Samples(a, b) => SamplePair(a, b, i))
  }

  /** The samples of two LLCs in numbers: three, or as many as the smaller one has CPUs; the i-th pairs the CPUs the
      same fraction of the way through both lists. */
  lemma SamplesInNumbers(a: seq<nat>, b: seq<nat>, i: nat)
    requires i < |LlcPairs(a, b)|
    ensures var n := |LlcPairs(a, b)|;
            && n == Min(3, Min(|a|, |b|))
            && (n == 1 ==> LlcPairs(a, b)[i] == (a[0], b[0]))
            && (n > 1 ==>
                  && 0 <= i * (|a| - 1) / (n - 1) < |a| && 0 <= i * (|b| - 1) / (n - 1) < |b|
                  && LlcPairs(a, b)[i] == (a[i * (|a| - 1) / (n - 1)], b[i * (|b| - 1) / (n - 1)]))
  {
    var n := Samples(a, b);
    SpreadIsSpread(|a|, n);
    SpreadIsSpread(|b|, n);
    assert LlcPairs(a, b)[i] == SamplePair(a, b, i);
  }

  /** LLC a against every LLC of index in [lo, hi). */
  function PairsOf(lists: seq<seq<nat>>, a: nat, lo: nat, hi: nat): seq<(nat, nat)>
    requires a < |lists| && lo <= hi <= |lists|
    decreases hi - lo
  {
    if lo == hi then [] else PairsOf(lists, a, lo, hi - 1) + LlcPairs(lists[a], lists[hi - 1])
  }

  /** Every LLC below n against every later one. */
  function PairsBelow(lists: seq<seq<nat>>, n: nat): seq<(nat, nat)>
    requires n <= |lists|
  {
    if n == 0 then [] else PairsBelow(lists, n - 1) + PairsOf(lists, n - 1, n, |lists|)
  }

  function SelectedPairs(lists: seq<seq<nat>>): seq<(nat, nat)> {
    if |lists| <= 1 then [] else PairsBelow(lists, |lists|)
  }

  /** select_etd_pairs. */
  method SelectEtdPairs(masks: seq<CpuMask.Word>) returns (pairs: seq<(nat, nat)>)
    ensures pairs == SelectedPairs(LlcLists(masks, 64))
  {
    var lists := ListLlcs(masks, 64);
    pairs := [];
    if |lists| <= 1 {
      return;
    }
    for a := 0 to |lists|
      invariant pairs == PairsBelow(lists, a)
    {
      var later := SampleLater(lists, a);
      pairs := pairs + later;
    }
  }

  method SampleLater(lists: seq<seq<nat>>, a: nat) returns (pairs: seq<(nat, nat)>)
    requires a < |lists|
    ensures pairs == PairsOf(lists, a, a + 1, |lists|)
  {
    pairs := [];
    for b := a + 1 to |lists|
      invariant pairs == PairsOf(lists, a, a + 1, b)
    {
      var sampled := SampleLlcs(lists[a], lists[b]);
      pairs := pairs + sampled;
    }
  }

  /** The pairs of two LLCs, at spread indices of both. */
  method SampleLlcs(a: seq<nat>, b: seq<nat>) returns (pairs: seq<(nat, nat)>)
    ensures pairs == LlcPairs(a, b)
  {
    var k := Samples(a, b);
    var idxA, idxB := SpreadIndices(|a|, k), SpreadIndices(|b|, k);
    SpreadIsSpread(|a|, k);
    SpreadIsSpread(|b|, k);
    pairs := [];
    for i := 0 to k
      invariant |pairs| == i && forall j | 0 <= j < i :: pairs[j] == SamplePair(a, b, j)
    {
      pairs := pairs + [(a[idxA[i]], b[idxB[i]])];
    }
  }

  method ListLlcs(masks: seq<CpuMask.Word>, maxCpus: nat) returns (lists: seq<seq<nat>>)
    requires maxCpus <= 64
    ensures lists == LlcLists(masks, maxCpus)
  {
    lists := [];
    for l := 0 to |masks|
      invariant lists == LlcLists(masks[..l], maxCpus)
    {
      assert masks[..l + 1][..l] == masks[..l];
      if masks[l] != 0 {
        var cpus := ListCpus(masks[l], maxCpus);
        lists := lists + [cpus];
      }
    }
    assert masks[..|masks|] == masks;
  }

  method ListCpus(mask: CpuMask.Word, maxCpus: nat) returns (cpus: seq<nat>)
    requires maxCpus <= 64
    ensures cpus == CpusBelow(mask, maxCpus)
  {
    cpus := [];
    for n := 0 to maxCpus
      invariant cpus == CpusBelow(mask, n)
    {
      if CpuMask.Member(mask, n) {
        cpus := cpus + [n];
      }
    }
  }

  // ---- what is selected ----

  /** Member lists of disjoint LLCs, none empty, no CPU listed twice. */
  predicate Disjoint(lists: seq<seq<nat>>) {
    && (forall l | 0 <= l < |lists| ::
          lists[l] != [] && forall i, j | 0 <= i < j < |lists[l]| :: lists[l][i] < lists[l][j])
    && (forall l, m | 0 <= l < m < |lists| :: forall c | c in lists[l] :: c !in lists[m])
  }

  predicate Crosses(lists: seq<seq<nat>>, p: (nat, nat), a: nat, b: nat) {
    a < |lists| && b < |lists| && p.0 in lists[a] && p.1 in lists[b]
  }

  lemma SamplesCross(lists: seq<seq<nat>>, a: nat, b: nat, p: (nat, nat))
    requires a < |lists| && b < |lists| && p in LlcPairs(lists[a], lists[b])
    ensures Crosses(lists, p, a, b)
  {
  }

  /** The samples of two LLCs are distinct, and as many as asked for. */
  lemma SamplesDistinct(a: seq<nat>, b: seq<nat>)
    requires forall i, j | 0 <= i < j < |a| :: a[i] < a[j]
    ensures |LlcPairs(a, b)| == Min(Min(3, |a|), |b|)
    ensures forall i, j | 0 <= i < j < |LlcPairs(a, b)| :: LlcPairs(a, b)[i].0 < LlcPairs(a, b)[j].0
  {
    var k := Samples(a, b);
    SpreadIsSpread(|a|, k);
  }

  lemma PairsOfMembers(lists: seq<seq<nat>>, a: nat, lo: nat, hi: nat, p: (nat, nat))
    requires a < |lists| && lo <= hi <= |lists|
    ensures p in PairsOf(lists, a, lo, hi) <==> exists b | lo <= b < hi :: p in LlcPairs(lists[a], lists[b])
    decreases hi - lo
  {
    if lo < hi { PairsOfMembers(lists, a, lo, hi - 1, p); }
  }

  lemma SampleIsSelected(lists: seq<seq<nat>>, n: nat, a: nat, b: nat, p: (nat, nat))
    requires a < n <= |lists| && a < b < |lists| && p in LlcPairs(lists[a], lists[b])
    ensures p in PairsBelow(lists, n)
  {
    if a == n - 1 { PairsOfMembers(lists, a, n, |lists|, p); } else { SampleIsSelected(lists, n - 1, a, b, p); }
  }

  lemma SelectedIsSample(lists: seq<seq<nat>>, n: nat, p: (nat, nat)) returns (a: nat, b: nat)
    requires n <= |lists| && p in PairsBelow(lists, n)
    ensures a < n && a < b < |lists| && p in LlcPairs(lists[a], lists[b])
  {
    if p in PairsBelow(lists, n - 1) {
      a, b := SelectedIsSample(lists, n - 1, p);
    } else {
      PairsOfMembers(lists, n - 1, n, |lists|, p);
      a := n - 1;
      b :| n <= b < |lists| && p in LlcPairs(lists[a], lists[b]);
    }
  }

  /** A selected pair that crosses LLCs a < b is one of their samples, and every sample is selected. */
  lemma SelectedExactly(lists: seq<seq<nat>>, a: nat, b: nat, p: (nat, nat))
    requires Disjoint(lists) && a < b < |lists|
    ensures p in SelectedPairs(lists) && Crosses(lists, p, a, b) <==> p in LlcPairs(lists[a], lists[b])
  {
    if p in LlcPairs(lists[a], lists[b]) {
      SamplesCross(lists, a, b, p);
      SampleIsSelected(lists, |lists|, a, b, p);
    } else if p in SelectedPairs(lists) && Crosses(lists, p, a, b) {
      var c, d := SelectedIsSample(lists, |lists|, p);
      SamplesCross(lists, c, d, p);
      CrossesOnce(lists, a, b, c, d, p);
    }
  }

  lemma CrossesOnce(lists: seq<seq<nat>>, a: nat, b: nat, c: nat, d: nat, p: (nat, nat))
    requires Disjoint(lists) && Crosses(lists, p, a, b) && Crosses(lists, p, c, d)
    ensures a == c && b == d
  {
  }

  lemma LaterCrosses(lists: seq<seq<nat>>, a: nat, lo: nat, hi: nat, p: (nat, nat)) returns (b: nat)
    requires a < |lists| && lo <= hi <= |lists| && p in PairsOf(lists, a, lo, hi)
    ensures lo <= b < hi && Crosses(lists, p, a, b)
  {
    PairsOfMembers(lists, a, lo, hi, p);
    b :| lo <= b < hi && p in LlcPairs(lists[a], lists[b]);
    SamplesCross(lists, a, b, p);
  }

  lemma BelowCrosses(lists: seq<seq<nat>>, n: nat, p: (nat, nat)) returns (a: nat, b: nat)
    requires n <= |lists| && p in PairsBelow(lists, n)
    ensures a < n && Crosses(lists, p, a, b)
  {
    a, b := SelectedIsSample(lists, n, p);
    SamplesCross(lists, a, b, p);
  }

  predicate NoRepeats(ps: seq<(nat, nat)>) {
    forall i, j | 0 <= i < j < |ps| :: ps[i] != ps[j]
  }

  lemma NoRepeatsTogether(x: seq<(nat, nat)>, y: seq<(nat, nat)>)
    requires NoRepeats(x) && NoRepeats(y) && forall p | p in x :: p !in y
    ensures NoRepeats(x + y)
  {
    forall i, j | 0 <= i < j < |x + y| ensures (x + y)[i] != (x + y)[j] {
      if i < |x| <= j { assert x[i] in x && y[j - |x|] in y; }
    }
  }

  lemma LaterApart(lists: seq<seq<nat>>, a: nat, lo: nat, hi: nat, p: (nat, nat))
    requires Disjoint(lists) && a < |lists| && lo <= hi < |lists| && p in PairsOf(lists, a, lo, hi)
    ensures p !in LlcPairs(lists[a], lists[hi])
  {
    var b := LaterCrosses(lists, a, lo, hi, p);
    if p in LlcPairs(lists[a], lists[hi]) {
      SamplesCross(lists, a, hi, p);
      CrossesOnce(lists, a, b, a, hi, p);
    }
  }

  lemma BelowApart(lists: seq<seq<nat>>, n: nat, p: (nat, nat))
    requires Disjoint(lists) && n < |lists| && p in PairsBelow(lists, n)
    ensures p !in PairsOf(lists, n, n + 1, |lists|)
  {
    var a, b := BelowCrosses(lists, n, p);
    if p in PairsOf(lists, n, n + 1, |lists|) {
      var d := LaterCrosses(lists, n, n + 1, |lists|, p);
      CrossesOnce(lists, a, b, n, d, p);
    }
  }

  lemma LaterOnce(lists: seq<seq<nat>>, a: nat, lo: nat, hi: nat)
    requires Disjoint(lists) && a < |lists| && lo <= hi <= |lists|
    ensures NoRepeats(PairsOf(lists, a, lo, hi))
    decreases hi - lo
  {
    if lo < hi {
      var x, y := PairsOf(lists, a, lo, hi - 1), LlcPairs(lists[a], lists[hi - 1]);
      LaterOnce(lists, a, lo, hi - 1);
      SamplesDistinct(lists[a], lists[hi - 1]);
      forall p | p in x ensures p !in y { LaterApart(lists, a, lo, hi - 1, p); }
      NoRepeatsTogether(x, y);
    }
  }

  lemma BelowOnce(lists: seq<seq<nat>>, n: nat)
    requires Disjoint(lists) && n <= |lists|
    ensures NoRepeats(PairsBelow(lists, n))
  {
    if n > 0 {
      var x, y := PairsBelow(lists, n - 1), PairsOf(lists, n - 1, n, |lists|);
      BelowOnce(lists, n - 1);
      LaterOnce(lists, n - 1, n, |lists|);
      forall p | p in x ensures p !in y { BelowApart(lists, n - 1, p); }
      NoRepeatsTogether(x, y);
    }
  }

  /** No pair is selected twice. */
  lemma SelectedOnce(lists: seq<seq<nat>>)
    requires Disjoint(lists)
    ensures NoRepeats(SelectedPairs(lists))
  {
    BelowOnce(lists, |lists|);
  }
}
