/** imperator_dispatch as a search: the local queue first, then the flagged remote queues, cheapest known
    cost first and the rest in index order. */
module Stealing {
  import opened TierConfig
  import opened DeadlineQueue

  /** A remote LLC whose non-empty flag is up. */
  predicate Candidate(my: nat, flags: seq<bool>, i: nat) {
    i < |flags| && i != my && flags[i]
  }

  /** The candidate with the least positive cost, the first such; |flags| when no cost is known.
      The scan over indices below n. */
  function Cheapest(my: nat, flags: seq<bool>, row: seq<nat>, n: nat): (c: nat)
    requires n <= |flags| <= |row|
    ensures c == |flags| || (c < n && Candidate(my, flags, c) && row[c] > 0)
    ensures c == |flags| ==> forall i | 0 <= i < n :: Candidate(my, flags, i) ==> row[i] == 0
    ensures c < |flags| ==> forall i | 0 <= i < n && Candidate(my, flags, i) && row[i] > 0 ::
                              row[c] < row[i] || (row[c] == row[i] && c <= i)
  {
    if n == 0 then |flags|
    else
      var c := Cheapest(my, flags, row, n - 1);
      if Candidate(my, flags, n - 1) && row[n - 1] > 0 && (c == |flags| || row[n - 1] < row[c]) then n - 1 else c
  }

  /** Candidates from index n up, in index order, without `skip`. */
  function Ascending(my: nat, flags: seq<bool>, skip: nat, n: nat): (order: seq<nat>)
    requires n <= |flags|
    ensures forall i: nat :: i in order <==> n <= i && Candidate(my, flags, i) && i != skip
    ensures forall j, k | 0 <= j < k < |order| :: order[j] < order[k]
    decreases |flags| - n
  {
    if n == |flags| then []
    else if Candidate(my, flags, n) && n != skip then
      var rest := Ascending(my, flags, skip, n + 1);
      assert forall k | 0 <= k < |rest| :: rest[k] in rest;
      [n] + rest
    else Ascending(my, flags, skip, n + 1)
  }

  /** The remote LLCs in the order the steal loop tries them. */
  function StealOrder(my: nat, flags: seq<bool>, row: seq<nat>): seq<nat>
    requires |flags| <= |row|
  {
    var c := Cheapest(my, flags, row, |flags|);
    (if c < |flags| then [c] else []) + Ascending(my, flags, c, 0)
  }

  lemma PrependKeepsOrder(c: nat, rest: seq<nat>)
    requires c !in rest && forall j, k | 0 <= j < k < |rest| :: rest[j] < rest[k]
    ensures var order := [c] + rest;
            && (forall j, k | 0 <= j < k < |order| :: order[j] != order[k])
            && (forall j, k | 1 <= j < k < |order| :: order[j] < order[k])
  {
    var order := [c] + rest;
    forall j, k | 0 <= j < k < |order| ensures order[j] != order[k] && (j >= 1 ==> order[j] < order[k]) {
      assert order[k] == rest[k - 1] && rest[k - 1] in rest;
      if j > 0 { assert order[j] == rest[j - 1]; }
    }
  }

  lemma StealOrderMembers(my: nat, flags: seq<bool>, row: seq<nat>)
    requires |flags| <= |row|
    ensures var order := StealOrder(my, flags, row);
            (forall i: nat :: i in order <==> Candidate(my, flags, i))
            && (forall k | 0 <= k < |order| :: order[k] < |flags|)
  {
    var order := StealOrder(my, flags, row);
    forall k | 0 <= k < |order| ensures order[k] < |flags| { assert order[k] in order; }
  }

  /** Every flagged remote LLC is in the order exactly once; after the first victim the indices ascend. */
  lemma StealOrderExact(my: nat, flags: seq<bool>, row: seq<nat>)
    requires |flags| <= |row|
    ensures var order := StealOrder(my, flags, row);
            && (forall i: nat :: i in order <==> Candidate(my, flags, i))
            && (forall k | 0 <= k < |order| :: order[k] < |flags|)
            && (forall j, k | 0 <= j < k < |order| :: order[j] != order[k])
            && (forall j, k | 1 <= j < k < |order| :: order[j] < order[k])
  {
    StealOrderMembers(my, flags, row);
    var c := Cheapest(my, flags, row, |flags|);
    var rest := Ascending(my, flags, c, 0);
    assert c !in rest;
    if c < |flags| {
      PrependKeepsOrder(c, rest);
    } else {
      assert StealOrder(my, flags, row) == rest;
    }
  }

  /** The first victim has the least known cost; it has none only when no candidate has one. */
  lemma StealOrderCheapest(my: nat, flags: seq<bool>, row: seq<nat>)
    requires |flags| <= |row|
    ensures var order := StealOrder(my, flags, row);
            order != [] ==>
              && order[0] < |row|
              && (row[order[0]] > 0 ==>
                    forall i: nat | Candidate(my, flags, i) && row[i] > 0 :: row[order[0]] <= row[i])
              && (row[order[0]] == 0 ==> forall i: nat | Candidate(my, flags, i) :: row[i] == 0)
  {
    var order := StealOrder(my, flags, row);
    StealOrderExact(my, flags, row);
    var c := Cheapest(my, flags, row, |flags|);
    if order != [] && c < |flags| { assert order[0] == c; }
    if order != [] && c == |flags| { assert order[0] in order; }
  }

  /** What a search found, and what it left. */
  datatype Found = Found(queue: seq<seq<Entry>>, flags: seq<bool>, moved: Option<Entry>)

  /** scx_bpf_dsq_move_to_local on each queue in turn; a queue found empty loses its flag. */
  function TryInOrder(queue: seq<seq<Entry>>, flags: seq<bool>, order: seq<nat>, cpu: nat): (f: Found)
    requires |queue| == |flags| && forall i | 0 <= i < |order| :: order[i] < |queue|
    ensures |f.queue| == |queue| && |f.flags| == |flags|
    decreases |order|
  {
    if order == [] then Found(queue, flags, None)
    else
      var v := order[0];
      var k := FirstAllowed(queue[v], cpu);
      if k < |queue[v]| then Found(queue[v := Remove(queue[v], k)], flags, Some(queue[v][k]))
      else TryInOrder(queue, if queue[v] == [] then flags[v := false] else flags, order[1..], cpu)
  }

  /** The whole callback. */
  function Dispatch(queue: seq<seq<Entry>>, flags: seq<bool>, my: nat, row: seq<nat>, cpu: nat): (f: Found)
    requires |queue| == |flags| <= |row| && my < |queue|
    ensures |f.queue| == |queue| && |f.flags| == |flags|
  {
    StealOrderExact(my, flags, row);
    TryInOrder(queue, flags, SearchOrder(flags, my, row), cpu)
  }

  /** A clear flag means an empty queue. */
  predicate FlagsHonest(queue: seq<seq<Entry>>, flags: seq<bool>) {
    |queue| == |flags| && forall l | 0 <= l < |queue| :: !flags[l] ==> queue[l] == []
  }

  /** Some queued task may run on this CPU. */
  predicate Runnable(q: seq<Entry>, cpu: nat) {
    exists k | 0 <= k < |q| :: cpu in q[k].cpus
  }

  lemma TryKeepsFlags(queue: seq<seq<Entry>>, flags: seq<bool>, order: seq<nat>, cpu: nat)
    requires FlagsHonest(queue, flags) && forall i | 0 <= i < |order| :: order[i] < |queue|
    ensures var f := TryInOrder(queue, flags, order, cpu); FlagsHonest(f.queue, f.flags)
    decreases |order|
  {
    if order != [] {
      var v := order[0];
      if FirstAllowed(queue[v], cpu) == |queue[v]| {
        TryKeepsFlags(queue, if queue[v] == [] then flags[v := false] else flags, order[1..], cpu);
      }
    }
  }

  /** The search returns the first runnable task of the first queue in the order that has one, and changes
      nothing else; it comes back empty exactly when no queue in the order has one. */
  lemma TryFindsFirst(queue: seq<seq<Entry>>, flags: seq<bool>, order: seq<nat>, cpu: nat)
    requires |queue| == |flags| && forall i | 0 <= i < |order| :: order[i] < |queue|
    ensures var f := TryInOrder(queue, flags, order, cpu);
            && (f.moved.None? <==> forall i | 0 <= i < |order| :: !Runnable(queue[order[i]], cpu))
            && (f.moved.None? ==> f.queue == queue)
            && (f.moved.Some? ==> exists j | 0 <= j < |order| :: TakenFrom(queue, f, order, j, cpu))
    decreases |order|
  {
    if order != [] {
      var v := order[0];
      var f := TryInOrder(queue, flags, order, cpu);
      var k := FirstAllowed(queue[v], cpu);
      if k < |queue[v]| {
        assert TakenFrom(queue, f, order, 0, cpu);
      } else {
        TryFindsFirst(queue, if queue[v] == [] then flags[v := false] else flags, order[1..], cpu);
        if f.moved.Some? {
          var j :| 0 <= j < |order[1..]| && TakenFrom(queue, f, order[1..], j, cpu);
          assert TakenFrom(queue, f, order, j + 1, cpu);
        } else {
          forall i | 0 <= i < |order| ensures !Runnable(queue[order[i]], cpu) {
            if i > 0 { assert order[i] == order[1..][i - 1]; }
          }
        }
      }
    }
  }

  /** The task came from the j-th queue of the order, as its first runnable entry, no earlier queue having one. */
  predicate TakenFrom(queue: seq<seq<Entry>>, f: Found, order: seq<nat>, j: nat, cpu: nat)
    requires |queue| == |f.queue| && j < |order| && forall i | 0 <= i < |order| :: order[i] < |queue|
  {
    var v := order[j];
    var k := FirstAllowed(queue[v], cpu);
    && (forall i | 0 <= i < j :: !Runnable(queue[order[i]], cpu))
    && k < |queue[v]|
    && f.moved == Some(queue[v][k])
    && f.queue == queue[v := Remove(queue[v], k)]
  }

  /** The order of the whole callback. */
  function SearchOrder(flags: seq<bool>, my: nat, row: seq<nat>): seq<nat>
    requires |flags| <= |row|
  {
    [my] + StealOrder(my, flags, row)
  }

  lemma SearchOrderCovers(queue: seq<seq<Entry>>, flags: seq<bool>, my: nat, row: seq<nat>, cpu: nat)
    requires FlagsHonest(queue, flags) && |flags| <= |row| && my < |queue|
    ensures var order := SearchOrder(flags, my, row);
            && (forall i | 0 <= i < |order| :: order[i] < |queue|)
            && ((forall i | 0 <= i < |order| :: !Runnable(queue[order[i]], cpu))
                <==> forall l | 0 <= l < |queue| :: !Runnable(queue[l], cpu))
  {
    StealOrderExact(my, flags, row);
    var order := SearchOrder(flags, my, row);
    assert forall i | 1 <= i < |order| :: order[i] == StealOrder(my, flags, row)[i - 1];
    if forall i | 0 <= i < |order| :: !Runnable(queue[order[i]], cpu) {
      forall l | 0 <= l < |queue| ensures !Runnable(queue[l], cpu) {
        if l == my {
          assert order[0] == my;
        } else if flags[l] {
          assert Candidate(my, flags, l);
          assert l in order;
        }
      }
    }
  }

  /** With honest flags the callback leaves a CPU without work only when no LLC queue holds a task it may
      run; flags stay honest; the task taken is the earliest-deadline runnable one of its queue. */
  lemma DispatchComplete(queue: seq<seq<Entry>>, flags: seq<bool>, my: nat, row: seq<nat>, cpu: nat)
    requires FlagsHonest(queue, flags) && |flags| <= |row| && my < |queue|
    ensures var f := Dispatch(queue, flags, my, row, cpu);
            && FlagsHonest(f.queue, f.flags)
            && (f.moved.None? <==> forall l | 0 <= l < |queue| :: !Runnable(queue[l], cpu))
            && (f.moved.None? ==> f.queue == queue)
            && (Runnable(queue[my], cpu) ==> TakenFrom(queue, f, [my], 0, cpu))
            && (f.moved.Some? ==> exists l | 0 <= l < |queue| :: TakenFrom(queue, f, [l], 0, cpu))
  {
    var order := SearchOrder(flags, my, row);
    SearchOrderCovers(queue, flags, my, row, cpu);
    TryKeepsFlags(queue, flags, order, cpu);
    TryFindsFirst(queue, flags, order, cpu);
    var f := Dispatch(queue, flags, my, row, cpu);
    assert f == TryInOrder(queue, flags, order, cpu);
    if f.moved.Some? {
      var j :| 0 <= j < |order| && TakenFrom(queue, f, order, j, cpu);
      TakenAlone(queue, f, order, j, cpu);
      assert order[0] == my;
    }
  }

  lemma TakenAlone(queue: seq<seq<Entry>>, f: Found, order: seq<nat>, j: nat, cpu: nat)
    requires |queue| == |f.queue| && j < |order| && forall i | 0 <= i < |order| :: order[i] < |queue|
    requires TakenFrom(queue, f, order, j, cpu)
    ensures TakenFrom(queue, f, [order[j]], 0, cpu)
    ensures Runnable(queue[order[0]], cpu) ==> j == 0
  {
  }

  /** When some flagged remote LLC has a known cost, the first victim is one of least known cost. */
  lemma PreferredVictim(my: nat, flags: seq<bool>, row: seq<nat>)
    requires |flags| <= |row|
    requires exists i | 0 <= i < |flags| :: Candidate(my, flags, i)
    requires forall i | 0 <= i < |flags| && i != my :: row[i] > 0
    ensures var order := StealOrder(my, flags, row);
            order != [] && Candidate(my, flags, order[0])
            && forall i: nat | Candidate(my, flags, i) :: row[order[0]] <= row[i]
  {
    StealOrderExact(my, flags, row);
    StealOrderCheapest(my, flags, row);
    var i: nat :| Candidate(my, flags, i);
    assert i in StealOrder(my, flags, row);
  }

  /** A flagged remote LLC of known cost, cheaper than every other, or as cheap and of lower index. */
  predicate Nearest(my: nat, flags: seq<bool>, row: seq<nat>, v: nat)
    requires |flags| <= |row|
  {
    && Candidate(my, flags, v) && row[v] > 0
    && forall i | 0 <= i < |flags| && i != v && Candidate(my, flags, i) && row[i] > 0 ::
         row[v] < row[i] || (row[v] == row[i] && v < i)
  }

  /** Whom a dispatch robs: with nothing runnable at home, the nearest LLC if it has something this CPU may run; and
      otherwise the lowest-numbered flagged one that has. */
  lemma DispatchVictim(queue: seq<seq<Entry>>, flags: seq<bool>, my: nat, row: seq<nat>, cpu: nat, v: nat)
    requires FlagsHonest(queue, flags) && |flags| <= |row| && my < |queue| && !Runnable(queue[my], cpu)
    requires Candidate(my, flags, v) && Runnable(queue[v], cpu)
    requires Nearest(my, flags, row, v)
          || (forall i: nat | Candidate(my, flags, i) && (Nearest(my, flags, row, i) || i < v) ::
                !Runnable(queue[i], cpu))
    ensures TakenFrom(queue, Dispatch(queue, flags, my, row, cpu), [v], 0, cpu)
  {
    var order, f := SearchOrder(flags, my, row), Dispatch(queue, flags, my, row, cpu);
    StealOrderExact(my, flags, row);
    TryFindsFirst(queue, flags, order, cpu);
    assert v in StealOrder(my, flags, row);
    var m :| 0 <= m < |order| && order[m] == v;
    var j :| 0 <= j < |order| && TakenFrom(queue, f, order, j, cpu);
    TakenAlone(queue, f, order, j, cpu);
    RobbedIs(queue, flags, my, row, cpu, v, order[j], j);
  }

  lemma RobbedIs(queue: seq<seq<Entry>>, flags: seq<bool>, my: nat, row: seq<nat>, cpu: nat, v: nat, w: nat, j: nat)
    requires |queue| == |flags| <= |row| && my < |queue| && !Runnable(queue[my], cpu)
    requires Candidate(my, flags, v) && Runnable(queue[v], cpu)
    requires Nearest(my, flags, row, v)
          || (forall i: nat | Candidate(my, flags, i) && (Nearest(my, flags, row, i) || i < v) ::
                !Runnable(queue[i], cpu))
    requires j < |SearchOrder(flags, my, row)| && SearchOrder(flags, my, row)[j] == w < |queue|
    requires Runnable(queue[w], cpu)
    requires forall i | 0 <= i < j :: SearchOrder(flags, my, row)[i] < |queue| ==>
               !Runnable(queue[SearchOrder(flags, my, row)[i]], cpu)
    ensures w == v
  {
    var order, steal, c := SearchOrder(flags, my, row), StealOrder(my, flags, row), Cheapest(my, flags, row, |flags|);
    StealOrderExact(my, flags, row);
    assert v in steal;
    assert order[0] == my && forall i | 1 <= i < |order| :: order[i] == steal[i - 1];
    var m :| 0 <= m < |steal| && steal[m] == v;
    assert order[m + 1] == v;
    assert steal[j - 1] == w && w in steal;
    assert j <= m + 1;
    if c < |flags| { assert steal[0] == c && Nearest(my, flags, row, c); }
  }
}
