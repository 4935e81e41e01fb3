/** 64-bit CPU masks read as sets of CPUs, and imperator_ctz64. */
module CpuMask {
  type Word = bv64
  type Index = bv6

  /** The CPUs a mask names. */
  function Members(m: Word): (s: set<nat>)
    ensures forall i: nat :: i in s <==> i < 64 && Member(m, i)
  {
    set i: nat | i < 64 && Member(m, i)
  }

  predicate Has(m: Word, x: Index) {
    m & (1 << x) != 0
  }

  predicate Member(m: Word, i: nat)
    requires i < 64
  {
    Has(m, i as Index)
  }

  lemma OrOther(m: Word, c: Index, x: Index)
    requires x != c
    ensures Has(m | (1 << c), x) <==> Has(m, x)
  {
  }

  lemma AndNotOther(m: Word, c: Index, x: Index)
    requires x != c
    ensures Has(m & !(1 << c), x) <==> Has(m, x)
  {
  }

  lemma OrSelf(m: Word, c: Index)
    ensures Has(m | (1 << c), c)
  {
  }

  lemma AndNotSelf(m: Word, c: Index)
    ensures !Has(m & !(1 << c), c)
  {
  }

  lemma AndBoth(m: Word, n: Word, x: Index)
    requires Has(m, x) && Has(n, x)
    ensures Has(m & n, x)
  {
  }

  lemma AndEither(m: Word, n: Word, x: Index)
    requires Has(m & n, x)
    ensures Has(m, x) && Has(n, x)
  {
  }

  lemma AsIndex(i: nat)
    requires i < 64
    ensures (i as Index) as nat == i
  {
  }

  lemma AsNat(x: Index)
    ensures x as nat < 64 && (x as nat) as Index == x
  {
  }

  lemma MemberOr(m: Word, c: Index, i: nat)
    requires i < 64
    ensures Member(m | (1 << c), i) <==> i == c as nat || Member(m, i)
  {
    AsNat(c);
    AsIndex(i);
    if i == c as nat { OrSelf(m, c); } else { OrOther(m, c, i as Index); }
  }

  lemma MemberAndNot(m: Word, c: Index, i: nat)
    requires i < 64
    ensures Member(m & !(1 << c), i) <==> i != c as nat && Member(m, i)
  {
    AsNat(c);
    AsIndex(i);
    if i == c as nat { AndNotSelf(m, c); } else { AndNotOther(m, c, i as Index); }
  }

  /** `mask |= 1 << c` adds `c` and nothing else. */
  lemma SetBit(m: Word, c: Index)
    ensures Members(m | (1 << c)) == Members(m) + {c as nat}
  {
    AsNat(c);
    forall i: nat | i < 64 ensures Member(m | (1 << c), i) <==> i == c as nat || Member(m, i) {
      MemberOr(m, c, i);
    }
  }

  /** `mask &= ~(1 << c)` removes `c` and nothing else. */
  lemma ClearBit(m: Word, c: Index)
    ensures Members(m & !(1 << c)) == Members(m) - {c as nat}
  {
    forall i: nat | i < 64 ensures Member(m & !(1 << c), i) <==> i != c as nat && Member(m, i) {
      MemberAndNot(m, c, i);
    }
  }

  lemma Intersect(m: Word, n: Word)
    ensures Members(m & n) == Members(m) * Members(n)
  {
    forall i: nat | i < 64 ensures Member(m & n, i) <==> Member(m, i) && Member(n, i) {
      if Member(m & n, i) { AndEither(m, n, i as Index); }
      if Member(m, i) && Member(n, i) { AndBoth(m, n, i as Index); }
    }
  }

  lemma Empty()
    ensures Members(0) == {}
  {
    forall i: nat | i < 64 ensures !Member(0, i) {
      assert 0 & ((1 as Word) << (i as Index)) == 0;
    }
  }

  // ---- the bit scan: isolate the lowest bit, multiply, look the top bits up ----

  const MULT: Word := 0x022FDD63CC95386D

  function Table(slot: Index): Index {
    match slot
    case 0 => 0 case 1 => 1 case 2 => 2 case 3 => 53 case 4 => 3 case 5 => 7 case 6 => 54 case 7 => 27
    case 8 => 4 case 9 => 38 case 10 => 41 case 11 => 8 case 12 => 34 case 13 => 55 case 14 => 48 case 15 => 28
    case 16 => 62 case 17 => 5 case 18 => 39 case 19 => 46 case 20 => 44 case 21 => 42 case 22 => 22 case 23 => 9
    case 24 => 24 case 25 => 35 case 26 => 59 case 27 => 56 case 28 => 49 case 29 => 18 case 30 => 29 case 31 => 11
    case 32 => 63 case 33 => 52 case 34 => 6 case 35 => 26 case 36 => 37 case 37 => 40 case 38 => 33 case 39 => 47
    case 40 => 61 case 41 => 45 case 42 => 43 case 43 => 21 case 44 => 23 case 45 => 58 case 46 => 17 case 47 => 10
    case 48 => 51 case 49 => 25 case 50 => 36 case 51 => 32 case 52 => 60 case 53 => 20 case 54 => 57 case 55 => 16
    case 56 => 50 case 57 => 31 case 58 => 19 case 59 => 15 case 60 => 30 case 61 => 14 case 62 => 13 case 63 => 12
  }

  function Slot(lsb: Word): Index {
    var product := lsb * MULT;
    assert product >> 58 <= 63;
    (product >> 58) as Index
  }

  /** imperator_ctz64. */
  function Ctz(mask: Word): Index {
    Table(Slot(mask & (0 - mask)))
  }

  lemma Hit0(x: bv6)
    requires 0 <= x <= 15
    ensures Table(Slot(1 << x)) == x
  {
    match x
    case 0 => case 1 => case 2 => case 3 => case 4 => case 5 => case 6 => case 7 =>
    case 8 => case 9 => case 10 => case 11 => case 12 => case 13 => case 14 => case 15 =>
    case _ => assert false;
  }

  lemma Hit1(x: bv6)
    requires 16 <= x <= 31
    ensures Table(Slot(1 << x)) == x
  {
    match x
    case 16 => case 17 => case 18 => case 19 => case 20 => case 21 => case 22 => case 23 =>
    case 24 => case 25 => case 26 => case 27 => case 28 => case 29 => case 30 => case 31 =>
    case _ => assert false;
  }

  lemma Hit2(x: bv6)
    requires 32 <= x <= 47
    ensures Table(Slot(1 << x)) == x
  {
    match x
    case 32 => case 33 => case 34 => case 35 => case 36 => case 37 => case 38 => case 39 =>
    case 40 => case 41 => case 42 => case 43 => case 44 => case 45 => case 46 => case 47 =>
    case _ => assert false;
  }

  lemma Hit3(x: bv6)
    requires 48 <= x <= 63
    ensures Table(Slot(1 << x)) == x
  {
    match x
    case 48 => case 49 => case 50 => case 51 => case 52 => case 53 => case 54 => case 55 =>
    case 56 => case 57 => case 58 => case 59 => case 60 => case 61 => case 62 => case 63 =>
    case _ => assert false;
  }

  lemma Hit(x: Index)
    ensures Table(Slot(1 << x)) == x
  {
    if x <= 15 { Hit0(x); } else if x <= 31 { Hit1(x); } else if x <= 47 { Hit2(x); } else { Hit3(x); }
  }

  /** Bit `x` is set and no lower bit is. */
  predicate LowestAt(m: Word, x: Index) {
    m & (1 << x) != 0 && Below(m, x)
  }

  predicate Below(m: Word, x: Index) {
    m & ((1 << x) - 1) == 0
  }

  lemma Isolate(m: Word, x: Index)
    requires LowestAt(m, x)
    ensures m & (0 - m) == 1 << x
  {
  }

  lemma Up(m: Word, x: Index)
    requires m != 0 && Below(m, x) && !LowestAt(m, x)
    ensures x != 63 && Below(m, x + 1)
  {
  }

  lemma NextIndex(x: Index)
    requires x != 63
    ensures (x + 1) as nat == x as nat + 1
  {
  }

  lemma LowestFrom(m: Word, x: Index, n: nat) returns (y: Index)
    requires m != 0 && Below(m, x)
    requires x as nat + n == 63
    ensures LowestAt(m, y)
    decreases n
  {
    if LowestAt(m, x) {
      y := x;
    } else {
      Up(m, x);
      NextIndex(x);
      y := LowestFrom(m, x + 1, n - 1);
    }
  }

  /** The table scan finds the lowest set bit of every nonzero mask. */
  lemma CtzIsLowest(m: Word)
    requires m != 0
    ensures LowestAt(m, Ctz(m))
  {
    var x := LowestFrom(m, 0, 63);
    Isolate(m, x);
    Hit(x);
  }

  lemma NoneBelow(m: Word, x: Index, y: Index)
    requires LowestAt(m, x) && y < x
    ensures !Has(m, y)
  {
  }

  lemma Order(x: Index, y: Index)
    requires x <= y
    ensures x as nat <= y as nat
  {
  }

  lemma LeastMember(m: Word, x: Index, i: nat)
    requires LowestAt(m, x) && i < 64 && Member(m, i)
    ensures x as nat <= i
  {
    var y := i as Index;
    AsIndex(i);
    if y < x {
      NoneBelow(m, x, y);
    } else {
      Order(x, y);
    }
  }

  lemma LowestIsMember(m: Word, x: Index)
    requires LowestAt(m, x)
    ensures x as nat in Members(m)
  {
    AsNat(x);
  }

  /** Read as a set: the scan returns the least member. */
  lemma CtzIsLeast(m: Word)
    requires m != 0
    ensures Ctz(m) as nat in Members(m)
    ensures forall i :: i in Members(m) ==> Ctz(m) as nat <= i
  {
    var x := Ctz(m);
    CtzIsLowest(m);
    LowestIsMember(m, x);
    forall i | i in Members(m) ensures x as nat <= i {
      LeastMember(m, x, i);
    }
  }
}
