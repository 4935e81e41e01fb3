/** 32-bit steal masks read as sets of LLCs, and imperator_ctz32. */
module LlcMask {
  type Word = bv32
  type Index = bv5

  /** The LLCs a steal mask names. */
  function Members(m: Word): (s: set<nat>)
    ensures forall i: nat :: i in s <==> i < 32 && Member(m, i)
  {
    set i: nat | i < 32 && Member(m, i)
  }

  predicate Has(m: Word, x: Index) {
    m & (1 << x) != 0
  }

  predicate Member(m: Word, i: nat)
    requires i < 32
  {
    Has(m, i as Index)
  }

  lemma OrOther(m: Word, c: Index, x: Index)
    requires x != c
    ensures Has(m | (1 << c), x) <==> Has(m, x)
  {
  }

  lemma AndNotOther(m: Word, c: Index, x: Index)
    requires x != c
    ensures Has(m & !(1 << c), x) <==> Has(m, x)
  {
  }

  lemma OrSelf(m: Word, c: Index)
    ensures Has(m | (1 << c), c)
  {
  }

  lemma AndNotSelf(m: Word, c: Index)
    ensures !Has(m & !(1 << c), c)
  {
  }

  lemma AsIndex(i: nat)
    requires i < 32
    ensures (i as Index) as nat == i
  {
  }

  lemma AsNat(x: Index)
    ensures x as nat < 32 && (x as nat) as Index == x
  {
  }

  lemma MemberOr(m: Word, c: Index, i: nat)
    requires i < 32
    ensures Member(m | (1 << c), i) <==> i == c as nat || Member(m, i)
  {
    AsNat(c);
    AsIndex(i);
    if i == c as nat { OrSelf(m, c); } else { OrOther(m, c, i as Index); }
  }

  lemma MemberAndNot(m: Word, c: Index, i: nat)
    requires i < 32
    ensures Member(m & !(1 << c), i) <==> i != c as nat && Member(m, i)
  {
    AsNat(c);
    AsIndex(i);
    if i == c as nat { AndNotSelf(m, c); } else { AndNotOther(m, c, i as Index); }
  }

  /** `mask |= 1 << c` adds `c` and nothing else. */
  lemma SetBit(m: Word, c: Index)
    ensures Members(m | (1 << c)) == Members(m) + {c as nat}
  {
    AsNat(c);
    forall i: nat | i < 32 ensures Member(m | (1 << c), i) <==> i == c as nat || Member(m, i) {
      MemberOr(m, c, i);
    }
  }

  /** `mask &= ~(1 << c)` removes `c` and nothing else. */
  lemma ClearBit(m: Word, c: Index)
    ensures Members(m & !(1 << c)) == Members(m) - {c as nat}
  {
    forall i: nat | i < 32 ensures Member(m & !(1 << c), i) <==> i != c as nat && Member(m, i) {
      MemberAndNot(m, c, i);
    }
  }

  lemma Empty()
    ensures Members(0) == {}
  {
    forall i: nat | i < 32 ensures !Member(0, i) {
      assert 0 & ((1 as Word) << (i as Index)) == 0;
    }
  }

  // ---- the bit scan: isolate the lowest bit, multiply, look the top bits up ----

  const MULT: Word := 0x077CB531

  function Table(slot: Index): Index {
    match slot
    case 0 => 0 case 1 => 1 case 2 => 28 case 3 => 2 case 4 => 29 case 5 => 14 case 6 => 24 case 7 => 3
    case 8 => 30 case 9 => 22 case 10 => 20 case 11 => 15 case 12 => 25 case 13 => 17 case 14 => 4 case 15 => 8
    case 16 => 31 case 17 => 27 case 18 => 13 case 19 => 23 case 20 => 21 case 21 => 19 case 22 => 16 case 23 => 7
    case 24 => 26 case 25 => 12 case 26 => 18 case 27 => 6 case 28 => 11 case 29 => 5 case 30 => 10 case 31 => 9
  }

  function Slot(lsb: Word): Index {
    var product := lsb * MULT;
    assert product >> 27 <= 31;
    (product >> 27) as Index
  }

  /** imperator_ctz32. */
  function Ctz(mask: Word): Index {
    Table(Slot(mask & (0 - mask)))
  }

  lemma Hit0(x: bv5)
    requires 0 <= x <= 15
    ensures Table(Slot(1 << x)) == x
  {
    match x
    case 0 => case 1 => case 2 => case 3 => case 4 => case 5 => case 6 => case 7 =>
    case 8 => case 9 => case 10 => case 11 => case 12 => case 13 => case 14 => case 15 =>
    case _ => assert false;
  }

  lemma Hit1(x: bv5)
    requires 16 <= x <= 31
    ensures Table(Slot(1 << x)) == x
  {
    match x
    case 16 => case 17 => case 18 => case 19 => case 20 => case 21 => case 22 => case 23 =>
    case 24 => case 25 => case 26 => case 27 => case 28 => case 29 => case 30 => case 31 =>
    case _ => assert false;
  }

  lemma Hit(x: Index)
    ensures Table(Slot(1 << x)) == x
  {
    if x <= 15 { Hit0(x); } else { Hit1(x); }
  }

  /** Bit `x` is set and no lower bit is. */
  predicate LowestAt(m: Word, x: Index) {
    m & (1 << x) != 0 && Below(m, x)
  }

  predicate Below(m: Word, x: Index) {
    m & ((1 << x) - 1) == 0
  }

  lemma Isolate(m: Word, x: Index)
    requires LowestAt(m, x)
    ensures m & (0 - m) == 1 << x
  {
  }

  lemma Up(m: Word, x: Index)
    requires m != 0 && Below(m, x) && !LowestAt(m, x)
    ensures x != 31 && Below(m, x + 1)
  {
  }

  lemma NextIndex(x: Index)
    requires x != 31
    ensures (x + 1) as nat == x as nat + 1
  {
  }

  lemma LowestFrom(m: Word, x: Index, n: nat) returns (y: Index)
    requires m != 0 && Below(m, x)
    requires x as nat + n == 31
    ensures LowestAt(m, y)
    decreases n
  {
    if LowestAt(m, x) {
      y := x;
    } else {
      Up(m, x);
      NextIndex(x);
      y := LowestFrom(m, x + 1, n - 1);
    }
  }

  /** The table scan finds the lowest set bit of every nonzero mask. */
  lemma CtzIsLowest(m: Word)
    requires m != 0
    ensures LowestAt(m, Ctz(m))
  {
    var x := LowestFrom(m, 0, 31);
    Isolate(m, x);
    Hit(x);
  }

  lemma NoneBelow(m: Word, x: Index, y: Index)
    requires LowestAt(m, x) && y < x
    ensures !Has(m, y)
  {
  }

  lemma Order(x: Index, y: Index)
    requires x <= y
    ensures x as nat <= y as nat
  {
  }

  lemma LeastMember(m: Word, x: Index, i: nat)
    requires LowestAt(m, x) && i < 32 && Member(m, i)
    ensures x as nat <= i
  {
    var y := i as Index;
    AsIndex(i);
    if y < x {
      NoneBelow(m, x, y);
    } else {
      Order(x, y);
    }
  }

  lemma LowestIsMember(m: Word, x: Index)
    requires LowestAt(m, x)
    ensures x as nat in Members(m)
  {
    AsNat(x);
  }

  /** Read as a set: the scan returns the least member. */
  lemma CtzIsLeast(m: Word)
    requires m != 0
    ensures Ctz(m) as nat in Members(m)
    ensures forall i :: i in Members(m) ==> Ctz(m) as nat <= i
  {
    var x := Ctz(m);
    CtzIsLowest(m);
    LowestIsMember(m, x);
    forall i | i in Members(m) ensures x as nat <= i {
      LeastMember(m, x, i);
    }
  }

  lemma DropLowestWord(m: Word, x: Index)
    requires LowestAt(m, x)
    ensures m & (m - 1) == m & !(1 << x)
  {
  }

  /** `mask &= mask - 1` removes exactly the least member. */
  lemma DropLowest(m: Word)
    requires m != 0
    ensures Members(m & (m - 1)) == Members(m) - {Ctz(m) as nat}
  {
    CtzIsLowest(m);
    DropLowestWord(m, Ctz(m));
    ClearBit(m, Ctz(m));
  }
}
