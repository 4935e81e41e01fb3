/** Quotients and remainders by a variable divisor. */
module Division {
  lemma DivideSteps(x: nat, y: nat, d: nat)
    requires d > 0 && x + d <= y
    ensures x / d < y / d
  {
    DivideShift(x, d);
    DivideMonotone(x + d, y, d);
  }

  lemma DivideShift(x: nat, d: nat)
    requires d > 0
    ensures (x + d) / d == x / d + 1
  {
    assert x == x / d * d + x % d;
    Quotient(x + d, d, x / d + 1, x % d);
  }

  lemma TimesMonotone(x: nat, y: nat, d: nat)
    requires x >= y
    ensures x * d >= y * d
  {
  }

  lemma DivideMonotone(x: nat, y: nat, d: nat)
    requires d > 0 && x <= y
    ensures x / d <= y / d
  {
    assert x == x / d * d + x % d;
    assert y == y / d * d + y % d;
    if x / d > y / d { TimesMonotone(x / d, y / d + 1, d); }
  }

  lemma Quotient(x: nat, d: nat, q: nat, r: nat)
    requires d > 0 && r < d && x == q * d + r
    ensures x / d == q
  {
    assert x == x / d * d + x % d;
    if x / d > q {
      TimesMonotone(x / d, q + 1, d);
    } else if x / d < q {
      TimesMonotone(q, x / d + 1, d);
    }
  }

  lemma ExactQuotient(q: nat, d: nat)
    requires d > 0
    ensures d * q / d == q
  {
    Quotient(d * q, d, q, 0);
  }

  lemma Successor(c: nat, p: nat)
    requires p > 1
    ensures (c + 1) % p == if c % p + 1 == p then 0 else c % p + 1
  {
    var q, r := c / p, c % p;
    assert c == q * p + r;
    if r + 1 == p {
      assert c + 1 == (q + 1) * p + 0;
      Quotient(c + 1, p, q + 1, 0);
    } else {
      Quotient(c + 1, p, q, r + 1);
    }
  }
}
