/** Facts about quotients and remainders. */
module Division {

  lemma DivFacts(i: nat, base: nat)
    requires base >= 2
    ensures 0 <= i / base <= i && (i > 0 ==> i / base < i) && (i / base > 0 <==> i >= base)
    ensures i == (i / base) * base + i % base && 0 <= i % base < base
  {
  }

  lemma Monotone(k: nat, a: nat, b: nat)
    requires a <= b
    ensures k * a <= k * b && a * k <= b * k
  {
  }

  /** Quotient and remainder are determined by what they add up to. */
  lemma DivUnique(x: nat, q: nat, d: nat, base: nat)
    requires base >= 2 && d < base && x == q * base + d
    ensures x / base == q && x % base == d
  {
    var k := x / base;
    DivFacts(x, base);
    assert (k + 1) * base == k * base + base && (q + 1) * base == q * base + base;
    if k < q {
      Monotone(base, k + 1, q);
    } else if q < k {
      Monotone(base, q + 1, k);
    }
  }

  /** Halving and then dividing is dividing by twice as much. */
  lemma HalfThenDivide(x: nat, w: nat)
    requires w > 0
    ensures (x / 2) / w == x / (2 * w)
  {
    var h := x / 2;
    var q, r := h / w, h % w;
    assert h == w * q + r;
    assert x == 2 * (w * q) + (2 * r + x % 2);
    assert 2 * (w * q) == q * (2 * w);
    DivUnique(x, q, 2 * r + x % 2, 2 * w);
  }
}
