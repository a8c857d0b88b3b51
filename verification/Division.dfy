/** Quotients and remainders of products. */
module Division {

  lemma {:induction false} AtLeastOnce(p: nat, d: nat)
    ensures d > 0 ==> p * d >= p
  {
    if d > 1 { AtLeastOnce(p, d - 1); }
  }

  lemma Times(p: int, q: int, q': int)
    ensures p * q' == p * q + p * (q' - q)
  {
  }

  lemma SameQuotient(p: int, q: int, r: int, q': int, r': int)
    requires 0 <= r < p && 0 <= r' < p && p * q + r == p * q' + r'
    ensures q == q'
  {
    if q < q' { Times(p, q, q'); AtLeastOnce(p, q' - q); }
    if q' < q { Times(p, q', q); AtLeastOnce(p, q - q'); }
  }

  lemma QuotientIs(x: int, p: int, q: int, r: int)
    requires 0 <= r < p && x == p * q + r
    ensures x / p == q && x % p == r
  {
    assert x == p * (x / p) + x % p;
    SameQuotient(p, q, r, x / p, x % p);
  }

  lemma Rearranged(a: nat, b: nat, c: nat)
    ensures a * (b * c) == b * (a * c)
  {
  }

  /** A factor may be reduced before the product is. */
  lemma ModFactor(a: nat, b: nat, m: nat)
    requires 0 < m
    ensures (a * (b % m)) % m == (a * b) % m
  {
    var q, r := b / m, b % m;
    var q', r' := (a * r) / m, (a * r) % m;
    assert b == m * q + r && a * r == m * q' + r';
    assert a * b == a * (m * q) + a * r;
    Rearranged(a, m, q);
    assert a * b == m * (a * q + q') + r';
    QuotientIs(a * b, m, a * q + q', r');
  }

  lemma RemainderTwice(x: int, m: nat)
    requires 0 < m
    ensures (x % m) % m == x % m
  {
    QuotientIs(x % m, m, 0, x % m);
  }
}
