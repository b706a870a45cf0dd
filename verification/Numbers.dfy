/** Powers of two and what division by a product does. */
module Numbers {

  function Power2(n: nat): (p: nat)
    ensures p >= 1
  {
    if n == 0 then 1 else 2 * Power2(n - 1)
  }

  lemma ProductMonotone(a: nat, b: nat, c: nat)
    requires a <= b
    ensures a * c <= b * c
  {
  }

  lemma DivisionIs(n: nat, unit: nat, q: nat, r: nat)
    requires r < unit && n == q * unit + r
    ensures n / unit == q && n % unit == r
  {
    var p := n / unit;
    assert n == p * unit + n % unit;
    if p < q {
      ProductMonotone(p + 1, q, unit);
      assert false;
    } else if p > q {
      ProductMonotone(q + 1, p, unit);
      assert false;
    }
  }
}
