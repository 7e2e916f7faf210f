/** Integer helpers standing for `Math.max`, `Math.min` and `Math.ceil` over integer quotients. */
module Numbers {

  function Max(a: int, b: int): (r: int)
    ensures r >= a && r >= b && (r == a || r == b)
  {
    if a >= b then a else b
  }

  function Min(a: int, b: int): (r: int)
    ensures r <= a && r <= b && (r == a || r == b)
  {
    if a <= b then a else b
  }

  /** `Math.ceil(a / b)` for integers `a` and a positive integer `b`: the least `r` with `a <= r * b`. */
  function CeilDiv(a: int, b: int): (r: int)
    requires b > 0
    ensures (r - 1) * b < a <= r * b
  {
    var q := (a + b - 1) / b;
    assert q * b <= a + b - 1 < q * b + b by {
      assert a + b - 1 == q * b + (a + b - 1) % b;
    }
    assert (q - 1) * b == q * b - b;
    q
  }

  /** The ceiling is the unique integer with that property. */
  lemma CeilDivUnique(a: int, b: int, r: int)
    requires b > 0
    requires (r - 1) * b < a <= r * b
    ensures r == CeilDiv(a, b)
  {
    var c := CeilDiv(a, b);
    if r < c {
      assert r * b <= (c - 1) * b by { MulMonotone(r, c - 1, b); }
      assert false;
    } else if r > c {
      assert c * b <= (r - 1) * b by { MulMonotone(c, r - 1, b); }
      assert false;
    }
  }

  lemma MulMonotone(x: int, y: int, b: int)
    requires x <= y && b >= 0
    ensures x * b <= y * b
  {
    assert y * b - x * b == (y - x) * b;
  }

  /** Ceiling division is monotone in the dividend. */
  lemma CeilDivMonotone(a: int, a': int, b: int)
    requires b > 0 && a <= a'
    ensures CeilDiv(a, b) <= CeilDiv(a', b)
  {
    var c, c' := CeilDiv(a, b), CeilDiv(a', b);
    if c > c' {
      assert c' * b <= (c - 1) * b by { MulMonotone(c', c - 1, b); }
      assert false;
    }
  }

  /** A non-negative dividend gives a non-negative quotient; zero gives zero. */
  lemma CeilDivNonNegative(a: int, b: int)
    requires b > 0 && a >= 0
    ensures CeilDiv(a, b) >= 0
    ensures a == 0 ==> CeilDiv(a, b) == 0
  {
    CeilDivUnique(0, b, 0);
    CeilDivMonotone(0, a, b);
  }
}
