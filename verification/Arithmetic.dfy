/** Multiplication and remainder facts the other modules share. */
module Arithmetic {
  function Min(a: nat, b: nat): nat {
    if a <= b then a else b
  }

  lemma MulStep(d: nat, a: nat, b: nat)
    requires a > b
    ensures d * a >= d * b + d
  {
    assert d * a == d * b + d * (a - b);
    assert d * (a - b) == d + d * (a - b - 1);
  }

  lemma RemainderIsUnique(x: nat, d: nat, q: nat, r: nat)
    requires d > r && x == d * q + r
    ensures x % d == r
  {
    if x / d > q {
      MulStep(d, x / d, q);
    } else if x / d < q {
      MulStep(d, q, x / d);
    }
  }

  /** The whole part of `x / d`, by counting. */
  function Floor(x: nat, d: nat): nat
    requires d > 0
  {
    if x < d then 0 else 1 + Floor(x - d, d)
  }

  /** It is the whole part: `x` lies between that many and one more times `d`. */
  lemma {:induction false} FloorIsWholePart(x: nat, d: nat)
    requires d > 0
    ensures Floor(x, d) * d <= x < (Floor(x, d) + 1) * d
  {
    if x >= d {
      FloorIsWholePart(x - d, d);
      var q := Floor(x - d, d);
      assert (q + 1) * d == q * d + d && (q + 2) * d == (q + 1) * d + d;
    }
  }

  lemma FloorBound(x: nat, d: nat, q: nat)
    requires d > 0 && Floor(x, d) <= q
    ensures x <= (q + 1) * d
  {
    FloorIsWholePart(x, d);
    if Floor(x, d) < q {
      MulStep(d, q + 1, Floor(x, d) + 1);
    }
  }

  /** Counting round `n` positions. */
  lemma NextInRound(k: nat, n: nat, i: nat)
    requires n > 0 && i < n && k % n == i
    ensures (k + 1) % n == if i + 1 < n then i + 1 else 0
  {
    var q := k / n;
    assert k + 1 == n * q + (i + 1);
    if i + 1 < n {
      RemainderIsUnique(k + 1, n, q, i + 1);
    } else {
      assert n * q + n == n * (q + 1);
      RemainderIsUnique(k + 1, n, q + 1, 0);
    }
  }
}
