/** Shared result type and small facts about real arithmetic. */
module Common {

  /** An operation either yields a value or names the condition under which
      the original program raises. */
  datatype Result<+T, +E> = Ok(value: T) | Err(error: E)

  function Min(a: int, b: int): (m: int)
    ensures m <= a && m <= b
    ensures m == a || m == b
  {
    if a <= b then a else b
  }

  /** True when `m` lies in the closed interval spanned by `a` and `b`. */
  predicate Between(a: real, b: real, m: real) {
    (a <= m <= b) || (b <= m <= a)
  }

  lemma NonNegativeProduct(x: real, y: real)
    requires x >= 0.0 && y >= 0.0
    ensures x * y >= 0.0
  {
  }

  lemma PositiveProduct(x: real, y: real)
    requires x > 0.0 && y > 0.0
    ensures x * y > 0.0
  {
  }

  lemma PositiveFactor(x: real, s: real)
    requires s > 0.0 && x * s > 0.0
    ensures x > 0.0
  {
    if x <= 0.0 {
      NonNegativeProduct(-x, s);
    }
  }

  lemma ScaleComplement(a: real, w: real)
    ensures a * (1.0 - w) == a - a * w
  {
  }

  /** Multiplication by a non-zero factor can be cancelled. */
  lemma Cancel(a: real, b: real, s: real)
    requires s != 0.0 && a * s == b * s
    ensures a == b
  {
    assert (a - b) * s == 0.0;
  }

  /** Moving from `a` towards `b` by a fraction `k` in [0, 1] stays between them. */
  lemma BlendBetween(a: real, b: real, k: real)
    requires 0.0 <= k <= 1.0
    ensures Between(a, b, a + k * (b - a))
  {
    if a <= b {
      NonNegativeProduct(k, b - a);
      NonNegativeProduct(1.0 - k, b - a);
    } else {
      NonNegativeProduct(k, a - b);
      NonNegativeProduct(1.0 - k, a - b);
    }
  }
}
