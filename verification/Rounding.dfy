/** quoMilliRoundHalfDown: the milli-quotient of two quantities, to the nearest integer. */
module Rounding {
  import opened GoMath

  /** q is the integer nearest to n/d; a tie goes to the one closer to zero. */
  predicate Nearest(n: int, d: int, q: int)
    requires d != 0
  {
    NearestMultiple(n, d, q * d)
  }

  /** The multiple m of d lies within half of d from n, on the side of zero if exactly half. */
  predicate NearestMultiple(n: int, d: int, m: int)
  {
    && 2 * Abs(n - m) <= Abs(d)
    && (2 * Abs(n - m) == Abs(d) ==> Abs(m) <= Abs(n))
  }

  function RoundHalfDown(n: int, d: int): (q: int)
    requires d != 0
  {
    var q := Quo(n, d);
    if 2 * Abs(n - q * d) > Abs(d) then (if (n >= 0) == (d >= 0) then q + 1 else q - 1) else q
  }

  /** On milli-values, with big.Int arithmetic and the final conversion to int64. */
  function QuoMilli(num: int, denom: int): (r: int)
  {
    if denom == 0 then 0 else WrapInt64(RoundHalfDown(num * 1000, denom))
  }

  /** A zero denominator yields zero. Otherwise the result is the integer nearest to 1000·num/denom,
      ties toward zero, or that integer wrapped around if it does not fit an int64. */
  method QuoMilliRoundHalfDown(num: int, denom: int) returns (r: int)
    ensures denom == 0 ==> r == 0
    ensures denom != 0 ==> exists q :: Nearest(1000 * num, denom, q) && r == WrapInt64(q)
    ensures denom != 0 ==>
              forall q :: Nearest(1000 * num, denom, q) && MIN_INT64 <= q <= MAX_INT64 ==> r == q
    ensures r == QuoMilli(num, denom)
  {
    if denom == 0 {
      return 0;
    }
    var n := num * 1000;
    var q := Quo(n, denom);
    var rem := n - q * denom;
    var twoR := 2 * Abs(rem);
    if twoR > Abs(denom) {
      if (n >= 0) == (denom >= 0) {
        q := q + 1;
      } else {
        q := q - 1;
      }
    }
    assert q == RoundHalfDown(n, denom);
    RoundsToNearest(n, denom);
    forall p | Nearest(n, denom, p)
      ensures p == q
    {
      NearestIsUnique(n, denom, p, q);
    }
    return WrapInt64(q);
  }

  /** For non-negative operands, the interval of quotients that round to q. */
  lemma Bracket(n: nat, d: int)
    requires d > 0
    ensures var q := RoundHalfDown(n, d); q >= 0 && (2 * q - 1) * d < 2 * n <= (2 * q + 1) * d
  {
    var q := n / d;
    assert Quo(n, d) == q;
    assert n == q * d + n % d && 0 <= n % d < d;
    assert (2 * q - 1) * d == 2 * (q * d) - d;
    assert (2 * q + 1) * d == 2 * (q * d) + d;
    assert (2 * (q + 1) - 1) * d == 2 * (q * d) + d;
    assert (2 * (q + 1) + 1) * d == 2 * (q * d) + 3 * d;
  }

  /** The signs of the operands only decide the sign of the result. */
  lemma SignsFactorOut(n: int, d: int)
    requires d != 0
    ensures var q := RoundHalfDown(Abs(n), Abs(d));
            RoundHalfDown(n, d) == if (n >= 0) == (d > 0) then q else -q
  {
    MultipleSigns(Abs(n) / Abs(d), d);
  }

  lemma NearestMagnitude(n: nat, d: int)
    requires d > 0
    ensures Nearest(n, d, RoundHalfDown(n, d))
  {
  }

  /** For all signs: the result is the nearest integer, ties toward zero. */
  lemma RoundsToNearest(n: int, d: int)
    requires d != 0
    ensures Nearest(n, d, RoundHalfDown(n, d))
  {
    NearestMagnitude(Abs(n), Abs(d));
    SignsFactorOut(n, d);
    MultipleSigns(RoundHalfDown(Abs(n), Abs(d)), d);
  }

  lemma MultipleSigns(q: int, d: int)
    ensures q * d == if d > 0 then q * Abs(d) else -(q * Abs(d))
    ensures (-q) * d == if d > 0 then -(q * Abs(d)) else q * Abs(d)
  {
  }

  /** Nearest determines the result, so the function is the only one with this contract. */
  lemma NearestIsUnique(n: int, d: int, p: int, q: int)
    requires d != 0 && Nearest(n, d, p) && Nearest(n, d, q)
    ensures p == q
  {
    if p != q {
      ProductGap(p, q, d);
    }
  }

  lemma ProductGap(p: int, q: int, d: int)
    requires p != q && d != 0
    ensures Abs(p * d - q * d) >= Abs(d)
  {
    MultipleSigns(p, d);
    MultipleSigns(q, d);
    AtLeastOnce(Abs(p - q), Abs(d));
    if p > q {
      assert p * Abs(d) - q * Abs(d) == (p - q) * Abs(d);
    } else {
      assert q * Abs(d) - p * Abs(d) == (q - p) * Abs(d);
    }
  }

  lemma AtLeastOnce(k: nat, d: nat)
    requires k >= 1
    ensures k * d >= d
  {
  }

  /** Within int64 the function itself is the rounded quotient of 1000·num by denom. */
  lemma QuoMilliIsNearest(num: int, denom: int)
    requires denom != 0 && MIN_INT64 <= RoundHalfDown(num * 1000, denom) <= MAX_INT64
    ensures Nearest(1000 * num, denom, QuoMilli(num, denom))
  {
    RoundsToNearest(num * 1000, denom);
  }
}
