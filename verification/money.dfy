/**
 Decimal money: `round2` of order-pricing.ts on exact amounts.

 The source scales through a decimal string so that a binary double behaves like the decimal
 it was written as. `real` is that decimal, so the rounding rule is all that remains.
 */
module Money {

  function Abs(x: real): (r: real)
    ensures r >= 0.0 && (r == x || r == -x)
  {
    if x < 0.0 then -x else x
  }

  function Max(x: real, y: real): (r: real)
    ensures r >= x && r >= y && (r == x || r == y)
  {
    if x < y then y else x
  }

  /** `Math.ceil`. */
  function Ceil(x: real): (n: int)
    ensures (n - 1) as real < x <= n as real
  {
    -((-x).Floor)
  }

  /** A product with a name, so that equal factors are seen to give equal products. */
  function Times(x: real, y: real): real {
    x * y
  }

  lemma TimesDistributes(x: real, y: real, z: real)
    ensures Times(x + y, z) == Times(x, z) + Times(y, z)
  {
  }

  lemma TimesMonotone(a: real, b: real, c: real)
    requires a <= b && c >= 0.0
    ensures Times(a, c) <= Times(b, c) && Times(c, a) <= Times(c, b)
  {
  }

  /** An amount a `numeric(14,2)` column can hold without losing anything. */
  predicate IsCents(x: real) {
    (x * 100.0).Floor as real == x * 100.0
  }

  /** Half away from zero: scale the magnitude, round half up, put the sign back. */
  function Round2(value: real): (r: real)
  {
    var cents := (Abs(value) * 100.0 + 0.5).Floor as real;
    if value < 0.0 then -(cents / 100.0) else cents / 100.0
  }

  lemma FromCents(n: int)
    ensures IsCents(n as real / 100.0)
  {
    assert n as real / 100.0 * 100.0 == n as real;
  }

  lemma WholeIsCents(x: real, n: int)
    requires x * 100.0 == n as real
    ensures IsCents(x)
  {
  }

  lemma CentsSum(x: real, y: real)
    requires IsCents(x) && IsCents(y)
    ensures IsCents(x + y)
  {
    WholeIsCents(x + y, (x * 100.0).Floor + (y * 100.0).Floor);
  }

  lemma CentsDifference(x: real, y: real)
    requires IsCents(x) && IsCents(y)
    ensures IsCents(x - y)
  {
    WholeIsCents(x - y, (x * 100.0).Floor - (y * 100.0).Floor);
  }

  lemma CentsNegate(x: real)
    requires IsCents(x)
    ensures IsCents(-x)
  {
    WholeIsCents(-x, -(x * 100.0).Floor);
  }

  /** Two different cent amounts are at least a cent apart. */
  lemma CentsApart(x: real, y: real)
    requires IsCents(x) && IsCents(y) && x < y
    ensures x + 0.01 <= y
  {
    var n, m := (x * 100.0).Floor, (y * 100.0).Floor;
    assert n < m;
  }

  lemma Round2IsCents(x: real)
    ensures IsCents(Round2(x))
  {
    var cents := (Abs(x) * 100.0 + 0.5).Floor;
    FromCents(cents);
    CentsNegate(cents as real / 100.0);
  }

  lemma Round2Odd(x: real)
    ensures Round2(-x) == -Round2(x)
  {
    assert Abs(-x) == Abs(x);
  }

  /** Rounding never moves an amount by more than half a cent. */
  lemma Round2Close(x: real)
    ensures Abs(Round2(x) - x) <= 0.005
    ensures x >= 0.0 ==> Round2(x) >= 0.0
    ensures x <= 0.0 ==> Round2(x) <= 0.0
  {
    var scaled := Abs(x) * 100.0 + 0.5;
    assert scaled.Floor as real <= scaled < scaled.Floor as real + 1.0;
  }

  /** An amount within half a cent of a cent amount rounds to it. */
  lemma Round2Near(x: real, c: real)
    requires IsCents(c) && Abs(x - c) < 0.005
    ensures Round2(x) == c
  {
    Round2IsCents(x);
    Round2Close(x);
    if Round2(x) < c {
      CentsApart(Round2(x), c);
    } else if c < Round2(x) {
      CentsApart(c, Round2(x));
    }
  }

  /** Rounding leaves cents alone, so it is idempotent. */
  lemma Round2OfCents(c: real)
    requires IsCents(c)
    ensures Round2(c) == c
  {
    Round2Near(c, c);
  }

  lemma Round2Idempotent(x: real)
    ensures Round2(Round2(x)) == Round2(x)
  {
    Round2IsCents(x);
    Round2OfCents(Round2(x));
  }

  lemma Round2Monotone(x: real, y: real)
    requires x <= y
    ensures Round2(x) <= Round2(y)
  {
    if 0.0 <= x {
      assert (x * 100.0 + 0.5).Floor <= (y * 100.0 + 0.5).Floor;
    } else if y < 0.0 {
      assert (-y * 100.0 + 0.5).Floor <= (-x * 100.0 + 0.5).Floor;
    } else {
      Round2Close(x);
      Round2Close(y);
    }
  }

  /**
   The rule in the words of the documentation: no cent amount is closer than `Round2(x)`, and of
   two equally close ones it is the one further from zero. The two clauses determine the value.
   */
  ghost predicate IsRoundedToCents(x: real, r: real) {
    && IsCents(r)
    && forall c: real {:trigger IsCents(c)} :: IsCents(c) && c != r ==>
         Abs(r - x) < Abs(c - x) || (Abs(r - x) == Abs(c - x) && Abs(c) < Abs(r))
  }

  lemma Round2IsNearest(x: real)
    ensures IsRoundedToCents(x, Round2(x))
  {
    var r := Round2(x);
    Round2IsCents(x);
    Round2Close(x);
    forall c: real | IsCents(c) && c != r
      ensures Abs(r - x) < Abs(c - x) || (Abs(r - x) == Abs(c - x) && Abs(c) < Abs(r))
    {
      if c < r { CentsApart(c, r); } else { CentsApart(r, c); }
      TieGoesAway(x, c);
    }
  }

  /** A cent amount exactly half a cent away from `x` is the one `Round2` leaves behind. */
  lemma TieGoesAway(x: real, c: real)
    requires IsCents(c) && c != Round2(x)
    ensures Abs(c - x) == 0.005 ==> Abs(c) < Abs(Round2(x))
  {
    if Abs(c - x) == 0.005 {
      if x < 0.0 {
        CentsNegate(c);
        Round2Odd(x);
        TieGoesUp(-x, -c);
      } else {
        TieGoesUp(x, c);
      }
    }
  }

  lemma TieGoesUp(x: real, c: real)
    requires x >= 0.0 && IsCents(c) && c != Round2(x) && Abs(c - x) == 0.005
    ensures Abs(c) < Abs(Round2(x))
  {
    var n := (c * 100.0).Floor;
    var m := (x * 100.0 + 0.5).Floor;
    assert Round2(x) * 100.0 == m as real;
    assert m != n;
    assert x * 100.0 + 0.5 == n as real || x * 100.0 + 0.5 == (n + 1) as real;
    assert m == n + 1;
    assert m >= 0;
  }

  /** Only one amount satisfies the rule, so `Round2` is the rule. */
  lemma RoundedIsUnique(x: real, r: real)
    ensures IsRoundedToCents(x, r) <==> r == Round2(x)
  {
    Round2IsNearest(x);
    Round2IsCents(x);
  }
}
