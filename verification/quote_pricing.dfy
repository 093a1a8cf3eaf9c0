/**
 What a quote line costs and what becomes of that price when the line is priced again: quote-pricing.ts
 and the discount that `update` of QuoteService carries forward.
 */
module QuotePricing {
  import opened Wrappers
  import opened Money
  import opened OrderPricing
  import opened PriceTiers
  import opened CartPricing

  datatype NegotiatedPrice = NegotiatedPrice(effective: real, discountPct: real)

  datatype QuoteError =
    | UnknownProduct(productId: int)
    | NoApplicablePrice(productId: int)
    | PriceAndDiscount

  /** A discount of zero is what an untouched form field sends; it is no discount. */
  predicate HasDiscount(discountPct: Option<real>) {
    discountPct.Some? && discountPct.value != 0.0
  }

  /** How far below list a price is, in percent. */
  function PercentOff(listPrice: real, effective: real): real
    requires listPrice > 0.0
  {
    (listPrice - effective) / listPrice * 100.0
  }

  function Discounted(listPrice: real, discountPct: real): real {
    Times(listPrice, 1.0 - discountPct / 100.0)
  }

  function Negotiate(listPrice: real, unitPrice: Option<real>, discountPct: Option<real>)
    : Result<NegotiatedPrice, QuoteError>
  {
    if unitPrice.Some? && HasDiscount(discountPct) then Failure(PriceAndDiscount)
    else if unitPrice.Some? then
      var effective := Round2(unitPrice.value);
      var derived := if listPrice > 0.0 then Round2(PercentOff(listPrice, effective)) else 0.0;
      Success(NegotiatedPrice(effective, Max(0.0, derived)))
    else if HasDiscount(discountPct) then
      Success(NegotiatedPrice(Round2(Discounted(listPrice, discountPct.value)), Round2(discountPct.value)))
    else Success(NegotiatedPrice(listPrice, 0.0))
  }

  /**
   What a negotiation leaves: both a price and a discount are refused; a price is charged to the nearest cent, and
   recorded as how far it is below list, to the nearest hundredth of a percent and never below zero; a discount is
   taken off the list, to the nearest cent; without either the list price stands.
   */
  lemma NegotiatedPriceIs(listPrice: real, unitPrice: Option<real>, discountPct: Option<real>)
    ensures match Negotiate(listPrice, unitPrice, discountPct)
            case Failure(e) => e == PriceAndDiscount && unitPrice != None && discountPct !in {None, Some(0.0)}
            case Success(n) =>
              if unitPrice.Some? then
                && discountPct in {None, Some(0.0)} && IsRoundedToCents(unitPrice.value, n.effective)
                && if listPrice > 0.0 && n.effective < listPrice
                   then IsRoundedToCents((listPrice - n.effective) / listPrice * 100.0, n.discountPct)
                   else n.discountPct == 0.0
              else if discountPct.Some? && discountPct != Some(0.0) then
                && IsRoundedToCents(listPrice * (1.0 - discountPct.value / 100.0), n.effective)
                && IsRoundedToCents(discountPct.value, n.discountPct)
              else n.effective == listPrice && n.discountPct == 0.0
  {
    if unitPrice.Some? {
      var e := Round2(unitPrice.value);
      Round2IsNearest(unitPrice.value);
      if listPrice > 0.0 {
        Round2IsNearest(PercentOff(listPrice, e));
        Round2Close(PercentOff(listPrice, e));
        DiscountSign(listPrice, e);
      }
    } else if discountPct.Some? {
      Round2IsNearest(Discounted(listPrice, discountPct.value));
      Round2IsNearest(discountPct.value);
    }
  }

  lemma DiscountSign(listPrice: real, e: real)
    requires listPrice > 0.0
    ensures PercentOff(listPrice, e) > 0.0 <==> e < listPrice
    ensures PercentOff(listPrice, e) == 0.0 <==> e == listPrice
  {
  }

  /** `update` re-prices a stored line from its recorded discount, `i.discountPct || undefined`. */
  function Reprice(listPrice: real, storedDiscount: real): real {
    if storedDiscount == 0.0 then Negotiate(listPrice, None, None).value.effective
    else Negotiate(listPrice, None, Some(storedDiscount)).value.effective
  }

  /** A manual price at `e`, recorded and then re-priced against the same list. */
  function RoundTrip(listPrice: real, e: real): real {
    Reprice(listPrice, Negotiate(listPrice, Some(e), None).value.discountPct)
  }

  lemma PercentOffBounds(listPrice: real, e: real)
    requires 0.0 <= e <= listPrice && listPrice > 0.0
    ensures 0.0 <= PercentOff(listPrice, e) <= 100.0
    ensures Times(listPrice, PercentOff(listPrice, e)) == (listPrice - e) * 100.0
  {
  }

  /** The stored discount of a manual price between nothing and the list. */
  lemma StoredDiscount(listPrice: real, e: real)
    requires IsCents(e) && 0.0 <= e <= listPrice && listPrice > 0.0
    ensures var n := Negotiate(listPrice, Some(e), None).value;
            && n.effective == e
            && n.discountPct == Round2(PercentOff(listPrice, e))
            && IsCents(n.discountPct) && 0.0 <= n.discountPct <= 100.0
  {
    Round2OfCents(e);
    PercentOffBounds(listPrice, e);
    var q := PercentOff(listPrice, e);
    Round2IsCents(q);
    Round2Close(q);
    FromCents(10000);
    Round2OfCents(100.0);
    Round2Monotone(q, 100.0);
  }

  /** Before it is rounded, the re-computed price misses the agreed one by at most L/20000. */
  lemma RawDrift(listPrice: real, e: real, d: real)
    requires 0.0 <= e <= listPrice && listPrice > 0.0
    requires Abs(d - PercentOff(listPrice, e)) <= 0.005
    ensures Abs(Discounted(listPrice, d) - e) <= listPrice / 20000.0
  {
    var q := PercentOff(listPrice, e);
    PercentOffBounds(listPrice, e);
    assert Discounted(listPrice, d) - e == Times(listPrice, q - d) / 100.0 by {
      assert Times(listPrice, 1.0 - d / 100.0) == listPrice - Times(listPrice, d) / 100.0;
      assert Times(listPrice, q - d) == Times(listPrice, q) - Times(listPrice, d);
    }
    ScaledBound(listPrice, q - d, 0.005);
  }

  lemma ScaledBound(a: real, x: real, b: real)
    requires a > 0.0 && Abs(x) <= b
    ensures Abs(Times(a, x)) <= Times(a, b)
  {
  }

  /** Rounding a discount to two decimals moves the price by at most L/20000. */
  lemma RoundedDiscount(listPrice: real, d: real)
    requires listPrice > 0.0
    ensures Abs(Discounted(listPrice, Round2(d)) - Discounted(listPrice, d)) <= listPrice / 20000.0
  {
    Round2Close(d);
    var shift := (d - Round2(d)) / 100.0;
    TimesDistributes(1.0 - d / 100.0, shift, listPrice);
    assert Discounted(listPrice, Round2(d)) - Discounted(listPrice, d) == Times(listPrice, shift);
    ScaledBound(listPrice, shift, 0.00005);
    assert Times(listPrice, 0.00005) == listPrice / 20000.0;
  }

  /**
   The recorded discount explains the price, whichever of the two was sent: list less that percentage is the
   effective price to within L/20000 plus half a cent. A price at or above list is recorded as no discount,
   and only a line with both is refused.
   */
  lemma DiscountExplainsPrice(listPrice: real, unitPrice: Option<real>, discountPct: Option<real>)
    requires listPrice > 0.0 && (unitPrice.Some? ==> unitPrice.value >= 0.0)
    ensures Negotiate(listPrice, unitPrice, discountPct).Failure? <==> unitPrice.Some? && HasDiscount(discountPct)
    ensures match Negotiate(listPrice, unitPrice, discountPct)
            case Failure(e) => e == PriceAndDiscount
            case Success(n) =>
              && (unitPrice.None? || n.effective <= listPrice ==>
                    Abs(Discounted(listPrice, n.discountPct) - n.effective) <= listPrice / 20000.0 + 0.005)
              && (unitPrice.Some? && n.effective >= listPrice ==> n.discountPct == 0.0)
  {
    if unitPrice.Some? && !HasDiscount(discountPct) {
      ManualPriceExplained(listPrice, Round2(unitPrice.value));
      Round2Close(unitPrice.value);
    } else if unitPrice.None? && HasDiscount(discountPct) {
      RoundedDiscount(listPrice, discountPct.value);
      Round2Close(Discounted(listPrice, discountPct.value));
    }
  }

  lemma ManualPriceExplained(listPrice: real, e: real)
    requires listPrice > 0.0
    ensures var d := Max(0.0, Round2(PercentOff(listPrice, e)));
            && (0.0 <= e <= listPrice ==> Abs(Discounted(listPrice, d) - e) <= listPrice / 20000.0)
            && (e >= listPrice ==> d == 0.0)
  {
    var q := PercentOff(listPrice, e);
    Round2Close(q);
    if e <= listPrice {
      assert q >= 0.0;
      if 0.0 <= e {
        RawDrift(listPrice, e, Round2(q));
      }
    } else {
      assert (listPrice - e) / listPrice <= 0.0;
    }
  }

  /** A line re-priced on an unchanged list stays within L/20000 plus half a cent of what was agreed. */
  lemma RepriceDrift(listPrice: real, e: real)
    requires IsCents(e) && 0.0 <= e <= listPrice && listPrice > 0.0
    ensures Abs(RoundTrip(listPrice, e) - e) <= listPrice / 20000.0 + 0.005
  {
    var d := Negotiate(listPrice, Some(e), None).value.discountPct;
    StoredDiscount(listPrice, e);
    Round2Close(PercentOff(listPrice, e));
    RawDrift(listPrice, e, d);
    if d == 0.0 {
      assert Discounted(listPrice, 0.0) == listPrice;
    } else {
      Round2Close(Discounted(listPrice, d));
    }
  }

  /**
   Some discount the column can hold explains the price: it is a discount that does not round to nothing, and
   list less some percentage in hundredths, rounded, is the price.
   */
  ghost predicate IsDiscounted(listPrice: real, e: real) {
    && e < listPrice && listPrice - e >= listPrice / 20000.0
    && exists d: real :: IsRecordable(d) && e == Round2(Discounted(listPrice, d))
  }

  predicate IsRecordable(d: real) {
    IsCents(d) && 0.0 <= d <= 100.0
  }

  /** A price at or above list is re-priced at list: the discount column has no room for a surcharge. */
  lemma SurchargeIsLost(listPrice: real, e: real)
    requires IsCents(e) && e >= listPrice
    ensures RoundTrip(listPrice, e) == listPrice
  {
    Round2OfCents(e);
    if listPrice > 0.0 {
      ManualPriceExplained(listPrice, e);
    }
  }

  /** Below list, what is recorded is nothing if and only if the discount is under half a hundredth of a percent. */
  lemma SmallDiscountIsLost(listPrice: real, e: real)
    requires IsCents(e) && 0.0 <= e < listPrice
    ensures var d := Negotiate(listPrice, Some(e), None).value.discountPct;
            && IsRecordable(d) && d == Round2(PercentOff(listPrice, e))
            && (d == 0.0 <==> listPrice - e < listPrice / 20000.0)
  {
    var q := PercentOff(listPrice, e);
    StoredDiscount(listPrice, e);
    PercentOffBounds(listPrice, e);
    assert Times(listPrice, 0.005) == listPrice / 200.0;
    if q < 0.005 {
      assert (q * 100.0 + 0.5).Floor == 0;
      assert Times(listPrice, 0.005 - q) > 0.0;
      assert Times(listPrice, 0.005 - q) == Times(listPrice, 0.005) - Times(listPrice, q);
    } else {
      assert (q * 100.0 + 0.5).Floor >= 1;
      TimesMonotone(0.005, q, listPrice);
    }
  }

  /** How far a discount misses the price. */
  lemma DiscountMiss(listPrice: real, e: real, d: real)
    requires 0.0 <= e <= listPrice && listPrice > 0.0
    ensures e - Discounted(listPrice, d) == Times(listPrice, d - PercentOff(listPrice, e)) / 100.0
    ensures 0.0 <= d <= 100.0 ==> 0.0 <= Discounted(listPrice, d) <= listPrice
  {
    PercentOffBounds(listPrice, e);
    var q := PercentOff(listPrice, e);
    assert Times(listPrice, 1.0 - d / 100.0) == listPrice - Times(listPrice, d) / 100.0;
    assert Times(listPrice, d - q) == Times(listPrice, d) - Times(listPrice, q);
    if 0.0 <= d <= 100.0 {
      TimesMonotone(0.0, 1.0 - d / 100.0, listPrice);
      TimesMonotone(1.0 - d / 100.0, 1.0, listPrice);
    }
  }

  lemma ScaledOrder(a: real, x: real, y: real)
    requires a > 0.0
    ensures Abs(x) <= Abs(y) ==> Abs(Times(a, x)) <= Abs(Times(a, y))
    ensures Abs(Times(a, x)) == Abs(Times(a, y)) ==> Abs(x) == Abs(y)
    ensures Times(a, x) > 0.0 ==> x > 0.0
  {
    assert Abs(Times(a, x)) == Times(a, Abs(x)) && Abs(Times(a, y)) == Times(a, Abs(y));
    if Abs(x) <= Abs(y) {
      TimesMonotone(Abs(x), Abs(y), a);
    }
    var gap := Abs(x) - Abs(y);
    assert Times(a, Abs(x)) - Times(a, Abs(y)) == Times(a, gap);
    assert gap > 0.0 ==> Times(a, gap) > 0.0;
    assert gap < 0.0 ==> Times(a, -gap) > 0.0 && Times(a, -gap) == -Times(a, gap);
  }

  /** If any recordable discount gives the price, the nearest one does. */
  lemma NearestDiscountWorks(listPrice: real, e: real, d: real)
    requires IsCents(e) && 0.0 <= e < listPrice
    requires IsRecordable(d) && e == Round2(Discounted(listPrice, d))
    ensures e == Round2(Discounted(listPrice, Round2(PercentOff(listPrice, e))))
  {
    var q := PercentOff(listPrice, e);
    var near := Round2(q);
    DiscountMiss(listPrice, e, d);
    DiscountMiss(listPrice, e, near);
    Round2Close(Discounted(listPrice, d));
    ScaledOrder(listPrice, near - q, d - q);
    Round2IsNearest(q);
    if near != d {
      assert Abs(near - q) <= Abs(d - q);
      if Abs(e - Discounted(listPrice, near)) < 0.005 {
        Round2Near(Discounted(listPrice, near), e);
      } else {
        HalfCentBelow(Discounted(listPrice, d), e);
        ScaledOrder(listPrice, d - q, near - q);
        PercentOffBounds(listPrice, e);
        Round2Close(q);
        assert false;
      }
    }
  }

  /** An amount half a cent from the cents it rounds to is below them. */
  lemma HalfCentBelow(x: real, c: real)
    requires x >= 0.0 && Round2(x) == c && Abs(c - x) == 0.005
    ensures c - x == 0.005
  {
    var m := (x * 100.0 + 0.5).Floor;
    assert c * 100.0 == m as real;
  }

  /**
   Re-pricing gives back a price if and only if it is the list price or some recordable discount explains it.
   Any list price, with any decimals; any price in cents, which is what a negotiation leaves.
   */
  lemma RoundTripIsExactIff(listPrice: real, e: real)
    requires IsCents(e) && e >= 0.0
    ensures RoundTrip(listPrice, e) == e <==> e == listPrice || IsDiscounted(listPrice, e)
  {
    if e >= listPrice {
      SurchargeIsLost(listPrice, e);
    } else {
      SmallDiscountIsLost(listPrice, e);
      if IsDiscounted(listPrice, e) {
        var d: real :| IsRecordable(d) && e == Round2(Discounted(listPrice, d));
        NearestDiscountWorks(listPrice, e, d);
      }
    }
  }

  /** Up to 100.00 every discount that is recorded at all explains its price. */
  lemma RoundTripBelowHundred(listPrice: real, e: real)
    requires IsCents(e) && e >= 0.0 && 0.0 < listPrice <= 100.0
    ensures RoundTrip(listPrice, e) == e <==> e == listPrice || (e < listPrice && listPrice - e >= listPrice / 20000.0)
  {
    RoundTripIsExactIff(listPrice, e);
    if e < listPrice && listPrice - e >= listPrice / 20000.0 {
      SmallDiscountIsLost(listPrice, e);
      var d := Round2(PercentOff(listPrice, e));
      Round2Close(PercentOff(listPrice, e));
      if listPrice < 100.0 {
        RawDrift(listPrice, e, d);
        Round2Near(Discounted(listPrice, d), e);
      } else {
        FromCents(10000);
        CentsDifference(100.0, e);
        Round2OfCents(100.0 - e);
        Round2OfCents(e);
        assert Discounted(listPrice, d) == e;
      }
      assert IsRecordable(d) && e == Round2(Discounted(listPrice, d));
    }
  }

  /** On a list price in cents, of any size, the recordable discounts give exactly the prices that are restored. */
  lemma RoundTripOfCentsIff(listPrice: real, e: real)
    requires IsCents(listPrice) && listPrice > 0.0 && IsCents(e) && e >= 0.0
    ensures RoundTrip(listPrice, e) == e <==> exists d: real :: IsRecordable(d) && e == Round2(Discounted(listPrice, d))
  {
    RoundTripIsExactIff(listPrice, e);
    FromCents(0);
    Round2OfCents(listPrice);
    assert Discounted(listPrice, 0.0) == listPrice && IsRecordable(0.0);
    if d: real :| IsRecordable(d) && e == Round2(Discounted(listPrice, d)) {
      DiscountMiss(listPrice, listPrice, d);
      Round2Monotone(Discounted(listPrice, d), listPrice);
      if e != listPrice {
        CentsApart(e, listPrice);
        CentsApart(0.0, d);
        Round2Close(Discounted(listPrice, d));
        TimesMonotone(0.01, d, listPrice);
        assert PercentOff(listPrice, listPrice) == 0.0;
        assert Times(listPrice, 0.01) == listPrice / 100.0;
        assert listPrice - Discounted(listPrice, d) >= listPrice / 10000.0;
      }
    }
  }

  /** A price above list, and a list price with a third decimal: neither is given back. */
  lemma PricesNotRestored()
    ensures RoundTrip(50.0, 60.0) == 50.0
    ensures RoundTrip(50.001, 50.0) == 50.001
  {
    FromCents(5000);
    FromCents(6000);
    SurchargeIsLost(50.0, 60.0);
    SmallDiscountIsLost(50.001, 50.0);
  }

  /** A discount column with two decimals holds at most 10001 values between 0 and 100. */
  function DiscountCode(listPrice: real, m: nat): int
    requires listPrice > 0.0
  {
    (Round2(PercentOff(listPrice, m as real / 100.0)) * 100.0).Floor
  }

  /** Among more integers than places two fall in the same place. */
  lemma {:induction false} Pigeonhole(f: nat -> int, holes: nat, n: nat) returns (i: nat, j: nat)
    requires n > holes
    requires forall k: nat :: k < n ==> 0 <= f(k) < holes
    ensures i < j < n && f(i) == f(j)
    decreases holes
  {
    if k: nat :| k < n - 1 && f(k) == f(n - 1) {
      i, j := k, n - 1;
    } else {
      var last := f(n - 1);
      var g := (k: nat) => if f(k) == holes - 1 then last else f(k);
      assert holes > 0;
      i, j := Pigeonhole(g, holes - 1, n - 1);
    }
  }

  /** Above 100.00 there are more prices than discounts, so some price is not recovered. */
  lemma LosesSomePrice(listPrice: real) returns (e: real)
    requires IsCents(listPrice) && listPrice > 100.0
    ensures IsCents(e) && 0.0 <= e <= listPrice && RoundTrip(listPrice, e) != e
  {
    FromCents(10000);
    CentsApart(100.0, listPrice);
    var f := (m: nat) => DiscountCode(listPrice, m);
    forall m: nat | m < 10002 ensures 0 <= f(m) < 10001 {
      FromCents(m);
      StoredDiscount(listPrice, m as real / 100.0);
    }
    var i, j := Pigeonhole(f, 10001, 10002);
    var a, b := i as real / 100.0, j as real / 100.0;
    FromCents(i);
    FromCents(j);
    StoredDiscount(listPrice, a);
    StoredDiscount(listPrice, b);
    assert Round2(PercentOff(listPrice, a)) == Round2(PercentOff(listPrice, b));
    e := if RoundTrip(listPrice, a) != a then a else b;
  }

  /** Over a list price in cents, every manual price at or below it is restored exactly when it is at most 100.00. */
  lemma RepriceIsExactIff(listPrice: real)
    requires IsCents(listPrice) && listPrice > 0.0
    ensures (forall e: real :: IsCents(e) && 0.0 <= e <= listPrice ==> RoundTrip(listPrice, e) == e)
            <==> listPrice <= 100.0
  {
    if listPrice <= 100.0 {
      forall e: real | IsCents(e) && 0.0 <= e <= listPrice ensures RoundTrip(listPrice, e) == e {
        RoundTripBelowHundred(listPrice, e);
        if e < listPrice {
          CentsApart(e, listPrice);
        }
      }
    } else {
      var e := LosesSomePrice(listPrice);
    }
  }
}
