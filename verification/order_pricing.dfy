/** Line and order arithmetic: order-pricing.ts. */
module OrderPricing {
  import opened Money

  /** One cent, the resolution of the money columns. */
  const PRICE_ASSERTION_TOLERANCE := 0.01

  datatype PricedLine = PricedLine(net: real, tax: real, lineTotal: real)

  /** Tax is taken on the rounded net, not on the raw product. */
  function PriceLine(qty: real, unitPrice: real, taxRate: real): PricedLine {
    var net := Round2(Times(qty, unitPrice));
    var tax := Round2(Times(net, taxRate));
    PricedLine(net, tax, Round2(net + tax))
  }

  predicate QuotedPriceMatches(claimed: real, resolved: real) {
    Round2(Abs(claimed - resolved)) <= PRICE_ASSERTION_TOLERANCE
  }

  /** Freight is added after tax and never taxed. */
  function OrderGrandTotal(subtotal: real, taxTotal: real, shippingTotal: real, discountTotal: real): real {
    Round2(subtotal + taxTotal + shippingTotal - discountTotal)
  }

  /** The net is the product to the nearest cent, and the tax the rate on that net to the nearest cent. */
  ghost predicate IsPricedAt(qty: real, unitPrice: real, taxRate: real, net: real, tax: real) {
    IsRoundedToCents(Times(qty, unitPrice), net) && IsRoundedToCents(Times(net, taxRate), tax)
  }

  /** A line reconciles to the cent, and its tax is the rate to within half a cent. */
  lemma LineReconciles(qty: real, unitPrice: real, taxRate: real)
    ensures var p := PriceLine(qty, unitPrice, taxRate);
            IsPriced(p, taxRate) && IsPricedAt(qty, unitPrice, taxRate, p.net, p.tax)
  {
    Round2IsNearest(Times(qty, unitPrice));
    Round2IsNearest(Times(Round2(Times(qty, unitPrice)), taxRate));
    Round2IsCents(Times(qty, unitPrice));
    PartsReconcile(Round2(Times(qty, unitPrice)), Times(Round2(Times(qty, unitPrice)), taxRate));
  }

  lemma PartsReconcile(net: real, taxed: real)
    requires IsCents(net)
    ensures var tax := Round2(taxed);
            IsCents(tax) && Abs(tax - taxed) <= 0.005 && Round2(net + tax) == net + tax
  {
    Round2IsCents(taxed);
    Round2Close(taxed);
    RunningTotalIsExact(net, Round2(taxed));
  }

  /**
   What the guard accepts. It is documented as "within one cent", but the difference is rounded
   before it is compared, so anything short of a cent and a half passes.
   */
  lemma QuotedPriceMatchesIff(claimed: real, resolved: real)
    ensures QuotedPriceMatches(claimed, resolved) <==> Abs(claimed - resolved) < 0.015
  {
    var d := Abs(claimed - resolved);
    var n := (d * 100.0 + 0.5).Floor;
    assert Round2(d) == n as real / 100.0;
    assert n <= 1 <==> d * 100.0 + 0.5 < 2.0;
  }

  /** On cent amounts the guard is exactly the documented one. */
  lemma QuotedCentsMatchIff(claimed: real, resolved: real)
    requires IsCents(claimed) && IsCents(resolved)
    ensures QuotedPriceMatches(claimed, resolved) <==> Abs(claimed - resolved) <= 0.01
  {
    CentsDifference(claimed, resolved);
    CentsDifference(resolved, claimed);
    Round2OfCents(Abs(claimed - resolved));
  }

  /** Where every part is in cents the charged amount is the exact sum. */
  lemma GrandTotalIsExact(subtotal: real, taxTotal: real, shippingTotal: real, discountTotal: real)
    requires IsCents(subtotal) && IsCents(taxTotal) && IsCents(shippingTotal) && IsCents(discountTotal)
    ensures OrderGrandTotal(subtotal, taxTotal, shippingTotal, discountTotal)
            == subtotal + taxTotal + shippingTotal - discountTotal
    ensures IsCents(OrderGrandTotal(subtotal, taxTotal, shippingTotal, discountTotal))
  {
    CentsSum(subtotal, taxTotal);
    CentsSum(subtotal + taxTotal, shippingTotal);
    CentsDifference(subtotal + taxTotal + shippingTotal, discountTotal);
    Round2OfCents(subtotal + taxTotal + shippingTotal - discountTotal);
  }

  /** One turn of a running total: rounding a sum of cents changes nothing. */
  lemma RunningTotalIsExact(total: real, amount: real)
    requires IsCents(total) && IsCents(amount)
    ensures Round2(total + amount) == total + amount && IsCents(total + amount)
  {
    CentsSum(total, amount);
    Round2OfCents(total + amount);
  }

  /** Exact sums over priced lines, last line first so that they follow a loop. */
  function SumNet(lines: seq<PricedLine>): real {
    if |lines| == 0 then 0.0 else SumNet(lines[..|lines| - 1]) + lines[|lines| - 1].net
  }

  function SumTax(lines: seq<PricedLine>): real {
    if |lines| == 0 then 0.0 else SumTax(lines[..|lines| - 1]) + lines[|lines| - 1].tax
  }

  function SumTotal(lines: seq<PricedLine>): real {
    if |lines| == 0 then 0.0 else SumTotal(lines[..|lines| - 1]) + lines[|lines| - 1].lineTotal
  }

  /** A line that `PriceLine` produced for some quantity and price. */
  ghost predicate IsPriced(l: PricedLine, taxRate: real) {
    IsCents(l.net) && IsCents(l.tax) && l.lineTotal == l.net + l.tax && Abs(l.tax - Times(l.net, taxRate)) <= 0.005
  }

  /** A cart reconciles exactly: nets and taxes add up to the line totals and to the charge. */
  lemma {:induction false} CartReconciles(lines: seq<PricedLine>, taxRate: real)
    requires forall l :: l in lines ==> IsPriced(l, taxRate)
    ensures IsCents(SumNet(lines)) && IsCents(SumTax(lines))
    ensures SumTotal(lines) == SumNet(lines) + SumTax(lines)
    ensures OrderGrandTotal(SumNet(lines), SumTax(lines), 0.0, 0.0) == SumTotal(lines)
  {
    FromCents(0);
    if |lines| > 0 {
      var init, last := lines[..|lines| - 1], lines[|lines| - 1];
      CartReconciles(init, taxRate);
      assert IsPriced(last, taxRate);
      CentsSum(SumNet(init), last.net);
      CentsSum(SumTax(init), last.tax);
    }
    GrandTotalIsExact(SumNet(lines), SumTax(lines), 0.0, 0.0);
  }

  /** Taxing line by line strays from taxing the whole by at most half a cent a line. */
  lemma {:induction false} TaxDriftIsBounded(lines: seq<PricedLine>, taxRate: real)
    requires forall l :: l in lines ==> IsPriced(l, taxRate)
    ensures Abs(SumTax(lines) - Times(SumNet(lines), taxRate)) <= |lines| as real * 0.005
  {
    if |lines| > 0 {
      var init, last := lines[..|lines| - 1], lines[|lines| - 1];
      TaxDriftIsBounded(init, taxRate);
      assert IsPriced(last, taxRate);
      AddDrifts(SumNet(init), SumTax(init), last.net, last.tax, taxRate, |init| as real * 0.005, 0.005);
    }
  }

  lemma AddDrifts(net: real, tax: real, net': real, tax': real, rate: real, bound: real, bound': real)
    requires Abs(tax - Times(net, rate)) <= bound && Abs(tax' - Times(net', rate)) <= bound'
    ensures Abs(tax + tax' - Times(net + net', rate)) <= bound + bound'
  {
    TimesDistributes(net, net', rate);
  }
}
