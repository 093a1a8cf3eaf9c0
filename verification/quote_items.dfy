/**
 `priceItems` of QuoteService, the rounding the quote tables apply when they store a line, and the
 order that `convert` makes of the stored lines.
 */
module QuoteItems {
  import opened Wrappers
  import opened Money
  import opened OrderPricing
  import opened PriceTiers
  import opened CartPricing
  import opened QuotePricing

  /** A requested line; the tax a caller sends is ignored and therefore absent. */
  datatype QuoteRequest = QuoteRequest(
    productId: int, qty: real, unitPrice: Option<real>, discountPct: Option<real>)

  datatype QuoteItem = QuoteItem(
    productId: int,
    priceListItemId: Option<int>,
    qty: real,
    listPrice: real,
    discountPct: real,
    unitPrice: real,
    tax: real,
    lineTotal: real)

  datatype PricedQuote = PricedQuote(items: seq<QuoteItem>, subtotal: real, taxTotal: real)

  predicate AllListed(products: Catalogue, lines: seq<QuoteRequest>) {
    forall l :: l in lines ==> l.productId in products
  }

  function LoadListed(products: Catalogue, lines: seq<QuoteRequest>): (r: Option<QuoteError>)
    ensures r.None? <==> AllListed(products, lines)
  {
    if lines == [] then None
    else if lines[0].productId !in products then Some(UnknownProduct(lines[0].productId))
    else LoadListed(products, lines[1..])
  }

  /** A quote is fail-closed: with a list in force the catalogue price is never a fallback. */
  function ListPrice(ctx: Context, product: Product, line: QuoteRequest): Option<(real, Option<int>)> {
    if ctx.priceList.Some? then
      match TryResolveApplicablePrice(ctx.tiers, Request(ctx.priceList.value, line.productId, line.qty, ctx.day))
      case Some(tier) => Some((tier.price, Some(tier.id)))
      case None => None
    else if product.price.Some? then Some((product.price.value, None))
    else None
  }

  function QuoteLine(ctx: Context, product: Product, line: QuoteRequest): Result<QuoteItem, QuoteError> {
    match ListPrice(ctx, product, line)
    case None => Failure(NoApplicablePrice(line.productId))
    case Some((listPrice, itemId)) =>
      match Negotiate(listPrice, line.unitPrice, line.discountPct)
      case Failure(e) => Failure(e)
      case Success(n) =>
        var p := PriceLine(line.qty, n.effective, ctx.taxRate);
        Success(QuoteItem(line.productId, itemId, line.qty, listPrice, n.discountPct, n.effective, p.tax, p.lineTotal))
  }

  /** A quote's list price: with a list in force the first applicable tier and nothing else, without one the catalogue. */
  ghost predicate IsListPrice(ctx: Context, product: Product, productId: int, qty: real, price: real, itemId: Option<int>) {
    if ctx.priceList.Some? then
      exists i :: IsTier(ctx.tiers, ctx.priceList.value, productId, qty, ctx.day, i) && price == i.price && itemId == Some(i.id)
    else product.price == Some(price) && itemId == None
  }

  ghost predicate HasNoListPrice(ctx: Context, product: Product, productId: int, qty: real) {
    if ctx.priceList.Some? then
      forall i :: i in ctx.tiers ==> !Applies(i, ctx.priceList.value, productId, qty, ctx.day)
    else product.price == None
  }

  lemma ListPriceIs(ctx: Context, product: Product, line: QuoteRequest)
    ensures match ListPrice(ctx, product, line)
            case Some((price, itemId)) => IsListPrice(ctx, product, line.productId, line.qty, price, itemId)
            case None => HasNoListPrice(ctx, product, line.productId, line.qty)
  {
    if ctx.priceList.Some? {
      ResolvedIsTier(ctx.tiers, ctx.priceList.value, line.productId, line.qty, ctx.day);
    }
  }

  /**
   A line is refused for want of a price exactly when the list in force has none for it, whatever the catalogue
   says, or no list is in force and the catalogue has none. Otherwise it carries its list price, what was
   negotiated on that, and the money of `PriceLine`.
   */
  lemma QuoteLineIs(ctx: Context, product: Product, line: QuoteRequest)
    ensures match QuoteLine(ctx, product, line)
            case Failure(NoApplicablePrice(id)) => id == line.productId && HasNoListPrice(ctx, product, line.productId, line.qty)
            case Failure(e) => e == PriceAndDiscount && line.unitPrice != None && line.discountPct !in {None, Some(0.0)}
            case Success(item) =>
              && item.productId == line.productId && item.qty == line.qty
              && IsListPrice(ctx, product, line.productId, line.qty, item.listPrice, item.priceListItemId)
              && Negotiate(item.listPrice, line.unitPrice, line.discountPct) == Success(NegotiatedPrice(item.unitPrice, item.discountPct))
              && IsPricedAt(line.qty, item.unitPrice, ctx.taxRate, item.lineTotal - item.tax, item.tax)
  {
    ListPriceIs(ctx, product, line);
    if QuoteLine(ctx, product, line).Success? {
      LineReconciles(line.qty, QuoteLine(ctx, product, line).value.unitPrice, ctx.taxRate);
    }
  }

  function NetOf(item: QuoteItem): real {
    Round2(Times(item.qty, item.unitPrice))
  }

  /** The quote as exact sums of its lines. */
  function QuotedTotals(ctx: Context, products: Catalogue, lines: seq<QuoteRequest>): Result<PricedQuote, QuoteError>
    requires AllListed(products, lines)
  {
    if |lines| == 0 then Success(PricedQuote([], 0.0, 0.0))
    else
      var line := lines[|lines| - 1];
      match QuotedTotals(ctx, products, lines[..|lines| - 1])
      case Failure(e) => Failure(e)
      case Success(q) =>
        match QuoteLine(ctx, products[line.productId], line)
        case Failure(e) => Failure(e)
        case Success(item) =>
          Success(PricedQuote(q.items + [item], q.subtotal + NetOf(item), q.taxTotal + item.tax))
  }

  /** A quoted line carries the price line of its own quantity and effective price. */
  lemma QuoteLineInCents(ctx: Context, product: Product, line: QuoteRequest)
    requires QuoteLine(ctx, product, line).Success?
    ensures var item := QuoteLine(ctx, product, line).value;
            IsCents(NetOf(item)) && IsCents(item.tax) && item.lineTotal == NetOf(item) + item.tax
  {
    var item := QuoteLine(ctx, product, line).value;
    LineReconciles(line.qty, item.unitPrice, ctx.taxRate);
  }

  lemma RunningTotals(subtotal: real, taxTotal: real, qty: real, price: real, taxRate: real)
    requires IsCents(subtotal) && IsCents(taxTotal)
    ensures var p := PriceLine(qty, price, taxRate);
            && p.net == Round2(Times(qty, price))
            && Round2(subtotal + p.net) == subtotal + p.net && IsCents(subtotal + p.net)
            && Round2(taxTotal + p.tax) == taxTotal + p.tax && IsCents(taxTotal + p.tax)
  {
    var p := PriceLine(qty, price, taxRate);
    LineReconciles(qty, price, taxRate);
    RunningTotalIsExact(subtotal, p.net);
    RunningTotalIsExact(taxTotal, p.tax);
  }

  method PriceItems(ctx: Context, products: Catalogue, lines: seq<QuoteRequest>)
    returns (r: Result<PricedQuote, QuoteError>)
    ensures AllListed(products, lines) ==> r == QuotedTotals(ctx, products, lines)
    ensures !AllListed(products, lines) ==> r.Failure? && Some(r.error) == LoadListed(products, lines)
  {
    var missing := LoadListed(products, lines);
    if missing.Some? {
      return Failure(missing.value);
    }
    var subtotal, taxTotal := 0.0, 0.0;
    var items: seq<QuoteItem> := [];
    FromCents(0);
    for i := 0 to |lines|
      invariant IsCents(subtotal) && IsCents(taxTotal)
      invariant QuotedTotals(ctx, products, lines[..i]) == Success(PricedQuote(items, subtotal, taxTotal))
    {
      assert lines[..i + 1][..i] == lines[..i];
      var line := lines[i];
      var priced := ListPrice(ctx, products[line.productId], line);
      if priced.None? {
        FirstBadLineDecides(ctx, products, lines, i);
        return Failure(NoApplicablePrice(line.productId));
      }
      var listPrice := priced.value.0;
      var negotiated := Negotiate(listPrice, line.unitPrice, line.discountPct);
      if negotiated.Failure? {
        FirstBadLineDecides(ctx, products, lines, i);
        return Failure(negotiated.error);
      }
      var p := PriceLine(line.qty, negotiated.value.effective, ctx.taxRate);
      RunningTotals(subtotal, taxTotal, line.qty, negotiated.value.effective, ctx.taxRate);
      subtotal := Round2(subtotal + p.net);
      taxTotal := Round2(taxTotal + p.tax);
      items := items + [QuoteItem(line.productId, priced.value.1, line.qty, listPrice, negotiated.value.discountPct,
                                  negotiated.value.effective, p.tax, p.lineTotal)];
    }
    assert lines[..|lines|] == lines;
    return Success(PricedQuote(items, subtotal, taxTotal));
  }

  lemma {:induction false} FirstBadLineDecides(ctx: Context, products: Catalogue, lines: seq<QuoteRequest>, i: nat)
    requires AllListed(products, lines) && i < |lines|
    requires QuotedTotals(ctx, products, lines[..i]).Success?
    requires QuoteLine(ctx, products[lines[i].productId], lines[i]).Failure?
    ensures QuotedTotals(ctx, products, lines)
            == Failure(QuoteLine(ctx, products[lines[i].productId], lines[i]).error)
  {
    var last := |lines| - 1;
    if i < last {
      assert lines[..last][..i] == lines[..i];
      FirstBadLineDecides(ctx, products, lines[..last], i);
    }
  }

  /** And the quote has such an item for every line, in order. */
  lemma {:induction false} QuotedItem(ctx: Context, products: Catalogue, lines: seq<QuoteRequest>, i: nat)
    requires AllListed(products, lines) && QuotedTotals(ctx, products, lines).Success? && i < |lines|
    ensures var items := QuotedTotals(ctx, products, lines).value.items;
            |items| == |lines| && QuoteLine(ctx, products[lines[i].productId], lines[i]) == Success(items[i])
  {
    var n := |lines| - 1;
    if i < n {
      QuotedItem(ctx, products, lines[..n], i);
    } else if n > 0 {
      QuotedItem(ctx, products, lines[..n], n - 1);
    }
  }

  /** Writing a line: every column is `numeric(14,2)`, which rounds half away from zero too. */
  function Stored(item: QuoteItem): QuoteItem {
    item.(qty := Round2(item.qty), listPrice := Round2(item.listPrice), discountPct := Round2(item.discountPct),
          unitPrice := Round2(item.unitPrice), tax := Round2(item.tax), lineTotal := Round2(item.lineTotal))
  }

  /** The order line `convert` builds from a stored quote line. */
  function OrderLine(item: QuoteItem): CartLine {
    CartLine(item.productId, item.qty, Some(item.unitPrice), Some(item.tax))
  }

  function OrderLines(items: seq<QuoteItem>): (lines: seq<CartLine>)
    ensures |lines| == |items| && forall i :: 0 <= i < |items| ==> lines[i] == OrderLine(Stored(items[i]))
  {
    seq(|items|, i requires 0 <= i < |items| => OrderLine(Stored(items[i])))
  }

  /** An item as `QuoteLine` leaves it: its money in cents and reconciled. */
  ghost predicate IsQuoted(products: Catalogue, item: QuoteItem) {
    && item.productId in products
    && IsCents(NetOf(item)) && IsCents(item.tax)
    && item.lineTotal == NetOf(item) + item.tax
  }

  function SumNets(items: seq<QuoteItem>): real {
    if |items| == 0 then 0.0 else SumNets(items[..|items| - 1]) + NetOf(items[|items| - 1])
  }

  function SumTaxes(items: seq<QuoteItem>): real {
    if |items| == 0 then 0.0 else SumTaxes(items[..|items| - 1]) + items[|items| - 1].tax
  }

  /** The totals of a quote are those of its items, and every item reconciles. */
  lemma {:induction false} QuotedItems(ctx: Context, products: Catalogue, lines: seq<QuoteRequest>)
    requires AllListed(products, lines) && QuotedTotals(ctx, products, lines).Success?
    ensures var q := QuotedTotals(ctx, products, lines).value;
            && q.subtotal == SumNets(q.items) && q.taxTotal == SumTaxes(q.items)
            && forall i :: i in q.items ==> IsQuoted(products, i)
  {
    if |lines| > 0 {
      var n := |lines| - 1;
      QuotedItems(ctx, products, lines[..n]);
      QuoteLineInCents(ctx, products[lines[n].productId], lines[n]);
      var init, items := QuotedTotals(ctx, products, lines[..n]).value.items, QuotedTotals(ctx, products, lines).value.items;
      assert items[..|items| - 1] == init;
      assert forall i :: i in items <==> i in init || i == items[|items| - 1];
    }
  }

  /** What an order item keeps of the quote item it came from. */
  predicate Carries(ordered: OrderItem, quoted: QuoteItem) {
    && ordered.productId == quoted.productId && ordered.qty == quoted.qty
    && ordered.unitPrice == quoted.unitPrice && ordered.tax == quoted.tax && ordered.lineTotal == quoted.lineTotal
  }

  lemma ItemSurvivesStorage(products: Catalogue, item: QuoteItem)
    requires IsQuoted(products, item) && IsCents(item.qty) && IsCents(item.unitPrice)
    ensures var line := OrderLine(Stored(item));
            && line.qty == item.qty && line.unitPrice == Some(item.unitPrice)
            && SnapshotNet(line) == NetOf(item) && SnapshotTax(line) == item.tax
  {
    Round2OfCents(item.qty);
    Round2OfCents(item.unitPrice);
    Round2OfCents(item.tax);
  }

  lemma {:induction false} SnapshotOfStored(products: Catalogue, items: seq<QuoteItem>)
    requires forall i :: i in items ==> IsQuoted(products, i) && IsCents(i.qty) && IsCents(i.unitPrice)
    ensures AllKnown(products, OrderLines(items))
    ensures var r := SnapshotOrder(products, OrderLines(items));
            && r.Success?
            && r.value.subtotal == SumNets(items) && r.value.taxTotal == SumTaxes(items)
            && |r.value.items| == |items|
            && forall i :: 0 <= i < |items| ==> Carries(r.value.items[i], items[i])
  {
    if |items| > 0 {
      var init, item := items[..|items| - 1], items[|items| - 1];
      SnapshotOfStored(products, init);
      assert item in items;
      ItemSurvivesStorage(products, item);
      var lines := OrderLines(items);
      assert lines[..|lines| - 1] == OrderLines(init) && lines[|lines| - 1] == OrderLine(Stored(item));
    }
  }

  /**
   A quote whose quantities and effective prices have two decimals converts into an order with the
   same subtotal, the same tax, and the same quantity, price, tax and total on every line.
   */
  lemma ConversionPreservesMoney(ctx: Context, products: Catalogue, lines: seq<QuoteRequest>, quote: PricedQuote)
    requires AllListed(products, lines) && QuotedTotals(ctx, products, lines) == Success(quote)
    requires forall i :: i in quote.items ==> IsCents(i.qty) && IsCents(i.unitPrice)
    ensures AllKnown(products, OrderLines(quote.items))
    ensures var r := SnapshotOrder(products, OrderLines(quote.items));
            && r.Success?
            && r.value.subtotal == quote.subtotal && r.value.taxTotal == quote.taxTotal
            && |r.value.items| == |quote.items|
            && forall i :: 0 <= i < |quote.items| ==> Carries(r.value.items[i], quote.items[i])
  {
    QuotedItems(ctx, products, lines);
    SnapshotOfStored(products, quote.items);
  }

  /** `update` without new items: product and quantity are kept, and the discount, not the price. */
  function CarryForward(item: QuoteItem): QuoteRequest {
    QuoteRequest(item.productId, item.qty, None, if item.discountPct == 0.0 then None else Some(item.discountPct))
  }

  /**
   A line sold at a manual price, stored, and re-priced where its product still resolves to the same list price,
   as it always does if the quantity has two decimals. The price comes back if and only if it was the list price
   or some recordable discount explains it, and the whole line if and only if its quantity has two decimals
   besides. A price at or below list moves by at most L/20000 plus half a cent.
   */
  lemma RepricedLine(ctx: Context, product: Product, line: QuoteRequest)
    requires QuoteLine(ctx, product, line).Success? && line.unitPrice.Some? && line.unitPrice.value >= 0.0
    ensures var item := QuoteLine(ctx, product, line).value;
            var e, L := item.unitPrice, item.listPrice;
            var request := CarryForward(Stored(item));
            var again := QuoteLine(ctx, product, request);
            var sameList := ListPrice(ctx, product, request) == Some((L, item.priceListItemId));
            var restored := e == L || IsDiscounted(L, e);
            && (IsCents(line.qty) ==> sameList)
            && (sameList ==>
                  && again.Success? && again.value.unitPrice == RoundTrip(L, e)
                  && (0.0 < L && e <= L ==> Abs(again.value.unitPrice - e) <= L / 20000.0 + 0.005)
                  && (again.value.unitPrice == e <==> restored)
                  && (again.value == item <==> restored && IsCents(line.qty)))
  {
    var item := QuoteLine(ctx, product, line).value;
    var e := item.unitPrice;
    Round2IsCents(line.unitPrice.value);
    Round2Close(line.unitPrice.value);
    Round2OfCents(e);
    RecordedInCents(item.listPrice, e);
    Round2OfCents(item.discountPct);
    Round2IsCents(line.qty);
    if IsCents(line.qty) {
      Round2OfCents(line.qty);
    }
    RoundTripIsExactIff(item.listPrice, e);
    if 0.0 < item.listPrice && e <= item.listPrice {
      RepriceDrift(item.listPrice, e);
    }
    SameDiscountAgain(item.listPrice, item.discountPct);
  }

  lemma RecordedInCents(listPrice: real, e: real)
    ensures IsCents(Negotiate(listPrice, Some(e), None).value.discountPct)
  {
    FromCents(0);
    if listPrice > 0.0 {
      Round2IsCents(PercentOff(listPrice, Round2(e)));
    }
  }

  /** Re-pricing records the discount it started from. */
  lemma SameDiscountAgain(listPrice: real, discountPct: real)
    requires IsCents(discountPct)
    ensures HasDiscount(Some(discountPct)) ==>
              Negotiate(listPrice, None, Some(discountPct)).value.discountPct == discountPct
  {
    Round2OfCents(discountPct);
  }

  /** Negotiation always lands on cents, so only a catalogue price with more decimals can stray. */
  lemma EffectiveInCents(ctx: Context, product: Product, line: QuoteRequest)
    requires QuoteLine(ctx, product, line).Success?
    requires var item := QuoteLine(ctx, product, line).value;
             line.unitPrice.Some? || HasDiscount(line.discountPct) || IsCents(item.listPrice)
    ensures IsCents(QuoteLine(ctx, product, line).value.unitPrice)
  {
    var item := QuoteLine(ctx, product, line).value;
    if line.unitPrice.Some? {
      Round2IsCents(line.unitPrice.value);
    } else if HasDiscount(line.discountPct) {
      Round2IsCents(Discounted(item.listPrice, line.discountPct.value));
    }
  }

  /**
   The two decimals are needed. Storage rounds the quantity after the quote priced it, and a quantity
   keeps its line net at every price in cents exactly when it already had two decimals.
   */
  lemma QuantitySurvivesIff(qty: real)
    ensures (forall price: real :: IsCents(price) ==> Round2(Times(Round2(qty), price)) == Round2(Times(qty, price)))
            <==> IsCents(qty)
  {
    if IsCents(qty) {
      Round2OfCents(qty);
    } else {
      Round2IsCents(qty);
      var price := RevealingPrice(qty, Round2(qty));
    }
  }

  /** A price high enough to show the difference between two quantities. */
  lemma RevealingPrice(x: real, y: real) returns (price: real)
    requires x != y
    ensures IsCents(price) && Round2(Times(y, price)) != Round2(Times(x, price))
  {
    var gap := Abs(x - y);
    var n := Ceil(0.02 / gap);
    price := n as real;
    WholeIsCents(price, 100 * n);
    assert Times(gap, price) >= 0.02 by {
      assert Times(gap, 0.02 / gap) == 0.02;
      assert price >= 0.02 / gap;
      TimesMonotone(0.02 / gap, price, gap);
    }
    assert Abs(Times(x, price) - Times(y, price)) == Times(gap, price);
    Round2Close(Times(x, price));
    Round2Close(Times(y, price));
  }
}
