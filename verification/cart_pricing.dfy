/**
 How OrderService prices a cart: `preview`, `priceLines` and `snapshotLines`.

 Each loop keeps running totals that it rounds every turn; each is proved against a function that
 adds exact amounts and never rounds a sum.
 */
module CartPricing {
  import opened Wrappers
  import opened Money
  import opened OrderPricing
  import opened PriceTiers

  datatype Product = Product(id: int, sku: string, name: Option<string>, price: Option<real>)

  /** `unitPrice` and `tax` are the caller's claims. */
  datatype CartLine = CartLine(productId: int, qty: real, unitPrice: Option<real>, tax: Option<real>)

  /** What one call reads once for the whole cart: the list, its rows, the day and the tax rate. */
  datatype Context = Context(priceList: Option<string>, tiers: seq<PriceListItem>, day: int, taxRate: real)

  datatype PriceSource = FromPriceList | FromCatalogue | Unavailable

  datatype OrderItem = OrderItem(
    productId: int, sku: string, name: string, qty: real, unitPrice: real, tax: real, lineTotal: real)

  datatype PricedOrder = PricedOrder(subtotal: real, taxTotal: real, items: seq<OrderItem>)

  datatype PreviewItem = PreviewItem(productId: int, qty: real, unitPrice: real, source: PriceSource)

  datatype PreviewedOrder = PreviewedOrder(
    items: seq<PreviewItem>, subtotal: real, taxTotal: real, grandTotal: real)

  datatype PricingError =
    | ProductNotFound(productId: int)
    | PriceChanged(sku: string, resolved: real)
    | NoPrice(sku: string)
    | NoUnitPrice(productId: int)

  type Catalogue = map<int, Product>

  predicate AllKnown(products: Catalogue, lines: seq<CartLine>) {
    forall l :: l in lines ==> l.productId in products
  }

  /** `loadProducts`: the first line naming an unknown product is reported. */
  function LoadProducts(products: Catalogue, lines: seq<CartLine>): (r: Option<PricingError>)
    ensures r.None? <==> AllKnown(products, lines)
    ensures r.Some? ==> exists l :: l in lines && l.productId !in products && r.value == ProductNotFound(l.productId)
  {
    if lines == [] then None
    else if lines[0].productId !in products then Some(ProductNotFound(lines[0].productId))
    else LoadProducts(products, lines[1..])
  }

  /** The price list wins where it covers the product; the catalogue price is the fallback. */
  function TryResolveUnitPrice(ctx: Context, product: Product, qty: real): Option<(real, PriceSource)> {
    var tier := if ctx.priceList.Some?
      then TryResolveApplicablePrice(ctx.tiers, Request(ctx.priceList.value, product.id, qty, ctx.day))
      else None;
    if tier.Some? then Some((tier.value.price, FromPriceList))
    else if product.price.Some? then Some((product.price.value, FromCatalogue))
    else None
  }

  /** A list is in force and has a row for that product, quantity and day. */
  ghost predicate IsCovered(ctx: Context, productId: int, qty: real) {
    ctx.priceList.Some? && exists i :: i in ctx.tiers && Applies(i, ctx.priceList.value, productId, qty, ctx.day)
  }

  /** What a product costs: the first applicable tier where the list covers it, and the catalogue price elsewhere. */
  ghost predicate IsItsPrice(ctx: Context, product: Product, qty: real, price: real, source: PriceSource) {
    if IsCovered(ctx, product.id, qty) then
      && source == FromPriceList
      && exists i :: IsTier(ctx.tiers, ctx.priceList.value, product.id, qty, ctx.day, i) && price == i.price
    else source == FromCatalogue && product.price == Some(price)
  }

  ghost predicate HasNoPrice(ctx: Context, product: Product, qty: real) {
    !IsCovered(ctx, product.id, qty) && product.price == None
  }

  /** The list wins and the catalogue is the fallback; a price is missing only where both are silent. */
  lemma ResolvedIsItsPrice(ctx: Context, product: Product, qty: real)
    ensures match TryResolveUnitPrice(ctx, product, qty)
            case Some((price, source)) => IsItsPrice(ctx, product, qty, price, source)
            case None => HasNoPrice(ctx, product, qty)
  {
    if ctx.priceList.Some? {
      ResolvedIsTier(ctx.tiers, ctx.priceList.value, product.id, qty, ctx.day);
    }
  }

  function Resolve(ctx: Context, products: Catalogue, line: CartLine): Option<(real, PriceSource)>
    requires line.productId in products
  {
    TryResolveUnitPrice(ctx, products[line.productId], line.qty)
  }

  function NameOf(p: Product): string {
    match p.name
    case Some(n) => n
    case None => p.sku
  }

  /** An order item freezes the product's SKU and name beside the line's money. */
  function ItemFor(line: CartLine, product: Product, unitPrice: real, tax: real, lineTotal: real): OrderItem {
    OrderItem(line.productId, product.sku, NameOf(product), line.qty, unitPrice, tax, lineTotal)
  }

  /** What is wrong with one line when an order is created from it. */
  function LineError(ctx: Context, products: Catalogue, line: CartLine): Option<PricingError>
    requires line.productId in products
  {
    var resolved := Resolve(ctx, products, line);
    if resolved.None? then Some(NoPrice(products[line.productId].sku))
    else if line.unitPrice.Some? && !QuotedPriceMatches(line.unitPrice.value, resolved.value.0)
      then Some(PriceChanged(products[line.productId].sku, resolved.value.0))
    else None
  }

  /** A line nothing is wrong with, priced. */
  function Priced(ctx: Context, products: Catalogue, line: CartLine): PricedLine
    requires line.productId in products && Resolve(ctx, products, line).Some?
  {
    PriceLine(line.qty, Resolve(ctx, products, line).value.0, ctx.taxRate)
  }

  /** The order a cart becomes, by exact sums; the first bad line decides the error. */
  function CreatedOrder(ctx: Context, products: Catalogue, lines: seq<CartLine>): Result<PricedOrder, PricingError>
    requires AllKnown(products, lines)
  {
    if |lines| == 0 then Success(PricedOrder(0.0, 0.0, []))
    else
      var line := lines[|lines| - 1];
      match CreatedOrder(ctx, products, lines[..|lines| - 1])
      case Failure(e) => Failure(e)
      case Success(o) =>
        match LineError(ctx, products, line)
        case Some(e) => Failure(e)
        case None =>
          var p := Priced(ctx, products, line);
          var unitPrice := Resolve(ctx, products, line).value.0;
          Success(PricedOrder(o.subtotal + p.net, o.taxTotal + p.tax,
                              o.items + [ItemFor(line, products[line.productId], unitPrice, p.tax, p.lineTotal)]))
  }

  /** What a cart is shown as, by exact sums; an unpriceable line is listed and adds nothing. */
  function ShownOrder(ctx: Context, products: Catalogue, lines: seq<CartLine>): PreviewedOrder
    requires AllKnown(products, lines)
  {
    if |lines| == 0 then PreviewedOrder([], 0.0, 0.0, 0.0)
    else
      var line := lines[|lines| - 1];
      var o := ShownOrder(ctx, products, lines[..|lines| - 1]);
      match Resolve(ctx, products, line)
      case None =>
        o.(items := o.items + [PreviewItem(line.productId, line.qty, 0.0, Unavailable)])
      case Some((price, source)) =>
        var p := Priced(ctx, products, line);
        PreviewedOrder(o.items + [PreviewItem(line.productId, line.qty, price, source)],
                       o.subtotal + p.net, o.taxTotal + p.tax, o.grandTotal + p.net + p.tax)
  }

  lemma {:induction false} ShownInCents(ctx: Context, products: Catalogue, lines: seq<CartLine>)
    requires AllKnown(products, lines)
    ensures var o := ShownOrder(ctx, products, lines);
            && IsCents(o.subtotal) && IsCents(o.taxTotal)
            && o.grandTotal == o.subtotal + o.taxTotal
            && o.grandTotal == OrderGrandTotal(o.subtotal, o.taxTotal, 0.0, 0.0)
  {
    FromCents(0);
    if |lines| > 0 {
      var init, line := lines[..|lines| - 1], lines[|lines| - 1];
      ShownInCents(ctx, products, init);
      if Resolve(ctx, products, line).Some? {
        PricedInCents(ctx, products, line);
        CentsSum(ShownOrder(ctx, products, init).subtotal, Priced(ctx, products, line).net);
        CentsSum(ShownOrder(ctx, products, init).taxTotal, Priced(ctx, products, line).tax);
      }
    }
    var o := ShownOrder(ctx, products, lines);
    GrandTotalIsExact(o.subtotal, o.taxTotal, 0.0, 0.0);
  }

  lemma PricedInCents(ctx: Context, products: Catalogue, line: CartLine)
    requires line.productId in products && Resolve(ctx, products, line).Some?
    ensures IsPriced(Priced(ctx, products, line), ctx.taxRate)
  {
    LineReconciles(line.qty, Resolve(ctx, products, line).value.0, ctx.taxRate);
  }

  /** `preview`, as the service runs it. */
  method Preview(ctx: Context, products: Catalogue, lines: seq<CartLine>)
    returns (r: Result<PreviewedOrder, PricingError>)
    ensures AllKnown(products, lines) ==> r == Success(ShownOrder(ctx, products, lines))
    ensures !AllKnown(products, lines) ==> r.Failure? && Some(r.error) == LoadProducts(products, lines)
  {
    var missing := LoadProducts(products, lines);
    if missing.Some? {
      return Failure(missing.value);
    }
    var subtotal, taxTotal := 0.0, 0.0;
    var items: seq<PreviewItem> := [];
    FromCents(0);
    for i := 0 to |lines|
      invariant IsCents(subtotal) && IsCents(taxTotal)
      invariant var o := ShownOrder(ctx, products, lines[..i]);
                items == o.items && subtotal == o.subtotal && taxTotal == o.taxTotal
    {
      assert lines[..i + 1][..i] == lines[..i];
      var line := lines[i];
      var resolved := TryResolveUnitPrice(ctx, products[line.productId], line.qty);
      if resolved.None? {
        items := items + [PreviewItem(line.productId, line.qty, 0.0, Unavailable)];
      } else {
        var p := PriceLine(line.qty, resolved.value.0, ctx.taxRate);
        PricedInCents(ctx, products, line);
        RunningTotalIsExact(subtotal, p.net);
        RunningTotalIsExact(taxTotal, p.tax);
        subtotal := Round2(subtotal + p.net);
        taxTotal := Round2(taxTotal + p.tax);
        items := items + [PreviewItem(line.productId, line.qty, resolved.value.0, resolved.value.1)];
      }
    }
    assert lines[..|lines|] == lines;
    ShownInCents(ctx, products, lines);
    return Success(PreviewedOrder(items, subtotal, taxTotal, OrderGrandTotal(subtotal, taxTotal, 0.0, 0.0)));
  }

  /** `priceLines` behind `loadProducts`, as `persist` runs them for an untrusted caller. */
  method PriceLines(ctx: Context, products: Catalogue, lines: seq<CartLine>)
    returns (r: Result<PricedOrder, PricingError>)
    ensures AllKnown(products, lines) ==> r == CreatedOrder(ctx, products, lines)
    ensures !AllKnown(products, lines) ==> r.Failure? && Some(r.error) == LoadProducts(products, lines)
  {
    var missing := LoadProducts(products, lines);
    if missing.Some? {
      return Failure(missing.value);
    }
    var subtotal, taxTotal := 0.0, 0.0;
    var items: seq<OrderItem> := [];
    FromCents(0);
    for i := 0 to |lines|
      invariant IsCents(subtotal) && IsCents(taxTotal)
      invariant CreatedOrder(ctx, products, lines[..i]) == Success(PricedOrder(subtotal, taxTotal, items))
    {
      assert lines[..i + 1][..i] == lines[..i];
      var line := lines[i];
      var product := products[line.productId];
      var resolved := TryResolveUnitPrice(ctx, product, line.qty);
      if resolved.None? {
        FirstErrorDecides(ctx, products, lines, i);
        return Failure(NoPrice(product.sku));
      }
      var unitPrice := resolved.value.0;
      if line.unitPrice.Some? && !QuotedPriceMatches(line.unitPrice.value, unitPrice) {
        FirstErrorDecides(ctx, products, lines, i);
        return Failure(PriceChanged(product.sku, unitPrice));
      }
      var p := PriceLine(line.qty, unitPrice, ctx.taxRate);
      PricedInCents(ctx, products, line);
      RunningTotalIsExact(subtotal, p.net);
      RunningTotalIsExact(taxTotal, p.tax);
      subtotal := Round2(subtotal + p.net);
      taxTotal := Round2(taxTotal + p.tax);
      items := items + [ItemFor(line, product, unitPrice, p.tax, p.lineTotal)];
    }
    assert lines[..|lines|] == lines;
    return Success(PricedOrder(subtotal, taxTotal, items));
  }

  /** The first line with something wrong decides the answer, whatever follows it. */
  lemma {:induction false} FirstErrorDecides(ctx: Context, products: Catalogue, lines: seq<CartLine>, i: nat)
    requires AllKnown(products, lines) && i < |lines|
    requires CreatedOrder(ctx, products, lines[..i]).Success?
    requires LineError(ctx, products, lines[i]).Some?
    ensures CreatedOrder(ctx, products, lines) == Failure(LineError(ctx, products, lines[i]).value)
  {
    var last := |lines| - 1;
    if i < last {
      assert lines[..last][..i] == lines[..i];
      FirstErrorDecides(ctx, products, lines[..last], i);
    }
  }

  /** A cart is accepted exactly when every line is priceable and every claim matches. */
  lemma {:induction false} AcceptedIff(ctx: Context, products: Catalogue, lines: seq<CartLine>)
    requires AllKnown(products, lines)
    ensures CreatedOrder(ctx, products, lines).Success?
            <==> forall l :: l in lines ==> LineError(ctx, products, l).None?
  {
    if |lines| > 0 {
      var init, last := lines[..|lines| - 1], lines[|lines| - 1];
      AcceptedIff(ctx, products, init);
      assert forall l :: l in lines <==> l in init || l == last;
    }
  }

  /** The lines of a cart that a preview could price. */
  function Available(ctx: Context, products: Catalogue, lines: seq<CartLine>): (r: seq<CartLine>)
    requires AllKnown(products, lines)
    ensures AllKnown(products, r)
    ensures forall l :: l in r <==> l in lines && Resolve(ctx, products, l).Some?
  {
    if |lines| == 0 then []
    else
      var init := Available(ctx, products, lines[..|lines| - 1]);
      if Resolve(ctx, products, lines[|lines| - 1]).Some? then init + [lines[|lines| - 1]] else init
  }

  /** Two carts that ask for the same things and differ only in what the caller claims. */
  ghost predicate SameCart(a: seq<CartLine>, b: seq<CartLine>) {
    && |a| == |b|
    && forall i :: 0 <= i < |a| ==> a[i].productId == b[i].productId && a[i].qty == b[i].qty
  }

  /** Claimed prices and taxes decide acceptance only: accepted carts cost what the preview shows. */
  lemma {:induction false} CreateChargesWhatPreviewShows(
      ctx: Context, products: Catalogue, shown: seq<CartLine>, ordered: seq<CartLine>)
    requires AllKnown(products, shown) && SameCart(shown, ordered)
    requires CreatedOrder(ctx, products, ordered).Success?
    ensures var p, o := ShownOrder(ctx, products, shown), CreatedOrder(ctx, products, ordered).value;
            && o.subtotal == p.subtotal
            && o.taxTotal == p.taxTotal
            && OrderGrandTotal(o.subtotal, o.taxTotal, 0.0, 0.0) == p.grandTotal
            && |o.items| == |p.items|
            && forall i :: 0 <= i < |o.items| ==> o.items[i].unitPrice == p.items[i].unitPrice
  {
    if |shown| > 0 {
      var n := |shown| - 1;
      assert shown[n] in shown;
      CreateChargesWhatPreviewShows(ctx, products, shown[..n], ordered[..n]);
    }
    ShownInCents(ctx, products, shown);
  }

  /** A cart whose claims are exactly the previewed prices. */
  ghost predicate ClaimsPreview(p: PreviewedOrder, ordered: seq<CartLine>) {
    && |p.items| == |ordered|
    && forall i :: 0 <= i < |ordered| ==> ordered[i].unitPrice == Some(p.items[i].unitPrice)
  }

  /**
   Sending back the previewed prices is accepted exactly when the preview marked nothing
   unavailable, and is then charged the previewed amounts.
   */
  lemma PreviewedCartIsAccepted(ctx: Context, products: Catalogue, shown: seq<CartLine>, ordered: seq<CartLine>)
    requires AllKnown(products, shown) && SameCart(shown, ordered)
    requires ClaimsPreview(ShownOrder(ctx, products, shown), ordered)
    ensures CreatedOrder(ctx, products, ordered).Success?
            <==> forall i :: i in ShownOrder(ctx, products, shown).items ==> i.source != Unavailable
  {
    var items := ShownOrder(ctx, products, shown).items;
    ShownIsResolved(ctx, products, shown);
    AcceptedIff(ctx, products, ordered);
    forall i | 0 <= i < |shown|
      ensures LineError(ctx, products, ordered[i]).None? <==> items[i].source != Unavailable
    {
      Round2OfZero();
      assert Resolve(ctx, products, ordered[i]) == Resolve(ctx, products, shown[i]);
    }
    if forall i :: i in items ==> i.source != Unavailable {
      forall l | l in ordered ensures LineError(ctx, products, l).None? {
        var i :| 0 <= i < |ordered| && ordered[i] == l;
        assert items[i] in items;
      }
    } else {
      var item :| item in items && item.source == Unavailable;
      var i :| 0 <= i < |items| && items[i] == item;
      assert ordered[i] in ordered;
    }
  }

  lemma Round2OfZero()
    ensures Round2(Abs(0.0)) == 0.0
  {
    FromCents(0);
    Round2OfCents(0.0);
  }

  /** What a preview says of each line: its own price and where it is from, or that it has none. */
  lemma ShownItem(ctx: Context, products: Catalogue, lines: seq<CartLine>, i: nat)
    requires AllKnown(products, lines) && i < |lines|
    ensures var shown, product := ShownOrder(ctx, products, lines).items, products[lines[i].productId];
            && |shown| == |lines| && shown[i].productId == lines[i].productId && shown[i].qty == lines[i].qty
            && if shown[i].source == Unavailable then HasNoPrice(ctx, product, lines[i].qty) && shown[i].unitPrice == 0.0
               else IsItsPrice(ctx, product, lines[i].qty, shown[i].unitPrice, shown[i].source)
  {
    ShownIsResolved(ctx, products, lines);
    ResolvedIsItsPrice(ctx, products[lines[i].productId], lines[i].qty);
  }

  lemma {:induction false} ShownIsResolved(ctx: Context, products: Catalogue, lines: seq<CartLine>)
    requires AllKnown(products, lines)
    ensures |ShownOrder(ctx, products, lines).items| == |lines|
    ensures forall i :: 0 <= i < |lines| ==>
              ShownOrder(ctx, products, lines).items[i] ==
              match Resolve(ctx, products, lines[i])
              case Some((price, source)) => PreviewItem(lines[i].productId, lines[i].qty, price, source)
              case None => PreviewItem(lines[i].productId, lines[i].qty, 0.0, Unavailable)
  {
    if |lines| > 0 {
      ShownIsResolved(ctx, products, lines[..|lines| - 1]);
    }
  }

  /** What an accepted order has of each line: the frozen product, its own price, and the money of `PriceLine`. */
  ghost predicate IsOrdered(ctx: Context, product: Product, line: CartLine, item: OrderItem) {
    && item.productId == line.productId && item.qty == line.qty
    && item.sku == product.sku && (if product.name.Some? then item.name == product.name.value else item.name == product.sku)
    && (exists source :: IsItsPrice(ctx, product, line.qty, item.unitPrice, source))
    && (line.unitPrice.Some? ==> Abs(line.unitPrice.value - item.unitPrice) < 0.015)
    && IsPricedAt(line.qty, item.unitPrice, ctx.taxRate, item.lineTotal - item.tax, item.tax)
  }

  lemma OrderedItem(ctx: Context, products: Catalogue, lines: seq<CartLine>, i: nat)
    requires AllKnown(products, lines) && CreatedOrder(ctx, products, lines).Success? && i < |lines|
    ensures var items := CreatedOrder(ctx, products, lines).value.items;
            |items| == |lines| && IsOrdered(ctx, products[lines[i].productId], lines[i], items[i])
  {
    CreatedItem(ctx, products, lines, i);
    LineIsOrdered(ctx, products, lines[i]);
  }

  lemma {:induction false} CreatedItem(ctx: Context, products: Catalogue, lines: seq<CartLine>, i: nat)
    requires AllKnown(products, lines) && CreatedOrder(ctx, products, lines).Success? && i < |lines|
    ensures LineError(ctx, products, lines[i]) == None
    ensures var items, p := CreatedOrder(ctx, products, lines).value.items, Priced(ctx, products, lines[i]);
            && |items| == |lines|
            && items[i] == ItemFor(lines[i], products[lines[i].productId], Resolve(ctx, products, lines[i]).value.0, p.tax, p.lineTotal)
  {
    var init := lines[..|lines| - 1];
    if i < |init| {
      CreatedItem(ctx, products, init, i);
      assert init[i] == lines[i];
    } else if i > 0 {
      CreatedItem(ctx, products, init, i - 1);
    }
  }

  lemma LineIsOrdered(ctx: Context, products: Catalogue, line: CartLine)
    requires line.productId in products && LineError(ctx, products, line) == None
    ensures var p, unitPrice := Priced(ctx, products, line), Resolve(ctx, products, line).value.0;
            IsOrdered(ctx, products[line.productId], line,
                      ItemFor(line, products[line.productId], unitPrice, p.tax, p.lineTotal))
  {
    var (unitPrice, source) := Resolve(ctx, products, line).value;
    ResolvedIsItsPrice(ctx, products[line.productId], line.qty);
    LineReconciles(line.qty, unitPrice, ctx.taxRate);
    if line.unitPrice.Some? {
      QuotedPriceMatchesIff(line.unitPrice.value, unitPrice);
    }
  }

  /** The preview's totals are those of the cart without its unavailable lines. */
  lemma {:induction false} PreviewSkipsUnavailable(ctx: Context, products: Catalogue, lines: seq<CartLine>)
    requires AllKnown(products, lines)
    ensures var all, rest := ShownOrder(ctx, products, lines), ShownOrder(ctx, products, Available(ctx, products, lines));
            all.subtotal == rest.subtotal && all.taxTotal == rest.taxTotal && all.grandTotal == rest.grandTotal
  {
    if |lines| > 0 {
      var init, last := lines[..|lines| - 1], lines[|lines| - 1];
      PreviewSkipsUnavailable(ctx, products, init);
      if Resolve(ctx, products, last).Some? {
        var rest := Available(ctx, products, lines);
        assert rest[..|rest| - 1] == Available(ctx, products, init);
      }
    }
  }

  /** The priced lines behind an accepted cart, for the laws about sums of lines. */
  function PricedCart(ctx: Context, products: Catalogue, lines: seq<CartLine>): (r: seq<PricedLine>)
    requires AllKnown(products, lines) && forall l :: l in lines ==> Resolve(ctx, products, l).Some?
    ensures |r| == |lines| && forall i :: 0 <= i < |r| ==> r[i] == Priced(ctx, products, lines[i])
  {
    seq(|lines|, i requires 0 <= i < |lines| => assert lines[i] in lines; Priced(ctx, products, lines[i]))
  }

  /** Total of the stored line totals. */
  function SumLineTotals(items: seq<OrderItem>): real {
    if |items| == 0 then 0.0 else SumLineTotals(items[..|items| - 1]) + items[|items| - 1].lineTotal
  }

  /**
   The three stored totals of an accepted order reconcile with its lines to the cent, and its tax is
   the rate on the subtotal to within half a cent a line.
   */
  lemma {:induction false} CreatedOrderReconciles(ctx: Context, products: Catalogue, lines: seq<CartLine>)
    requires AllKnown(products, lines) && CreatedOrder(ctx, products, lines).Success?
    ensures var o := CreatedOrder(ctx, products, lines).value;
            && SumLineTotals(o.items) == o.subtotal + o.taxTotal
            && OrderGrandTotal(o.subtotal, o.taxTotal, 0.0, 0.0) == o.subtotal + o.taxTotal
            && Abs(o.taxTotal - Times(o.subtotal, ctx.taxRate)) <= |lines| as real * 0.005
  {
    AcceptedIff(ctx, products, lines);
    var priced := PricedCart(ctx, products, lines);
    forall l | l in priced ensures IsPriced(l, ctx.taxRate) {
      var i :| 0 <= i < |priced| && priced[i] == l;
      PricedInCents(ctx, products, lines[i]);
    }
    CreatedSums(ctx, products, lines);
    CreatedLineTotals(ctx, products, lines);
    CartReconciles(priced, ctx.taxRate);
    TaxDriftIsBounded(priced, ctx.taxRate);
  }

  lemma {:induction false} CreatedSums(ctx: Context, products: Catalogue, lines: seq<CartLine>)
    requires AllKnown(products, lines) && CreatedOrder(ctx, products, lines).Success?
    requires forall l :: l in lines ==> Resolve(ctx, products, l).Some?
    ensures var o, priced := CreatedOrder(ctx, products, lines).value, PricedCart(ctx, products, lines);
            o.subtotal == SumNet(priced) && o.taxTotal == SumTax(priced)
  {
    if |lines| > 0 {
      var init := lines[..|lines| - 1];
      CreatedSums(ctx, products, init);
      var priced := PricedCart(ctx, products, lines);
      assert priced[..|priced| - 1] == PricedCart(ctx, products, init);
    }
  }

  lemma {:induction false} CreatedLineTotals(ctx: Context, products: Catalogue, lines: seq<CartLine>)
    requires AllKnown(products, lines) && CreatedOrder(ctx, products, lines).Success?
    requires forall l :: l in lines ==> Resolve(ctx, products, l).Some?
    ensures SumLineTotals(CreatedOrder(ctx, products, lines).value.items) == SumTotal(PricedCart(ctx, products, lines))
  {
    if |lines| > 0 {
      var init := lines[..|lines| - 1];
      CreatedLineTotals(ctx, products, init);
      var priced := PricedCart(ctx, products, lines);
      assert priced[..|priced| - 1] == PricedCart(ctx, products, init);
      var items := CreatedOrder(ctx, products, lines).value.items;
      assert items[..|items| - 1] == CreatedOrder(ctx, products, init).value.items;
    }
  }

  /** Net and tax of a line whose price was settled before: `tax ?? 0`, both rounded. */
  function SnapshotNet(line: CartLine): real
    requires line.unitPrice.Some?
  {
    Round2(Times(line.qty, line.unitPrice.value))
  }

  function SnapshotTax(line: CartLine): real {
    Round2(if line.tax.Some? then line.tax.value else 0.0)
  }

  /** The order a trusted caller's lines become, by exact sums. */
  function SnapshotOrder(products: Catalogue, lines: seq<CartLine>): Result<PricedOrder, PricingError>
    requires AllKnown(products, lines)
  {
    if |lines| == 0 then Success(PricedOrder(0.0, 0.0, []))
    else
      var line := lines[|lines| - 1];
      match SnapshotOrder(products, lines[..|lines| - 1])
      case Failure(e) => Failure(e)
      case Success(o) =>
        if line.unitPrice.None? then Failure(NoUnitPrice(line.productId))
        else
          var net, tax := SnapshotNet(line), SnapshotTax(line);
          Success(PricedOrder(o.subtotal + net, o.taxTotal + tax,
                              o.items + [ItemFor(line, products[line.productId], line.unitPrice.value, tax, net + tax)]))
  }

  /** `snapshotLines` behind `loadProducts`, as `persist` runs them for a converted quote. */
  method SnapshotLines(products: Catalogue, lines: seq<CartLine>) returns (r: Result<PricedOrder, PricingError>)
    ensures AllKnown(products, lines) ==> r == SnapshotOrder(products, lines)
    ensures !AllKnown(products, lines) ==> r.Failure? && Some(r.error) == LoadProducts(products, lines)
  {
    var missing := LoadProducts(products, lines);
    if missing.Some? {
      return Failure(missing.value);
    }
    var subtotal, taxTotal := 0.0, 0.0;
    var items: seq<OrderItem> := [];
    FromCents(0);
    for i := 0 to |lines|
      invariant IsCents(subtotal) && IsCents(taxTotal)
      invariant SnapshotOrder(products, lines[..i]) == Success(PricedOrder(subtotal, taxTotal, items))
    {
      assert lines[..i + 1][..i] == lines[..i];
      var line := lines[i];
      if line.unitPrice.None? {
        MissingPriceDecides(products, lines, i);
        return Failure(NoUnitPrice(line.productId));
      }
      var net := Round2(Times(line.qty, line.unitPrice.value));
      var tax := Round2(if line.tax.Some? then line.tax.value else 0.0);
      SnapshotInCents(line);
      RunningTotalIsExact(subtotal, net);
      RunningTotalIsExact(taxTotal, tax);
      RunningTotalIsExact(net, tax);
      subtotal := Round2(subtotal + net);
      taxTotal := Round2(taxTotal + tax);
      items := items + [ItemFor(line, products[line.productId], line.unitPrice.value, tax, Round2(net + tax))];
    }
    assert lines[..|lines|] == lines;
    return Success(PricedOrder(subtotal, taxTotal, items));
  }

  lemma SnapshotInCents(line: CartLine)
    requires line.unitPrice.Some?
    ensures IsCents(SnapshotNet(line)) && IsCents(SnapshotTax(line))
  {
    Round2IsCents(Times(line.qty, line.unitPrice.value));
    Round2IsCents(if line.tax.Some? then line.tax.value else 0.0);
  }

  lemma {:induction false} MissingPriceDecides(products: Catalogue, lines: seq<CartLine>, i: nat)
    requires AllKnown(products, lines) && i < |lines|
    requires SnapshotOrder(products, lines[..i]).Success? && lines[i].unitPrice.None?
    ensures SnapshotOrder(products, lines) == Failure(NoUnitPrice(lines[i].productId))
  {
    var last := |lines| - 1;
    if i < last {
      assert lines[..last][..i] == lines[..i];
      MissingPriceDecides(products, lines[..last], i);
    }
  }
  lemma {:induction false} SnapshotItem(products: Catalogue, lines: seq<CartLine>, i: nat)
    requires AllKnown(products, lines) && SnapshotOrder(products, lines).Success? && i < |lines|
    ensures lines[i].unitPrice.Some?
    ensures var items, line := SnapshotOrder(products, lines).value.items, lines[i];
            && |items| == |lines|
            && items[i] == ItemFor(line, products[line.productId], line.unitPrice.value, SnapshotTax(line),
                                   SnapshotNet(line) + SnapshotTax(line))
  {
    var n := |lines| - 1;
    if i < n {
      SnapshotItem(products, lines[..n], i);
      assert lines[..n][i] == lines[i];
    } else if n > 0 {
      SnapshotItem(products, lines[..n], n - 1);
    }
  }

  /**
   What an order keeps of a line whose price was settled before: the frozen product, that price, and to the nearest
   cent its net and the tax it states, nothing if it states none.
   */
  ghost predicate IsSettled(product: Product, line: CartLine, item: OrderItem) {
    && item.productId == line.productId && item.qty == line.qty && item.sku == product.sku
    && (if product.name.Some? then item.name == product.name.value else item.name == product.sku)
    && line.unitPrice == Some(item.unitPrice)
    && IsRoundedToCents(Times(line.qty, item.unitPrice), item.lineTotal - item.tax)
    && (if line.tax.Some? then IsRoundedToCents(line.tax.value, item.tax) else item.tax == 0.0)
  }

  lemma SettledItem(products: Catalogue, lines: seq<CartLine>, i: nat)
    requires AllKnown(products, lines) && SnapshotOrder(products, lines).Success? && i < |lines|
    ensures var items := SnapshotOrder(products, lines).value.items;
            |items| == |lines| && IsSettled(products[lines[i].productId], lines[i], items[i])
  {
    SnapshotItem(products, lines, i);
    LineIsSettled(products[lines[i].productId], lines[i]);
  }

  lemma LineIsSettled(product: Product, line: CartLine)
    requires line.unitPrice.Some?
    ensures IsSettled(product, line, ItemFor(line, product, line.unitPrice.value, SnapshotTax(line), SnapshotNet(line) + SnapshotTax(line)))
  {
    var net, tax := SnapshotNet(line), SnapshotTax(line);
    NetIsNearest(line);
    TaxIsNearest(line);
    assert (net + tax) - tax == net;
  }

  lemma NetIsNearest(line: CartLine)
    requires line.unitPrice.Some?
    ensures IsRoundedToCents(Times(line.qty, line.unitPrice.value), SnapshotNet(line))
  {
    Round2IsNearest(Times(line.qty, line.unitPrice.value));
  }

  lemma TaxIsNearest(line: CartLine)
    ensures if line.tax.Some? then IsRoundedToCents(line.tax.value, SnapshotTax(line)) else SnapshotTax(line) == 0.0
  {
    if line.tax.Some? {
      Round2IsNearest(line.tax.value);
    } else {
      FromCents(0);
      Round2OfCents(0.0);
    }
  }
}
