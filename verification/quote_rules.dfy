/**
 The steps of `QuoteConversion` in the columns of the tables: under which circumstances each of them does something,
 and what. Statuses, limits and dates are written out.
 */
module QuoteRules {
  import opened Wrappers
  import opened Money
  import opened CartPricing
  import opened QuoteItems
  import opened QuoteConversion

  /** Writing a quote line rounds every amount to two decimals. */
  lemma StoredItem(item: QuoteItem)
    ensures var stored := Stored(item);
            && stored.productId == item.productId && stored.priceListItemId == item.priceListItemId
            && IsRoundedToCents(item.qty, stored.qty) && IsRoundedToCents(item.listPrice, stored.listPrice)
            && IsRoundedToCents(item.discountPct, stored.discountPct) && IsRoundedToCents(item.unitPrice, stored.unitPrice)
            && IsRoundedToCents(item.tax, stored.tax) && IsRoundedToCents(item.lineTotal, stored.lineTotal)
  {
    Round2IsNearest(item.qty);
    Round2IsNearest(item.listPrice);
    Round2IsNearest(item.discountPct);
    Round2IsNearest(item.unitPrice);
    Round2IsNearest(item.tax);
    Round2IsNearest(item.lineTotal);
  }

  /** The order line of a quote line has its product, and its quantity, price and tax as they are stored. */
  lemma OrderedLine(items: seq<QuoteItem>, i: nat)
    requires i < |items|
    ensures |OrderLines(items)| == |items|
    ensures var l, stored := OrderLines(items)[i], Stored(items[i]);
            l.productId == items[i].productId && l.qty == stored.qty
            && l.unitPrice == Some(stored.unitPrice) && l.tax == Some(stored.tax)
  {
  }

  /**
   What can become an order: it has a customer account, and every line a quantity of at least a hundredth and
   neither price nor tax below zero.
   */
  lemma ValidPayloadIff(q: Quote)
    ensures IsValidPayload(q)
            <==> && q.customer != None
                 && forall i :: 0 <= i < |q.items| ==>
                      var stored := Stored(q.items[i]);
                      stored.qty * 100.0 >= 1.0 && !(stored.unitPrice < 0.0) && !(stored.tax < 0.0)
  {
    var lines := OrderLines(q.items);
    forall i | 0 <= i < |q.items| ensures lines[i] in lines && lines[i] == OrderLine(Stored(q.items[i])) {
    }
    if q.customer.Some? && !IsValidPayload(q) {
      var l :| l in lines && !IsValidLine(l);
      var i :| 0 <= i < |lines| && lines[i] == l;
    }
  }

  /** A new quote is a draft under an id that was not used before. */
  lemma AuthorsDraft(s: State, validUntil: int, customer: Option<int>, items: seq<QuoteItem>)
    ensures var t := Next(s, Author(validUntil, customer, items));
            && t.quotes == s.quotes[s.nextId := Quote(Draft, validUntil, customer, items, None)]
            && t == s.(quotes := t.quotes, nextId := t.nextId) && t.nextId > s.nextId
  {
  }

  /** A quote is edited if and only if it is a draft; only its date and its lines change. */
  lemma EditsIff(s: State, q: nat, validUntil: int, items: seq<QuoteItem>)
    ensures var t := Next(s, Edit(q, validUntil, items));
            if q in s.quotes && s.quotes[q].status == Draft then
              && t == s.(quotes := t.quotes) && t.quotes == s.quotes[q := t.quotes[q]]
              && t.quotes[q] == Quote(Draft, validUntil, s.quotes[q].customer, items, s.quotes[q].convertedOrderId)
            else t == s
  {
  }

  /** A draft is sent, whatever its date, and what it says then is what was sent. */
  lemma SendsIff(s: State, q: nat, now: int)
    ensures var t := Next(s, Move(q, Send, now));
            if q in s.quotes && s.quotes[q].status == Draft then
              && t == s.(quotes := s.quotes[q := t.quotes[q]], sentItems := s.sentItems[q := s.quotes[q].items])
              && t.quotes[q] == s.quotes[q].(status := Sent)
            else t == s
  {
  }

  /** A sent quote is approved or rejected up to its date and not after it. */
  lemma AnswersIff(s: State, q: nat, approve: bool, now: int)
    ensures var t := Next(s, Move(q, if approve then Approve else Reject, now));
            if q in s.quotes && s.quotes[q].status == Sent && now <= s.quotes[q].validUntil then
              && t == s.(quotes := s.quotes[q := t.quotes[q]])
              && t.quotes[q] == s.quotes[q].(status := if approve then Approved else Rejected)
            else t == s
  {
  }

  /** A quote without a customer gets one, and one that has a customer keeps it. */
  lemma LinksIff(s: State, q: nat, customer: int)
    ensures var t := Next(s, Link(q, customer));
            if q in s.quotes && s.quotes[q].customer == None
            then t == s.(quotes := s.quotes[q := t.quotes[q]]) && t.quotes[q] == s.quotes[q].(customer := Some(customer))
            else t == s
  {
  }

  lemma RemovesIff(s: State, q: nat)
    ensures var t := Next(s, Remove(q));
            if q in s.quotes && s.quotes[q].status == Draft
            then t == s.(quotes := t.quotes) && q !in t.quotes && forall r :: r != q ==> Same(s, t, r)
            else t == s
  {
  }

  /** A claim takes effect on an approved quote only; every other call ends with nothing written. */
  lemma ClaimsIff(s: State, c: nat)
    requires c < |s.calls| && s.calls[c].Loaded?
    ensures var t, q, seen := Next(s, Claim(c)), s.calls[c].quoteId, s.calls[c].seen;
            if q in s.quotes && s.quotes[q].status == Approved then
              && t == s.(quotes := s.quotes[q := t.quotes[q]], calls := s.calls[c := Claimed(q, seen)])
              && t.quotes[q] == s.quotes[q].(status := Converted)
            else t == s.(calls := s.calls[c := Ended])
  {
  }

  /**
   A claimed call makes an order if and only if what it had read is a valid payload of products the catalogue has:
   for the customer and with the lines it had read. Otherwise the call ends and the quote stays converted.
   */
  lemma SubmitsIff(s: State, c: nat, products: Catalogue)
    requires c < |s.calls| && s.calls[c].Claimed?
    ensures var t, q, seen := Next(s, Submit(c, products)), s.calls[c].quoteId, s.calls[c].seen;
            var lines := OrderLines(seen.items);
            if IsValidPayload(seen) && forall l :: l in lines ==> l.productId in products then
              && |t.orders| == |s.orders| + 1 && t.orders[..|s.orders|] == s.orders
              && t == s.(orders := t.orders, calls := s.calls[c := Created(q, |s.orders|)])
              && var o := t.orders[|s.orders|];
                 && o.origin == q && o.call == c && o.loadedAs == seen.status && Some(o.customer) == seen.customer && o.lines == lines
                 && SnapshotOrder(products, lines) == Success(o.priced)
            else t == s.(calls := s.calls[c := Ended])
  {
    if IsValidPayload(s.calls[c].seen) && AllKnown(products, OrderLines(s.calls[c].seen.items)) {
      SnapshotSucceeds(products, OrderLines(s.calls[c].seen.items));
    }
  }

  /** The last step writes the order's id to the quote and ends the call. */
  lemma RecordsOrder(s: State, c: nat)
    requires c < |s.calls| && s.calls[c].Created?
    ensures var t, q, id := Next(s, Record(c)), s.calls[c].quoteId, s.calls[c].orderId;
            && t == s.(quotes := t.quotes, calls := s.calls[c := Ended])
            && if q in s.quotes then t.quotes == s.quotes[q := s.quotes[q].(convertedOrderId := Some(id))] else t.quotes == s.quotes
  {
  }

  /**
   A conversion left alone: from an approved quote with a valid payload of known products it makes one order of the
   quote's lines for its customer and leaves the quote converted, with that order's id.
   */
  lemma ConversionLeavesOrder(s: State, q: nat, products: Catalogue)
    requires q in s.quotes && s.quotes[q].status == Approved && IsValidPayload(s.quotes[q])
    requires forall l :: l in OrderLines(s.quotes[q].items) ==> l.productId in products
    ensures var t := Run(s, ConvertSteps(q, |s.calls|, products));
            && |t.orders| == |s.orders| + 1 && t.orders[..|s.orders|] == s.orders
            && t.orders[|s.orders|].origin == q && t.orders[|s.orders|].lines == OrderLines(s.quotes[q].items)
            && Some(t.orders[|s.orders|].customer) == s.quotes[q].customer
            && t.quotes == s.quotes[q := s.quotes[q].(status := Converted, convertedOrderId := Some(|s.orders|))]
            && t.calls == s.calls + [Ended]
  {
    ConvertRun(s, q, |s.calls|, products);
    SnapshotSucceeds(products, OrderLines(s.quotes[q].items));
  }
  /** A call that loads a quote has read it as it is, and one that stops for good does nothing any more. */
  lemma LoadsAndStops(s: State, q: nat, c: nat)
    ensures q in s.quotes ==> Next(s, Load(q)) == s.(calls := s.calls + [Loaded(q, s.quotes[q])])
    ensures c < |s.calls| ==> Next(s, QuoteConversion.Crash(c)) == s.(calls := s.calls[c := Ended])
  {
  }

  /** A quote can become an order: written for a customer, sent, approved by its date and converted, it has one. */
  lemma QuoteBecomesOrder(validUntil: int, customer: int, items: seq<QuoteItem>, products: Catalogue, now: int)
    requires now <= validUntil && IsValidPayload(Quote(Draft, validUntil, Some(customer), items, None))
    requires forall l :: l in OrderLines(items) ==> l.productId in products
    ensures var t := Run(Run(START, [Author(validUntil, Some(customer), items), Move(0, Send, now), Move(0, Approve, now)]),
                         ConvertSteps(0, 0, products));
            && |t.orders| == 1 && t.orders[0].customer == customer && t.orders[0].lines == OrderLines(items)
            && 0 in t.quotes && t.quotes[0] == Quote(Converted, validUntil, Some(customer), items, Some(0))
  {
    var author, send, approve := Author(validUntil, Some(customer), items), Move(0, Send, now), Move(0, Approve, now);
    assert [author, send, approve][1..] == [send, approve] && [send, approve][1..] == [approve] && [approve][1..] == [];
    var s1 := Next(START, author);
    var s2 := Next(s1, send);
    var s3 := Next(s2, approve);
    assert Run(s2, [approve]) == Run(s3, []);
    assert Run(s1, [send, approve]) == Run(s2, [approve]);
    assert Run(START, [author, send, approve]) == Run(s1, [send, approve]);
    ConversionLeavesOrder(s3, 0, products);
  }
}
