/**
 The calls of `Payments` in the columns of the tables: under which circumstances each of them does something,
 and what. Statuses, event kinds and keys are written out as the tables hold them.
 */
module PaymentRules {
  import opened Wrappers
  import opened Money
  import opened OrderPricing
  import opened Payments
  import opened ChargeSafety

  /** Some checkout of the order is in a status in which the provider may still charge it. */
  predicate IsChargeable(t: Tables, orderId: nat) {
    exists i :: 0 <= i < |t.checkouts| && t.checkouts[i].orderId == orderId
      && t.checkouts[i].status !in {"succeeded", "confirmed", "expired", "failed"}
  }

  predicate IsTaken(t: Tables, polarCheckoutId: string) {
    exists i :: 0 <= i < |t.checkouts| && t.checkouts[i].polarCheckoutId == polarCheckoutId
  }

  lemma LiveIsChargeable(t: Tables, orderId: nat)
    ensures HasLive(t, orderId) <==> IsChargeable(t, orderId)
  {
    if i :| 0 <= i < |t.checkouts| && IsLive(t.checkouts[i], orderId) {
      assert t.checkouts[i].orderId == orderId;
    }
    if i :| 0 <= i < |t.checkouts| && t.checkouts[i].orderId == orderId
            && t.checkouts[i].status !in {"succeeded", "confirmed", "expired", "failed"} {
      assert IsLive(t.checkouts[i], orderId);
    }
  }

  /** A new order is pending, with the total of its net and tax and without freight, discount, rates or checkouts. */
  lemma PlacesOrder(t: Tables, subtotal: real, taxTotal: real)
    ensures var u := Next(t, Place(subtotal, taxTotal));
            && |u.orders| == |t.orders| + 1 && u == t.(orders := u.orders) && u.orders[..|t.orders|] == t.orders
            && var o := u.orders[|t.orders|];
               && o.subtotal == subtotal && o.taxTotal == taxTotal && o.shippingTotal == 0.0 && o.discountTotal == 0.0
               && IsRoundedToCents(subtotal + taxTotal, o.grandTotal)
               && o.paymentStatus == "pending" && o.offered == [] && o.rate == None && o.shippingQuotedAt == None
  {
    Round2IsNearest(subtotal + taxTotal);
  }

  /**
   A call opens a checkout if and only if the order exists with a positive total, is not paid, has its freight
   accepted and nothing that may still be charged, and the provider's id is new. It adds that checkout, for the
   order's total, and changes nothing else.
   */
  lemma OpensIff(t: Tables, orderId: nat, polarCheckoutId: string, status: string)
    ensures var u := Next(t, Open(orderId, polarCheckoutId, status));
            if && orderId < |t.orders| && t.orders[orderId].grandTotal > 0.0 && t.orders[orderId].paymentStatus != "paid"
               && t.orders[orderId].shippingQuotedAt != None
               && !IsChargeable(t, orderId) && !IsTaken(t, polarCheckoutId)
            then
              && |u.checkouts| == |t.checkouts| + 1 && u == t.(checkouts := u.checkouts)
              && u.checkouts[..|t.checkouts|] == t.checkouts
              && var c := u.checkouts[|t.checkouts|];
                 && c.orderId == orderId && c.polarCheckoutId == polarCheckoutId && c.polarOrderId == None
                 && c.status == status && c.amount == t.orders[orderId].grandTotal
                 && Abs(c.cents as real - 100.0 * c.amount) <= 0.5
            else u == t
  {
    LiveIsChargeable(t, orderId);
  }

  /** A refusal names its cause. */
  lemma RefusalIsTrue(t: Tables, orderId: nat, polarCheckoutId: string)
    ensures match OpenError(t, orderId, polarCheckoutId)
            case None => true
            case Some(OrderNotFound) => orderId >= |t.orders|
            case Some(NothingToCharge) => orderId < |t.orders| && t.orders[orderId].grandTotal <= 0.0
            case Some(AlreadyPaid) => orderId < |t.orders| && t.orders[orderId].paymentStatus == "paid"
            case Some(ShippingNotQuoted) => orderId < |t.orders| && t.orders[orderId].shippingQuotedAt == None
            case Some(OpenCheckoutExists) => IsChargeable(t, orderId)
            case Some(DuplicateCheckoutId) => IsTaken(t, polarCheckoutId)
            case Some(_) => false
  {
    LiveIsChargeable(t, orderId);
  }

  /** A paid order is not charged again, whatever the provider would answer. */
  lemma PaidIsNotCharged(t: Tables, orderId: nat, polarCheckoutId: string, status: string)
    requires orderId < |t.orders| && t.orders[orderId].paymentStatus == "paid"
    ensures Next(t, Open(orderId, polarCheckoutId, status)) == t
  {
    OpensIff(t, orderId, polarCheckoutId, status);
  }

  /** No refund of the order is among the deliveries. */
  predicate NoRefund(steps: seq<Step>, orderId: nat) {
    forall i :: 0 <= i < |steps| && steps[i].Deliver? ==>
      !(steps[i].event.kind == "order.refunded" && steps[i].event.orderId == Some(orderId))
  }

  lemma PaidStep(t: Tables, orderId: nat, step: Step)
    requires orderId < |t.orders| && t.orders[orderId].paymentStatus == "paid" && NoRefund([step], orderId)
    ensures var u := Next(t, step);
            && orderId < |u.orders| && u.orders[orderId] == t.orders[orderId]
            && |t.checkouts| <= |u.checkouts|
            && forall i :: |t.checkouts| <= i < |u.checkouts| ==> u.checkouts[i].orderId != orderId
  {
    assert [step][0] == step;
    match step
    case Open(id, polarId, status) => OpensIff(t, id, polarId, status);
    case _ =>
  }

  /**
   Over any run, permitted or not, a paid order stays as it is until a refund of it arrives: its money, its
   freight and its status do not change, and no checkout is opened for it.
   */
  lemma {:induction false} PaidStaysAsItIs(t: Tables, orderId: nat, steps: seq<Step>)
    requires orderId < |t.orders| && t.orders[orderId].paymentStatus == "paid" && NoRefund(steps, orderId)
    ensures var u := Run(t, steps);
            && orderId < |u.orders| && u.orders[orderId] == t.orders[orderId]
            && |t.checkouts| <= |u.checkouts|
            && forall i :: |t.checkouts| <= i < |u.checkouts| ==> u.checkouts[i].orderId != orderId
    decreases |steps|
  {
    if |steps| > 0 {
      var next := Next(t, steps[0]);
      assert NoRefund([steps[0]], orderId);
      PaidStep(t, orderId, steps[0]);
      PaidStaysAsItIs(next, orderId, steps[1..]);
      OrderOfCheckoutIsKept(next, steps[1..]);
    }
  }

  /** Checkouts are never removed, and none moves to another order. */
  lemma {:induction false} OrderOfCheckoutIsKept(t: Tables, steps: seq<Step>)
    ensures var u := Run(t, steps);
            |t.checkouts| <= |u.checkouts| && forall i :: 0 <= i < |t.checkouts| ==> u.checkouts[i].orderId == t.checkouts[i].orderId
    decreases |steps|
  {
    if |steps| > 0 {
      assert forall i :: 0 <= i < |t.checkouts| ==> Next(t, steps[0]).checkouts[i].orderId == t.checkouts[i].orderId;
      OrderOfCheckoutIsKept(Next(t, steps[0]), steps[1..]);
    }
  }

  /**
   An offered rate is accepted if and only if the order exists, is not paid, has nothing that may still be charged
   and the rate with that id is on offer. Its freight is then that rate's amount in cents.
   */
  lemma SelectsIff(t: Tables, orderId: nat, rateId: string, now: int)
    ensures var u := Next(t, Select(orderId, rateId, now));
            if && orderId < |t.orders| && t.orders[orderId].paymentStatus != "paid" && !IsChargeable(t, orderId)
               && exists r :: r in t.orders[orderId].offered && r.rateId == rateId
            then
              && |u.orders| == |t.orders| && u == t.(orders := u.orders)
              && u.orders == t.orders[orderId := u.orders[orderId]]
              && var o, o' := t.orders[orderId], u.orders[orderId];
                 && o'.rate.Some? && o'.rate.value in o.offered && o'.rate.value.rateId == rateId
                 && IsRoundedToCents(o'.rate.value.amount, o'.shippingTotal) && o'.shippingQuotedAt == Some(now)
                 && IsRoundedToCents(o.subtotal + o.taxTotal + o'.shippingTotal - o.discountTotal, o'.grandTotal)
                 && o'.subtotal == o.subtotal && o'.taxTotal == o.taxTotal && o'.discountTotal == o.discountTotal
                 && o'.paymentStatus == o.paymentStatus && o'.offered == o.offered
            else u == t
  {
    LiveIsChargeable(t, orderId);
    if SelectError(t, orderId, rateId).None? {
      var o := t.orders[orderId];
      var amount := Chosen(o.offered, rateId).value.amount;
      Round2IsNearest(amount);
      Round2IsNearest(o.subtotal + o.taxTotal + Round2(amount) - o.discountTotal);
    }
  }

  /** New rates are stored if and only if the order exists, is not paid, nothing may be charged and some rate has a price. */
  lemma QuotesIff(t: Tables, orderId: nat, rates: seq<RateAnswer>)
    ensures var u := Next(t, Quote(orderId, rates));
            if && orderId < |t.orders| && t.orders[orderId].paymentStatus != "paid" && !IsChargeable(t, orderId)
               && exists r :: r in rates && r.amount.Some? && r.amount.value > 0.0
            then
              && |u.orders| == |t.orders| && u.orders == t.orders[orderId := t.orders[orderId].(offered := u.orders[orderId].offered)]
              && u == t.(orders := u.orders)
              && forall r :: r in u.orders[orderId].offered
                             <==> RateAnswer(r.rateId, r.carrier, Some(r.amount)) in rates && r.amount > 0.0
            else u == t
  {
    LiveIsChargeable(t, orderId);
    if r :| r in rates && r.amount.Some? && r.amount.value > 0.0 {
      assert Rate(r.rateId, r.carrier, r.amount.value) in Priced(rates);
    }
    if Priced(rates) != [] {
      var r := Priced(rates)[0];
      assert r in Priced(rates);
      assert RateAnswer(r.rateId, r.carrier, Some(r.amount)) in rates;
    }
  }

  // Webhooks.

  /**
   Two deliveries are the same event if and only if kind and id agree, for kinds without a colon. The four that
   the service handles are of that sort.
   */
  lemma SameEventIff(a: Event, b: Event)
    requires ':' !in a.kind && ':' !in b.kind
    ensures Key(a) == Key(b) <==> a.kind == b.kind && a.id == b.id
    ensures forall kind :: kind in {"order.paid", "order.refunded", "checkout.expired", "checkout.updated"} ==> ':' !in kind
  {
    KindEnds(a);
    KindEnds(b);
    if Key(a) == Key(b) {
      assert a.kind == Key(a)[..|a.kind|] && b.kind == Key(b)[..|b.kind|];
      assert a.id == Key(a)[|a.kind| + 1..] && b.id == Key(b)[|b.kind| + 1..];
    }
  }

  /** The kind of a key ends at its first colon. */
  lemma KindEnds(e: Event)
    requires ':' !in e.kind
    ensures |e.kind| < |Key(e)| && Key(e)[|e.kind|] == ':' && forall i :: 0 <= i < |e.kind| ==> Key(e)[i] != ':'
  {
    assert forall i :: 0 <= i < |e.kind| ==> Key(e)[i] == e.kind[i];
  }

  /** The first refund of an order marks it refunded and does nothing else to the tables. */
  lemma RefundTakesEffect(t: Tables, e: Event)
    requires e.kind == "order.refunded" && ("order.refunded" + ":" + e.id) !in t.webhooks
    requires e.orderId.Some? && e.orderId.value < |t.orders|
    ensures var u, id := Next(t, Deliver(e, false)), e.orderId.value;
            && u.orders == t.orders[id := t.orders[id].(paymentStatus := "refunded")]
            && u.checkouts == t.checkouts && u.payments == t.payments
            && u.webhooks == t.webhooks + {"order.refunded:" + e.id}
  {
    assert "order.refunded" + ":" == "order.refunded:";
  }

  /**
   The first payment of an order marks it paid and is recorded under its reference, unless one is already: with the
   amount it states in cents, or the order's total if it states none.
   */
  lemma PaymentTakesEffect(t: Tables, e: Event)
    requires e.kind == "order.paid" && ("order.paid" + ":" + e.id) !in t.webhooks
    requires e.orderId.Some? && e.orderId.value < |t.orders|
    ensures var u, id := Next(t, Deliver(e, false)), e.orderId.value;
            && u.orders == t.orders[id := t.orders[id].(paymentStatus := "paid")]
            && u.webhooks == t.webhooks + {"order.paid:" + e.id}
            && if exists i :: 0 <= i < |t.payments| && t.payments[i].orderId == id && t.payments[i].transactionRef == e.id
               then u.payments == t.payments
               else
                 && |u.payments| == |t.payments| + 1 && u.payments[..|t.payments|] == t.payments
                 && var p := u.payments[|t.payments|];
                    && p.orderId == id && p.transactionRef == e.id
                    && if e.totalAmount in {None, Some(0)} then p.amount == t.orders[id].grandTotal
                       else p.amount * 100.0 == e.totalAmount.value as real
  {
    assert "order.paid" + ":" == "order.paid:";
  }

  /** A payment that names a known checkout closes that one and touches no other. */
  lemma NamedCheckoutIsClosed(t: Tables, e: Event, j: nat)
    requires e.kind == "order.paid" && ("order.paid" + ":" + e.id) !in t.webhooks
    requires e.orderId.Some? && e.orderId.value < |t.orders|
    requires j < |t.checkouts| && e.checkoutId == Some(t.checkouts[j].polarCheckoutId) && e.checkoutId != Some("")
    requires forall i :: 0 <= i < |t.checkouts| && i != j ==> t.checkouts[i].polarCheckoutId != t.checkouts[j].polarCheckoutId
    ensures Next(t, Deliver(e, false)).checkouts
            == t.checkouts[j := t.checkouts[j].(polarOrderId := Some(e.id), status := "succeeded")]
  {
  }

  /** One that names none, or one that is not known, closes the order's last checkout, if it has any. */
  lemma LastCheckoutIsClosed(t: Tables, e: Event)
    requires e.kind == "order.paid" && ("order.paid" + ":" + e.id) !in t.webhooks
    requires e.orderId.Some? && e.orderId.value < |t.orders|
    requires e.checkoutId in {None, Some("")} || !IsTaken(t, e.checkoutId.value)
    ensures var u, id := Next(t, Deliver(e, false)), e.orderId.value;
            && |u.checkouts| == |t.checkouts|
            && forall i :: 0 <= i < |t.checkouts| ==>
                 u.checkouts[i] == if t.checkouts[i].orderId == id && forall k :: i < k < |t.checkouts| ==> t.checkouts[k].orderId != id
                                   then t.checkouts[i].(polarOrderId := Some(e.id), status := "succeeded")
                                   else t.checkouts[i]
  {
  }

  /** The first news of a checkout sets its status, and nothing else. */
  lemma NewsTakesEffect(t: Tables, e: Event, j: nat)
    requires e.kind in {"checkout.expired", "checkout.updated"} && (e.kind + ":" + e.id) !in t.webhooks
    requires j < |t.checkouts| && t.checkouts[j].polarCheckoutId == e.id
    requires forall i :: 0 <= i < |t.checkouts| && i != j ==> t.checkouts[i].polarCheckoutId != e.id
    ensures var u := Next(t, Deliver(e, false));
            && u.checkouts == t.checkouts[j := t.checkouts[j].(status := if e.kind == "checkout.expired" then "expired" else "open")]
            && u.orders == t.orders && u.payments == t.payments && u.webhooks == t.webhooks + {e.kind + ":" + e.id}
  {
  }

  /** A repeat, by kind and id, changes nothing. */
  lemma RepeatIsIgnored(t: Tables, e: Event, throws: bool)
    requires (e.kind + ":" + e.id) in t.webhooks
    ensures Next(t, Deliver(e, throws)) == t
  {
  }
  /**
   An order can be paid: placed, quoted, with a rate accepted and a checkout opened, it is charged once, for its net,
   its tax and that freight to the cent, and a payment of that closes the checkout and marks the order paid.
   */
  lemma OrderIsPaid(subtotal: real, taxTotal: real, rate: Rate, now: int, polarCheckoutId: string, payment: string)
    returns (order: Order, cents: int)
    requires IsCents(subtotal) && IsCents(taxTotal) && subtotal >= 0.0 && taxTotal >= 0.0 && rate.amount >= 0.01
    requires polarCheckoutId != ""
    ensures order.grandTotal == subtotal + taxTotal + Round2(rate.amount) && cents as real == 100.0 * order.grandTotal
    ensures Run(EMPTY, [Place(subtotal, taxTotal), Quote(0, [RateAnswer(rate.rateId, rate.carrier, Some(rate.amount))]),
                        Select(0, rate.rateId, now), Open(0, polarCheckoutId, "open")])
            == Tables([order], [Checkout(0, polarCheckoutId, None, "open", order.grandTotal, cents)], [], {})
    ensures Next(Tables([order], [Checkout(0, polarCheckoutId, None, "open", order.grandTotal, cents)], [], {}),
                 Deliver(Event("order.paid", payment, Some(0), Some(polarCheckoutId), None), false))
            == Tables([order.(paymentStatus := "paid")],
                      [Checkout(0, polarCheckoutId, Some(payment), "succeeded", order.grandTotal, cents)],
                      [Payment(0, order.grandTotal, payment)], {"order.paid" + ":" + payment})
  {
    var answer := RateAnswer(rate.rateId, rate.carrier, Some(rate.amount));
    RunsFour(EMPTY, Place(subtotal, taxTotal), Quote(0, [answer]), Select(0, rate.rateId, now), Open(0, polarCheckoutId, "open"));
    order := WithFreight(NewOrder(subtotal, taxTotal).(offered := [rate]), rate, now);
    cents := AmountCents(order.grandTotal);
    FreightAddsUp(subtotal, taxTotal, rate, now, order);
    RateIsAccepted(subtotal, taxTotal, rate, now);
    assert Selected(Quoted(Placed(EMPTY, subtotal, taxTotal), 0, [answer]), 0, rate.rateId, now) == Tables([order], [], [], {});
    assert Opened(Tables([order], [], [], {}), 0, polarCheckoutId, "open")
           == Tables([order], [Checkout(0, polarCheckoutId, None, "open", order.grandTotal, cents)], [], {});
    CheckoutIsSettled(order, polarCheckoutId, cents, payment);
  }

  lemma RateIsAccepted(subtotal: real, taxTotal: real, rate: Rate, now: int)
    requires rate.amount >= 0.01
    ensures var answer, order := RateAnswer(rate.rateId, rate.carrier, Some(rate.amount)), NewOrder(subtotal, taxTotal);
            Selected(Quoted(Placed(EMPTY, subtotal, taxTotal), 0, [answer]), 0, rate.rateId, now)
            == Tables([WithFreight(order.(offered := [rate]), rate, now)], [], [], {})
  {
    var answer := RateAnswer(rate.rateId, rate.carrier, Some(rate.amount));
    assert [answer][..0] == [];
    assert Priced([answer]) == [rate];
  }

  lemma FreightAddsUp(subtotal: real, taxTotal: real, rate: Rate, now: int, order: Order)
    requires IsCents(subtotal) && IsCents(taxTotal) && subtotal >= 0.0 && taxTotal >= 0.0 && rate.amount >= 0.01
    requires order == WithFreight(NewOrder(subtotal, taxTotal).(offered := [rate]), rate, now)
    ensures order.grandTotal == subtotal + taxTotal + Round2(rate.amount) && order.grandTotal > 0.0
    ensures AmountCents(order.grandTotal) as real == 100.0 * order.grandTotal
  {
    FreightIsPositive(rate.amount);
    FromCents(0);
    Round2IsCents(rate.amount);
    GrandTotalIsExact(subtotal, taxTotal, Round2(rate.amount), 0.0);
    AmountCentsIsExact(order.grandTotal);
  }

  lemma CheckoutIsSettled(order: Order, polarCheckoutId: string, cents: int, payment: string)
    requires polarCheckoutId != ""
    ensures Next(Tables([order], [Checkout(0, polarCheckoutId, None, "open", order.grandTotal, cents)], [], {}),
                 Deliver(Event("order.paid", payment, Some(0), Some(polarCheckoutId), None), false))
            == Tables([order.(paymentStatus := "paid")],
                      [Checkout(0, polarCheckoutId, Some(payment), "succeeded", order.grandTotal, cents)],
                      [Payment(0, order.grandTotal, payment)], {"order.paid" + ":" + payment})
  {
    var c := Checkout(0, polarCheckoutId, None, "open", order.grandTotal, cents);
    assert Find([c], polarCheckoutId) == Some(0);
  }

  lemma FreightIsPositive(amount: real)
    requires amount >= 0.01
    ensures Round2(amount) >= 0.01
  {
    FromCents(1);
    Round2OfCents(0.01);
    Round2Monotone(0.01, amount);
  }

  lemma RunsFour(t: Tables, a: Step, b: Step, c: Step, d: Step)
    ensures Run(t, [a, b, c, d]) == Next(Next(Next(Next(t, a), b), c), d)
  {
    assert [a, b, c, d][1..] == [b, c, d] && [b, c, d][1..] == [c, d] && [c, d][1..] == [d] && [d][1..] == [];
    var t1 := Next(t, a);
    var t2 := Next(t1, b);
    var t3 := Next(t2, c);
    assert Run(t3, [d]) == Run(Next(t3, d), []);
    assert Run(t2, [c, d]) == Run(t3, [d]);
    assert Run(t1, [b, c, d]) == Run(t2, [c, d]);
  }
}
