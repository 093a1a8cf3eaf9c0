/**
 Charging an order: the freight selection of shipping-quote.service.ts, the checkout of
 polar-checkout.service.ts, the webhooks of polar-webhook.service.ts and `insertIfNew`. They share the
 orders, checkouts, payments and webhook tables, so those are one value here. Every call is one step.
 */
module Payments {
  import opened Wrappers
  import opened Money
  import opened OrderPricing

  /** A rate as the freight provider answers it; the amount may be missing. */
  datatype RateAnswer = RateAnswer(rateId: string, carrier: string, amount: Option<real>)

  datatype Rate = Rate(rateId: string, carrier: string, amount: real)

  /** The columns of an order that pricing and payment read and write; `rate` is the rate accepted last. */
  datatype Order = Order(
    subtotal: real, taxTotal: real, shippingTotal: real, discountTotal: real, grandTotal: real,
    paymentStatus: string, offered: seq<Rate>, rate: Option<Rate>, shippingQuotedAt: Option<int>)

  /** A checkout; `cents` records what the provider was told to charge. */
  datatype Checkout = Checkout(
    orderId: nat, polarCheckoutId: string, polarOrderId: Option<string>, status: string, amount: real, cents: int)

  datatype Payment = Payment(orderId: nat, amount: real, transactionRef: string)

  /** Checkouts and payments are in order of creation, and an order's id is its position. */
  datatype Tables = Tables(
    orders: seq<Order>, checkouts: seq<Checkout>, payments: seq<Payment>, webhooks: set<string>)

  datatype PaymentError =
    | OrderNotFound
    | NothingToCharge
    | AlreadyPaid
    | ShippingNotQuoted
    | OpenCheckoutExists
    | RateNotOffered
    | NoShippingCoverage
    | DuplicateCheckoutId

  predicate IsTerminal(status: string) {
    status in {"succeeded", "confirmed", "expired", "failed"}
  }

  predicate IsLive(c: Checkout, orderId: nat) {
    c.orderId == orderId && !IsTerminal(c.status)
  }

  predicate HasLive(t: Tables, orderId: nat) {
    exists i :: 0 <= i < |t.checkouts| && IsLive(t.checkouts[i], orderId)
  }

  /** The live checkout of an order created last. */
  function LastLive(checkouts: seq<Checkout>, orderId: nat): (r: Option<Checkout>)
    ensures r.Some? <==> exists i :: 0 <= i < |checkouts| && IsLive(checkouts[i], orderId)
    ensures r.Some? ==> r.value in checkouts && IsLive(r.value, orderId)
  {
    if |checkouts| == 0 then None
    else if IsLive(checkouts[|checkouts| - 1], orderId) then Some(checkouts[|checkouts| - 1])
    else
      assert forall i :: 0 <= i < |checkouts| - 1 ==> checkouts[..|checkouts| - 1][i] == checkouts[i];
      LastLive(checkouts[..|checkouts| - 1], orderId)
  }

  /** An order as `persist` writes it: freight not known yet. */
  function NewOrder(subtotal: real, taxTotal: real): Order {
    Order(subtotal, taxTotal, 0.0, 0.0, OrderGrandTotal(subtotal, taxTotal, 0.0, 0.0), "pending", [], None, None)
  }

  function Placed(t: Tables, subtotal: real, taxTotal: real): Tables {
    t.(orders := t.orders + [NewOrder(subtotal, taxTotal)])
  }

  // Freight.

  /** Rates that name a positive amount, in the order they came. */
  function Priced(rates: seq<RateAnswer>): (priced: seq<Rate>)
    ensures forall r :: r in priced <==> RateAnswer(r.rateId, r.carrier, Some(r.amount)) in rates && r.amount > 0.0
  {
    if |rates| == 0 then []
    else
      var init, last := Priced(rates[..|rates| - 1]), rates[|rates| - 1];
      if last.amount.Some? && last.amount.value > 0.0
      then init + [Rate(last.rateId, last.carrier, last.amount.value)]
      else init
  }

  /** The rates kept are in the order they came. */
  lemma {:induction false} PricedInOrder(a: seq<RateAnswer>, b: seq<RateAnswer>)
    ensures Priced(a + b) == Priced(a) + Priced(b)
  {
    if |b| == 0 {
      assert a + b == a;
    } else {
      assert (a + b)[..|a + b| - 1] == a + b[..|b| - 1];
      PricedInOrder(a, b[..|b| - 1]);
    }
  }

  function RepriceError(t: Tables, orderId: nat): Option<PaymentError> {
    if orderId >= |t.orders| then Some(OrderNotFound)
    else if t.orders[orderId].paymentStatus == "paid" then Some(AlreadyPaid)
    else if HasLive(t, orderId) then Some(OpenCheckoutExists)
    else None
  }

  function QuoteError(t: Tables, orderId: nat, rates: seq<RateAnswer>): Option<PaymentError> {
    if RepriceError(t, orderId).Some? then RepriceError(t, orderId)
    else if Priced(rates) == [] then Some(NoShippingCoverage)
    else None
  }

  /** Quoting replaces the rates on offer and nothing else: a rate accepted before stays accepted. */
  function Quoted(t: Tables, orderId: nat, rates: seq<RateAnswer>): Tables {
    if QuoteError(t, orderId, rates).Some? then t
    else t.(orders := t.orders[orderId := t.orders[orderId].(offered := Priced(rates))])
  }

  /** The first offered rate with the chosen id. */
  function Chosen(offered: seq<Rate>, rateId: string): (r: Option<Rate>)
    ensures r.Some? ==> r.value in offered && r.value.rateId == rateId
    ensures r.None? ==> forall o :: o in offered ==> o.rateId != rateId
  {
    if |offered| == 0 then None
    else if offered[0].rateId == rateId then Some(offered[0])
    else Chosen(offered[1..], rateId)
  }

  /** It is the first one with that id. */
  lemma {:induction false} ChosenIsFirst(offered: seq<Rate>, rateId: string, i: nat)
    requires i < |offered| && offered[i].rateId == rateId && forall j :: 0 <= j < i ==> offered[j].rateId != rateId
    ensures Chosen(offered, rateId) == Some(offered[i])
  {
    if i > 0 {
      ChosenIsFirst(offered[1..], rateId, i - 1);
    }
  }

  function SelectError(t: Tables, orderId: nat, rateId: string): Option<PaymentError> {
    if RepriceError(t, orderId).Some? then RepriceError(t, orderId)
    else if Chosen(t.orders[orderId].offered, rateId).None? then Some(RateNotOffered)
    else None
  }

  function WithFreight(o: Order, rate: Rate, now: int): Order {
    o.(rate := Some(rate), shippingTotal := Round2(rate.amount), shippingQuotedAt := Some(now),
       grandTotal := OrderGrandTotal(o.subtotal, o.taxTotal, Round2(rate.amount), o.discountTotal))
  }

  function Selected(t: Tables, orderId: nat, rateId: string, now: int): Tables {
    if SelectError(t, orderId, rateId).Some? then t
    else
      var o := t.orders[orderId];
      t.(orders := t.orders[orderId := WithFreight(o, Chosen(o.offered, rateId).value, now)])
  }

  // Opening a checkout.

  /** `Math.round`, half up. */
  function MathRound(x: real): int {
    (x + 0.5).Floor
  }

  function AmountCents(amount: real): int {
    MathRound(amount * 100.0)
  }

  function ChargeError(t: Tables, orderId: nat): Option<PaymentError> {
    if orderId >= |t.orders| then Some(OrderNotFound)
    else
      var o := t.orders[orderId];
      if o.grandTotal <= 0.0 then Some(NothingToCharge)
      else if o.paymentStatus == "paid" then Some(AlreadyPaid)
      else if o.shippingQuotedAt.None? then Some(ShippingNotQuoted)
      else if HasLive(t, orderId) then Some(OpenCheckoutExists)
      else None
  }

  predicate IsKnownCheckout(t: Tables, polarCheckoutId: string) {
    exists i :: 0 <= i < |t.checkouts| && t.checkouts[i].polarCheckoutId == polarCheckoutId
  }

  /** The provider's checkout id is unique in the table. */
  function OpenError(t: Tables, orderId: nat, polarCheckoutId: string): Option<PaymentError> {
    if ChargeError(t, orderId).Some? then ChargeError(t, orderId)
    else if IsKnownCheckout(t, polarCheckoutId) then Some(DuplicateCheckoutId)
    else None
  }

  function CheckoutFor(t: Tables, orderId: nat, polarCheckoutId: string, status: string): Checkout
    requires orderId < |t.orders|
  {
    var total := t.orders[orderId].grandTotal;
    Checkout(orderId, polarCheckoutId, None, status, total, AmountCents(total))
  }

  function Opened(t: Tables, orderId: nat, polarCheckoutId: string, status: string): Tables {
    if OpenError(t, orderId, polarCheckoutId).Some? then t
    else t.(checkouts := t.checkouts + [CheckoutFor(t, orderId, polarCheckoutId, status)])
  }

  // Webhooks.

  datatype Event = Event(
    kind: string, id: string, orderId: Option<nat>, checkoutId: Option<string>, totalAmount: Option<int>)

  function Key(e: Event): string {
    e.kind + ":" + e.id
  }

  /** The row of a unique checkout id. */
  function Find(checkouts: seq<Checkout>, polarCheckoutId: string): (r: Option<nat>)
    ensures r.Some? ==> r.value < |checkouts| && checkouts[r.value].polarCheckoutId == polarCheckoutId
    ensures r.None? <==> forall i :: 0 <= i < |checkouts| ==> checkouts[i].polarCheckoutId != polarCheckoutId
  {
    if |checkouts| == 0 then None
    else if checkouts[|checkouts| - 1].polarCheckoutId == polarCheckoutId then Some(|checkouts| - 1)
    else Find(checkouts[..|checkouts| - 1], polarCheckoutId)
  }

  /** The order's checkout created last. */
  function Latest(checkouts: seq<Checkout>, orderId: nat): (r: Option<nat>)
    ensures r.Some? ==> r.value < |checkouts| && checkouts[r.value].orderId == orderId
    ensures r.Some? ==> forall i :: r.value < i < |checkouts| ==> checkouts[i].orderId != orderId
    ensures r.None? <==> forall i :: 0 <= i < |checkouts| ==> checkouts[i].orderId != orderId
  {
    if |checkouts| == 0 then None
    else if checkouts[|checkouts| - 1].orderId == orderId then Some(|checkouts| - 1)
    else Latest(checkouts[..|checkouts| - 1], orderId)
  }

  /** The checkout a payment settles: the one the event names, whatever its order, or else the order's last. */
  function PaidCheckout(t: Tables, orderId: nat, checkoutId: Option<string>): (r: Option<nat>)
    ensures r.Some? ==> r.value < |t.checkouts|
  {
    var named := if checkoutId.Some? && checkoutId.value != "" then Find(t.checkouts, checkoutId.value) else None;
    if named.Some? then named else Latest(t.checkouts, orderId)
  }

  predicate IsRecorded(t: Tables, orderId: nat, transactionRef: string) {
    exists i :: 0 <= i < |t.payments| && t.payments[i].orderId == orderId && t.payments[i].transactionRef == transactionRef
  }

  /** `amount || order.grandTotal`: a missing or zero amount stands for the order's total. */
  function PaidAmount(o: Order, totalAmount: Option<int>): real {
    if totalAmount.Some? && totalAmount.value != 0 then totalAmount.value as real / 100.0 else o.grandTotal
  }

  function Paid(t: Tables, e: Event): Tables {
    if e.orderId.None? || e.orderId.value >= |t.orders| then t
    else
      var id := e.orderId.value;
      var o := t.orders[id];
      var target := PaidCheckout(t, id, e.checkoutId);
      t.(orders := t.orders[id := o.(paymentStatus := "paid")],
         checkouts := if target.None? then t.checkouts
                      else t.checkouts[target.value :=
                        t.checkouts[target.value].(polarOrderId := Some(e.id), status := "succeeded")],
         payments := if IsRecorded(t, id, e.id) then t.payments
                     else t.payments + [Payment(id, PaidAmount(o, e.totalAmount), e.id)])
  }

  function Refunded(t: Tables, e: Event): Tables {
    if e.orderId.None? || e.orderId.value >= |t.orders| then t
    else t.(orders := t.orders[e.orderId.value := t.orders[e.orderId.value].(paymentStatus := "refunded")])
  }

  function StatusSet(t: Tables, polarCheckoutId: string, status: string): Tables {
    match Find(t.checkouts, polarCheckoutId)
    case None => t
    case Some(i) => t.(checkouts := t.checkouts[i := t.checkouts[i].(status := status)])
  }

  /** What the handler of an event does to the tables; other kinds are only recorded. */
  function Handled(t: Tables, e: Event): Tables {
    if e.kind == "order.paid" then Paid(t, e)
    else if e.kind == "order.refunded" then Refunded(t, e)
    else if e.kind == "checkout.expired" then StatusSet(t, e.id, "expired")
    else if e.kind == "checkout.updated" then StatusSet(t, e.id, "open")
    else t
  }

  /**
   One delivery. The key is kept before the handler runs, so a handler that throws, which saves nothing,
   leaves the key behind.
   */
  function Delivered(t: Tables, e: Event, throws: bool): Tables {
    if Key(e) in t.webhooks then t
    else
      var noted := t.(webhooks := t.webhooks + {Key(e)});
      if throws then noted else Handled(noted, e)
  }

  // The services, over one database.

  class Database {
    var orders: seq<Order>
    var checkouts: seq<Checkout>
    var payments: seq<Payment>
    var webhooks: set<string>

    function State(): Tables
      reads this
    {
      Tables(orders, checkouts, payments, webhooks)
    }

    constructor ()
      ensures State() == Tables([], [], [], {})
    {
      orders, checkouts, payments, webhooks := [], [], [], {};
    }

    /** `insertIfNew` on the webhook table: the row goes in exactly when its key was not there. */
    method InsertIfNew(key: string) returns (isNew: bool)
      modifies `webhooks
      ensures isNew <==> key !in old(webhooks)
      ensures webhooks == old(webhooks) + {key}
    {
      isNew := key !in webhooks;
      if isNew {
        webhooks := webhooks + {key};
      }
    }

    /** The query for a checkout of the order that can still be charged. */
    method FindOpen(orderId: nat) returns (found: Option<Checkout>)
      ensures found.Some? <==> HasLive(State(), orderId)
      ensures found.Some? ==> found.value in checkouts && IsLive(found.value, orderId)
    {
      found := LastLive(checkouts, orderId);
    }
  }

  class ShippingQuoteService {
    const db: Database

    constructor (db: Database)
      ensures this.db == db
    {
      this.db := db;
    }

    method AssertRepriceable(orderId: nat) returns (error: Option<PaymentError>)
      ensures error == RepriceError(db.State(), orderId)
    {
      if orderId >= |db.orders| {
        return Some(OrderNotFound);
      }
      if db.orders[orderId].paymentStatus == "paid" {
        return Some(AlreadyPaid);
      }
      var open := db.FindOpen(orderId);
      return if open.Some? then Some(OpenCheckoutExists) else None;
    }

    /** The storing part of `quoteForOrder`; `answer` is what the provider said. */
    method QuoteForOrder(orderId: nat, answer: seq<RateAnswer>) returns (r: Result<seq<Rate>, PaymentError>)
      modifies db`orders
      ensures db.State() == Quoted(old(db.State()), orderId, answer)
      ensures r == match QuoteError(old(db.State()), orderId, answer)
                   case Some(e) => Failure(e)
                   case None => Success(Priced(answer))
    {
      var error := AssertRepriceable(orderId);
      if error.Some? {
        return Failure(error.value);
      }
      var priced := Priced(answer);
      if |priced| == 0 {
        return Failure(NoShippingCoverage);
      }
      db.orders := db.orders[orderId := db.orders[orderId].(offered := priced)];
      return Success(priced);
    }

    method SelectRate(orderId: nat, rateId: string, now: int) returns (r: Result<Order, PaymentError>)
      modifies db`orders
      ensures db.State() == Selected(old(db.State()), orderId, rateId, now)
      ensures r == match SelectError(old(db.State()), orderId, rateId)
                   case Some(e) => Failure(e)
                   case None => Success(db.orders[orderId])
    {
      var error := AssertRepriceable(orderId);
      if error.Some? {
        return Failure(error.value);
      }
      var order := db.orders[orderId];
      var rate := Chosen(order.offered, rateId);
      if rate.None? {
        return Failure(RateNotOffered);
      }
      order := order.(rate := Some(rate.value), shippingTotal := Round2(rate.value.amount), shippingQuotedAt := Some(now));
      order := order.(grandTotal := OrderGrandTotal(order.subtotal, order.taxTotal, order.shippingTotal, order.discountTotal));
      db.orders := db.orders[orderId := order];
      return Success(order);
    }
  }

  class PolarCheckoutService {
    const db: Database

    constructor (db: Database)
      ensures this.db == db
    {
      this.db := db;
    }

    method CheckChargeable(orderId: nat) returns (error: Option<PaymentError>)
      ensures error == ChargeError(db.State(), orderId)
    {
      if orderId >= |db.orders| {
        return Some(OrderNotFound);
      }
      var order := db.orders[orderId];
      if order.grandTotal <= 0.0 {
        return Some(NothingToCharge);
      }
      if order.paymentStatus == "paid" {
        return Some(AlreadyPaid);
      }
      if order.shippingQuotedAt.None? {
        return Some(ShippingNotQuoted);
      }
      var open := db.FindOpen(orderId);
      return if open.Some? then Some(OpenCheckoutExists) else None;
    }

    /** `polarCheckoutId` and `status` are the provider's answer to the charge of `cents`. */
    method CreateForOrder(orderId: nat, polarCheckoutId: string, status: string)
      returns (r: Result<Checkout, PaymentError>)
      modifies db`checkouts
      ensures db.State() == Opened(old(db.State()), orderId, polarCheckoutId, status)
      ensures r == match OpenError(old(db.State()), orderId, polarCheckoutId)
                   case Some(e) => Failure(e)
                   case None => Success(CheckoutFor(old(db.State()), orderId, polarCheckoutId, status))
    {
      var error := CheckChargeable(orderId);
      if error.Some? {
        return Failure(error.value);
      }
      var order := db.orders[orderId];
      var cents := MathRound(order.grandTotal * 100.0);
      if IsKnownCheckout(db.State(), polarCheckoutId) {
        return Failure(DuplicateCheckoutId);
      }
      var checkout := Checkout(orderId, polarCheckoutId, None, status, order.grandTotal, cents);
      db.checkouts := db.checkouts + [checkout];
      return Success(checkout);
    }
  }

  class PolarWebhookService {
    const db: Database

    constructor (db: Database)
      ensures this.db == db
    {
      this.db := db;
    }

    /** One delivery whose handler does not throw. */
    method Handle(e: Event)
      modifies db
      ensures db.State() == Delivered(old(db.State()), e, false)
    {
      var isNew := db.InsertIfNew(Key(e));
      if !isNew {
        assert db.webhooks == old(db.webhooks);
        return;
      }
      if e.kind == "order.paid" {
        HandleOrderPaid(e);
      } else if e.kind == "order.refunded" {
        HandleOrderRefunded(e);
      } else if e.kind == "checkout.updated" || e.kind == "checkout.expired" {
        HandleCheckoutStatus(e);
      }
    }

    method HandleOrderPaid(e: Event)
      modifies db`orders, db`checkouts, db`payments
      ensures db.State() == Paid(old(db.State()), e)
    {
      if e.orderId.None? || e.orderId.value >= |db.orders| {
        return;
      }
      var id := e.orderId.value;
      var order := db.orders[id];
      if order.paymentStatus != "paid" {
        db.orders := db.orders[id := order.(paymentStatus := "paid")];
      }
      var found: Option<nat> := None;
      if e.checkoutId.Some? && e.checkoutId.value != "" {
        found := Find(db.checkouts, e.checkoutId.value);
      }
      if found.None? {
        found := Latest(db.checkouts, id);
      }
      if found.Some? {
        var checkout := db.checkouts[found.value].(polarOrderId := Some(e.id), status := "succeeded");
        db.checkouts := db.checkouts[found.value := checkout];
      }
      if !IsRecorded(db.State(), id, e.id) {
        db.payments := db.payments + [Payment(id, PaidAmount(order, e.totalAmount), e.id)];
      }
    }

    method HandleOrderRefunded(e: Event)
      modifies db`orders
      ensures db.State() == Refunded(old(db.State()), e)
    {
      if e.orderId.None? || e.orderId.value >= |db.orders| {
        return;
      }
      var id := e.orderId.value;
      db.orders := db.orders[id := db.orders[id].(paymentStatus := "refunded")];
    }

    method HandleCheckoutStatus(e: Event)
      modifies db`checkouts
      ensures db.State() == StatusSet(old(db.State()), e.id, if e.kind == "checkout.expired" then "expired" else "open")
    {
      var found := Find(db.checkouts, e.id);
      if found.Some? {
        var status := if e.kind == "checkout.expired" then "expired" else "open";
        db.checkouts := db.checkouts[found.value := db.checkouts[found.value].(status := status)];
      }
    }
  }
}
