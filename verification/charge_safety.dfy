/**
 Whole runs of order creation, freight quotes, rate selection, checkouts and webhooks: what a customer can be
 charged. Each call is one step; what happens when one is not is shown at the end.
 */
module ChargeSafety {
  import opened Wrappers
  import opened Money
  import opened OrderPricing
  import opened Payments

  datatype Step =
    | Place(subtotal: real, taxTotal: real)
    | Quote(orderId: nat, rates: seq<RateAnswer>)
    | Select(orderId: nat, rateId: string, now: int)
    | Open(orderId: nat, polarCheckoutId: string, status: string)
    | Deliver(event: Event, throws: bool)

  function Next(t: Tables, step: Step): Tables {
    match step
    case Place(subtotal, taxTotal) => Placed(t, subtotal, taxTotal)
    case Quote(id, rates) => Quoted(t, id, rates)
    case Select(id, rateId, now) => Selected(t, id, rateId, now)
    case Open(id, polarId, status) => Opened(t, id, polarId, status)
    case Deliver(e, throws) => Delivered(t, e, throws)
  }

  function Run(t: Tables, steps: seq<Step>): Tables
    decreases |steps|
  {
    if |steps| == 0 then t else Run(Next(t, steps[0]), steps[1..])
  }

  const EMPTY := Tables([], [], [], {})

  /** A `checkout.updated` that would take effect on a checkout the provider had closed already. */
  predicate Reopens(t: Tables, e: Event) {
    Key(e) !in t.webhooks && BringsBack(t, e)
  }

  predicate BringsBack(t: Tables, e: Event) {
    && e.kind == "checkout.updated"
    && Find(t.checkouts, e.id).Some? && IsTerminal(t.checkouts[Find(t.checkouts, e.id).value].status)
  }

  /** Orders are priced in cents, as the carts are, and no closed checkout is reopened. */
  predicate Permitted(t: Tables, step: Step) {
    match step
    case Place(subtotal, taxTotal) => IsCents(subtotal) && IsCents(taxTotal)
    case Deliver(e, throws) => throws || !Reopens(t, e)
    case _ => true
  }

  predicate PermittedRun(t: Tables, steps: seq<Step>)
    decreases |steps|
  {
    |steps| == 0 || (Permitted(t, steps[0]) && PermittedRun(Next(t, steps[0]), steps[1..]))
  }

  // The invariant.

  function ExactTotal(o: Order): real {
    o.subtotal + o.taxTotal + o.shippingTotal - o.discountTotal
  }

  /** An order's money is in cents, its total is exact, and it has freight exactly when a rate was accepted. */
  predicate GoodOrder(o: Order) {
    && IsCents(o.subtotal) && IsCents(o.taxTotal) && IsCents(o.shippingTotal) && IsCents(o.discountTotal)
    && o.grandTotal == ExactTotal(o)
    && (o.shippingQuotedAt.Some? <==> o.rate.Some?)
    && (o.rate.Some? ==> o.rate.value.amount > 0.0 && o.shippingTotal == Round2(o.rate.value.amount))
    && (o.rate.None? ==> o.shippingTotal == 0.0)
    && forall r :: r in o.offered ==> r.amount > 0.0
  }

  /** Every checkout, open or not, was opened on a priced order for a positive amount the provider got in cents. */
  predicate GoodCheckout(t: Tables, c: Checkout) {
    && c.orderId < |t.orders| && t.orders[c.orderId].shippingQuotedAt.Some?
    && c.amount > 0.0 && IsCents(c.amount) && c.cents as real == c.amount * 100.0
  }

  /** A checkout that can still be charged carries its order's present total. */
  predicate ChargesTheTotal(t: Tables, c: Checkout) {
    !IsTerminal(c.status) ==> c.orderId < |t.orders| && c.amount == t.orders[c.orderId].grandTotal
  }

  predicate OneLiveEach(checkouts: seq<Checkout>) {
    forall i, j :: 0 <= i < j < |checkouts| && IsLive(checkouts[i], checkouts[j].orderId) ==> IsTerminal(checkouts[j].status)
  }

  predicate DistinctIds(checkouts: seq<Checkout>) {
    forall i, j :: 0 <= i < j < |checkouts| ==> checkouts[i].polarCheckoutId != checkouts[j].polarCheckoutId
  }

  /** Nothing of an order is created after its live checkout. */
  predicate LiveIsLatest(checkouts: seq<Checkout>) {
    forall i, j :: 0 <= i < j < |checkouts| && !IsTerminal(checkouts[i].status) ==> checkouts[j].orderId != checkouts[i].orderId
  }

  predicate OnePaymentEach(payments: seq<Payment>) {
    forall i, j :: 0 <= i < j < |payments| ==>
      payments[i].orderId != payments[j].orderId || payments[i].transactionRef != payments[j].transactionRef
  }

  /** What holds whatever is delivered. */
  predicate Sound(t: Tables) {
    && (forall i :: 0 <= i < |t.orders| ==> GoodOrder(t.orders[i]))
    && (forall i :: 0 <= i < |t.checkouts| ==> GoodCheckout(t, t.checkouts[i]))
    && DistinctIds(t.checkouts) && OnePaymentEach(t.payments)
  }

  /** What a customer may rely on. */
  predicate Safe(t: Tables) {
    && OneLiveEach(t.checkouts)
    && forall i :: 0 <= i < |t.checkouts| ==> ChargesTheTotal(t, t.checkouts[i])
  }

  predicate Inv(t: Tables) {
    Sound(t) && Safe(t) && LiveIsLatest(t.checkouts)
  }

  lemma AmountCentsIsExact(amount: real)
    requires IsCents(amount)
    ensures AmountCents(amount) as real == amount * 100.0
  {
    RoundsToItself((amount * 100.0).Floor);
  }

  lemma RoundsToItself(n: int)
    ensures MathRound(n as real) == n
  {
  }

  lemma NewOrderIsGood(subtotal: real, taxTotal: real)
    requires IsCents(subtotal) && IsCents(taxTotal)
    ensures GoodOrder(NewOrder(subtotal, taxTotal))
  {
    FromCents(0);
    GrandTotalIsExact(subtotal, taxTotal, 0.0, 0.0);
  }

  lemma FreightIsGood(o: Order, rate: Rate, now: int)
    requires GoodOrder(o) && rate in o.offered
    ensures GoodOrder(WithFreight(o, rate, now))
  {
    Round2IsCents(rate.amount);
    GrandTotalIsExact(o.subtotal, o.taxTotal, Round2(rate.amount), o.discountTotal);
  }

  lemma PlaceKeepsInv(t: Tables, subtotal: real, taxTotal: real)
    requires IsCents(subtotal) && IsCents(taxTotal)
    ensures Sound(t) ==> Sound(Placed(t, subtotal, taxTotal))
    ensures Inv(t) ==> Inv(Placed(t, subtotal, taxTotal))
  {
    NewOrderIsGood(subtotal, taxTotal);
  }

  lemma QuoteKeepsInv(t: Tables, id: nat, rates: seq<RateAnswer>)
    ensures Sound(t) ==> Sound(Quoted(t, id, rates))
    ensures Inv(t) ==> Inv(Quoted(t, id, rates))
  {
  }

  /** Freight changes only while nothing of the order can be charged. */
  lemma SelectKeepsInv(t: Tables, id: nat, rateId: string, now: int)
    ensures Sound(t) ==> Sound(Selected(t, id, rateId, now))
    ensures Inv(t) ==> Inv(Selected(t, id, rateId, now))
  {
    if SelectError(t, id, rateId).None? {
      var o := t.orders[id];
      if Sound(t) {
        FreightIsGood(o, Chosen(o.offered, rateId).value, now);
      }
      forall i | 0 <= i < |t.checkouts| && ChargesTheTotal(t, t.checkouts[i])
        ensures ChargesTheTotal(Selected(t, id, rateId, now), t.checkouts[i])
      {
        assert !IsLive(t.checkouts[i], id);
      }
    }
  }

  lemma OpenKeepsSound(t: Tables, id: nat, polarId: string, status: string)
    requires Sound(t)
    ensures Sound(Opened(t, id, polarId, status))
  {
    if OpenError(t, id, polarId).None? {
      var o := t.orders[id];
      assert GoodOrder(o);
      GrandTotalIsExact(o.subtotal, o.taxTotal, o.shippingTotal, o.discountTotal);
      AmountCentsIsExact(o.grandTotal);
    }
  }

  lemma OpenKeepsInv(t: Tables, id: nat, polarId: string, status: string)
    requires Inv(t)
    ensures Inv(Opened(t, id, polarId, status))
  {
    OpenKeepsSound(t, id, polarId, status);
    if OpenError(t, id, polarId).None? {
      forall i | 0 <= i < |t.checkouts| ensures !IsLive(t.checkouts[i], id) {
      }
    }
  }

  /** Changing the status of one checkout hurts only when it brings a closed one back. */
  lemma StatusChange(t: Tables, i: nat, c: Checkout)
    requires i < |t.checkouts| && c == t.checkouts[i].(status := c.status, polarOrderId := c.polarOrderId)
    ensures Sound(t) ==> Sound(t.(checkouts := t.checkouts[i := c]))
    ensures Inv(t) && (IsTerminal(t.checkouts[i].status) ==> IsTerminal(c.status)) ==>
              Inv(t.(checkouts := t.checkouts[i := c]))
  {
    var u := t.(checkouts := t.checkouts[i := c]);
    if Inv(t) && (IsTerminal(t.checkouts[i].status) ==> IsTerminal(c.status)) {
      forall a, b | 0 <= a < b < |u.checkouts| && !IsTerminal(u.checkouts[a].status)
        ensures u.checkouts[b].orderId != u.checkouts[a].orderId
      {
        assert !IsTerminal(t.checkouts[a].status);
      }
    }
  }

  lemma PaymentStatusChange(t: Tables, id: nat, status: string)
    requires id < |t.orders|
    ensures var u := t.(orders := t.orders[id := t.orders[id].(paymentStatus := status)]);
            (Sound(t) ==> Sound(u)) && (Inv(t) ==> Inv(u))
  {
  }

  lemma PaymentAdded(t: Tables, p: Payment)
    requires !IsRecorded(t, p.orderId, p.transactionRef)
    ensures var u := t.(payments := t.payments + [p]);
            (Sound(t) ==> Sound(u)) && (Inv(t) ==> Inv(u))
  {
  }

  lemma PaidKeepsInv(t: Tables, e: Event)
    ensures Sound(t) ==> Sound(Paid(t, e))
    ensures Inv(t) ==> Inv(Paid(t, e))
  {
    if e.orderId.Some? && e.orderId.value < |t.orders| {
      var id := e.orderId.value;
      var p := Payment(id, PaidAmount(t.orders[id], e.totalAmount), e.id);
      var target := PaidCheckout(t, id, e.checkoutId);
      PaymentStatusChange(t, id, "paid");
      var a := t.(orders := t.orders[id := t.orders[id].(paymentStatus := "paid")]);
      var b := a;
      if target.Some? {
        var c := t.checkouts[target.value].(polarOrderId := Some(e.id), status := "succeeded");
        StatusChange(a, target.value, c);
        b := a.(checkouts := t.checkouts[target.value := c]);
      }
      if !IsRecorded(t, id, e.id) {
        assert !IsRecorded(b, id, e.id);
        PaymentAdded(b, p);
      }
    }
  }

  /** Webhooks keep the tables sound whatever they say, and safe unless they reopen a closed checkout. */
  lemma DeliverKeepsInv(t: Tables, e: Event, throws: bool)
    ensures Sound(t) ==> Sound(Delivered(t, e, throws))
    ensures Inv(t) && (throws || !Reopens(t, e)) ==> Inv(Delivered(t, e, throws))
  {
    var noted := t.(webhooks := t.webhooks + {Key(e)});
    assert (Sound(t) ==> Sound(noted)) && (Inv(t) ==> Inv(noted));
    if Key(e) !in t.webhooks && !throws {
      HandledKeepsInv(noted, e);
    }
  }

  lemma StatusSetKeepsInv(t: Tables, polarCheckoutId: string, status: string)
    ensures var u := StatusSet(t, polarCheckoutId, status);
            var i := Find(t.checkouts, polarCheckoutId);
            && (Sound(t) ==> Sound(u))
            && (Inv(t) && (i.Some? && IsTerminal(t.checkouts[i.value].status) ==> IsTerminal(status)) ==> Inv(u))
  {
    if Find(t.checkouts, polarCheckoutId).Some? {
      var i := Find(t.checkouts, polarCheckoutId).value;
      StatusChange(t, i, t.checkouts[i].(status := status));
    }
  }

  lemma HandledKeepsInv(t: Tables, e: Event)
    ensures Sound(t) ==> Sound(Handled(t, e))
    ensures Inv(t) && !BringsBack(t, e) ==> Inv(Handled(t, e))
  {
    if e.kind == "order.paid" {
      PaidKeepsInv(t, e);
    } else if e.kind == "order.refunded" {
      if e.orderId.Some? && e.orderId.value < |t.orders| {
        PaymentStatusChange(t, e.orderId.value, "refunded");
      }
    } else if e.kind == "checkout.expired" {
      StatusSetKeepsInv(t, e.id, "expired");
    } else if e.kind == "checkout.updated" {
      StatusSetKeepsInv(t, e.id, "open");
    }
  }

  lemma StepKeepsInv(t: Tables, step: Step)
    requires Inv(t) && Permitted(t, step)
    ensures Inv(Next(t, step))
  {
    match step
    case Place(subtotal, taxTotal) => PlaceKeepsInv(t, subtotal, taxTotal);
    case Quote(id, rates) => QuoteKeepsInv(t, id, rates);
    case Select(id, rateId, now) => SelectKeepsInv(t, id, rateId, now);
    case Open(id, polarId, status) => OpenKeepsInv(t, id, polarId, status);
    case Deliver(e, throws) => DeliverKeepsInv(t, e, throws);
  }

  lemma {:induction false} RunKeepsInv(t: Tables, steps: seq<Step>)
    requires Inv(t) && PermittedRun(t, steps)
    ensures Inv(Run(t, steps))
    decreases |steps|
  {
    if |steps| > 0 {
      StepKeepsInv(t, steps[0]);
      RunKeepsInv(Next(t, steps[0]), steps[1..]);
    }
  }

  /** A rate was accepted, and what is charged is the exact sum of the order's parts. */
  predicate ChargeIsRight(t: Tables, c: Checkout) {
    && c.orderId < |t.orders|
    && var o := t.orders[c.orderId];
       && o.shippingQuotedAt.Some? && o.rate.Some? && o.shippingTotal == Round2(o.rate.value.amount)
       && c.amount == o.grandTotal == ExactTotal(o) && o.grandTotal > 0.0
       && c.cents as real == 100.0 * o.grandTotal
  }

  /**
   Over every permitted run an order has at most one checkout that can still be charged, and it charges, to
   the cent, subtotal plus tax plus the accepted freight minus discount as the order has them now.
   */
  lemma ChargesAreSafe(steps: seq<Step>, i: nat)
    requires PermittedRun(EMPTY, steps)
    requires i < |Run(EMPTY, steps).checkouts| && !IsTerminal(Run(EMPTY, steps).checkouts[i].status)
    ensures var t := Run(EMPTY, steps);
            && ChargeIsRight(t, t.checkouts[i])
            && forall j :: 0 <= j < |t.checkouts| && j != i && t.checkouts[j].orderId == t.checkouts[i].orderId ==>
                 IsTerminal(t.checkouts[j].status)
  {
    RunKeepsInv(EMPTY, steps);
    var t := Run(EMPTY, steps);
    var c := t.checkouts[i];
    assert ChargesTheTotal(t, c) && GoodCheckout(t, c);
    assert GoodOrder(t.orders[c.orderId]);
  }

  /** Accepting a rate moves the total by the difference in freight and by nothing else, to the cent. */
  lemma FreightMovesTheTotal(t: Tables, id: nat, rateId: string, now: int)
    requires Sound(t) && SelectError(t, id, rateId).None?
    ensures var before, after := t.orders[id], Selected(t, id, rateId, now).orders[id];
            && after.grandTotal - before.grandTotal == after.shippingTotal - before.shippingTotal
            && after.rate.Some? && after.rate.value in before.offered && after.rate.value.rateId == rateId
            && after.paymentStatus == before.paymentStatus && after.offered == before.offered
  {
    var o := t.orders[id];
    assert GoodOrder(o);
    FreightIsGood(o, Chosen(o.offered, rateId).value, now);
  }

  /** Asking for new rates leaves an accepted one, and what it costs, in force. */
  lemma QuotingKeepsTheRate(t: Tables, id: nat, rates: seq<RateAnswer>)
    requires QuoteError(t, id, rates).None?
    ensures var before, after := t.orders[id], Quoted(t, id, rates).orders[id];
            && after.rate == before.rate && after.shippingQuotedAt == before.shippingQuotedAt
            && after.grandTotal == before.grandTotal
            && (forall r :: r in after.offered <==> RateAnswer(r.rateId, r.carrier, Some(r.amount)) in rates && r.amount > 0.0)
            && ChargeError(Quoted(t, id, rates), id) == ChargeError(t, id)
  {
  }

  /** No run at all, permitted or not, records two payments of one order under one reference. */
  lemma {:induction false} OnePaymentPerReference(t: Tables, steps: seq<Step>)
    requires OnePaymentEach(t.payments)
    ensures OnePaymentEach(Run(t, steps).payments)
    decreases |steps|
  {
    if |steps| > 0 {
      OnePaymentPerReference(Next(t, steps[0]), steps[1..]);
    }
  }

  /**
   The first payment of a reference marks the order paid whatever it states. What is recorded of it is the
   order's exact total if and only if it states no amount, or the one its checkout was opened for.
   */
  lemma PaidInFullIff(steps: seq<Step>, i: nat, e: Event)
    requires PermittedRun(EMPTY, steps)
    requires var t := Run(EMPTY, steps);
             && i < |t.checkouts| && !IsTerminal(t.checkouts[i].status)
             && e.kind == "order.paid" && Key(e) !in t.webhooks
             && e.orderId == Some(t.checkouts[i].orderId) && !IsRecorded(t, t.checkouts[i].orderId, e.id)
    ensures var t := Run(EMPTY, steps); var u := Delivered(t, e, false); var id := t.checkouts[i].orderId;
            && id < |t.orders| && u.orders == t.orders[id := t.orders[id].(paymentStatus := "paid")]
            && |u.payments| == |t.payments| + 1 && u.payments[..|t.payments|] == t.payments
            && var p := u.payments[|t.payments|];
               && p.orderId == id && p.transactionRef == e.id
               && (p.amount == ExactTotal(t.orders[id])
                   <==> e.totalAmount in {None, Some(0), Some(t.checkouts[i].cents)})
  {
    ChargesAreSafe(steps, i);
  }

  /**
   After a payment the order has a live checkout left exactly when it had one and the event named another
   checkout; without a name that is found, the live one is the last and is the one closed.
   */
  lemma PaymentClosesLiveIff(t: Tables, e: Event, i: nat)
    requires Inv(t) && i < |t.checkouts| && !IsTerminal(t.checkouts[i].status)
    requires e.kind == "order.paid" && Key(e) !in t.webhooks && e.orderId == Some(t.checkouts[i].orderId)
    ensures HasLive(Delivered(t, e, false), t.checkouts[i].orderId)
            <==> PaidCheckout(t, t.checkouts[i].orderId, e.checkoutId) != Some(i)
    ensures e.checkoutId.None? ==> !HasLive(Delivered(t, e, false), t.checkouts[i].orderId)
  {
    var id := t.checkouts[i].orderId;
    var u := Delivered(t, e, false);
    assert GoodCheckout(t, t.checkouts[i]);
    assert Latest(t.checkouts, id) == Some(i);
    if PaidCheckout(t, id, e.checkoutId) != Some(i) {
      assert IsLive(u.checkouts[i], id);
    } else {
      forall j | 0 <= j < |u.checkouts| ensures !IsLive(u.checkouts[j], id) {
      }
    }
  }

  /**
   A late `checkout.updated` makes a closed checkout chargeable again. The promise survives exactly when the
   order has no live checkout by then and its total is still the one the closed checkout was opened for.
   */
  lemma ReopeningIsSafeIff(t: Tables, e: Event)
    requires Inv(t) && Reopens(t, e)
    ensures var c := t.checkouts[Find(t.checkouts, e.id).value];
            Safe(Delivered(t, e, false)) <==> !HasLive(t, c.orderId) && c.amount == t.orders[c.orderId].grandTotal
  {
    var i := Find(t.checkouts, e.id).value;
    var c := t.checkouts[i];
    var u := Delivered(t, e, false);
    assert GoodCheckout(t, c);
    assert u.checkouts == t.checkouts[i := c.(status := "open")];
    if HasLive(t, c.orderId) {
      LiveBesideReopened(t, u, i);
    } else if c.amount == t.orders[c.orderId].grandTotal {
      ReopenedAlone(t, u, i);
    } else {
      assert !ChargesTheTotal(u, u.checkouts[i]);
    }
  }

  lemma LiveBesideReopened(t: Tables, u: Tables, i: nat)
    requires i < |t.checkouts| && IsTerminal(t.checkouts[i].status) && HasLive(t, t.checkouts[i].orderId)
    requires u.checkouts == t.checkouts[i := t.checkouts[i].(status := "open")]
    ensures !OneLiveEach(u.checkouts)
  {
    var j :| 0 <= j < |t.checkouts| && IsLive(t.checkouts[j], t.checkouts[i].orderId);
    var a, b := if i < j then i else j, if i < j then j else i;
    assert IsLive(u.checkouts[a], u.checkouts[b].orderId) && !IsTerminal(u.checkouts[b].status);
  }

  lemma ReopenedAlone(t: Tables, u: Tables, i: nat)
    requires Safe(t) && i < |t.checkouts| && GoodCheckout(t, t.checkouts[i]) && !HasLive(t, t.checkouts[i].orderId)
    requires t.checkouts[i].amount == t.orders[t.checkouts[i].orderId].grandTotal && u.orders == t.orders
    requires u.checkouts == t.checkouts[i := t.checkouts[i].(status := "open")]
    ensures Safe(u)
  {
    forall k | 0 <= k < |u.checkouts| ensures ChargesTheTotal(u, u.checkouts[k]) {
      assert ChargesTheTotal(t, t.checkouts[k]);
    }
    forall a, b | 0 <= a < b < |u.checkouts| && IsLive(u.checkouts[a], u.checkouts[b].orderId)
      ensures IsTerminal(u.checkouts[b].status)
    {
      assert a != i ==> IsLive(t.checkouts[a], t.checkouts[b].orderId);
      assert a == i ==> !IsLive(t.checkouts[b], t.checkouts[i].orderId);
    }
  }

  // `createForOrder` reads before it writes, with the provider's answer in between.

  /** The write of a call that read the order as `seen`. */
  function Inserted(t: Tables, orderId: nat, seen: Order, polarCheckoutId: string, status: string): Tables {
    if IsKnownCheckout(t, polarCheckoutId) then t
    else t.(checkouts := t.checkouts + [
      Checkout(orderId, polarCheckoutId, None, status, seen.grandTotal, AmountCents(seen.grandTotal))])
  }

  /** Nothing in between, and the two halves are the call. */
  lemma CheckThenInsert(t: Tables, orderId: nat, polarCheckoutId: string, status: string)
    requires ChargeError(t, orderId).None?
    ensures Inserted(t, orderId, t.orders[orderId], polarCheckoutId, status) == Opened(t, orderId, polarCheckoutId, status)
  {
  }

  /**
   The write, whatever happened since the read. It leaves charges safe if and only if they are safe at that
   point and either the checkout comes back closed already, or the order has no live checkout by then and
   its total is still the one that was read.
   */
  lemma InsertIsSafeIff(t: Tables, orderId: nat, seen: Order, polarCheckoutId: string, status: string)
    requires orderId < |t.orders|
    ensures IsKnownCheckout(t, polarCheckoutId) ==> Inserted(t, orderId, seen, polarCheckoutId, status) == t
    ensures !IsKnownCheckout(t, polarCheckoutId) ==>
              (Safe(Inserted(t, orderId, seen, polarCheckoutId, status))
               <==> && Safe(t)
                    && (IsTerminal(status)
                        || (!HasLive(t, orderId) && seen.grandTotal == t.orders[orderId].grandTotal)))
  {
    if !IsKnownCheckout(t, polarCheckoutId) {
      var u, n := Inserted(t, orderId, seen, polarCheckoutId, status), |t.checkouts|;
      InsertIsAloneIff(t, orderId, seen, polarCheckoutId, status);
      assert u.checkouts[n].status == status && u.checkouts[n].amount == seen.grandTotal;
      assert forall i :: 0 <= i < n ==> (ChargesTheTotal(u, u.checkouts[i]) <==> ChargesTheTotal(t, t.checkouts[i]));
      assert ChargesTheTotal(u, u.checkouts[n]) <==> IsTerminal(status) || seen.grandTotal == t.orders[orderId].grandTotal;
    }
  }

  /** The part of it that is about one live checkout an order. */
  lemma InsertIsAloneIff(t: Tables, orderId: nat, seen: Order, polarCheckoutId: string, status: string)
    requires !IsKnownCheckout(t, polarCheckoutId)
    ensures OneLiveEach(Inserted(t, orderId, seen, polarCheckoutId, status).checkouts)
            <==> OneLiveEach(t.checkouts) && (IsTerminal(status) || !HasLive(t, orderId))
  {
    var u, n := Inserted(t, orderId, seen, polarCheckoutId, status), |t.checkouts|;
    assert forall i :: 0 <= i < n ==> u.checkouts[i] == t.checkouts[i];
    assert u.checkouts[n].orderId == orderId && u.checkouts[n].status == status;
    if OneLiveEach(u.checkouts) {
      forall i, j | 0 <= i < j < n && IsLive(t.checkouts[i], t.checkouts[j].orderId)
        ensures IsTerminal(t.checkouts[j].status)
      {
        assert IsLive(u.checkouts[i], u.checkouts[j].orderId);
      }
    }
  }

  /** Two calls that both read before either wrote leave two checkouts to charge. */
  lemma TwoReadersOpenTwice(t: Tables, orderId: nat, first: string, second: string)
    requires ChargeError(t, orderId).None? && first != second
    requires !IsKnownCheckout(t, first) && !IsKnownCheckout(t, second)
    ensures var seen := t.orders[orderId];
            !OneLiveEach(Inserted(Inserted(t, orderId, seen, first, "open"), orderId, seen, second, "open").checkouts)
  {
    var seen := t.orders[orderId];
    var a := Inserted(t, orderId, seen, first, "open");
    assert IsLive(a.checkouts[|t.checkouts|], orderId);
    assert !IsKnownCheckout(a, second);
    InsertIsAloneIff(a, orderId, seen, second, "open");
  }

  /** A rate accepted between the read and the write leaves a checkout that charges the old total, if it differs. */
  lemma RepricedBetween(t: Tables, orderId: nat, rateId: string, now: int, polarCheckoutId: string)
    requires Inv(t) && ChargeError(t, orderId).None? && SelectError(t, orderId, rateId).None?
    requires !IsKnownCheckout(t, polarCheckoutId)
    ensures var seen := t.orders[orderId]; var between := Selected(t, orderId, rateId, now);
            Safe(Inserted(between, orderId, seen, polarCheckoutId, "open"))
            <==> between.orders[orderId].grandTotal == seen.grandTotal
  {
    SelectKeepsInv(t, orderId, rateId, now);
    InsertIsSafeIff(Selected(t, orderId, rateId, now), orderId, t.orders[orderId], polarCheckoutId, "open");
  }
  // `selectRate` and `quoteForOrder` read the order, check it, and save the whole row they read.

  function OrderSaved(t: Tables, orderId: nat, saved: Order): Tables
    requires orderId < |t.orders|
  {
    t.(orders := t.orders[orderId := saved])
  }

  lemma OrderSavedIsSafeIff(t: Tables, orderId: nat, saved: Order)
    requires Safe(t) && orderId < |t.orders|
    ensures Safe(OrderSaved(t, orderId, saved))
            <==> !HasLive(t, orderId) || saved.grandTotal == t.orders[orderId].grandTotal
  {
    var u := OrderSaved(t, orderId, saved);
    if i :| 0 <= i < |t.checkouts| && IsLive(t.checkouts[i], orderId) {
      assert ChargesTheTotal(t, t.checkouts[i]);
      assert ChargesTheTotal(u, u.checkouts[i]) <==> saved.grandTotal == t.orders[orderId].grandTotal;
    }
    forall i | 0 <= i < |t.checkouts| && !IsLive(t.checkouts[i], orderId) ensures ChargesTheTotal(u, u.checkouts[i]) {
      assert ChargesTheTotal(t, t.checkouts[i]);
    }
  }

  lemma {:induction false} OrdersRemain(t: Tables, steps: seq<Step>)
    ensures |Run(t, steps).orders| >= |t.orders|
    decreases |steps|
  {
    if |steps| > 0 {
      OrdersRemain(Next(t, steps[0]), steps[1..]);
    }
  }

  /**
   The write of an accepted rate, after any permitted run since its read. Charges stay safe if and only if by
   then the order has no live checkout, or its total is the one that is written. In any case the order is not
   marked paid afterwards, even if it was paid in between.
   */
  lemma SelectWriteIsSafeIff(t: Tables, orderId: nat, rateId: string, now: int, steps: seq<Step>)
    requires Inv(t) && SelectError(t, orderId, rateId).None? && PermittedRun(t, steps)
    ensures var seen, later := t.orders[orderId], Run(t, steps);
            var saved := WithFreight(seen, Chosen(seen.offered, rateId).value, now);
            && orderId < |later.orders|
            && (steps == [] ==> OrderSaved(later, orderId, saved) == Selected(t, orderId, rateId, now))
            && (Safe(OrderSaved(later, orderId, saved))
                <==> !HasLive(later, orderId) || saved.grandTotal == later.orders[orderId].grandTotal)
            && OrderSaved(later, orderId, saved).orders[orderId].paymentStatus != "paid"
  {
    var seen := t.orders[orderId];
    OrdersRemain(t, steps);
    RunKeepsInv(t, steps);
    OrderSavedIsSafeIff(Run(t, steps), orderId, WithFreight(seen, Chosen(seen.offered, rateId).value, now));
  }

  /** The same of a quote, which writes the total that it read. */
  lemma QuoteWriteIsSafeIff(t: Tables, orderId: nat, rates: seq<RateAnswer>, steps: seq<Step>)
    requires Inv(t) && QuoteError(t, orderId, rates).None? && PermittedRun(t, steps)
    ensures var seen, later := t.orders[orderId], Run(t, steps);
            var saved := seen.(offered := Priced(rates));
            && orderId < |later.orders|
            && (steps == [] ==> OrderSaved(later, orderId, saved) == Quoted(t, orderId, rates))
            && (Safe(OrderSaved(later, orderId, saved))
                <==> !HasLive(later, orderId) || seen.grandTotal == later.orders[orderId].grandTotal)
            && OrderSaved(later, orderId, saved).orders[orderId].paymentStatus != "paid"
  {
    OrdersRemain(t, steps);
    RunKeepsInv(t, steps);
    OrderSavedIsSafeIff(Run(t, steps), orderId, t.orders[orderId].(offered := Priced(rates)));
  }
}
