/**
 Where the quote protocol stops short: which orders may differ from what was sent, which conversions use a quote
 up for nothing, and which sent quotes are stuck.
 */
module QuoteLimits {
  import opened Wrappers
  import opened CartPricing
  import opened QuoteItems
  import opened QuoteConversion

  predicate ShipsSent(s: State, c: nat) {
    forall i :: 0 <= i < |s.orders| && s.orders[i].call == c ==>
      var o := s.orders[i]; o.origin in s.sentItems && o.lines == OrderLines(s.sentItems[o.origin])
  }

  ghost predicate AlwaysShipsSent(s: State, c: nat) {
    forall steps :: ShipsSent(Run(s, steps), c)
  }

  /** Call `c` read a quote in status `st`, and any order it makes says so. */
  predicate LoadedAs(s: State, c: nat, st: QuoteStatus) {
    && c < |s.calls|
    && (s.calls[c].Loaded? || s.calls[c].Claimed? ==> s.calls[c].seen.status == st)
    && forall i :: 0 <= i < |s.orders| && s.orders[i].call == c ==> s.orders[i].loadedAs == st
  }

  lemma {:induction false} StaysLoadedAs(s: State, steps: seq<Step>, c: nat, st: QuoteStatus)
    requires LoadedAs(s, c, st)
    ensures LoadedAs(Run(s, steps), c, st)
    decreases |steps|
  {
    if |steps| > 0 {
      assert LoadedAs(Next(s, steps[0]), c, st);
      StaysLoadedAs(Next(s, steps[0]), steps[1..], c, st);
    }
  }

  /** While call `c` holds a draft it read, the quote is edited to `items`, sent and approved; then the call goes on. */
  function Overtaken(q: nat, c: nat, items: seq<QuoteItem>, products: Catalogue): seq<Step> {
    [Edit(q, 0, items), Move(q, Send, 0), Move(q, Approve, 0), Claim(c), Submit(c, products)]
  }

  lemma OvertakenRun(s: State, q: nat, c: nat, items: seq<QuoteItem>, products: Catalogue)
    ensures Run(s, Overtaken(q, c, items, products))
            == SubmittedBy(ClaimedBy(Moved(Moved(Edited(s, q, 0, items), q, Send, 0), q, Approve, 0), c), c, products)
  {
    var steps := Overtaken(q, c, items, products);
    var s1 := Edited(s, q, 0, items);
    var s2 := Moved(s1, q, Send, 0);
    var s3 := Moved(s2, q, Approve, 0);
    var s4 := ClaimedBy(s3, c);
    assert steps[1..][1..][1..][1..] == [Submit(c, products)];
    assert Run(s4, [Submit(c, products)]) == SubmittedBy(s4, c, products) by {
      assert [Submit(c, products)][1..] == [];
    }
    assert Run(s3, steps[1..][1..][1..]) == Run(s4, steps[1..][1..][1..][1..]);
    assert Run(s2, steps[1..][1..]) == Run(s3, steps[1..][1..][1..]);
    assert Run(s1, steps[1..]) == Run(s2, steps[1..][1..]);
  }

  /** The order then has the lines of the draft, not those that were sent and approved. */
  lemma OvertakenShipsTheDraft(s: State, q: nat, c: nat, items: seq<QuoteItem>, products: Catalogue)
    requires q in s.quotes && s.quotes[q].status == Draft && c < |s.calls| && s.calls[c] == Loaded(q, s.quotes[q])
    requires IsValidPayload(s.quotes[q]) && AllKnown(products, OrderLines(s.quotes[q].items))
    ensures var t := Run(s, Overtaken(q, c, items, products));
            && |t.orders| == |s.orders| + 1 && q in t.sentItems && t.sentItems[q] == items
            && var o := t.orders[|s.orders|]; o.origin == q && o.call == c && o.lines == OrderLines(s.quotes[q].items)
  {
    OvertakenRun(s, q, c, items, products);
    SnapshotSucceeds(products, OrderLines(s.quotes[q].items));
  }

  /** Call `c` has made no order and cannot make one: what it read is no valid payload. */
  predicate CannotOrder(s: State, c: nat) {
    && c < |s.calls|
    && (s.calls[c].Loaded? || s.calls[c].Claimed? ==> !IsValidPayload(s.calls[c].seen))
    && forall i :: 0 <= i < |s.orders| ==> s.orders[i].call != c
  }

  lemma {:induction false} NeverOrders(s: State, steps: seq<Step>, c: nat)
    requires CannotOrder(s, c)
    ensures CannotOrder(Run(s, steps), c)
    decreases |steps|
  {
    if |steps| > 0 {
      assert CannotOrder(Next(s, steps[0]), c);
      NeverOrders(Next(s, steps[0]), steps[1..], c);
    }
  }

  /** A catalogue that still has every product of some lines. */
  ghost function StockedFor(lines: seq<CartLine>): (products: Catalogue)
    ensures AllKnown(products, lines)
  {
    map l | l in lines :: l.productId := Product(l.productId, "", None, None)
  }

  /**
   The lines of an order are sure to be those the customer was sent if and only if the call's load saw the
   quote past draft, or something no order can be made of; the claim checks only the status the quote has by then.
   */
  lemma FreshLoadShipsSentIff(steps: seq<Step>, q: nat)
    requires q in Run(START, steps).quotes
    ensures var s := Run(START, steps); var quote := s.quotes[q];
            AlwaysShipsSent(LoadedBy(s, q), |s.calls|) <==> quote.status != Draft || !IsValidPayload(quote)
  {
    var s := Run(START, steps);
    var t, c := LoadedBy(s, q), |s.calls|;
    RunKeepsInv(START, steps);
    LoadKeepsInv(s, q);
    forall i | 0 <= i < |s.orders| ensures s.orders[i].call != c {
      assert GoodOrder(s, s.orders[i]);
    }
    if s.quotes[q].status != Draft {
      forall more ensures ShipsSent(Run(t, more), c) {
        LaterShipsSent(t, more, c, s.quotes[q].status);
      }
    } else if !IsValidPayload(s.quotes[q]) {
      forall more ensures ShipsSent(Run(t, more), c) {
        NeverOrders(t, more, c);
      }
    } else {
      var items := s.quotes[q].items;
      var other := items + [if items == [] then QuoteItem(0, None, 1.0, 0.0, 0.0, 0.0, 0.0, 0.0) else items[0]];
      var products := StockedFor(OrderLines(items));
      OvertakenShipsTheDraft(t, q, c, other, products);
      assert !ShipsSent(Run(t, Overtaken(q, c, other, products)), c);
    }
  }

  lemma LaterShipsSent(t: State, more: seq<Step>, c: nat, st: QuoteStatus)
    requires Inv(t) && LoadedAs(t, c, st) && st != Draft
    ensures ShipsSent(Run(t, more), c)
  {
    RunKeepsInv(t, more);
    StaysLoadedAs(t, more, c, st);
    var u := Run(t, more);
    forall i | 0 <= i < |u.orders| && u.orders[i].call == c
      ensures u.orders[i].origin in u.sentItems && u.orders[i].lines == OrderLines(u.sentItems[u.orders[i].origin])
    {
      assert GoodOrder(u, u.orders[i]);
    }
  }

  /** Converted, with no order and nobody left to make one. */
  predicate Stranded(s: State, q: nat) {
    && IsConverted(s, q) && !HasOrder(s, q)
    && forall c :: 0 <= c < |s.calls| ==> !Holds(s.calls[c], q)
  }

  /** No operation of the service gives a stranded quote its order. */
  lemma {:induction false} StrandedForGood(s: State, q: nat, steps: seq<Step>)
    requires Inv(s) && Stranded(s, q)
    ensures Stranded(Run(s, steps), q) && Run(s, steps).quotes[q].convertedOrderId == None
    decreases |steps|
  {
    if |steps| == 0 {
      assert Frozen(s, q);
    } else {
      StepKeepsInv(s, steps[0]);
      StrandedStep(s, q, steps[0]);
      StrandedForGood(Next(s, steps[0]), q, steps[1..]);
    }
  }

  lemma StrandedStep(s: State, q: nat, step: Step)
    requires Inv(s) && Stranded(s, q)
    ensures Stranded(Next(s, step), q)
  {
    StepKeepsInv(s, step);
    assert Persists(s, Next(s, step), q);
    if step.Submit? && step.call < |s.calls| {
      assert !Holds(s.calls[step.call], q);
    }
  }

  /** What an order can be made of: a valid payload of products the catalogue still has. */
  predicate CanBeOrdered(quote: Quote, products: Catalogue) {
    IsValidPayload(quote) && AllKnown(products, OrderLines(quote.items))
  }

  /** No conversion of an approved quote is under way or done. */
  lemma ApprovedIsUntouched(s: State, q: nat)
    requires Inv(s) && q in s.quotes && s.quotes[q].status == Approved
    ensures !HasOrder(s, q) && forall c :: 0 <= c < |s.calls| ==> !Holds(s.calls[c], q)
  {
    forall i | 0 <= i < |s.orders| ensures s.orders[i].origin != q {
      assert GoodOrder(s, s.orders[i]);
    }
    forall c | 0 <= c < |s.calls| ensures !Holds(s.calls[c], q) {
      assert GoodCall(s, s.calls[c]);
    }
  }

  /**
   An undisturbed conversion of an approved quote ends in one of two ways: it strands the quote, if and only
   if the payload is invalid or names a product that is gone, and makes the quote's order otherwise.
   */
  lemma ConversionStrandsIff(before: seq<Step>, q: nat, products: Catalogue)
    requires q in Run(START, before).quotes && Run(START, before).quotes[q].status == Approved
    ensures var s := Run(START, before); var t := Run(s, ConvertSteps(q, |s.calls|, products));
            && (Stranded(t, q) <==> !CanBeOrdered(s.quotes[q], products))
            && (HasOrder(t, q) <==> CanBeOrdered(s.quotes[q], products))
            && IsConverted(t, q)
  {
    var s := Run(START, before);
    RunKeepsInv(START, before);
    ConvertRun(s, q, |s.calls|, products);
    ApprovedIsUntouched(s, q);
    var t := Run(s, ConvertSteps(q, |s.calls|, products));
    if CanBeOrdered(s.quotes[q], products) {
      SnapshotSucceeds(products, OrderLines(s.quotes[q].items));
      assert t.orders[|s.orders|].origin == q;
    } else {
      assert t.orders == s.orders;
    }
  }

  /**
   The claim comes before the payload is checked. So converting an approved quote that cannot be ordered, that
   of a prospect without an account above all, uses the quote up: whatever follows, it never gets an order.
   */
  lemma UnorderableIsStranded(before: seq<Step>, q: nat, products: Catalogue, after: seq<Step>)
    requires q in Run(START, before).quotes && Run(START, before).quotes[q].status == Approved
    requires !CanBeOrdered(Run(START, before).quotes[q], products)
    ensures var s := Run(START, before);
            var t := Run(Run(s, ConvertSteps(q, |s.calls|, products)), after);
            Stranded(t, q) && t.quotes[q].convertedOrderId == None
  {
    var s := Run(START, before);
    RunKeepsInv(START, before);
    RunKeepsInv(s, ConvertSteps(q, |s.calls|, products));
    ConversionStrandsIff(before, q, products);
    StrandedForGood(Run(s, ConvertSteps(q, |s.calls|, products)), q, after);
  }

  predicate NotBefore(steps: seq<Step>, now: int) {
    forall i :: 0 <= i < |steps| && steps[i].Move? ==> steps[i].now >= now
  }

  /**
   Sending does not look at the validity date and only a draft can be edited, so a quote sent after its
   date stays sent: it can be neither approved nor rejected nor corrected.
   */
  lemma {:induction false} SentLateStaysSent(s: State, q: nat, now: int, steps: seq<Step>)
    requires Inv(s) && q in s.quotes && IsExpired(s.quotes[q], now) && NotBefore(steps, now)
    ensures q in Run(s, steps).quotes && IsExpired(Run(s, steps).quotes[q], now)
    decreases |steps|
  {
    if |steps| > 0 {
      StepKeepsInv(s, steps[0]);
      ExpiredStep(s, q, now, steps[0]);
      SentLateStaysSent(Next(s, steps[0]), q, now, steps[1..]);
    }
  }

  /** A sent quote can no longer leave `sent` if and only if it has expired; up to its date it can be approved. */
  lemma SentIsStuckIff(s: State, q: nat, now: int)
    requires Inv(s) && q in s.quotes && s.quotes[q].status == Sent
    ensures (forall steps :: NotBefore(steps, now) ==> q in Run(s, steps).quotes && Run(s, steps).quotes[q].status == Sent)
            <==> IsExpired(s.quotes[q], now)
  {
    if IsExpired(s.quotes[q], now) {
      forall steps | NotBefore(steps, now) ensures q in Run(s, steps).quotes && Run(s, steps).quotes[q].status == Sent {
        SentLateStaysSent(s, q, now, steps);
      }
    } else {
      var steps := [Move(q, Approve, now)];
      assert steps[1..] == [];
      assert Run(s, steps) == Run(Moved(s, q, Approve, now), []);
      assert NotBefore(steps, now) && Run(s, steps).quotes[q].status == Approved;
    }
  }

  lemma ExpiredStep(s: State, q: nat, now: int, step: Step)
    requires Inv(s) && q in s.quotes && IsExpired(s.quotes[q], now)
    requires step.Move? ==> step.now >= now
    ensures q in Next(s, step).quotes && IsExpired(Next(s, step).quotes[q], now)
  {
    assert Frozen(s, q);
    if step.Record? && step.call < |s.calls| {
      assert GoodCall(s, s.calls[step.call]);
    }
  }
}
