/**
 The lifecycle of quotes and the conversion protocol: quote-status.ts, quote-visibility.ts and QuoteService.
 `convert` is split at its awaits into load, claim, submit and record. Any number of calls interleave with
 each other and with the other operations on quotes, and a call may stop for good between any two steps.
 */
module QuoteConversion {
  import opened Wrappers
  import opened Money
  import opened CartPricing
  import opened QuoteItems

  datatype QuoteStatus = Draft | Sent | Approved | Rejected | Converted

  datatype QuoteAction = Send | Approve | Reject

  function From(a: QuoteAction): QuoteStatus {
    match a
    case Send => Draft
    case Approve => Sent
    case Reject => Sent
  }

  function To(a: QuoteAction): QuoteStatus {
    match a
    case Send => Sent
    case Approve => Approved
    case Reject => Rejected
  }

  predicate IsEditable(status: QuoteStatus) {
    status == Draft
  }

  /** `items` are the lines as `priceItems` made them; reading them back rounds them, in `OrderLines`. */
  datatype Quote = Quote(
    status: QuoteStatus, validUntil: int, customer: Option<int>, items: seq<QuoteItem>, convertedOrderId: Option<nat>)

  /** `effectiveStatus`: only a sent quote expires. */
  predicate IsExpired(q: Quote, now: int) {
    q.status == Sent && q.validUntil < now
  }

  predicate MayMove(q: Quote, a: QuoteAction, now: int) {
    q.status == From(a) && !IsExpired(q, now)
  }

  /** What the decorators of CreateOrderDto demand of the payload built from a quote. */
  predicate IsValidPayload(q: Quote) {
    && q.customer.Some?
    && forall l :: l in OrderLines(q.items) ==> IsValidLine(l)
  }

  predicate IsValidLine(l: CartLine) {
    l.qty >= 0.01 && l.unitPrice.Some? && l.unitPrice.value >= 0.0 && l.tax.Some? && l.tax.value >= 0.0
  }

  /** An order; `origin`, `call` and `loadedAs` record which quote and call it came from and what that call had read. */
  datatype Order = Order(
    origin: nat, call: nat, loadedAs: QuoteStatus, customer: int, lines: seq<CartLine>, priced: PricedOrder)

  /** Where one `convert` call stands. */
  datatype Call =
    | Loaded(quoteId: nat, seen: Quote)
    | Claimed(quoteId: nat, seen: Quote)
    | Created(quoteId: nat, orderId: nat)
    | Ended

  /**
   The tables, the calls in flight, and, as history, the items each quote had when it was sent. A quote's id
   is never used again once the quote is removed.
   */
  datatype State = State(
    quotes: map<nat, Quote>, nextId: nat, orders: seq<Order>, calls: seq<Call>, sentItems: map<nat, seq<QuoteItem>>)

  datatype Step =
    | Author(validUntil: int, customer: Option<int>, items: seq<QuoteItem>)
    | Edit(quoteId: nat, newValidUntil: int, newItems: seq<QuoteItem>)
    | Move(quoteId: nat, action: QuoteAction, now: int)
    | Link(quoteId: nat, newCustomer: int)
    | Remove(quoteId: nat)
    | Load(quoteId: nat)
    | Claim(call: nat)
    | Submit(call: nat, products: Catalogue)
    | Record(call: nat)
    | Crash(call: nat)

  function Authored(s: State, validUntil: int, customer: Option<int>, items: seq<QuoteItem>): State {
    s.(quotes := s.quotes[s.nextId := Quote(Draft, validUntil, customer, items, None)], nextId := s.nextId + 1)
  }

  function Edited(s: State, q: nat, validUntil: int, items: seq<QuoteItem>): State {
    if q in s.quotes && IsEditable(s.quotes[q].status)
    then s.(quotes := s.quotes[q := s.quotes[q].(validUntil := validUntil, items := items)])
    else s
  }

  function Moved(s: State, q: nat, a: QuoteAction, now: int): State {
    if q in s.quotes && MayMove(s.quotes[q], a, now)
    then s.(quotes := s.quotes[q := s.quotes[q].(status := To(a))],
            sentItems := if a == Send then s.sentItems[q := s.quotes[q].items] else s.sentItems)
    else s
  }

  /** A prospect's pending quotes get their reader once the customer links an account. */
  function Linked(s: State, q: nat, customer: int): State {
    if q in s.quotes && s.quotes[q].customer.None?
    then s.(quotes := s.quotes[q := s.quotes[q].(customer := Some(customer))])
    else s
  }

  function Removed(s: State, q: nat): State {
    if q in s.quotes && IsEditable(s.quotes[q].status) then s.(quotes := s.quotes - {q}) else s
  }

  function LoadedBy(s: State, q: nat): State {
    if q in s.quotes then s.(calls := s.calls + [Loaded(q, s.quotes[q])]) else s
  }

  /** The compare-and-set: one row in `approved` changes, or the call ends in a conflict. */
  function ClaimedBy(s: State, c: nat): State {
    if c < |s.calls| && s.calls[c].Loaded? then
      var q, seen := s.calls[c].quoteId, s.calls[c].seen;
      if q in s.quotes && s.quotes[q].status == Approved
      then s.(quotes := s.quotes[q := s.quotes[q].(status := Converted)], calls := s.calls[c := Claimed(q, seen)])
      else s.(calls := s.calls[c := Ended])
    else s
  }

  function OrderFor(s: State, c: nat, products: Catalogue): Option<Order>
    requires c < |s.calls| && s.calls[c].Claimed?
  {
    var q, seen := s.calls[c].quoteId, s.calls[c].seen;
    var lines := OrderLines(seen.items);
    if IsValidPayload(seen) && AllKnown(products, lines) && SnapshotOrder(products, lines).Success?
    then Some(Order(q, c, seen.status, seen.customer.value, lines, SnapshotOrder(products, lines).value))
    else None
  }

  /** Payload validation and `createInternal`; either may fail, with the claim already made. */
  function SubmittedBy(s: State, c: nat, products: Catalogue): State {
    if c < |s.calls| && s.calls[c].Claimed? then
      match OrderFor(s, c, products)
      case Some(o) => s.(orders := s.orders + [o], calls := s.calls[c := Created(o.origin, |s.orders|)])
      case None => s.(calls := s.calls[c := Ended])
    else s
  }

  function RecordedBy(s: State, c: nat): State {
    if c < |s.calls| && s.calls[c].Created? then
      var q, id := s.calls[c].quoteId, s.calls[c].orderId;
      s.(quotes := if q in s.quotes then s.quotes[q := s.quotes[q].(convertedOrderId := Some(id))] else s.quotes,
         calls := s.calls[c := Ended])
    else s
  }

  function Crashed(s: State, c: nat): State {
    if c < |s.calls| then s.(calls := s.calls[c := Ended]) else s
  }

  function Next(s: State, step: Step): State {
    match step
    case Author(validUntil, customer, items) => Authored(s, validUntil, customer, items)
    case Edit(q, validUntil, items) => Edited(s, q, validUntil, items)
    case Move(q, a, now) => Moved(s, q, a, now)
    case Link(q, customer) => Linked(s, q, customer)
    case Remove(q) => Removed(s, q)
    case Load(q) => LoadedBy(s, q)
    case Claim(c) => ClaimedBy(s, c)
    case Submit(c, products) => SubmittedBy(s, c, products)
    case Record(c) => RecordedBy(s, c)
    case Crash(c) => Crashed(s, c)
  }

  function Run(s: State, steps: seq<Step>): State
    decreases |steps|
  {
    if |steps| == 0 then s else Run(Next(s, steps[0]), steps[1..])
  }

  const START := State(map[], 0, [], [], map[])

  // What every reachable state keeps.

  predicate IsConverted(s: State, q: nat) {
    q in s.quotes && s.quotes[q].status == Converted
  }

  predicate Holds(c: Call, q: nat) {
    c.Claimed? && c.quoteId == q
  }

  predicate HasOrder(s: State, q: nat) {
    exists i :: 0 <= i < |s.orders| && s.orders[i].origin == q
  }

  /** A quote past draft has the items it was sent with. */
  predicate Frozen(s: State, q: nat) {
    q in s.quotes ==>
      && q < s.nextId
      && (s.quotes[q].status != Draft ==> q in s.sentItems && s.quotes[q].items == s.sentItems[q])
      && (s.quotes[q].convertedOrderId.Some? ==>
            var id := s.quotes[q].convertedOrderId.value; id < |s.orders| && s.orders[id].origin == q)
  }

  predicate ReadAsSent(s: State, q: nat, seen: Quote) {
    seen.status != Draft ==> q in s.quotes && s.quotes[q].status != Draft && q in s.sentItems && seen.items == s.sentItems[q]
  }

  predicate GoodCall(s: State, c: Call) {
    match c
    case Loaded(q, seen) => q < s.nextId && ReadAsSent(s, q, seen)
    case Claimed(q, seen) => ReadAsSent(s, q, seen) && IsConverted(s, q) && !HasOrder(s, q)
    case Created(q, id) => id < |s.orders| && s.orders[id].origin == q && IsConverted(s, q)
    case Ended => true
  }

  ghost predicate GoodOrder(s: State, o: Order) {
    && IsConverted(s, o.origin) && o.call < |s.calls|
    && (o.loadedAs != Draft ==> o.origin in s.sentItems && o.lines == OrderLines(s.sentItems[o.origin]))
    && IsSnapshot(o)
  }

  predicate IsSnapshotUnder(products: Catalogue, o: Order) {
    AllKnown(products, o.lines) && SnapshotOrder(products, o.lines) == Success(o.priced)
  }

  ghost predicate IsSnapshot(o: Order) {
    exists products :: IsSnapshotUnder(products, o)
  }

  predicate OneOrderEach(orders: seq<Order>) {
    forall i, j :: 0 <= i < j < |orders| ==> orders[i].origin != orders[j].origin
  }

  predicate OneHolderEach(calls: seq<Call>) {
    forall i, j :: 0 <= i < j < |calls| && calls[i].Claimed? && calls[j].Claimed? ==> calls[i].quoteId != calls[j].quoteId
  }

  ghost predicate Inv(s: State) {
    && (forall q :: Frozen(s, q))
    && (forall c :: 0 <= c < |s.calls| ==> GoodCall(s, s.calls[c]))
    && (forall i :: 0 <= i < |s.orders| ==> GoodOrder(s, s.orders[i]))
    && OneOrderEach(s.orders) && OneHolderEach(s.calls)
  }

  /**
   What no step takes back: the orders made, a conversion, the order recorded for it, and, once a quote has
   left draft, its items and the fact that it left.
   */
  predicate Persists(s: State, t: State, q: nat) {
    && (IsConverted(s, q) ==> IsConverted(t, q))
    && (q in s.quotes && s.quotes[q].status != Draft && q in s.sentItems ==>
          && q in t.quotes && t.quotes[q].status != Draft && q in t.sentItems && t.sentItems[q] == s.sentItems[q]
          && (s.quotes[q].convertedOrderId.Some? ==> t.quotes[q].convertedOrderId == s.quotes[q].convertedOrderId))
  }

  ghost predicate Extends(s: State, t: State) {
    && s.orders <= t.orders && s.nextId <= t.nextId && |s.calls| <= |t.calls|
    && forall q :: Persists(s, t, q)
  }

  lemma GoodCallPersists(s: State, t: State, c: Call)
    requires GoodCall(s, c) && Extends(s, t)
    requires c.Claimed? ==> !HasOrder(t, c.quoteId)
    ensures GoodCall(t, c)
  {
    if !c.Ended? {
      assert Persists(s, t, c.quoteId);
    }
  }

  lemma GoodOrderPersists(s: State, t: State, o: Order)
    requires GoodOrder(s, o) && Extends(s, t)
    ensures GoodOrder(t, o)
  {
    assert Persists(s, t, o.origin);
  }

  /** Steps of other operations: neither calls nor orders change. */
  lemma TablesOnly(s: State, t: State)
    requires Inv(s) && Extends(s, t) && t.orders == s.orders && t.calls == s.calls
    requires forall q :: Frozen(t, q)
    ensures Inv(t)
  {
    forall c | 0 <= c < |t.calls| ensures GoodCall(t, t.calls[c]) {
      assert GoodCall(s, s.calls[c]);
      GoodCallPersists(s, t, s.calls[c]);
    }
    forall i | 0 <= i < |t.orders| ensures GoodOrder(t, t.orders[i]) {
      GoodOrderPersists(s, t, s.orders[i]);
    }
  }

  lemma OneQuoteChanges(s: State, t: State, x: nat)
    requires Inv(s) && t.orders == s.orders && t.calls == s.calls && s.nextId <= t.nextId
    requires forall q :: q != x ==> Same(s, t, q)
    requires Persists(s, t, x) && Frozen(t, x)
    ensures Extends(s, t) && Inv(t)
  {
    forall q ensures Persists(s, t, q) && Frozen(t, q) {
      assert Frozen(s, q);
      assert q != x ==> Same(s, t, q);
    }
    TablesOnly(s, t);
  }

  predicate Same(s: State, t: State, q: nat) {
    && (q in s.quotes <==> q in t.quotes) && (q in s.quotes ==> s.quotes[q] == t.quotes[q])
    && (q in s.sentItems <==> q in t.sentItems) && (q in s.sentItems ==> s.sentItems[q] == t.sentItems[q])
  }

  predicate IsTableStep(step: Step) {
    step.Author? || step.Edit? || step.Move? || step.Link? || step.Remove?
  }

  lemma TableStepKeepsInv(s: State, step: Step)
    requires Inv(s) && IsTableStep(step)
    ensures Extends(s, Next(s, step)) && Inv(Next(s, step))
  {
    var x := if step.Author? then s.nextId else step.quoteId;
    assert Frozen(s, x);
    OneQuoteChanges(s, Next(s, step), x);
  }

  /** One call moves on: what it needs to keep the invariant, given the new tables. */
  lemma CallMoves(s: State, t: State, c: nat)
    requires Inv(s) && Extends(s, t) && c < |s.calls| && |t.calls| == |s.calls|
    requires forall k :: 0 <= k < |s.calls| && k != c ==> t.calls[k] == s.calls[k]
    requires GoodCall(t, t.calls[c])
    requires t.calls[c].Claimed? ==> !IsConverted(s, t.calls[c].quoteId)
    requires forall k :: 0 <= k < |s.calls| && k != c && s.calls[k].Claimed? ==> !HasOrder(t, s.calls[k].quoteId)
    requires |t.orders| > |s.orders| ==> |t.orders| == |s.orders| + 1 && GoodOrder(t, t.orders[|s.orders|])
    requires |t.orders| > |s.orders| ==> !HasOrder(s, t.orders[|s.orders|].origin)
    requires forall q :: Frozen(t, q)
    ensures Inv(t)
  {
    forall k | 0 <= k < |t.calls| ensures GoodCall(t, t.calls[k]) {
      assert GoodCall(s, s.calls[k]);
      if k != c {
        GoodCallPersists(s, t, s.calls[k]);
      }
    }
    forall i | 0 <= i < |t.orders| ensures GoodOrder(t, t.orders[i]) {
      if i < |s.orders| {
        GoodOrderPersists(s, t, s.orders[i]);
      }
    }
  }

  lemma LoadKeepsInv(s: State, q: nat)
    requires Inv(s)
    ensures Extends(s, LoadedBy(s, q)) && Inv(LoadedBy(s, q))
  {
    var t := LoadedBy(s, q);
    assert Frozen(s, q);
    forall c | 0 <= c < |t.calls| ensures GoodCall(t, t.calls[c]) {
      if c < |s.calls| {
        assert GoodCall(s, s.calls[c]);
        GoodCallPersists(s, t, s.calls[c]);
      }
    }
    forall i | 0 <= i < |t.orders| ensures GoodOrder(t, t.orders[i]) {
      GoodOrderPersists(s, t, s.orders[i]);
    }
    forall x ensures Frozen(t, x) {
      assert Frozen(s, x);
    }
  }

  /** Before the claim the quote was not converted, so it had neither an order nor another holder. */
  lemma ClaimKeepsInv(s: State, c: nat)
    requires Inv(s)
    ensures Extends(s, ClaimedBy(s, c)) && Inv(ClaimedBy(s, c))
  {
    var t := ClaimedBy(s, c);
    if c < |s.calls| && s.calls[c].Loaded? {
      assert GoodCall(s, s.calls[c]);
      forall q ensures Frozen(t, q) && Persists(s, t, q) {
        assert Frozen(s, q);
      }
      OthersHaveNoOrder(s, t, c);
      CallMoves(s, t, c);
    }
  }

  lemma OthersHaveNoOrder(s: State, t: State, c: nat)
    requires Inv(s) && t.orders == s.orders
    ensures forall k :: 0 <= k < |s.calls| && k != c && s.calls[k].Claimed? ==> !HasOrder(t, s.calls[k].quoteId)
  {
    forall k | 0 <= k < |s.calls| && k != c && s.calls[k].Claimed? ensures !HasOrder(t, s.calls[k].quoteId) {
      assert GoodCall(s, s.calls[k]);
    }
  }

  /** The holder of a claim is alone, so its order is the first of its quote. */
  lemma SubmitKeepsInv(s: State, c: nat, products: Catalogue)
    requires Inv(s)
    ensures Extends(s, SubmittedBy(s, c, products)) && Inv(SubmittedBy(s, c, products))
  {
    var t := SubmittedBy(s, c, products);
    if c < |s.calls| && s.calls[c].Claimed? {
      var call := s.calls[c];
      assert GoodCall(s, call);
      forall q ensures Frozen(t, q) && Persists(s, t, q) {
        assert Frozen(s, q);
      }
      if t.calls[c].Created? {
        var o := OrderFor(s, c, products).value;
        assert IsSnapshotUnder(products, o);
        forall k | 0 <= k < |s.calls| && k != c && s.calls[k].Claimed? ensures !HasOrder(t, s.calls[k].quoteId) {
          assert GoodCall(s, s.calls[k]);
          assert s.calls[k].quoteId != call.quoteId;
        }
      } else {
        OthersHaveNoOrder(s, t, c);
      }
      CallMoves(s, t, c);
    }
  }

  lemma RecordKeepsInv(s: State, c: nat)
    requires Inv(s)
    ensures Extends(s, RecordedBy(s, c)) && Inv(RecordedBy(s, c))
  {
    var t := RecordedBy(s, c);
    if c < |s.calls| && s.calls[c].Created? {
      assert GoodCall(s, s.calls[c]);
      forall q ensures Frozen(t, q) && Persists(s, t, q) {
        assert Frozen(s, q);
      }
      OthersHaveNoOrder(s, t, c);
      CallMoves(s, t, c);
    }
  }

  lemma CrashKeepsInv(s: State, c: nat)
    requires Inv(s)
    ensures Extends(s, Crashed(s, c)) && Inv(Crashed(s, c))
  {
    if c < |s.calls| {
      forall q ensures Frozen(Crashed(s, c), q) {
        assert Frozen(s, q);
      }
      OthersHaveNoOrder(s, Crashed(s, c), c);
      CallMoves(s, Crashed(s, c), c);
    }
  }

  lemma StepKeepsInv(s: State, step: Step)
    requires Inv(s)
    ensures Extends(s, Next(s, step)) && Inv(Next(s, step))
  {
    match step
    case Load(q) => LoadKeepsInv(s, q);
    case Claim(c) => ClaimKeepsInv(s, c);
    case Submit(c, products) => SubmitKeepsInv(s, c, products);
    case Record(c) => RecordKeepsInv(s, c);
    case Crash(c) => CrashKeepsInv(s, c);
    case _ => TableStepKeepsInv(s, step);
  }

  lemma ExtendsTransitively(s: State, t: State, u: State)
    requires Extends(s, t) && Extends(t, u)
    ensures Extends(s, u)
  {
    forall q ensures Persists(s, u, q) {
      assert Persists(s, t, q) && Persists(t, u, q);
    }
  }

  /**
   Every run keeps the invariant, and takes nothing back: conversions, orders, recorded order ids and the
   items of a quote past draft are final.
   */
  lemma {:induction false} RunKeepsInv(s: State, steps: seq<Step>)
    requires Inv(s)
    ensures Inv(Run(s, steps)) && Extends(s, Run(s, steps))
    decreases |steps|
  {
    if |steps| > 0 {
      StepKeepsInv(s, steps[0]);
      RunKeepsInv(Next(s, steps[0]), steps[1..]);
      ExtendsTransitively(s, Next(s, steps[0]), Run(s, steps));
    }
  }

  /** The life of a quote: what may follow what. */
  predicate MayFollow(before: QuoteStatus, after: QuoteStatus) {
    || before == after
    || (before == Draft && after == Sent)
    || (before == Sent && (after == Approved || after == Rejected))
    || (before == Approved && after == Converted)
  }

  /** Only a draft disappears, only a draft changes its items, and every status change is one the table allows. */
  lemma StatusFollowsTheTable(s: State, step: Step, q: nat)
    requires Inv(s) && q in s.quotes
    ensures q !in Next(s, step).quotes ==> s.quotes[q].status == Draft
    ensures q in Next(s, step).quotes ==>
              && MayFollow(s.quotes[q].status, Next(s, step).quotes[q].status)
              && (s.quotes[q].status != Draft ==> Next(s, step).quotes[q].items == s.quotes[q].items)
              && (Next(s, step).quotes[q].status == Converted && s.quotes[q].status != Converted ==>
                    step.Claim? && s.calls[step.call].Loaded? && s.calls[step.call].quoteId == q)
  {
    assert Frozen(s, q);
  }

  // The protocol's promises, over every run from empty tables.

  /** However many calls convert one quote, and wherever they stop, at most one order comes of it. */
  lemma AtMostOneOrder(steps: seq<Step>, i: nat, j: nat)
    requires var s := Run(START, steps); i < |s.orders| && j < |s.orders| && s.orders[i].origin == s.orders[j].origin
    ensures i == j
  {
    RunKeepsInv(START, steps);
  }

  /** An order exists only of a converted quote, and an order id on a quote names an order of that quote. */
  lemma OrdersComeFromConversions(steps: seq<Step>)
    ensures var s := Run(START, steps);
            && (forall i :: 0 <= i < |s.orders| ==> IsConverted(s, s.orders[i].origin))
            && forall q :: q in s.quotes && s.quotes[q].convertedOrderId.Some? ==>
                 var id := s.quotes[q].convertedOrderId.value; id < |s.orders| && s.orders[id].origin == q
  {
    RunKeepsInv(START, steps);
    var s := Run(START, steps);
    forall i | 0 <= i < |s.orders| ensures IsConverted(s, s.orders[i].origin) {
      assert GoodOrder(s, s.orders[i]);
    }
    forall q | q in s.quotes && s.quotes[q].convertedOrderId.Some?
      ensures var id := s.quotes[q].convertedOrderId.value; id < |s.orders| && s.orders[id].origin == q
    {
      assert Frozen(s, q);
    }
  }

  /** A call that loaded a quote past draft ships the lines the quote had when it was sent, which it still has. */
  lemma ShipsWhatWasSent(steps: seq<Step>, i: nat)
    requires i < |Run(START, steps).orders| && Run(START, steps).orders[i].loadedAs != Draft
    ensures var s := Run(START, steps); var o := s.orders[i];
            && o.origin in s.quotes && o.origin in s.sentItems
            && o.lines == OrderLines(s.sentItems[o.origin]) == OrderLines(s.quotes[o.origin].items)
  {
    RunKeepsInv(START, steps);
    var s := Run(START, steps);
    assert GoodOrder(s, s.orders[i]) && Frozen(s, s.orders[i].origin);
  }

  lemma {:induction false} SnapshotSucceeds(products: Catalogue, lines: seq<CartLine>)
    requires AllKnown(products, lines) && forall l :: l in lines ==> l.unitPrice.Some?
    ensures SnapshotOrder(products, lines).Success?
  {
    if |lines| > 0 {
      SnapshotSucceeds(products, lines[..|lines| - 1]);
      assert lines[|lines| - 1] in lines;
    }
  }

  function ConvertSteps(q: nat, c: nat, products: Catalogue): seq<Step> {
    [Load(q), Claim(c), Submit(c, products), Record(c)]
  }

  lemma ConvertRun(s: State, q: nat, c: nat, products: Catalogue)
    ensures Run(s, ConvertSteps(q, c, products)) == RecordedBy(SubmittedBy(ClaimedBy(LoadedBy(s, q), c), c, products), c)
  {
    var steps := ConvertSteps(q, c, products);
    var s1 := LoadedBy(s, q);
    var s2 := ClaimedBy(s1, c);
    var s3 := SubmittedBy(s2, c, products);
    assert steps[1..][1..][1..] == [Record(c)];
    assert Run(s3, [Record(c)]) == RecordedBy(s3, c) by {
      assert [Record(c)][1..] == [];
    }
    assert Run(s2, steps[1..][1..]) == Run(s3, steps[1..][1..][1..]);
    assert Run(s1, steps[1..]) == Run(s2, steps[1..][1..]);
  }

  /**
   From the rep's form to the order: whatever the run, an order whose call loaded the quote past draft has
   the subtotal, the tax and, line by line, the money the quote was priced with.
   */
  lemma OrderCarriesQuotedMoney(
      steps: seq<Step>, i: nat, ctx: Context, products: Catalogue, requests: seq<QuoteRequest>, quote: PricedQuote)
    requires AllListed(products, requests) && QuotedTotals(ctx, products, requests) == Success(quote)
    requires forall k :: k in quote.items ==> IsCents(k.qty) && IsCents(k.unitPrice)
    requires var s := Run(START, steps);
             && i < |s.orders| && s.orders[i].loadedAs != Draft
             && s.orders[i].origin in s.sentItems && s.sentItems[s.orders[i].origin] == quote.items
    ensures var o := Run(START, steps).orders[i].priced;
            && o.subtotal == quote.subtotal && o.taxTotal == quote.taxTotal
            && |o.items| == |quote.items|
            && forall k :: 0 <= k < |quote.items| ==> Carries(o.items[k], quote.items[k])
  {
    RunKeepsInv(START, steps);
    ShipsWhatWasSent(steps, i);
    var o := Run(START, steps).orders[i];
    assert GoodOrder(Run(START, steps), o);
    var current :| IsSnapshotUnder(current, o);
    QuotedItems(ctx, products, requests);
    forall k | k in quote.items ensures IsQuoted(current, k) {
      var j :| 0 <= j < |quote.items| && quote.items[j] == k;
      assert o.lines[j] in o.lines && o.lines[j] == OrderLine(Stored(k));
    }
    SnapshotOfStored(current, quote.items);
  }

  datatype ServiceError =
    | QuoteNotFound
    | CannotEdit(status: QuoteStatus)
    | CannotMove(status: QuoteStatus)
    | QuoteExpired
    | NotApproved(status: QuoteStatus)
    | InvalidPayload
    | OrderRejected(error: PricingError)

  /** The service as one caller at a time sees it; `calls` and `sentItems` are the history of the protocol. */
  class QuoteService {
    var quotes: map<nat, Quote>
    var nextId: nat
    var orders: seq<Order>
    var calls: seq<Call>
    ghost var sentItems: map<nat, seq<QuoteItem>>
    const products: Catalogue

    ghost function Tables(): State
      reads this
    {
      State(quotes, nextId, orders, calls, sentItems)
    }

    constructor (products: Catalogue)
      ensures Tables() == START && this.products == products
    {
      quotes, nextId, orders, calls, sentItems := map[], 0, [], [], map[];
      this.products := products;
    }

    method Transition(id: nat, action: QuoteAction, now: int) returns (r: Result<Quote, ServiceError>)
      modifies `quotes, `sentItems
      ensures Tables() == Next(old(Tables()), Move(id, action, now))
      ensures r.Success? <==> id in old(quotes) && MayMove(old(quotes)[id], action, now)
      ensures r.Success? ==> id in quotes && r.value == quotes[id] && r.value.status == To(action)
      ensures r.Failure? ==>
                r.error == (if id !in old(quotes) then QuoteNotFound
                            else if old(quotes)[id].status != From(action) then CannotMove(old(quotes)[id].status)
                            else QuoteExpired)
    {
      if id !in quotes {
        return Failure(QuoteNotFound);
      }
      var quote := quotes[id];
      if quote.status != From(action) {
        return Failure(CannotMove(quote.status));
      }
      if IsExpired(quote, now) {
        return Failure(QuoteExpired);
      }
      if action == Send {
        sentItems := sentItems[id := quote.items];
      }
      quotes := quotes[id := quote.(status := To(action))];
      return Success(quotes[id]);
    }

    /** `update` with the items its re-pricing made, or the ones it kept. */
    method Update(id: nat, validUntil: int, items: seq<QuoteItem>) returns (r: Result<Quote, ServiceError>)
      modifies `quotes
      ensures Tables() == Next(old(Tables()), Edit(id, validUntil, items))
      ensures r.Success? <==> id in old(quotes) && old(quotes)[id].status == Draft
      ensures r.Success? ==> id in quotes && r.value == quotes[id]
    {
      if id !in quotes {
        return Failure(QuoteNotFound);
      }
      if !IsEditable(quotes[id].status) {
        return Failure(CannotEdit(quotes[id].status));
      }
      quotes := quotes[id := quotes[id].(validUntil := validUntil, items := items)];
      return Success(quotes[id]);
    }

    method Delete(id: nat) returns (r: Result<(), ServiceError>)
      modifies `quotes
      ensures Tables() == Next(old(Tables()), Remove(id))
      ensures r.Success? <==> id in old(quotes) && old(quotes)[id].status == Draft
    {
      if id !in quotes {
        return Failure(QuoteNotFound);
      }
      if !IsEditable(quotes[id].status) {
        return Failure(CannotEdit(quotes[id].status));
      }
      quotes := quotes - {id};
      return Success(());
    }

    /** `UPDATE … SET status = to WHERE id = … AND status = from`: how many rows it changed. */
    method UpdateWhere(id: nat, from: QuoteStatus, to: QuoteStatus) returns (affected: nat)
      modifies `quotes
      ensures affected == if id in old(quotes) && old(quotes)[id].status == from then 1 else 0
      ensures quotes == if affected == 1 then old(quotes)[id := old(quotes)[id].(status := to)] else old(quotes)
    {
      if id in quotes && quotes[id].status == from {
        quotes := quotes[id := quotes[id].(status := to)];
        return 1;
      }
      return 0;
    }

    /**
     A whole `convert` with nothing in between is the four steps of the protocol. It succeeds exactly for an
     approved quote with a valid payload of known products, and then the quote names the one order added.
     */
    method Convert(id: nat) returns (r: Result<Quote, ServiceError>)
      modifies `quotes, `orders, `calls
      ensures Tables() == Run(old(Tables()), ConvertSteps(id, |old(calls)|, products))
      ensures r.Success? <==>
                && id in old(quotes) && old(quotes)[id].status == Approved
                && IsValidPayload(old(quotes)[id]) && AllKnown(products, OrderLines(old(quotes)[id].items))
      ensures r.Success? ==>
                && quotes == old(quotes)[id := r.value]
                && r.value == old(quotes)[id].(status := Converted, convertedOrderId := Some(|old(orders)|))
                && |orders| == |old(orders)| + 1 && orders[..|old(orders)|] == old(orders)
      ensures r.Failure? ==> orders == old(orders)
    {
      ConvertRun(Tables(), id, |calls|, products);
      if id !in quotes {
        return Failure(QuoteNotFound);
      }
      var c, quote := |calls|, quotes[id];
      calls := calls + [Loaded(id, quote)];
      var affected := UpdateWhere(id, Approved, Converted);
      if affected != 1 {
        calls := calls[c := Ended];
        return Failure(NotApproved(quote.status));
      }
      calls := calls[c := Claimed(id, quote)];
      assert Tables() == ClaimedBy(LoadedBy(old(Tables()), id), c);
      r := CreateAndRecord(id, quote, c);
    }

    /** What `convert` does once the claim is made. */
    method CreateAndRecord(id: nat, quote: Quote, c: nat) returns (r: Result<Quote, ServiceError>)
      requires id in quotes && c < |calls| && calls[c] == Claimed(id, quote)
      modifies `quotes, `orders, `calls
      ensures Tables() == RecordedBy(SubmittedBy(old(Tables()), c, products), c)
      ensures r.Success? <==> IsValidPayload(quote) && AllKnown(products, OrderLines(quote.items))
      ensures r.Success? ==>
                && quotes == old(quotes)[id := r.value]
                && r.value == old(quotes)[id].(convertedOrderId := Some(|old(orders)|))
                && |orders| == |old(orders)| + 1 && orders[..|old(orders)|] == old(orders)
      ensures r.Failure? ==> orders == old(orders)
    {
      if !IsValidPayload(quote) {
        calls := calls[c := Ended];
        return Failure(InvalidPayload);
      }
      var lines := OrderLines(quote.items);
      var priced := SnapshotLines(products, lines);
      if AllKnown(products, lines) {
        SnapshotSucceeds(products, lines);
      }
      if priced.Failure? {
        calls := calls[c := Ended];
        return Failure(OrderRejected(priced.error));
      }
      var orderId := |orders|;
      orders := orders + [Order(id, c, quote.status, quote.customer.value, lines, priced.value)];
      quotes := quotes[id := quotes[id].(convertedOrderId := Some(orderId))];
      calls := calls[c := Ended];
      return Success(quotes[id]);
    }
  }
}
