/**
 The stock ledger as a state machine: every reserve and release is a transaction of its own, so orders
 interleave line by line, loops fail partway, and adjustments and supplier syncs land in between.
 */
module StockLedger {
  import opened Wrappers
  import opened Money
  import opened Inventory
  import opened StockTable
  import opened OrderStock

  /** Where an order is: settled in a status, or inside one of the loops at line `next`. */
  datatype Stage =
    | Settled(status: OrderStatus)
    | Placing(next: nat)
    | Confirming(from: OrderStatus, next: nat)
    | Cancelling(from: OrderStatus, next: nat)
    | RolledBack

  datatype OrderState = OrderState(branch: Option<int>, items: seq<StockLine>, stage: Stage)

  datatype Ledger = Ledger(table: Table, orders: seq<OrderState>)

  /** `Advance` runs the next turn of an order's loop, or the status change behind it. */
  datatype Event =
    | Place(branch: Option<int>, items: seq<StockLine>, status: OrderStatus)
    | Confirm(order: nat)
    | Prepare(order: nat)
    | Cancel(order: nat)
    | Advance(order: nat)
    | Abort(order: nat)
    | AddRow(key: Key, row: Row)
    | Mutate(key: Key, mutation: Mutation)
    | Upsert(key: Key, feed: nat)
    | ZeroOut(key: Key)

  function WithStage(l: Ledger, o: nat, stage: Stage): Ledger
    requires o < |l.orders|
  {
    l.(orders := l.orders[o := l.orders[o].(stage := stage)])
  }

  /** An order row is written as a draft at once; a confirmed one reserves inside its own creation. */
  function Placed(l: Ledger, branch: Option<int>, items: seq<StockLine>, status: OrderStatus): Ledger {
    l.(orders := l.orders + [OrderState(branch, items, if status == Confirmed then Placing(0) else Settled(status))])
  }

  /** What a stage falls back to when its request throws: nothing but the status change is undone. */
  function Thrown(stage: Stage): Stage {
    match stage
    case Placing(_) => RolledBack
    case Confirming(from, _) => Settled(from)
    case Cancelling(from, _) => Settled(from)
    case Settled(_) => stage
    case RolledBack => stage
  }

  function Advanced(l: Ledger, o: nat): Ledger
    requires o < |l.orders|
  {
    var order := l.orders[o];
    match order.stage
    case Placing(k) => ReserveNext(l, o, k, Settled(Confirmed), Placing(k + 1))
    case Confirming(from, k) => ReserveNext(l, o, k, Settled(Confirmed), Confirming(from, k + 1))
    case Cancelling(from, k) =>
      if order.branch.None? || k >= |order.items| then WithStage(l, o, Settled(Cancelled))
      else
        (match ReleaseLine(l.table, order.branch.value, order.items[k])
         case Failure(_) => WithStage(l, o, Thrown(order.stage))
         case Success(t) => WithStage(l, o, Cancelling(from, k + 1)).(table := t))
    case Settled(_) => l
    case RolledBack => l
  }

  function ReserveNext(l: Ledger, o: nat, k: nat, finished: Stage, more: Stage): Ledger
    requires o < |l.orders|
  {
    var order := l.orders[o];
    if order.branch.None? then WithStage(l, o, Thrown(order.stage))
    else if k >= |order.items| then WithStage(l, o, finished)
    else
      match ReserveLine(l.table, order.branch.value, order.items[k])
      case Failure(_) => WithStage(l, o, Thrown(order.stage))
      case Success(t) => WithStage(l, o, more).(table := t)
  }

  /** A request the service refuses leaves everything as it is. */
  function Step(l: Ledger, e: Event): Ledger {
    match e
    case Place(branch, items, status) => Placed(l, branch, items, status)
    case Confirm(o) =>
      if o < |l.orders| && l.orders[o].stage.Settled? && l.orders[o].stage.status !in {Confirmed, Cancelled}
      then WithStage(l, o, Confirming(l.orders[o].stage.status, 0)) else l
    case Prepare(o) =>
      if o < |l.orders| && l.orders[o].stage == Settled(Confirmed) then WithStage(l, o, Settled(Preparing)) else l
    case Cancel(o) =>
      if o < |l.orders| && l.orders[o].stage.Settled? && l.orders[o].stage.status != Cancelled
      then WithStage(l, o, if HoldsStock(l.orders[o].stage.status) then Cancelling(l.orders[o].stage.status, 0)
                           else Settled(Cancelled))
      else l
    case Advance(o) => if o < |l.orders| then Advanced(l, o) else l
    case Abort(o) => if o < |l.orders| then WithStage(l, o, Thrown(l.orders[o].stage)) else l
    case AddRow(k, row) => if k in l.table then l else l.(table := l.table[k := row])
    case Mutate(k, m) =>
      (match MutatedTable(l.table, k, m)
       case Success(t) => l.(table := t)
       case Failure(_) => l)
    case Upsert(k, feed) => l.(table := l.table[k := UpsertedRow(Lookup(l.table, k), feed)])
    case ZeroOut(k) =>
      if k in l.table && l.table[k].stock > l.table[k].reserved
      then l.(table := l.table[k := Row(l.table[k].reserved, l.table[k].reserved)]) else l
  }

  /**
   What the ledger relies on: no order is created already preparing, nobody releases or consumes stock by
   hand, rows are created valid, and a cancel is not broken off between its releases and its status change.
   */
  predicate Permitted(l: Ledger, e: Event) {
    match e
    case Place(_, _, status) => status != Preparing
    case AddRow(_, row) => ValidRow(row)
    case Mutate(_, m) => !m.Release? && !m.ConsumeReserved?
    case Abort(o) => o < |l.orders| ==> !l.orders[o].stage.Cancelling?
    case _ => true
  }

  function Run(l: Ledger, events: seq<Event>): Ledger {
    if |events| == 0 then l else Step(Run(l, events[..|events| - 1]), events[|events| - 1])
  }

  predicate PermittedRun(l: Ledger, events: seq<Event>) {
    |events| == 0 ||
    (PermittedRun(l, events[..|events| - 1]) && Permitted(Run(l, events[..|events| - 1]), events[|events| - 1]))
  }

  /** Units of a row that an order still has a claim to. */
  function Owes(order: OrderState, k: Key): int {
    if order.branch.None? then 0
    else
      var b, items, n := order.branch.value, order.items, |order.items|;
      match order.stage
      case Settled(s) => if HoldsStock(s) then Demand(items, b, 0, n, k) else 0
      case Placing(i) => if i <= n then Demand(items, b, 0, i, k) else 0
      case Confirming(from, i) =>
        (if HoldsStock(from) then Demand(items, b, 0, n, k) else 0) + (if i <= n then Demand(items, b, 0, i, k) else 0)
      case Cancelling(from, i) => if i <= n then Demand(items, b, i, n, k) else 0
      case RolledBack => 0
  }

  function TotalOwed(orders: seq<OrderState>, k: Key): int {
    if |orders| == 0 then 0 else TotalOwed(orders[..|orders| - 1], k) + Owes(orders[|orders| - 1], k)
  }

  /** An order that holds or is taking stock has a branch and has taken positive quantities only. */
  ghost predicate SoundOrder(order: OrderState) {
    var n := |order.items|;
    match order.stage
    case Settled(s) => HoldsStock(s) ==> order.branch.Some? && PositiveLines(order.items, 0, n)
    case Placing(i) => i <= n && PositiveLines(order.items, 0, i)
    case Confirming(from, i) =>
      && i <= n && PositiveLines(order.items, 0, i)
      && (HoldsStock(from) ==> order.branch.Some? && PositiveLines(order.items, 0, n))
    case Cancelling(from, i) => i <= n && HoldsStock(from) && PositiveLines(order.items, 0, n)
    case RolledBack => true
  }

  /** Every row is valid and reserves at least what orders still have a claim to. */
  ghost predicate Inv(l: Ledger) {
    && ValidTable(l.table)
    && (forall o :: 0 <= o < |l.orders| ==> SoundOrder(l.orders[o]))
    && (forall k :: TotalOwed(l.orders, k) <= ReservedAt(l.table, k))
  }

  lemma OwesNotNegative(order: OrderState, k: Key)
    requires SoundOrder(order)
    ensures Owes(order, k) >= 0
  {
    if order.branch.Some? {
      var b, n := order.branch.value, |order.items|;
      match order.stage
      case Settled(s) => if HoldsStock(s) { DemandNotNegative(order.items, b, 0, n, k); }
      case Placing(i) => DemandNotNegative(order.items, b, 0, i, k);
      case Confirming(from, i) =>
        DemandNotNegative(order.items, b, 0, i, k);
        if HoldsStock(from) { DemandNotNegative(order.items, b, 0, n, k); }
      case Cancelling(_, i) => DemandNotNegative(order.items, b, i, n, k);
      case RolledBack =>
    }
  }

  lemma {:induction false} TotalOwedAfter(orders: seq<OrderState>, o: nat, order: OrderState, k: Key)
    requires o < |orders|
    ensures TotalOwed(orders[o := order], k) == TotalOwed(orders, k) - Owes(orders[o], k) + Owes(order, k)
  {
    var n := |orders| - 1;
    if o < n {
      assert orders[o := order][..n] == orders[..n][o := order];
      TotalOwedAfter(orders[..n], o, order, k);
    } else {
      assert orders[o := order][..n] == orders[..n];
    }
  }

  lemma {:induction false} OneOfTotal(orders: seq<OrderState>, o: nat, k: Key)
    requires o < |orders| && forall i :: 0 <= i < |orders| ==> SoundOrder(orders[i])
    ensures 0 <= Owes(orders[o], k) <= TotalOwed(orders, k)
  {
    var n := |orders| - 1;
    OwesNotNegative(orders[n], k);
    OwesNotNegative(orders[o], k);
    if o < n {
      OneOfTotal(orders[..n], o, k);
    } else if n > 0 {
      OneOfTotal(orders[..n], 0, k);
    }
  }

  /** Replacing one order keeps the invariant when the row it moved follows its claim. */
  lemma OrderStepKeepsInv(l: Ledger, o: nat, stage: Stage, t: Table)
    requires Inv(l) && o < |l.orders|
    requires ValidTable(t) && SoundOrder(l.orders[o].(stage := stage))
    requires forall k :: Owes(l.orders[o].(stage := stage), k) - Owes(l.orders[o], k) <= ReservedAt(t, k) - ReservedAt(l.table, k)
    ensures Inv(WithStage(l, o, stage).(table := t))
  {
    var l' := WithStage(l, o, stage).(table := t);
    forall k ensures TotalOwed(l'.orders, k) <= ReservedAt(t, k) {
      TotalOwedAfter(l.orders, o, l.orders[o].(stage := stage), k);
    }
  }

  /** A table that keeps its reserved quantities keeps the invariant. */
  lemma TableStepKeepsInv(l: Ledger, t: Table)
    requires Inv(l) && ValidTable(t)
    requires forall k :: ReservedAt(l.table, k) <= ReservedAt(t, k)
    ensures Inv(l.(table := t))
  {
  }

  /** A claim in progress grows by the line that was just reserved. */
  lemma ReserveNextKeepsInv(l: Ledger, o: nat, k: nat, finished: Stage, more: Stage)
    requires Inv(l) && o < |l.orders|
    requires var stage := l.orders[o].stage;
             || (stage == Placing(k) && more == Placing(k + 1))
             || (stage.Confirming? && stage.next == k && more == Confirming(stage.from, k + 1))
    requires finished == Settled(Confirmed)
    ensures Inv(ReserveNext(l, o, k, finished, more))
  {
    var order := l.orders[o];
    if order.branch.None? {
      OrderStepKeepsInv(l, o, Thrown(order.stage), l.table);
    } else if k >= |order.items| {
      ClaimsDrop(order, finished);
      OrderStepKeepsInv(l, o, finished, l.table);
    } else {
      var b := order.branch.value;
      match ReserveLine(l.table, b, order.items[k])
      case Failure(_) =>
        ClaimsDrop(order, Thrown(order.stage));
        OrderStepKeepsInv(l, o, Thrown(order.stage), l.table);
      case Success(t) =>
        ReserveLineMoves(l.table, b, order.items[k]);
        forall q ensures Owes(order.(stage := more), q) - Owes(order, q) <= ReservedAt(t, q) - ReservedAt(l.table, q) {
          DemandSplits(order.items, b, 0, k, k + 1, q);
          assert Demand(order.items, b, k + 1, k + 1, q) == 0;
        }
        OrderStepKeepsInv(l, o, more, t);
    }
  }

  /** Finishing or abandoning a reserving loop never raises the order's claim. */
  lemma ClaimsDrop(order: OrderState, to: Stage)
    requires SoundOrder(order) && (order.stage.Placing? || order.stage.Confirming?) && order.branch.Some?
    requires to == Thrown(order.stage) || (to == Settled(Confirmed) && order.stage.next == |order.items|)
    ensures SoundOrder(order.(stage := to))
    ensures forall k :: Owes(order.(stage := to), k) <= Owes(order, k)
  {
    forall k ensures Owes(order.(stage := to), k) <= Owes(order, k) {
      var b, n := order.branch.value, |order.items|;
      DemandNotNegative(order.items, b, 0, order.stage.next, k);
      if order.stage.Confirming? && HoldsStock(order.stage.from) {
        DemandNotNegative(order.items, b, 0, n, k);
      }
    }
  }

  /** The reserved quantity of a row covers the next line of any cancel in progress. */
  lemma NextReleaseIsCovered(l: Ledger, o: nat)
    requires Inv(l) && o < |l.orders| && l.orders[o].stage.Cancelling?
    requires l.orders[o].branch.Some? && l.orders[o].stage.next < |l.orders[o].items|
    ensures var order := l.orders[o];
            var line := order.items[order.stage.next];
            var k := LineKey(line, order.branch.value);
            k in l.table && 0 < Units(line) <= l.table[k].reserved
  {
    var order := l.orders[o];
    var b, i, n := order.branch.value, order.stage.next, |order.items|;
    var k := LineKey(order.items[i], b);
    OneOfTotal(l.orders, o, k);
    DemandNotNegative(order.items, b, i + 1, n, k);
    assert Owes(order, k) == Units(order.items[i]) + Demand(order.items, b, i + 1, n, k);
  }

  lemma CancelAdvanceKeepsInv(l: Ledger, o: nat)
    requires Inv(l) && o < |l.orders| && l.orders[o].stage.Cancelling?
    ensures Inv(Advanced(l, o))
  {
    var order := l.orders[o];
    var i, n := order.stage.next, |order.items|;
    if order.branch.None? || i >= n {
      OrderStepKeepsInv(l, o, Settled(Cancelled), l.table);
    } else {
      var b := order.branch.value;
      NextReleaseIsCovered(l, o);
      ReleaseLineMoves(l.table, b, order.items[i]);
      var t := ReleaseLine(l.table, b, order.items[i]).value;
      OrderStepKeepsInv(l, o, Cancelling(order.stage.from, i + 1), t);
    }
  }

  lemma StatusStepKeepsInv(l: Ledger, o: nat, stage: Stage)
    requires Inv(l) && o < |l.orders| && l.orders[o].stage.Settled?
    requires var s := l.orders[o].stage.status;
             || stage == Confirming(s, 0)
             || (s == Confirmed && stage == Settled(Preparing))
             || (HoldsStock(s) && stage == Cancelling(s, 0))
             || (!HoldsStock(s) && stage == Settled(Cancelled))
    ensures Inv(WithStage(l, o, stage))
  {
    OrderStepKeepsInv(l, o, stage, l.table);
    assert WithStage(l, o, stage).(table := l.table) == WithStage(l, o, stage);
  }

  lemma AbortKeepsInv(l: Ledger, o: nat)
    requires Inv(l) && o < |l.orders| && !l.orders[o].stage.Cancelling?
    ensures Inv(WithStage(l, o, Thrown(l.orders[o].stage)))
  {
    var order := l.orders[o];
    if order.branch.Some? && (order.stage.Placing? || order.stage.Confirming?) {
      ClaimsDrop(order, Thrown(order.stage));
    }
    OrderStepKeepsInv(l, o, Thrown(order.stage), l.table);
    assert WithStage(l, o, Thrown(order.stage)).(table := l.table) == WithStage(l, o, Thrown(order.stage));
  }

  lemma PlaceKeepsInv(l: Ledger, branch: Option<int>, items: seq<StockLine>, status: OrderStatus)
    requires Inv(l) && status != Preparing
    ensures Inv(Placed(l, branch, items, status))
  {
    var l' := Placed(l, branch, items, status);
    forall k ensures TotalOwed(l'.orders, k) == TotalOwed(l.orders, k) {
      assert l'.orders[..|l.orders|] == l.orders;
    }
  }

  lemma StepKeepsInv(l: Ledger, e: Event)
    requires Inv(l) && Permitted(l, e)
    ensures Inv(Step(l, e))
  {
    match e
    case Place(branch, items, status) => PlaceKeepsInv(l, branch, items, status);
    case Confirm(o) => if Step(l, e) != l { StatusStepKeepsInv(l, o, Confirming(l.orders[o].stage.status, 0)); }
    case Prepare(o) => if Step(l, e) != l { StatusStepKeepsInv(l, o, Settled(Preparing)); }
    case Cancel(o) =>
      if Step(l, e) != l {
        var s := l.orders[o].stage.status;
        StatusStepKeepsInv(l, o, if HoldsStock(s) then Cancelling(s, 0) else Settled(Cancelled));
      }
    case Advance(o) =>
      if o < |l.orders| {
        match l.orders[o].stage
        case Placing(k) => ReserveNextKeepsInv(l, o, k, Settled(Confirmed), Placing(k + 1));
        case Confirming(from, k) => ReserveNextKeepsInv(l, o, k, Settled(Confirmed), Confirming(from, k + 1));
        case Cancelling(_, _) => CancelAdvanceKeepsInv(l, o);
        case Settled(_) =>
        case RolledBack =>
      }
    case Abort(o) => if o < |l.orders| { AbortKeepsInv(l, o); }
    case AddRow(_, _) => TableStepKeepsInv(l, Step(l, e).table);
    case Mutate(_, _) => TableStepKeepsInv(l, Step(l, e).table);
    case Upsert(_, _) => TableStepKeepsInv(l, Step(l, e).table);
    case ZeroOut(_) => TableStepKeepsInv(l, Step(l, e).table);
  }

  /** In every state of every permitted run rows are valid and reserved covers what is owed. */
  lemma {:induction false} EveryRunIsCovered(l: Ledger, events: seq<Event>)
    requires Inv(l) && PermittedRun(l, events)
    ensures Inv(Run(l, events))
  {
    if |events| > 0 {
      EveryRunIsCovered(l, events[..|events| - 1]);
      StepKeepsInv(Run(l, events[..|events| - 1]), events[|events| - 1]);
    }
  }

  /** The next turn of a cancel would raise `InvalidReleaseError`, or any other refusal. */
  predicate ReleaseRaises(l: Ledger, o: nat) {
    && o < |l.orders| && l.orders[o].stage.Cancelling? && l.orders[o].branch.Some?
    && l.orders[o].stage.next < |l.orders[o].items|
    && ReleaseLine(l.table, l.orders[o].branch.value, l.orders[o].items[l.orders[o].stage.next]).Failure?
  }

  /** From an empty order book over valid rows no run ever reaches a cancel whose release is refused. */
  lemma CancelNeverRaises(table: Table, events: seq<Event>, o: nat)
    requires ValidTable(table) && PermittedRun(Ledger(table, []), events)
    ensures !ReleaseRaises(Run(Ledger(table, []), events), o)
  {
    var l := Run(Ledger(table, []), events);
    EveryRunIsCovered(Ledger(table, []), events);
    if o < |l.orders| && l.orders[o].stage.Cancelling? && l.orders[o].branch.Some?
       && l.orders[o].stage.next < |l.orders[o].items| {
      NextReleaseIsCovered(l, o);
      ReleaseLineMoves(l.table, l.orders[o].branch.value, l.orders[o].items[l.orders[o].stage.next]);
    }
  }

  /** `n` turns of one order with nothing in between. */
  function AdvanceMany(l: Ledger, o: nat, n: nat): (r: Ledger)
    ensures |r.orders| == |l.orders|
    decreases n
  {
    if n == 0 then l else AdvanceMany(Step(l, Advance(o)), o, n - 1)
  }

  /** Left alone, the turns of a confirm are the loop that `OrderService.Confirm` runs. */
  lemma {:induction false} UninterruptedConfirm(l: Ledger, o: nat)
    requires o < |l.orders| && l.orders[o].stage.Confirming? && l.orders[o].branch.Some?
    requires l.orders[o].stage.next <= |l.orders[o].items|
    ensures var order := l.orders[o];
            var p := ReserveFrom(l.table, order.branch.value, order.items, order.stage.next);
            AdvanceMany(l, o, p.done - order.stage.next + 1)
            == WithStage(l, o, Settled(if p.error.None? then Confirmed else order.stage.from)).(table := p.table)
    decreases |l.orders[o].items| - l.orders[o].stage.next
  {
    var order := l.orders[o];
    var k := order.stage.next;
    var p := ReserveFrom(l.table, order.branch.value, order.items, k);
    var l' := Step(l, Advance(o));
    if k < |order.items| && ReserveLine(l.table, order.branch.value, order.items[k]).Success? {
      assert p == ReserveFrom(l'.table, order.branch.value, order.items, k + 1);
      UninterruptedConfirm(l', o);
      assert AdvanceMany(l, o, p.done - k + 1) == AdvanceMany(l', o, p.done - k);
      assert l'.orders == l.orders[o := order.(stage := Confirming(order.stage.from, k + 1))];
    } else {
      assert p.done == k;
      assert AdvanceMany(l, o, 1) == AdvanceMany(l', o, 0) == l';
    }
  }

  /** And the turns of a cancel are the loop behind `OrderService.Cancel`. */
  lemma {:induction false} UninterruptedCancel(l: Ledger, o: nat)
    requires o < |l.orders| && l.orders[o].stage.Cancelling? && l.orders[o].branch.Some?
    requires l.orders[o].stage.next <= |l.orders[o].items|
    ensures var order := l.orders[o];
            var p := ReleaseFrom(l.table, order.branch.value, order.items, order.stage.next);
            AdvanceMany(l, o, p.done - order.stage.next + 1)
            == WithStage(l, o, Settled(if p.error.None? then Cancelled else order.stage.from)).(table := p.table)
    decreases |l.orders[o].items| - l.orders[o].stage.next
  {
    var order := l.orders[o];
    var k := order.stage.next;
    var p := ReleaseFrom(l.table, order.branch.value, order.items, k);
    var l' := Step(l, Advance(o));
    if k < |order.items| && ReleaseLine(l.table, order.branch.value, order.items[k]).Success? {
      assert p == ReleaseFrom(l'.table, order.branch.value, order.items, k + 1);
      UninterruptedCancel(l', o);
      assert AdvanceMany(l, o, p.done - k + 1) == AdvanceMany(l', o, p.done - k);
      assert l'.orders == l.orders[o := order.(stage := Cancelling(order.stage.from, k + 1))];
    } else {
      assert p.done == k;
      assert AdvanceMany(l, o, 1) == AdvanceMany(l', o, 0) == l';
    }
  }

  /** A whole confirm, left alone. */
  function ConfirmedInFull(l: Ledger, o: nat): Ledger
    requires o < |l.orders|
  {
    AdvanceMany(Step(l, Confirm(o)), o, |l.orders[o].items| + 1)
  }

  /** A whole cancel, left alone. */
  function CancelledInFull(l: Ledger, o: nat): Ledger
    requires o < |l.orders|
  {
    AdvanceMany(Step(l, Cancel(o)), o, |l.orders[o].items| + 1)
  }

  lemma WholeConfirm(l: Ledger, o: nat)
    requires o < |l.orders| && l.orders[o].branch.Some?
    requires l.orders[o].stage.Settled? && l.orders[o].stage.status !in {Confirmed, Cancelled}
    requires ReserveFrom(l.table, l.orders[o].branch.value, l.orders[o].items, 0).error.None?
    ensures ConfirmedInFull(l, o)
            == WithStage(l, o, Settled(Confirmed)).(table := ReserveFrom(l.table, l.orders[o].branch.value, l.orders[o].items, 0).table)
  {
    UninterruptedConfirm(Step(l, Confirm(o)), o);
  }

  lemma WholeCancel(l: Ledger, o: nat)
    requires o < |l.orders| && l.orders[o].branch.Some?
    requires l.orders[o].stage.Settled? && HoldsStock(l.orders[o].stage.status)
    requires ReleaseFrom(l.table, l.orders[o].branch.value, l.orders[o].items, 0).error.None?
    ensures CancelledInFull(l, o)
            == WithStage(l, o, Settled(Cancelled)).(table := ReleaseFrom(l.table, l.orders[o].branch.value, l.orders[o].items, 0).table)
  {
    UninterruptedCancel(Step(l, Cancel(o)), o);
  }

  /**
   The reservation round trip: confirm an order that holds nothing, prepare it or not, cancel it, and every
   row is as it was.
   */
  lemma ConfirmThenCancelRestores(l: Ledger, o: nat, prepare: bool)
    requires o < |l.orders| && ValidTable(l.table) && l.orders[o].branch.Some?
    requires l.orders[o].stage.Settled? && !HoldsStock(l.orders[o].stage.status) && l.orders[o].stage.status != Cancelled
    requires ReserveFrom(l.table, l.orders[o].branch.value, l.orders[o].items, 0).error.None?
    ensures var held := ConfirmedInFull(l, o);
            && held.orders == WithStage(l, o, Settled(Confirmed)).orders
            && var kept := if prepare then Step(held, Prepare(o)) else held;
               CancelledInFull(kept, o) == WithStage(l, o, Settled(Cancelled))
  {
    WholeConfirm(l, o);
    ReserveThenReleaseRestores(l.table, l.orders[o].branch.value, l.orders[o].items);
    var held := ConfirmedInFull(l, o);
    WholeCancel(if prepare then Step(held, Prepare(o)) else held, o);
  }
}
