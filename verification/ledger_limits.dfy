/**
 Where the stock ledger stops short of what one would expect of it: which cancels are refused, and which
 requests leave stock set aside that no order has a claim to.
 */
module LedgerLimits {
  import opened Wrappers
  import opened Inventory
  import opened StockTable
  import opened OrderStock
  import opened StockLedger

  // What happens between the steps of orders.

  /** Adjustments and syncs do to one row what the repository does, and to nothing else. */
  lemma EnvironmentSteps(l: Ledger, k: Key)
    ensures forall row :: Step(l, AddRow(k, row)) == if k in l.table then l else l.(table := l.table[k := row])
    ensures forall m :: Step(l, StockLedger.Mutate(k, m))
                        == if MutatedTable(l.table, k, m).Success? then l.(table := MutatedTable(l.table, k, m).value) else l
    ensures forall feed: nat ::
              var t := Step(l, Upsert(k, feed));
              && t == l.(table := l.table[k := t.table[k]]) && t.table[k].reserved == ReservedAt(l.table, k)
              && t.table[k].stock == if feed < ReservedAt(l.table, k) then ReservedAt(l.table, k) else feed
    ensures var t := Step(l, ZeroOut(k));
            if k in l.table && l.table[k].reserved < l.table[k].stock
            then t == l.(table := l.table[k := t.table[k]]) && t.table[k].stock == t.table[k].reserved == l.table[k].reserved
            else t == l
  {
  }

  /** Which requests on an order begin, by its status: each in the statuses named and in no other. */
  lemma RequestsBegin(l: Ledger, o: nat)
    requires o < |l.orders| && l.orders[o].stage.Settled?
    ensures var status := l.orders[o].stage.status;
            && Step(l, Confirm(o)) == (if status in {Confirmed, Cancelled} then l else WithStage(l, o, Confirming(status, 0)))
            && Step(l, Prepare(o)) == (if status == Confirmed then WithStage(l, o, Settled(Preparing)) else l)
            && Step(l, Cancel(o)) == (if status in {Confirmed, Preparing} then WithStage(l, o, Cancelling(status, 0))
                                      else if status == Cancelled then l else WithStage(l, o, Settled(Cancelled)))
  {
  }

  // When a cancel is refused.

  /** Some turn of a cancel, left alone, would be refused. */
  ghost predicate CancelRaises(l: Ledger, o: nat)
    requires o < |l.orders|
  {
    exists n: nat :: ReleaseRaises(AdvanceMany(Step(l, Cancel(o)), o, n), o)
  }

  lemma {:induction false} SettledStays(l: Ledger, o: nat, n: nat)
    requires o < |l.orders| && (l.orders[o].stage.Settled? || l.orders[o].stage.RolledBack?)
    ensures AdvanceMany(l, o, n) == l
    decreases n
  {
    if n > 0 {
      SettledStays(l, o, n - 1);
    }
  }

  lemma {:induction false} AdvancesAdd(l: Ledger, o: nat, m: nat, n: nat)
    ensures AdvanceMany(l, o, m + n) == AdvanceMany(AdvanceMany(l, o, m), o, n)
    decreases m
  {
    if m > 0 {
      var next := Step(l, Advance(o));
      AdvancesAdd(next, o, m - 1, n);
      assert AdvanceMany(l, o, m + n) == AdvanceMany(next, o, (m - 1) + n);
      assert AdvanceMany(l, o, m) == AdvanceMany(next, o, m - 1);
    }
  }

  lemma {:induction false} RefusedTurn(l: Ledger, o: nat)
    requires o < |l.orders| && l.orders[o].stage.Cancelling? && l.orders[o].branch.Some?
    requires l.orders[o].stage.next <= |l.orders[o].items|
    requires ReleaseFrom(l.table, l.orders[o].branch.value, l.orders[o].items, l.orders[o].stage.next).error.Some?
    ensures exists n: nat :: ReleaseRaises(AdvanceMany(l, o, n), o)
    decreases |l.orders[o].items| - l.orders[o].stage.next
  {
    var order := l.orders[o];
    if ReleaseLine(l.table, order.branch.value, order.items[order.stage.next]).Success? {
      var l' := Step(l, Advance(o));
      RefusedTurn(l', o);
      var n: nat :| ReleaseRaises(AdvanceMany(l', o, n), o);
      assert AdvanceMany(l, o, n + 1) == AdvanceMany(l', o, n);
    } else {
      assert ReleaseRaises(AdvanceMany(l, o, 0), o);
    }
  }

  lemma {:induction false} NoRefusedTurn(l: Ledger, o: nat, n: nat)
    requires o < |l.orders|
    requires l.orders[o].stage.Cancelling? && l.orders[o].branch.Some? ==>
               && l.orders[o].stage.next <= |l.orders[o].items|
               && ReleaseFrom(l.table, l.orders[o].branch.value, l.orders[o].items, l.orders[o].stage.next).error.None?
    requires l.orders[o].stage.Settled? || l.orders[o].stage.Cancelling?
    ensures !ReleaseRaises(AdvanceMany(l, o, n), o)
    decreases n
  {
    if n > 0 {
      NoRefusedTurn(Step(l, Advance(o)), o, n - 1);
    }
  }

  /** The releasing loop of an order's cancel; an order that holds nothing, or has no branch, releases nothing. */
  function ReleaseOf(t: Table, order: OrderState): Progress
    requires order.stage.Settled?
  {
    if !HoldsStock(order.stage.status) || order.branch.None? then Progress(t, 0, None)
    else ReleaseFrom(t, order.branch.value, order.items, 0)
  }

  /** The rows cover what a cancel of the order gives back. */
  ghost predicate CancelIsCovered(t: Table, order: OrderState)
    requires order.stage.Settled?
  {
    HoldsStock(order.stage.status) && order.branch.Some? ==> Covers(t, order.branch.value, order.items, 0)
  }

  /**
   A cancel left alone goes through if and only if the table covers the order's lines; otherwise one of its
   releases is refused and the order keeps its status. What it released until then stays released.
   */
  lemma CancelCompletesIff(l: Ledger, o: nat)
    requires o < |l.orders| && l.orders[o].stage.Settled?
    ensures var order := l.orders[o];
            var covered := CancelIsCovered(l.table, order);
            && CancelledInFull(l, o)
               == WithStage(l, o, Settled(if covered then Cancelled else order.stage.status))
                  .(table := ReleaseOf(l.table, order).table)
            && (ReleaseOf(l.table, order).error.None? <==> covered)
            && (CancelRaises(l, o) <==> !covered)
  {
    var order := l.orders[o];
    if HoldsStock(order.stage.status) && order.branch.Some? {
      HeldCancelCompletesIff(l, o);
    } else {
      var begun := Step(l, Cancel(o));
      SettledStays(Step(begun, Advance(o)), o, |order.items|);
      assert WithStage(l, o, Settled(Cancelled)).(table := l.table) == WithStage(l, o, Settled(Cancelled));
      if order.stage.status == Cancelled {
        assert l == WithStage(l, o, Settled(Cancelled));
      }
      forall n: nat ensures !ReleaseRaises(AdvanceMany(begun, o, n), o) {
        NoRefusedTurn(begun, o, n);
      }
    }
  }

  lemma HeldCancelCompletesIff(l: Ledger, o: nat)
    requires o < |l.orders| && l.orders[o].branch.Some?
    requires l.orders[o].stage.Settled? && HoldsStock(l.orders[o].stage.status)
    ensures var order := l.orders[o];
            var p := ReleaseFrom(l.table, order.branch.value, order.items, 0);
            && CancelledInFull(l, o)
               == WithStage(l, o, Settled(if p.error.None? then Cancelled else order.stage.status)).(table := p.table)
            && (p.error.None? <==> Covers(l.table, order.branch.value, order.items, 0))
            && (CancelRaises(l, o) <==> p.error.Some?)
  {
    var order := l.orders[o];
    var p := ReleaseFrom(l.table, order.branch.value, order.items, 0);
    var begun := Step(l, Cancel(o));
    ReleaseCompletesIff(l.table, order.branch.value, order.items, 0);
    UninterruptedCancel(begun, o);
    AdvancesAdd(begun, o, p.done + 1, |order.items| - p.done);
    SettledStays(AdvanceMany(begun, o, p.done + 1), o, |order.items| - p.done);
    if p.error.None? {
      forall n: nat ensures !ReleaseRaises(AdvanceMany(begun, o, n), o) {
        NoRefusedTurn(begun, o, n);
      }
    } else {
      RefusedTurn(begun, o);
    }
  }

  /** Nothing is set aside anywhere. */
  ghost predicate NothingReserved(t: Table) {
    forall k :: k in t ==> t[k].reserved == 0
  }

  lemma UncoveredLine(branch: int, items: seq<StockLine>, hi: nat, j: nat)
    requires j < hi <= |items|
    requires forall q :: 0 <= q < hi && LineKey(items[q], branch) == LineKey(items[j], branch) ==> Units(items[q]) > 0
    ensures Demand(items, branch, 0, hi, LineKey(items[j], branch)) > 0
  {
    var k := LineKey(items[j], branch);
    DemandSplits(items, branch, 0, j, hi, k);
    DemandBeforeNotNegative(items, branch, 0, j, k);
    DemandBeforeNotNegative(items, branch, j + 1, hi, k);
  }

  lemma {:induction false} DemandBeforeNotNegative(items: seq<StockLine>, branch: int, lo: nat, hi: nat, k: Key)
    requires lo <= hi <= |items|
    requires forall q :: lo <= q < hi && LineKey(items[q], branch) == k ==> Units(items[q]) > 0
    ensures Demand(items, branch, lo, hi, k) >= 0
    decreases hi - lo
  {
    if lo < hi {
      DemandBeforeNotNegative(items, branch, lo + 1, hi, k);
    }
  }

  /**
   An order created as preparing claims stock nobody reserved for it. Beside any orders, over any rows,
   its cancel is refused if and only if the rows do not cover its lines by what others reserved; with nothing
   reserved, that is as soon as one of its lines has a row.
   */
  lemma PlacedPreparingRaises(l: Ledger, branch: int, items: seq<StockLine>)
    ensures var placed, o := Step(l, Place(Some(branch), items, Preparing)), |l.orders|;
            && (CancelRaises(placed, o) <==> !Covers(l.table, branch, items, 0))
            && (NothingReserved(l.table) ==>
                  (CancelRaises(placed, o) <==> exists j :: 0 <= j < |items| && LineKey(items[j], branch) in l.table))
  {
    CancelCompletesIff(Step(l, Place(Some(branch), items, Preparing)), |l.orders|);
    if NothingReserved(l.table) {
      UnreservedCovers(l.table, branch, items);
    }
  }

  lemma UnreservedCovers(t: Table, branch: int, items: seq<StockLine>)
    requires NothingReserved(t)
    ensures Covers(t, branch, items, 0) <==> forall j :: 0 <= j < |items| ==> LineKey(items[j], branch) !in t
  {
    if j: nat :| j < |items| && LineKey(items[j], branch) in t {
      if Covers(t, branch, items, 0) {
        forall q | 0 <= q < |items| && LineKey(items[q], branch) == LineKey(items[j], branch) ensures Units(items[q]) > 0 {
          assert CoversLine(t, branch, items, 0, q);
        }
        assert CoversLine(t, branch, items, 0, j);
        UncoveredLine(branch, items, |items|, j);
        assert false;
      }
    }
  }

  /** A cancel whose remaining lines are positive and covered. */
  ghost predicate IsCovered(l: Ledger, o: nat) {
    && o < |l.orders| && ValidTable(l.table) && l.orders[o].stage.Cancelling? && l.orders[o].branch.Some?
    && var order := l.orders[o];
       && order.stage.next <= |order.items| && PositiveLines(order.items, order.stage.next, |order.items|)
       && forall k :: Demand(order.items, order.branch.value, order.stage.next, |order.items|, k) <= ReservedAt(l.table, k)
  }

  lemma CoveredTurn(l: Ledger, o: nat)
    requires IsCovered(l, o) && l.orders[o].stage.next < |l.orders[o].items|
    ensures var order, after := l.orders[o], Step(l, Advance(o));
            var i, b := order.stage.next, order.branch.value;
            && after == WithStage(l, o, Cancelling(order.stage.from, i + 1)).(table := after.table)
            && IsCovered(after, o)
            && ReservedMoved(l.table, after.table, k => if k == LineKey(order.items[i], b) then -Units(order.items[i]) else 0)
  {
    var order := l.orders[o];
    var b, i := order.branch.value, order.stage.next;
    var k0 := LineKey(order.items[i], b);
    DemandNotNegative(order.items, b, i + 1, |order.items|, k0);
    assert Demand(order.items, b, i, |order.items|, k0) == Units(order.items[i]) + Demand(order.items, b, i + 1, |order.items|, k0);
    ReleaseLineMoves(l.table, b, order.items[i]);
    var after := Step(l, Advance(o));
    forall k ensures Demand(order.items, b, i + 1, |order.items|, k) <= ReservedAt(after.table, k) {
      assert Demand(order.items, b, i, |order.items|, k)
             == (if k0 == k then Units(order.items[i]) else 0) + Demand(order.items, b, i + 1, |order.items|, k);
    }
  }

  /** The first `m` releases of a covered cancel. */
  lemma {:induction false} PartialCancel(l: Ledger, o: nat, m: nat)
    requires IsCovered(l, o) && l.orders[o].stage.next + m <= |l.orders[o].items|
    ensures var order, after := l.orders[o], AdvanceMany(l, o, m);
            var i := order.stage.next;
            && after == WithStage(l, o, Cancelling(order.stage.from, i + m)).(table := after.table)
            && ValidTable(after.table)
            && ReservedMoved(l.table, after.table, k => -Demand(order.items, order.branch.value, i, i + m, k))
    decreases m
  {
    if m > 0 {
      CoveredTurn(l, o);
      PartialCancel(Step(l, Advance(o)), o, m - 1);
    }
  }

  /** A confirm of an order over a table, and a cancel of it that breaks off after `j` releases. */
  function BrokenOff(table: Table, branch: int, items: seq<StockLine>, j: nat): Ledger {
    var placed := Step(Ledger(table, []), Place(Some(branch), items, Draft));
    Step(AdvanceMany(Step(ConfirmedInFull(placed, 0), Cancel(0)), 0, j), Abort(0))
  }

  function Turns(o: nat, n: nat): seq<Event> {
    if n == 0 then [] else [Advance(o)] + Turns(o, n - 1)
  }

  /** The same as one run from an empty order book. */
  function BrokenOffEvents(branch: int, items: seq<StockLine>, j: nat): seq<Event> {
    [Place(Some(branch), items, Draft), Confirm(0)] + Turns(0, |items| + 1) + [Cancel(0)] + Turns(0, j) + [Abort(0)]
  }

  lemma {:induction false} RunAppends(l: Ledger, a: seq<Event>, b: seq<Event>)
    ensures Run(l, a + b) == Run(Run(l, a), b)
    decreases |b|
  {
    if |b| == 0 {
      assert a + b == a;
    } else {
      assert (a + b)[..|a + b| - 1] == a + b[..|b| - 1];
      RunAppends(l, a, b[..|b| - 1]);
    }
  }

  lemma RunOne(l: Ledger, e: Event)
    ensures Run(l, [e]) == Step(l, e)
  {
    assert [e][..0] == [];
  }

  lemma {:induction false} RunTurns(l: Ledger, o: nat, n: nat)
    ensures Run(l, Turns(o, n)) == AdvanceMany(l, o, n)
    decreases n
  {
    if n > 0 {
      RunAppends(l, [Advance(o)], Turns(o, n - 1));
      RunOne(l, Advance(o));
      RunTurns(Step(l, Advance(o)), o, n - 1);
    }
  }

  lemma BrokenOffIsARun(table: Table, branch: int, items: seq<StockLine>, j: nat)
    ensures Run(Ledger(table, []), BrokenOffEvents(branch, items, j)) == BrokenOff(table, branch, items, j)
  {
    var l := Ledger(table, []);
    var place, confirm := Place(Some(branch), items, Draft), Confirm(0);
    var n := |items| + 1;
    var a := [place, confirm];
    assert a == [place] + [confirm];
    RunAppends(l, [place], [confirm]);
    RunOne(l, place);
    RunOne(Step(l, place), confirm);
    RunAppends(l, a, Turns(0, n));
    RunTurns(Run(l, a), 0, n);
    var held := Run(l, a + Turns(0, n));
    RunAppends(l, a + Turns(0, n), [Cancel(0)]);
    RunOne(held, Cancel(0));
    RunAppends(l, a + Turns(0, n) + [Cancel(0)], Turns(0, j));
    RunTurns(Step(held, Cancel(0)), 0, j);
    RunAppends(l, a + Turns(0, n) + [Cancel(0)] + Turns(0, j), [Abort(0)]);
    RunOne(AdvanceMany(Step(held, Cancel(0)), 0, j), Abort(0));
  }

  lemma CancelBegins(table: Table, branch: int, items: seq<StockLine>)
    requires ValidTable(table) && ReserveFrom(table, branch, items, 0).error.None?
    ensures var begun := Step(ConfirmedInFull(Step(Ledger(table, []), Place(Some(branch), items, Draft)), 0), Cancel(0));
            && begun == Ledger(ReserveFrom(table, branch, items, 0).table,
                               [OrderState(Some(branch), items, Cancelling(Confirmed, 0))])
            && IsCovered(begun, 0)
  {
    var held := ReserveFrom(table, branch, items, 0).table;
    WholeConfirm(Step(Ledger(table, []), Place(Some(branch), items, Draft)), 0);
    ReserveLoopAccounts(table, branch, items, 0);
    forall k ensures Demand(items, branch, 0, |items|, k) <= ReservedAt(held, k) {
      if k !in table {
        AbsentRowsOweNothing(table, branch, items, 0, k);
      }
    }
  }

  /** What the broken-off cancel leaves: a confirmed order that holds its lines from `j` on only. */
  lemma BrokenOffLeaves(table: Table, branch: int, items: seq<StockLine>, j: nat)
    requires ValidTable(table) && ReserveFrom(table, branch, items, 0).error.None? && j <= |items|
    ensures var l := BrokenOff(table, branch, items, j);
            && l.orders == [OrderState(Some(branch), items, Settled(Confirmed))]
            && ValidTable(l.table)
            && ReservedMoved(table, l.table, k => Demand(items, branch, j, |items|, k))
  {
    CancelBegins(table, branch, items);
    ReserveLoopAccounts(table, branch, items, 0);
    var held := ReserveFrom(table, branch, items, 0).table;
    var begun := Ledger(held, [OrderState(Some(branch), items, Cancelling(Confirmed, 0))]);
    PartialCancel(begun, 0, j);
    MovesCombine(table, held, AdvanceMany(begun, 0, j).table, branch, items, j);
  }

  lemma MovesCombine(before: Table, held: Table, after: Table, branch: int, items: seq<StockLine>, j: nat)
    requires j <= |items|
    requires ReservedMoved(before, held, k => Demand(items, branch, 0, |items|, k))
    requires ReservedMoved(held, after, k => -Demand(items, branch, 0, j, k))
    ensures ReservedMoved(before, after, k => Demand(items, branch, j, |items|, k))
  {
    forall k | k in before
      ensures after[k].stock == before[k].stock
      ensures after[k].reserved == before[k].reserved + Demand(items, branch, j, |items|, k)
    {
      DemandSplits(items, branch, 0, j, |items|, k);
    }
  }

  /**
   A cancel broken off after `j` releases leaves a confirmed order, and the code does not remember the `j`.
   Its next cancel is refused if and only if some row reserves for others less than those `j` lines ask for;
   with nothing else reserved, as soon as one line was released.
   */
  lemma BrokenCancelRaises(table: Table, branch: int, items: seq<StockLine>, j: nat)
    requires ValidTable(table) && ReserveFrom(table, branch, items, 0).error.None? && j <= |items|
    ensures var l := Run(Ledger(table, []), BrokenOffEvents(branch, items, j));
            && l.orders == [OrderState(Some(branch), items, Settled(Confirmed))]
            && (CancelRaises(l, 0) <==> exists k :: k in table && Demand(items, branch, 0, j, k) > table[k].reserved)
            && (NothingReserved(table) ==> (CancelRaises(l, 0) <==> j > 0))
  {
    BrokenOffIsARun(table, branch, items, j);
    BrokenOffLeaves(table, branch, items, j);
    ReserveLoopAccounts(table, branch, items, 0);
    var l := BrokenOff(table, branch, items, j);
    CancelCompletesIff(l, 0);
    CoversByDemand(l.table, branch, items);
    forall k | k in table
      ensures Demand(items, branch, 0, |items|, k) <= l.table[k].reserved <==> Demand(items, branch, 0, j, k) <= table[k].reserved
    {
      DemandSplits(items, branch, 0, j, |items|, k);
    }
    assert CancelRaises(l, 0) <==> exists k :: k in table && Demand(items, branch, 0, j, k) > table[k].reserved;
    if NothingReserved(table) && j > 0 {
      UncoveredLine(branch, items, j, 0);
      FirstLineHasARow(table, branch, items);
    }
  }

  lemma FirstLineHasARow(t: Table, branch: int, items: seq<StockLine>)
    requires |items| > 0 && ReserveFrom(t, branch, items, 0).error.None?
    ensures LineKey(items[0], branch) in t
  {
  }

  // What confirms and creations strand.

  /** Units of a row that are set aside and that no order has a claim to. */
  function Stranded(l: Ledger, k: Key): int {
    ReservedAt(l.table, k) - TotalOwed(l.orders, k)
  }

  ghost predicate StrandsNothing(l: Ledger, after: Ledger) {
    forall k :: k in l.table ==> Stranded(after, k) == Stranded(l, k)
  }

  /** The reserving loop of an order, which is refused before its first line without a branch. */
  function ReserveOf(t: Table, branch: Option<int>, items: seq<StockLine>): Progress {
    if branch.None? then Progress(t, 0, Some(NoBranch)) else ReserveFrom(t, branch.value, items, 0)
  }

  /** Units of a row that the loop reserved before it ended or was refused. */
  function Taken(t: Table, branch: Option<int>, items: seq<StockLine>, k: Key): int {
    if branch.None? then 0 else Demand(items, branch.value, 0, ReserveOf(t, branch, items).done, k)
  }

  lemma TakenIsReserved(t: Table, branch: Option<int>, items: seq<StockLine>, k: Key)
    requires ValidTable(t)
    ensures var p := ReserveOf(t, branch, items);
            && ValidTable(p.table) && p.table.Keys == t.Keys
            && ReservedAt(p.table, k) == ReservedAt(t, k) + Taken(t, branch, items, k)
  {
    if branch.Some? {
      ReserveLoopAccounts(t, branch.value, items, 0);
      if k !in t {
        AbsentRowsOweNothing(t, branch.value, items, 0, k);
      }
    }
  }

  /** A loop that reserved a line has taken some of that line's row. */
  lemma SomethingTaken(t: Table, branch: Option<int>, items: seq<StockLine>)
    requires ValidTable(t) && branch.Some? && ReserveOf(t, branch, items).done > 0
    ensures LineKey(items[0], branch.value) in t && Taken(t, branch, items, LineKey(items[0], branch.value)) > 0
  {
    ReserveLoopAccounts(t, branch.value, items, 0);
    UncoveredLine(branch.value, items, ReserveOf(t, branch, items).done, 0);
  }

  /** A confirm left alone, completed or refused. */
  lemma WholeAttempt(l: Ledger, o: nat)
    requires o < |l.orders| && l.orders[o].stage.Settled? && l.orders[o].stage.status !in {Confirmed, Cancelled}
    ensures var order := l.orders[o];
            var p := ReserveOf(l.table, order.branch, order.items);
            ConfirmedInFull(l, o)
            == WithStage(l, o, Settled(if p.error.None? then Confirmed else order.stage.status)).(table := p.table)
  {
    var order := l.orders[o];
    var p := ReserveOf(l.table, order.branch, order.items);
    var begun := Step(l, Confirm(o));
    if order.branch.Some? {
      UninterruptedConfirm(begun, o);
    }
    AdvancesAdd(begun, o, p.done + 1, |order.items| - p.done);
    assert AdvanceMany(begun, o, 1) == AdvanceMany(Step(begun, Advance(o)), o, 0);
    SettledStays(AdvanceMany(begun, o, p.done + 1), o, |order.items| - p.done);
  }

  /**
   What a confirm strands. If it completes, the order has a claim to one reservation, whatever it had a claim
   to before; if it is refused partway, the lines it had reserved stay reserved and the order knows nothing
   of them.
   */
  lemma ConfirmStrands(l: Ledger, o: nat, k: Key)
    requires o < |l.orders| && ValidTable(l.table)
    requires l.orders[o].stage.Settled? && l.orders[o].stage.status !in {Confirmed, Cancelled}
    ensures var order := l.orders[o];
            Stranded(ConfirmedInFull(l, o), k)
            == Stranded(l, k) + (if ReserveOf(l.table, order.branch, order.items).error.None? then Owes(order, k)
                                 else Taken(l.table, order.branch, order.items, k))
  {
    WholeAttempt(l, o);
    TakenIsReserved(l.table, l.orders[o].branch, l.orders[o].items, k);
    TotalOwedAfter(l.orders, o, ConfirmedInFull(l, o).orders[o], k);
  }

  /**
   So a confirm strands nothing if and only if it completes for an order that was not preparing or is empty,
   or is refused before it has reserved a line.
   */
  lemma ConfirmStrandsNothingIff(l: Ledger, o: nat)
    requires o < |l.orders| && ValidTable(l.table)
    requires l.orders[o].stage.Settled? && l.orders[o].stage.status !in {Confirmed, Cancelled}
    ensures var order := l.orders[o];
            var p := ReserveOf(l.table, order.branch, order.items);
            StrandsNothing(l, ConfirmedInFull(l, o))
            <==> if p.error.None? then order.stage.status != Preparing || order.items == [] else p.done == 0
  {
    var order := l.orders[o];
    var p := ReserveOf(l.table, order.branch, order.items);
    forall k ensures Stranded(ConfirmedInFull(l, o), k)
                     == Stranded(l, k) + (if p.error.None? then Owes(order, k) else Taken(l.table, order.branch, order.items, k))
    {
      ConfirmStrands(l, o, k);
    }
    if p.done > 0 {
      SomethingTaken(l.table, order.branch, order.items);
    }
  }

  /**
   What a cancel strands: nothing if it goes through. If it is refused, what it released until then is gone
   although the order still has a claim to it.
   */
  lemma CancelStrands(l: Ledger, o: nat, k: Key)
    requires o < |l.orders| && ValidTable(l.table) && l.orders[o].stage.Settled? && k in l.table
    ensures var order := l.orders[o];
            var p := ReleaseOf(l.table, order);
            Stranded(CancelledInFull(l, o), k)
            == Stranded(l, k) - (if p.error.None? then 0 else Demand(order.items, order.branch.value, 0, p.done, k))
  {
    var order := l.orders[o];
    CancelCompletesIff(l, o);
    TotalOwedAfter(l.orders, o, CancelledInFull(l, o).orders[o], k);
    if HoldsStock(order.stage.status) && order.branch.Some? {
      ReleaseMoves(l.table, order.branch.value, order.items, 0);
    }
  }

  /** Where reserved covers what is owed, every cancel is covered. */
  lemma InvCoversCancel(l: Ledger, o: nat)
    requires Inv(l) && o < |l.orders| && l.orders[o].stage.Settled?
    ensures !CancelRaises(l, o)
  {
    var order := l.orders[o];
    CancelCompletesIff(l, o);
    if HoldsStock(order.stage.status) {
      forall k | k in l.table ensures Demand(order.items, order.branch.value, 0, |order.items|, k) <= l.table[k].reserved {
        OneOfTotal(l.orders, o, k);
      }
      CoversByDemand(l.table, order.branch.value, order.items);
    }
  }

  /** Turns of an order keep the invariant. */
  lemma {:induction false} AdvancingKeepsInv(l: Ledger, o: nat, n: nat)
    requires Inv(l)
    ensures Inv(AdvanceMany(l, o, n))
    decreases n
  {
    if n > 0 {
      StepKeepsInv(l, Advance(o));
      AdvancingKeepsInv(Step(l, Advance(o)), o, n - 1);
    }
  }

  /**
   Confirm and then cancel. The cancel can be refused only if the confirm was, of a preparing order, where
   something outside the permitted steps has taken what the order held. When it goes through, it gives back
   what the order had a claim to, so the two together strand nothing exactly where the confirm alone does.
   */
  lemma ConfirmThenCancelStrandsNothingIff(l: Ledger, o: nat)
    requires o < |l.orders| && ValidTable(l.table)
    requires l.orders[o].stage.Settled? && l.orders[o].stage.status !in {Confirmed, Cancelled}
    ensures var order, held := l.orders[o], ConfirmedInFull(l, o);
            var p := ReserveOf(l.table, order.branch, order.items);
            && (CancelRaises(held, o) ==> p.error.Some? && order.stage.status == Preparing && !Inv(l))
            && (!CancelRaises(held, o) ==>
                  && CancelledInFull(held, o).orders == WithStage(l, o, Settled(Cancelled)).orders
                  && (StrandsNothing(l, CancelledInFull(held, o))
                      <==> if p.error.None? then order.stage.status != Preparing || order.items == [] else p.done == 0))
  {
    var order, held := l.orders[o], ConfirmedInFull(l, o);
    var p := ReserveOf(l.table, order.branch, order.items);
    WholeAttempt(l, o);
    CancelCompletesIff(held, o);
    if p.error.None? {
      ReserveThenReleaseRestores(l.table, order.branch.value, order.items);
    } else if Inv(l) {
      StepKeepsInv(l, Confirm(o));
      AdvancingKeepsInv(Step(l, Confirm(o)), o, |order.items| + 1);
      InvCoversCancel(held, o);
    }
    if !CancelRaises(held, o) {
      ConfirmStrandsNothingIff(l, o);
      forall k | k in l.table ensures Stranded(CancelledInFull(held, o), k) == Stranded(held, k) {
        TakenIsReserved(l.table, order.branch, order.items, k);
        CancelStrands(held, o, k);
      }
    }
  }

  lemma StageOverwritten(l: Ledger, o: nat, first: Stage, t: Table, second: Stage)
    requires o < |l.orders|
    ensures WithStage(WithStage(l, o, first).(table := t), o, second) == WithStage(l, o, second).(table := t)
  {
  }

  /** The turns of a creation as confirmed, left alone, are the same loop; refused, the order row is gone. */
  lemma {:induction false} UninterruptedPlacing(l: Ledger, o: nat)
    requires o < |l.orders| && l.orders[o].stage.Placing? && l.orders[o].branch.Some?
    requires l.orders[o].stage.next <= |l.orders[o].items|
    ensures var order := l.orders[o];
            var p := ReserveFrom(l.table, order.branch.value, order.items, order.stage.next);
            AdvanceMany(l, o, p.done - order.stage.next + 1)
            == WithStage(l, o, if p.error.None? then Settled(Confirmed) else RolledBack).(table := p.table)
    decreases |l.orders[o].items| - l.orders[o].stage.next
  {
    var order := l.orders[o];
    var k := order.stage.next;
    var p := ReserveFrom(l.table, order.branch.value, order.items, k);
    var l' := Step(l, Advance(o));
    if k < |order.items| && ReserveLine(l.table, order.branch.value, order.items[k]).Success? {
      assert l' == WithStage(l, o, Placing(k + 1)).(table := l'.table);
      assert p == ReserveFrom(l'.table, order.branch.value, order.items, k + 1);
      UninterruptedPlacing(l', o);
      assert AdvanceMany(l, o, p.done - k + 1) == AdvanceMany(l', o, p.done - k);
      StageOverwritten(l, o, Placing(k + 1), l'.table, if p.error.None? then Settled(Confirmed) else RolledBack);
    } else {
      assert p.done == k;
      assert AdvanceMany(l, o, 1) == AdvanceMany(l', o, 0) == l';
    }
  }

  /** A whole creation as confirmed, left alone. */
  function PlacedInFull(l: Ledger, branch: Option<int>, items: seq<StockLine>): Ledger {
    AdvanceMany(Step(l, Place(branch, items, Confirmed)), |l.orders|, |items| + 1)
  }

  lemma WholePlacing(l: Ledger, branch: Option<int>, items: seq<StockLine>)
    ensures var p := ReserveOf(l.table, branch, items);
            PlacedInFull(l, branch, items)
            == Ledger(p.table, l.orders + [OrderState(branch, items, if p.error.None? then Settled(Confirmed) else RolledBack)])
  {
    var placed, o := Step(l, Place(branch, items, Confirmed)), |l.orders|;
    var p := ReserveOf(l.table, branch, items);
    if branch.Some? {
      UninterruptedPlacing(placed, o);
    }
    AdvancesAdd(placed, o, p.done + 1, |items| - p.done);
    assert AdvanceMany(placed, o, 1) == AdvanceMany(Step(placed, Advance(o)), o, 0);
    SettledStays(AdvanceMany(placed, o, p.done + 1), o, |items| - p.done);
  }

  /**
   A creation as confirmed strands nothing if and only if it completes or is refused before it has reserved a
   line: its rollback removes the order and leaves the reservations.
   */
  lemma PlacingStrandsNothingIff(l: Ledger, branch: Option<int>, items: seq<StockLine>)
    requires ValidTable(l.table)
    ensures var p, after := ReserveOf(l.table, branch, items), PlacedInFull(l, branch, items);
            && (forall k :: Stranded(after, k)
                            == Stranded(l, k) + (if p.error.None? then 0 else Taken(l.table, branch, items, k)))
            && (StrandsNothing(l, after) <==> p.error.None? || p.done == 0)
  {
    var p, after := ReserveOf(l.table, branch, items), PlacedInFull(l, branch, items);
    WholePlacing(l, branch, items);
    forall k ensures Stranded(after, k)
                     == Stranded(l, k) + (if p.error.None? then 0 else Taken(l.table, branch, items, k))
    {
      TakenIsReserved(l.table, branch, items, k);
      assert after.orders[..|l.orders|] == l.orders;
    }
    if p.done > 0 {
      SomethingTaken(l.table, branch, items);
    }
  }

  /** A draft whose confirm is refused, and then cancelled: what the confirm had taken stays set aside. */
  lemma RefusedThenCancelled(l: Ledger, o: nat, k: Key)
    requires o < |l.orders| && ValidTable(l.table) && l.orders[o].stage == Settled(Draft) && k in l.table
    requires ReserveOf(l.table, l.orders[o].branch, l.orders[o].items).error.Some?
    ensures var after := CancelledInFull(ConfirmedInFull(l, o), o);
            && after.orders == WithStage(l, o, Settled(Cancelled)).orders
            && Stranded(after, k) == Stranded(l, k) + Taken(l.table, l.orders[o].branch, l.orders[o].items, k)
  {
    WholeAttempt(l, o);
    ConfirmStrands(l, o, k);
    TakenIsReserved(l.table, l.orders[o].branch, l.orders[o].items, k);
    CancelCompletesIff(ConfirmedInFull(l, o), o);
    CancelStrands(ConfirmedInFull(l, o), o, k);
  }

  /** A draft for one piece each of two products, of which the branch has a row for the first only. */
  function HalfStocked(first: string, second: string, branch: int, stock: int): Ledger {
    Ledger(map[Key(first, branch) := Row(stock, 0)],
           [OrderState(Some(branch), [StockLine(first, 1.0), StockLine(second, 1.0)], Settled(Draft))])
  }

  lemma HalfStockedIsCovered(first: string, second: string, branch: int, stock: int)
    requires stock >= 1
    ensures Inv(HalfStocked(first, second, branch, stock))
    ensures Stranded(HalfStocked(first, second, branch, stock), Key(first, branch)) == 0
  {
    var l := HalfStocked(first, second, branch, stock);
    forall k ensures TotalOwed(l.orders, k) == 0 {
      assert l.orders[..0] == [];
    }
  }

  lemma OnlyFirstReserved(t: Table, branch: int, items: seq<StockLine>)
    requires |items| == 2 && items[0].qty == items[1].qty == 1.0
    requires var first := LineKey(items[0], branch);
             first in t && ValidRow(t[first]) && t[first].stock > t[first].reserved && LineKey(items[1], branch) !in t
    ensures var p := ReserveFrom(t, branch, items, 0);
            p.done == 1 && Demand(items, branch, 0, 1, LineKey(items[0], branch)) == 1
  {
    assert Units(items[0]) == 1;
    var t' := ReserveLine(t, branch, items[0]).value;
    assert t'.Keys == t.Keys;
    assert ReserveFrom(t', branch, items, 1).done == 1;
  }

  /**
   The confirm of that draft is refused at its second line, its cancel releases nothing, and one piece of the
   first product stays set aside for no order.
   */
  lemma RefusedConfirmStrandsOne(first: string, second: string, branch: int, stock: int)
    requires first != second && stock >= 1
    ensures var l, k := HalfStocked(first, second, branch, stock), Key(first, branch);
            var after := CancelledInFull(ConfirmedInFull(l, 0), 0);
            Inv(l) && Stranded(l, k) == 0 && after.orders[0].stage == Settled(Cancelled) && Stranded(after, k) == 1
  {
    var l := HalfStocked(first, second, branch, stock);
    HalfStockedIsCovered(first, second, branch, stock);
    OnlyFirstReserved(l.table, branch, l.orders[0].items);
    RefusedThenCancelled(l, 0, Key(first, branch));
  }
}
