/**
 The stock half of OrderService: `confirm`, `prepare`, `cancel` and the two loops that reserve and
 release an order's lines one locked row at a time.
 */
module OrderStock {
  import opened Wrappers
  import opened Money
  import opened Inventory
  import opened StockTable

  /** The status column is free text; the service knows four of its values. */
  datatype OrderStatus = Draft | Confirmed | Preparing | Cancelled | OtherStatus(name: string)

  datatype StockLine = StockLine(sku: string, qty: real)

  datatype OrderError =
    | AlreadyConfirmed
    | AlreadyCancelled
    | NotConfirmed
    | NoBranch
    | InventoryNotFound(sku: string)
    | StockRefused(error: StockError)

  /** `confirmed` and `preparing` both stand for stock that is set aside. */
  predicate HoldsStock(s: OrderStatus) {
    s == Confirmed || s == Preparing
  }

  /** Half a piece still takes a whole one off the shelf. */
  function Units(line: StockLine): (n: int)
    ensures line.qty <= n as real < line.qty + 1.0
  {
    Ceil(line.qty)
  }

  function LineKey(line: StockLine, branch: int): Key {
    Key(line.sku, branch)
  }

  /** One turn of the reserving loop. */
  function ReserveLine(t: Table, branch: int, line: StockLine): Result<Table, OrderError> {
    var k := LineKey(line, branch);
    if k !in t then Failure(InventoryNotFound(line.sku))
    else
      match MutatedTable(t, k, Reserve(Units(line) as real))
      case Failure(e) => Failure(StockRefused(e))
      case Success(t') => Success(t')
  }

  /** One turn of the releasing loop, which passes over a row that is gone. */
  function ReleaseLine(t: Table, branch: int, line: StockLine): Result<Table, OrderError> {
    var k := LineKey(line, branch);
    if k !in t then Success(t)
    else
      match MutatedTable(t, k, Release(Units(line) as real))
      case Failure(e) => Failure(StockRefused(e))
      case Success(t') => Success(t')
  }

  /** How far a loop got, what it left in the table, and the error it stopped on. */
  datatype Progress = Progress(table: Table, done: nat, error: Option<OrderError>)

  function ReserveFrom(t: Table, branch: int, items: seq<StockLine>, i: nat): (p: Progress)
    requires i <= |items|
    ensures i <= p.done <= |items| && (p.error.None? <==> p.done == |items|)
    decreases |items| - i
  {
    if i == |items| then Progress(t, i, None)
    else
      match ReserveLine(t, branch, items[i])
      case Failure(e) => Progress(t, i, Some(e))
      case Success(t') => ReserveFrom(t', branch, items, i + 1)
  }

  function ReleaseFrom(t: Table, branch: int, items: seq<StockLine>, i: nat): (p: Progress)
    requires i <= |items|
    ensures i <= p.done <= |items| && (p.error.None? <==> p.done == |items|)
    decreases |items| - i
  {
    if i == |items| then Progress(t, i, None)
    else
      match ReleaseLine(t, branch, items[i])
      case Failure(e) => Progress(t, i, Some(e))
      case Success(t') => ReleaseFrom(t', branch, items, i + 1)
  }

  /** Units of one row that the lines from `lo` up to `hi` ask for, repeated SKUs added up. */
  function Demand(items: seq<StockLine>, branch: int, lo: nat, hi: nat, k: Key): int
    requires lo <= hi <= |items|
    decreases hi - lo
  {
    if lo == hi then 0
    else (if LineKey(items[lo], branch) == k then Units(items[lo]) else 0) + Demand(items, branch, lo + 1, hi, k)
  }

  lemma {:induction false} DemandSplits(items: seq<StockLine>, branch: int, lo: nat, mid: nat, hi: nat, k: Key)
    requires lo <= mid <= hi <= |items|
    ensures Demand(items, branch, lo, hi, k) == Demand(items, branch, lo, mid, k) + Demand(items, branch, mid, hi, k)
    decreases mid - lo
  {
    if lo < mid {
      DemandSplits(items, branch, lo + 1, mid, hi, k);
    }
  }

  ghost predicate PositiveLines(items: seq<StockLine>, lo: nat, hi: nat)
    requires hi <= |items|
  {
    forall i :: lo <= i < hi ==> Units(items[i]) > 0
  }

  lemma {:induction false} DemandNotNegative(items: seq<StockLine>, branch: int, lo: nat, hi: nat, k: Key)
    requires lo <= hi <= |items| && PositiveLines(items, lo, hi)
    ensures Demand(items, branch, lo, hi, k) >= 0
    decreases hi - lo
  {
    if lo < hi {
      DemandNotNegative(items, branch, lo + 1, hi, k);
    }
  }

  function ReservedAt(t: Table, k: Key): int {
    if k in t then t[k].reserved else 0
  }

  /** The same rows with the same stock, each reserved quantity moved by what `delta` says. */
  ghost predicate ReservedMoved(t: Table, t': Table, delta: Key -> int) {
    && t'.Keys == t.Keys
    && forall k :: k in t ==> t'[k].stock == t[k].stock && t'[k].reserved == t[k].reserved + delta(k)
  }

  lemma ReserveLineMoves(t: Table, branch: int, line: StockLine)
    requires ValidTable(t) && ReserveLine(t, branch, line).Success?
    ensures var t' := ReserveLine(t, branch, line).value;
            && ValidTable(t') && Units(line) > 0
            && ReservedMoved(t, t', k => if k == LineKey(line, branch) then Units(line) else 0)
  {
  }

  lemma ReleaseLineMoves(t: Table, branch: int, line: StockLine)
    requires ValidTable(t) && Units(line) > 0
    requires LineKey(line, branch) in t
    ensures match ReleaseLine(t, branch, line)
            case Success(t') =>
              && ValidTable(t')
              && ReservedMoved(t, t', k => if k == LineKey(line, branch) then -Units(line) else 0)
            case Failure(_) => t[LineKey(line, branch)].reserved < Units(line)
  {
  }

  /**
   Wherever the reserving loop stops, it has reserved exactly the lines before that point, repeated SKUs
   included, and moved no stock.
   */
  lemma {:induction false} ReserveLoopAccounts(t: Table, branch: int, items: seq<StockLine>, i: nat)
    requires ValidTable(t) && i <= |items|
    ensures var p := ReserveFrom(t, branch, items, i);
            && ValidTable(p.table)
            && PositiveLines(items, i, p.done)
            && ReservedMoved(t, p.table, k => Demand(items, branch, i, p.done, k))
    decreases |items| - i
  {
    if i < |items| && ReserveLine(t, branch, items[i]).Success? {
      ReserveLineMoves(t, branch, items[i]);
      ReserveLoopAccounts(ReserveLine(t, branch, items[i]).value, branch, items, i + 1);
    }
  }

  /** The quantities that the lines of a row state, added up as they are. */
  function Stated(items: seq<StockLine>, branch: int, lo: nat, hi: nat, k: Key): real
    requires lo <= hi <= |items|
    decreases hi - lo
  {
    if lo == hi then 0.0
    else (if items[lo].sku == k.sku && k.branch == branch then items[lo].qty else 0.0) + Stated(items, branch, lo + 1, hi, k)
  }

  function LinesOf(items: seq<StockLine>, branch: int, lo: nat, hi: nat, k: Key): nat
    requires lo <= hi <= |items|
    decreases hi - lo
  {
    if lo == hi then 0
    else (if items[lo].sku == k.sku && k.branch == branch then 1 else 0) + LinesOf(items, branch, lo + 1, hi, k)
  }

  /** Whole pieces for `n` lines: at least what they state, and less than one piece a line above it. */
  predicate IsRoundedUp(pieces: int, stated: real, n: nat) {
    stated <= pieces as real && if n == 0 then pieces as real == stated else (pieces as real) < stated + n as real
  }

  lemma {:induction false} DemandIsRoundedUp(items: seq<StockLine>, branch: int, lo: nat, hi: nat, k: Key)
    requires lo <= hi <= |items|
    ensures IsRoundedUp(Demand(items, branch, lo, hi, k), Stated(items, branch, lo, hi, k), LinesOf(items, branch, lo, hi, k))
    decreases hi - lo
  {
    if lo < hi {
      DemandIsRoundedUp(items, branch, lo + 1, hi, k);
    }
  }

  /**
   In terms of the quantities the lines state: every line that the loop passed takes its own quantity rounded up
   to whole pieces, out of the row of its SKU at the order's branch.
   */
  lemma ReserveLoopTakes(t: Table, branch: int, items: seq<StockLine>, k: Key)
    requires ValidTable(t) && k in t
    ensures var p := ReserveFrom(t, branch, items, 0);
            && k in p.table && p.table[k].stock == t[k].stock
            && IsRoundedUp(p.table[k].reserved - t[k].reserved,
                           Stated(items, branch, 0, p.done, k), LinesOf(items, branch, 0, p.done, k))
  {
    ReserveLoopAccounts(t, branch, items, 0);
    DemandIsRoundedUp(items, branch, 0, ReserveFrom(t, branch, items, 0).done, k);
  }

  /** The releasing loop takes out of every row it finds what the lines before its end ask for. */
  lemma {:induction false} ReleaseMoves(t: Table, branch: int, items: seq<StockLine>, i: nat)
    requires ValidTable(t) && i <= |items|
    ensures var p := ReleaseFrom(t, branch, items, i);
            ValidTable(p.table) && ReservedMoved(t, p.table, k => -Demand(items, branch, i, p.done, k))
    decreases |items| - i
  {
    if i < |items| && ReleaseLine(t, branch, items[i]).Success? {
      ReleaseMoves(ReleaseLine(t, branch, items[i]).value, branch, items, i + 1);
    }
  }

  /** And gives back the same in the releasing loop. */
  lemma ReleaseLoopGives(t: Table, branch: int, items: seq<StockLine>, k: Key)
    requires ValidTable(t) && k in t
    ensures var p := ReleaseFrom(t, branch, items, 0);
            && k in p.table && p.table[k].stock == t[k].stock
            && IsRoundedUp(t[k].reserved - p.table[k].reserved,
                           Stated(items, branch, 0, p.done, k), LinesOf(items, branch, 0, p.done, k))
  {
    ReleaseMoves(t, branch, items, 0);
    DemandIsRoundedUp(items, branch, 0, ReleaseFrom(t, branch, items, 0).done, k);
  }

  /** One turn of either loop moves its row by the line's quantity, rounded up to whole pieces. */
  lemma OneLineMoves(t: Table, branch: int, line: StockLine)
    requires ValidTable(t)
    ensures var k, taken, given := Key(line.sku, branch), ReserveLine(t, branch, line), ReleaseLine(t, branch, line);
            && (taken.Success? ==>
                  && k in t && k in taken.value
                  && line.qty <= (taken.value[k].reserved - t[k].reserved) as real < line.qty + 1.0)
            && (given.Success? && k in t ==>
                  && k in given.value
                  && line.qty <= (t[k].reserved - given.value[k].reserved) as real < line.qty + 1.0)
  {
  }

  /** What the reserving loop needs for one line of those from `i` on. */
  ghost predicate FitsLine(t: Table, branch: int, items: seq<StockLine>, i: nat, j: nat)
    requires i <= |items|
  {
    i <= j < |items| ==>
      var k := Key(items[j].sku, branch);
      && k in t && ValidRow(t[k]) && items[j].qty > 0.0
      && Demand(items, branch, i, |items|, k) <= t[k].stock - t[k].reserved
  }

  /**
   What it needs of the table: that every line has a valid row, states a positive quantity, and that the lines of
   a row add up to no more than is available there.
   */
  ghost predicate Fits(t: Table, branch: int, items: seq<StockLine>, i: nat)
    requires i <= |items|
  {
    forall j: nat :: FitsLine(t, branch, items, i, j)
  }

  lemma RefusedDoesNotFit(t: Table, branch: int, items: seq<StockLine>, i: nat)
    requires i < |items| && ReserveLine(t, branch, items[i]).Failure?
    ensures !Fits(t, branch, items, i)
  {
    var k0 := LineKey(items[i], branch);
    if Fits(t, branch, items, i) {
      forall j | i <= j < |items| && LineKey(items[j], branch) == k0 ensures Units(items[j]) > 0 {
        assert FitsLine(t, branch, items, i, j);
      }
      assert FitsLine(t, branch, items, i, i);
      DemandOfRowNotNegative(items, branch, i + 1, k0);
      assert false;
    }
  }

  /** One reserved line leaves the rest fitting exactly if the whole did. */
  lemma FitsStep(t: Table, branch: int, items: seq<StockLine>, i: nat)
    requires i < |items| && ReserveLine(t, branch, items[i]).Success?
    ensures Fits(t, branch, items, i) <==> Fits(ReserveLine(t, branch, items[i]).value, branch, items, i + 1)
  {
    var t', k0 := ReserveLine(t, branch, items[i]).value, LineKey(items[i], branch);
    var rest := i + 1;
    assert forall k :: Demand(items, branch, i, |items|, k)
                       == (if k0 == k then Units(items[i]) else 0) + Demand(items, branch, rest, |items|, k);
    if Fits(t, branch, items, i) {
      forall j: nat ensures FitsLine(t', branch, items, rest, j) {
        assert FitsLine(t, branch, items, i, j);
      }
    }
    if Fits(t', branch, items, rest) {
      forall j: nat ensures FitsLine(t, branch, items, i, j) {
        assert FitsLine(t', branch, items, rest, j);
        if j == i {
          FirstLineFits(t, branch, items, i);
        }
      }
    }
  }

  lemma FirstLineFits(t: Table, branch: int, items: seq<StockLine>, i: nat)
    requires i < |items| && ReserveLine(t, branch, items[i]).Success?
    requires Fits(ReserveLine(t, branch, items[i]).value, branch, items, i + 1)
    ensures FitsLine(t, branch, items, i, i)
  {
    var t', k0 := ReserveLine(t, branch, items[i]).value, LineKey(items[i], branch);
    if j: nat :| i < j < |items| && LineKey(items[j], branch) == k0 {
      assert FitsLine(t', branch, items, i + 1, j);
    } else {
      NoDemand(items, branch, i + 1, k0);
    }
  }

  /** The reserving loop runs to its end if and only if its lines fit what is available. */
  lemma {:induction false} ReserveCompletesIff(t: Table, branch: int, items: seq<StockLine>, i: nat)
    requires i <= |items|
    ensures ReserveFrom(t, branch, items, i).error.None? <==> Fits(t, branch, items, i)
    decreases |items| - i
  {
    if i < |items| {
      if ReserveLine(t, branch, items[i]).Success? {
        FitsStep(t, branch, items, i);
        ReserveCompletesIff(ReserveLine(t, branch, items[i]).value, branch, items, i + 1);
      } else {
        RefusedDoesNotFit(t, branch, items, i);
      }
    }
  }

  /** Where it stops on a missing row, it says so with that line's SKU. */
  lemma {:induction false} ReserveStopsAt(t: Table, branch: int, items: seq<StockLine>, i: nat)
    requires i <= |items| && ReserveFrom(t, branch, items, i).error.Some?
    ensures var p := ReserveFrom(t, branch, items, i);
            && p.done < |items|
            && if Key(items[p.done].sku, branch) !in t then p.error == Some(InventoryNotFound(items[p.done].sku))
               else p.error.value.StockRefused?
    decreases |items| - i
  {
    if ReserveLine(t, branch, items[i]).Success? {
      ReserveStopsAt(ReserveLine(t, branch, items[i]).value, branch, items, i + 1);
    }
  }

  /** The releasing loop runs to its end wherever every row holds at least what it will be asked for. */
  lemma {:induction false} ReleaseLoopAccounts(t: Table, branch: int, items: seq<StockLine>, i: nat)
    requires ValidTable(t) && i <= |items| && PositiveLines(items, i, |items|)
    requires forall k :: Demand(items, branch, i, |items|, k) <= ReservedAt(t, k)
    ensures var p := ReleaseFrom(t, branch, items, i);
            && p.error.None? && p.done == |items|
            && ValidTable(p.table)
            && ReservedMoved(t, p.table, k => -Demand(items, branch, i, |items|, k))
    decreases |items| - i
  {
    if i < |items| {
      var k := LineKey(items[i], branch);
      DemandNotNegative(items, branch, i + 1, |items|, k);
      assert Demand(items, branch, i, |items|, k) == Units(items[i]) + Demand(items, branch, i + 1, |items|, k);
      assert ReservedAt(t, k) >= Units(items[i]);
      ReleaseLineMoves(t, branch, items[i]);
      var t' := ReleaseLine(t, branch, items[i]).value;
      forall q ensures Demand(items, branch, i + 1, |items|, q) <= ReservedAt(t', q) {
        assert Demand(items, branch, i, |items|, q)
               == (if LineKey(items[i], branch) == q then Units(items[i]) else 0) + Demand(items, branch, i + 1, |items|, q);
      }
      ReleaseLoopAccounts(t', branch, items, i + 1);
    }
  }

  /** What the releasing loop needs for one line of those from `i` on; a line without a row is passed over. */
  ghost predicate CoversLine(t: Table, branch: int, items: seq<StockLine>, i: nat, j: nat)
    requires i <= |items|
  {
    i <= j < |items| && LineKey(items[j], branch) in t ==>
      var k := LineKey(items[j], branch);
      ValidRow(t[k]) && Units(items[j]) > 0 && Demand(items, branch, i, |items|, k) <= t[k].reserved
  }

  /**
   What it needs of the table: of every row that a line names, that the row is valid and that the lines ask
   for positive quantities which add up to no more than it reserves.
   */
  ghost predicate Covers(t: Table, branch: int, items: seq<StockLine>, i: nat)
    requires i <= |items|
  {
    forall j: nat :: CoversLine(t, branch, items, i, j)
  }

  lemma {:induction false} DemandOfRowNotNegative(items: seq<StockLine>, branch: int, i: nat, k: Key)
    requires i <= |items|
    requires forall j :: i <= j < |items| && LineKey(items[j], branch) == k ==> Units(items[j]) > 0
    ensures Demand(items, branch, i, |items|, k) >= 0
    decreases |items| - i
  {
    if i < |items| {
      DemandOfRowNotNegative(items, branch, i + 1, k);
    }
  }

  lemma {:induction false} NoDemand(items: seq<StockLine>, branch: int, i: nat, k: Key)
    requires i <= |items| && forall j :: i <= j < |items| ==> LineKey(items[j], branch) != k
    ensures Demand(items, branch, i, |items|, k) == 0
    decreases |items| - i
  {
    if i < |items| {
      NoDemand(items, branch, i + 1, k);
    }
  }

  lemma RefusedIsUncovered(t: Table, branch: int, items: seq<StockLine>, i: nat)
    requires i < |items| && ReleaseLine(t, branch, items[i]).Failure?
    ensures !Covers(t, branch, items, i)
  {
    var k0 := LineKey(items[i], branch);
    if Covers(t, branch, items, i) {
      forall j | i <= j < |items| && LineKey(items[j], branch) == k0 ensures Units(items[j]) > 0 {
        assert CoversLine(t, branch, items, i, j);
      }
      assert CoversLine(t, branch, items, i, i);
      DemandOfRowNotNegative(items, branch, i + 1, k0);
      assert false;
    }
  }

  /** One release leaves the rest covered exactly if the whole was. */
  lemma CoversStep(t: Table, branch: int, items: seq<StockLine>, i: nat)
    requires i < |items| && ReleaseLine(t, branch, items[i]).Success?
    ensures Covers(t, branch, items, i) <==> Covers(ReleaseLine(t, branch, items[i]).value, branch, items, i + 1)
  {
    var t', k0 := ReleaseLine(t, branch, items[i]).value, LineKey(items[i], branch);
    assert forall k :: Demand(items, branch, i, |items|, k)
                       == (if k0 == k then Units(items[i]) else 0) + Demand(items, branch, i + 1, |items|, k);
    var rest := i + 1;
    if Covers(t, branch, items, i) {
      forall j: nat ensures CoversLine(t', branch, items, rest, j) {
        assert CoversLine(t, branch, items, i, j);
      }
    }
    if Covers(t', branch, items, rest) {
      forall j: nat ensures CoversLine(t, branch, items, i, j) {
        assert CoversLine(t', branch, items, rest, j);
        if j == i && k0 in t {
          FirstLineIsCovered(t, branch, items, i);
        }
      }
    }
  }

  lemma FirstLineIsCovered(t: Table, branch: int, items: seq<StockLine>, i: nat)
    requires i < |items| && LineKey(items[i], branch) in t && ReleaseLine(t, branch, items[i]).Success?
    requires Covers(ReleaseLine(t, branch, items[i]).value, branch, items, i + 1)
    ensures CoversLine(t, branch, items, i, i)
  {
    var t', k0 := ReleaseLine(t, branch, items[i]).value, LineKey(items[i], branch);
    if j: nat :| i < j < |items| && LineKey(items[j], branch) == k0 {
      assert CoversLine(t', branch, items, i + 1, j);
    } else {
      NoDemand(items, branch, i + 1, k0);
    }
  }

  /** The releasing loop runs to its end if and only if the table covers it. */
  lemma {:induction false} ReleaseCompletesIff(t: Table, branch: int, items: seq<StockLine>, i: nat)
    requires i <= |items|
    ensures ReleaseFrom(t, branch, items, i).error.None? <==> Covers(t, branch, items, i)
    decreases |items| - i
  {
    if i < |items| {
      if ReleaseLine(t, branch, items[i]).Success? {
        CoversStep(t, branch, items, i);
        ReleaseCompletesIff(ReleaseLine(t, branch, items[i]).value, branch, items, i + 1);
      } else {
        RefusedIsUncovered(t, branch, items, i);
      }
    }
  }

  /** Over valid rows and positive lines it is the demand of each row that decides. */
  lemma CoversByDemand(t: Table, branch: int, items: seq<StockLine>)
    requires ValidTable(t) && PositiveLines(items, 0, |items|)
    ensures Covers(t, branch, items, 0) <==> forall k :: k in t ==> Demand(items, branch, 0, |items|, k) <= t[k].reserved
  {
    if Covers(t, branch, items, 0) {
      forall k | k in t ensures Demand(items, branch, 0, |items|, k) <= t[k].reserved {
        if j: nat :| j < |items| && LineKey(items[j], branch) == k {
          assert CoversLine(t, branch, items, 0, j);
        } else {
          NoDemand(items, branch, 0, k);
        }
      }
    }
  }

  /** Releasing what was reserved restores every row, and never fails. */
  lemma ReserveThenReleaseRestores(t: Table, branch: int, items: seq<StockLine>)
    requires ValidTable(t) && ReserveFrom(t, branch, items, 0).error.None?
    ensures ReleaseFrom(ReserveFrom(t, branch, items, 0).table, branch, items, 0) == Progress(t, |items|, None)
  {
    var held := ReserveFrom(t, branch, items, 0).table;
    ReserveLoopAccounts(t, branch, items, 0);
    forall k ensures Demand(items, branch, 0, |items|, k) <= ReservedAt(held, k) {
      if k !in t {
        AbsentRowsOweNothing(t, branch, items, 0, k);
      }
    }
    ReleaseLoopAccounts(held, branch, items, 0);
    var back := ReleaseFrom(held, branch, items, 0).table;
    assert back == t by {
      assert back.Keys == t.Keys;
      forall k | k in t ensures back[k] == t[k] {
        assert back[k].stock == t[k].stock && back[k].reserved == t[k].reserved;
      }
    }
  }

  /** A loop that got as far as line `p.done` has asked nothing of a row that is not there. */
  lemma {:induction false} AbsentRowsOweNothing(t: Table, branch: int, items: seq<StockLine>, i: nat, k: Key)
    requires i <= |items| && k !in t
    ensures Demand(items, branch, i, ReserveFrom(t, branch, items, i).done, k) == 0
    decreases |items| - i
  {
    if i < |items| && ReserveLine(t, branch, items[i]).Success? {
      AbsentRowsOweNothing(ReserveLine(t, branch, items[i]).value, branch, items, i + 1, k);
    }
  }

  /** A stored order. `trail` is its status history, one pair per transition. */
  class Order {
    var status: OrderStatus
    var trail: seq<(OrderStatus, OrderStatus)>
    const branch: Option<int>
    const items: seq<StockLine>

    constructor (status: OrderStatus, branch: Option<int>, items: seq<StockLine>)
      ensures this.status == status && this.branch == branch && this.items == items && trail == []
    {
      this.status, this.branch, this.items, this.trail := status, branch, items, [];
    }

    /** Each event starts where the one before it ended, and the last one ends at the current status. */
    ghost predicate TrailIsUnbroken()
      reads this
    {
      && (forall i :: 0 < i < |trail| ==> trail[i].0 == trail[i - 1].1)
      && (trail != [] ==> trail[|trail| - 1].1 == status)
    }
  }

  class OrderService {
    const inventory: InventoryRepository

    constructor (inventory: InventoryRepository)
      ensures this.inventory == inventory
    {
      this.inventory := inventory;
    }

    method ReserveForOrder(order: Order) returns (e: Option<OrderError>)
      modifies inventory`rows
      ensures order.branch.None? ==> e == Some(NoBranch) && inventory.rows == old(inventory.rows)
      ensures order.branch.Some? ==>
                var p := ReserveFrom(old(inventory.rows), order.branch.value, order.items, 0);
                inventory.rows == p.table && e == p.error
    {
      if order.branch.None? {
        return Some(NoBranch);
      }
      var branch := order.branch.value;
      for i := 0 to |order.items|
        invariant ReserveFrom(old(inventory.rows), branch, order.items, 0)
                  == ReserveFrom(inventory.rows, branch, order.items, i)
      {
        var item := order.items[i];
        var inv := inventory.FindBySkuAndBranch(item.sku, branch);
        if inv.None? {
          return Some(InventoryNotFound(item.sku));
        }
        var refused := inventory.Mutate(inv.value, Reserve(Units(item) as real));
        if refused.Some? {
          return Some(StockRefused(refused.value));
        }
      }
      return None;
    }

    method ReleaseForOrder(order: Order) returns (e: Option<OrderError>)
      modifies inventory`rows
      ensures order.branch.None? ==> e == None && inventory.rows == old(inventory.rows)
      ensures order.branch.Some? ==>
                var p := ReleaseFrom(old(inventory.rows), order.branch.value, order.items, 0);
                inventory.rows == p.table && e == p.error
    {
      if order.branch.None? {
        return None;
      }
      var branch := order.branch.value;
      for i := 0 to |order.items|
        invariant ReleaseFrom(old(inventory.rows), branch, order.items, 0)
                  == ReleaseFrom(inventory.rows, branch, order.items, i)
      {
        var item := order.items[i];
        var inv := inventory.FindBySkuAndBranch(item.sku, branch);
        if inv.Some? {
          var refused := inventory.Mutate(inv.value, Release(Units(item) as real));
          if refused.Some? {
            return Some(StockRefused(refused.value));
          }
        }
      }
      return None;
    }

    method TransitionTo(order: Order, to: OrderStatus)
      requires order.TrailIsUnbroken()
      modifies order
      ensures order.status == to && order.trail == old(order.trail) + [(old(order.status), to)]
      ensures order.TrailIsUnbroken()
    {
      order.trail := order.trail + [(order.status, to)];
      order.status := to;
    }

    /** The order is confirmed exactly when every line was reserved; a failed loop keeps its earlier lines. */
    method Confirm(order: Order) returns (e: Option<OrderError>)
      requires order.TrailIsUnbroken()
      modifies order, inventory`rows
      ensures order.TrailIsUnbroken()
      ensures old(order.status) == Confirmed ==> e == Some(AlreadyConfirmed)
      ensures old(order.status) == Cancelled ==> e == Some(AlreadyCancelled)
      ensures old(order.status) !in {Confirmed, Cancelled} ==>
                if order.branch.None? then e == Some(NoBranch) && inventory.rows == old(inventory.rows)
                else
                  var p := ReserveFrom(old(inventory.rows), order.branch.value, order.items, 0);
                  inventory.rows == p.table && e == p.error
      ensures old(order.status) in {Confirmed, Cancelled} ==> inventory.rows == old(inventory.rows)
      ensures e.Some? ==> order.status == old(order.status) && order.trail == old(order.trail)
      ensures e.None? ==> order.status == Confirmed && order.trail == old(order.trail) + [(old(order.status), Confirmed)]
    {
      if order.status == Confirmed {
        return Some(AlreadyConfirmed);
      }
      if order.status == Cancelled {
        return Some(AlreadyCancelled);
      }
      e := ReserveForOrder(order);
      if e.None? {
        TransitionTo(order, Confirmed);
      }
    }

    method Prepare(order: Order) returns (e: Option<OrderError>)
      requires order.TrailIsUnbroken()
      modifies order
      ensures order.TrailIsUnbroken()
      ensures e == if old(order.status) == Cancelled then Some(AlreadyCancelled)
                   else if old(order.status) != Confirmed then Some(NotConfirmed) else None
      ensures e.Some? ==> order.status == old(order.status) && order.trail == old(order.trail)
      ensures e.None? ==> order.status == Preparing && order.trail == old(order.trail) + [(old(order.status), Preparing)]
    {
      if order.status == Cancelled {
        return Some(AlreadyCancelled);
      }
      if order.status != Confirmed {
        return Some(NotConfirmed);
      }
      TransitionTo(order, Preparing);
      return None;
    }

    method Cancel(order: Order) returns (e: Option<OrderError>)
      requires order.TrailIsUnbroken()
      modifies order, inventory`rows
      ensures order.TrailIsUnbroken()
      ensures old(order.status) == Cancelled ==> e == Some(AlreadyCancelled)
      ensures HoldsStock(old(order.status)) && order.branch.Some? ==>
                var p := ReleaseFrom(old(inventory.rows), order.branch.value, order.items, 0);
                inventory.rows == p.table && e == p.error
      ensures !HoldsStock(old(order.status)) || order.branch.None? ==> inventory.rows == old(inventory.rows)
      ensures !HoldsStock(old(order.status)) && old(order.status) != Cancelled ==> e == None
      ensures HoldsStock(old(order.status)) && order.branch.None? ==> e == None
      ensures e.Some? ==> order.status == old(order.status) && order.trail == old(order.trail)
      ensures e.None? ==> order.status == Cancelled && order.trail == old(order.trail) + [(old(order.status), Cancelled)]
    {
      if order.status == Cancelled {
        return Some(AlreadyCancelled);
      }
      if order.status == Confirmed || order.status == Preparing {
        e := ReleaseForOrder(order);
        if e.Some? {
          return;
        }
      }
      TransitionTo(order, Cancelled);
      return None;
    }
  }
}
