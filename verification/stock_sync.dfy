/**
 One run of the supplier import: rough-country-stock-sync.service.ts. The run is a retried fetch and a
 sequence of writes; what it comes to is one declarative update of the inventory table.
 */
module StockSync {
  import opened Wrappers
  import opened Inventory
  import opened Text
  import opened SheetReader
  import opened SheetDocuments
  import opened SheetPrinting
  import opened StockFeed
  import opened StockTable

  /** The database call that fails, if one does. */
  datatype Fault = NoFault | AtLookup | AtUpsert | AtZeroOut | AtReport

  datatype RunStatus = RunSucceeded | RunFailed

  datatype RunResult = RunResult(status: RunStatus, received: nat, processed: nat, failed: nat)

  /** `retryBaseDelayMs * 2 ** n`. */
  function Delay(base: nat, n: nat): nat {
    if n == 0 then base else 2 * Delay(base, n - 1)
  }

  function TotalDelay(base: nat, n: nat): nat {
    if n == 0 then 0 else TotalDelay(base, n - 1) + Delay(base, n - 1)
  }

  /** Waiting doubles, so all the waits together fall short of the next one by the first. */
  lemma {:induction false} TotalDelayIs(base: nat, n: nat)
    ensures TotalDelay(base, n) + base == Delay(base, n)
  {
    if n > 0 {
      TotalDelayIs(base, n - 1);
    }
  }

  /** What a retried fetch may answer after how many calls. */
  ghost predicate IsFetched(feed: nat -> Fetched, retryAttempts: int, r: Fetched, calls: nat) {
    && 1 <= calls && (calls == 1 || calls <= retryAttempts)
    && r == feed(calls - 1)
    && (forall i: nat :: i < calls - 1 ==> feed(i) == ServiceUnavailable)
    && (r == ServiceUnavailable ==> calls >= retryAttempts)
  }

  /** That leaves one answer and one number of calls. */
  lemma FetchIsDetermined(feed: nat -> Fetched, retryAttempts: int, r: Fetched, calls: nat, r': Fetched, calls': nat)
    requires IsFetched(feed, retryAttempts, r, calls) && IsFetched(feed, retryAttempts, r', calls')
    ensures r == r' && calls == calls'
  {
  }

  /**
   `fetchWithRetry` over the feed port: asks until something other than "unavailable" comes back or the
   attempts are used up, always asks at least once, and reports how long it waited in between.
   */
  method FetchWithRetry(feed: nat -> Fetched, retryAttempts: int, baseDelay: nat)
    returns (r: Fetched, calls: nat, waited: nat)
    ensures IsFetched(feed, retryAttempts, r, calls)
    ensures waited + baseDelay == Delay(baseDelay, calls - 1)
  {
    calls, waited := 0, 0;
    var delay := baseDelay;
    while true
      invariant calls == 0 || calls < retryAttempts
      invariant forall i: nat :: i < calls ==> feed(i) == ServiceUnavailable
      invariant delay == Delay(baseDelay, calls) && waited == TotalDelay(baseDelay, calls)
      decreases retryAttempts - calls
    {
      r := feed(calls);
      TotalDelayIs(baseDelay, calls);
      calls := calls + 1;
      if r != ServiceUnavailable || calls >= retryAttempts {
        return;
      }
      waited := waited + delay;
      delay := delay * 2;
    }
  }

  /** The feed rows of SKUs the catalogue carries. */
  function Matched(feed: seq<FeedRow>, known: set<string>): (m: seq<FeedRow>)
    ensures forall r :: r in m <==> r in feed && r.sku in known
    ensures |m| <= |feed|
  {
    if |feed| == 0 then []
    else
      var init := Matched(feed[..|feed| - 1], known);
      if feed[|feed| - 1].sku in known then init + [feed[|feed| - 1]] else init
  }

  /** Two inventory rows a feed row: one for each warehouse. */
  function BulkRows(feed: seq<FeedRow>, nv: int, tn: int): (rows: seq<BulkRow>)
    ensures |rows| == 2 * |feed|
  {
    if |feed| == 0 then []
    else
      var last := feed[|feed| - 1];
      BulkRows(feed[..|feed| - 1], nv, tn) + [RowFor(last, nv, last.nvStock), RowFor(last, tn, last.tnStock)]
  }

  function RowFor(r: FeedRow, branch: int, quantity: nat): BulkRow {
    BulkRow(r.sku, branch, quantity)
  }

  /** They follow the feed: of each of its rows the Nevada quantity, and then the Tennessee quantity. */
  lemma {:induction false} BulkRowsAt(feed: seq<FeedRow>, nv: int, tn: int, i: nat)
    requires i < |feed|
    ensures BulkRows(feed, nv, tn)[2 * i] == BulkRow(feed[i].sku, nv, feed[i].nvStock)
    ensures BulkRows(feed, nv, tn)[2 * i + 1] == BulkRow(feed[i].sku, tn, feed[i].tnStock)
  {
    if i < |feed| - 1 {
      BulkRowsAt(feed[..|feed| - 1], nv, tn, i);
    }
  }

  lemma {:induction false} BulkRowsIff(feed: seq<FeedRow>, nv: int, tn: int, b: BulkRow)
    ensures b in BulkRows(feed, nv, tn)
            <==> exists r :: r in feed && (b == RowFor(r, nv, r.nvStock) || b == RowFor(r, tn, r.tnStock))
  {
    if |feed| > 0 {
      var init, last := feed[..|feed| - 1], feed[|feed| - 1];
      BulkRowsIff(init, nv, tn, b);
      assert forall r :: r in feed <==> r in init || r == last;
    }
  }

  lemma {:induction false} MatchedDistinct(feed: seq<FeedRow>, known: set<string>)
    requires DistinctSkus(feed)
    ensures DistinctSkus(Matched(feed, known))
  {
    if |feed| > 0 {
      var init, last := feed[..|feed| - 1], feed[|feed| - 1];
      MatchedDistinct(init, known);
      forall r | r in Matched(init, known) ensures r.sku != last.sku {
        assert r in init;
      }
    }
  }

  lemma {:induction false} BulkRowsDistinct(feed: seq<FeedRow>, nv: int, tn: int)
    requires DistinctSkus(feed) && nv != tn
    ensures DistinctKeys(BulkRows(feed, nv, tn))
  {
    if |feed| > 0 {
      var init, last := feed[..|feed| - 1], feed[|feed| - 1];
      BulkRowsDistinct(init, nv, tn);
      forall b | b in BulkRows(init, nv, tn) ensures b.sku != last.sku {
        BulkRowsIff(init, nv, tn, b);
      }
    }
  }

  /** Every row of the batch is of a SKU the catalogue carries, so the join drops nothing. */
  lemma {:induction false} AllCarried(known: set<string>, rows: seq<BulkRow>)
    requires forall r :: r in rows ==> r.sku in known
    ensures Carried(known, rows) == rows
  {
    if |rows| > 0 {
      AllCarried(known, rows[..|rows| - 1]);
      assert rows[|rows| - 1] in rows;
    }
  }

  function SkuSet(feed: seq<FeedRow>): set<string> {
    set r | r in feed :: r.sku
  }

  predicate Listed(feed: seq<FeedRow>, known: set<string>, sku: string) {
    sku in known && sku in SkuSet(feed)
  }

  function ReservedBefore(t: Table, k: Key): int {
    if k in t then t[k].reserved else 0
  }

  /** A warehouse row after the feed said `quantity`: never below what is reserved. */
  ghost predicate Restocked(before: Table, after: Table, k: Key, quantity: nat) {
    && k in after
    && after[k].reserved == ReservedBefore(before, k)
    && after[k].stock == if quantity < ReservedBefore(before, k) then ReservedBefore(before, k) else quantity
  }

  /**
   The import as one statement: listed SKUs get the feed's quantity or what is reserved, whichever is more;
   unlisted rows of the two branches keep only what is reserved; every other row is untouched.
   */
  ghost predicate IsImport(before: Table, after: Table, known: set<string>, feed: seq<FeedRow>, nv: int, tn: int) {
    && (forall r :: r in feed && r.sku in known ==>
          Restocked(before, after, Key(r.sku, nv), r.nvStock) && Restocked(before, after, Key(r.sku, tn), r.tnStock))
    && (forall k: Key :: k.branch in {nv, tn} && !Listed(feed, known, k.sku) ==>
          Lookup(after, k) == if k in before then Some(Row(before[k].reserved, before[k].reserved)) else None)
    && (forall k: Key :: k.branch !in {nv, tn} ==> Lookup(after, k) == Lookup(before, k))
  }

  /** Only one table is the import of another, so the statement leaves nothing open. */
  lemma ImportIsDetermined(before: Table, a: Table, b: Table, known: set<string>, feed: seq<FeedRow>, nv: int, tn: int)
    requires IsImport(before, a, known, feed, nv, tn) && IsImport(before, b, known, feed, nv, tn)
    ensures a == b
  {
    forall k: Key ensures Lookup(a, k) == Lookup(b, k) {
      if k.branch in {nv, tn} && Listed(feed, known, k.sku) {
        var r :| r in feed && r.sku == k.sku;
        assert Key(r.sku, nv) == k || Key(r.sku, tn) == k;
      }
    }
    forall k: Key ensures (k in a <==> k in b) && (k in a ==> a[k] == b[k]) {
      assert Lookup(a, k) == Lookup(b, k);
    }
  }

  /** What the writes of a run amount to. */
  function Imported(t: Table, feed: seq<FeedRow>, known: set<string>, nv: int, tn: int): Table {
    ZeroedOut(UpsertAll(t, BulkRows(Matched(feed, known), nv, tn)), {nv, tn}, SkuSet(Matched(feed, known)))
  }

  lemma ListedIsWritten(t: Table, feed: seq<FeedRow>, known: set<string>, nv: int, tn: int, r: FeedRow)
    requires DistinctSkus(feed) && nv != tn && r in feed && r.sku in known
    ensures Restocked(t, Imported(t, feed, known, nv, tn), Key(r.sku, nv), r.nvStock)
    ensures Restocked(t, Imported(t, feed, known, nv, tn), Key(r.sku, tn), r.tnStock)
  {
    var m := Matched(feed, known);
    var rows := BulkRows(m, nv, tn);
    MatchedDistinct(feed, known);
    BulkRowsDistinct(m, nv, tn);
    UpsertAllRows(t, rows);
    assert r in m && r.sku in SkuSet(m);
    var a, b := RowFor(r, nv, r.nvStock), RowFor(r, tn, r.tnStock);
    BulkRowsIff(m, nv, tn, a);
    BulkRowsIff(m, nv, tn, b);
    assert KeyOf(a) == Key(r.sku, nv) && KeyOf(b) == Key(r.sku, tn);
  }

  lemma UnlistedIsNotWritten(t: Table, feed: seq<FeedRow>, known: set<string>, nv: int, tn: int, k: Key)
    requires DistinctSkus(feed) && nv != tn
    requires k.branch !in {nv, tn} || !Listed(feed, known, k.sku)
    ensures Lookup(UpsertAll(t, BulkRows(Matched(feed, known), nv, tn)), k) == Lookup(t, k)
  {
    var m := Matched(feed, known);
    var rows := BulkRows(m, nv, tn);
    MatchedDistinct(feed, known);
    BulkRowsDistinct(m, nv, tn);
    UpsertAllRows(t, rows);
    forall b | b in rows ensures KeyOf(b) != k {
      BulkRowsIff(m, nv, tn, b);
      var r :| r in m && (b == RowFor(r, nv, r.nvStock) || b == RowFor(r, tn, r.tnStock));
      assert r.sku in SkuSet(feed);
    }
  }

  lemma UnlistedIsZeroed(t: Table, feed: seq<FeedRow>, known: set<string>, nv: int, tn: int, k: Key)
    requires ValidTable(t) && DistinctSkus(feed) && nv != tn && Matched(feed, known) != []
    requires k.branch !in {nv, tn} || !Listed(feed, known, k.sku)
    ensures Lookup(Imported(t, feed, known, nv, tn), k)
            == if k in t && k.branch in {nv, tn} then Some(Row(t[k].reserved, t[k].reserved)) else Lookup(t, k)
  {
    UnlistedIsNotWritten(t, feed, known, nv, tn, k);
    var u, keep := UpsertAll(t, BulkRows(Matched(feed, known), nv, tn)), SkuSet(Matched(feed, known));
    KeptSkus(feed, known, k.sku);
    ZeroedRow(u, {nv, tn}, keep, k);
    UnkeptRow(t, u, {nv, tn}, keep, k);
  }

  /** The SKUs the zero-out spares are the listed ones, and there is at least one. */
  lemma KeptSkus(feed: seq<FeedRow>, known: set<string>, sku: string)
    requires Matched(feed, known) != []
    ensures SkuSet(Matched(feed, known)) != {}
    ensures sku in SkuSet(Matched(feed, known)) <==> Listed(feed, known, sku)
  {
    var m := Matched(feed, known);
    assert m[0].sku in SkuSet(m);
    if Listed(feed, known, sku) {
      var r :| r in feed && r.sku == sku;
      assert r in m;
    }
  }

  /** On a valid row the zero-out writes exactly the reserved quantity, even where the row is at it already. */
  lemma UnkeptRow(t: Table, u: Table, branches: set<int>, keep: set<string>, k: Key)
    requires ValidTable(t) && Lookup(u, k) == Lookup(t, k)
    requires k.branch in branches ==> k.sku !in keep
    ensures (if k in u && ZeroesRow(u, branches, keep, k) then Some(Row(u[k].reserved, u[k].reserved)) else Lookup(u, k))
            == if k in t && k.branch in branches then Some(Row(t[k].reserved, t[k].reserved)) else Lookup(t, k)
  {
    if k in t {
      assert k in u && u[k] == t[k] && ValidRow(t[k]);
    }
  }

  lemma ZeroedRow(u: Table, branches: set<int>, keep: set<string>, k: Key)
    requires branches != {} && keep != {}
    ensures Lookup(ZeroedOut(u, branches, keep), k)
            == if k in u && ZeroesRow(u, branches, keep, k) then Some(Row(u[k].reserved, u[k].reserved)) else Lookup(u, k)
  {
  }

  /** The writes of a run are the import. */
  lemma ImportedIsImport(t: Table, feed: seq<FeedRow>, known: set<string>, nv: int, tn: int)
    requires ValidTable(t) && DistinctSkus(feed) && nv != tn && Matched(feed, known) != []
    ensures IsImport(t, Imported(t, feed, known, nv, tn), known, feed, nv, tn)
  {
    forall r | r in feed && r.sku in known
      ensures Restocked(t, Imported(t, feed, known, nv, tn), Key(r.sku, nv), r.nvStock)
      ensures Restocked(t, Imported(t, feed, known, nv, tn), Key(r.sku, tn), r.tnStock)
    {
      ListedIsWritten(t, feed, known, nv, tn, r);
    }
    forall k: Key | k.branch !in {nv, tn} || !Listed(feed, known, k.sku)
      ensures Lookup(Imported(t, feed, known, nv, tn), k)
              == if k in t && k.branch in {nv, tn} then Some(Row(t[k].reserved, t[k].reserved)) else Lookup(t, k)
    {
      UnlistedIsZeroed(t, feed, known, nv, tn, k);
    }
  }

  /** An import leaves every row valid and every reserved quantity as it was. */
  lemma ImportedKeepsReservations(t: Table, feed: seq<FeedRow>, known: set<string>, nv: int, tn: int)
    requires ValidTable(t)
    ensures ValidTable(Imported(t, feed, known, nv, tn))
    ensures forall k :: k in t ==>
              k in Imported(t, feed, known, nv, tn) && Imported(t, feed, known, nv, tn)[k].reserved == t[k].reserved
  {
    var m := Matched(feed, known);
    forall b | b in BulkRows(m, nv, tn) ensures b.stock >= 0 {
      BulkRowsIff(m, nv, tn, b);
    }
    UpsertKeepsValid(t, BulkRows(m, nv, tn));
    ZeroKeepsValid(UpsertAll(t, BulkRows(m, nv, tn)), {nv, tn}, SkuSet(m));
  }

  /** The rows a run reports as clamped: exactly those whose reserved quantity exceeds the feed's. */
  lemma {:induction false} ClampedIff(t: Table, rows: seq<BulkRow>, c: ClampedRow)
    ensures c in ClampedOf(t, rows)
            <==> exists r :: r in rows && KeyOf(r) in t && r.stock < t[KeyOf(r)].reserved
                             && c == ClampedRow(r.sku, r.branch, r.stock, t[KeyOf(r)].reserved, t[KeyOf(r)].reserved)
  {
    if |rows| > 0 {
      var init, last := rows[..|rows| - 1], rows[|rows| - 1];
      ClampedIff(t, init, c);
      assert forall r :: r in rows <==> r in init || r == last;
    }
  }

  /** With one branch named twice the first chunk already hits a key twice, and nothing is written. */
  lemma SameBranchIsRefused(t: Table, feed: seq<FeedRow>, known: set<string>, branch: int, size: nat)
    requires Matched(feed, known) != [] && size >= 2
    ensures BulkUpserted(t, known, BulkRows(Matched(feed, known), branch, branch), size).Failure?
  {
    var m := Matched(feed, known);
    var rows := BulkRows(m, branch, branch);
    var chunk := rows[0..ChunkEnd(0, size, |rows|)];
    forall r | r in chunk ensures r.sku in known {
      assert r in rows;
      BulkRowsIff(m, branch, branch, r);
    }
    AllCarried(known, chunk);
    FirstTwoRows(m, branch);
    TwiceInChunk(chunk);
  }

  lemma TwiceInChunk(chunk: seq<BulkRow>)
    requires |chunk| >= 2 && KeyOf(chunk[0]) == KeyOf(chunk[1])
    ensures RepeatsKey(chunk)
  {
  }

  lemma {:induction false} FirstTwoRows(feed: seq<FeedRow>, branch: int)
    requires feed != []
    ensures var rows := BulkRows(feed, branch, branch); KeyOf(rows[0]) == KeyOf(rows[1])
  {
    if |feed| > 1 {
      FirstTwoRows(feed[..|feed| - 1], branch);
    } else {
      assert BulkRows(feed[..0], branch, branch) == [];
    }
  }

  function FeedSkus(feed: seq<FeedRow>): (skus: seq<string>)
    ensures forall s :: s in skus <==> s in SkuSet(feed)
  {
    if |feed| == 0 then [] else FeedSkus(feed[..|feed| - 1]) + [feed[|feed| - 1].sku]
  }

  class StockSyncService {
    const inventory: InventoryRepository

    constructor (inventory: InventoryRepository)
      ensures this.inventory == inventory
    {
      this.inventory := inventory;
    }

    /** The two writes: the batch in one transaction, then the zero-out on its own. */
    method WriteStock(matched: seq<FeedRow>, nv: int, tn: int, fault: Fault) returns (bulk: Option<BulkResult>)
      requires inventory.chunkSize > 0
      modifies inventory`rows
      ensures match BulkUpserted(old(inventory.rows), inventory.known, BulkRows(matched, nv, tn), inventory.chunkSize)
              case Failure(_) => bulk == None && inventory.rows == old(inventory.rows)
              case Success(o) =>
                if fault == AtUpsert then bulk == None && inventory.rows == old(inventory.rows)
                else if fault == AtZeroOut then bulk == None && inventory.rows == o.table
                else bulk == Some(BulkResult(o.written, o.clamped))
                     && inventory.rows == ZeroedOut(o.table, {nv, tn}, SkuSet(matched))
    {
      if fault == AtUpsert {
        return None;
      }
      var r := inventory.BulkUpsertStock(BulkRows(matched, nv, tn));
      if r.Failure? || fault == AtZeroOut {
        return None;
      }
      var zeroed := inventory.ZeroOutMissing({nv, tn}, SkuSet(matched));
      return Some(r.value);
    }

    /** The writes of a feed some of whose SKUs are known, by what they come to. */
    method ImportMatched(feed: seq<FeedRow>, nv: int, tn: int, fault: Fault) returns (bulk: Option<BulkResult>)
      requires inventory.chunkSize >= 2
      requires DistinctSkus(feed) && Matched(feed, inventory.known) != []
      modifies inventory`rows
      ensures bulk.Some? <==> nv != tn && fault != AtUpsert && fault != AtZeroOut
      ensures bulk.Some? ==>
                var rows := BulkRows(Matched(feed, inventory.known), nv, tn);
                && bulk.value == BulkResult(|rows|, ClampedOf(old(inventory.rows), rows))
                && inventory.rows == Imported(old(inventory.rows), feed, inventory.known, nv, tn)
      ensures bulk.None? ==>
                inventory.rows ==
                if nv != tn && fault == AtZeroOut
                then UpsertAll(old(inventory.rows), BulkRows(Matched(feed, inventory.known), nv, tn))
                else old(inventory.rows)
    {
      var matched := Matched(feed, inventory.known);
      if nv == tn {
        SameBranchIsRefused(inventory.rows, feed, inventory.known, nv, inventory.chunkSize);
      } else {
        BatchIsDistinct(feed, inventory.known, nv, tn);
        ChunkSizeIrrelevant(inventory.rows, inventory.known, BulkRows(matched, nv, tn), inventory.chunkSize);
      }
      bulk := WriteStock(matched, nv, tn, fault);
    }

    /** A feed that may be written: rows came back, and the catalogue carries some of them. */
    predicate Usable(fetched: Fetched) {
      fetched.Rows? && exists r :: r in fetched.rows && r.sku in inventory.known
    }

    /** The feed rows kept after asking the catalogue which of their SKUs exist. */
    method KeepKnown(feed: seq<FeedRow>) returns (matched: seq<FeedRow>)
      ensures matched == Matched(feed, inventory.known)
    {
      var found := inventory.FindExistingProductSkus(FeedSkus(feed));
      forall r | r in feed ensures r.sku in found <==> r.sku in inventory.known {
        assert r.sku in SkuSet(feed);
      }
      MatchesFound(feed, inventory.known, found);
      matched := Matched(feed, found);
    }

    /**
     `execute` after the fetch; `fault` names the database call that fails, if any. A failed run reports
     nothing processed, but what it wrote before a late fault stays.
     */
    method Execute(fetched: Fetched, nv: int, tn: int, fault: Fault)
      returns (result: RunResult, clamped: seq<ClampedRow>)
      requires inventory.chunkSize >= 2
      requires fetched.Rows? ==> DistinctSkus(fetched.rows)
      modifies inventory`rows
      ensures result.status == RunSucceeded <==> Usable(fetched) && nv != tn && fault == NoFault
      ensures result.status == RunSucceeded ==>
                && clamped == ClampedOf(old(inventory.rows), BulkRows(Matched(fetched.rows, inventory.known), nv, tn))
                && result == RunResult(RunSucceeded, |fetched.rows|, 2 * |Matched(fetched.rows, inventory.known)|,
                                       |fetched.rows| - |Matched(fetched.rows, inventory.known)|)
      ensures result.status == RunFailed ==> result.processed == 0
      ensures !Usable(fetched) ==> inventory.rows == old(inventory.rows)
      ensures Usable(fetched) ==> inventory.rows == Reached(old(inventory.rows), fetched.rows, inventory.known, nv, tn, fault)
    {
      if !fetched.Rows? {
        return RunResult(RunFailed, 0, 0, 0), [];
      }
      var feed := fetched.rows;
      var received := |feed|;
      if received == 0 {
        return RunResult(RunFailed, received, 0, 0), [];
      }
      result, clamped := ImportFeed(feed, nv, tn, fault);
    }

    /** The writes of a run over a feed that is not empty. */
    method ImportFeed(feed: seq<FeedRow>, nv: int, tn: int, fault: Fault)
      returns (result: RunResult, clamped: seq<ClampedRow>)
      requires inventory.chunkSize >= 2 && DistinctSkus(feed)
      modifies inventory`rows
      ensures result.status == RunSucceeded <==> Matched(feed, inventory.known) != [] && nv != tn && fault == NoFault
      ensures result.status == RunSucceeded ==>
                && clamped == ClampedOf(old(inventory.rows), BulkRows(Matched(feed, inventory.known), nv, tn))
                && result == RunResult(RunSucceeded, |feed|, 2 * |Matched(feed, inventory.known)|,
                                       |feed| - |Matched(feed, inventory.known)|)
      ensures result.status == RunFailed ==> result.processed == 0
      ensures inventory.rows == if Matched(feed, inventory.known) == [] then old(inventory.rows)
                                else Reached(old(inventory.rows), feed, inventory.known, nv, tn, fault)
    {
      if fault == AtLookup {
        return RunResult(RunFailed, |feed|, 0, 0), [];
      }
      var matched := KeepKnown(feed);
      var failed := |feed| - |matched|;
      if matched == [] {
        return RunResult(RunFailed, |feed|, 0, failed), [];
      }
      var bulk := ImportMatched(feed, nv, tn, fault);
      if bulk.None? || fault == AtReport {
        return RunResult(RunFailed, |feed|, 0, failed), [];
      }
      return RunResult(RunSucceeded, |feed|, bulk.value.written, failed), bulk.value.clamped;
    }
  }

  /** The table a run leaves behind: all of the import, its first write only, or nothing at all. */
  function Reached(t: Table, feed: seq<FeedRow>, known: set<string>, nv: int, tn: int, fault: Fault): Table {
    if nv == tn || fault == AtLookup || fault == AtUpsert then t
    else if fault == AtZeroOut then UpsertAll(t, BulkRows(Matched(feed, known), nv, tn))
    else Imported(t, feed, known, nv, tn)
  }

  /**
   What that comes to, by the database call that fails: nothing before the batch is through, or with one branch
   configured twice; the listed rows only, if the zero-out fails; and otherwise the import, even if the report fails.
   */
  lemma ReachedIs(t: Table, feed: seq<FeedRow>, known: set<string>, nv: int, tn: int, fault: Fault)
    requires ValidTable(t) && DistinctSkus(feed) && Matched(feed, known) != []
    ensures var after := Reached(t, feed, known, nv, tn, fault);
            if nv == tn || fault in {AtLookup, AtUpsert} then after == t
            else if fault in {NoFault, AtReport} then IsImport(t, after, known, feed, nv, tn)
            else
              && (forall r :: r in feed && r.sku in known ==>
                    Restocked(t, after, Key(r.sku, nv), r.nvStock) && Restocked(t, after, Key(r.sku, tn), r.tnStock))
              && forall k: Key :: k.branch !in {nv, tn} || !Listed(feed, known, k.sku) ==> Lookup(after, k) == Lookup(t, k)
  {
    if nv != tn && fault in {NoFault, AtReport} {
      ImportedIsImport(t, feed, known, nv, tn);
    } else if nv != tn && fault == AtZeroOut {
      forall r | r in feed && r.sku in known
        ensures Restocked(t, Reached(t, feed, known, nv, tn, fault), Key(r.sku, nv), r.nvStock)
        ensures Restocked(t, Reached(t, feed, known, nv, tn, fault), Key(r.sku, tn), r.tnStock)
      {
        ListedIsUpserted(t, feed, known, nv, tn, r);
      }
      forall k: Key | k.branch !in {nv, tn} || !Listed(feed, known, k.sku)
        ensures Lookup(Reached(t, feed, known, nv, tn, fault), k) == Lookup(t, k)
      {
        UnlistedIsNotWritten(t, feed, known, nv, tn, k);
      }
    }
  }

  lemma ListedIsUpserted(t: Table, feed: seq<FeedRow>, known: set<string>, nv: int, tn: int, r: FeedRow)
    requires DistinctSkus(feed) && nv != tn && r in feed && r.sku in known
    ensures var after := UpsertAll(t, BulkRows(Matched(feed, known), nv, tn));
            Restocked(t, after, Key(r.sku, nv), r.nvStock) && Restocked(t, after, Key(r.sku, tn), r.tnStock)
  {
    var m := Matched(feed, known);
    var rows := BulkRows(m, nv, tn);
    MatchedDistinct(feed, known);
    BulkRowsDistinct(m, nv, tn);
    UpsertAllRows(t, rows);
    var a, b := RowFor(r, nv, r.nvStock), RowFor(r, tn, r.tnStock);
    BulkRowsIff(m, nv, tn, a);
    BulkRowsIff(m, nv, tn, b);
    assert KeyOf(a) == Key(r.sku, nv) && KeyOf(b) == Key(r.sku, tn);
  }

  /** Asking the catalogue about the feed's own SKUs tells apart exactly the ones it carries. */
  lemma {:induction false} MatchesFound(feed: seq<FeedRow>, known: set<string>, found: set<string>)
    requires forall r :: r in feed ==> (r.sku in found <==> r.sku in known)
    ensures Matched(feed, found) == Matched(feed, known)
  {
    if |feed| > 0 {
      MatchesFound(feed[..|feed| - 1], known, found);
      assert feed[|feed| - 1] in feed;
    }
  }

  lemma BatchIsDistinct(feed: seq<FeedRow>, known: set<string>, nv: int, tn: int)
    requires DistinctSkus(feed) && nv != tn
    ensures var rows := BulkRows(Matched(feed, known), nv, tn);
            Carried(known, rows) == rows && DistinctKeys(rows)
  {
    var m := Matched(feed, known);
    var rows := BulkRows(m, nv, tn);
    MatchedDistinct(feed, known);
    BulkRowsDistinct(m, nv, tn);
    forall r | r in rows ensures r.sku in known {
      BulkRowsIff(m, nv, tn, r);
    }
    AllCarried(known, rows);
  }

  lemma ParsedIsFetched(sheet: seq<Event>, strings: seq<Event>, rows: seq<SheetRow>)
    requires ParseSheet(sheet, SharedStrings(Some(strings)), HEADERS) == Success(rows)
    ensures FetchedFrom(Workbook(sheet, Some(strings))) == Rows(Deduplicated(rows))
  {
  }

  lemma PrintedIsParsed(
      table: seq<TableRow>, encodings: seq<seq<Encoding>>, strings: seq<SharedPart>, headers: seq<string>, rows: seq<SheetRow>)
    requires (forall p :: p in strings ==> GoodShared(p)) && Prints(table, encodings, StringsOf(strings))
    requires Projection(table, [], Wanted(headers)) == Success(rows)
    ensures ParseSheet(SheetEvents(PrintedTable(table, encodings)), SharedStrings(Some(SharedEvents(strings))), headers)
            == Success(rows)
  {
    SharedRoundTrip(strings);
    PrintParseRoundTrip(table, encodings, StringsOf(strings), headers);
  }

  /**
   From the printed sheet to the shelf: whatever way the workbook was written, a SKU the catalogue carries
   ends in Nevada with what its last row says under `nv_stock` and in Tennessee with what it says under
   `tn_stock`, or with what was reserved there if that is more.
   */
  lemma SheetReachesShelf(
      before: Table, known: set<string>, nv: int, tn: int,
      table: seq<TableRow>, encodings: seq<seq<Encoding>>, strings: seq<SharedPart>,
      rows: seq<SheetRow>, sku: string, i: nat)
    requires ValidTable(before) && nv != tn
    requires (forall p :: p in strings ==> GoodShared(p)) && Prints(table, encodings, StringsOf(strings))
    requires Projection(table, [], Wanted(HEADERS)) == Success(rows)
    requires sku in known && sku != "" && IsLastOf(rows, sku, i)
    ensures var fetched := FetchedFrom(Workbook(SheetEvents(PrintedTable(table, encodings)), Some(SharedEvents(strings))));
            && fetched == Rows(Deduplicated(rows))
            && var after := Imported(before, fetched.rows, known, nv, tn);
               && Restocked(before, after, Key(sku, nv), ToQuantity(Get(rows[i].cells, "nv_stock")))
               && Restocked(before, after, Key(sku, tn), ToQuantity(Get(rows[i].cells, "tn_stock")))
  {
    PrintedIsParsed(table, encodings, strings, HEADERS, rows);
    ParsedIsFetched(SheetEvents(PrintedTable(table, encodings)), SharedEvents(strings), rows);
    RowReachesShelf(before, known, nv, tn, rows, sku, i);
  }

  lemma RowReachesShelf(before: Table, known: set<string>, nv: int, tn: int, rows: seq<SheetRow>, sku: string, i: nat)
    requires ValidTable(before) && nv != tn && sku in known && sku != "" && IsLastOf(rows, sku, i)
    ensures var after := Imported(before, Deduplicated(rows), known, nv, tn);
            && Restocked(before, after, Key(sku, nv), ToQuantity(Get(rows[i].cells, "nv_stock")))
            && Restocked(before, after, Key(sku, tn), ToQuantity(Get(rows[i].cells, "tn_stock")))
  {
    LastRowIsRead(rows, sku, i);
    var feed, last := Deduplicated(rows), LastRow(rows, sku).value;
    DeduplicatedIff(rows, last);
    assert last in Matched(feed, known);
    ImportedIsImport(before, feed, known, nv, tn);
  }

  /** In numbers: where the row has `n` and `m` in these cells, that is what the two branches get. */
  lemma NumbersReachShelf(
      before: Table, known: set<string>, nv: int, tn: int, rows: seq<SheetRow>, sku: string, i: nat, n: nat, m: nat)
    requires ValidTable(before) && nv != tn && sku in known && sku != "" && IsLastOf(rows, sku, i)
    requires Get(rows[i].cells, "nv_stock") == Some(Decimal(n)) && Get(rows[i].cells, "tn_stock") == Some(Decimal(m))
    ensures var after := Imported(before, Deduplicated(rows), known, nv, tn);
            && Restocked(before, after, Key(sku, nv), n)
            && Restocked(before, after, Key(sku, tn), m)
  {
    RowReachesShelf(before, known, nv, tn, rows, sku, i);
    QuantityRead(n);
    QuantityRead(m);
  }
}
