/**
 The inventory table and the repository over it: typeorm-inventory.repository.ts.

 `pim.product.sku` is unique, so a row is keyed by SKU and branch. Each SQL statement is its effect
 on that map; a row lock is the atomicity of the call.
 */
module StockTable {
  import opened Wrappers
  import opened Inventory

  datatype Key = Key(sku: string, branch: int)

  type Table = map<Key, Row>

  datatype BulkRow = BulkRow(sku: string, branch: int, stock: int)

  datatype ClampedRow = ClampedRow(sku: string, branch: int, feedStock: int, storedStock: int, reservedStock: int)

  /** The unique key was hit twice by one statement, which Postgres refuses. */
  datatype BulkError = RowAffectedTwice

  datatype BulkResult = BulkResult(written: nat, clamped: seq<ClampedRow>)

  ghost predicate ValidTable(t: Table) {
    forall k :: k in t ==> ValidRow(t[k])
  }

  function Lookup(t: Table, k: Key): Option<Row> {
    if k in t then Some(t[k]) else None
  }

  function KeyOf(r: BulkRow): Key {
    Key(r.sku, r.branch)
  }

  /** One row through the lock: load it, check it, mutate it, write it back. */
  function MutatedTable(t: Table, k: Key, m: Mutation): Result<Table, StockError> {
    if k !in t then Failure(RowNotFound)
    else if !ValidRow(t[k]) then Failure(InvalidOperation)
    else
      match Mutated(t[k], m)
      case Failure(e) => Failure(e)
      case Success(r) => Success(t[k := r])
  }

  /** ON CONFLICT ... SET stock = GREATEST(EXCLUDED.stock, reserved). */
  function UpsertedRow(before: Option<Row>, stock: int): Row {
    match before
    case None => Row(stock, 0)
    case Some(r) => Row(if stock < r.reserved then r.reserved else stock, r.reserved)
  }

  /** The inner join with `pim.product`. */
  function Carried(known: set<string>, rows: seq<BulkRow>): (c: seq<BulkRow>)
    ensures forall r :: r in c <==> r in rows && r.sku in known
  {
    if |rows| == 0 then []
    else
      var init := Carried(known, rows[..|rows| - 1]);
      if rows[|rows| - 1].sku in known then init + [rows[|rows| - 1]] else init
  }

  predicate DistinctKeys(rows: seq<BulkRow>) {
    forall i, j :: 0 <= i < j < |rows| ==> KeyOf(rows[i]) != KeyOf(rows[j])
  }

  /** Rows written one after the other. */
  function UpsertAll(t: Table, rows: seq<BulkRow>): Table {
    if |rows| == 0 then t
    else
      var before := UpsertAll(t, rows[..|rows| - 1]);
      var r := rows[|rows| - 1];
      before[KeyOf(r) := UpsertedRow(Lookup(before, KeyOf(r)), r.stock)]
  }

  /** The rows whose feed quantity lies below what is reserved. */
  function ClampedOf(t: Table, rows: seq<BulkRow>): seq<ClampedRow> {
    if |rows| == 0 then []
    else
      var r := rows[|rows| - 1];
      var init := ClampedOf(t, rows[..|rows| - 1]);
      if KeyOf(r) in t && r.stock < t[KeyOf(r)].reserved
      then init + [ClampedRow(r.sku, r.branch, r.stock, t[KeyOf(r)].reserved, t[KeyOf(r)].reserved)]
      else init
  }

  lemma {:induction false} CarriedAppend(known: set<string>, a: seq<BulkRow>, b: seq<BulkRow>)
    ensures Carried(known, a + b) == Carried(known, a) + Carried(known, b)
  {
    if |b| == 0 {
      assert a + b == a;
    } else {
      var init := b[..|b| - 1];
      assert (a + b)[..|a + b| - 1] == a + init;
      CarriedAppend(known, a, init);
    }
  }

  lemma {:induction false} UpsertAppend(t: Table, a: seq<BulkRow>, b: seq<BulkRow>)
    ensures UpsertAll(t, a + b) == UpsertAll(UpsertAll(t, a), b)
  {
    if |b| == 0 {
      assert a + b == a;
    } else {
      var init := b[..|b| - 1];
      assert (a + b)[..|a + b| - 1] == a + init;
      UpsertAppend(t, a, init);
    }
  }

  lemma DistinctParts(a: seq<BulkRow>, b: seq<BulkRow>)
    requires DistinctKeys(a + b)
    ensures DistinctKeys(a) && DistinctKeys(b)
    ensures forall r, q :: r in a && q in b ==> KeyOf(r) != KeyOf(q)
  {
    forall i, j | 0 <= i < j < |a| ensures KeyOf(a[i]) != KeyOf(a[j]) {
      assert (a + b)[i] == a[i] && (a + b)[j] == a[j];
    }
    forall i, j | 0 <= i < j < |b| ensures KeyOf(b[i]) != KeyOf(b[j]) {
      assert (a + b)[|a| + i] == b[i] && (a + b)[|a| + j] == b[j];
    }
    forall r, q | r in a && q in b ensures KeyOf(r) != KeyOf(q) {
      var i :| 0 <= i < |a| && a[i] == r;
      var j :| 0 <= j < |b| && b[j] == q;
      assert (a + b)[i] == r && (a + b)[|a| + j] == q;
    }
  }

  /** With distinct keys the order of the writes is invisible: each key is written once, from its old row. */
  lemma {:induction false} UpsertAllRows(t: Table, rows: seq<BulkRow>)
    requires DistinctKeys(rows)
    ensures forall r :: r in rows ==> Lookup(UpsertAll(t, rows), KeyOf(r)) == Some(UpsertedRow(Lookup(t, KeyOf(r)), r.stock))
    ensures forall k: Key :: (forall r :: r in rows ==> KeyOf(r) != k) ==> Lookup(UpsertAll(t, rows), k) == Lookup(t, k)
  {
    if |rows| > 0 {
      var init, last := rows[..|rows| - 1], rows[|rows| - 1];
      UpsertAllRows(t, init);
      forall r | r in init ensures KeyOf(r) != KeyOf(last) && r in rows {
      }
      assert forall r :: r in rows <==> r in init || r == last;
    }
  }

  lemma {:induction false} UpsertKeepsValid(t: Table, rows: seq<BulkRow>)
    requires ValidTable(t) && forall r :: r in rows ==> r.stock >= 0
    ensures ValidTable(UpsertAll(t, rows))
    ensures forall k :: k in t ==> k in UpsertAll(t, rows) && UpsertAll(t, rows)[k].reserved == t[k].reserved
  {
    if |rows| > 0 {
      UpsertKeepsValid(t, rows[..|rows| - 1]);
      assert rows[|rows| - 1] in rows;
    }
  }

  predicate RepeatsKey(rows: seq<BulkRow>) {
    !DistinctKeys(rows)
  }

  /** RETURNING: the key and the stored row of everything a statement wrote. */
  function Returned(t: Table, rows: seq<BulkRow>): (r: seq<(Key, Row)>)
    ensures |r| == |rows|
  {
    seq(|rows|, i requires 0 <= i < |rows| => (KeyOf(rows[i]), UpsertedRow(Lookup(t, KeyOf(rows[i])), rows[i].stock)))
  }

  /** The rows of one RETURNING set that were stored above what was asked for. */
  function ClampedReturned(returned: seq<(Key, Row)>, requested: map<Key, int>): seq<ClampedRow> {
    if |returned| == 0 then []
    else
      var init := ClampedReturned(returned[..|returned| - 1], requested);
      var (k, row) := returned[|returned| - 1];
      if k in requested && row.stock > requested[k]
      then init + [ClampedRow(k.sku, k.branch, requested[k], row.stock, row.reserved)]
      else init
  }

  lemma {:induction false} ClampedReturnedIs(t: Table, now: Table, rows: seq<BulkRow>, requested: map<Key, int>)
    requires forall r :: r in rows ==> Lookup(now, KeyOf(r)) == Lookup(t, KeyOf(r))
    requires forall r :: r in rows ==> KeyOf(r) in requested && requested[KeyOf(r)] == r.stock
    ensures ClampedReturned(Returned(now, rows), requested) == ClampedOf(t, rows)
  {
    if |rows| > 0 {
      var init, r := rows[..|rows| - 1], rows[|rows| - 1];
      ClampedReturnedIs(t, now, init, requested);
      var returned := Returned(now, rows);
      assert returned[..|returned| - 1] == Returned(now, init);
      assert r in rows;
    }
  }

  lemma {:induction false} ClampedAppend(t: Table, a: seq<BulkRow>, b: seq<BulkRow>)
    ensures ClampedOf(t, a + b) == ClampedOf(t, a) + ClampedOf(t, b)
  {
    if |b| == 0 {
      assert a + b == a;
    } else {
      var init := b[..|b| - 1];
      assert (a + b)[..|a + b| - 1] == a + init;
      ClampedAppend(t, a, init);
    }
  }

  /** What one more chunk adds to a batch of distinct keys. */
  lemma ChunkAdds(t: Table, known: set<string>, batch: seq<BulkRow>, i: nat, n: nat, requested: map<Key, int>)
    requires i <= n <= |batch| && DistinctKeys(Carried(known, batch))
    requires forall r :: r in Carried(known, batch) ==> KeyOf(r) in requested && requested[KeyOf(r)] == r.stock
    ensures var done, chunk := Carried(known, batch[..i]), Carried(known, batch[i..n]);
            && Carried(known, batch[..n]) == done + chunk
            && DistinctKeys(chunk)
            && UpsertAll(t, done + chunk) == UpsertAll(UpsertAll(t, done), chunk)
            && ClampedOf(t, done + chunk)
               == ClampedOf(t, done) + ClampedReturned(Returned(UpsertAll(t, done), chunk), requested)
  {
    var done, chunk, rest := Carried(known, batch[..i]), Carried(known, batch[i..n]), Carried(known, batch[n..]);
    assert batch[..n] == batch[..i] + batch[i..n];
    assert batch == batch[..n] + batch[n..];
    CarriedAppend(known, batch[..i], batch[i..n]);
    CarriedAppend(known, batch[..n], batch[n..]);
    DistinctParts(done + chunk, rest);
    DistinctParts(done, chunk);
    UpsertAppend(t, done, chunk);
    UpsertAllRows(t, done);
    ClampedReturnedIs(t, UpsertAll(t, done), chunk, requested);
    ClampedAppend(t, done, chunk);
  }

  /** The quantity each key asked for; a repeated key asks for its last one. */
  function RequestedOf(rows: seq<BulkRow>): map<Key, int> {
    if |rows| == 0 then map[]
    else RequestedOf(rows[..|rows| - 1])[KeyOf(rows[|rows| - 1]) := rows[|rows| - 1].stock]
  }

  lemma {:induction false} RequestedOfDistinct(rows: seq<BulkRow>)
    requires DistinctKeys(rows)
    ensures forall r :: r in rows ==> KeyOf(r) in RequestedOf(rows) && RequestedOf(rows)[KeyOf(r)] == r.stock
  {
    if |rows| > 0 {
      var init, last := rows[..|rows| - 1], rows[|rows| - 1];
      assert rows == init + [last];
      RequestedOfDistinct(init);
      DistinctParts(init, [last]);
    }
  }

  datatype BulkOutcome = BulkOutcome(table: Table, written: nat, clamped: seq<ClampedRow>)

  /** Where the chunk that starts at row `i` ends. */
  function ChunkEnd(i: nat, size: nat, count: nat): (n: nat)
    requires size > 0 && i < count
    ensures i < n <= count
  {
    if size < count - i then i + size else count
  }

  function WithChunk(o: BulkOutcome, chunk: seq<BulkRow>, requested: map<Key, int>): BulkOutcome {
    BulkOutcome(UpsertAll(o.table, chunk), o.written + |chunk|,
                o.clamped + ClampedReturned(Returned(o.table, chunk), requested))
  }

  /** The batch from row `i` on as the repository sends it: chunk by chunk, all of them or none. */
  function ChunkedUpsert(o: BulkOutcome, known: set<string>, batch: seq<BulkRow>, i: nat, size: nat, requested: map<Key, int>)
    : Result<BulkOutcome, BulkError>
    requires size > 0 && i <= |batch|
    decreases |batch| - i
  {
    if i == |batch| then Success(o)
    else
      var n := ChunkEnd(i, size, |batch|);
      var chunk := Carried(known, batch[i..n]);
      if RepeatsKey(chunk) then Failure(RowAffectedTwice)
      else ChunkedUpsert(WithChunk(o, chunk, requested), known, batch, n, size, requested)
  }

  function BulkUpserted(t: Table, known: set<string>, batch: seq<BulkRow>, size: nat): Result<BulkOutcome, BulkError>
    requires size > 0
  {
    ChunkedUpsert(BulkOutcome(t, 0, []), known, batch, 0, size, RequestedOf(Carried(known, batch)))
  }

  /** What a batch of distinct keys has come to when its first rows are done. */
  function WrittenSoFar(t: Table, done: seq<BulkRow>): BulkOutcome {
    BulkOutcome(UpsertAll(t, done), |done|, ClampedOf(t, done))
  }

  /** Distinct keys succeed at every chunk size, and the size leaves no trace in the result. */
  lemma ChunkSizeIrrelevant(t: Table, known: set<string>, batch: seq<BulkRow>, size: nat)
    requires size > 0 && DistinctKeys(Carried(known, batch))
    ensures BulkUpserted(t, known, batch, size) == Success(WrittenSoFar(t, Carried(known, batch)))
  {
    assert batch[..0] == [];
    RemainingChunks(t, known, batch, 0, size);
  }

  lemma {:induction false} RemainingChunks(t: Table, known: set<string>, batch: seq<BulkRow>, i: nat, size: nat)
    requires size > 0 && i <= |batch| && DistinctKeys(Carried(known, batch))
    ensures ChunkedUpsert(WrittenSoFar(t, Carried(known, batch[..i])), known, batch, i, size, RequestedOf(Carried(known, batch)))
            == Success(WrittenSoFar(t, Carried(known, batch)))
    decreases |batch| - i
  {
    if i < |batch| {
      var n := ChunkEnd(i, size, |batch|);
      NextChunk(t, known, batch, i, n);
      RemainingChunks(t, known, batch, n, size);
    } else {
      assert batch[..i] == batch;
    }
  }

  lemma NextChunk(t: Table, known: set<string>, batch: seq<BulkRow>, i: nat, n: nat)
    requires i <= n <= |batch| && DistinctKeys(Carried(known, batch))
    ensures !RepeatsKey(Carried(known, batch[i..n]))
    ensures WithChunk(WrittenSoFar(t, Carried(known, batch[..i])), Carried(known, batch[i..n]), RequestedOf(Carried(known, batch)))
            == WrittenSoFar(t, Carried(known, batch[..n]))
  {
    RequestedOfDistinct(Carried(known, batch));
    ChunkAdds(t, known, batch, i, n, RequestedOf(Carried(known, batch)));
  }

  /** Listed rows of the branches keep what the feed wrote; the rest drop to what is reserved. */
  function ZeroedOut(t: Table, branches: set<int>, keepSkus: set<string>): Table {
    if branches == {} || keepSkus == {} then t
    else map k | k in t :: if ZeroesRow(t, branches, keepSkus, k) then Row(t[k].reserved, t[k].reserved) else t[k]
  }

  predicate ZeroesRow(t: Table, branches: set<int>, keepSkus: set<string>, k: Key)
    requires k in t
  {
    k.branch in branches && k.sku !in keepSkus && t[k].stock > t[k].reserved
  }

  /** A row drops to what is reserved if and only if it is of one of the branches, unlisted, and holds more than that. */
  lemma ZeroedAt(t: Table, branches: set<int>, keepSkus: set<string>, k: Key)
    requires k in t
    ensures var after := ZeroedOut(t, branches, keepSkus);
            && after.Keys == t.Keys
            && after[k] == if keepSkus != {} && k.branch in branches && k.sku !in keepSkus && t[k].reserved < t[k].stock
                           then Row(t[k].reserved, t[k].reserved) else t[k]
  {
  }

  lemma ZeroKeepsValid(t: Table, branches: set<int>, keepSkus: set<string>)
    requires ValidTable(t)
    ensures ValidTable(ZeroedOut(t, branches, keepSkus))
    ensures forall k :: k in t ==> ZeroedOut(t, branches, keepSkus)[k].reserved == t[k].reserved
  {
  }

  class InventoryRepository {
    var rows: Table
    /** SKUs of `pim.product`. */
    const known: set<string>
    const chunkSize: nat

    constructor (rows: Table, known: set<string>, chunkSize: nat)
      ensures this.rows == rows && this.known == known && this.chunkSize == chunkSize
    {
      this.rows, this.known, this.chunkSize := rows, known, chunkSize;
    }

    method FindBySkuAndBranch(sku: string, branch: int) returns (k: Option<Key>)
      ensures k == if Key(sku, branch) in rows then Some(Key(sku, branch)) else None
    {
      k := if Key(sku, branch) in rows then Some(Key(sku, branch)) else None;
    }

    /** `mutate`: nothing is written unless the aggregate accepted the mutation. */
    method Mutate(k: Key, m: Mutation) returns (e: Option<StockError>)
      modifies this`rows
      ensures match MutatedTable(old(rows), k, m)
              case Success(t) => e == None && rows == t
              case Failure(error) => e == Some(error) && rows == old(rows)
    {
      if k !in rows {
        return Some(RowNotFound);
      }
      var aggregate, invalid := Aggregate.FromSnapshot(rows[k]);
      if invalid.Some? {
        return invalid;
      }
      e := aggregate.Apply(m);
      if e.None? {
        rows := rows[k := aggregate.View()];
      }
    }

    method FindExistingProductSkus(skus: seq<string>) returns (found: set<string>)
      ensures found == set s | s in skus && s in known
    {
      found := set s | s in skus && s in known;
    }

    /** One INSERT ... ON CONFLICT statement: it fails as a whole if it would touch a key twice. */
    method UpsertChunk(chunk: seq<BulkRow>) returns (returned: seq<(Key, Row)>, e: Option<BulkError>)
      modifies this`rows
      ensures e == if RepeatsKey(Carried(known, chunk)) then Some(RowAffectedTwice) else None
      ensures e.None? ==> rows == UpsertAll(old(rows), Carried(known, chunk))
      ensures e.None? ==> returned == Returned(old(rows), Carried(known, chunk))
      ensures e.Some? ==> rows == old(rows)
    {
      var joined := Carried(known, chunk);
      if RepeatsKey(joined) {
        return [], Some(RowAffectedTwice);
      }
      returned, e := Returned(rows, joined), None;
      rows := UpsertAll(rows, joined);
    }

    /** The `requested` map, filled row by row. */
    method Requested(batch: seq<BulkRow>) returns (requested: map<Key, int>)
      ensures requested == RequestedOf(Carried(known, batch))
    {
      requested := map[];
      for i := 0 to |batch|
        invariant requested == RequestedOf(Carried(known, batch[..i]))
      {
        assert batch[..i + 1][..i] == batch[..i];
        if batch[i].sku in known {
          requested := requested[KeyOf(batch[i]) := batch[i].stock];
        }
      }
      assert batch[..|batch|] == batch;
    }

    /** The inner loop over one RETURNING set. */
    method CollectClamped(returned: seq<(Key, Row)>, requested: map<Key, int>) returns (clamped: seq<ClampedRow>)
      ensures clamped == ClampedReturned(returned, requested)
    {
      clamped := [];
      for j := 0 to |returned|
        invariant clamped == ClampedReturned(returned[..j], requested)
      {
        assert returned[..j + 1][..j] == returned[..j];
        var (k, row) := returned[j];
        if k in requested && row.stock > requested[k] {
          clamped := clamped + [ClampedRow(k.sku, k.branch, requested[k], row.stock, row.reserved)];
        }
      }
      assert returned[..|returned|] == returned;
    }

    /** One turn of the chunk loop: write, count what came back, keep what was clamped. */
    method WriteChunk(chunk: seq<BulkRow>, requested: map<Key, int>, written: nat, clamped: seq<ClampedRow>)
      returns (written': nat, clamped': seq<ClampedRow>, e: Option<BulkError>)
      modifies this`rows
      ensures e == if RepeatsKey(Carried(known, chunk)) then Some(RowAffectedTwice) else None
      ensures e.None? ==>
                BulkOutcome(rows, written', clamped')
                == WithChunk(BulkOutcome(old(rows), written, clamped), Carried(known, chunk), requested)
    {
      var returned;
      returned, e := UpsertChunk(chunk);
      written' := written + |returned|;
      var more := CollectClamped(returned, requested);
      clamped' := clamped + more;
    }

    /** `bulkUpsertStock`: one transaction over all the chunks. */
    method BulkUpsertStock(batch: seq<BulkRow>) returns (r: Result<BulkResult, BulkError>)
      requires chunkSize > 0
      modifies this`rows
      ensures match BulkUpserted(old(rows), known, batch, chunkSize)
              case Failure(e) => r == Failure(e) && rows == old(rows)
              case Success(o) => r == Success(BulkResult(o.written, o.clamped)) && rows == o.table
    {
      if |batch| == 0 {
        return Success(BulkResult(0, []));
      }
      var requested := Requested(batch);
      var before := rows;
      var written: nat, clamped: seq<ClampedRow> := 0, [];
      var i := 0;
      while i < |batch|
        invariant 0 <= i <= |batch|
        invariant BulkUpserted(before, known, batch, chunkSize)
                  == ChunkedUpsert(BulkOutcome(rows, written, clamped), known, batch, i, chunkSize, requested)
      {
        var n := ChunkEnd(i, chunkSize, |batch|);
        var e;
        written, clamped, e := WriteChunk(batch[i..n], requested, written, clamped);
        if e.Some? {
          rows := before;
          return Failure(e.value);
        }
        i := n;
      }
      return Success(BulkResult(written, clamped));
    }

    /** `zeroOutMissing`; an empty keep list or branch list is refused rather than obeyed. */
    method ZeroOutMissing(branches: set<int>, keepSkus: set<string>) returns (zeroed: nat)
      modifies this`rows
      ensures rows == ZeroedOut(old(rows), branches, keepSkus)
      ensures zeroed == |set k | k in old(rows) && rows[k] != old(rows)[k]|
    {
      var before := rows;
      if branches != {} && keepSkus != {} {
        var hit := set k | k in rows && ZeroesRow(rows, branches, keepSkus, k);
        rows := map k | k in before :: if k in hit then Row(before[k].reserved, before[k].reserved) else before[k];
        assert hit == set k | k in before && rows[k] != before[k];
        return |hit|;
      }
      assert (set k | k in before && rows[k] != before[k]) == {};
      return 0;
    }
  }
}
