/**
 The tier query of price-list-item.service.ts: a filter, an ORDER BY on two keys, LIMIT 1.
 */
module PriceTiers {
  import opened Wrappers

  /**
   `minQty` is an Option because the table lets the column be null, which the query coalesces although the
   entity gives it a plain number. Dates are day numbers.
   */
  datatype PriceListItem = PriceListItem(
    id: int,
    priceListId: string,
    productId: int,
    price: real,
    minQty: Option<int>,
    validFrom: Option<int>,
    validTo: Option<int>,
    createdAt: int)

  datatype Request = Request(priceListId: string, productId: int, qty: real, day: int)

  /** COALESCE(min_qty, 1). */
  function MinQty(i: PriceListItem): int {
    match i.minQty
    case Some(n) => n
    case None => 1
  }

  /** The conditions that do not mention the quantity. */
  predicate InForce(i: PriceListItem, r: Request) {
    && i.priceListId == r.priceListId
    && i.productId == r.productId
    && (i.validFrom.Some? ==> i.validFrom.value <= r.day)
    && (i.validTo.Some? ==> r.day <= i.validTo.value)
  }

  predicate Qualifies(i: PriceListItem, r: Request) {
    InForce(i, r) && MinQty(i) as real <= r.qty
  }

  /** Strictly earlier in `ORDER BY COALESCE(min_qty, 1) DESC, created_at DESC`. */
  predicate Ahead(a: PriceListItem, b: PriceListItem) {
    MinQty(a) > MinQty(b) || (MinQty(a) == MinQty(b) && a.createdAt > b.createdAt)
  }

  function Filter(rows: seq<PriceListItem>, r: Request): seq<PriceListItem> {
    if rows == [] then []
    else if Qualifies(rows[0], r) then [rows[0]] + Filter(rows[1..], r)
    else Filter(rows[1..], r)
  }

  function Insert(i: PriceListItem, sorted: seq<PriceListItem>): seq<PriceListItem> {
    if sorted == [] || !Ahead(sorted[0], i) then [i] + sorted
    else [sorted[0]] + Insert(i, sorted[1..])
  }

  function Sort(rows: seq<PriceListItem>): seq<PriceListItem> {
    if rows == [] then [] else Insert(rows[0], Sort(rows[1..]))
  }

  function TryResolveApplicablePrice(rows: seq<PriceListItem>, r: Request): Option<PriceListItem> {
    var sorted := Sort(Filter(rows, r));
    if sorted == [] then None else Some(sorted[0])
  }

  /** No stored row beats `best`. */
  ghost predicate IsBest(rows: seq<PriceListItem>, r: Request, best: PriceListItem) {
    && best in rows
    && Qualifies(best, r)
    && forall i :: i in rows && Qualifies(i, r) ==> !Ahead(i, best)
  }

  /** Rows may tie behind the best one, but not with it. */
  ghost predicate UniqueBest(rows: seq<PriceListItem>, r: Request) {
    forall a, b :: IsBest(rows, r, a) && IsBest(rows, r, b) ==> a == b
  }

  lemma FilterMembers(rows: seq<PriceListItem>, r: Request)
    ensures forall i :: i in Filter(rows, r) <==> i in rows && Qualifies(i, r)
  {
  }

  lemma InsertMembers(i: PriceListItem, sorted: seq<PriceListItem>)
    ensures forall j :: j in Insert(i, sorted) <==> j == i || j in sorted
  {
  }

  lemma {:induction false} SortHead(rows: seq<PriceListItem>)
    ensures forall j :: j in Sort(rows) <==> j in rows
    ensures rows != [] ==> Sort(rows) != [] && forall j :: j in rows ==> !Ahead(j, Sort(rows)[0])
  {
    if rows != [] {
      var tail := Sort(rows[1..]);
      SortHead(rows[1..]);
      InsertMembers(rows[0], tail);
    }
  }

  /** The query answers exactly when some row qualifies, and then with a best one. */
  lemma ResolvedIsBest(rows: seq<PriceListItem>, r: Request)
    ensures match TryResolveApplicablePrice(rows, r)
            case Some(best) => IsBest(rows, r, best)
            case None => forall i :: i in rows ==> !Qualifies(i, r)
  {
    FilterMembers(rows, r);
    SortHead(Filter(rows, r));
    if Filter(rows, r) != [] {
      assert Sort(Filter(rows, r))[0] in Sort(Filter(rows, r));
    }
  }

  /** In the columns of the table: the row is for this list, product and quantity, and its dates contain the day. */
  predicate Applies(i: PriceListItem, priceListId: string, productId: int, qty: real, day: int) {
    && i.priceListId == priceListId && i.productId == productId
    && (i.minQty == None ==> 1.0 <= qty) && (i.minQty.Some? ==> i.minQty.value as real <= qty)
    && (i.validFrom == None || i.validFrom.value <= day) && (i.validTo == None || day <= i.validTo.value)
  }

  /** The larger minimum comes first, a missing one counting as 1, and of equal ones the row created last. */
  predicate NotAfter(a: PriceListItem, b: PriceListItem) {
    var minA, minB := if a.minQty.Some? then a.minQty.value else 1, if b.minQty.Some? then b.minQty.value else 1;
    minB < minA || (minB == minA && b.createdAt <= a.createdAt)
  }

  /** A row that applies and that comes after no other that does. */
  ghost predicate IsTier(rows: seq<PriceListItem>, priceListId: string, productId: int, qty: real, day: int, i: PriceListItem) {
    && i in rows && Applies(i, priceListId, productId, qty, day)
    && forall j :: j in rows && Applies(j, priceListId, productId, qty, day) ==> NotAfter(i, j)
  }

  /** The query answers if and only if some row applies, with a row that comes after no other. */
  lemma ResolvedIsTier(rows: seq<PriceListItem>, priceListId: string, productId: int, qty: real, day: int)
    ensures match TryResolveApplicablePrice(rows, Request(priceListId, productId, qty, day))
            case Some(best) => IsTier(rows, priceListId, productId, qty, day, best)
            case None => forall i :: i in rows ==> !Applies(i, priceListId, productId, qty, day)
  {
    var r := Request(priceListId, productId, qty, day);
    assert forall i :: Qualifies(i, r) <==> Applies(i, priceListId, productId, qty, day);
    assert forall a, b :: NotAfter(a, b) <==> !Ahead(b, a);
    ResolvedIsBest(rows, r);
  }

  /** Being best is the whole answer if and only if no other row ties with the best one. */
  lemma ResolvedIffBest(rows: seq<PriceListItem>, r: Request)
    ensures (forall i :: TryResolveApplicablePrice(rows, r) == Some(i) <==> IsBest(rows, r, i)) <==> UniqueBest(rows, r)
  {
    ResolvedIsBest(rows, r);
  }

  /** The same rows in any other order, duplicates included, resolve to the same tier. */
  lemma StorageOrderIrrelevant(rows: seq<PriceListItem>, shuffled: seq<PriceListItem>, r: Request)
    requires forall i :: i in rows <==> i in shuffled
    requires UniqueBest(rows, r)
    ensures TryResolveApplicablePrice(rows, r) == TryResolveApplicablePrice(shuffled, r)
  {
    ResolvedIsBest(rows, r);
    ResolvedIsBest(shuffled, r);
    var best := TryResolveApplicablePrice(shuffled, r);
    if best.Some? {
      assert IsBest(rows, r, best.value);
    }
  }

  /** The first of the best rows in storage is the one that is picked. */
  lemma FirstStoredWins(best: PriceListItem, rest: seq<PriceListItem>, r: Request)
    requires IsBest([best] + rest, r, best)
    ensures TryResolveApplicablePrice([best] + rest, r) == Some(best)
  {
    assert ([best] + rest)[1..] == rest;
    var others := Filter(rest, r);
    assert Filter([best] + rest, r) == [best] + others;
    assert ([best] + others)[1..] == others;
    SortHead(others);
    FilterMembers(rest, r);
    if others != [] {
      assert Sort(others)[0] in others;
    }
  }

  /** Any best row is the answer for some storage order. */
  lemma StoredFirst(rows: seq<PriceListItem>, r: Request, best: PriceListItem) returns (shuffled: seq<PriceListItem>)
    requires IsBest(rows, r, best)
    ensures multiset(shuffled) == multiset(rows) && TryResolveApplicablePrice(shuffled, r) == Some(best)
  {
    var i :| 0 <= i < |rows| && rows[i] == best;
    var rest := rows[..i] + rows[i + 1..];
    shuffled := [best] + rest;
    assert rows == rows[..i] + [best] + rows[i + 1..];
    assert forall j :: j in shuffled <==> j in rows;
    FirstStoredWins(best, rest, r);
  }

  /** The pick is the same in every storage order if and only if no other row ties with the best one. */
  lemma StorageDoesNotMatterIff(rows: seq<PriceListItem>, r: Request)
    ensures (forall shuffled :: multiset(shuffled) == multiset(rows) ==>
               TryResolveApplicablePrice(shuffled, r) == TryResolveApplicablePrice(rows, r))
            <==> UniqueBest(rows, r)
  {
    if UniqueBest(rows, r) {
      forall shuffled | multiset(shuffled) == multiset(rows)
        ensures TryResolveApplicablePrice(shuffled, r) == TryResolveApplicablePrice(rows, r)
      {
        SameMembers(rows, shuffled);
        StorageOrderIrrelevant(rows, shuffled, r);
      }
    } else {
      var a, b :| IsBest(rows, r, a) && IsBest(rows, r, b) && a != b;
      var first := StoredFirst(rows, r, a);
      var second := StoredFirst(rows, r, b);
    }
  }

  lemma SameMembers(rows: seq<PriceListItem>, shuffled: seq<PriceListItem>)
    requires multiset(shuffled) == multiset(rows)
    ensures forall i :: i in rows <==> i in shuffled
  {
    forall i ensures i in rows <==> i in shuffled {
      assert i in rows <==> i in multiset(rows);
      assert i in shuffled <==> i in multiset(shuffled);
    }
  }

  /** Two rows that tie on both keys make the pick depend on storage order. */
  lemma TiesDependOnStorage(a: PriceListItem, b: PriceListItem, r: Request)
    requires a != b && Qualifies(a, r) && Qualifies(b, r) && !Ahead(a, b) && !Ahead(b, a)
    ensures TryResolveApplicablePrice([a, b], r) != TryResolveApplicablePrice([b, a], r)
  {
    assert [a, b][1..] == [b] && [b, a][1..] == [a];
    assert Filter([b], r) == [b] && Filter([a], r) == [a];
    assert Filter([a, b], r) == [a, b] && Filter([b, a], r) == [b, a];
    assert Sort([b]) == Insert(b, Sort([])) == [b];
    assert Sort([a]) == Insert(a, Sort([])) == [a];
    assert Sort([a, b]) == [a, b] && Sort([b, a]) == [b, a];
  }

  /** Buying more never drops to a smaller tier, and never loses the tier it had. */
  lemma MoreNeverPicksSmallerTier(rows: seq<PriceListItem>, r: Request, more: real)
    requires r.qty <= more
    ensures var less, bigger := TryResolveApplicablePrice(rows, r), TryResolveApplicablePrice(rows, r.(qty := more));
            less.Some? ==> bigger.Some? && MinQty(less.value) <= MinQty(bigger.value)
  {
    ResolvedIsBest(rows, r);
    ResolvedIsBest(rows, r.(qty := more));
    var less := TryResolveApplicablePrice(rows, r);
    if less.Some? {
      assert Qualifies(less.value, r.(qty := more));
    }
  }

  /** Quantities with no tier boundary between them select the same row. */
  lemma {:induction false} SameBetweenBoundaries(rows: seq<PriceListItem>, r: Request, more: real)
    requires r.qty <= more
    requires forall i :: i in rows && InForce(i, r) ==> !(r.qty < MinQty(i) as real <= more)
    ensures TryResolveApplicablePrice(rows, r) == TryResolveApplicablePrice(rows, r.(qty := more))
  {
    SameFilter(rows, r, more);
  }

  lemma {:induction false} SameFilter(rows: seq<PriceListItem>, r: Request, more: real)
    requires r.qty <= more
    requires forall i :: i in rows && InForce(i, r) ==> !(r.qty < MinQty(i) as real <= more)
    ensures Filter(rows, r) == Filter(rows, r.(qty := more))
  {
    if rows != [] {
      SameFilter(rows[1..], r, more);
      assert rows[0] in rows;
    }
  }
}
