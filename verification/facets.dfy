/** The catalogue search and its facet counts: `applyFilters`, `search` and `facets` of product.service.ts. */
module Facets {
  import opened Wrappers

  datatype Product = Product(
    id: int, sku: string, name: Option<string>, brandId: Option<int>, categoryId: Option<int>,
    autoPartTypeId: Option<int>, providerId: Option<int>, isVisible: bool)

  datatype ProductQuery = ProductQuery(
    q: Option<string>, brandId: Option<int>, categoryId: Option<int>, autoPartTypeId: Option<int>,
    providerId: Option<int>, isVisible: Option<bool>)

  datatype FacetField = Brand | Category | AutoPart

  datatype FacetCount = FacetCount(id: int, count: nat)

  /** The pattern match of the database, `ILIKE '%…%'`, which this model leaves open. */
  type Like = (string, string) -> bool

  function Column(p: Product, field: FacetField): Option<int> {
    match field
    case Brand => p.brandId
    case Category => p.categoryId
    case AutoPart => p.autoPartTypeId
  }

  function Wanted(query: ProductQuery, field: FacetField): Option<int> {
    match field
    case Brand => query.brandId
    case Category => query.categoryId
    case AutoPart => query.autoPartTypeId
  }

  /** The same query with one facet set. */
  function With(query: ProductQuery, field: FacetField, id: Option<int>): ProductQuery {
    match field
    case Brand => query.(brandId := id)
    case Category => query.(categoryId := id)
    case AutoPart => query.(autoPartTypeId := id)
  }

  // Conditions of a query, and the builder that collects them.

  datatype Condition =
    | TextLike(q: string)
    | FacetIs(field: FacetField, id: int)
    | FacetSet(field: FacetField)
    | ProviderIs(id: int)
    | VisibleIs(visible: bool)

  /** A condition on a row; comparing an absent column is not true. */
  predicate Holds(like: Like, p: Product, c: Condition) {
    match c
    case TextLike(q) => like(p.sku, q) || (p.name.Some? && like(p.name.value, q))
    case FacetIs(field, id) => Column(p, field) == Some(id)
    case FacetSet(field) => Column(p, field).Some?
    case ProviderIs(id) => p.providerId == Some(id)
    case VisibleIs(visible) => p.isVisible == visible
  }

  predicate Satisfies(like: Like, p: Product, conditions: seq<Condition>) {
    forall c :: c in conditions ==> Holds(like, p, c)
  }

  function Rows(like: Like, products: seq<Product>, conditions: seq<Condition>): (rows: seq<Product>)
    ensures forall p :: p in rows <==> p in products && Satisfies(like, p, conditions)
  {
    if |products| == 0 then []
    else
      var init, last := Rows(like, products[..|products| - 1], conditions), products[|products| - 1];
      if Satisfies(like, last, conditions) then init + [last] else init
  }

  class QueryBuilder {
    var conditions: seq<Condition>

    constructor (conditions: seq<Condition>)
      ensures this.conditions == conditions
    {
      this.conditions := conditions;
    }

    method AndWhere(c: Condition)
      modifies this
      ensures conditions == old(conditions) + [c]
    {
      conditions := conditions + [c];
    }
  }

  function FacetFilter(query: ProductQuery, field: FacetField, skip: Option<FacetField>): seq<Condition> {
    if Wanted(query, field).Some? && skip != Some(field) then [FacetIs(field, Wanted(query, field).value)] else []
  }

  function TextFilter(query: ProductQuery): seq<Condition> {
    if query.q.Some? && query.q.value != "" then [TextLike(query.q.value)] else []
  }

  function ProviderFilter(query: ProductQuery): seq<Condition> {
    if query.providerId.Some? then [ProviderIs(query.providerId.value)] else []
  }

  function VisibleFilter(query: ProductQuery): seq<Condition> {
    if query.isVisible.Some? then [VisibleIs(query.isVisible.value)] else []
  }

  function FacetFilters(query: ProductQuery, skip: Option<FacetField>): seq<Condition> {
    FacetFilter(query, Brand, skip) + FacetFilter(query, Category, skip) + FacetFilter(query, AutoPart, skip)
  }

  function OtherFilters(query: ProductQuery): seq<Condition> {
    ProviderFilter(query) + VisibleFilter(query)
  }

  function Filters(query: ProductQuery, skip: Option<FacetField>): seq<Condition> {
    TextFilter(query) + FacetFilters(query, skip) + OtherFilters(query)
  }

  /** `applyFilters`: one condition for each part of the query that is given, in this order. */
  method ApplyFilters(qb: QueryBuilder, query: ProductQuery, skip: Option<FacetField>)
    modifies qb
    ensures qb.conditions == old(qb.conditions) + Filters(query, skip)
  {
    ApplyText(qb, query);
    ApplyFacets(qb, query, skip);
    ApplyOthers(qb, query);
    Regrouped(old(qb.conditions), TextFilter(query), FacetFilters(query, skip), OtherFilters(query));
  }

  lemma Regrouped(before: seq<Condition>, a: seq<Condition>, b: seq<Condition>, c: seq<Condition>)
    ensures before + a + b + c == before + (a + b + c)
  {
  }

  method ApplyText(qb: QueryBuilder, query: ProductQuery)
    modifies qb
    ensures qb.conditions == old(qb.conditions) + TextFilter(query)
  {
    if query.q.Some? && query.q.value != "" {
      qb.AndWhere(TextLike(query.q.value));
    }
  }

  method ApplyFacets(qb: QueryBuilder, query: ProductQuery, skip: Option<FacetField>)
    modifies qb
    ensures qb.conditions == old(qb.conditions) + FacetFilters(query, skip)
  {
    if query.brandId.Some? && skip != Some(Brand) {
      qb.AndWhere(FacetIs(Brand, query.brandId.value));
    }
    if query.categoryId.Some? && skip != Some(Category) {
      qb.AndWhere(FacetIs(Category, query.categoryId.value));
    }
    if query.autoPartTypeId.Some? && skip != Some(AutoPart) {
      qb.AndWhere(FacetIs(AutoPart, query.autoPartTypeId.value));
    }
    Regrouped(old(qb.conditions), FacetFilter(query, Brand, skip), FacetFilter(query, Category, skip),
              FacetFilter(query, AutoPart, skip));
  }

  method ApplyOthers(qb: QueryBuilder, query: ProductQuery)
    modifies qb
    ensures qb.conditions == old(qb.conditions) + OtherFilters(query)
  {
    if query.providerId.Some? {
      qb.AndWhere(ProviderIs(query.providerId.value));
    }
    if query.isVisible.Some? {
      qb.AndWhere(VisibleIs(query.isVisible.value));
    }
  }

  /** What a facet setting asks of a product, unless it is the one left out. */
  predicate FacetMatches(p: Product, query: ProductQuery, field: FacetField, skip: Option<FacetField>) {
    Wanted(query, field).Some? && skip != Some(field) ==> Column(p, field) == Wanted(query, field)
  }

  /** What a product must be like to match a query, facet `skip` aside. */
  predicate Matches(like: Like, p: Product, query: ProductQuery, skip: Option<FacetField>) {
    && (query.q.Some? && query.q.value != "" ==>
          like(p.sku, query.q.value) || (p.name.Some? && like(p.name.value, query.q.value)))
    && FacetMatches(p, query, Brand, skip) && FacetMatches(p, query, Category, skip)
    && FacetMatches(p, query, AutoPart, skip)
    && (query.providerId.Some? ==> p.providerId == query.providerId)
    && (query.isVisible.Some? ==> p.isVisible == query.isVisible.value)
  }

  lemma SatisfiesBoth(like: Like, p: Product, a: seq<Condition>, b: seq<Condition>)
    ensures Satisfies(like, p, a + b) <==> Satisfies(like, p, a) && Satisfies(like, p, b)
  {
    if Satisfies(like, p, a + b) {
      forall c | c in a ensures Holds(like, p, c) { assert c in a + b; }
      forall c | c in b ensures Holds(like, p, c) { assert c in a + b; }
    }
  }

  /** The conditions say together that the product matches. */
  lemma FiltersAreMatches(like: Like, p: Product, query: ProductQuery, skip: Option<FacetField>)
    ensures Satisfies(like, p, Filters(query, skip)) <==> Matches(like, p, query, skip)
  {
    var facets := FacetFilters(query, skip);
    SatisfiesBoth(like, p, TextFilter(query), facets);
    SatisfiesBoth(like, p, TextFilter(query) + facets, OtherFilters(query));
    SatisfiesBoth(like, p, FacetFilter(query, Brand, skip), FacetFilter(query, Category, skip));
    SatisfiesBoth(like, p, FacetFilter(query, Brand, skip) + FacetFilter(query, Category, skip),
                  FacetFilter(query, AutoPart, skip));
    SatisfiesBoth(like, p, ProviderFilter(query), VisibleFilter(query));
    SatisfiesText(like, p, query);
    SatisfiesFacet(like, p, query, Brand, skip);
    SatisfiesFacet(like, p, query, Category, skip);
    SatisfiesFacet(like, p, query, AutoPart, skip);
    SatisfiesRest(like, p, query);
  }

  lemma SatisfiesText(like: Like, p: Product, query: ProductQuery)
    ensures Satisfies(like, p, TextFilter(query)) <==>
            (query.q.Some? && query.q.value != "" ==> Holds(like, p, TextLike(query.q.value)))
  {
  }

  lemma SatisfiesFacet(like: Like, p: Product, query: ProductQuery, field: FacetField, skip: Option<FacetField>)
    ensures Satisfies(like, p, FacetFilter(query, field, skip)) <==> FacetMatches(p, query, field, skip)
  {
    if Wanted(query, field).Some? && skip != Some(field) {
      assert FacetIs(field, Wanted(query, field).value) in FacetFilter(query, field, skip);
    }
  }

  lemma SatisfiesRest(like: Like, p: Product, query: ProductQuery)
    ensures Satisfies(like, p, ProviderFilter(query)) <==> (query.providerId.Some? ==> p.providerId == query.providerId)
    ensures Satisfies(like, p, VisibleFilter(query)) <==> (query.isVisible.Some? ==> p.isVisible == query.isVisible.value)
  {
    if query.providerId.Some? {
      assert ProviderIs(query.providerId.value) in ProviderFilter(query);
    }
    if query.isVisible.Some? {
      assert VisibleIs(query.isVisible.value) in VisibleFilter(query);
    }
  }

  /** A hit in the columns of the catalogue: every part of the query that is given holds of the product. */
  predicate IsHit(like: Like, p: Product, query: ProductQuery) {
    && (query.q in {None, Some("")} || like(p.sku, query.q.value) || (p.name != None && like(p.name.value, query.q.value)))
    && (query.brandId == None || p.brandId == query.brandId)
    && (query.categoryId == None || p.categoryId == query.categoryId)
    && (query.autoPartTypeId == None || p.autoPartTypeId == query.autoPartTypeId)
    && (query.providerId == None || p.providerId == query.providerId)
    && (query.isVisible == None || query.isVisible == Some(p.isVisible))
  }

  /** Counted under value `id` of a facet: the product has it, and is a hit of the query without that facet. */
  predicate IsCounted(like: Like, p: Product, query: ProductQuery, field: FacetField, id: int) {
    match field
    case Brand => p.brandId == Some(id) && IsHit(like, p, query.(brandId := None))
    case Category => p.categoryId == Some(id) && IsHit(like, p, query.(categoryId := None))
    case AutoPart => p.autoPartTypeId == Some(id) && IsHit(like, p, query.(autoPartTypeId := None))
  }

  lemma FiltersAreHits(like: Like, p: Product, query: ProductQuery)
    ensures Satisfies(like, p, Filters(query, None)) <==> IsHit(like, p, query)
  {
    FiltersAreMatches(like, p, query, None);
  }

  // Searching.

  function SearchTotal(like: Like, products: seq<Product>, query: ProductQuery): nat {
    |Rows(like, products, Filters(query, None))|
  }

  /** The total a search reports, whatever page it shows. */
  method Search(like: Like, products: seq<Product>, query: ProductQuery) returns (total: nat)
    ensures total == SearchTotal(like, products, query)
  {
    var qb := new QueryBuilder([]);
    ApplyFilters(qb, query, None);
    assert qb.conditions == Filters(query, None);
    return |Rows(like, products, qb.conditions)|;
  }

  /** The places of the hits in the table. */
  function Hits(like: Like, products: seq<Product>, query: ProductQuery): set<int> {
    set i | 0 <= i < |products| && IsHit(like, products[i], query)
  }

  lemma HitsGrow(like: Like, init: seq<Product>, last: Product, query: ProductQuery)
    ensures Hits(like, init + [last], query) == Hits(like, init, query) + if IsHit(like, last, query) then {|init|} else {}
  {
  }

  /** The total of a search is the number of hits. */
  lemma {:induction false} RowsAreCounted(like: Like, products: seq<Product>, query: ProductQuery)
    ensures SearchTotal(like, products, query) == |Hits(like, products, query)|
  {
    if |products| > 0 {
      var init, last := products[..|products| - 1], products[|products| - 1];
      RowsAreCounted(like, init, query);
      FiltersAreHits(like, last, query);
      HitsGrow(like, init, last, query);
      assert init + [last] == products;
    }
  }

  // Counting.

  predicate AllSet(rows: seq<Product>, field: FacetField) {
    forall i :: 0 <= i < |rows| ==> Column(rows[i], field).Some?
  }

  /** One more row of group `id`. */
  function Bump(groups: seq<FacetCount>, id: int): seq<FacetCount> {
    if |groups| == 0 then [FacetCount(id, 1)]
    else if groups[0].id == id then [groups[0].(count := groups[0].count + 1)] + groups[1..]
    else [groups[0]] + Bump(groups[1..], id)
  }

  /** `GROUP BY` with `COUNT(*)`. */
  function Grouped(rows: seq<Product>, field: FacetField): seq<FacetCount>
    requires AllSet(rows, field)
  {
    if |rows| == 0 then []
    else Bump(Grouped(rows[..|rows| - 1], field), Column(rows[|rows| - 1], field).value)
  }

  /** The count shown for an option: an absent id is zero. */
  function CountFor(groups: seq<FacetCount>, id: int): nat {
    if |groups| == 0 then 0 else if groups[0].id == id then groups[0].count else CountFor(groups[1..], id)
  }

  function SumCounts(groups: seq<FacetCount>): nat {
    if |groups| == 0 then 0 else groups[0].count + SumCounts(groups[1..])
  }

  predicate DistinctIds(groups: seq<FacetCount>) {
    forall i, j :: 0 <= i < j < |groups| ==> groups[i].id != groups[j].id
  }

  lemma {:induction false} BumpCounts(groups: seq<FacetCount>, id: int, other: int)
    ensures CountFor(Bump(groups, id), other) == CountFor(groups, other) + if other == id then 1 else 0
    ensures SumCounts(Bump(groups, id)) == SumCounts(groups) + 1
  {
    if |groups| > 0 && groups[0].id != id {
      BumpCounts(groups[1..], id, other);
      assert Bump(groups, id)[1..] == Bump(groups[1..], id);
    }
  }

  lemma {:induction false} BumpIds(groups: seq<FacetCount>, id: int)
    requires DistinctIds(groups)
    ensures DistinctIds(Bump(groups, id))
    ensures forall g :: g in Bump(groups, id) ==> g.id == id || exists h :: h in groups && h.id == g.id
    ensures (forall g :: g in groups ==> g.count > 0) ==> forall g :: g in Bump(groups, id) ==> g.count > 0
  {
    if |groups| > 0 && groups[0].id != id {
      BumpIds(groups[1..], id);
      var rest := Bump(groups[1..], id);
      forall k | 0 <= k < |rest| ensures rest[k].id != groups[0].id {
        assert rest[k] in rest;
      }
      forall g | g in Bump(groups, id) ensures g.id == id || exists h :: h in groups && h.id == g.id {
        assert g == groups[0] || g in rest;
      }
    } else if |groups| > 0 {
      forall g | g in Bump(groups, id) ensures g.id == id || exists h :: h in groups && h.id == g.id {
        assert g.id == id || g in groups;
      }
    }
  }

  function Having(rows: seq<Product>, field: FacetField, id: int): nat {
    if |rows| == 0 then 0
    else Having(rows[..|rows| - 1], field, id) + if Column(rows[|rows| - 1], field) == Some(id) then 1 else 0
  }

  /** Each group counts its rows, all groups together count every row, and no id has two groups. */
  lemma {:induction false} GroupedCounts(rows: seq<Product>, field: FacetField, id: int)
    requires AllSet(rows, field)
    ensures CountFor(Grouped(rows, field), id) == Having(rows, field, id)
    ensures SumCounts(Grouped(rows, field)) == |rows|
    ensures DistinctIds(Grouped(rows, field)) && forall g :: g in Grouped(rows, field) ==> g.count > 0
  {
    if |rows| > 0 {
      var n := |rows| - 1;
      GroupedCounts(rows[..n], field, id);
      BumpCounts(Grouped(rows[..n], field), Column(rows[n], field).value, id);
      BumpIds(Grouped(rows[..n], field), Column(rows[n], field).value);
    }
  }

  /** What one facet counts: rows with the column set that match the query, that facet left out. */
  function FacetRows(like: Like, products: seq<Product>, query: ProductQuery, field: FacetField): (rows: seq<Product>)
    ensures AllSet(rows, field)
  {
    var rows := Rows(like, products, [FacetSet(field)] + Filters(query, Some(field)));
    assert forall i :: 0 <= i < |rows| ==> rows[i] in rows;
    assert FacetSet(field) in [FacetSet(field)] + Filters(query, Some(field));
    rows
  }

  function FacetCounts(like: Like, products: seq<Product>, query: ProductQuery, field: FacetField): seq<FacetCount> {
    Grouped(FacetRows(like, products, query, field), field)
  }

  /** One facet: rows with the column set, filtered without the facet itself, and grouped. */
  method CountBy(like: Like, products: seq<Product>, query: ProductQuery, field: FacetField) returns (counts: seq<FacetCount>)
    ensures counts == FacetCounts(like, products, query, field)
  {
    var qb := new QueryBuilder([FacetSet(field)]);
    ApplyFilters(qb, query, Some(field));
    var rows := Rows(like, products, qb.conditions);
    assert rows == FacetRows(like, products, query, field);
    counts := Grouped(rows, field);
  }

  // The promise.

  /** A product is counted for option `id` exactly when it is found with the facet set to `id`. */
  lemma CountedIffFound(like: Like, p: Product, query: ProductQuery, field: FacetField, id: int)
    ensures Satisfies(like, p, [FacetSet(field)] + Filters(query, Some(field))) && Column(p, field) == Some(id)
            <==> Satisfies(like, p, Filters(With(query, field, Some(id)), None))
  {
    SatisfiesBoth(like, p, [FacetSet(field)], Filters(query, Some(field)));
    FiltersAreMatches(like, p, query, Some(field));
    FiltersAreMatches(like, p, With(query, field, Some(id)), None);
    if Column(p, field).Some? {
      assert Satisfies(like, p, [FacetSet(field)]);
    }
    MatchesWith(like, p, query, field, id);
  }

  lemma MatchesWith(like: Like, p: Product, query: ProductQuery, field: FacetField, id: int)
    ensures Matches(like, p, With(query, field, Some(id)), None)
            <==> Matches(like, p, query, Some(field)) && Column(p, field) == Some(id)
  {
  }

  lemma {:induction false} CountedAreFound(like: Like, products: seq<Product>, query: ProductQuery, field: FacetField, id: int)
    ensures Having(FacetRows(like, products, query, field), field, id)
            == SearchTotal(like, products, With(query, field, Some(id)))
  {
    if |products| > 0 {
      var init, last := products[..|products| - 1], products[|products| - 1];
      CountedAreFound(like, init, query, field, id);
      CountedIffFound(like, last, query, field, id);
      var rows := FacetRows(like, products, query, field);
      assert rows == FacetRows(like, init, query, field) || rows[..|rows| - 1] == FacetRows(like, init, query, field);
    }
  }

  /**
   The count shown for an option is the total a search gives with the facet set to it, and an option that is
   not listed finds nothing.
   */
  lemma CountIsSearchTotal(like: Like, products: seq<Product>, query: ProductQuery, field: FacetField, id: int)
    ensures CountFor(FacetCounts(like, products, query, field), id)
            == SearchTotal(like, products, With(query, field, Some(id)))
    ensures (exists g :: g in FacetCounts(like, products, query, field) && g.id == id)
            <==> SearchTotal(like, products, With(query, field, Some(id))) > 0
  {
    CountedAreFound(like, products, query, field, id);
    GroupedCounts(FacetRows(like, products, query, field), field, id);
    ListedIff(FacetCounts(like, products, query, field), id);
  }

  lemma {:induction false} ListedIff(groups: seq<FacetCount>, id: int)
    requires forall g :: g in groups ==> g.count > 0
    ensures CountFor(groups, id) > 0 <==> exists g :: g in groups && g.id == id
  {
    if |groups| > 0 {
      ListedIff(groups[1..], id);
      assert groups[0] in groups;
      assert forall g :: g in groups <==> g == groups[0] || g in groups[1..];
    }
  }

  /** The counts of a facet add up to the products with the column set that match the other filters. */
  lemma CountsAddUp(like: Like, products: seq<Product>, query: ProductQuery, field: FacetField)
    ensures SumCounts(FacetCounts(like, products, query, field)) == |FacetRows(like, products, query, field)|
    ensures forall p :: p in FacetRows(like, products, query, field)
                        <==> p in products && Column(p, field).Some? && Matches(like, p, query, Some(field))
    ensures DistinctIds(FacetCounts(like, products, query, field))
  {
    GroupedCounts(FacetRows(like, products, query, field), field, 0);
    forall p ensures Satisfies(like, p, [FacetSet(field)] + Filters(query, Some(field)))
                     <==> Column(p, field).Some? && Matches(like, p, query, Some(field))
    {
      SatisfiesBoth(like, p, [FacetSet(field)], Filters(query, Some(field)));
      FiltersAreMatches(like, p, query, Some(field));
      assert FacetSet(field) in [FacetSet(field)];
    }
  }

  /** In the columns of the catalogue: how many products a facet counts under each value. */
  lemma CountedProducts(like: Like, products: seq<Product>, query: ProductQuery, field: FacetField, id: int)
    ensures CountFor(FacetCounts(like, products, query, field), id)
            == |set i | 0 <= i < |products| && IsCounted(like, products[i], query, field, id)|
  {
    CountIsSearchTotal(like, products, query, field, id);
    RowsAreCounted(like, products, With(query, field, Some(id)));
    SameSets(like, products, query, field, id);
  }

  lemma SameSets(like: Like, products: seq<Product>, query: ProductQuery, field: FacetField, id: int)
    ensures Hits(like, products, With(query, field, Some(id)))
            == set i | 0 <= i < |products| && IsCounted(like, products[i], query, field, id)
  {
    forall i | 0 <= i < |products|
      ensures IsHit(like, products[i], With(query, field, Some(id))) <==> IsCounted(like, products[i], query, field, id)
    {
      HitOfOption(like, products[i], query, field, id);
    }
  }

  lemma HitOfOption(like: Like, p: Product, query: ProductQuery, field: FacetField, id: int)
    ensures IsHit(like, p, With(query, field, Some(id))) <==> IsCounted(like, p, query, field, id)
  {
  }

  /** A facet's own setting changes none of its counts, so every option stays reachable from every other. */
  lemma OwnSettingIsIgnored(like: Like, products: seq<Product>, query: ProductQuery, field: FacetField, id: Option<int>)
    ensures FacetCounts(like, products, With(query, field, id), field) == FacetCounts(like, products, query, field)
  {
    OwnFilter(query, field, id, Brand);
    OwnFilter(query, field, id, Category);
    OwnFilter(query, field, id, AutoPart);
  }

  lemma OwnFilter(query: ProductQuery, field: FacetField, id: Option<int>, other: FacetField)
    ensures var changed := With(query, field, id);
            && FacetFilter(changed, other, Some(field)) == FacetFilter(query, other, Some(field))
            && TextFilter(changed) == TextFilter(query) && OtherFilters(changed) == OtherFilters(query)
  {
  }
}
