/** The supplier's feed client: quantities, one row per SKU, and which failures mean "unreachable". */
module StockFeed {
  import opened Wrappers
  import opened Text
  import opened SheetReader

  const SKU_HEADER := "sku"
  const NV_HEADER := "nv_stock"
  const TN_HEADER := "tn_stock"

  datatype FeedRow = FeedRow(sku: string, nvStock: nat, tnStock: nat)

  /**
   What the download, the unzipping and the XML reader delivered, which are outside the model: no answer, a body
   that breaks off, an archive without the sheet, XML that is not well-formed, or a workbook.
   */
  datatype Download =
    | Unreachable
    | BrokenOff
    | Unreadable
    | Malformed
    | Workbook(sheet: seq<Event>, shared: Option<seq<Event>>)

  /**
   `ServiceUnavailableException` is raised for transport and for an unusable workbook alike. What the body's or
   the XML reader's own errors raise goes through as it is.
   */
  datatype Fetched = Rows(rows: seq<FeedRow>) | ServiceUnavailable | OtherError

  /** Anything that does not start with a non-negative whole number means none. */
  function ToQuantity(raw: Option<string>): nat {
    if raw.None? then 0
    else
      var parsed := ParseInt(Trim(raw.value));
      if parsed.None? || parsed.value < 0 then 0 else parsed.value
  }

  function SkuOf(row: SheetRow): string {
    Trim(OrEmpty(Get(row.cells, SKU_HEADER)))
  }

  function FeedRowOf(row: SheetRow): FeedRow {
    FeedRow(SkuOf(row), ToQuantity(Get(row.cells, NV_HEADER)), ToQuantity(Get(row.cells, TN_HEADER)))
  }

  /** The last row of the sheet that carries a SKU. */
  function LastRow(rows: seq<SheetRow>, sku: string): (r: Option<FeedRow>)
    ensures r.Some? ==> r.value.sku == sku
    ensures r.Some? <==> exists row :: row in rows && SkuOf(row) == sku
  {
    if |rows| == 0 then None
    else if SkuOf(rows[|rows| - 1]) == sku then Some(FeedRowOf(rows[|rows| - 1]))
    else LastRow(rows[..|rows| - 1], sku)
  }

  /** The row carries this SKU, blanks around it aside; without such a cell it carries none. */
  predicate HasSku(row: SheetRow, sku: string) {
    if "sku" in row.cells then Trim(row.cells["sku"]) == sku else sku == ""
  }

  /** Row `i` carries the SKU and no later row does. */
  ghost predicate IsLastOf(rows: seq<SheetRow>, sku: string, i: nat) {
    i < |rows| && HasSku(rows[i], sku) && forall j :: i < j < |rows| ==> !HasSku(rows[j], sku)
  }

  lemma SkuIsHad(row: SheetRow, sku: string)
    ensures SkuOf(row) == sku <==> HasSku(row, sku)
  {
    assert Trim("") == "";
  }

  lemma {:induction false} LaterRowsAreOthers(rows: seq<SheetRow>, sku: string, n: nat)
    requires n <= |rows| && forall j :: n <= j < |rows| ==> SkuOf(rows[j]) != sku
    ensures LastRow(rows, sku) == LastRow(rows[..n], sku)
    decreases |rows|
  {
    if n == |rows| {
      assert rows[..n] == rows;
    } else {
      var init := rows[..|rows| - 1];
      assert init[..n] == rows[..n];
      LaterRowsAreOthers(init, sku, n);
    }
  }

  lemma LastRowHere(rows: seq<SheetRow>, sku: string)
    requires rows != [] && SkuOf(rows[|rows| - 1]) == sku
    ensures LastRow(rows, sku) == Some(FeedRowOf(rows[|rows| - 1]))
  {
  }

  /** It decides what the supplier has: Nevada by its `nv_stock` cell and Tennessee by its `tn_stock` cell. */
  lemma LastRowIsRead(rows: seq<SheetRow>, sku: string, i: nat)
    requires IsLastOf(rows, sku, i)
    ensures LastRow(rows, sku)
            == Some(FeedRow(sku, ToQuantity(Get(rows[i].cells, "nv_stock")), ToQuantity(Get(rows[i].cells, "tn_stock"))))
  {
    forall j | i <= j < |rows| ensures SkuOf(rows[j]) == sku <==> HasSku(rows[j], sku) {
      SkuIsHad(rows[j], sku);
    }
    LaterRowsAreOthers(rows, sku, i + 1);
    LastRowHere(rows[..i + 1], sku);
  }

  /**
   What a cell says: a missing one, one without a number and one with a negative number mean none, and a
   written number means itself.
   */
  lemma QuantityRead(n: nat)
    ensures ToQuantity(None) == 0
    ensures ToQuantity(Some(Decimal(n))) == n
    ensures ToQuantity(Some("-" + Decimal(n))) == 0
  {
    DecimalIsTrimmed(n);
    ParseDecimal(n);
    var d, negative := Decimal(n), "-" + Decimal(n);
    assert negative[1..] == d && negative[|negative| - 1] == d[|d| - 1];
    assert IsDigit(d[|d| - 1]);
    assert TrimStart(negative) == negative && TrimEnd(negative) == negative;
    AllDigits(d);
  }

  lemma DecimalIsTrimmed(n: nat)
    ensures Trim(Decimal(n)) == Decimal(n)
  {
    var d := Decimal(n);
    assert IsDigit(d[0]) && IsDigit(d[|d| - 1]);
  }

  lemma NotANumberMeansNone(raw: string)
    requires var t := Trim(raw); t == [] || !(IsDigit(t[0]) || t[0] == '-' || t[0] == '+')
    ensures ToQuantity(Some(raw)) == 0
  {
    var a, b := TrimCuts(raw);
  }

  /** The SKUs of a sheet in the order they first appear, blank ones left out. */
  function Skus(rows: seq<SheetRow>): (s: seq<string>)
    ensures forall sku :: sku in s <==> sku != "" && LastRow(rows, sku).Some?
    ensures forall i, j :: 0 <= i < j < |s| ==> s[i] != s[j]
  {
    if |rows| == 0 then []
    else
      var init, sku := Skus(rows[..|rows| - 1]), SkuOf(rows[|rows| - 1]);
      if sku == "" || sku in init then init else init + [sku]
  }

  /** The order is that of first appearance: more rows add SKUs at the end only. */
  lemma {:induction false} SkusInOrder(rows: seq<SheetRow>, n: nat)
    requires n <= |rows|
    ensures Skus(rows[..n]) <= Skus(rows)
  {
    if n == |rows| {
      assert rows[..n] == rows;
    } else {
      var init := rows[..|rows| - 1];
      assert init[..n] == rows[..n];
      SkusInOrder(init, n);
    }
  }

  /** One feed row per SKU, each holding what its last sheet row said. */
  function Deduplicated(rows: seq<SheetRow>): (feed: seq<FeedRow>)
    ensures |feed| == |Skus(rows)|
    ensures forall i :: 0 <= i < |feed| ==> LastRow(rows, Skus(rows)[i]) == Some(feed[i])
  {
    var skus := Skus(rows);
    seq(|skus|, i requires 0 <= i < |skus| => assert skus[i] in skus; LastRow(rows, skus[i]).value)
  }

  ghost predicate DistinctSkus(feed: seq<FeedRow>) {
    forall i, j :: 0 <= i < j < |feed| ==> feed[i].sku != feed[j].sku
  }

  /** Exactly the last rows of the non-blank SKUs, each once. */
  lemma DeduplicatedIff(rows: seq<SheetRow>, r: FeedRow)
    ensures DistinctSkus(Deduplicated(rows))
    ensures r in Deduplicated(rows) <==> r.sku != "" && LastRow(rows, r.sku) == Some(r)
  {
    var skus, feed := Skus(rows), Deduplicated(rows);
    assert forall i :: 0 <= i < |feed| ==> feed[i].sku == skus[i];
    if r in feed {
      var i :| 0 <= i < |feed| && feed[i] == r;
      assert skus[i] in skus;
    }
    if r.sku != "" && LastRow(rows, r.sku) == Some(r) {
      var i :| 0 <= i < |skus| && skus[i] == r.sku;
      assert feed[i] == r;
    }
  }

  /** A JavaScript `Map`: overwriting a key keeps its place. */
  class OrderedMap {
    var order: seq<string>
    var byKey: map<string, FeedRow>

    ghost predicate Valid()
      reads this
    {
      forall k :: k in byKey <==> k in order
    }

    constructor ()
      ensures Valid() && order == [] && byKey == map[]
    {
      order, byKey := [], map[];
    }

    method Set(key: string, row: FeedRow)
      requires Valid()
      modifies this
      ensures Valid()
      ensures byKey == old(byKey)[key := row]
      ensures order == if key in old(byKey) then old(order) else old(order) + [key]
    {
      if key !in byKey {
        order := order + [key];
      }
      byKey := byKey[key := row];
    }

    method Values() returns (rows: seq<FeedRow>)
      requires Valid()
      ensures |rows| == |order| && forall i :: 0 <= i < |rows| ==> rows[i] == byKey[order[i]]
    {
      rows := seq(|order|, i requires 0 <= i < |order| && Valid() reads this => byKey[order[i]]);
    }
  }

  /** The de-duplicating loop. */
  method Deduplicate(sheetRows: seq<SheetRow>) returns (rows: seq<FeedRow>, skippedWithoutSku: nat)
    ensures rows == Deduplicated(sheetRows)
    ensures skippedWithoutSku == |WithoutSku(sheetRows)|
  {
    BlankCount(sheetRows);
    var bySku := new OrderedMap();
    skippedWithoutSku := 0;
    for i := 0 to |sheetRows|
      invariant fresh(bySku) && bySku.Valid()
      invariant bySku.order == Skus(sheetRows[..i])
      invariant forall sku :: sku in bySku.byKey ==> Some(bySku.byKey[sku]) == LastRow(sheetRows[..i], sku)
      invariant skippedWithoutSku == |Blank(sheetRows[..i])|
    {
      assert sheetRows[..i + 1][..i] == sheetRows[..i];
      var row := sheetRows[i];
      var sku := Trim(OrEmpty(Get(row.cells, SKU_HEADER)));
      if sku == "" {
        skippedWithoutSku := skippedWithoutSku + 1;
      } else {
        bySku.Set(sku, FeedRow(sku, ToQuantity(Get(row.cells, NV_HEADER)), ToQuantity(Get(row.cells, TN_HEADER))));
      }
    }
    assert sheetRows[..|sheetRows|] == sheetRows;
    rows := bySku.Values();
  }

  function Blank(rows: seq<SheetRow>): seq<SheetRow> {
    if |rows| == 0 then []
    else Blank(rows[..|rows| - 1]) + (if SkuOf(rows[|rows| - 1]) == "" then [rows[|rows| - 1]] else [])
  }

  /** The places of the rows that carry no SKU. */
  function WithoutSku(rows: seq<SheetRow>): set<int> {
    set i | 0 <= i < |rows| && HasSku(rows[i], "")
  }

  lemma OneRowMore(init: seq<SheetRow>, last: SheetRow)
    ensures WithoutSku(init + [last]) == WithoutSku(init) + if HasSku(last, "") then {|init|} else {}
  {
  }

  /** They are the rows passed over. */
  lemma {:induction false} BlankCount(rows: seq<SheetRow>)
    ensures |Blank(rows)| == |WithoutSku(rows)|
  {
    if |rows| > 0 {
      var init, last := rows[..|rows| - 1], rows[|rows| - 1];
      BlankCount(init);
      SkuIsHad(last, "");
      OneRowMore(init, last);
      assert init + [last] == rows;
    }
  }

  const HEADERS := [SKU_HEADER, NV_HEADER, TN_HEADER]

  function FetchedFrom(d: Download): Fetched {
    match d
    case Unreachable => ServiceUnavailable
    case BrokenOff => OtherError
    case Unreadable => ServiceUnavailable
    case Malformed => OtherError
    case Workbook(sheet, shared) =>
      match ParseSheet(sheet, SharedStrings(shared), HEADERS)
      case Failure(_) => ServiceUnavailable
      case Success(rows) => Rows(Deduplicated(rows))
  }

  method FetchStockRows(d: Download) returns (r: Fetched)
    ensures r == FetchedFrom(d)
  {
    match d {
      case Unreachable => return ServiceUnavailable;
      case BrokenOff => return OtherError;
      case Unreadable => return ServiceUnavailable;
      case Malformed => return OtherError;
      case Workbook(sheet, shared) =>
        var strings := ParseSharedStrings(shared);
        var parser := new SheetParser(HEADERS, strings);
        var parsed := parser.Parse(sheet);
        if parsed.Failure? {
          return ServiceUnavailable;
        }
        var rows, skipped := Deduplicate(parsed.value);
        return Rows(rows);
    }
  }
}
