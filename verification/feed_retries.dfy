/**
 What is asked again: the feed client behind `fetchWithRetry`. The service's comment calls an unusable workbook
 a stable answer, but the client reports it with the exception that is retried.
 */
module FeedRetries {
  import opened Wrappers
  import opened Text
  import opened SheetReader
  import opened SheetDocuments
  import opened StockFeed
  import opened StockSync

  /** The header as row `i` leaves it: the cells of every row numbered 1 up to that one. */
  function HeaderThrough(table: seq<TableRow>, header: seq<TableCell>, i: nat): seq<TableCell>
    requires i < |table|
    decreases |table|
  {
    var header' := if table[0].number == 1 then header + table[0].cells else header;
    if i == 0 then header' else HeaderThrough(table[1..], header', i - 1)
  }

  predicate LacksAt(table: seq<TableRow>, header: seq<TableCell>, wanted: set<string>, i: nat) {
    i < |table| && table[i].number == 1 && MissingFrom(HeaderThrough(table, header, i), wanted) != {}
  }

  /** Some header row leaves a wanted column without a name. */
  ghost predicate LacksColumn(table: seq<TableRow>, header: seq<TableCell>, wanted: set<string>) {
    exists i: nat :: LacksAt(table, header, wanted, i)
  }

  /** A table has no projection if and only if a header row lacks a wanted column. */
  lemma {:induction false} ProjectionFailsIff(table: seq<TableRow>, header: seq<TableCell>, wanted: set<string>)
    ensures Projection(table, header, wanted).Failure? <==> LacksColumn(table, header, wanted)
    decreases |table|
  {
    if table != [] {
      var header' := if table[0].number == 1 then header + table[0].cells else header;
      ProjectionFailsIff(table[1..], header', wanted);
      forall i: nat ensures LacksAt(table, header, wanted, i + 1) <==> LacksAt(table[1..], header', wanted, i) {
      }
      assert LacksAt(table, header, wanted, 0) <==> table[0].number == 1 && MissingFrom(header', wanted) != {};
      if i: nat :| LacksAt(table, header, wanted, i) {
        assert i > 0 ==> LacksAt(table[1..], header', wanted, i - 1);
      }
      if i: nat :| LacksAt(table[1..], header', wanted, i) {
        assert LacksAt(table, header, wanted, i + 1);
      }
    }
  }

  /** A column carries a header only if some cell names it. */
  lemma {:induction false} HeaderIsNamed(header: seq<TableCell>, column: string, wanted: set<string>, h: string)
    requires HeaderOf(header, column, wanted) == Some(h)
    ensures exists c :: c in header && Lower(Trim(c.text)) == h
  {
    var init, last := header[..|header| - 1], header[|header| - 1];
    if !(last.column == column && Lower(Trim(last.text)) in wanted) {
      HeaderIsNamed(init, column, wanted, h);
      var c :| c in init && Lower(Trim(c.text)) == h;
      assert c in header;
    } else {
      assert last in header;
    }
  }

  /** The client finds the same download at every call. */
  function Steady(d: Download): nat -> Fetched {
    i => FetchedFrom(d)
  }

  /** A sheet that is fetched but lacks a wanted column. */
  ghost predicate IsUnusable(doc: seq<SheetPart>, strings: Option<seq<Event>>) {
    LacksColumn(TableOf(doc, 0, SharedStrings(strings)), [], Wanted(HEADERS))
  }

  /** A workbook reads as "unavailable" if and only if a header row of its sheet lacks a wanted column. */
  lemma UnavailableWorkbookIff(doc: seq<SheetPart>, strings: Option<seq<Event>>)
    requires GoodSheet(doc)
    ensures FetchedFrom(Workbook(SheetEvents(doc), strings)) == ServiceUnavailable <==> IsUnusable(doc, strings)
  {
    var shared := SharedStrings(strings);
    ParseIsProjection(doc, shared, HEADERS);
    ProjectionFailsIff(TableOf(doc, 0, shared), [], Wanted(HEADERS));
  }

  /** A download that stays as it is: asked once if it can be used, as often as allowed if it cannot. */
  lemma SteadyFeed(d: Download, retryAttempts: int, r: Fetched, calls: nat)
    requires IsFetched(Steady(d), retryAttempts, r, calls)
    ensures r == FetchedFrom(d)
    ensures calls == if FetchedFrom(d) == ServiceUnavailable && retryAttempts >= 1 then retryAttempts else 1
  {
    assert Steady(d)(0) == FetchedFrom(d);
    assert Steady(d)(calls - 1) == FetchedFrom(d);
  }

  /**
   So an unusable workbook is asked for again, up to the last attempt, exactly as a failed download is; a
   workbook whose header rows name every column is asked for once.
   */
  lemma WorkbookIsRetriedIff(doc: seq<SheetPart>, strings: Option<seq<Event>>, retryAttempts: int, r: Fetched, calls: nat)
    requires GoodSheet(doc) && retryAttempts >= 2
    requires IsFetched(Steady(Workbook(SheetEvents(doc), strings)), retryAttempts, r, calls)
    ensures calls > 1 <==> IsUnusable(doc, strings)
    ensures calls == if IsUnusable(doc, strings) then retryAttempts else 1
    ensures r == ServiceUnavailable <==> IsUnusable(doc, strings)
  {
    UnavailableWorkbookIff(doc, strings);
    SteadyFeed(Workbook(SheetEvents(doc), strings), retryAttempts, r, calls);
  }

  /** Of the downloads that yield no workbook, one that breaks off or is not well-formed is not asked for again. */
  lemma DownloadIsRetried(d: Download, retryAttempts: int, r: Fetched, calls: nat)
    requires !d.Workbook? && IsFetched(Steady(d), retryAttempts, r, calls)
    ensures r == if d.Unreachable? || d.Unreadable? then ServiceUnavailable else OtherError
    ensures calls == if r == ServiceUnavailable && retryAttempts >= 1 then retryAttempts else 1
  {
    SteadyFeed(d, retryAttempts, r, calls);
  }

  /** Any sheet that starts with a first row in which no cell names one of the wanted columns is such a workbook. */
  lemma UnnamedColumnIsUnusable(parts: seq<RowPart>, rest: seq<SheetPart>, strings: Option<seq<Event>>, h: string)
    requires h in Wanted(HEADERS)
    requires forall c :: c in CellsOf(parts, SharedStrings(strings)) ==> Lower(Trim(c.text)) != h
    ensures IsUnusable([RowOf(Some(Decimal(1)), parts)] + rest, strings)
  {
    var doc, shared := [RowOf(Some(Decimal(1)), parts)] + rest, SharedStrings(strings);
    var table, cells := TableOf(doc, 0, shared), CellsOf(parts, shared);
    ParseDecimal(1);
    assert doc[0] == RowOf(Some(Decimal(1)), parts);
    assert table[0] == TableRow(1, cells);
    assert [] + cells == cells;
    forall c | c in cells ensures HeaderOf(cells, c.column, Wanted(HEADERS)) != Some(h) {
      if HeaderOf(cells, c.column, Wanted(HEADERS)) == Some(h) {
        HeaderIsNamed(cells, c.column, Wanted(HEADERS), h);
        assert false;
      }
    }
    assert h in MissingFrom(cells, Wanted(HEADERS));
    assert LacksAt(table, [], Wanted(HEADERS), 0);
  }

  /** One such workbook: its header row is empty, and three attempts are all used on it. */
  lemma EmptyHeaderIsRetried()
    ensures var d := Workbook(SheetEvents([RowOf(Some(Decimal(1)), [])]), None);
            && FetchedFrom(d) == ServiceUnavailable
            && forall r, calls: nat :: IsFetched(Steady(d), 3, r, calls) <==> r == ServiceUnavailable && calls == 3
  {
    var doc := [RowOf(Some(Decimal(1)), [])];
    var d := Workbook(SheetEvents(doc), None);
    assert Lower(SKU_HEADER) in Wanted(HEADERS) by {
      assert SKU_HEADER in HEADERS;
    }
    UnnamedColumnIsUnusable([], [], None, Lower(SKU_HEADER));
    assert doc + [] == doc;
    UnavailableWorkbookIff(doc, None);
    assert forall i: nat :: Steady(d)(i) == ServiceUnavailable;
    forall r, calls: nat | IsFetched(Steady(d), 3, r, calls) ensures r == ServiceUnavailable && calls == 3 {
      SteadyFeed(d, 3, r, calls);
    }
  }
}
