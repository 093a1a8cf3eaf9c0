/**
 Round trip: a table printed with any choice of encodings, and a string table printed with any choice of
 runs, read back as the projection of that table.
 */
module SheetPrinting {
  import opened Wrappers
  import opened Text
  import opened SheetReader
  import opened SheetDocuments

  /**
   The three ways a cell can hold a text (ECMA-376 Part 1, sections 18.3.1.4, 18.4.8 and 18.18.11): an index
   into the string table, runs of inline text, or the text itself under any type but the shared one.
   */
  datatype Encoding =
    | AsShared(index: nat, digits: seq<Chunk>)
    | AsInline(runs: seq<seq<Chunk>>)
    | AsPlain(cellType: Option<string>, chunks: seq<Chunk>)

  function JoinedRuns(runs: seq<seq<Chunk>>): string {
    if runs == [] then "" else Joined(runs[0]) + JoinedRuns(runs[1..])
  }

  predicate Encodes(e: Encoding, text: string, shared: seq<string>) {
    match e
    case AsShared(i, digits) => i < |shared| && shared[i] == text && Joined(digits) == Decimal(i)
    case AsInline(runs) => JoinedRuns(runs) == text
    case AsPlain(t, chunks) => t != Some("s") && Joined(chunks) == text
  }

  function TextParts(runs: seq<seq<Chunk>>): seq<Part> {
    if runs == [] then [] else [TextPart(runs[0])] + TextParts(runs[1..])
  }

  function Wrapped(name: string, parts: seq<Part>): seq<Part> {
    [Aside([Open(name, None, None)])] + parts + [Aside([Close(name)])]
  }

  function EncodedCell(column: string, row: nat, e: Encoding): CellDoc {
    var ref := Some(column + Decimal(row));
    match e
    case AsShared(_, digits) => CellDoc(ref, Some("s"), [ValuePart(digits)])
    case AsInline(runs) => CellDoc(ref, Some("inlineStr"), Wrapped("is", TextParts(runs)))
    case AsPlain(t, chunks) => CellDoc(ref, t, [ValuePart(chunks)])
  }

  predicate IsColumn(column: string) {
    column != "" && forall c :: c in column ==> IsUpper(c)
  }

  lemma {:induction false} ColumnOfRef(column: string, row: string)
    requires (forall c :: c in column ==> IsUpper(c)) && row != "" && !IsUpper(row[0])
    ensures ColumnOf(column + row) == column
  {
    if column == "" {
      assert column + row == row;
    } else {
      assert (column + row)[0] == column[0] && (column + row)[1..] == column[1..] + row;
      ColumnOfRef(column[1..], row);
    }
  }

  lemma {:induction false} RawAppend(cellType: string, a: seq<Part>, b: seq<Part>)
    ensures RawOf(cellType, a + b) == RawOf(cellType, a) + RawOf(cellType, b)
  {
    if a == [] {
      assert a + b == b;
    } else {
      assert (a + b)[0] == a[0] && (a + b)[1..] == a[1..] + b;
      RawAppend(cellType, a[1..], b);
    }
  }

  lemma RawOne(cellType: string, p: Part)
    ensures RawOf(cellType, [p]) == PartText(cellType, p)
  {
    assert [p][1..] == [];
    assert PartText(cellType, p) + "" == PartText(cellType, p);
  }

  lemma {:induction false} RawOfRuns(runs: seq<seq<Chunk>>)
    ensures RawOf("inlineStr", TextParts(runs)) == JoinedRuns(runs)
    ensures forall p :: p in TextParts(runs) ==> GoodPart(p)
  {
    if runs != [] {
      RawOfRuns(runs[1..]);
      assert TextParts(runs)[1..] == TextParts(runs[1..]);
    }
  }

  /** Every encoding of a text means that text, in its column. */
  lemma EncodedCellMeans(column: string, row: nat, e: Encoding, text: string, shared: seq<string>)
    requires IsColumn(column) && Encodes(e, text, shared)
    ensures var c := EncodedCell(column, row, e);
            GoodRowPart(CellOf(c)) && CellColumn(c) == column && CellText(c, shared) == text
  {
    var c := EncodedCell(column, row, e);
    assert Decimal(row)[0] in Decimal(row);
    ColumnOfRef(column, Decimal(row));
    match e
    case AsShared(i, digits) =>
      RawOne("s", ValuePart(digits));
      ParseDecimal(i);
    case AsInline(runs) =>
      RawOfRuns(runs);
      var before, after := Aside([Open("is", None, None)]), Aside([Close("is")]);
      RawAppend("inlineStr", [before] + TextParts(runs), [after]);
      RawAppend("inlineStr", [before], TextParts(runs));
      RawOne("inlineStr", before);
      RawOne("inlineStr", after);
      assert GoodPart(before) && GoodPart(after);
    case AsPlain(t, chunks) => RawOne(OrEmpty(t), ValuePart(chunks));
  }

  function PrintedCells(cells: seq<TableCell>, row: nat, encodings: seq<Encoding>): seq<RowPart>
    requires |cells| == |encodings|
  {
    if cells == [] then []
    else [CellOf(EncodedCell(cells[0].column, row, encodings[0]))] + PrintedCells(cells[1..], row, encodings[1..])
  }

  function PrintedTable(table: seq<TableRow>, encodings: seq<seq<Encoding>>): seq<SheetPart>
    requires |table| == |encodings|
    requires forall i :: 0 <= i < |table| ==> table[i].number > 0 && |table[i].cells| == |encodings[i]|
  {
    if table == [] then []
    else [RowOf(Some(Decimal(table[0].number)), PrintedCells(table[0].cells, table[0].number, encodings[0]))]
         + PrintedTable(table[1..], encodings[1..])
  }

  ghost predicate PrintsCells(cells: seq<TableCell>, encodings: seq<Encoding>, shared: seq<string>) {
    && |cells| == |encodings|
    && forall j :: 0 <= j < |cells| ==> IsColumn(cells[j].column) && Encodes(encodings[j], cells[j].text, shared)
  }

  /** Rows numbered from 1 up, columns that are letters, and an encoding of every text. */
  ghost predicate Prints(table: seq<TableRow>, encodings: seq<seq<Encoding>>, shared: seq<string>) {
    && |table| == |encodings|
    && forall i :: 0 <= i < |table| ==> table[i].number > 0 && PrintsCells(table[i].cells, encodings[i], shared)
  }

  lemma {:induction false} PrintedCellsMean(cells: seq<TableCell>, row: nat, encodings: seq<Encoding>, shared: seq<string>)
    requires PrintsCells(cells, encodings, shared)
    ensures var parts := PrintedCells(cells, row, encodings);
            (forall p :: p in parts ==> GoodRowPart(p)) && CellsOf(parts, shared) == cells
  {
    if cells != [] {
      EncodedCellMeans(cells[0].column, row, encodings[0], cells[0].text, shared);
      assert PrintsCells(cells[1..], encodings[1..], shared);
      PrintedCellsMean(cells[1..], row, encodings[1..], shared);
      var parts := PrintedCells(cells, row, encodings);
      assert parts[1..] == PrintedCells(cells[1..], row, encodings[1..]);
      assert cells == [cells[0]] + cells[1..];
    }
  }

  lemma {:induction false} PrintedTableMeans(table: seq<TableRow>, encodings: seq<seq<Encoding>>, shared: seq<string>, previous: int)
    requires Prints(table, encodings, shared)
    ensures var doc := PrintedTable(table, encodings);
            GoodSheet(doc) && TableOf(doc, previous, shared) == table
  {
    if table != [] {
      assert PrintsCells(table[0].cells, encodings[0], shared);
      PrintedCellsMean(table[0].cells, table[0].number, encodings[0], shared);
      ParseDecimal(table[0].number);
      assert Prints(table[1..], encodings[1..], shared);
      PrintedTableMeans(table[1..], encodings[1..], shared, table[0].number);
      var doc := PrintedTable(table, encodings);
      assert doc[1..] == PrintedTable(table[1..], encodings[1..]);
      assert GoodSheetPart(doc[0]);
      assert table == [table[0]] + table[1..];
    }
  }

  /** Print a table any way at all, parse it, and the projection of the table comes back. */
  lemma PrintParseRoundTrip(table: seq<TableRow>, encodings: seq<seq<Encoding>>, shared: seq<string>, headers: seq<string>)
    requires Prints(table, encodings, shared)
    ensures ParseSheet(SheetEvents(PrintedTable(table, encodings)), shared, headers)
            == Projection(table, [], Wanted(headers))
  {
    PrintedTableMeans(table, encodings, shared, 0);
    ParseIsProjection(PrintedTable(table, encodings), shared, headers);
  }

  /** A string table: items of text runs, with anything else between and inside them. */
  datatype SharedPart = ItemOf(parts: seq<Part>) | SharedAside(events: seq<Event>)

  predicate GoodShared(p: SharedPart) {
    match p
    case ItemOf(parts) => forall q :: q in parts ==> GoodPart(q)
    case SharedAside(events) => AllAsides(events)
  }

  function SharedPartEvents(p: SharedPart): seq<Event> {
    match p
    case ItemOf(parts) => Element("si", PartsEvents(parts))
    case SharedAside(events) => events
  }

  function SharedEvents(doc: seq<SharedPart>): seq<Event> {
    if doc == [] then [] else SharedPartEvents(doc[0]) + SharedEvents(doc[1..])
  }

  function ItemPartText(p: Part): string {
    if p.TextPart? then Joined(p.chunks) else ""
  }

  /** An item is the text of all its runs; a value element has no meaning here. */
  function ItemText(parts: seq<Part>): string {
    if parts == [] then ""
    else ItemPartText(parts[0]) + ItemText(parts[1..])
  }

  function PartStrings(p: SharedPart): seq<string> {
    match p
    case ItemOf(parts) => [ItemText(parts)]
    case SharedAside(_) => []
  }

  function StringsOf(doc: seq<SharedPart>): seq<string> {
    if doc == [] then [] else PartStrings(doc[0]) + StringsOf(doc[1..])
  }

  lemma {:induction false} FeedSharedAppend(s: SharedState, a: seq<Event>, b: seq<Event>)
    ensures FeedShared(s, a + b) == FeedShared(FeedShared(s, a), b)
    decreases |a|
  {
    if a == [] {
      assert a + b == b;
    } else {
      assert (a + b)[0] == a[0] && (a + b)[1..] == a[1..] + b;
      FeedSharedAppend(HandleShared(s, a[0]), a[1..], b);
    }
  }

  lemma FeedSharedElement(s: SharedState, name: string, inside: seq<Event>)
    ensures FeedShared(s, Element(name, inside))
            == HandleShared(FeedShared(HandleShared(s, Open(name, None, None)), inside), Close(name))
  {
    var open, close := Open(name, None, None), Close(name);
    FeedSharedAppend(s, [open] + inside, [close]);
    FeedSharedAppend(s, [open], inside);
    assert [open][1..] == [] && [close][1..] == [];
  }

  lemma {:induction false} SharedAsides(s: SharedState, events: seq<Event>)
    requires !s.inText && AllAsides(events)
    ensures FeedShared(s, events) == s
    decreases |events|
  {
    if events != [] {
      assert IsAside(events[0]);
      SharedAsides(s, events[1..]);
    }
  }

  /** A reader that has collected more text of its item. */
  function Extended(s: SharedState, text: string): SharedState {
    s.(current := s.current + text)
  }

  lemma ExtendedTwice(s: SharedState, a: string, b: string)
    ensures Extended(Extended(s, a), b) == Extended(s, a + b)
    ensures Extended(s, "") == s
  {
    assert s.current + a + b == s.current + (a + b);
    assert s.current + "" == s.current;
  }

  lemma {:induction false} SharedChunks(s: SharedState, chunks: seq<Chunk>)
    ensures FeedShared(s, ChunkEvents(chunks)) == if s.inText then Extended(s, Joined(chunks)) else s
    decreases |chunks|
  {
    ExtendedTwice(s, "", "");
    if chunks != [] {
      assert ChunkEvents(chunks)[1..] == ChunkEvents(chunks[1..]);
      SharedChunks(HandleShared(s, ChunkEvent(chunks[0])), chunks[1..]);
      ExtendedTwice(s, chunks[0].s, Joined(chunks[1..]));
    }
  }

  lemma SharedPartIsRead(s: SharedState, p: Part)
    requires s.inItem && !s.inText && GoodPart(p)
    ensures FeedShared(s, PartEvents(p)) == Extended(s, ItemPartText(p))
  {
    ExtendedTwice(s, "", "");
    match p
    case Aside(events) => SharedAsides(s, events);
    case ValuePart(chunks) =>
      FeedSharedElement(s, "v", ChunkEvents(chunks));
      SharedChunks(s, chunks);
    case TextPart(chunks) =>
      FeedSharedElement(s, "t", ChunkEvents(chunks));
      SharedChunks(s.(inText := true), chunks);
  }

  lemma {:induction false} SharedParts(s: SharedState, parts: seq<Part>)
    requires s.inItem && !s.inText && forall p :: p in parts ==> GoodPart(p)
    ensures FeedShared(s, PartsEvents(parts)) == Extended(s, ItemText(parts))
    decreases |parts|
  {
    ExtendedTwice(s, "", "");
    if parts != [] {
      FeedSharedAppend(s, PartEvents(parts[0]), PartsEvents(parts[1..]));
      SharedPartIsRead(s, parts[0]);
      SharedParts(Extended(s, ItemPartText(parts[0])), parts[1..]);
      ExtendedTwice(s, ItemPartText(parts[0]), ItemText(parts[1..]));
    }
  }

  lemma SharedItemIsRead(s: SharedState, p: SharedPart)
    requires !s.inItem && !s.inText && GoodShared(p)
    ensures var s' := FeedShared(s, SharedPartEvents(p));
            !s'.inItem && !s'.inText && s'.strings == s.strings + PartStrings(p)
  {
    match p
    case SharedAside(events) =>
      SharedAsides(s, events);
      assert s.strings + [] == s.strings;
    case ItemOf(parts) =>
      FeedSharedElement(s, "si", PartsEvents(parts));
      SharedParts(s.(inItem := true, current := ""), parts);
      assert "" + ItemText(parts) == ItemText(parts);
  }

  lemma {:induction false} SharedItems(s: SharedState, doc: seq<SharedPart>)
    requires !s.inItem && !s.inText && forall p :: p in doc ==> GoodShared(p)
    ensures FeedShared(s, SharedEvents(doc)).strings == s.strings + StringsOf(doc)
    decreases |doc|
  {
    if doc == [] {
      assert s.strings + [] == s.strings;
    } else {
      var head, rest := SharedPartEvents(doc[0]), SharedEvents(doc[1..]);
      var next := FeedShared(s, head);
      SharedItemIsRead(s, doc[0]);
      SharedItems(next, doc[1..]);
      FeedSharedAppend(s, head, rest);
      Associates(s.strings, PartStrings(doc[0]), StringsOf(doc[1..]));
    }
  }

  lemma Associates(a: seq<string>, b: seq<string>, c: seq<string>)
    ensures (a + b) + c == a + (b + c)
  {
  }

  /** The string table reads back as the texts it was printed from. */
  lemma SharedRoundTrip(doc: seq<SharedPart>)
    requires forall p :: p in doc ==> GoodShared(p)
    ensures SharedStrings(Some(SharedEvents(doc))) == StringsOf(doc)
  {
    SharedItems(SharedState([], false, false, ""), doc);
    assert [] + StringsOf(doc) == StringsOf(doc);
  }

  /** Two workbooks that print the same table, each its own way, parse to the same rows. */
  lemma EncodingIrrelevant(
      table: seq<TableRow>, headers: seq<string>,
      encodings: seq<seq<Encoding>>, strings: seq<SharedPart>,
      encodings': seq<seq<Encoding>>, strings': seq<SharedPart>)
    requires (forall p :: p in strings ==> GoodShared(p)) && (forall p :: p in strings' ==> GoodShared(p))
    requires Prints(table, encodings, StringsOf(strings)) && Prints(table, encodings', StringsOf(strings'))
    ensures ParseSheet(SheetEvents(PrintedTable(table, encodings)), SharedStrings(Some(SharedEvents(strings))), headers)
            == ParseSheet(SheetEvents(PrintedTable(table, encodings')), SharedStrings(Some(SharedEvents(strings'))), headers)
  {
    SharedRoundTrip(strings);
    SharedRoundTrip(strings');
    PrintParseRoundTrip(table, encodings, StringsOf(strings), headers);
    PrintParseRoundTrip(table, encodings', StringsOf(strings'), headers);
  }

  /** Columns of a row are distinct, and every wanted header stands over one column only. */
  ghost predicate DistinctColumns(cells: seq<TableCell>) {
    forall i, j :: 0 <= i < j < |cells| ==> cells[i].column != cells[j].column
  }

  ghost predicate OneColumnEach(header: seq<TableCell>, wanted: set<string>) {
    forall a, b :: a in header && b in header && a.column != b.column && Lower(Trim(a.text)) in wanted ==>
      Lower(Trim(a.text)) != Lower(Trim(b.text))
  }

  lemma {:induction false} HeaderOfDistinct(header: seq<TableCell>, c: TableCell, wanted: set<string>)
    requires DistinctColumns(header) && c in header
    ensures HeaderOf(header, c.column, wanted)
            == if Lower(Trim(c.text)) in wanted then Some(Lower(Trim(c.text))) else None
  {
    var n := |header| - 1;
    if c == header[n] {
      NoOtherHeader(header[..n], c.column, wanted);
    } else {
      assert c in header[..n];
      HeaderOfDistinct(header[..n], c, wanted);
    }
  }

  lemma {:induction false} NoOtherHeader(header: seq<TableCell>, column: string, wanted: set<string>)
    requires forall c :: c in header ==> c.column != column
    ensures HeaderOf(header, column, wanted) == None
  {
    if |header| > 0 {
      assert header[|header| - 1] in header;
      NoOtherHeader(header[..|header| - 1], column, wanted);
    }
  }

  /**
   In an ordinary sheet a projected field is the text of the one cell that stands under its header, and is
   absent exactly when the row has no such cell.
   */
  lemma {:induction false} FieldIff(cells: seq<TableCell>, header: seq<TableCell>, wanted: set<string>, h: string, text: string)
    requires DistinctColumns(cells) && DistinctColumns(header) && OneColumnEach(header, wanted) && h in wanted
    ensures FieldOf(cells, header, wanted, h) == Some(text)
            <==> exists c, g :: c in cells && g in header && g.column == c.column && Lower(Trim(g.text)) == h && c.text == text
  {
    if |cells| > 0 {
      var init, last := cells[..|cells| - 1], cells[|cells| - 1];
      FieldIff(init, header, wanted, h, text);
      HeaderOfIff(header, last.column, wanted, h);
      assert forall c :: c in cells <==> c in init || c == last;
      if HeaderOf(header, last.column, wanted) == Some(h) {
        forall c | c in init ensures forall g :: g in header && g.column == c.column ==> Lower(Trim(g.text)) != h {
        }
      }
    }
  }

  lemma {:induction false} HeaderOfIff(header: seq<TableCell>, column: string, wanted: set<string>, h: string)
    requires DistinctColumns(header) && h in wanted
    ensures HeaderOf(header, column, wanted) == Some(h)
            <==> exists g :: g in header && g.column == column && Lower(Trim(g.text)) == h
  {
    if g :| g in header && g.column == column {
      HeaderOfDistinct(header, g, wanted);
      forall q | q in header && q.column == column ensures q == g {
      }
    } else {
      NoOtherHeader(header, column, wanted);
    }
  }
}
