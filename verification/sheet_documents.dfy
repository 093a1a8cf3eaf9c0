/**
 What a worksheet means, independently of how it is read: documents are printed as event streams, a
 document stands for a table, and reading the print gives the projection of the table.

 A cell may hold a shared-string index, inline text or a plain value, its text may come in any number of
 text and CDATA events, and events of no interest may stand between any two parts.
 */
module SheetDocuments {
  import opened Wrappers
  import opened Text
  import opened SheetReader

  datatype Chunk = AsText(s: string) | AsCData(s: string)

  datatype Part = ValuePart(chunks: seq<Chunk>) | TextPart(chunks: seq<Chunk>) | Aside(events: seq<Event>)

  datatype CellDoc = CellDoc(ref: Option<string>, cellType: Option<string>, parts: seq<Part>)

  datatype RowPart = CellOf(cell: CellDoc) | RowAside(events: seq<Event>)

  datatype SheetPart = RowOf(ref: Option<string>, parts: seq<RowPart>) | SheetAside(events: seq<Event>)

  /** Events the readers have no use for where they stand. */
  predicate IsAside(e: Event) {
    match e
    case Chars(_) => true
    case CData(_) => true
    case Open(name, _, _) => name !in {"row", "c", "v", "t", "si"}
    case Close(name) => name !in {"row", "c", "v", "t", "si"}
  }

  predicate AllAsides(events: seq<Event>) {
    forall e :: e in events ==> IsAside(e)
  }

  predicate GoodPart(p: Part) {
    p.Aside? ==> AllAsides(p.events)
  }

  predicate GoodRowPart(p: RowPart) {
    match p
    case CellOf(c) => forall q :: q in c.parts ==> GoodPart(q)
    case RowAside(es) => AllAsides(es)
  }

  predicate GoodSheetPart(p: SheetPart) {
    match p
    case RowOf(_, parts) => forall q :: q in parts ==> GoodRowPart(q)
    case SheetAside(es) => AllAsides(es)
  }

  predicate GoodSheet(doc: seq<SheetPart>) {
    forall p :: p in doc ==> GoodSheetPart(p)
  }

  /* Printing. */

  function ChunkEvent(c: Chunk): Event {
    match c
    case AsText(s) => Chars(s)
    case AsCData(s) => CData(s)
  }

  function ChunkEvents(chunks: seq<Chunk>): seq<Event> {
    if chunks == [] then [] else [ChunkEvent(chunks[0])] + ChunkEvents(chunks[1..])
  }

  function Element(name: string, inside: seq<Event>): seq<Event> {
    [Open(name, None, None)] + inside + [Close(name)]
  }

  function PartEvents(p: Part): seq<Event> {
    match p
    case ValuePart(chunks) => Element("v", ChunkEvents(chunks))
    case TextPart(chunks) => Element("t", ChunkEvents(chunks))
    case Aside(events) => events
  }

  function PartsEvents(parts: seq<Part>): seq<Event> {
    if parts == [] then [] else PartEvents(parts[0]) + PartsEvents(parts[1..])
  }

  function CellEvents(c: CellDoc): seq<Event> {
    [Open("c", c.ref, c.cellType)] + PartsEvents(c.parts) + [Close("c")]
  }

  function RowPartEvents(p: RowPart): seq<Event> {
    match p
    case CellOf(c) => CellEvents(c)
    case RowAside(events) => events
  }

  function RowPartsEvents(parts: seq<RowPart>): seq<Event> {
    if parts == [] then [] else RowPartEvents(parts[0]) + RowPartsEvents(parts[1..])
  }

  function SheetPartEvents(p: SheetPart): seq<Event> {
    match p
    case RowOf(ref, parts) => [Open("row", ref, None)] + RowPartsEvents(parts) + [Close("row")]
    case SheetAside(events) => events
  }

  function SheetEvents(doc: seq<SheetPart>): seq<Event> {
    if doc == [] then [] else SheetPartEvents(doc[0]) + SheetEvents(doc[1..])
  }

  /* Meaning. */

  datatype TableCell = TableCell(column: string, text: string)

  datatype TableRow = TableRow(number: int, cells: seq<TableCell>)

  function Joined(chunks: seq<Chunk>): string {
    if chunks == [] then "" else chunks[0].s + Joined(chunks[1..])
  }

  /** The text a part has for this type of cell. */
  function PartText(cellType: string, p: Part): string {
    match p
    case ValuePart(chunks) => Joined(chunks)
    case TextPart(chunks) => if cellType == "inlineStr" then Joined(chunks) else ""
    case Aside(_) => ""
  }

  function RawOf(cellType: string, parts: seq<Part>): string {
    if parts == [] then "" else PartText(cellType, parts[0]) + RawOf(cellType, parts[1..])
  }

  function CellColumn(c: CellDoc): string {
    ColumnOf(OrEmpty(c.ref))
  }

  function CellText(c: CellDoc, shared: seq<string>): string {
    TextOf(OrEmpty(c.cellType), RawOf(OrEmpty(c.cellType), c.parts), shared)
  }

  /** A cell without a column reference stands nowhere in the table. */
  function CellsOf(parts: seq<RowPart>, shared: seq<string>): seq<TableCell> {
    if parts == [] then []
    else
      (if parts[0].CellOf? && CellColumn(parts[0].cell) != ""
       then [TableCell(CellColumn(parts[0].cell), CellText(parts[0].cell, shared))] else [])
      + CellsOf(parts[1..], shared)
  }

  function TableOf(doc: seq<SheetPart>, previous: int, shared: seq<string>): seq<TableRow> {
    if doc == [] then []
    else
      match doc[0]
      case SheetAside(_) => TableOf(doc[1..], previous, shared)
      case RowOf(ref, parts) =>
        var n := NumberOf(ref, previous);
        [TableRow(n, CellsOf(parts, shared))] + TableOf(doc[1..], n, shared)
  }

  /* Projection. */

  /** The wanted header a column carries: the last cell of the header row that names it. */
  function HeaderOf(header: seq<TableCell>, column: string, wanted: set<string>): Option<string> {
    if |header| == 0 then None
    else
      var last := header[|header| - 1];
      if last.column == column && Lower(Trim(last.text)) in wanted then Some(Lower(Trim(last.text)))
      else HeaderOf(header[..|header| - 1], column, wanted)
  }

  /** The text a row holds under a header: its last cell in a column that carries it. */
  function FieldOf(cells: seq<TableCell>, header: seq<TableCell>, wanted: set<string>, h: string): Option<string> {
    if |cells| == 0 then None
    else
      var last := cells[|cells| - 1];
      if HeaderOf(header, last.column, wanted) == Some(h) then Some(last.text)
      else FieldOf(cells[..|cells| - 1], header, wanted, h)
  }

  function Project(cells: seq<TableCell>, header: seq<TableCell>, wanted: set<string>): map<string, string> {
    map h | h in wanted && FieldOf(cells, header, wanted, h).Some? :: FieldOf(cells, header, wanted, h).value
  }

  function MissingFrom(header: seq<TableCell>, wanted: set<string>): set<string> {
    set h | h in wanted && forall c :: c in header ==> HeaderOf(header, c.column, wanted) != Some(h)
  }

  /**
   The projection of a table: rows numbered 1 say which columns are wanted, and it is an error if they do not
   name them all; every other row is cut down to the wanted columns and dropped if nothing is left.
   */
  function Projection(table: seq<TableRow>, header: seq<TableCell>, wanted: set<string>)
    : Result<seq<SheetRow>, set<string>>
  {
    if table == [] then Success([])
    else if table[0].number == 1 then
      var header' := header + table[0].cells;
      if MissingFrom(header', wanted) != {} then Failure(MissingFrom(header', wanted))
      else Projection(table[1..], header', wanted)
    else
      match Projection(table[1..], header, wanted)
      case Failure(m) => Failure(m)
      case Success(rest) =>
        var fields := Project(table[0].cells, header, wanted);
        Success(if fields == map[] then rest else [SheetRow(fields, table[0].number)] + rest)
  }

  /* Reading a print is projecting the table. */

  lemma {:induction false} FeedAppend(s: State, a: seq<Event>, b: seq<Event>, wanted: set<string>, shared: seq<string>)
    ensures Feed(s, a + b, wanted, shared) == Feed(Feed(s, a, wanted, shared), b, wanted, shared)
    decreases |a|
  {
    if a == [] {
      assert a + b == b;
    } else {
      assert (a + b)[0] == a[0] && (a + b)[1..] == a[1..] + b;
      FeedAppend(Handle(s, a[0], wanted, shared), a[1..], b, wanted, shared);
    }
  }

  lemma FeedOne(s: State, e: Event, wanted: set<string>, shared: seq<string>)
    ensures Feed(s, [e], wanted, shared) == Handle(s, e, wanted, shared)
  {
    assert [e][1..] == [];
    assert Feed(Handle(s, e, wanted, shared), [], wanted, shared) == Handle(s, e, wanted, shared);
  }

  /** Feeding an element: its opening, what is inside, its closing. */
  lemma FeedBetween(s: State, open: Event, inside: seq<Event>, close: Event, wanted: set<string>, shared: seq<string>)
    ensures Feed(s, [open] + inside + [close], wanted, shared)
            == Handle(Feed(Handle(s, open, wanted, shared), inside, wanted, shared), close, wanted, shared)
  {
    FeedAppend(s, [open] + inside, [close], wanted, shared);
    FeedAppend(s, [open], inside, wanted, shared);
    FeedOne(s, open, wanted, shared);
    FeedOne(Feed(Handle(s, open, wanted, shared), inside, wanted, shared), close, wanted, shared);
  }

  /** Between two parts nothing is being collected and nothing was thrown. */
  predicate AtRest(s: State) {
    s.book.missing.None? && !s.cell.inValue && !s.cell.inInlineText
  }

  lemma {:induction false} AsidesAreSkipped(s: State, events: seq<Event>, wanted: set<string>, shared: seq<string>)
    requires AtRest(s) && AllAsides(events)
    ensures Feed(s, events, wanted, shared) == s
    decreases |events|
  {
    if events != [] {
      assert IsAside(events[0]);
      AsidesAreSkipped(s, events[1..], wanted, shared);
    }
  }

  /** A state that has collected more text. */
  function Collected(s: State, text: string): State {
    s.(cell := s.cell.(raw := s.cell.raw + text))
  }

  lemma CollectedTwice(s: State, a: string, b: string)
    ensures Collected(Collected(s, a), b) == Collected(s, a + b)
    ensures Collected(s, "") == s
  {
    assert s.cell.raw + a + b == s.cell.raw + (a + b);
    assert s.cell.raw + "" == s.cell.raw;
  }

  lemma {:induction false} ChunksAreJoined(s: State, chunks: seq<Chunk>, wanted: set<string>, shared: seq<string>)
    requires s.book.missing.None? && (s.cell.inValue || s.cell.inInlineText)
    ensures Feed(s, ChunkEvents(chunks), wanted, shared) == Collected(s, Joined(chunks))
    decreases |chunks|
  {
    if chunks == [] {
      CollectedTwice(s, "", "");
    } else {
      FeedAppend(s, [ChunkEvent(chunks[0])], ChunkEvents(chunks[1..]), wanted, shared);
      FeedOne(s, ChunkEvent(chunks[0]), wanted, shared);
      ChunksAreJoined(Collected(s, chunks[0].s), chunks[1..], wanted, shared);
      CollectedTwice(s, chunks[0].s, Joined(chunks[1..]));
    }
  }

  lemma {:induction false} IgnoredChunks(s: State, chunks: seq<Chunk>, wanted: set<string>, shared: seq<string>)
    requires AtRest(s)
    ensures Feed(s, ChunkEvents(chunks), wanted, shared) == s
    decreases |chunks|
  {
    if chunks != [] {
      assert ChunkEvents(chunks)[1..] == ChunkEvents(chunks[1..]);
      IgnoredChunks(s, chunks[1..], wanted, shared);
    }
  }

  lemma PartIsCollected(s: State, p: Part, wanted: set<string>, shared: seq<string>)
    requires AtRest(s) && GoodPart(p)
    ensures Feed(s, PartEvents(p), wanted, shared) == Collected(s, PartText(s.cell.cellType, p))
  {
    CollectedTwice(s, "", "");
    match p
    case Aside(events) => AsidesAreSkipped(s, events, wanted, shared);
    case ValuePart(chunks) =>
      FeedBetween(s, Open("v", None, None), ChunkEvents(chunks), Close("v"), wanted, shared);
      ChunksAreJoined(s.(cell := s.cell.(inValue := true)), chunks, wanted, shared);
    case TextPart(chunks) =>
      FeedBetween(s, Open("t", None, None), ChunkEvents(chunks), Close("t"), wanted, shared);
      if s.cell.cellType == "inlineStr" {
        ChunksAreJoined(s.(cell := s.cell.(inInlineText := true)), chunks, wanted, shared);
      } else {
        IgnoredChunks(s, chunks, wanted, shared);
      }
  }

  lemma {:induction false} PartsAreCollected(s: State, parts: seq<Part>, wanted: set<string>, shared: seq<string>)
    requires AtRest(s) && forall p :: p in parts ==> GoodPart(p)
    ensures Feed(s, PartsEvents(parts), wanted, shared) == Collected(s, RawOf(s.cell.cellType, parts))
    decreases |parts|
  {
    if parts == [] {
      CollectedTwice(s, "", "");
    } else {
      var text := PartText(s.cell.cellType, parts[0]);
      FeedAppend(s, PartEvents(parts[0]), PartsEvents(parts[1..]), wanted, shared);
      PartIsCollected(s, parts[0], wanted, shared);
      PartsAreCollected(Collected(s, text), parts[1..], wanted, shared);
      CollectedTwice(s, text, RawOf(s.cell.cellType, parts[1..]));
    }
  }

  /** A whole cell: its text under its column, or nothing if it has none. */
  lemma CellIsRead(s: State, c: CellDoc, wanted: set<string>, shared: seq<string>)
    requires AtRest(s) && GoodRowPart(CellOf(c))
    ensures var s' := Feed(s, CellEvents(c), wanted, shared);
            && AtRest(s')
            && s'.book == if CellColumn(c) == "" then s.book else WithCell(s.book, CellColumn(c), CellText(c, shared), wanted)
  {
    FeedBetween(s, Open("c", c.ref, c.cellType), PartsEvents(c.parts), Close("c"), wanted, shared);
    var begun := Handle(s, Open("c", c.ref, c.cellType), wanted, shared);
    PartsAreCollected(begun, c.parts, wanted, shared);
    assert "" + RawOf(OrEmpty(c.cellType), c.parts) == RawOf(OrEmpty(c.cellType), c.parts);
  }

  /** What cells do to the book, one after the other. */
  function WithCells(b: Book, cells: seq<TableCell>, wanted: set<string>): Book {
    if |cells| == 0 then b
    else
      var last := cells[|cells| - 1];
      WithCell(WithCells(b, cells[..|cells| - 1], wanted), last.column, last.text, wanted)
  }

  lemma {:induction false} WithCellsAppend(b: Book, x: seq<TableCell>, y: seq<TableCell>, wanted: set<string>)
    ensures WithCells(b, x + y, wanted) == WithCells(WithCells(b, x, wanted), y, wanted)
  {
    if |y| == 0 {
      assert x + y == x;
    } else {
      assert (x + y)[..|x + y| - 1] == x + y[..|y| - 1];
      WithCellsAppend(b, x, y[..|y| - 1], wanted);
    }
  }

  lemma {:induction false} RowPartsAreRead(s: State, parts: seq<RowPart>, wanted: set<string>, shared: seq<string>)
    requires AtRest(s) && forall p :: p in parts ==> GoodRowPart(p)
    ensures var s' := Feed(s, RowPartsEvents(parts), wanted, shared);
            AtRest(s') && s'.book == WithCells(s.book, CellsOf(parts, shared), wanted)
    decreases |parts|
  {
    if parts != [] {
      var s' := Feed(s, RowPartEvents(parts[0]), wanted, shared);
      FeedAppend(s, RowPartEvents(parts[0]), RowPartsEvents(parts[1..]), wanted, shared);
      assert GoodRowPart(parts[0]);
      match parts[0] {
        case RowAside(events) =>
          AsidesAreSkipped(s, events, wanted, shared);
          RowPartsAreRead(s', parts[1..], wanted, shared);
          assert [] + CellsOf(parts[1..], shared) == CellsOf(parts[1..], shared);
        case CellOf(c) =>
          CellIsRead(s, c, wanted, shared);
          RowPartsAreRead(s', parts[1..], wanted, shared);
          if CellColumn(c) != "" {
            var first := [TableCell(CellColumn(c), CellText(c, shared))];
            assert first[..0] == [];
            assert WithCells(s.book, first, wanted) == s'.book;
            WithCellsAppend(s.book, first, CellsOf(parts[1..], shared), wanted);
          } else {
            assert [] + CellsOf(parts[1..], shared) == CellsOf(parts[1..], shared);
          }
      }
    }
  }

  /** The columns found so far are those the header cells name. */
  ghost predicate KnowsHeader(b: Book, header: seq<TableCell>, wanted: set<string>) {
    forall column :: Get(b.columnHeaders, column) == HeaderOf(header, column, wanted)
  }

  lemma {:induction false} HeaderCells(b: Book, header: seq<TableCell>, cells: seq<TableCell>, wanted: set<string>)
    requires b.rowNumber == 1 && KnowsHeader(b, header, wanted)
    ensures var b' := WithCells(b, cells, wanted);
            && KnowsHeader(b', header + cells, wanted)
            && b' == b.(columnHeaders := b'.columnHeaders)
  {
    if |cells| == 0 {
      assert header + cells == header;
    } else {
      var init, last := cells[..|cells| - 1], cells[|cells| - 1];
      HeaderCells(b, header, init, wanted);
      var all := header + cells;
      assert all[..|all| - 1] == header + init && all[|all| - 1] == last;
    }
  }

  lemma {:induction false} FieldCells(b: Book, header: seq<TableCell>, cells: seq<TableCell>, wanted: set<string>)
    requires b.rowNumber != 1 && b.rowCells == map[] && KnowsHeader(b, header, wanted)
    ensures var b' := WithCells(b, cells, wanted);
            && b' == b.(rowCells := b'.rowCells)
            && forall h :: Get(b'.rowCells, h) == FieldOf(cells, header, wanted, h)
  {
    if |cells| > 0 {
      var init, last := cells[..|cells| - 1], cells[|cells| - 1];
      FieldCells(b, header, init, wanted);
      assert Get(b.columnHeaders, last.column) == HeaderOf(header, last.column, wanted);
    }
  }

  lemma {:induction false} FieldsAreWanted(cells: seq<TableCell>, header: seq<TableCell>, wanted: set<string>, h: string)
    requires FieldOf(cells, header, wanted, h).Some?
    ensures h in wanted
  {
    var last := cells[|cells| - 1];
    if HeaderOf(header, last.column, wanted) == Some(h) {
      HeadersAreWanted(header, last.column, wanted);
    } else {
      FieldsAreWanted(cells[..|cells| - 1], header, wanted, h);
    }
  }

  lemma {:induction false} HeadersAreWanted(header: seq<TableCell>, column: string, wanted: set<string>)
    ensures var h := HeaderOf(header, column, wanted);
            h.Some? ==> h.value in wanted && exists c :: c in header && c.column == column
  {
    if |header| > 0 {
      var init, last := header[..|header| - 1], header[|header| - 1];
      HeadersAreWanted(init, column, wanted);
      assert last in header;
      assert forall c :: c in init ==> c in header;
    }
  }

  /** The cells of a row, collected by name, are its projection. */
  lemma RowIsProjected(b: Book, header: seq<TableCell>, cells: seq<TableCell>, wanted: set<string>)
    requires b.rowNumber != 1 && b.rowCells == map[] && KnowsHeader(b, header, wanted)
    ensures WithCells(b, cells, wanted) == b.(rowCells := Project(cells, header, wanted))
  {
    FieldCells(b, header, cells, wanted);
    var collected, projected := WithCells(b, cells, wanted).rowCells, Project(cells, header, wanted);
    forall h ensures Get(collected, h) == Get(projected, h) {
      if FieldOf(cells, header, wanted, h).Some? {
        FieldsAreWanted(cells, header, wanted, h);
      }
    }
    assert forall h :: (h in collected <==> h in projected) by {
      forall h ensures h in collected <==> h in projected {
        assert Get(collected, h) == Get(projected, h);
      }
    }
    forall h | h in collected ensures collected[h] == projected[h] {
      assert Get(collected, h) == Get(projected, h);
    }
    assert collected == projected;
  }

  lemma MissingIsMissing(b: Book, header: seq<TableCell>, wanted: set<string>)
    requires KnowsHeader(b, header, wanted)
    ensures wanted - b.columnHeaders.Values == MissingFrom(header, wanted)
  {
    forall h | h in wanted
      ensures h in b.columnHeaders.Values <==> exists c :: c in header && HeaderOf(header, c.column, wanted) == Some(h)
    {
      if h in b.columnHeaders.Values {
        var column :| column in b.columnHeaders && b.columnHeaders[column] == h;
        assert Get(b.columnHeaders, column) == HeaderOf(header, column, wanted);
        HeadersAreWanted(header, column, wanted);
      }
      if c :| c in header && HeaderOf(header, c.column, wanted) == Some(h) {
        assert Get(b.columnHeaders, c.column) == HeaderOf(header, c.column, wanted);
      }
    }
  }

  /** A printed row up to its closing tag. */
  lemma RowIsCollected(s: State, ref: Option<string>, parts: seq<RowPart>, wanted: set<string>, shared: seq<string>)
    requires AtRest(s) && forall p :: p in parts ==> GoodRowPart(p)
    ensures var s' := Feed(s, SheetPartEvents(RowOf(ref, parts)), wanted, shared);
            var begun := s.book.(rowNumber := NumberOf(ref, s.book.rowNumber), rowCells := map[]);
            && s'.book == WithRow(WithCells(begun, CellsOf(parts, shared), wanted), wanted)
            && !s'.cell.inValue && !s'.cell.inInlineText
  {
    FeedBetween(s, Open("row", ref, None), RowPartsEvents(parts), Close("row"), wanted, shared);
    RowPartsAreRead(Handle(s, Open("row", ref, None), wanted, shared), parts, wanted, shared);
  }

  /** The header row either names every wanted column or throws the ones it leaves out. */
  lemma HeaderRowIsRead(s: State, ref: Option<string>, parts: seq<RowPart>, header: seq<TableCell>, wanted: set<string>, shared: seq<string>)
    requires AtRest(s) && KnowsHeader(s.book, header, wanted) && NumberOf(ref, s.book.rowNumber) == 1
    requires forall p :: p in parts ==> GoodRowPart(p)
    ensures var s' := Feed(s, SheetPartEvents(RowOf(ref, parts)), wanted, shared);
            var m := MissingFrom(header + CellsOf(parts, shared), wanted);
            && (m != {} ==> s'.book.missing == Some(m))
            && (m == {} ==> AtRest(s') && KnowsHeader(s'.book, header + CellsOf(parts, shared), wanted)
                            && s'.book.rows == s.book.rows && s'.book.rowNumber == 1)
  {
    var begun, cells := s.book.(rowNumber := 1, rowCells := map[]), CellsOf(parts, shared);
    RowIsCollected(s, ref, parts, wanted, shared);
    HeaderCells(begun, header, cells, wanted);
    MissingIsMissing(WithCells(begun, cells, wanted), header + cells, wanted);
  }

  /** Any other row is kept, under its number, if its projection is not empty. */
  lemma DataRowIsRead(s: State, ref: Option<string>, parts: seq<RowPart>, header: seq<TableCell>, wanted: set<string>, shared: seq<string>)
    requires AtRest(s) && KnowsHeader(s.book, header, wanted) && NumberOf(ref, s.book.rowNumber) != 1
    requires forall p :: p in parts ==> GoodRowPart(p)
    ensures var s' := Feed(s, SheetPartEvents(RowOf(ref, parts)), wanted, shared);
            var n, fields := NumberOf(ref, s.book.rowNumber), Project(CellsOf(parts, shared), header, wanted);
            && AtRest(s') && KnowsHeader(s'.book, header, wanted) && s'.book.rowNumber == n
            && s'.book.rows == if fields == map[] then s.book.rows else s.book.rows + [SheetRow(fields, n)]
  {
    var n := NumberOf(ref, s.book.rowNumber);
    RowIsCollected(s, ref, parts, wanted, shared);
    RowIsProjected(s.book.(rowNumber := n, rowCells := map[]), header, CellsOf(parts, shared), wanted);
  }

  function After(kept: seq<SheetRow>, rest: Result<seq<SheetRow>, set<string>>): Result<seq<SheetRow>, set<string>> {
    match rest
    case Failure(m) => Failure(m)
    case Success(rows) => Success(kept + rows)
  }

  lemma {:induction false} SheetIsRead(s: State, doc: seq<SheetPart>, header: seq<TableCell>, wanted: set<string>, shared: seq<string>)
    requires AtRest(s) && KnowsHeader(s.book, header, wanted) && GoodSheet(doc)
    ensures Outcome(Feed(s, SheetEvents(doc), wanted, shared).book)
            == After(s.book.rows, Projection(TableOf(doc, s.book.rowNumber, shared), header, wanted))
    decreases |doc|
  {
    if doc == [] {
      assert s.book.rows + [] == s.book.rows;
    } else {
      FeedAppend(s, SheetPartEvents(doc[0]), SheetEvents(doc[1..]), wanted, shared);
      var s' := Feed(s, SheetPartEvents(doc[0]), wanted, shared);
      assert GoodSheetPart(doc[0]);
      match doc[0] {
        case SheetAside(events) =>
          AsidesAreSkipped(s, events, wanted, shared);
          SheetIsRead(s, doc[1..], header, wanted, shared);
        case RowOf(ref, parts) =>
          var n, cells := NumberOf(ref, s.book.rowNumber), CellsOf(parts, shared);
          var table := TableOf(doc, s.book.rowNumber, shared);
          assert table[0] == TableRow(n, cells) && table[1..] == TableOf(doc[1..], n, shared);
          if n == 1 {
            HeaderRowIsRead(s, ref, parts, header, wanted, shared);
            if MissingFrom(header + cells, wanted) != {} {
              StuckOnError(s', SheetEvents(doc[1..]), wanted, shared);
            } else {
              SheetIsRead(s', doc[1..], header + cells, wanted, shared);
            }
          } else {
            DataRowIsRead(s, ref, parts, header, wanted, shared);
            SheetIsRead(s', doc[1..], header, wanted, shared);
            KeptRowsJoin(s.book.rows, Project(cells, header, wanted), n, Projection(table[1..], header, wanted));
          }
      }
    }
  }

  lemma KeptRowsJoin(kept: seq<SheetRow>, fields: map<string, string>, n: int, rest: Result<seq<SheetRow>, set<string>>)
    ensures rest.Success? ==>
              (kept + [SheetRow(fields, n)]) + rest.value == kept + ([SheetRow(fields, n)] + rest.value)
  {
  }

  /** Whatever a document is and however it is printed, parsing it projects the table it stands for. */
  lemma ParseIsProjection(doc: seq<SheetPart>, shared: seq<string>, headers: seq<string>)
    requires GoodSheet(doc)
    ensures ParseSheet(SheetEvents(doc), shared, headers) == Projection(TableOf(doc, 0, shared), [], Wanted(headers))
  {
    SheetIsRead(Start(), doc, [], Wanted(headers), shared);
    var p := Projection(TableOf(doc, 0, shared), [], Wanted(headers));
    assert p.Success? ==> [] + p.value == p.value;
  }
}
