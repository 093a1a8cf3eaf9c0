/**
 The event-driven SpreadsheetML reader: `parseSharedStrings` and the handlers of `parseFirstSheet` in
 xlsx-stock-sheet.parser.ts. Unzipping and tokenizing come before this; the input is the event stream.
 */
module SheetReader {
  import opened Wrappers
  import opened Text

  datatype Event =
    | Open(name: string, r: Option<string>, t: Option<string>)
    | Chars(text: string)
    | CData(text: string)
    | Close(name: string)

  datatype SheetRow = SheetRow(cells: map<string, string>, rowNumber: int)

  function Get<K, V>(m: map<K, V>, k: K): Option<V> {
    if k in m then Some(m[k]) else None
  }

  /** "BC12" -> "BC". */
  function ColumnOf(ref: string): string {
    if ref != [] && IsUpper(ref[0]) then [ref[0]] + ColumnOf(ref[1..]) else []
  }

  /** What survives a cell: the row being read, the columns found, the rows kept, the error thrown. */
  datatype Book = Book(
    rowNumber: int,
    rowCells: map<string, string>,
    columnHeaders: map<string, string>,
    rows: seq<SheetRow>,
    missing: Option<set<string>>)

  /** What is known of the cell being read. */
  datatype Cell = Cell(column: string, cellType: string, inValue: bool, inInlineText: bool, raw: string)

  datatype State = State(book: Book, cell: Cell)

  const BLANK_CELL := Cell("", "", false, false, "")

  function Start(): State {
    State(Book(0, map[], map[], [], None), BLANK_CELL)
  }

  function OrEmpty(s: Option<string>): string {
    if s.Some? then s.value else ""
  }

  /** `parseInt(r ?? '0') || rowNumber + 1`. */
  function NumberOf(r: Option<string>, previous: int): int {
    var n := ParseInt(if r.Some? then r.value else "0");
    if n.Some? && n.value != 0 then n.value else previous + 1
  }

  /** `shared[index] ?? ''`, with NaN and any index off the table giving the empty text. */
  function SharedText(shared: seq<string>, raw: string): string {
    var index := ParseInt(raw);
    if index.Some? && 0 <= index.value < |shared| then shared[index.value] else ""
  }

  function TextOf(cellType: string, raw: string, shared: seq<string>): string {
    if cellType == "s" then SharedText(shared, raw) else raw
  }

  /** A finished cell names a column in row 1 and fills a named column elsewhere. */
  function WithCell(b: Book, column: string, text: string, wanted: set<string>): Book {
    if b.rowNumber == 1 then
      var name := Lower(Trim(text));
      if name in wanted then b.(columnHeaders := b.columnHeaders[column := name]) else b
    else if column in b.columnHeaders then b.(rowCells := b.rowCells[b.columnHeaders[column] := text])
    else b
  }

  function WithRow(b: Book, wanted: set<string>): Book {
    if b.rowNumber == 1 then
      var missing := wanted - b.columnHeaders.Values;
      if missing != {} then b.(missing := Some(missing)) else b
    else if b.rowCells != map[] then b.(rows := b.rows + [SheetRow(b.rowCells, b.rowNumber)])
    else b
  }

  /** One event. After an error nothing is read any more. */
  function Handle(s: State, e: Event, wanted: set<string>, shared: seq<string>): State {
    if s.book.missing.Some? then s
    else
      match e
      case Open(name, r, t) =>
        if name == "row" then s.(book := s.book.(rowNumber := NumberOf(r, s.book.rowNumber), rowCells := map[]))
        else if name == "c" then s.(cell := s.cell.(column := ColumnOf(OrEmpty(r)), cellType := OrEmpty(t), raw := ""))
        else if name == "v" then s.(cell := s.cell.(inValue := true))
        else if name == "t" && s.cell.cellType == "inlineStr" then s.(cell := s.cell.(inInlineText := true))
        else s
      case Chars(text) => Appended(s, text)
      case CData(text) => Appended(s, text)
      case Close(name) =>
        if name == "v" then s.(cell := s.cell.(inValue := false))
        else if name == "t" then s.(cell := s.cell.(inInlineText := false))
        else if name == "c" then Finished(s, wanted, shared)
        else if name == "row" then s.(book := WithRow(s.book, wanted))
        else s
  }

  function Appended(s: State, text: string): State {
    if s.cell.inValue || s.cell.inInlineText then s.(cell := s.cell.(raw := s.cell.raw + text)) else s
  }

  function Finished(s: State, wanted: set<string>, shared: seq<string>): State {
    if s.cell.column == "" then s
    else
      State(WithCell(s.book, s.cell.column, TextOf(s.cell.cellType, s.cell.raw, shared), wanted),
            s.cell.(column := "", cellType := "", raw := ""))
  }

  function Feed(s: State, events: seq<Event>, wanted: set<string>, shared: seq<string>): State
    decreases |events|
  {
    if events == [] then s else Feed(Handle(s, events[0], wanted, shared), events[1..], wanted, shared)
  }

  /** The answer of `parseFirstSheet`: the rows, or the columns whose absence it throws. */
  function Outcome(b: Book): Result<seq<SheetRow>, set<string>> {
    match b.missing
    case Some(m) => Failure(m)
    case None => Success(b.rows)
  }

  function Wanted(headers: seq<string>): set<string> {
    set h | h in headers :: Lower(h)
  }

  function ParseSheet(sheet: seq<Event>, shared: seq<string>, headers: seq<string>): Result<seq<SheetRow>, set<string>> {
    Outcome(Feed(Start(), sheet, Wanted(headers), shared).book)
  }

  /** A row has the number it states, and one more than the row before if it states none, or zero. */
  lemma RowNumberIs(n: nat, previous: int)
    ensures NumberOf(None, previous) == previous + 1
    ensures NumberOf(Some(Decimal(n)), previous) == if n == 0 then previous + 1 else n
  {
    ParseDecimal(0);
    ParseDecimal(n);
    assert Decimal(0) == "0";
  }

  /** A shared text is the one at its index; an index off the table, or none at all, means no text. */
  lemma SharedTextIs(shared: seq<string>, i: nat)
    ensures SharedText(shared, Decimal(i)) == if i < |shared| then shared[i] else ""
    ensures SharedText(shared, "-" + Decimal(i + 1)) == "" && SharedText(shared, "") == ""
  {
    ParseDecimal(i);
    ParseLeading("", i + 1, "");
    assert "" + (['-'] + (Decimal(i + 1) + "")) == "-" + Decimal(i + 1);
  }

  /** After a cell nothing of it is left, so that text between cells belongs to none; one without a place is passed over. */
  lemma CellEnds(s: State, wanted: set<string>, shared: seq<string>)
    ensures var t := Finished(s, wanted, shared);
            if s.cell.column == "" then t == s
            else t.cell == Cell("", "", s.cell.inValue, s.cell.inInlineText, "")
  {
  }

  /** The reader object: the closure variables of `parseFirstSheet` and the handlers that update them. */
  class SheetParser {
    const wanted: set<string>
    const shared: seq<string>
    var rowNumber: int
    var rowCells: map<string, string>
    var columnHeaders: map<string, string>
    var rows: seq<SheetRow>
    var missing: Option<set<string>>
    var cellColumn: string
    var cellType: string
    var inValue: bool
    var inInlineText: bool
    var raw: string

    function View(): State
      reads this
    {
      State(Book(rowNumber, rowCells, columnHeaders, rows, missing),
            Cell(cellColumn, cellType, inValue, inInlineText, raw))
    }

    constructor (headers: seq<string>, shared: seq<string>)
      ensures View() == Start() && wanted == Wanted(headers) && this.shared == shared
    {
      wanted := set h | h in headers :: Lower(h);
      this.shared := shared;
      rowNumber, rowCells, columnHeaders, rows, missing := 0, map[], map[], [], None;
      cellColumn, cellType, inValue, inInlineText, raw := "", "", false, false, "";
    }

    method FinishCell()
      requires missing.None?
      modifies this
      ensures View() == Finished(old(View()), wanted, shared)
    {
      if cellColumn == "" {
        return;
      }
      var text := raw;
      if cellType == "s" {
        var index := ParseInt(raw);
        text := if index.Some? && 0 <= index.value < |shared| then shared[index.value] else "";
      }
      if rowNumber == 1 {
        var name := Lower(Trim(text));
        if name in wanted {
          columnHeaders := columnHeaders[cellColumn := name];
        }
      } else if cellColumn in columnHeaders {
        rowCells := rowCells[columnHeaders[cellColumn] := text];
      }
      cellColumn, cellType, raw := "", "", "";
    }

    method OnOpenTag(name: string, r: Option<string>, t: Option<string>)
      requires missing.None?
      modifies this
      ensures View() == Handle(old(View()), Open(name, r, t), wanted, shared)
    {
      if name == "row" {
        rowNumber := NumberOf(r, rowNumber);
        rowCells := map[];
      } else if name == "c" {
        cellColumn := ColumnOf(OrEmpty(r));
        cellType := OrEmpty(t);
        raw := "";
      } else if name == "v" {
        inValue := true;
      } else if name == "t" && cellType == "inlineStr" {
        inInlineText := true;
      }
    }

    method OnText(text: string)
      requires missing.None?
      modifies this
      ensures View() == Handle(old(View()), Chars(text), wanted, shared)
      ensures View() == Handle(old(View()), CData(text), wanted, shared)
    {
      if inValue || inInlineText {
        raw := raw + text;
      }
    }

    method OnCloseTag(name: string)
      requires missing.None?
      modifies this
      ensures View() == Handle(old(View()), Close(name), wanted, shared)
    {
      if name == "v" {
        inValue := false;
      } else if name == "t" {
        inInlineText := false;
      } else if name == "c" {
        FinishCell();
      } else if name == "row" {
        if rowNumber == 1 {
          var absent := wanted - columnHeaders.Values;
          if absent != {} {
            missing := Some(absent);
          }
        } else if rowCells != map[] {
          rows := rows + [SheetRow(rowCells, rowNumber)];
        }
      }
    }

    /** Pumps the events through the handlers until one of them throws. */
    method Parse(events: seq<Event>) returns (r: Result<seq<SheetRow>, set<string>>)
      modifies this
      ensures View() == Feed(old(View()), events, wanted, shared)
      ensures r == Outcome(View().book)
    {
      for i := 0 to |events|
        invariant Feed(View(), events[i..], wanted, shared) == Feed(old(View()), events, wanted, shared)
      {
        if missing.Some? {
          StuckOnError(View(), events[i..], wanted, shared);
          return Failure(missing.value);
        }
        assert events[i..][1..] == events[i + 1..];
        match events[i] {
          case Open(name, r, t) => OnOpenTag(name, r, t);
          case Chars(text) => OnText(text);
          case CData(text) => OnText(text);
          case Close(name) => OnCloseTag(name);
        }
      }
      assert events[|events|..] == [];
      return if missing.Some? then Failure(missing.value) else Success(rows);
    }
  }

  lemma {:induction false} StuckOnError(s: State, events: seq<Event>, wanted: set<string>, shared: seq<string>)
    requires s.book.missing.Some?
    ensures Feed(s, events, wanted, shared) == s
  {
    if events != [] {
      StuckOnError(s, events[1..], wanted, shared);
    }
  }

  /** The shared string table: text inside `si`, phonetic and formatting runs and all. */
  datatype SharedState = SharedState(strings: seq<string>, inItem: bool, inText: bool, current: string)

  function HandleShared(s: SharedState, e: Event): SharedState {
    match e
    case Open(name, _, _) =>
      if name == "si" then s.(inItem := true, current := "")
      else if name == "t" && s.inItem then s.(inText := true)
      else s
    case Chars(text) => if s.inText then s.(current := s.current + text) else s
    case CData(text) => if s.inText then s.(current := s.current + text) else s
    case Close(name) =>
      if name == "t" then s.(inText := false)
      else if name == "si" then s.(strings := s.strings + [s.current], inItem := false)
      else s
  }

  function FeedShared(s: SharedState, events: seq<Event>): SharedState
    decreases |events|
  {
    if events == [] then s else FeedShared(HandleShared(s, events[0]), events[1..])
  }

  /** A workbook may carry no shared strings at all. */
  function SharedStrings(events: Option<seq<Event>>): seq<string> {
    match events
    case None => []
    case Some(es) => FeedShared(SharedState([], false, false, ""), es).strings
  }

  method ParseSharedStrings(events: Option<seq<Event>>) returns (strings: seq<string>)
    ensures strings == SharedStrings(events)
  {
    strings := [];
    if events.None? {
      return;
    }
    var es := events.value;
    var inItem, inText, current := false, false, "";
    for i := 0 to |es|
      invariant FeedShared(SharedState(strings, inItem, inText, current), es[i..])
                == FeedShared(SharedState([], false, false, ""), es)
    {
      assert es[i..][1..] == es[i + 1..];
      match es[i] {
        case Open(name, _, _) =>
          if name == "si" {
            inItem, current := true, "";
          } else if name == "t" && inItem {
            inText := true;
          }
        case Chars(text) =>
          if inText { current := current + text; }
        case CData(text) =>
          if inText { current := current + text; }
        case Close(name) =>
          if name == "t" {
            inText := false;
          } else if name == "si" {
            strings := strings + [current];
            inItem := false;
          }
      }
    }
    assert es[|es|..] == [];
  }
}
