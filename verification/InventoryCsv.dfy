/** The inventory import's CSV scanner, and every way section 2 of RFC 4180 lets a table be written. */
module InventoryCsv {
  import opened Wrappers

  type Row = seq<string>

  const BOM: char := '\U{FEFF}'

  // --- what the scanner reads ------------------------------------------------------------------

  // Both line-break spellings become one newline.
  function Unified(text: string): string
    decreases |text|
  {
    if text == "" then ""
    else if text[0] != '\r' then [text[0]] + Unified(text[1..])
    else if |text| > 1 && text[1] == '\n' then "\n" + Unified(text[2..])
    else "\n" + Unified(text[1..])
  }

  function WithoutBom(text: string): string { if text != "" && text[0] == BOM then text[1..] else text }

  // Pieces without a carriage return, each joined to the next by one line break, spelled one way or the other.
  datatype Piece = Piece(text: string, crlf: bool)

  ghost function Joined(pieces: seq<Piece>, last: string): string
    decreases |pieces|
  {
    if pieces == [] then last else pieces[0].text + ((if pieces[0].crlf then "\r\n" else "\r") + Joined(pieces[1..], last))
  }

  ghost function Lines(pieces: seq<Piece>, last: string): string
    decreases |pieces|
  {
    if pieces == [] then last else pieces[0].text + ("\n" + Lines(pieces[1..], last))
  }

  // No piece has a carriage return, and a lone one is not followed by a line feed.
  ghost predicate Apart(pieces: seq<Piece>, last: string)
    decreases |pieces|
  {
    if pieces == [] then '\r' !in last
    else
      && '\r' !in pieces[0].text && Apart(pieces[1..], last)
      && (!pieces[0].crlf ==> !("\n" <= Joined(pieces[1..], last)))
  }

  /** Every carriage return, with the line feed after it if there is one, becomes one line feed; nothing else changes. */
  lemma {:induction false} LineBreaksAreUnified(pieces: seq<Piece>, last: string)
    requires Apart(pieces, last)
    ensures Unified(Joined(pieces, last)) == Lines(pieces, last)
    decreases |pieces|
  {
    if pieces == [] {
      UnifiedPrefix(last, "");
      assert last + "" == last;
    } else {
      var rest := Joined(pieces[1..], last);
      var tail := (if pieces[0].crlf then "\r\n" else "\r") + rest;
      LineBreaksAreUnified(pieces[1..], last);
      UnifiedPrefix(pieces[0].text, tail);
      if pieces[0].crlf { assert tail[2..] == rest; } else { assert tail[1..] == rest; }
      assert Unified(tail) == "\n" + Unified(rest);
    }
  }

  lemma {:induction false} UnifiedPrefix(text: string, rest: string)
    requires '\r' !in text
    ensures Unified(text + rest) == text + Unified(rest)
    decreases |text|
  {
    if text == "" {
      assert text + rest == rest;
    } else {
      assert (text + rest)[1..] == text[1..] + rest;
      assert text == [text[0]] + text[1..];
      UnifiedPrefix(text[1..], rest);
    }
  }

  /** One byte order mark at the start is skipped, and only there. */
  lemma TheMarkIsSkipped(text: string)
    ensures WithoutBom([BOM] + text) == text
    ensures !([BOM] <= text) ==> WithoutBom(text) == text
  {
  }

  // --- the scanner -----------------------------------------------------------------------------

  datatype Scanner = Scanner(rows: seq<Row>, row: Row, value: string, quoted: bool, closedQuote: bool)

  const START := Scanner([], [], "", false, false)

  predicate Blank(row: Row) { forall f <- row :: f == "" }

  function EndField(s: Scanner): Scanner { s.(row := s.row + [s.value], value := "", closedQuote := false) }

  // Rows of empty fields alone are dropped.
  function EndRow(s: Scanner): Scanner {
    var t := EndField(s);
    t.(rows := if Blank(t.row) then t.rows else t.rows + [t.row], row := [])
  }

  function Scan(s: Scanner, text: string): Option<seq<Row>>
    decreases |text|
  {
    if s.quoted then
      if text == "" then None
      else if text[0] != '"' then Scan(s.(value := s.value + [text[0]]), text[1..])
      else if |text| > 1 && text[1] == '"' then Scan(s.(value := s.value + "\""), text[2..])
      else Scan(s.(quoted := false, closedQuote := true), text[1..])
    else if text == "" then Some(EndRow(s).rows)
    else if text[0] == ',' then Scan(EndField(s), text[1..])
    else if text[0] == '\n' then Scan(EndRow(s), text[1..])
    else if text[0] == '"' && s.value == "" && !s.closedQuote then Scan(s.(quoted := true), text[1..])
    else if s.closedQuote || text[0] == '"' then None
    else Scan(s.(value := s.value + [text[0]]), text[1..])
  }

  // The index loop: one row, one value and two flags updated character by character.
  method ParseInventoryCsv(input: string) returns (result: Option<seq<Row>>)
    ensures result == Scan(START, Unified(WithoutBom(input)))
  {
    var text := Unified(WithoutBom(input));
    var rows: seq<Row>, row: Row, value := [], [], "";
    var quoted, closedQuote := false, false;
    var i := 0;
    while i <= |text|
      invariant i <= |text| + 1
      invariant i <= |text| ==> Scan(Scanner(rows, row, value, quoted, closedQuote), text[i..]) == Scan(START, text)
      invariant i == |text| + 1 ==> Some(rows) == Scan(START, text)
    {
      if quoted {
        if i == |text| { return None; }
        if text[i] == '"' && i + 1 < |text| && text[i + 1] == '"' {
          value := value + "\"";
          i := i + 1;
        } else if text[i] == '"' {
          quoted, closedQuote := false, true;
        } else {
          value := value + [text[i]];
        }
      } else if i == |text| || text[i] == ',' || text[i] == '\n' {
        row := row + [value];
        value, closedQuote := "", false;
        if i == |text| || text[i] != ',' {
          if !Blank(row) { rows := rows + [row]; }
          row := [];
        }
      } else if text[i] == '"' && value == "" && !closedQuote {
        quoted := true;
      } else {
        if closedQuote || text[i] == '"' { return None; }
        value := value + [text[i]];
      }
      i := i + 1;
    }
    return Some(rows);
  }

  // --- writing a table -------------------------------------------------------------------------

  // One field bare or quoted, one line ended by a line feed or by a carriage return and a line feed.
  datatype Cell = Cell(text: string, quoted: bool)
  datatype Line = Line(cells: seq<Cell>, crlf: bool)

  function Doubled(text: string): string
    decreases |text|
  {
    if text == "" then "" else (if text[0] == '"' then "\"\"" else [text[0]]) + Doubled(text[1..])
  }

  function PrintedCell(c: Cell): string { if c.quoted then "\"" + Doubled(c.text) + "\"" else c.text }

  function PrintedCells(cells: seq<Cell>): string
    decreases |cells|
  {
    if cells == [] then ""
    else if |cells| == 1 then PrintedCell(cells[0])
    else PrintedCell(cells[0]) + ("," + PrintedCells(cells[1..]))
  }

  // Only the last line may go without its break.
  function Printed(lines: seq<Line>, ended: bool): string
    decreases |lines|
  {
    if lines == [] then ""
    else PrintedCells(lines[0].cells) + (Break(lines, ended) + Printed(lines[1..], ended))
  }

  function Break(lines: seq<Line>, ended: bool): string
    requires lines != []
  {
    if |lines| == 1 && !ended then "" else if lines[0].crlf then "\r\n" else "\n"
  }

  function Fields(cells: seq<Cell>): Row
    decreases |cells|
  {
    if cells == [] then [] else [cells[0].text] + Fields(cells[1..])
  }

  // The table a document says, rows of empty fields aside.
  function Table(lines: seq<Line>): seq<Row>
    decreases |lines|
  {
    if lines == [] then []
    else (if Blank(Fields(lines[0].cells)) then [] else [Fields(lines[0].cells)]) + Table(lines[1..])
  }

  // Rules 5 to 7: a field holding a break, a comma or a quote is quoted; no field holds a carriage return.
  ghost predicate WellWritten(c: Cell) {
    '\r' !in c.text && (!c.quoted ==> ',' !in c.text && '"' !in c.text && '\n' !in c.text)
  }

  ghost predicate WellWrittenCells(cells: seq<Cell>) { forall c :: c in cells ==> WellWritten(c) }

  ghost predicate Written(lines: seq<Line>) { forall l :: l in lines ==> l.cells != [] && WellWrittenCells(l.cells) }

  // --- reading back one field ------------------------------------------------------------------

  ghost predicate Boundary(rest: string) { rest == "" || rest[0] == ',' || rest[0] == '\n' }

  lemma {:induction false} ClosesQuoted(s: Scanner, text: string, rest: string)
    requires s.quoted && (rest == "" || rest[0] != '"')
    ensures Scan(s, Doubled(text) + "\"" + rest)
         == Scan(s.(value := s.value + text, quoted := false, closedQuote := true), rest)
    decreases |text|
  {
    var all := Doubled(text) + "\"" + rest;
    if text == "" {
      assert all == "\"" + rest;
      assert all[1..] == rest && s.value + text == s.value;
    } else {
      var more := Doubled(text[1..]) + "\"" + rest;
      ClosesQuoted(s.(value := s.value + [text[0]]), text[1..], rest);
      assert s.value + [text[0]] + text[1..] == s.value + text;
      if text[0] == '"' { assert all[2..] == more; } else { assert all[1..] == more; }
    }
  }

  lemma {:induction false} ScansBare(s: Scanner, text: string, rest: string)
    requires !s.quoted && !s.closedQuote && ',' !in text && '"' !in text && '\n' !in text
    ensures Scan(s, text + rest) == Scan(s.(value := s.value + text), rest)
    decreases |text|
  {
    if text == "" {
      assert text + rest == rest && s.value + text == s.value;
    } else {
      assert (text + rest)[1..] == text[1..] + rest;
      ScansBare(s.(value := s.value + [text[0]]), text[1..], rest);
      assert s.value + [text[0]] + text[1..] == s.value + text;
    }
  }

  lemma ScansCell(s: Scanner, c: Cell, rest: string)
    requires s.value == "" && !s.quoted && !s.closedQuote && WellWritten(c) && Boundary(rest)
    ensures Scan(s, PrintedCell(c) + rest) == Scan(s.(value := c.text, closedQuote := c.quoted), rest)
  {
    assert s.value + c.text == c.text;
    if c.quoted {
      var all := PrintedCell(c) + rest;
      assert all[0] == '"' && all[1..] == Doubled(c.text) + "\"" + rest;
      ClosesQuoted(s.(quoted := true), c.text, rest);
    } else {
      ScansBare(s, c.text, rest);
    }
  }

  /** A quote inside a bare field, text after a closing quote, and a quote never closed are refused. */
  lemma StrayQuotesAreRefused(s: Scanner, text: string, c: char, rest: string)
    requires s.value == "" && !s.quoted && !s.closedQuote
    ensures text != "" && ',' !in text && '"' !in text && '\n' !in text ==> Scan(s, text + ("\"" + rest)) == None
    ensures c != ',' && c != '\n' && c != '"' ==> Scan(s, PrintedCell(Cell(text, true)) + ([c] + rest)) == None
    ensures Scan(s, "\"" + Doubled(text)) == None
  {
    if text != "" && ',' !in text && '"' !in text && '\n' !in text {
      ScansBare(s, text, "\"" + rest);
      assert s.value + text == text;
    }
    var open := s.(quoted := true);
    var all := "\"" + Doubled(text);
    assert all[1..] == Doubled(text);
    NeverClosed(open, text);
    if c != ',' && c != '\n' && c != '"' {
      var printed := PrintedCell(Cell(text, true)) + ([c] + rest);
      assert printed[0] == '"' && printed[1..] == Doubled(text) + "\"" + ([c] + rest);
      ClosesQuoted(open, text, [c] + rest);
    }
  }

  lemma {:induction false} NeverClosed(s: Scanner, text: string)
    requires s.quoted
    ensures Scan(s, Doubled(text)) == None
    decreases |text|
  {
    if text != "" {
      var all, more := Doubled(text), Doubled(text[1..]);
      if text[0] == '"' { assert all[2..] == more; } else { assert all[1..] == more; }
      NeverClosed(s.(value := s.value + [text[0]]), text[1..]);
    }
  }

  // A line's fields are read, each ended by its comma, up to the last.
  lemma {:induction false} ScansCells(s: Scanner, cells: seq<Cell>, rest: string)
    requires s.value == "" && !s.quoted && !s.closedQuote && cells != [] && WellWrittenCells(cells)
    requires rest == "" || rest[0] == '\n'
    ensures Scan(s, PrintedCells(cells) + rest)
         == if rest == "" then Some(EndedRow(s, cells).rows) else Scan(EndedRow(s, cells), rest[1..])
    decreases |cells|
  {
    hide Blank, PrintedCell, WellWritten;
    var c := cells[0];
    if |cells| == 1 {
      LastCell(s, c, rest);
      assert cells == [c] && Fields(cells) == [c.text];
    } else {
      var more := PrintedCells(cells[1..]) + rest;
      Nest(PrintedCell(c), ",", PrintedCells(cells[1..]), rest);
      var next := s.(row := s.row + [c.text]);
      CommaEndsCell(s, c, more);
      hide Scan;
      ScansCells(next, cells[1..], rest);
      assert s.row + Fields(cells) == next.row + Fields(cells[1..]);
    }
  }

  lemma Nest(a: string, b: string, c: string, rest: string)
    ensures a + (b + c) + rest == a + (b + (c + rest))
  {
  }

  lemma CommaEndsCell(s: Scanner, c: Cell, more: string)
    requires s.value == "" && !s.quoted && !s.closedQuote && WellWritten(c)
    ensures Scan(s, PrintedCell(c) + ("," + more)) == Scan(s.(row := s.row + [c.text]), more)
  {
    hide WellWritten, PrintedCell;
    ScansCell(s, c, "," + more);
    assert ("," + more)[1..] == more;
  }

  lemma LastCell(s: Scanner, c: Cell, rest: string)
    requires s.value == "" && !s.quoted && !s.closedQuote && WellWritten(c) && (rest == "" || rest[0] == '\n')
    ensures Scan(s, PrintedCell(c) + rest)
         == if rest == "" then Some(EndedRow(s, [c]).rows) else Scan(EndedRow(s, [c]), rest[1..])
  {
    hide WellWritten, PrintedCell, Blank;
    ScansCell(s, c, rest);
    assert Fields([c]) == [c.text];
  }

  function EndedRow(s: Scanner, cells: seq<Cell>): Scanner {
    var row := s.row + Fields(cells);
    s.(row := [], value := "", closedQuote := false, rows := if Blank(row) then s.rows else s.rows + [row])
  }

  // --- reading back the table ------------------------------------------------------------------

  // The same document with plain line feeds.
  function Plain(lines: seq<Line>): seq<Line>
    decreases |lines|
  {
    if lines == [] then [] else [lines[0].(crlf := false)] + Plain(lines[1..])
  }

  lemma {:induction false} UnifiedKeeps(text: string, rest: string)
    requires '\r' !in text
    ensures Unified(text + rest) == text + Unified(rest)
    decreases |text|
  {
    if text == "" {
      assert text + rest == rest;
    } else {
      assert (text + rest)[1..] == text[1..] + rest;
      UnifiedKeeps(text[1..], rest);
    }
  }

  lemma {:induction false} DoubledHasNoReturn(text: string)
    requires '\r' !in text
    ensures '\r' !in Doubled(text)
    decreases |text|
  {
    if text != "" { DoubledHasNoReturn(text[1..]); }
  }

  lemma {:induction false} CellsHaveNoReturn(cells: seq<Cell>)
    requires WellWrittenCells(cells)
    ensures '\r' !in PrintedCells(cells)
    decreases |cells|
  {
    if cells != [] {
      assert WellWritten(cells[0]);
      DoubledHasNoReturn(cells[0].text);
      CellsHaveNoReturn(cells[1..]);
    }
  }

  lemma {:induction false} UnifiedIsPlain(lines: seq<Line>, ended: bool)
    requires Written(lines)
    ensures Unified(Printed(lines, ended)) == Printed(Plain(lines), ended)
    decreases |lines|
  {
    if lines != [] {
      var cells, more := PrintedCells(lines[0].cells), Printed(lines[1..], ended);
      assert lines[0] in lines;
      CellsHaveNoReturn(lines[0].cells);
      UnifiedIsPlain(lines[1..], ended);
      assert Plain(lines)[1..] == Plain(lines[1..]);
      assert |Plain(lines[1..])| == 0 <==> |lines| == 1;
      hide Unified, Plain, PrintedCells, WellWrittenCells;
      UnifiedKeeps(cells, Break(lines, ended) + more);
      UnifiesBreak(Break(lines, ended), more);
    }
  }

  lemma UnifiesBreak(text: string, rest: string)
    requires text in {"", "\n", "\r\n"}
    ensures Unified(text + rest) == (if text == "" then "" else "\n") + Unified(rest)
  {
    var all := text + rest;
    if text == "" {
      assert all == rest;
    } else if text == "\n" {
      assert all[1..] == rest;
    } else {
      assert all[2..] == rest;
    }
  }

  lemma {:induction false} ScansLines(s: Scanner, lines: seq<Line>, ended: bool)
    requires s.row == [] && s.value == "" && !s.quoted && !s.closedQuote && Written(lines)
    requires forall l :: l in lines ==> !l.crlf
    ensures Scan(s, Printed(lines, ended)) == Some(s.rows + Table(lines))
    decreases |lines|
  {
    hide Scan, WellWrittenCells, Fields, PrintedCells, EndedRow, EndRow;
    if lines == [] {
      ScansNothing(s);
    } else {
      var cells, more := lines[0].cells, Printed(lines[1..], ended);
      assert lines[0] in lines;
      RowJoinsTable(s, lines);
      ScansCells(s, cells, Break(lines, ended) + more);
      if |lines| == 1 && !ended {
        assert lines[1..] == [] && Break(lines, ended) + more == "";
        assert Table(lines[1..]) == [] && EndedRow(s, cells).rows + [] == EndedRow(s, cells).rows;
      } else {
        assert ("\n" + more)[1..] == more;
        ScansLines(EndedRow(s, cells), lines[1..], ended);
      }
    }
  }

  lemma ScansNothing(s: Scanner)
    requires s.row == [] && s.value == "" && !s.quoted && !s.closedQuote
    ensures Scan(s, "") == Some(s.rows + [])
  {
    EmptyRowIsDropped(s);
    assert s.rows + [] == s.rows;
  }

  lemma RowJoinsTable(s: Scanner, lines: seq<Line>)
    requires s.row == [] && lines != [] && !s.quoted
    ensures var t := EndedRow(s, lines[0].cells);
      && t.rows + Table(lines[1..]) == s.rows + Table(lines)
      && t.row == [] && t.value == "" && !t.quoted && !t.closedQuote
  {
    hide Fields, Blank;
    var row := Fields(lines[0].cells);
    assert s.row + row == row;
    if Blank(row) {
      assert [] + Table(lines[1..]) == Table(lines[1..]);
    } else {
      assert s.rows + ([row] + Table(lines[1..])) == s.rows + [row] + Table(lines[1..]);
    }
  }

  lemma EmptyRowIsDropped(s: Scanner)
    requires s.row == [] && s.value == ""
    ensures Blank([""]) && EndRow(s).rows == s.rows
  {
  }

  lemma {:induction false} PlainKeepsTable(lines: seq<Line>)
    requires Written(lines)
    ensures Table(Plain(lines)) == Table(lines) && Written(Plain(lines)) && forall l :: l in Plain(lines) ==> !l.crlf
    decreases |lines|
  {
    if lines != [] {
      PlainKeepsTable(lines[1..]);
      assert lines[0] in lines;
      assert Plain(lines)[1..] == Plain(lines[1..]);
    }
  }

  /**
   * Every way of writing a table reads back as that table: any fields quoted, either line break, with or
   * without the last one. Rows holding nothing but empty fields are the only thing lost.
   */
  lemma WrittenTablesReadBack(lines: seq<Line>, ended: bool)
    requires Written(lines) && WithoutBom(Printed(lines, ended)) == Printed(lines, ended)
    ensures Scan(START, Unified(WithoutBom(Printed(lines, ended)))) == Some(Table(lines))
  {
    UnifiedIsPlain(lines, ended);
    PlainKeepsTable(lines);
    ScansLines(START, Plain(lines), ended);
    assert [] + Table(lines) == Table(lines);
  }

  ghost function Rows(lines: seq<Line>): seq<Row>
    decreases |lines|
  {
    if lines == [] then [] else [Fields(lines[0].cells)] + Rows(lines[1..])
  }

  /** So a table whose rows each hold something reads back whole, and in order; and otherwise it does not. */
  lemma {:induction false} NothingIsLostExactlyWhenNoRowIsBlank(lines: seq<Line>)
    ensures |Table(lines)| <= |Rows(lines)|
    ensures Table(lines) == Rows(lines) <==> forall row :: row in Rows(lines) ==> !Blank(row)
    decreases |lines|
  {
    hide Blank;
    if lines != [] {
      NothingIsLostExactlyWhenNoRowIsBlank(lines[1..]);
      var first := Fields(lines[0].cells);
      assert first in Rows(lines);
      assert forall row :: row in Rows(lines) <==> row == first || row in Rows(lines[1..]);
      if !Blank(first) {
        assert Table(lines)[1..] == Table(lines[1..]) && Rows(lines)[1..] == Rows(lines[1..]);
      }
    }
  }
}
