/** csv() of runtime/browser-evidence-representation.ts, and that it undoes every way of writing
    comma-separated values that section 2 of RFC 4180 allows. */
module Csv {
  import opened Prelude

  type Row = seq<string>

  /** Where the reader stands: finished rows, the row and field it is in, and whether inside quotes. */
  datatype State = State(rows: seq<Row>, row: Row, field: string, quoted: bool)

  // ---- Reading ---------------------------------------------------------------------------------

  function EndField(s: State): State {
    s.(row := s.row + [s.field], field := "")
  }

  function EndRow(s: State): State {
    var ended := EndField(s);
    ended.(rows := ended.rows + [ended.row], row := [])
  }

  predicate IsBreak(c: char) {
    c == '\n' || c == '\r'
  }

  /** The state after the characters at the front of rest, and how many of them were taken; None
      when a quote mark stands inside an unquoted field. */
  function Take(s: State, rest: string): Option<(State, nat)>
    requires rest != ""
  {
    var c := rest[0];
    if c == '"' then
      if s.quoted && |rest| > 1 && rest[1] == '"' then Some((s.(field := s.field + "\""), 2))
      else if s.field == "" || s.quoted then Some((s.(quoted := !s.quoted), 1))
      else None
    else if !s.quoted && c == ',' then Some((EndField(s), 1))
    else if !s.quoted && IsBreak(c) then
      Some((EndRow(s), if c == '\r' && |rest| > 1 && rest[1] == '\n' then 2 else 1))
    else Some((s.(field := s.field + [c]), 1))
  }

  function Ended(s: State): Option<seq<Row>> {
    if s.quoted then None
    else if s.field != "" || s.row != [] then Some(EndRow(s).rows)
    else Some(s.rows)
  }

  function Scan(s: State, rest: string): Option<seq<Row>>
    decreases |rest|
  {
    if rest == "" then Ended(s)
    else
      match Take(s, rest)
      case None => None
      case Some((next, n)) => Scan(next, rest[n..])
  }

  const Start := State([], [], "", false)

  function ToggleQuote(field: string, quoted: bool): Option<bool> {
    if field == "" || quoted then Some(!quoted) else None
  }

  method Csv(text: string) returns (result: Option<seq<Row>>)
    ensures result == Scan(Start, text)
  {
    var rows: seq<Row>, row: Row, field, quoted := [], [], "", false;
    var i := 0;
    assert text[0..] == text;
    while i < |text|
      invariant 0 <= i <= |text|
      invariant Scan(Start, text) == Scan(State(rows, row, field, quoted), text[i..])
      decreases |text| - i
    {
      var c := text[i];
      ghost var rest, before, start := text[i..], State(rows, row, field, quoted), i;
      if c == '"' {
        if quoted && i + 1 < |text| && text[i + 1] == '"' {
          field := field + "\"";
          i := i + 1;
        } else {
          var toggled := ToggleQuote(field, quoted);
          if toggled.None? {
            return None;
          }
          quoted := toggled.value;
        }
      } else if !quoted && c == ',' {
        row := row + [field];
        field := "";
      } else if !quoted && (c == '\n' || c == '\r') {
        if c == '\r' && i + 1 < |text| && text[i + 1] == '\n' {
          i := i + 1;
        }
        row := row + [field];
        rows := rows + [row];
        row := [];
        field := "";
      } else {
        field := field + [c];
      }
      i := i + 1;
      assert Take(before, rest) == Some((State(rows, row, field, quoted), i - start));
      assert rest[i - start..] == text[i..];
    }
    if quoted {
      return None;
    }
    if field != "" || row != [] {
      row := row + [field];
      rows := rows + [row];
    }
    return Some(rows);
  }

  // ---- Writing ------------------------------------------------------------------------------------

  /** A field as section 2 lets it be written: bare if nothing in it is special, or in quotes. */
  datatype Cell = Cell(value: string, inQuotes: bool)
  datatype Line = Line(cells: seq<Cell>, carriage: bool)

  predicate IsSpecial(c: char) {
    c == '"' || c == ',' || IsBreak(c)
  }

  predicate Writable(cell: Cell) {
    cell.inQuotes || forall c <- cell.value :: !IsSpecial(c)
  }

  predicate Printable(lines: seq<Line>) {
    forall line <- lines :: line.cells != [] && forall cell <- line.cells :: Writable(cell)
  }

  function Doubled(value: string): string {
    if value == "" then "" else (if value[0] == '"' then "\"\"" else [value[0]]) + Doubled(value[1..])
  }

  function CellText(cell: Cell): string {
    if cell.inQuotes then "\"" + Doubled(cell.value) + "\"" else cell.value
  }

  function CellsText(cells: seq<Cell>): string
    requires cells != []
  {
    if |cells| == 1 then CellText(cells[0]) else CellText(cells[0]) + "," + CellsText(cells[1..])
  }

  function BreakText(carriage: bool): string {
    if carriage then "\r\n" else "\n"
  }

  function Text(lines: seq<Line>): string
    requires Printable(lines)
  {
    if lines == [] then "" else CellsText(lines[0].cells) + BreakText(lines[0].carriage) + Text(lines[1..])
  }

  function Values(cells: seq<Cell>): (row: Row)
    ensures |row| == |cells|
  {
    if cells == [] then [] else [cells[0].value] + Values(cells[1..])
  }

  function Rows(lines: seq<Line>): seq<Row> {
    if lines == [] then [] else [Values(lines[0].cells)] + Rows(lines[1..])
  }

  // ---- A field read back -----------------------------------------------------------------------------

  lemma {:induction false} QuotedReadsBack(s: State, value: string, rest: string)
    requires s.quoted && (rest != "" ==> rest[0] != '"')
    ensures Scan(s, Doubled(value) + "\"" + rest) == Scan(s.(field := s.field + value, quoted := false), rest)
    decreases |value|
  {
    var all := Doubled(value) + "\"" + rest;
    if value == "" {
      assert all == "\"" + rest && all[1..] == rest;
      assert s.field + value == s.field;
    } else {
      var next := s.(field := s.field + [value[0]]);
      var more := Doubled(value[1..]) + "\"" + rest;
      assert next.field + value[1..] == s.field + value;
      if value[0] == '"' {
        assert all == "\"\"" + more && all[2..] == more;
      } else {
        assert all == [value[0]] + more && all[1..] == more;
      }
      QuotedReadsBack(next, value[1..], rest);
    }
  }

  lemma {:induction false} BareReadsBack(s: State, value: string, rest: string)
    requires !s.quoted && forall c <- value :: !IsSpecial(c)
    ensures Scan(s, value + rest) == Scan(s.(field := s.field + value), rest)
    decreases |value|
  {
    if value == "" {
      assert value + rest == rest && s.field + value == s.field;
    } else {
      var next := s.(field := s.field + [value[0]]);
      assert value[0] in value && (value + rest)[0] == value[0];
      assert (value + rest)[1..] == value[1..] + rest;
      assert next.field + value[1..] == s.field + value;
      BareReadsBack(next, value[1..], rest);
    }
  }

  lemma CellReadsBack(s: State, cell: Cell, rest: string)
    requires !s.quoted && s.field == "" && Writable(cell) && (rest != "" ==> rest[0] != '"')
    ensures Scan(s, CellText(cell) + rest) == Scan(s.(field := cell.value), rest)
  {
    if cell.inQuotes {
      var inner := Doubled(cell.value) + "\"" + rest;
      assert CellText(cell) + rest == "\"" + inner && ("\"" + inner)[1..] == inner;
      QuotedReadsBack(s.(quoted := true), cell.value, rest);
      assert s.field + cell.value == cell.value;
    } else {
      BareReadsBack(s, cell.value, rest);
      assert s.field + cell.value == cell.value;
    }
  }

  /** The state in the last field of a record. */
  function InLast(s: State, cells: seq<Cell>): State
    requires cells != []
  {
    s.(row := s.row + Values(cells)[..|cells| - 1], field := cells[|cells| - 1].value)
  }

  lemma CommaEndsField(s: State, rest: string)
    requires !s.quoted
    ensures Scan(s, "," + rest) == Scan(EndField(s), rest)
  {
    assert ("," + rest)[1..] == rest;
  }

  lemma InLastAfter(s: State, cells: seq<Cell>)
    requires |cells| > 1 && s.field == ""
    ensures InLast(EndField(s.(field := cells[0].value)), cells[1..]) == InLast(s, cells)
  {
    assert EndField(s.(field := cells[0].value)).row + Values(cells[1..])[..|cells| - 2] == s.row + Values(cells)[..|cells| - 1];
  }

  lemma {:induction false} CellsReadBack(s: State, cells: seq<Cell>, rest: string)
    requires !s.quoted && s.field == "" && cells != [] && (forall cell <- cells :: Writable(cell))
    requires rest != "" ==> rest[0] != '"'
    ensures Scan(s, CellsText(cells) + rest) == Scan(InLast(s, cells), rest)
    decreases |cells|
  {
    assert cells[0] in cells;
    if |cells| == 1 {
      CellReadsBack(s, cells[0], rest);
      assert s.row + Values(cells)[..0] == s.row;
    } else {
      var more := CellsText(cells[1..]) + rest;
      assert CellsText(cells) + rest == CellText(cells[0]) + ("," + more);
      CellReadsBack(s, cells[0], "," + more);
      CommaEndsField(s.(field := cells[0].value), more);
      CellsReadBack(EndField(s.(field := cells[0].value)), cells[1..], rest);
      InLastAfter(s, cells);
    }
  }

  lemma {:induction false} LastValue(cells: seq<Cell>)
    requires cells != []
    ensures Values(cells)[..|cells| - 1] + [cells[|cells| - 1].value] == Values(cells)
  {
    if |cells| > 1 {
      LastValue(cells[1..]);
      assert Values(cells)[..|cells| - 1] == [cells[0].value] + Values(cells[1..])[..|cells| - 2];
    }
  }

  lemma LastEndsRow(s: State, cells: seq<Cell>)
    requires cells != [] && s.row == [] && s.field == ""
    ensures EndRow(InLast(s, cells)) == s.(rows := s.rows + [Values(cells)])
  {
    LastValue(cells);
    assert s.row + Values(cells)[..|cells| - 1] + [cells[|cells| - 1].value] == Values(cells);
  }

  lemma BreakEndsRow(s: State, carriage: bool, rest: string)
    requires !s.quoted
    ensures Scan(s, BreakText(carriage) + rest) == Scan(EndRow(s), rest)
  {
    assert (BreakText(carriage) + rest)[|BreakText(carriage)|..] == rest;
  }

  /** A line and its break: one more row. */
  lemma LineReadsBack(s: State, line: Line, rest: string)
    requires !s.quoted && s.field == "" && s.row == [] && line.cells != [] && forall cell <- line.cells :: Writable(cell)
    ensures Scan(s, CellsText(line.cells) + BreakText(line.carriage) + rest) == Scan(s.(rows := s.rows + [Values(line.cells)]), rest)
  {
    var ending := BreakText(line.carriage) + rest;
    assert CellsText(line.cells) + BreakText(line.carriage) + rest == CellsText(line.cells) + ending;
    CellsReadBack(s, line.cells, ending);
    BreakEndsRow(InLast(s, line.cells), line.carriage, rest);
    LastEndsRow(s, line.cells);
  }

  lemma RowsAfter(rows: seq<Row>, lines: seq<Line>)
    requires lines != []
    ensures rows + [Values(lines[0].cells)] + Rows(lines[1..]) == rows + Rows(lines)
  {
  }

  lemma {:induction false} LinesReadBack(s: State, lines: seq<Line>)
    requires !s.quoted && s.field == "" && s.row == [] && Printable(lines)
    ensures Scan(s, Text(lines)) == Some(s.rows + Rows(lines))
    decreases |lines|
  {
    if lines == [] {
      assert s.rows + [] == s.rows;
    } else {
      LineReadsBack(s, lines[0], Text(lines[1..]));
      LinesReadBack(s.(rows := s.rows + [Values(lines[0].cells)]), lines[1..]);
      RowsAfter(s.rows, lines);
    }
  }

  /** Reading undoes writing: rows over any characters, each with at least one field, come back
      exactly, whichever fields are quoted and whichever line break ends each record. */
  lemma ReadingUndoesWriting(lines: seq<Line>)
    requires Printable(lines)
    ensures Scan(Start, Text(lines)) == Some(Rows(lines))
  {
    LinesReadBack(Start, lines);
    assert [] + Rows(lines) == Rows(lines);
  }

  /** Section 2 lets the last record go without a break. It then comes back exactly when it is
      not a single empty field. */
  lemma LastWithoutBreakIff(lines: seq<Line>, last: seq<Cell>)
    requires Printable(lines) && last != [] && forall cell <- last :: Writable(cell)
    ensures Scan(Start, Text(lines) + CellsText(last)) == Some(Rows(lines) + [Values(last)]) <==> Values(last) != [""]
  {
    BreaklessReadsBack(Start, lines, last);
    assert [] + Rows(lines) == Rows(lines);
    assert |Rows(lines)| != |Rows(lines) + [Values(last)]|;
  }

  function LastRow(last: seq<Cell>): seq<Row> {
    if Values(last) == [""] then [] else [Values(last)]
  }

  lemma {:induction false} BreaklessReadsBack(s: State, lines: seq<Line>, last: seq<Cell>)
    requires !s.quoted && s.field == "" && s.row == [] && Printable(lines) && last != [] && forall cell <- last :: Writable(cell)
    ensures Scan(s, Text(lines) + CellsText(last)) == Some(s.rows + Rows(lines) + LastRow(last))
    decreases |lines|
  {
    if lines == [] {
      assert Text(lines) + CellsText(last) == CellsText(last) + "";
      LastReadsBack(s, last);
      assert s.rows + [] == s.rows;
    } else {
      var rest := Text(lines[1..]) + CellsText(last);
      TextAfter(lines, CellsText(last));
      LineReadsBack(s, lines[0], rest);
      BreaklessReadsBack(s.(rows := s.rows + [Values(lines[0].cells)]), lines[1..], last);
      RowsAfter(s.rows, lines);
    }
  }

  lemma TextAfter(lines: seq<Line>, last: string)
    requires Printable(lines) && lines != []
    ensures Text(lines) + last == CellsText(lines[0].cells) + BreakText(lines[0].carriage) + (Text(lines[1..]) + last)
  {
  }

  lemma LastReadsBack(s: State, last: seq<Cell>)
    requires !s.quoted && s.field == "" && s.row == [] && last != [] && forall cell <- last :: Writable(cell)
    ensures Scan(s, CellsText(last) + "") == Some(s.rows + LastRow(last))
  {
    CellsReadBack(s, last, "");
    LastEndsRow(s, last);
    LastValue(last);
    assert s.rows + [] == s.rows;
  }
}
