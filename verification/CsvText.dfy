/** The demo seed's CSV printer (`csvOf`), and the reader section 2 of RFC 4180 describes
    (rules 5 to 7: quoting, and doubled quotes), with LF between records as the printer writes.
    A bare field holds no CR, LF, comma or quote, and a break after the last record is optional
    (rule 2), so a text that ends in one has no further record. */
module CsvText {
  import opened Sequences

  // ---- the printer -------------------------------------------------------

  predicate NeedsQuotes(cell: string) { '"' in cell || ',' in cell }

  function DoubledChar(c: char): string { if c == '"' then ['"'] + ['"'] else [c] }

  /** `cell.replace(/"/g, '""')`. */
  function Doubled(cell: string): string {
    if cell == [] then []
    else Doubled(cell[..|cell| - 1]) + DoubledChar(cell[|cell| - 1])
  }

  function CellText(cell: string): string {
    if NeedsQuotes(cell) then "\"" + Doubled(cell) + "\"" else cell
  }

  function Join(parts: seq<string>, separator: char): string {
    if parts == [] then ""
    else if |parts| == 1 then parts[0]
    else Join(parts[..|parts| - 1], separator) + [separator] + parts[|parts| - 1]
  }

  function RowText(row: seq<string>): string { Join(Map(row, CellText), ',') }

  /** The file: `table` is the catalogue header followed by the rows. */
  function CsvOf(table: seq<seq<string>>): string { Join(Map(table, RowText), '\n') }

  // ---- the reader --------------------------------------------------------

  /** Where the reader stands in a field: before it, in a bare one, inside quotes, or after a
      quote that may close the field or be the first of a doubled pair. */
  datatype Mode = Start | Bare | Quoted | Closing

  datatype Reader =
    | Reading(mode: Mode, cell: string, row: seq<string>, rows: seq<seq<string>>)
    | Broken

  const BEGIN := Reading(Start, "", [], [])

  function EndCell(r: Reader): Reader
    requires r.Reading?
  {
    Reading(Start, "", r.row + [r.cell], r.rows)
  }

  function EndRow(r: Reader): Reader
    requires r.Reading?
  {
    Reading(Start, "", [], r.rows + [r.row + [r.cell]])
  }

  function Step(r: Reader, c: char): Reader {
    if r.Broken? then r
    else if r.mode == Quoted then
      if c == '"' then r.(mode := Closing) else r.(cell := r.cell + [c])
    else if c == ',' then EndCell(r)
    else if c == '\n' then EndRow(r)
    else if c == '\r' then Broken
    else if r.mode == Start then
      if c == '"' then r.(mode := Quoted) else r.(mode := Bare, cell := [c])
    else if r.mode == Bare then
      if c == '"' then Broken else r.(cell := r.cell + [c])
    else
      if c == '"' then r.(mode := Quoted, cell := r.cell + ['"']) else Broken
  }

  function Feed(r: Reader, text: string): Reader {
    if text == [] then r else Step(Feed(r, text[..|text| - 1]), text[|text| - 1])
  }

  /** Nothing has been read since the last break. */
  predicate AtBreak(r: Reader) { r.Reading? && r.mode == Start && r.cell == "" && r.row == [] && r.rows != [] }

  /** The records of a text, or None when the text breaks a rule. */
  function Parse(text: string): Option<seq<seq<string>>> {
    var r := Feed(BEGIN, text);
    if r.Broken? || r.mode == Quoted then None
    else if AtBreak(r) then Some(r.rows)
    else Some(r.rows + [r.row + [r.cell]])
  }

  lemma {:induction false} FeedAppend(r: Reader, a: string, b: string)
    ensures Feed(r, a + b) == Feed(Feed(r, a), b)
  {
    if b == [] {
      assert a + b == a;
    } else {
      assert (a + b)[..|a + b| - 1] == a + b[..|b| - 1];
      FeedAppend(r, a, b[..|b| - 1]);
    }
  }

  lemma {:induction false} FeedOne(r: Reader, c: char)
    ensures Feed(r, [c]) == Step(r, c)
  {
    assert [c][..0] == [];
  }

  lemma {:induction false} FeedAcross(r: Reader, a: string, c: char, b: string)
    ensures Feed(r, a + [c] + b) == Feed(Step(Feed(r, a), c), b)
  {
    FeedAppend(r, a + [c], b);
    FeedAppend(r, a, [c]);
    FeedOne(Feed(r, a), c);
  }

  // ---- one cell ----------------------------------------------------------

  /** The reader is past the text of one cell and ready to end it. */
  ghost predicate Holding(r: Reader, cell: string, row: seq<string>, rows: seq<seq<string>>) {
    r.Reading? && r.mode != Quoted && r.cell == cell && r.row == row && r.rows == rows
  }

  lemma {:induction false} FeedDoubledChar(c: char, cell: string, row: seq<string>, rows: seq<seq<string>>)
    ensures Feed(Reading(Quoted, cell, row, rows), DoubledChar(c)) == Reading(Quoted, cell + [c], row, rows)
  {
    var r := Reading(Quoted, cell, row, rows);
    if c == '"' {
      FeedAppend(r, ['"'], ['"']);
      FeedOne(r, '"');
      FeedOne(Step(r, '"'), '"');
    } else {
      FeedOne(r, c);
    }
  }

  lemma {:induction false} FeedDoubled(cell: string, row: seq<string>, rows: seq<seq<string>>)
    ensures Feed(Reading(Quoted, "", row, rows), Doubled(cell)) == Reading(Quoted, cell, row, rows)
  {
    if cell != [] {
      var front, c := cell[..|cell| - 1], cell[|cell| - 1];
      FeedDoubled(front, row, rows);
      FeedDoubledChar(c, front, row, rows);
      FeedAppend(Reading(Quoted, "", row, rows), Doubled(front), DoubledChar(c));
      FrontAndLast(cell);
    }
  }

  /** Characters without meaning to the reader read as themselves. */
  lemma {:induction false} FeedBare(cell: string, row: seq<string>, rows: seq<seq<string>>)
    requires forall i :: 0 <= i < |cell| ==> cell[i] != '"' && cell[i] != ',' && cell[i] != '\n' && cell[i] != '\r'
    ensures Feed(Reading(Start, "", row, rows), cell) == Reading(if cell == "" then Start else Bare, cell, row, rows)
  {
    if cell != [] {
      var n := |cell| - 1;
      FeedBare(cell[..n], row, rows);
      FrontAndLast(cell);
    }
  }

  lemma {:induction false} FeedQuotedText(cell: string, row: seq<string>, rows: seq<seq<string>>)
    ensures Feed(Reading(Start, "", row, rows), "\"" + Doubled(cell) + "\"") == Reading(Closing, cell, row, rows)
  {
    var r := Reading(Start, "", row, rows);
    FeedAppend(r, "\"" + Doubled(cell), "\"");
    FeedAppend(r, "\"", Doubled(cell));
    FeedOne(r, '"');
    FeedDoubled(cell, row, rows);
    FeedOne(Reading(Quoted, cell, row, rows), '"');
  }

  /** A cell reads back exactly unless it holds a line feed or a carriage return, and nothing
      that forces quotes. */
  predicate Readable(cell: string) { '\n' in cell || '\r' in cell ==> NeedsQuotes(cell) }

  lemma {:induction false} FeedCell(cell: string, row: seq<string>, rows: seq<seq<string>>)
    requires Readable(cell)
    ensures Holding(Feed(Reading(Start, "", row, rows), CellText(cell)), cell, row, rows)
  {
    if NeedsQuotes(cell) {
      FeedQuotedText(cell, row, rows);
    } else {
      assert forall i :: 0 <= i < |cell| ==> cell[i] in cell;
      FeedBare(cell, row, rows);
    }
  }

  // ---- rows and tables ---------------------------------------------------

  lemma {:induction false} JoinSnoc(parts: seq<string>, last: string, separator: char)
    requires parts != []
    ensures Join(parts + [last], separator) == Join(parts, separator) + [separator] + last
  {
    assert (parts + [last])[..|parts|] == parts;
  }

  lemma {:induction false} RowTextSnoc(front: seq<string>, last: string)
    requires front != []
    ensures RowText(front + [last]) == RowText(front) + [','] + CellText(last)
  {
    assert Map(front + [last], CellText) == Map(front, CellText) + [CellText(last)];
    JoinSnoc(Map(front, CellText), CellText(last), ',');
  }

  lemma {:induction false} CsvOfOne(row: seq<string>)
    ensures CsvOf([row]) == RowText(row)
  {
  }

  lemma {:induction false} CsvOfSnoc(front: seq<seq<string>>, last: seq<string>)
    requires front != []
    ensures CsvOf(front + [last]) == CsvOf(front) + ['\n'] + RowText(last)
  {
    assert Map(front + [last], RowText) == Map(front, RowText) + [RowText(last)];
    JoinSnoc(Map(front, RowText), RowText(last), '\n');
  }

  /** The reader has taken in all of `row`, its last cell still open. */
  ghost predicate HoldingRow(r: Reader, row: seq<string>, rows: seq<seq<string>>) {
    row != [] && Holding(r, row[|row| - 1], row[..|row| - 1], rows)
  }

  lemma {:induction false} HeldRowCloses(r: Reader, row: seq<string>, rows: seq<seq<string>>)
    requires HoldingRow(r, row, rows)
    ensures r.row + [r.cell] == row
    ensures Step(r, ',') == Reading(Start, "", row, rows)
    ensures Step(r, '\n') == Reading(Start, "", [], rows + [row])
  {
    assert row[..|row| - 1] + [row[|row| - 1]] == row;
  }

  lemma {:induction false} FeedRow(row: seq<string>, rows: seq<seq<string>>)
    requires row != [] && forall cell :: cell in row ==> Readable(cell)
    ensures HoldingRow(Feed(Reading(Start, "", [], rows), RowText(row)), row, rows)
  {
    var r := Reading(Start, "", [], rows);
    var front, last := row[..|row| - 1], row[|row| - 1];
    assert row == front + [last];
    if front == [] {
      assert RowText([last]) == CellText(last);
      FeedCell(last, [], rows);
    } else {
      RowTextSnoc(front, last);
      FeedRow(front, rows);
      FeedAcross(r, RowText(front), ',', CellText(last));
      HeldRowCloses(Feed(r, RowText(front)), front, rows);
      FeedCell(last, front, rows);
    }
  }

  /** Every row has a cell, and every cell that holds a line feed or a carriage return is quoted. */
  ghost predicate SoundRow(row: seq<string>) { row != [] && forall cell :: cell in row ==> Readable(cell) }

  ghost predicate SoundRows(table: seq<seq<string>>) { forall row :: row in table ==> SoundRow(row) }

  /** The last row, when it is not the only one, is more than one empty cell: that would print
      as nothing after the break before it. */
  predicate LastRowShows(table: seq<seq<string>>) { |table| > 1 ==> table[|table| - 1] != [""] }

  ghost predicate Sound(table: seq<seq<string>>) { SoundRows(table) && LastRowShows(table) }

  lemma {:induction false} FeedTable(table: seq<seq<string>>)
    requires table != [] && SoundRows(table)
    ensures HoldingRow(Feed(BEGIN, CsvOf(table)), table[|table| - 1], table[..|table| - 1])
  {
    var front, last := table[..|table| - 1], table[|table| - 1];
    assert table == front + [last] && SoundRow(last);
    if front == [] {
      CsvOfOne(last);
      FeedRow(last, []);
    } else {
      FeedTable(front);
      NextRow(front, last);
    }
  }

  lemma {:induction false} NextRow(front: seq<seq<string>>, last: seq<string>)
    requires front != [] && SoundRow(last)
    requires HoldingRow(Feed(BEGIN, CsvOf(front)), front[|front| - 1], front[..|front| - 1])
    ensures HoldingRow(Feed(BEGIN, CsvOf(front + [last])), last, front)
  {
    CsvOfSnoc(front, last);
    FeedAcross(BEGIN, CsvOf(front), '\n', RowText(last));
    HeldTableCloses(Feed(BEGIN, CsvOf(front)), front);
    FeedRow(last, front);
  }

  lemma {:induction false} HeldTableCloses(r: Reader, table: seq<seq<string>>)
    requires table != [] && HoldingRow(r, table[|table| - 1], table[..|table| - 1])
    ensures Step(r, '\n') == Reading(Start, "", [], table)
    ensures r.rows + [r.row + [r.cell]] == table
  {
    HeldRowCloses(r, table[|table| - 1], table[..|table| - 1]);
    FrontAndLast(table);
  }

  /** A sound table survives the trip. */
  lemma {:induction false} SoundTablesReadBack(table: seq<seq<string>>)
    requires table != [] && Sound(table)
    ensures Parse(CsvOf(table)) == Some(table)
  {
    FeedTable(table);
    HeldTableCloses(Feed(BEGIN, CsvOf(table)), table);
  }

  /** Two tables of sound rows never print the same file, whatever their last rows. */
  lemma {:induction false} CsvOfIsInjective(a: seq<seq<string>>, b: seq<seq<string>>)
    requires a != [] && b != [] && SoundRows(a) && SoundRows(b) && CsvOf(a) == CsvOf(b)
    ensures a == b
  {
    FeedTable(a);
    HeldTableCloses(Feed(BEGIN, CsvOf(a)), a);
    FeedTable(b);
    HeldTableCloses(Feed(BEGIN, CsvOf(b)), b);
  }

  // ---- and no other table does -------------------------------------------

  ghost predicate ReadableRow(row: seq<string>) { forall cell :: cell in row ==> Readable(cell) }

  /** All the reader has behind it is sound, and it can end a cell here; or the text broke a rule. */
  ghost predicate Past(r: Reader) {
    r.Reading? ==>
      && r.mode != Quoted && Readable(r.cell) && ReadableRow(r.row)
      && forall row :: row in r.rows ==> SoundRow(row)
  }

  lemma {:induction false} StaysBroken(text: string)
    ensures Feed(Broken, text) == Broken
  {
    if text != [] { StaysBroken(text[..|text| - 1]); }
  }

  /** Reading a bare text leaves no break, and no carriage return, inside a cell. */
  ghost predicate BareSoFar(r: Reader) {
    Past(r) && (r.Reading? ==> r.mode != Closing && '\n' !in r.cell && '\r' !in r.cell)
  }

  lemma {:induction false} BareTextIsPast(cell: string, r: Reader)
    requires !NeedsQuotes(cell) && BareSoFar(r)
    ensures BareSoFar(Feed(r, cell))
  {
    if cell != [] {
      var front, c := cell[..|cell| - 1], cell[|cell| - 1];
      FrontAndLast(cell);
      assert c in cell;
      BareTextIsPast(front, r);
      BareCharIsPast(Feed(r, front), c);
    }
  }

  lemma {:induction false} BareCharIsPast(r: Reader, c: char)
    requires c != '"' && c != ',' && BareSoFar(r)
    ensures BareSoFar(Step(r, c))
  {
    if r.Reading? && c == '\n' { assert r.row + [r.cell] != []; }
  }

  lemma {:induction false} CellIsPast(cell: string, r: Reader)
    requires Past(r) && (r.Reading? ==> r.mode == Start && r.cell == "")
    ensures Past(Feed(r, CellText(cell)))
  {
    if r.Broken? { StaysBroken(CellText(cell)); }
    else if NeedsQuotes(cell) { FeedQuotedText(cell, r.row, r.rows); }
    else { BareTextIsPast(cell, r); }
  }

  lemma {:induction false} BreaksArePast(r: Reader)
    requires Past(r)
    ensures Past(Step(r, ',')) && (Step(r, ',').Reading? ==> Step(r, ',').mode == Start && Step(r, ',').cell == "")
    ensures Past(Step(r, '\n')) && (Step(r, '\n').Reading? ==> Step(r, '\n').mode == Start && Step(r, '\n').cell == "")
  {
    if r.Reading? {
      forall cell | cell in r.row + [r.cell] ensures Readable(cell) {}
    }
  }

  lemma {:induction false} RowIsPast(row: seq<string>, r: Reader)
    requires Past(r) && (r.Reading? ==> r.mode == Start && r.cell == "")
    ensures Past(Feed(r, RowText(row)))
  {
    if row != [] {
      var front, last := row[..|row| - 1], row[|row| - 1];
      FrontAndLast(row);
      if front == [] {
        assert RowText([last]) == CellText(last);
        CellIsPast(last, r);
      } else {
        RowTextSnoc(front, last);
        RowIsPast(front, r);
        FeedAcross(r, RowText(front), ',', CellText(last));
        BreaksArePast(Feed(r, RowText(front)));
        CellIsPast(last, Step(Feed(r, RowText(front)), ','));
      }
    }
  }

  lemma {:induction false} TableIsPast(table: seq<seq<string>>)
    requires table != []
    ensures Past(Feed(BEGIN, CsvOf(table)))
  {
    var front, last := table[..|table| - 1], table[|table| - 1];
    FrontAndLast(table);
    if front == [] {
      CsvOfOne(last);
      RowIsPast(last, BEGIN);
    } else {
      CsvOfSnoc(front, last);
      TableIsPast(front);
      FeedAcross(BEGIN, CsvOf(front), '\n', RowText(last));
      BreaksArePast(Feed(BEGIN, CsvOf(front)));
      RowIsPast(last, Step(Feed(BEGIN, CsvOf(front)), '\n'));
    }
  }

  /** Whatever was printed, the rows read back are sound. */
  lemma {:induction false} ReadRowsAreSound(table: seq<seq<string>>)
    requires table != [] && Parse(CsvOf(table)).Some?
    ensures SoundRows(Parse(CsvOf(table)).value)
  {
    TableIsPast(table);
    var r := Feed(BEGIN, CsvOf(table));
    assert SoundRow(r.row + [r.cell]);
  }

  /** A last row of one empty cell is not read back. */
  lemma {:induction false} BlankLastRowIsLost(front: seq<seq<string>>)
    requires front != [] && SoundRows(front)
    ensures Parse(CsvOf(front + [[""]])) == Some(front)
  {
    CsvOfSnoc(front, [""]);
    assert RowText([""]) == CellText("") == "";
    FeedTable(front);
    FeedAcross(BEGIN, CsvOf(front), '\n', "");
    HeldTableCloses(Feed(BEGIN, CsvOf(front)), front);
  }

  /** The printed file reads back as the table if and only if the table is sound: every row has
      a cell, no line feed or carriage return sits in a cell without a quote or a comma, and the
      last of several rows is not one empty cell. */
  lemma {:induction false} ReadsBackExactly(table: seq<seq<string>>)
    requires table != []
    ensures Parse(CsvOf(table)) == Some(table) <==> Sound(table)
  {
    if Sound(table) {
      SoundTablesReadBack(table);
    } else if !SoundRows(table) {
      if Parse(CsvOf(table)).Some? { ReadRowsAreSound(table); }
    } else {
      var front := table[..|table| - 1];
      FrontAndLast(table);
      BlankLastRowIsLost(front);
    }
  }

  /** Three tables that do not read back, each a header and a row: a cell with a line feed, a
      cell with a carriage return, and one empty cell. */
  lemma {:induction false} LineBreaksAreLost()
    ensures Parse(CsvOf([["h"], ["a\nb"]])) != Some([["h"], ["a\nb"]])
    ensures Parse(CsvOf([["h"], ["a\rb"]])) != Some([["h"], ["a\rb"]])
    ensures Parse(CsvOf([["h"], [""]])) != Some([["h"], [""]])
  {
    var feed, back := ["a\nb"], ["a\rb"];
    assert feed[0][1] == '\n' && back[0][1] == '\r';
    assert !Readable(feed[0]) && !Readable(back[0]);
    assert feed[0] in feed && back[0] in back;
    assert feed in [["h"], feed] && back in [["h"], back];
    ReadsBackExactly([["h"], feed]);
    ReadsBackExactly([["h"], back]);
    ReadsBackExactly([["h"], [""]]);
  }
}
