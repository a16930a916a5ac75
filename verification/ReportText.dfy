/** The text of the recall report, and what a reader can tell from a cut of it: the cells as
    `csvCell` prints them, lines that end in CRLF, and the closing `end` row. */
module ReportText {
  import opened Sequences
  import opened ReportSink
  import CsvText

  // ---- the printer -------------------------------------------------------

  /** A cell: empty, text, or a number, instant or date already printed. */
  datatype Cell = Null | Text(value: string) | Plain(printed: string)

  const HEADERS := [
    "section", "client_code", "sku_code", "sku_name", "uom", "batch_code", "expiry_date", "warehouse_code",
    "location", "event_ist", "during_recall", "client_order_ref", "channel_order_ref", "consignee_legal_name",
    "consignee_gstin", "destination_city", "destination_state", "destination_pincode", "carrier", "awb",
    "vendor_name", "reason", "quantity", "meta_field", "meta_value"]

  /** The formula guard: a leading quote before what a spreadsheet would execute. */
  function Guarded(value: string): string {
    if value != [] && value[0] in "=+-@\t\r" then "'" + value else value
  }

  predicate NeedsQuotes(text: string) { '"' in text || ',' in text || '\r' in text || '\n' in text }

  /** `csvCell`. */
  function TextCell(value: string): string {
    var guarded := Guarded(value);
    if NeedsQuotes(guarded) then "\"" + CsvText.Doubled(guarded) + "\"" else guarded
  }

  function CellText(cell: Cell): string {
    match cell
    case Null => ""
    case Text(value) => TextCell(value)
    case Plain(printed) => printed
  }

  function RowText(cells: seq<Cell>): string { CsvText.Join(Map(cells, CellText), ',') }

  function LineOf(cells: seq<Cell>): string { RowText(cells) + "\r" + "\n" }

  function TextOfHeader(header: string): Cell { Text(header) }

  function Decimal(n: nat): string {
    if n < 10 then ["0123456789"[n]] else Decimal(n / 10) + ["0123456789"[n % 10]]
  }

  function EndCells(count: nat): seq<Cell> {
    [Text("end")] + seq(22, _ => Null) + [Text("row_count"), Text(Decimal(count))]
  }

  /** A line of the file; `cells` says what a row holds. */
  function TextOf(cells: nat -> seq<Cell>): Line -> string {
    (line: Line) =>
      match line
      case Head => "\U{FEFF}" + LineOf(Map(HEADERS, TextOfHeader))
      case Row(id) => LineOf(cells(id))
      case EndRow(count) => LineOf(EndCells(count))
  }

  function FileText(cells: nat -> seq<Cell>, lines: seq<Line>): string { FlatMap(lines, TextOf(cells)) }

  /** Rows as the report builds them: one cell per column, the first their section, which is
      never `end`; numbers and dates print without quotes or line breaks. */
  ghost predicate Lawful(cells: nat -> seq<Cell>) {
    forall id :: LawfulRow(cells(id)) && cells(id)[0].value != "end"
  }

  ghost predicate LawfulRow(row: seq<Cell>) {
    && |row| == |HEADERS| && row[0].Text?
    && forall cell :: cell in row && cell.Plain? ==> '"' !in cell.printed && '\n' !in cell.printed
  }

  // ---- the reader --------------------------------------------------------

  /** A reader that splits a text into records at the line feeds outside quotes: the record in
      hand, and the last one completed. */
  datatype Scanner = Scanner(quoted: bool, current: string, last: Option<string>)

  const FRESH := Scanner(false, "", None)

  function Step(s: Scanner, c: char): Scanner {
    if c == '"' then Scanner(!s.quoted, s.current + [c], s.last)
    else if c == '\n' && !s.quoted then Scanner(false, "", Some(s.current + [c]))
    else s.(current := s.current + [c])
  }

  function Feed(s: Scanner, text: string): Scanner {
    if text == [] then s else Step(Feed(s, text[..|text| - 1]), text[|text| - 1])
  }

  /** The text ends with a complete record, and that record's section is `end`. */
  predicate ShowsEnd(text: string) {
    var s := Feed(FRESH, text);
    s.current == "" && s.last.Some? && "end," <= s.last.value
  }

  lemma {:induction false} FeedAppend(s: Scanner, a: string, b: string)
    ensures Feed(s, a + b) == Feed(Feed(s, a), b)
  {
    if b == [] {
      assert a + b == a;
    } else {
      assert (a + b)[..|a + b| - 1] == a + b[..|b| - 1];
      FeedAppend(s, a, b[..|b| - 1]);
    }
  }

  lemma {:induction false} FeedOne(s: Scanner, c: char)
    ensures Feed(s, [c]) == Step(s, c)
  {
    assert [c][..0] == [];
  }

  predicate Executes(c: char) { c == '=' || c == '+' || c == '-' || c == '@' || c == '\t' || c == '\r' }

  /** The guard leaves no cell that a spreadsheet would execute, touches no other, and can be
      undone: it only ever puts one quote in front. */
  lemma {:induction false} GuardIsExact(value: string)
    ensures var guarded := Guarded(value);
            && (guarded != [] ==> !Executes(guarded[0]))
            && (guarded == value <==> value == [] || !Executes(value[0]))
            && (guarded != value ==> guarded == "'" + value)
  {
    if value != [] { ExecutesMeans(value[0]); }
  }

  lemma {:induction false} ExecutesMeans(c: char)
    ensures c in "=+-@\t\r" <==> Executes(c)
  {
    var all := "=+-@\t\r";
    assert all[0] == '=' && all[1] == '+' && all[2] == '-' && all[3] == '@' && all[4] == '\t' && all[5] == '\r';
  }

  /** A text cell reads back, by section 2 of RFC 4180, as its guarded value. */
  lemma {:induction false} CellReadsBack(value: string, row: seq<string>, rows: seq<seq<string>>)
    ensures CsvText.Holding(
              CsvText.Feed(CsvText.Reading(CsvText.Start, "", row, rows), TextCell(value)), Guarded(value), row, rows)
  {
    var guarded := Guarded(value);
    if NeedsQuotes(guarded) {
      CsvText.FeedQuotedText(guarded, row, rows);
    } else {
      assert forall i :: 0 <= i < |guarded| ==> guarded[i] in guarded;
      CsvText.FeedBare(guarded, row, rows);
    }
  }

  function Number(digits: string): nat {
    if digits == "" then 0
    else
      var last := digits[|digits| - 1];
      10 * Number(digits[..|digits| - 1]) + (if '0' <= last <= '9' then last as int - '0' as int else 0)
  }

  /** The count of the closing row reads back as the number of the rows. */
  lemma {:induction false} CountReadsBack(n: nat)
    ensures Number(Decimal(n)) == n && forall c :: c in Decimal(n) ==> '0' <= c <= '9'
    decreases n
  {
    DigitReads(n % 10);
    if n < 10 {
      assert Decimal(n)[..0] == "";
    } else {
      CountReadsBack(n / 10);
      assert Decimal(n)[..|Decimal(n)| - 1] == Decimal(n / 10);
    }
  }

  lemma {:induction false} DigitReads(d: nat)
    requires d < 10
    ensures '0' <= "0123456789"[d] <= '9' && "0123456789"[d] as int - '0' as int == d
  {
  }

  // ---- a line is one record ----------------------------------------------

  /** Read outside quotes, `text` only lengthens the record in hand. */
  ghost predicate Quiet(text: string) {
    forall current, last :: Feed(Scanner(false, current, last), text) == Scanner(false, current + text, last)
  }

  lemma {:induction false} QuietAppend(a: string, b: string)
    requires Quiet(a) && Quiet(b)
    ensures Quiet(a + b)
  {
    forall current, last ensures Feed(Scanner(false, current, last), a + b) == Scanner(false, current + (a + b), last) {
      FeedAppend(Scanner(false, current, last), a, b);
      Associate(current, a, b);
    }
  }

  lemma {:induction false} QuietChars(text: string)
    requires '"' !in text && '\n' !in text
    ensures Quiet(text)
  {
    forall current, last ensures Feed(Scanner(false, current, last), text) == Scanner(false, current + text, last) {
      PlainFeeds(text, current, last);
    }
  }

  lemma {:induction false} PlainFeeds(text: string, current: string, last: Option<string>)
    requires '"' !in text && '\n' !in text
    ensures Feed(Scanner(false, current, last), text) == Scanner(false, current + text, last)
  {
    if text == [] {
      assert current + text == current;
    } else {
      var front, c := text[..|text| - 1], text[|text| - 1];
      FrontAndLast(text);
      PlainFeeds(front, current, last);
      Associate(current, front, [c]);
    }
  }

  lemma {:induction false} QuotedFeeds(text: string, current: string, last: Option<string>)
    ensures Feed(Scanner(true, current, last), CsvText.Doubled(text))
         == Scanner(true, current + CsvText.Doubled(text), last)
  {
    if text == [] {
      assert current + CsvText.Doubled(text) == current;
    } else {
      var front, c := text[..|text| - 1], text[|text| - 1];
      var before, two := CsvText.Doubled(front), CsvText.DoubledChar(c);
      QuotedFeeds(front, current, last);
      FeedAppend(Scanner(true, current, last), before, two);
      OneQuotedFeeds(c, current + before, last);
      Associate(current, before, two);
    }
  }

  lemma {:induction false} OneQuotedFeeds(c: char, current: string, last: Option<string>)
    ensures Feed(Scanner(true, current, last), CsvText.DoubledChar(c))
         == Scanner(true, current + CsvText.DoubledChar(c), last)
  {
    var s := Scanner(true, current, last);
    if c == '"' {
      FeedAppend(s, ['"'], ['"']);
      FeedOne(s, '"');
      FeedOne(Step(s, '"'), '"');
      Associate(current, ['"'], ['"']);
    } else {
      FeedOne(s, c);
    }
  }

  lemma {:induction false} QuietQuoted(text: string)
    ensures Quiet("\"" + CsvText.Doubled(text) + "\"")
  {
    var inner := CsvText.Doubled(text);
    forall current, last
      ensures Feed(Scanner(false, current, last), "\"" + inner + "\"")
           == Scanner(false, current + ("\"" + inner + "\""), last)
    {
      var s := Scanner(false, current, last);
      FeedAppend(s, "\"" + inner, "\"");
      FeedAppend(s, "\"", inner);
      FeedOne(s, '"');
      QuotedFeeds(text, current + ['"'], last);
      FeedOne(Scanner(true, current + ['"'] + inner, last), '"');
      assert current + ['"'] + inner + ['"'] == current + ("\"" + inner + "\"");
    }
  }

  lemma {:induction false} QuietCell(cell: Cell)
    requires cell.Plain? ==> '"' !in cell.printed && '\n' !in cell.printed
    ensures Quiet(CellText(cell))
  {
    match cell
    case Null => QuietChars("");
    case Plain(printed) => QuietChars(printed);
    case Text(value) =>
      if NeedsQuotes(Guarded(value)) { QuietQuoted(Guarded(value)); } else { QuietChars(Guarded(value)); }
  }

  lemma {:induction false} QuietJoin(parts: seq<string>)
    requires forall part :: part in parts ==> Quiet(part)
    ensures Quiet(CsvText.Join(parts, ','))
  {
    if parts == [] {
      QuietChars("");
    } else {
      var front, last := parts[..|parts| - 1], parts[|parts| - 1];
      FrontAndLast(parts);
      assert last in parts;
      if front != [] {
        QuietJoin(front);
        QuietChars([',']);
        QuietAppend(CsvText.Join(front, ','), [',']);
        QuietAppend(CsvText.Join(front, ',') + [','], last);
      }
    }
  }

  /** All of a line but its line feed lengthens the record in hand. */
  lemma {:induction false} QuietLine(row: seq<Cell>)
    requires LawfulRow(row)
    ensures Quiet(RowText(row) + "\r")
  {
    var parts := Map(row, CellText);
    forall part | part in parts ensures Quiet(part) {
      var i :| 0 <= i < |parts| && parts[i] == part;
      QuietCell(row[i]);
    }
    QuietJoin(parts);
    QuietChars("\r");
    QuietAppend(RowText(row), "\r");
  }

  // ---- cuts inside a line ------------------------------------------------

  lemma {:induction false} RecordsAreNoLonger(s: Scanner, text: string)
    ensures |Feed(s, text).current| <= |s.current| + |text|
  {
    if text != [] { RecordsAreNoLonger(s, text[..|text| - 1]); }
  }

  /** A text that only lengthened the record did so at every point. */
  lemma {:induction false} GrowsAllAlong(s: Scanner, text: string, k: nat)
    requires k <= |text| && |Feed(s, text).current| == |s.current| + |text|
    ensures |Feed(s, text[..k]).current| == |s.current| + k && Feed(s, text[..k]).last == Feed(s, text).last
    decreases |text|
  {
    if k == |text| {
      assert text[..k] == text;
    } else {
      var front := text[..|text| - 1];
      RecordsAreNoLonger(s, front);
      GrowsAllAlong(s, front, k);
      assert front[..k] == text[..k];
    }
  }

  /** A line of the file: some quiet text, then a line feed. */
  ghost predicate IsLine(line: string) { line != [] && line[|line| - 1] == '\n' && Quiet(line[..|line| - 1]) }

  /** Read from its start, a line completes one record, itself, and no cut of it completes any. */
  lemma {:induction false} LineIsARecord(line: string, last: Option<string>, k: nat)
    requires IsLine(line) && k <= |line|
    ensures Feed(Scanner(false, "", last), line) == Scanner(false, "", Some(line))
    ensures 0 < k < |line| ==> Feed(Scanner(false, "", last), line[..k]).current != ""
  {
    var s, body := Scanner(false, "", last), line[..|line| - 1];
    assert Feed(s, body) == Scanner(false, "" + body, last);
    FrontAndLast(line);
    assert "" + body == body;
    if k < |line| {
      GrowsAllAlong(s, body, k);
      assert body[..k] == line[..k];
    }
  }

  // ---- the lines of the file -----------------------------------------------

  lemma {:induction false} LineOfIsLine(row: seq<Cell>)
    requires LawfulRow(row)
    ensures IsLine(LineOf(row))
  {
    QuietLine(row);
    assert LineOf(row)[..|LineOf(row)| - 1] == RowText(row) + "\r";
  }

  lemma {:induction false} HeaderIsLine(cells: nat -> seq<Cell>)
    ensures IsLine(TextOf(cells)(Head))
  {
    assert LawfulRow(Map(HEADERS, TextOfHeader));
    MarkedLineIsLine(Map(HEADERS, TextOfHeader));
  }

  lemma {:induction false} MarkedLineIsLine(row: seq<Cell>)
    requires LawfulRow(row)
    ensures IsLine("\U{FEFF}" + LineOf(row))
  {
    var line := "\U{FEFF}" + LineOf(row);
    QuietLine(row);
    QuietChars("\U{FEFF}");
    QuietAppend("\U{FEFF}", RowText(row) + "\r");
    assert line[..|line| - 1] == "\U{FEFF}" + (RowText(row) + "\r");
  }

  lemma {:induction false} JoinHead(parts: seq<string>)
    requires |parts| > 1
    ensures CsvText.Join(parts, ',') == parts[0] + [','] + CsvText.Join(parts[1..], ',')
  {
    var front, last := parts[..|parts| - 1], parts[|parts| - 1];
    if |parts| == 2 {
      assert front == [parts[0]] && parts[1..] == [last];
    } else {
      JoinHead(front);
      assert parts[1..][..|parts| - 2] == front[1..] && parts[1..][|parts| - 2] == last;
    }
  }

  lemma {:induction false} LineHead(row: seq<Cell>)
    requires |row| > 1
    ensures exists rest: string :: LineOf(row) == CellText(row[0]) + "," + rest
  {
    var parts := Map(row, CellText);
    JoinHead(parts);
    var rest := CsvText.Join(parts[1..], ',') + "\r" + "\n";
    assert LineOf(row) == CellText(row[0]) + "," + rest;
  }

  lemma {:induction false} FirstCellShows(value: string, rest: string)
    requires ',' !in value
    ensures "end," <= value + "," + rest ==> value == "end"
  {
    var text := value + "," + rest;
    if |value| > 3 {
      assert text[3] == value[3] && value[3] in value;
    } else if |value| == 3 {
      assert text[..3] == value;
      assert "end,"[..3] == "end";
    } else {
      assert text[|value|] == ',';
    }
  }

  /** A record starts with `end,` if and only if its section is `end`. */
  lemma {:induction false} SectionShows(value: string, rest: string)
    ensures "end," <= TextCell(value) + "," + rest <==> value == "end"
  {
    var text := TextCell(value) + "," + rest;
    if value == "end" {
      assert Guarded(value) == value && !NeedsQuotes(value);
      assert text[..4] == "end,";
    } else if NeedsQuotes(Guarded(value)) {
      assert text[0] == '"';
    } else if Guarded(value) != value {
      assert text[0] == '\'';
    } else {
      FirstCellShows(value, rest);
    }
  }

  lemma {:induction false} EndShows(cells: nat -> seq<Cell>, line: Line)
    requires Lawful(cells)
    ensures IsLine(TextOf(cells)(line))
    ensures "end," <= TextOf(cells)(line) <==> line.EndRow?
  {
    match line
    case Head =>
      HeaderIsLine(cells);
      assert TextOf(cells)(line)[0] == '\U{FEFF}';
    case Row(id) =>
      var row := cells(id);
      assert LawfulRow(row) && row[0].value != "end";
      LineOfIsLine(row);
      LineHead(row);
      var rest :| LineOf(row) == CellText(row[0]) + "," + rest;
      SectionShows(row[0].value, rest);
    case EndRow(count) =>
      var row := EndCells(count);
      assert LawfulRow(row);
      LineOfIsLine(row);
      LineHead(row);
      var rest :| LineOf(row) == CellText(row[0]) + "," + rest;
      SectionShows("end", rest);
  }

  // ---- cuts of the file ----------------------------------------------------

  lemma {:induction false} FileScans(cells: nat -> seq<Cell>, lines: seq<Line>)
    requires Lawful(cells)
    ensures Feed(FRESH, FileText(cells, lines))
         == Scanner(false, "", if lines == [] then None else Some(TextOf(cells)(lines[|lines| - 1])))
  {
    if lines != [] {
      var front, last := lines[..|lines| - 1], lines[|lines| - 1];
      var before, line := FileText(cells, front), TextOf(cells)(last);
      FileScans(cells, front);
      EndShows(cells, last);
      FeedAppend(FRESH, before, line);
      LineIsARecord(line, Feed(FRESH, before).last, 0);
    }
  }

  /** Cutting a file off inside or at the end of its last line. */
  lemma {:induction false} CutInLastLine(cells: nat -> seq<Cell>, front: seq<Line>, last: Line, k: nat)
    requires Lawful(cells) && 0 < k <= |TextOf(cells)(last)|
    ensures ShowsEnd(FileText(cells, front) + TextOf(cells)(last)[..k]) <==> last.EndRow? && k == |TextOf(cells)(last)|
  {
    var before, line := FileText(cells, front), TextOf(cells)(last);
    FileScans(cells, front);
    EndShows(cells, last);
    FeedAppend(FRESH, before, line[..k]);
    LineIsARecord(line, Feed(FRESH, before).last, k);
    assert k == |line| ==> line[..k] == line;
  }

  /** No cut of a file without its closing row shows one. */
  lemma {:induction false} OpenFilesStayOpen(cells: nat -> seq<Cell>, lines: seq<Line>)
    requires Lawful(cells)
    ensures (forall line :: line in lines ==> !line.EndRow?) ==>
              forall n :: 0 <= n <= |FileText(cells, lines)| ==> !ShowsEnd(FileText(cells, lines)[..n])
  {
    if lines == [] {
      assert FileText(cells, lines)[..0] == [];
    } else if forall line :: line in lines ==> !line.EndRow? {
      var front, last := lines[..|lines| - 1], lines[|lines| - 1];
      var before, line := FileText(cells, front), TextOf(cells)(last);
      FrontAndLast(lines);
      assert FileText(cells, lines) == before + line && last in lines;
      OpenFilesStayOpen(cells, front);
      forall n | 0 <= n <= |before + line| ensures !ShowsEnd((before + line)[..n]) {
        if n <= |before| {
          assert (before + line)[..n] == before[..n];
        } else {
          CutInLastLine(cells, front, last, n - |before|);
          assert (before + line)[..n] == before + line[..n - |before|];
        }
      }
    }
  }

  /** A cut of the report anywhere, even inside the closing row's count or between its CR and
      its LF, shows a closing row if and only if it is the whole report. */
  lemma {:induction false} CutShowsEndOnlyWhenWhole(cells: nat -> seq<Cell>, body: seq<Line>, count: nat, n: nat)
    requires Lawful(cells) && forall line :: line in body ==> !line.EndRow?
    requires n <= |FileText(cells, body + [EndRow(count)])|
    ensures ShowsEnd(FileText(cells, body + [EndRow(count)])[..n]) <==> n == |FileText(cells, body + [EndRow(count)])|
  {
    var before, line := FileText(cells, body), TextOf(cells)(EndRow(count));
    FlatMapSnoc(body, EndRow(count), TextOf(cells));
    EndShows(cells, EndRow(count));
    if n <= |before| {
      OpenFilesStayOpen(cells, body);
      assert (before + line)[..n] == before[..n];
    } else {
      CutInLastLine(cells, body, EndRow(count), n - |before|);
      assert (before + line)[..n] == before + line[..n - |before|];
    }
  }

  /** However a download ended, and wherever the socket cut what was handed to it, the client's
      file shows a closing row if and only if it is the whole report. */
  lemma {:induction false} DeliveredFileTells(cells: nat -> seq<Cell>, chunks: seq<Chunk>, events: seq<Event>, n: nat)
    requires Lawful(cells) && WellClosed(chunks)
    requires Exec(chunks, events).Some? && Exec(chunks, events).value.run.Over?
    requires n <= |FileText(cells, Lines(Exec(chunks, events).value.sink.sent))|
    ensures var delivered := FileText(cells, Lines(Exec(chunks, events).value.sink.sent))[..n];
            ShowsEnd(delivered) <==> delivered == FileText(cells, Lines(chunks))
  {
    OutcomeIsExact(chunks, events);
    var sent := Exec(chunks, events).value.sink.sent;
    var k := |sent|;
    assert sent == chunks[..k];
    LinesSplit(chunks, k);
    FlatMapAppend(Lines(sent), Lines(chunks[k..]), TextOf(cells));
    assert FileText(cells, Lines(chunks))[..n] == FileText(cells, Lines(sent))[..n];
    WellClosedTells(cells, chunks, n);
  }

  lemma {:induction false} WellClosedTells(cells: nat -> seq<Cell>, chunks: seq<Chunk>, n: nat)
    requires Lawful(cells) && WellClosed(chunks) && n <= |FileText(cells, Lines(chunks))|
    ensures var whole := FileText(cells, Lines(chunks));
            ShowsEnd(whole[..n]) <==> whole[..n] == whole
  {
    var all, whole := Lines(chunks), FileText(cells, Lines(chunks));
    LastLine(chunks);
    var body, last := all[..|all| - 1], all[|all| - 1];
    FrontAndLast(all);
    assert last.EndRow? && forall line :: line in body ==> !line.EndRow?;
    CutShowsEndOnlyWhenWhole(cells, body, last.count, n);
    assert n == |whole| ==> whole[..n] == whole;
  }

}
