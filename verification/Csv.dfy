/** The CSV export of the audit log, and a reader for the quoting rules of section 2 of RFC 4180 with a line
    feed as the line break. */
module Csv {

  import opened Wrappers

  // --- printing ---

  predicate NeedsQuotes(value: string) { ',' in value || '"' in value || '\n' in value }

  /** Every quote twice. */
  function Doubled(value: string): string {
    if value == "" then ""
    else (if value[0] == '"' then "\"\"" else [value[0]]) + Doubled(value[1..])
  }

  function EscapeCSV(value: string): string {
    if NeedsQuotes(value) then "\"" + Doubled(value) + "\"" else value
  }

  /** A value is quoted only if it needs to be: if it holds a comma, a quote or a line feed. */
  lemma QuotedOnlyIfNeeded(value: string)
    ensures EscapeCSV(value) == value <==> ',' !in value && '"' !in value && '\n' !in value
  {
    if NeedsQuotes(value) {
      DoubledGrows(value);
      assert |EscapeCSV(value)| == |Doubled(value)| + 2;
    }
  }

  lemma {:induction false} DoubledGrows(value: string)
    ensures |Doubled(value)| >= |value|
  {
    if value == "" {
    } else {
      DoubledGrows(value[1..]);
    }
  }

  /** Array.prototype.join after escaping every field. */
  function PrintRow(fields: seq<string>): string {
    if fields == [] then ""
    else if |fields| == 1 then EscapeCSV(fields[0])
    else EscapeCSV(fields[0]) + "," + PrintRow(fields[1..])
  }

  function PrintTable(rows: seq<seq<string>>): string {
    if rows == [] then ""
    else if |rows| == 1 then PrintRow(rows[0])
    else PrintRow(rows[0]) + "\n" + PrintTable(rows[1..])
  }

  datatype Log = Log(createdAt: string, severity: string, action: string, eventType: Option<string>,
                     userId: Option<string>, machineId: Option<string>, details: Option<string>)

  function OrEmpty(s: Option<string>): string { if s.Some? then s.value else "" }

  function RowOf(log: Log): (row: seq<string>)
    ensures |row| == 7
  {
    [log.createdAt, log.severity, log.action, OrEmpty(log.eventType), OrEmpty(log.userId),
     OrEmpty(log.machineId), OrEmpty(log.details)]
  }

  function RowsOf(logs: seq<Log>): (rows: seq<seq<string>>)
    ensures |rows| == |logs| && forall i :: 0 <= i < |logs| ==> rows[i] == RowOf(logs[i])
  {
    seq(|logs|, i requires 0 <= i < |logs| => RowOf(logs[i]))
  }

  function DownloadCSV(headers: seq<string>, logs: seq<Log>): string {
    PrintTable([headers] + RowsOf(logs))
  }

  // --- reading ---

  datatype Mode =
    | FieldStart  // nothing of the field read yet
    | Plain       // inside an unquoted field
    | Quoted      // inside a quoted field
    | QuoteSeen   // after a quote inside a quoted field: the end of it, or half of a doubled quote
    | Bad

  datatype Reader = Reader(mode: Mode, records: seq<seq<string>>, row: seq<string>, field: string)

  const FRESH := Reader(FieldStart, [], [], "")

  function EndField(r: Reader): Reader { Reader(FieldStart, r.records, r.row + [r.field], "") }

  function EndRecord(r: Reader): Reader { Reader(FieldStart, r.records + [r.row + [r.field]], [], "") }

  function Read(r: Reader, c: char): Reader {
    match r.mode
    case FieldStart =>
      if c == ',' then EndField(r)
      else if c == '\n' then EndRecord(r)
      else if c == '"' then r.(mode := Quoted)
      else r.(mode := Plain, field := r.field + [c])
    case Plain =>
      if c == ',' then EndField(r)
      else if c == '\n' then EndRecord(r)
      else if c == '"' then r.(mode := Bad)
      else r.(field := r.field + [c])
    case Quoted =>
      if c == '"' then r.(mode := QuoteSeen) else r.(field := r.field + [c])
    case QuoteSeen =>
      if c == '"' then r.(mode := Quoted, field := r.field + [c])
      else if c == ',' then EndField(r)
      else if c == '\n' then EndRecord(r)
      else r.(mode := Bad)
    case Bad => r
  }

  function ReadAll(r: Reader, text: string): Reader
    decreases |text|
  {
    if text == "" then r else ReadAll(Read(r, text[0]), text[1..])
  }

  /** The last record may or may not have an ending line break. */
  function Finish(r: Reader): Option<seq<seq<string>>> {
    match r.mode
    case FieldStart => Some(if r.row == [] then r.records else r.records + [r.row + [r.field]])
    case Plain => Some(r.records + [r.row + [r.field]])
    case Quoted => None
    case QuoteSeen => Some(r.records + [r.row + [r.field]])
    case Bad => None
  }

  function Parse(text: string): Option<seq<seq<string>>> { Finish(ReadAll(FRESH, text)) }

  // --- reading back what was printed ---

  lemma {:induction false} ReadConcat(r: Reader, a: string, b: string)
    ensures ReadAll(r, a + b) == ReadAll(ReadAll(r, a), b)
    decreases |a|
  {
    if a == "" {
      assert a + b == b;
    } else {
      assert (a + b)[0] == a[0] && (a + b)[1..] == a[1..] + b;
      ReadConcat(Read(r, a[0]), a[1..], b);
    }
  }

  lemma ReadThen(r: Reader, c: char, text: string)
    ensures ReadAll(r, [c] + text) == ReadAll(Read(r, c), text)
  {
    assert ([c] + text)[0] == c && ([c] + text)[1..] == text;
  }

  /** Text without special characters is taken as it is. */
  lemma {:induction false} PlainText(r: Reader, text: string)
    requires r.mode == Plain && !NeedsQuotes(text)
    ensures ReadAll(r, text) == r.(field := r.field + text)
    decreases |text|
  {
    if text == "" {
      assert r.field + text == r.field;
    } else {
      PlainText(Read(r, text[0]), text[1..]);
      assert r.field + [text[0]] + text[1..] == r.field + text;
    }
  }

  lemma DoubledHead(text: string)
    requires text != ""
    ensures Doubled(text) == if text[0] == '"' then [text[0]] + ([text[0]] + Doubled(text[1..])) else [text[0]] + Doubled(text[1..])
  {
  }

  lemma QuotedChar(r: Reader, c: char)
    requires r.mode == Quoted
    ensures (if c == '"' then Read(Read(r, c), c) else Read(r, c)) == r.(field := r.field + [c])
  {
  }

  /** Inside quotes, doubled text is taken as the original. */
  lemma {:induction false} QuotedText(r: Reader, text: string)
    requires r.mode == Quoted
    ensures ReadAll(r, Doubled(text)) == r.(field := r.field + text)
    decreases |text|
  {
    if text == "" {
      assert r.field + text == r.field;
    } else {
      var next := r.(field := r.field + [text[0]]);
      hide ReadAll, Read, Doubled;
      QuotedText(next, text[1..]);
      assert next.field + text[1..] == r.field + text;
      DoubledHead(text);
      QuotedChar(r, text[0]);
      if text[0] == '"' {
        ReadThen(r, text[0], [text[0]] + Doubled(text[1..]));
        ReadThen(Read(r, text[0]), text[0], Doubled(text[1..]));
      } else {
        ReadThen(r, text[0], Doubled(text[1..]));
      }
    }
  }

  /** The reader has read all of one field, the last of `row`, and waits for what follows it. */
  ghost predicate Holding(r: Reader, records: seq<seq<string>>, row: seq<string>) {
    EndOfField(r) && r.records == records && r.row + [r.field] == row
  }

  predicate EndOfField(r: Reader) {
    && (r.mode == FieldStart || r.mode == Plain || r.mode == QuoteSeen)
    && (r.mode == FieldStart <==> r.field == "")
  }

  /** All records, if the text ended here. */
  function Complete(r: Reader): seq<seq<string>> { r.records + [r.row + [r.field]] }

  lemma FieldReadsBack(records: seq<seq<string>>, row: seq<string>, value: string)
    ensures Holding(ReadAll(Reader(FieldStart, records, row, ""), EscapeCSV(value)), records, row + [value])
  {
    var r := Reader(FieldStart, records, row, "");
    if NeedsQuotes(value) {
      var inner := r.(mode := Quoted);
      assert EscapeCSV(value) == ['"'] + (Doubled(value) + ['"']);
      ReadThen(r, '"', Doubled(value) + ['"']);
      ReadConcat(inner, Doubled(value), ['"']);
      QuotedText(inner, value);
      ReadThen(inner.(field := value), '"', "");
      assert "" + value == value;
      assert ['"'] + "" == ['"'];
    } else if value != "" {
      assert EscapeCSV(value) == [value[0]] + value[1..];
      ReadThen(r, value[0], value[1..]);
      PlainText(Reader(Plain, records, row, [value[0]]), value[1..]);
      assert "" + [value[0]] == [value[0]];
    }
  }

  lemma Separators(r: Reader, records: seq<seq<string>>, row: seq<string>)
    requires Holding(r, records, row)
    ensures Read(r, ',') == Reader(FieldStart, records, row, "")
    ensures Read(r, '\n') == Reader(FieldStart, records + [row], [], "")
  {
  }

  lemma RowSplit(fields: seq<string>)
    requires |fields| > 1
    ensures PrintRow(fields) == EscapeCSV(fields[0]) + ([','] + PrintRow(fields[1..]))
  {
    hide EscapeCSV;
  }

  lemma RowOfOne(field: string)
    ensures PrintRow([field]) == EscapeCSV(field)
  {
    hide EscapeCSV;
  }

  lemma {:induction false} RowReadsBack(records: seq<seq<string>>, row: seq<string>, fields: seq<string>)
    requires fields != []
    ensures Holding(ReadAll(Reader(FieldStart, records, row, ""), PrintRow(fields)), records, row + fields)
    decreases |fields|
  {
    var r := Reader(FieldStart, records, row, "");
    FieldReadsBack(records, row, fields[0]);
    hide Read, ReadAll, Holding, EscapeCSV, PrintRow;
    if |fields| == 1 {
      RowOfOne(fields[0]);
      assert fields == [fields[0]];
    } else {
      var after := ReadAll(r, EscapeCSV(fields[0]));
      Separators(after, records, row + [fields[0]]);
      RowSplit(fields);
      ReadConcat(r, EscapeCSV(fields[0]), [','] + PrintRow(fields[1..]));
      ReadThen(after, ',', PrintRow(fields[1..]));
      RowReadsBack(records, row + [fields[0]], fields[1..]);
      assert row + [fields[0]] + fields[1..] == row + fields;
    }
  }

  /** After a printed row and a line break the reader starts afresh, with one record more. */
  lemma RowThenText(records: seq<seq<string>>, row: seq<string>, text: string)
    requires row != []
    ensures ReadAll(Reader(FieldStart, records, [], ""), PrintRow(row) + (['\n'] + text))
         == ReadAll(Reader(FieldStart, records + [row], [], ""), text)
  {
    var r := Reader(FieldStart, records, [], "");
    RowReadsBack(records, [], row);
    assert [] + row == row;
    hide ReadAll, Read, Holding, PrintRow;
    var after := ReadAll(r, PrintRow(row));
    Separators(after, records, row);
    ReadConcat(r, PrintRow(row), ['\n'] + text);
    ReadThen(after, '\n', text);
  }

  lemma LastRow(records: seq<seq<string>>, row: seq<string>)
    requires row != []
    ensures var r := ReadAll(Reader(FieldStart, records, [], ""), PrintRow(row));
            EndOfField(r) && Complete(r) == records + [row]
  {
    hide ReadAll, PrintRow;
    RowReadsBack(records, [], row);
    assert [] + row == row;
  }

  lemma TableSplit(rows: seq<seq<string>>)
    requires |rows| > 1
    ensures PrintTable(rows) == PrintRow(rows[0]) + (['\n'] + PrintTable(rows[1..]))
  {
    hide PrintRow;
  }

  lemma TableOfOne(row: seq<string>)
    ensures PrintTable([row]) == PrintRow(row)
  {
    hide PrintRow;
  }

  lemma {:induction false} TableReadsBack(records: seq<seq<string>>, rows: seq<seq<string>>)
    requires rows != [] && forall i :: 0 <= i < |rows| ==> rows[i] != []
    ensures var r := ReadAll(Reader(FieldStart, records, [], ""), PrintTable(rows));
            EndOfField(r) && Complete(r) == records + rows
    decreases |rows|
  {
    hide ReadAll, EndOfField, Complete, PrintRow, PrintTable;
    if |rows| == 1 {
      LastRow(records, rows[0]);
      TableOfOne(rows[0]);
      assert [rows[0]] == rows;
    } else {
      RowThenText(records, rows[0], PrintTable(rows[1..]));
      TableSplit(rows);
      TableReadsBack(records + [rows[0]], rows[1..]);
      assert records + [rows[0]] + rows[1..] == records + rows;
    }
  }

  /** Any table whose rows have fields reads back as it was; except that a last row of one empty field looks
      like the ending line break of the row before it. */
  lemma PrintedTableReadsBack(rows: seq<seq<string>>)
    requires rows != [] && forall i :: 0 <= i < |rows| ==> rows[i] != []
    ensures Parse(PrintTable(rows)) == Some(rows) <==> rows[|rows| - 1] != [""]
  {
    TableReadsBack([], rows);
    assert [] + rows == rows;
    FinishedIs(ReadAll(FRESH, PrintTable(rows)));
  }

  lemma FinishedIs(r: Reader)
    requires EndOfField(r)
    ensures Finish(r) == Some(Complete(r)) <==> Complete(r)[|Complete(r)| - 1] != [""]
  {
    assert Complete(r)[|Complete(r)| - 1] == r.row + [r.field];
    assert |r.row + [r.field]| == |r.row| + 1 && (r.row + [r.field])[|r.row|] == r.field;
    assert r.row == [] ==> r.row + [r.field] == [r.field];
    assert |r.records| < |Complete(r)|;
  }

  /** The exported file reads back as the seven headers and the seven columns of every log entry. */
  lemma ExportReadsBack(headers: seq<string>, logs: seq<Log>)
    requires |headers| == 7
    ensures Parse(DownloadCSV(headers, logs)) == Some([headers] + RowsOf(logs))
    ensures |RowsOf(logs)| == |logs|
    ensures forall i :: 0 <= i < |logs| ==>
              RowsOf(logs)[i] == [logs[i].createdAt, logs[i].severity, logs[i].action, OrEmpty(logs[i].eventType),
                                  OrEmpty(logs[i].userId), OrEmpty(logs[i].machineId), OrEmpty(logs[i].details)]
    ensures OrEmpty(None) == "" && forall text :: OrEmpty(Some(text)) == text
  {
    var rows := [headers] + RowsOf(logs);
    assert forall i :: 0 <= i < |rows| ==> |rows[i]| == 7;
    PrintedTableReadsBack(rows);
  }
}
