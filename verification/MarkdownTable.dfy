/** The Markdown table of copy-in and copy-out cases, read into records. */
module MarkdownTable {
  import opened Wrappers
  import opened Text

  // ---------------------------------------------------------------- Python's strings and lists

  /** The characters str.strip removes. */
  predicate IsSpace(c: char) {
    var n := c as int;
    || 9 <= n <= 13 || 28 <= n <= 32 || n == 0x85 || n == 0xA0 || n == 0x1680 || 0x2000 <= n <= 0x200A
    || n == 0x2028 || n == 0x2029 || n == 0x202F || n == 0x205F || n == 0x3000
  }

  /** The white space of str.strip, character by character. */
  const SPACES: string := "\t\n\U{0B}\U{0C}\r\U{1C}\U{1D}\U{1E}\U{1F} \U{85}\U{A0}\U{1680}" +
    "\U{2000}\U{2001}\U{2002}\U{2003}\U{2004}\U{2005}\U{2006}\U{2007}\U{2008}\U{2009}\U{200A}" +
    "\U{2028}\U{2029}\U{202F}\U{205F}\U{3000}"

  lemma {:induction false} SpacesExactly(c: char)
    ensures IsSpace(c) <==> c in SPACES
  {
  }

  predicate Blank(s: string) {
    forall c | c in s :: IsSpace(c)
  }

  function TrimLeft(s: string): (r: string)
    ensures r == "" || !IsSpace(r[0])
  {
    if s != "" && IsSpace(s[0]) then TrimLeft(s[1..]) else s
  }

  function TrimRight(s: string): (r: string)
    ensures r <= s && (r == "" || !IsSpace(r[|r| - 1]))
  {
    if s != "" && IsSpace(s[|s| - 1]) then TrimRight(s[..|s| - 1]) else s
  }

  function Strip(s: string): string {
    TrimRight(TrimLeft(s))
  }

  /** parts[1:-1] */
  function Inner<X>(parts: seq<X>): seq<X> {
    if |parts| < 2 then [] else parts[1..|parts| - 1]
  }

  datatype Field = Field(key: string, value: string)

  /** A dictionary in insertion order. */
  type Record = seq<Field>

  function Put(d: Record, key: string, value: string): Record {
    if d == [] then [Field(key, value)]
    else if d[0].key == key then [Field(key, value)] + d[1..]
    else [d[0]] + Put(d[1..], key, value)
  }

  // ---------------------------------------------------------------- the conversion

  function Lookup(d: Record, key: string): Option<string> {
    if d == [] then None else if d[0].key == key then Some(d[0].value) else Lookup(d[1..], key)
  }

  function KeysOf(d: Record): (keys: seq<string>)
    ensures |keys| == |d| && forall i | 0 <= i < |d| :: keys[i] == d[i].key
  {
    seq(|d|, i requires 0 <= i < |d| => d[i].key)
  }

  /** As in a dictionary, the last value that was put under a key is the one found there, and a key keeps its
      place. */
  lemma {:induction false} PutThenLookup(d: Record, key: string, value: string, other: string)
    ensures Lookup(Put(d, key, value), other) == if other == key then Some(value) else Lookup(d, other)
    ensures KeysOf(Put(d, key, value)) == KeysOf(d) + if Lookup(d, key).None? then [key] else []
    decreases |d|
  {
    if d != [] {
      KeysCons(d);
      if d[0].key == key {
        KeysCons(Put(d, key, value));
      } else {
        PutThenLookup(d[1..], key, value, other);
        assert Put(d, key, value)[1..] == Put(d[1..], key, value);
        KeysCons(Put(d, key, value));
      }
    }
  }

  lemma {:induction false} KeysCons(d: Record)
    requires d != []
    ensures KeysOf(d) == [d[0].key] + KeysOf(d[1..])
  {
  }

  function RowRecord(header: seq<string>, row: seq<string>, n: nat): Record
    requires n <= |row| && n <= |header|
  {
    if n == 0 then [] else Put(RowRecord(header, row, n - 1), Strip(header[n - 1]), Strip(row[n - 1]))
  }

  predicate Fits(header: seq<string>, data: seq<seq<string>>) {
    forall row | row in data :: |row| <= |header|
  }

  function RowRecords(header: seq<string>, data: seq<seq<string>>): (r: seq<Record>)
    requires Fits(header, data)
    ensures |r| == |data| && forall i | 0 <= i < |data| :: r[i] == RowRecord(header, data[i], |data[i]|)
  {
    seq(|data|, i requires 0 <= i < |data| => RowRecord(header, data[i], |data[i]|))
  }

  /** A cell without a header fails the whole conversion. */
  function Records(header: seq<string>, data: seq<seq<string>>): Option<seq<Record>> {
    if Fits(header, data) then Some(RowRecords(header, data)) else None
  }

  function Rows(table: string): (rows: seq<string>)
    ensures rows != []
  {
    Split(Strip(table), '\n')
  }

  function Cells(row: string): seq<string> {
    Inner(Split(row, '|'))
  }

  function CellsOf(rows: seq<string>): (r: seq<seq<string>>)
    ensures |r| == |rows| && forall i | 0 <= i < |rows| :: r[i] == Cells(rows[i])
  {
    seq(|rows|, i requires 0 <= i < |rows| => Cells(rows[i]))
  }

  function Data(table: string): seq<seq<string>> {
    if |Rows(table)| < 2 then [] else CellsOf(Rows(table)[2..])
  }

  function Converted(table: string): Option<seq<Record>> {
    Records(Cells(Rows(table)[0]), Data(table))
  }

  method FillRecords(header: seq<string>, data: seq<seq<string>>) returns (r: Option<seq<Record>>)
    ensures r == Records(header, data)
  {
    var jsonData: seq<Record> := [];
    for k := 0 to |data|
      invariant |jsonData| == k
      invariant forall j | 0 <= j < k ::
                  |data[j]| <= |header| && jsonData[j] == RowRecord(header, data[j], |data[j]|)
    {
      var row := data[k];
      var jsonRow: Record := [];
      for i := 0 to |row|
        invariant i <= |header| && jsonRow == RowRecord(header, row, i)
      {
        if i >= |header| {
          assert row in data;
          return None;
        }
        jsonRow := Put(jsonRow, Strip(header[i]), Strip(row[i]));
      }
      jsonData := jsonData + [jsonRow];
    }
    assert Fits(header, data);
    assert jsonData == RowRecords(header, data);
    return Some(jsonData);
  }

  method MarkdownTableToJson(table: string) returns (r: Option<seq<Record>>)
    ensures r == Converted(table)
  {
    var rows := Rows(table);
    var header := Cells(rows[0]);
    var data := if |rows| < 2 then [] else CellsOf(rows[2..]);
    r := FillRecords(header, data);
  }

  // ---------------------------------------------------------------- writing a table and reading it back

  function RowLine(cells: seq<string>): string {
    "|" + Join(cells, '|') + "|"
  }

  function RowLines(rows: seq<seq<string>>): (r: seq<string>)
    ensures |r| == |rows| && forall i | 0 <= i < |rows| :: r[i] == RowLine(rows[i])
  {
    seq(|rows|, i requires 0 <= i < |rows| => RowLine(rows[i]))
  }

  /** The lines of a table: header, separator, data. */
  function Lines(header: seq<string>, separator: seq<string>, rows: seq<seq<string>>): seq<string> {
    [RowLine(header), RowLine(separator)] + RowLines(rows)
  }

  predicate IsRow(cells: seq<string>) {
    cells != [] && forall cell | cell in cells :: '|' !in cell && '\n' !in cell
  }

  predicate DistinctNames(header: seq<string>) {
    forall i, j | 0 <= i < j < |header| :: Strip(header[i]) != Strip(header[j])
  }

  lemma {:induction false} TrimLeftBlank(lead: string, s: string)
    requires Blank(lead) && (s == "" || !IsSpace(s[0]))
    ensures TrimLeft(lead + s) == s
    decreases |lead|
  {
    if lead == "" {
      assert lead + s == s;
    } else {
      assert (lead + s)[1..] == lead[1..] + s;
      assert IsSpace((lead + s)[0]);
      TrimLeftBlank(lead[1..], s);
    }
  }

  lemma {:induction false} TrimRightBlank(s: string, trail: string)
    requires Blank(trail) && (s == "" || !IsSpace(s[|s| - 1]))
    ensures TrimRight(s + trail) == s
    decreases |trail|
  {
    if trail == "" {
      assert s + trail == s;
    } else {
      var whole := s + trail;
      assert whole[..|whole| - 1] == s + trail[..|trail| - 1];
      assert whole[|whole| - 1] == trail[|trail| - 1];
      TrimRightBlank(s, trail[..|trail| - 1]);
    }
  }

  predicate Trimmed(s: string) {
    s == "" || (!IsSpace(s[0]) && !IsSpace(s[|s| - 1]))
  }

  /** Blanks on either side are all that is stripped. */
  lemma {:induction false} StripBlanks(lead: string, s: string, trail: string)
    requires Blank(lead) && Trimmed(s) && Blank(trail)
    ensures Strip(lead + s + trail) == s
  {
    if s == "" {
      assert lead + s + trail == (lead + trail) + "";
      TrimLeftBlank(lead + trail, "");
    } else {
      assert lead + s + trail == lead + (s + trail);
      TrimLeftBlank(lead, s + trail);
      TrimRightBlank(s, trail);
    }
  }

  /** The outer bars leave an empty part at either end. */
  lemma {:induction false} CellsOfRowLine(cells: seq<string>)
    requires IsRow(cells)
    ensures Cells(RowLine(cells)) == cells
  {
    var line := RowLine(cells);
    assert line == "" + ['|'] + (Join(cells, '|') + ['|'] + "");
    SplitConcat("", Join(cells, '|') + ['|'] + "", '|');
    SplitConcat(Join(cells, '|'), "", '|');
    SplitJoin(cells, '|');
    assert Split(line, '|') == [""] + cells + [""];
  }

  lemma {:induction false} JoinAvoids(cells: seq<string>, c: char, d: char)
    requires c != d && forall cell | cell in cells :: c !in cell
    ensures c !in Join(cells, d)
    decreases |cells|
  {
    if |cells| > 1 {
      assert forall cell | cell in cells[1..] :: cell in cells;
      JoinAvoids(cells[1..], c, d);
    }
  }

  lemma {:induction false} RowLineHasNoNewline(cells: seq<string>)
    requires IsRow(cells)
    ensures '\n' !in RowLine(cells)
  {
    JoinAvoids(cells, '\n', '|');
  }

  lemma {:induction false} JoinEnds(lines: seq<string>)
    requires lines != [] && forall line | line in lines :: line != "" && line[0] == '|' && line[|line| - 1] == '|'
    ensures var s := Join(lines, '\n'); s != "" && s[0] == '|' && s[|s| - 1] == '|'
    decreases |lines|
  {
    if |lines| > 1 {
      JoinEnds(lines[1..]);
    }
  }

  lemma {:induction false} LineOf(header: seq<string>, separator: seq<string>, rows: seq<seq<string>>, line: string)
    requires IsRow(header) && IsRow(separator) && (forall row | row in rows :: IsRow(row))
    requires line in Lines(header, separator, rows)
    ensures '\n' !in line && line != "" && line[0] == '|' && line[|line| - 1] == '|'
  {
    var lines := Lines(header, separator, rows);
    var i :| 0 <= i < |lines| && lines[i] == line;
    RowLineHasNoNewline(if i == 0 then header else if i == 1 then separator else rows[i - 2]);
  }

  predicate IsLine(line: string) {
    '\n' !in line && line != "" && line[0] == '|' && line[|line| - 1] == '|'
  }

  lemma {:induction false} RowsOfLines(lead: string, lines: seq<string>, trail: string)
    requires Blank(lead) && Blank(trail) && lines != [] && forall line | line in lines :: IsLine(line)
    ensures Rows(lead + Join(lines, '\n') + trail) == lines
  {
    JoinEnds(lines);
    assert !IsSpace('|');
    StripBlanks(lead, Join(lines, '\n'), trail);
    SplitJoin(lines, '\n');
  }

  /** The rows found in a table are the lines it was written with. */
  lemma {:induction false} RowsOfTable(lead: string, header: seq<string>, separator: seq<string>,
                                       rows: seq<seq<string>>, trail: string)
    requires Blank(lead) && Blank(trail)
    requires IsRow(header) && IsRow(separator) && (forall row | row in rows :: IsRow(row))
    ensures Rows(lead + Join(Lines(header, separator, rows), '\n') + trail) == Lines(header, separator, rows)
  {
    var lines := Lines(header, separator, rows);
    forall line | line in lines
      ensures IsLine(line)
    {
      LineOf(header, separator, rows, line);
    }
    RowsOfLines(lead, lines, trail);
  }

  lemma {:induction false} PutNew(d: Record, key: string, value: string)
    requires forall field | field in d :: field.key != key
    ensures Put(d, key, value) == d + [Field(key, value)]
    decreases |d|
  {
    if d != [] {
      PutNew(d[1..], key, value);
    }
  }

  lemma {:induction false} NameIsNew(before: Record, header: seq<string>)
    requires |before| < |header| && DistinctNames(header)
    requires forall j | 0 <= j < |before| :: before[j].key == Strip(header[j])
    ensures forall field | field in before :: field.key != Strip(header[|before|])
  {
    forall field | field in before
      ensures field.key != Strip(header[|before|])
    {
      var j :| 0 <= j < |before| && before[j] == field;
      assert Strip(header[j]) != Strip(header[|before|]);
    }
  }

  predicate FieldsUpTo(record: Record, header: seq<string>, row: seq<string>, n: nat)
    requires n <= |row| && n <= |header|
  {
    |record| == n && forall j | 0 <= j < n :: record[j] == Field(Strip(header[j]), Strip(row[j]))
  }

  lemma {:induction false} PutField(before: Record, header: seq<string>, row: seq<string>, n: nat)
    requires n < |row| && n < |header| && DistinctNames(header) && FieldsUpTo(before, header, row, n)
    ensures FieldsUpTo(Put(before, Strip(header[n]), Strip(row[n])), header, row, n + 1)
  {
    NameIsNew(before, header);
    PutNew(before, Strip(header[n]), Strip(row[n]));
  }

  lemma {:induction false} RowRecordFields(header: seq<string>, row: seq<string>, n: nat)
    requires n <= |row| && n <= |header| && DistinctNames(header)
    ensures FieldsUpTo(RowRecord(header, row, n), header, row, n)
    decreases n
  {
    if n > 0 {
      RowRecordFields(header, row, n - 1);
      PutField(RowRecord(header, row, n - 1), header, row, n - 1);
    }
  }

  predicate FieldsOf(record: Record, header: seq<string>, row: seq<string>)
    requires |row| <= |header|
  {
    FieldsUpTo(record, header, row, |row|)
  }

  /** Any table with distinct headers, however its cells are padded: every data row gives one record, in order,
      with the header and the stripped cell of every column it has. */
  lemma {:induction false} TableRoundTrip(lead: string, header: seq<string>, separator: seq<string>,
                                          rows: seq<seq<string>>, trail: string)
    requires Blank(lead) && Blank(trail)
    requires IsRow(header) && IsRow(separator) && (forall row | row in rows :: IsRow(row) && |row| <= |header|)
    requires DistinctNames(header)
    ensures var r := Converted(lead + Join(Lines(header, separator, rows), '\n') + trail);
            && r.Some? && |r.value| == |rows|
            && forall i | 0 <= i < |rows| :: FieldsOf(r.value[i], header, rows[i])
  {
    var table := lead + Join(Lines(header, separator, rows), '\n') + trail;
    RowsOfTable(lead, header, separator, rows, trail);
    CellsOfRowLine(header);
    forall i | 0 <= i < |rows|
      ensures Data(table)[i] == rows[i]
    {
      CellsOfRowLine(rows[i]);
    }
    assert Data(table) == rows;
    forall i | 0 <= i < |rows|
      ensures FieldsOf(RowRecord(header, rows[i], |rows[i]|), header, rows[i])
    {
      RowRecordFields(header, rows[i], |rows[i]|);
    }
  }

  // ---------------------------------------------------------------- records, written and read

  function Padded(cells: seq<string>): (r: seq<string>)
    ensures |r| == |cells| && forall i | 0 <= i < |cells| :: r[i] == " " + cells[i] + " "
  {
    seq(|cells|, i requires 0 <= i < |cells| => " " + cells[i] + " ")
  }

  function PaddedRows(rows: seq<seq<string>>): (r: seq<seq<string>>)
    ensures |r| == |rows| && forall i | 0 <= i < |rows| :: r[i] == Padded(rows[i])
  {
    seq(|rows|, i requires 0 <= i < |rows| => Padded(rows[i]))
  }

  function Dashes(header: seq<string>): (r: seq<string>)
    ensures |r| == |header| && forall cell | cell in r :: cell == "---"
  {
    seq(|header|, i => "---")
  }

  /** Markdown for a header and rows of cells. */
  function Render(header: seq<string>, rows: seq<seq<string>>): string {
    Join(Lines(Padded(header), Dashes(header), PaddedRows(rows)), '\n') + "\n"
  }

  function Zip(header: seq<string>, row: seq<string>): (r: Record)
    requires |row| == |header|
    ensures |r| == |row| && forall j | 0 <= j < |row| :: r[j] == Field(header[j], row[j])
  {
    seq(|row|, j requires 0 <= j < |row| => Field(header[j], row[j]))
  }

  function Zips(header: seq<string>, rows: seq<seq<string>>): (r: seq<Record>)
    requires forall row | row in rows :: |row| == |header|
    ensures |r| == |rows| && forall i | 0 <= i < |rows| :: r[i] == Zip(header, rows[i])
  {
    seq(|rows|, i requires 0 <= i < |rows| => Zip(header, rows[i]))
  }

  predicate CleanRow(cells: seq<string>) {
    IsRow(cells) && forall cell | cell in cells :: Trimmed(cell)
  }

  lemma {:induction false} PaddedRow(cells: seq<string>)
    requires CleanRow(cells)
    ensures IsRow(Padded(cells))
    ensures forall j | 0 <= j < |cells| :: Strip(Padded(cells)[j]) == cells[j]
  {
    forall j | 0 <= j < |cells|
      ensures Strip(Padded(cells)[j]) == cells[j] && '|' !in Padded(cells)[j] && '\n' !in Padded(cells)[j]
    {
      assert cells[j] in cells;
      StripBlanks(" ", cells[j], " ");
    }
  }

  lemma {:induction false} PaddedFields(record: Record, header: seq<string>, row: seq<string>)
    requires CleanRow(header) && CleanRow(row) && |row| == |header|
    requires FieldsOf(record, Padded(header), Padded(row))
    ensures record == Zip(header, row)
  {
    PaddedRow(header);
    PaddedRow(row);
    assert forall j | 0 <= j < |row| :: record[j] == Zip(header, row)[j];
  }

  lemma {:induction false} RenderedRow(header: seq<string>, rows: seq<seq<string>>, row: seq<string>)
    requires forall row | row in rows :: CleanRow(row) && |row| == |header|
    requires row in PaddedRows(rows)
    ensures IsRow(row) && |row| == |header|
  {
    var i :| 0 <= i < |rows| && PaddedRows(rows)[i] == row;
    PaddedRow(rows[i]);
  }

  lemma {:induction false} PaddedNames(header: seq<string>)
    requires CleanRow(header) && forall i, j | 0 <= i < j < |header| :: header[i] != header[j]
    ensures DistinctNames(Padded(header))
  {
    PaddedRow(header);
  }

  lemma {:induction false} PaddedRecords(records: seq<Record>, header: seq<string>, rows: seq<seq<string>>)
    requires CleanRow(header) && forall row | row in rows :: CleanRow(row) && |row| == |header|
    requires |records| == |rows|
    requires forall i | 0 <= i < |rows| ::
               |Padded(rows[i])| <= |Padded(header)| && FieldsOf(records[i], Padded(header), Padded(rows[i]))
    ensures records == Zips(header, rows)
  {
    forall i | 0 <= i < |rows|
      ensures records[i] == Zips(header, rows)[i]
    {
      PaddedFields(records[i], header, rows[i]);
    }
  }

  lemma {:induction false} PaddedRoundTrip(lead: string, header: seq<string>, separator: seq<string>,
                                           rows: seq<seq<string>>, trail: string)
    requires CleanRow(header) && IsRow(separator) && Blank(lead) && Blank(trail)
    requires forall i, j | 0 <= i < j < |header| :: header[i] != header[j]
    requires forall row | row in rows :: CleanRow(row) && |row| == |header|
    ensures Converted(lead + Join(Lines(Padded(header), separator, PaddedRows(rows)), '\n') + trail) ==
            Some(Zips(header, rows))
  {
    PaddedRow(header);
    PaddedNames(header);
    forall row | row in PaddedRows(rows)
      ensures IsRow(row) && |row| == |header|
    {
      RenderedRow(header, rows, row);
    }
    TableRoundTrip(lead, Padded(header), separator, PaddedRows(rows), trail);
    PaddedRecords(Converted(lead + Join(Lines(Padded(header), separator, PaddedRows(rows)), '\n') + trail).value,
                  header, rows);
  }

  /** Reading undoes writing. */
  lemma {:induction false} RecordsRoundTrip(header: seq<string>, rows: seq<seq<string>>)
    requires CleanRow(header) && (forall i, j | 0 <= i < j < |header| :: header[i] != header[j])
    requires forall row | row in rows :: CleanRow(row) && |row| == |header|
    ensures Converted(Render(header, rows)) == Some(Zips(header, rows))
  {
    PaddedRoundTrip("", header, Dashes(header), rows, "\n");
    var table := Join(Lines(Padded(header), Dashes(header), PaddedRows(rows)), '\n');
    assert "" + table + "\n" == table + "\n";
  }
}
