// Reading contact exports as comma-separated values. Against the reader stands the writer of section 2
// of RFC 4180, in every style it allows.
module Csv {
  import opened Text

  type Row = seq<string>

  predicate Blank(field: string) {
    forall i :: 0 <= i < |field| ==> IsSpace(field[i])
  }

  predicate BlankRow(row: Row) {
    forall i :: 0 <= i < |row| ==> Blank(row[i])
  }

  function NonBlank(rows: seq<Row>): seq<Row> {
    if rows == [] then []
    else NonBlank(rows[..|rows| - 1]) + (if BlankRow(rows[|rows| - 1]) then [] else [rows[|rows| - 1]])
  }

  // ---- the reader -----------------------------------------------------------------------------------

  datatype State = State(rows: seq<Row>, row: Row, field: string, quoted: bool)

  const START := State([], [], "", false)

  function Scan(st: State, s: string): State
    decreases |s|
  {
    if s == [] then st
    else if st.quoted then
      if s[0] == '"' && |s| > 1 && s[1] == '"' then Scan(st.(field := st.field + "\""), s[2..])
      else if s[0] == '"' then Scan(st.(quoted := false), s[1..])
      else Scan(st.(field := st.field + [s[0]]), s[1..])
    else if s[0] == '"' && st.field == "" then Scan(st.(quoted := true), s[1..])
    else if s[0] == ',' then Scan(st.(row := st.row + [st.field], field := ""), s[1..])
    else if s[0] == '\r' && |s| > 1 && s[1] == '\n' then Scan(EndRow(st), s[2..])
    else if s[0] == '\n' || s[0] == '\r' then Scan(EndRow(st), s[1..])
    else Scan(st.(field := st.field + [s[0]]), s[1..])
  }

  function EndRow(st: State): State {
    State(st.rows + [st.row + [st.field]], [], "", st.quoted)
  }

  function Finish(st: State): seq<Row> {
    NonBlank(if st.field != "" || st.row != [] then st.rows + [st.row + [st.field]] else st.rows)
  }

  function Rows(text: string): seq<Row> {
    Finish(Scan(START, StripBom(text)))
  }

  method CsvRows(text: string) returns (rows: seq<Row>)
    ensures rows == Rows(text)
  {
    var s := StripBom(text);
    var row: Row, field, quoted := [], "", false;
    rows := [];
    var i := 0;
    while i < |s|
      invariant i <= |s|
      invariant Scan(START, s) == Scan(State(rows, row, field, quoted), s[i..])
    {
      var c := s[i];
      assert s[i..][0] == c && s[i..][1..] == s[i + 1..];
      assert i + 1 < |s| ==> s[i..][1] == s[i + 1] && s[i..][2..] == s[i + 2..];
      if quoted {
        if c == '"' && i + 1 < |s| && s[i + 1] == '"' {
          field := field + "\"";
          i := i + 1;
        } else if c == '"' {
          quoted := false;
        } else {
          field := field + [c];
        }
      } else if c == '"' && field == "" {
        quoted := true;
      } else if c == ',' {
        row := row + [field];
        field := "";
      } else if c == '\n' || c == '\r' {
        if c == '\r' && i + 1 < |s| && s[i + 1] == '\n' {
          i := i + 1;
        }
        row := row + [field];
        rows := rows + [row];
        row, field := [], "";
      } else {
        field := field + [c];
      }
      i := i + 1;
    }
    if field != "" || row != [] {
      row := row + [field];
      rows := rows + [row];
    }
    rows := NonBlank(rows);
  }

  // ---- the writer -----------------------------------------------------------------------------------

  // A field is written bare or in quotes; every row ends in a line break of some kind, the last one
  // perhaps in none.
  datatype Field = Field(text: string, inQuotes: bool)
  datatype Line = Line(fields: seq<Field>, end: End)

  // Bare fields hold no separator, quote or line break.
  predicate Plain(s: string) {
    forall i :: 0 <= i < |s| ==> s[i] != ',' && s[i] != '"' && s[i] != '\n' && s[i] != '\r'
  }

  predicate Written(t: seq<Line>) {
    forall k :: 0 <= k < |t| ==>
      && |t[k].fields| > 0
      && (t[k].end == Nothing ==> k == |t| - 1)
      && forall j :: 0 <= j < |t[k].fields| ==> t[k].fields[j].inQuotes || Plain(t[k].fields[j].text)
  }

  function Doubled(s: string): string {
    if s == "" then "" else (if s[0] == '"' then "\"\"" else [s[0]]) + Doubled(s[1..])
  }

  function WriteField(f: Field): string {
    if f.inQuotes then "\"" + Doubled(f.text) + "\"" else f.text
  }

  function WriteFields(fs: seq<Field>): string
    requires |fs| > 0
  {
    if |fs| == 1 then WriteField(fs[0]) else WriteField(fs[0]) + "," + WriteFields(fs[1..])
  }

  function Write(t: seq<Line>): string
    requires Written(t)
  {
    if t == [] then "" else WriteFields(t[0].fields) + WriteEnd(t[0].end) + Write(t[1..])
  }

  function Texts(fs: seq<Field>): Row {
    if fs == [] then [] else [fs[0].text] + Texts(fs[1..])
  }

  function Table(t: seq<Line>): seq<Row> {
    if t == [] then [] else [Texts(t[0].fields)] + Table(t[1..])
  }

  // ---- reading what was written ------------------------------------------------------------------------

  // Where a field ends.
  predicate Delimited(rest: string) {
    rest == "" || rest[0] == ',' || rest[0] == '\n' || rest[0] == '\r'
  }

  lemma {:induction false} ScanPlain(st: State, s: string, rest: string)
    requires !st.quoted && Plain(s)
    ensures Scan(st, s + rest) == Scan(st.(field := st.field + s), rest)
    decreases |s|
  {
    if s == "" {
      assert s + rest == rest && st.field + s == st.field;
    } else {
      assert (s + rest)[0] == s[0] && (s + rest)[1..] == s[1..] + rest;
      ScanPlain(st.(field := st.field + [s[0]]), s[1..], rest);
      assert st.field + [s[0]] + s[1..] == st.field + s;
    }
  }

  lemma {:induction false} ScanDoubled(st: State, s: string, rest: string)
    requires st.quoted && (rest == "" || rest[0] != '"')
    ensures Scan(st, Doubled(s) + "\"" + rest) == Scan(st.(field := st.field + s, quoted := false), rest)
    decreases |s|
  {
    var text := Doubled(s) + "\"" + rest;
    if s == "" {
      assert text == "\"" + rest && text[1..] == rest && st.field + s == st.field;
    } else {
      var more := Doubled(s[1..]) + "\"" + rest;
      if s[0] == '"' {
        assert text == "\"\"" + more && text[2..] == more;
        assert st.field + "\"" + s[1..] == st.field + s;
      } else {
        assert text == [s[0]] + more && text[1..] == more;
        assert st.field + [s[0]] + s[1..] == st.field + s;
      }
      ScanDoubled(st.(field := st.field + [s[0]]), s[1..], rest);
    }
  }

  lemma {:induction false} ScanField(st: State, f: Field, rest: string)
    requires !st.quoted && st.field == "" && Delimited(rest) && (f.inQuotes || Plain(f.text))
    ensures Scan(st, WriteField(f) + rest) == Scan(st.(field := f.text), rest)
  {
    if f.inQuotes {
      var text := WriteField(f) + rest;
      assert text[0] == '"' && text[1..] == Doubled(f.text) + "\"" + rest;
      ScanDoubled(st.(quoted := true), f.text, rest);
      assert st.field + f.text == f.text;
    } else {
      ScanPlain(st, f.text, rest);
      assert st.field + f.text == f.text;
    }
  }

  lemma ScanComma(st: State, rest: string)
    requires !st.quoted
    ensures Scan(st, "," + rest) == Scan(st.(row := st.row + [st.field], field := ""), rest)
  {
    assert ("," + rest)[1..] == rest;
  }

  lemma {:induction false} ScanFields(st: State, fs: seq<Field>, rest: string)
    requires |fs| > 0 && !st.quoted && st.field == "" && (rest == "" || rest[0] == '\n' || rest[0] == '\r')
    requires forall j :: 0 <= j < |fs| ==> fs[j].inQuotes || Plain(fs[j].text)
    ensures var row := Texts(fs);
            |row| == |fs| && Scan(st, WriteFields(fs) + rest) == Scan(st.(row := st.row + row[..|row| - 1], field := row[|row| - 1]), rest)
    decreases |fs|
  {
    hide Scan, WriteField, WriteFields, Plain, Texts;
    if |fs| == 1 {
      OneField(fs);
      ScanField(st, fs[0], rest);
      assert st.row + [] == st.row;
    } else {
      var more := WriteFields(fs[1..]) + rest;
      FieldsCons(fs, rest);
      ScanField(st, fs[0], "," + more);
      ScanComma(st.(field := fs[0].text), more);
      ScanFields(st.(row := st.row + [fs[0].text], field := ""), fs[1..], rest);
      TextsCons(fs);
      var others := Texts(fs[1..]);
      Assoc(st.row, [fs[0].text], others[..|others| - 1]);
    }
  }

  lemma OneField(fs: seq<Field>)
    requires |fs| == 1
    ensures WriteFields(fs) == WriteField(fs[0]) && Texts(fs) == [fs[0].text]
  {
    hide WriteField;
    assert Texts(fs[1..]) == [];
  }

  lemma FieldsCons(fs: seq<Field>, rest: string)
    requires |fs| > 1
    ensures WriteFields(fs) + rest == WriteField(fs[0]) + ("," + (WriteFields(fs[1..]) + rest))
  {
    hide WriteField;
    var a, b := WriteField(fs[0]), WriteFields(fs[1..]);
    assert (a + "," + b) + rest == a + ("," + (b + rest));
  }

  lemma TextsCons(fs: seq<Field>)
    requires |fs| > 1 && |Texts(fs[1..])| == |fs| - 1
    ensures var row, others := Texts(fs), Texts(fs[1..]);
            |row| == |fs| && row[|row| - 1] == others[|others| - 1] && row[..|row| - 1] == [fs[0].text] + others[..|others| - 1]
  {
    var row, others := Texts(fs), Texts(fs[1..]);
    assert row == [fs[0].text] + others;
  }

  // Rows already read do not influence the rest.
  lemma {:induction false} ScanPrefix(rows: seq<Row>, st: State, s: string)
    ensures Scan(st.(rows := rows + st.rows), s) == Scan(st, s).(rows := rows + Scan(st, s).rows)
    decreases |s|
  {
    if s != [] {
      var e := st.rows + [st.row + [st.field]];
      assert rows + st.rows + [st.row + [st.field]] == rows + e;
      if st.quoted {
        if s[0] == '"' && |s| > 1 && s[1] == '"' {
          ScanPrefix(rows, st.(field := st.field + "\""), s[2..]);
        } else if s[0] == '"' {
          ScanPrefix(rows, st.(quoted := false), s[1..]);
        } else {
          ScanPrefix(rows, st.(field := st.field + [s[0]]), s[1..]);
        }
      } else if s[0] == '"' && st.field == "" {
        ScanPrefix(rows, st.(quoted := true), s[1..]);
      } else if s[0] == ',' {
        ScanPrefix(rows, st.(row := st.row + [st.field], field := ""), s[1..]);
      } else if s[0] == '\r' && |s| > 1 && s[1] == '\n' {
        ScanPrefix(rows, EndRow(st), s[2..]);
      } else if s[0] == '\n' || s[0] == '\r' {
        ScanPrefix(rows, EndRow(st), s[1..]);
      } else {
        ScanPrefix(rows, st.(field := st.field + [s[0]]), s[1..]);
      }
    }
  }

  lemma {:induction false} NonBlankConcat(a: seq<Row>, b: seq<Row>)
    ensures NonBlank(a + b) == NonBlank(a) + NonBlank(b)
  {
    if b == [] {
      assert a + b == a;
    } else {
      assert (a + b)[..|a + b| - 1] == a + b[..|b| - 1];
      NonBlankConcat(a, b[..|b| - 1]);
    }
  }

  lemma NonBlankOne(row: Row)
    ensures NonBlank([row]) == if BlankRow(row) then [] else [row]
  {
    var one: seq<Row> := [row];
    assert one[..0] == [];
    assert NonBlank(one[..0]) == [];
  }

  // What a text says after some rows is those rows and what it says by itself.
  lemma {:induction false} FinishAfter(rows: seq<Row>, s: string)
    ensures Finish(Scan(State(rows, [], "", false), s)) == NonBlank(rows) + Finish(Scan(START, s))
  {
    ScanPrefix(rows, START, s);
    assert rows + [] == rows;
    var st := Scan(START, s);
    if st.field != "" || st.row != [] {
      assert rows + st.rows + [st.row + [st.field]] == rows + (st.rows + [st.row + [st.field]]);
      NonBlankConcat(rows, st.rows + [st.row + [st.field]]);
    } else {
      NonBlankConcat(rows, st.rows);
    }
  }

  // A leading line feed is an empty row, which does not count.
  lemma {:induction false} LeadingLineFeed(s: string)
    ensures Finish(Scan(START, "\n" + s)) == Finish(Scan(START, s))
  {
    assert ("\n" + s)[1..] == s;
    assert START.row + [START.field] == [""] && START.rows + [[""]] == [[""]];
    FinishAfter([[""]], s);
    NonBlankOne([""]);
  }

  // What is left to read after a line break: a carriage return takes a line feed along.
  function AfterEnd(e: End, rest: string): string {
    if e == CR && rest != "" && rest[0] == '\n' then rest[1..] else rest
  }

  lemma ScanEnd(st: State, e: End, rest: string)
    requires !st.quoted && e != Nothing
    ensures Scan(st, WriteEnd(e) + rest) == Scan(EndRow(st), AfterEnd(e, rest))
  {
    var text := WriteEnd(e) + rest;
    assert e != CRLF ==> text[1..] == rest;
    assert e == CRLF ==> text[2..] == rest;
    assert e == CR && rest != "" ==> text[2..] == rest[1..];
  }

  lemma AfterEndSaysTheSame(e: End, rest: string)
    ensures Finish(Scan(START, AfterEnd(e, rest))) == Finish(Scan(START, rest))
  {
    if e == CR && rest != "" && rest[0] == '\n' {
      assert rest == "\n" + rest[1..];
      LeadingLineFeed(rest[1..]);
    }
  }

  // A row that has been read but for its end.
  function Unended(row: Row): State
    requires row != []
  {
    State([], row[..|row| - 1], row[|row| - 1], false)
  }

  lemma FinishUnended(row: Row)
    requires row != []
    ensures Finish(Unended(row)) == NonBlank([row]) && EndRow(Unended(row)) == State([row], [], "", false)
  {
    assert row[..|row| - 1] + [row[|row| - 1]] == row;
    NonBlankOne(row);
    if row == [""] {
      assert BlankRow(row);
    }
  }

  lemma {:induction false} ReadsOneLine(line: Line, rest: string)
    requires |line.fields| > 0 && (line.end == Nothing ==> rest == "")
    requires forall j :: 0 <= j < |line.fields| ==> line.fields[j].inQuotes || Plain(line.fields[j].text)
    ensures Finish(Scan(START, WriteFields(line.fields) + WriteEnd(line.end) + rest)) ==
              NonBlank([Texts(line.fields)]) + Finish(Scan(START, rest))
  {
    var more := WriteEnd(line.end) + rest;
    Assoc(WriteFields(line.fields), WriteEnd(line.end), rest);
    ScanFields(START, line.fields, more);
    var row := Texts(line.fields);
    assert [] + row[..|row| - 1] == row[..|row| - 1];
    FinishUnended(row);
    if line.end == Nothing {
      hide Texts, WriteFields, NonBlank;
      assert more == "";
    } else {
      hide Scan, Finish, Texts, WriteFields, NonBlank;
      ScanEnd(Unended(row), line.end, rest);
      FinishAfter([row], AfterEnd(line.end, rest));
      AfterEndSaysTheSame(line.end, rest);
    }
  }

  lemma {:induction false} ReadsAllLines(t: seq<Line>)
    requires Written(t)
    ensures Finish(Scan(START, Write(t))) == NonBlank(Table(t))
    decreases |t|
  {
    if t != [] {
      assert t[0].end == Nothing ==> t[1..] == [];
      assert Written(t[1..]);
      ReadsAllLines(t[1..]);
      ReadsOneLine(t[0], Write(t[1..]));
      NonBlankConcat([Texts(t[0].fields)], Table(t[1..]));
    }
  }

  // Every table, written in any style behind a byte order mark, reads back as its rows that are not
  // blank.
  lemma {:induction false} MarkedRoundTrip(t: seq<Line>)
    requires Written(t)
    ensures Rows([BOM] + Write(t)) == NonBlank(Table(t))
  {
    assert ([BOM] + Write(t))[1..] == Write(t);
    ReadsAllLines(t);
  }

  predicate StartsWithMark(t: seq<Line>)
    requires Written(t)
  {
    Write(t) != "" && Write(t)[0] == BOM
  }

  // The table without the mark its first field starts with.
  function Unmarked(t: seq<Line>): seq<Line>
    requires Written(t) && StartsWithMark(t)
  {
    MarkIsBare(t);
    var fs := t[0].fields;
    [Line([Field(fs[0].text[1..], false)] + fs[1..], t[0].end)] + t[1..]
  }

  lemma MarkIsBare(t: seq<Line>)
    requires Written(t) && StartsWithMark(t)
    ensures t != [] && var first := t[0].fields[0]; !first.inQuotes && first.text != "" && first.text[0] == BOM
  {
    var fs := t[0].fields;
    assert t[0].end == Nothing ==> t[1..] == [];
    var text, end, rest := WriteFields(fs), WriteEnd(t[0].end), Write(t[1..]);
    assert Write(t) == text + end + rest;
    assert text != "" ==> (text + end + rest)[0] == text[0];
  }

  lemma PlainRest(c: char, s: string)
    requires Plain([c] + s)
    ensures Plain(s)
  {
    var t := [c] + s;
    assert forall i :: 0 <= i < |s| ==> s[i] == t[i + 1];
  }

  lemma MarkedFields(fs: seq<Field>, fs': seq<Field>)
    requires |fs| == |fs'| > 0 && fs[1..] == fs'[1..] && !fs[0].inQuotes && !fs'[0].inQuotes && fs[0].text == [BOM] + fs'[0].text
    ensures WriteFields(fs) == [BOM] + WriteFields(fs')
  {
    if |fs| > 1 {
      hide WriteFields;
      var a, b := fs'[0].text, WriteFields(fs[1..]);
      FieldsCons(fs, "");
      FieldsCons(fs', "");
      assert WriteFields(fs) + "" == WriteFields(fs) && WriteFields(fs') + "" == WriteFields(fs');
      Assoc([BOM], a, "," + (b + ""));
    }
  }

  lemma UnmarkedFields(fs: seq<Field>, fs': seq<Field>)
    requires |fs| == |fs'| > 0 && fs[1..] == fs'[1..] && !fs[0].inQuotes && !fs'[0].inQuotes && fs[0].text == [BOM] + fs'[0].text
    requires forall j :: 0 <= j < |fs| ==> fs[j].inQuotes || Plain(fs[j].text)
    ensures WriteFields(fs) == [BOM] + WriteFields(fs')
    ensures forall j :: 0 <= j < |fs'| ==> fs'[j].inQuotes || Plain(fs'[j].text)
  {
    hide Plain, WriteFields;
    MarkedFields(fs, fs');
    PlainRest(BOM, fs'[0].text);
    assert forall j :: 0 < j < |fs| ==> fs'[j] == fs'[1..][j - 1] == fs[1..][j - 1] == fs[j];
  }

  // Rewriting the first line, fields for fields.
  lemma {:induction false} FirstLineRewritten(t: seq<Line>, t': seq<Line>, mark: string)
    requires Written(t) && t != [] && t' != [] && t'[1..] == t[1..] && t'[0].end == t[0].end && |t'[0].fields| > 0
    requires forall j :: 0 <= j < |t'[0].fields| ==> t'[0].fields[j].inQuotes || Plain(t'[0].fields[j].text)
    requires WriteFields(t[0].fields) == mark + WriteFields(t'[0].fields)
    ensures Written(t') && Write(t) == mark + Write(t')
  {
    hide WriteFields, Plain;
    assert forall k :: 0 < k < |t'| ==> t'[k] == t'[1..][k - 1] == t[1..][k - 1] == t[k];
    assert |t| == |t'|;
    var a, b, c := WriteFields(t'[0].fields), WriteEnd(t[0].end), Write(t[1..]);
    assert mark + a + b + c == mark + (a + b + c);
  }

  lemma {:induction false} UnmarkedIsWritten(t: seq<Line>)
    requires Written(t) && StartsWithMark(t)
    ensures Written(Unmarked(t)) && Write(t) == [BOM] + Write(Unmarked(t))
  {
    MarkIsBare(t);
    var t' := Unmarked(t);
    var fs, fs' := t[0].fields, t'[0].fields;
    assert t'[1..] == t[1..] && fs'[1..] == fs[1..];
    assert fs[0].text == [BOM] + fs'[0].text;
    UnmarkedFields(fs, fs');
    hide WriteFields, Plain, Write;
    FirstLineRewritten(t, t', [BOM]);
  }

  // Without one, the same, exactly unless the table itself starts with the mark in a bare field of a
  // row that counts: the reader takes that for a byte order mark.
  lemma {:induction false} RoundTripExactlyWhen(t: seq<Line>)
    requires Written(t)
    ensures Rows(Write(t)) == NonBlank(Table(t)) <==> !StartsWithMark(t) || BlankRow(Texts(t[0].fields))
  {
    ReadsAllLines(t);
    if StartsWithMark(t) {
      UnmarkedIsWritten(t);
      MarkIsBare(t);
      var t' := Unmarked(t);
      assert Write(t)[1..] == Write(t');
      ReadsAllLines(t');
      assert Rows(Write(t)) == NonBlank(Table(t'));
      DifferByTheMark(t, t');
    }
  }

  lemma {:induction false} AllNonBlank(t: seq<Row>)
    requires forall k :: 0 <= k < |t| ==> !BlankRow(t[k])
    ensures NonBlank(t) == t
  {
    hide BlankRow;
    if t != [] {
      AllNonBlank(t[..|t| - 1]);
      assert t[..|t| - 1] + [t[|t| - 1]] == t;
    }
  }

  // So a table whose rows all have something in them comes back whole, exactly unless it starts with
  // a bare mark.
  lemma {:induction false} TableRoundTrip(t: seq<Line>)
    requires Written(t) && forall k :: 0 <= k < |Table(t)| ==> !BlankRow(Table(t)[k])
    ensures Rows(Write(t)) == Table(t) <==> !StartsWithMark(t)
  {
    RoundTripExactlyWhen(t);
    AllNonBlank(Table(t));
    assert t != [] ==> Table(t)[0] == Texts(t[0].fields);
  }

  // One field of two characters, the mark and a letter.
  lemma BareMarkIsLost()
    ensures var t := [Line([Field([BOM, 'x'], false)], LF)];
            Written(t) && Table(t) == [[[BOM, 'x']]] && !BlankRow(Table(t)[0]) && Rows(Write(t)) != Table(t)
  {
    var f := Field([BOM, 'x'], false);
    var t := [Line([f], LF)];
    assert Texts([f]) == [f.text] by { assert [f][1..] == []; }
    assert Table(t) == [Texts([f])] by { assert t[1..] == []; }
    assert !IsSpace([BOM, 'x'][1]) && !Blank(Table(t)[0][0]);
    assert Write(t)[0] == BOM;
    TableRoundTrip(t);
  }

  lemma {:induction false} DifferByTheMark(t: seq<Line>, t': seq<Line>)
    requires t != [] && t' != [] && t[1..] == t'[1..] && |t[0].fields| == |t'[0].fields| > 0 && t[0].fields[1..] == t'[0].fields[1..]
    requires var a, b := t[0].fields[0].text, t'[0].fields[0].text; a != "" && a[0] == BOM && b == a[1..]
    ensures NonBlank(Table(t)) == NonBlank(Table(t')) <==> BlankRow(Texts(t[0].fields))
  {
    var row, row' := Texts(t[0].fields), Texts(t'[0].fields);
    assert row[1..] == row'[1..];
    SameBlankness(row, row');
    NonBlankOne(row);
    NonBlankOne(row');
    NonBlankConcat([row], Table(t[1..]));
    NonBlankConcat([row'], Table(t[1..]));
    if !BlankRow(row) {
      assert NonBlank(Table(t))[0] == row && NonBlank(Table(t'))[0] == row';
      assert |row[0]| != |row'[0]|;
    }
  }

  lemma SameBlankness(row: Row, row': Row)
    requires |row| > 0 && |row'| > 0 && row[1..] == row'[1..]
    requires row[0] != "" && row[0][0] == BOM && row'[0] == row[0][1..]
    ensures BlankRow(row) <==> BlankRow(row')
  {
    assert |row[1..]| == |row'[1..]|;
    assert forall i :: 0 < i < |row| ==> row[i] == row[1..][i - 1] == row'[1..][i - 1] == row'[i];
    assert forall i :: 0 <= i < |row'[0]| ==> row'[0][i] == row[0][i + 1];
    if Blank(row'[0]) {
      forall i | 0 <= i < |row[0]| ensures IsSpace(row[0][i]) {
        assert i > 0 ==> row[0][i] == row'[0][i - 1];
      }
    }
  }
}
