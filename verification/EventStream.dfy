// The page's reader for server-sent events: chunks of text arrive cut anywhere, frames are separated
// by a blank line. Against it stand a reader that sees the whole text and takes it line by line, and
// the text a server writes.
module EventStream {
  import opened Text

  // An id that is a number, the opaque cursor of a typed event, or none.
  datatype EventId = NoId | Number(n: nat) | Cursor(text: string)

  datatype Event = Event(name: string, id: EventId, data: string)

  // ---- one line -----------------------------------------------------------------------------------

  // What the lines of a frame have said so far.
  datatype Acc = Acc(name: string, id: EventId, data: seq<string>)

  const FRESH := Acc("message", NoId, [])

  predicate IsDigit(c: char) {
    '0' <= c <= '9'
  }

  predicate AllDigits(s: string) {
    |s| > 0 && forall i :: 0 <= i < |s| ==> IsDigit(s[i])
  }

  function Value(s: string): nat
    requires forall i :: 0 <= i < |s| ==> IsDigit(s[i])
  {
    if s == [] then 0
    else
      assert IsDigit(s[|s| - 1]);
      10 * Value(s[..|s| - 1]) + (s[|s| - 1] as int - '0' as int)
  }

  predicate DottedDigits(s: string) {
    var i := Find(s, '.');
    i < |s| && AllDigits(s[..i]) && AllDigits(s[i + 1..])
  }

  function Chomp(raw: string): string {
    if raw != [] && raw[|raw| - 1] == '\r' then raw[..|raw| - 1] else raw
  }

  function Unpad(s: string): string {
    if s != [] && s[0] == ' ' then s[1..] else s
  }

  // A field's effect: `event`, `data` and a well-formed `id` count, the rest do not.
  function TakeField(acc: Acc, field: string, value: string): Acc {
    if field == "event" then acc.(name := value)
    else if field == "data" then acc.(data := acc.data + [value])
    else if field == "id" && AllDigits(value) then acc.(id := Number(Value(value)))
    else if field == "id" && DottedDigits(value) then acc.(id := Cursor(value))
    else acc
  }

  // One line's effect; comments say nothing.
  function TakeLine(acc: Acc, raw: string): Acc {
    var line := Chomp(raw);
    if line == [] || line[0] == ':' then acc
    else
      var at := Find(line, ':');
      TakeField(acc, line[..at], Unpad(if at == |line| then "" else line[at + 1..]))
  }

  // The event of a finished frame, if it says anything.
  function Dispatch(acc: Acc): seq<Event> {
    if acc.data != [] || acc.id != NoId then [Event(acc.name, acc.id, Join(acc.data, '\n'))] else []
  }

  // ---- the reader as it is -------------------------------------------------------------------------

  function TakeLines(acc: Acc, lines: seq<string>): Acc
    decreases |lines|
  {
    if lines == [] then acc else TakeLines(TakeLine(acc, lines[0]), lines[1..])
  }

  function ReadFrame(frame: string): seq<Event> {
    Dispatch(TakeLines(FRESH, Split(frame, '\n')))
  }

  // The first position of "\n\n", or the length.
  function FindBlank(s: string): (i: nat)
    ensures i <= |s|
    ensures i < |s| ==> i + 1 < |s| && s[i] == s[i + 1] == '\n'
  {
    if s == [] then 0
    else if |s| > 1 && s[0] == s[1] == '\n' then 0
    else 1 + FindBlank(s[1..])
  }

  // Everything that can be read off the buffer, and what is left in it.
  function Drain(buffer: string): (seq<Event>, string)
    decreases |buffer|
  {
    var cut := FindBlank(buffer);
    if cut == |buffer| then ([], buffer)
    else
      var (events, rest) := Drain(buffer[cut + 2..]);
      (ReadFrame(buffer[..cut]) + events, rest)
  }

  function Concat(chunks: seq<string>): string {
    if chunks == [] then "" else chunks[0] + Concat(chunks[1..])
  }

  // Chunk after chunk: each is appended to what is left over and drained.
  function Feed(buffer: string, chunks: seq<string>): (seq<Event>, string)
    decreases |chunks|
  {
    if chunks == [] then ([], buffer)
    else
      var (events, rest) := Drain(buffer + chunks[0]);
      var (more, left) := Feed(rest, chunks[1..]);
      (events + more, left)
  }

  method ReadFrameLines(frame: string) returns (events: seq<Event>)
    ensures events == ReadFrame(frame)
  {
    var name, id, data: seq<string> := "message", NoId, [];
    var lines := Split(frame, '\n');
    for i := 0 to |lines|
      invariant TakeLines(FRESH, lines) == TakeLines(Acc(name, id, data), lines[i..])
    {
      assert lines[i..][0] == lines[i] && lines[i..][1..] == lines[i + 1..];
      var raw := lines[i];
      var line := Chomp(raw);
      if line == [] || line[0] == ':' {
        continue;
      }
      var at := Find(line, ':');
      var field := line[..at];
      var value := if at == |line| then "" else line[at + 1..];
      value := Unpad(value);
      if field == "event" {
        name := value;
      } else if field == "data" {
        data := data + [value];
      } else if field == "id" && AllDigits(value) {
        id := Number(Value(value));
      } else if field == "id" && DottedDigits(value) {
        id := Cursor(value);
      }
    }
    if data != [] || id != NoId {
      return [Event(name, id, Join(data, '\n'))];
    }
    return [];
  }

  // Take the finished frames off the buffer.
  method TakeFrames(pending: string) returns (events: seq<Event>, buffer: string)
    ensures (events, buffer) == Drain(pending)
  {
    hide ReadFrame, Drain;
    events, buffer := [], pending;
    var cut := FindBlank(buffer);
    while cut != |buffer|
      invariant cut == FindBlank(buffer)
      invariant Drain(pending).0 == events + Drain(buffer).0 && Drain(pending).1 == Drain(buffer).1
      decreases |buffer|
    {
      var frame := buffer[..cut];
      DrainStep(buffer, cut);
      Assoc(events, ReadFrame(frame), Drain(buffer[cut + 2..]).0);
      buffer := buffer[cut + 2..];
      var more := ReadFrameLines(frame);
      events := events + more;
      cut := FindBlank(buffer);
    }
    DrainRest(buffer);
    assert events + [] == events;
  }

  // The reading loop: append each chunk to the buffer and take the finished frames off it. What it
  // has emitted in the end is what the concatenation of the chunks says, line by line.
  method ReadEventStream(chunks: seq<string>) returns (events: seq<Event>)
    ensures events == Feed("", chunks).0 == ReadLines(Concat(chunks), FRESH)
  {
    hide Drain, ReadLines, Concat;
    ChunkedIsWhole(chunks);
    events := [];
    var buffer := "";
    assert chunks[0..] == chunks;
    for k := 0 to |chunks|
      invariant Feed("", chunks).0 == events + Feed(buffer, chunks[k..]).0
    {
      assert chunks[k..][0] == chunks[k] && chunks[k..][1..] == chunks[k + 1..];
      var more;
      var before := buffer;
      more, buffer := TakeFrames(buffer + chunks[k]);
      FeedStep(before, chunks[k..]);
      Assoc(events, more, Feed(buffer, chunks[k + 1..]).0);
      events := events + more;
    }
    assert chunks[|chunks|..] == [] && events + [] == events;
  }

  lemma FeedStep(buffer: string, chunks: seq<string>)
    requires chunks != []
    ensures var (events, rest) := Drain(buffer + chunks[0]);
            Feed(buffer, chunks) == (events + Feed(rest, chunks[1..]).0, Feed(rest, chunks[1..]).1)
  {
    hide Drain;
  }

  // What is left after draining holds no finished frame.
  lemma {:induction false} DrainedIsDrained(s: string)
    ensures Drain(Drain(s).1) == ([], Drain(s).1)
    decreases |s|
  {
    var cut := FindBlank(s);
    if cut == |s| {
      DrainRest(s);
    } else {
      DrainedIsDrained(s[cut + 2..]);
      hide Drain;
      DrainStep(s, cut);
    }
  }

  // From a drained buffer, reading chunk by chunk is draining everything at once.
  lemma {:induction false} FeedIsDrain(buffer: string, chunks: seq<string>)
    requires Drain(buffer) == ([], buffer)
    ensures Feed(buffer, chunks) == Drain(buffer + Concat(chunks))
    decreases |chunks|
  {
    hide Drain;
    if chunks == [] {
      assert buffer + "" == buffer;
    } else {
      var first, tail := buffer + chunks[0], Concat(chunks[1..]);
      FeedStep(buffer, chunks);
      DrainedIsDrained(first);
      FeedIsDrain(Drain(first).1, chunks[1..]);
      DrainMore(first, tail);
      Assoc(buffer, chunks[0], tail);
    }
  }

  lemma ChunkedIsWhole(chunks: seq<string>)
    ensures Feed("", chunks) == Drain(Concat(chunks)) && Feed("", chunks).0 == ReadLines(Concat(chunks), FRESH)
  {
    hide ReadLines;
    assert Drain("") == ([], "");
    FeedIsDrain("", chunks);
    assert "" + Concat(chunks) == Concat(chunks);
    DrainIsReadLines(Concat(chunks));
  }

  // ---- the reader that sees it all -----------------------------------------------------------------

  // Line by line: an empty line ends the event, any other line adds to it; an unfinished event at the
  // end is not emitted.
  function ReadLines(text: string, acc: Acc): seq<Event>
    decreases |text|
  {
    var i := Find(text, '\n');
    if i == |text| then []
    else if i == 0 then Dispatch(acc) + ReadLines(text[1..], FRESH)
    else ReadLines(text[i + 1..], TakeLine(acc, text[..i]))
  }

  lemma {:induction false} FindAppend(a: string, b: string, c: char)
    requires Find(a, c) < |a|
    ensures Find(a + b, c) == Find(a, c)
  {
    if a[0] != c {
      assert (a + b)[1..] == a[1..] + b;
      FindAppend(a[1..], b, c);
    }
  }

  lemma {:induction false} FindBlankAppend(a: string, b: string)
    requires FindBlank(a) < |a|
    ensures FindBlank(a + b) == FindBlank(a)
  {
    if !(|a| > 1 && a[0] == a[1] == '\n') {
      assert (a + b)[1..] == a[1..] + b;
      FindBlankAppend(a[1..], b);
    }
  }

  lemma {:induction false} NoBlankBefore(s: string, j: nat)
    requires j < FindBlank(s) && j + 1 < |s|
    ensures !(s[j] == s[j + 1] == '\n')
  {
    if j > 0 {
      NoBlankBefore(s[1..], j - 1);
    }
  }

  lemma DrainStep(s: string, cut: nat)
    requires cut == FindBlank(s) < |s|
    ensures Drain(s) == (ReadFrame(s[..cut]) + Drain(s[cut + 2..]).0, Drain(s[cut + 2..]).1)
  {
    hide ReadFrame;
  }

  lemma DrainRest(s: string)
    requires FindBlank(s) == |s|
    ensures Drain(s) == ([], s)
  {
  }

  // Draining in two goes is draining at once.
  lemma {:induction false} DrainMore(a: string, b: string)
    ensures Drain(a + b) == (Drain(a).0 + Drain(Drain(a).1 + b).0, Drain(Drain(a).1 + b).1)
    decreases |a|
  {
    var cut := FindBlank(a);
    if cut < |a| {
      hide ReadFrame, Drain, FindBlank;
      FindBlankAppend(a, b);
      CutAppended(a, b, cut);
      CutAppended(a, b, cut + 2);
      DrainStep(a, cut);
      DrainStep(a + b, cut);
      DrainMore(a[cut + 2..], b);
      Assoc(ReadFrame(a[..cut]), Drain(a[cut + 2..]).0, Drain(Drain(a).1 + b).0);
    } else {
      hide ReadFrame, FindBlank;
      assert Drain(a) == ([], a);
      assert [] + Drain(a + b).0 == Drain(a + b).0;
    }
  }

  lemma ReadLinesStep(text: string, i: nat, acc: Acc)
    requires 0 < i == Find(text, '\n') < |text|
    ensures ReadLines(text, acc) == ReadLines(text[i + 1..], TakeLine(acc, text[..i]))
  {
    hide TakeLine, Dispatch;
  }

  lemma TakeLinesStep(frame: string, i: nat, acc: Acc)
    requires i == Find(frame, '\n') < |frame|
    ensures TakeLines(acc, Split(frame, '\n')) == TakeLines(TakeLine(acc, frame[..i]), Split(frame[i + 1..], '\n'))
  {
    hide TakeLine;
    assert Split(frame, '\n')[0] == frame[..i] && Split(frame, '\n')[1..] == Split(frame[i + 1..], '\n');
  }

  // Lines without an empty one among them only add to the event.
  lemma {:induction false} LinesOfFrame(frame: string, rest: string, acc: Acc)
    requires frame == "" || frame[0] != '\n'
    requires frame == "" || frame[|frame| - 1] != '\n'
    requires FindBlank(frame) == |frame|
    ensures ReadLines(frame + "\n\n" + rest, acc) == Dispatch(TakeLines(acc, Split(frame, '\n'))) + ReadLines(rest, FRESH)
    decreases |frame|
  {
    hide ReadLines, TakeLine, TakeLines, Split, Dispatch;
    var text := frame + "\n\n" + rest;
    var i := Find(frame, '\n');
    if i == |frame| {
      LastLine(frame, rest, acc);
    } else {
      NoBlankBefore(frame, i);
      FindAppend(frame, "\n\n" + rest, '\n');
      assert text == frame + ("\n\n" + rest);
      assert text[i + 1..] == frame[i + 1..] + "\n\n" + rest && text[..i] == frame[..i];
      BlankIn(frame, i + 1);
      LinesOfFrame(frame[i + 1..], rest, TakeLine(acc, frame[..i]));
      ReadLinesStep(text, i, acc);
      TakeLinesStep(frame, i, acc);
    }
  }

  lemma {:induction false} BlankIn(s: string, n: nat)
    requires n <= |s| && FindBlank(s) == |s|
    ensures FindBlank(s[n..]) == |s[n..]|
  {
    if n > 0 {
      BlankIn(s[1..], n - 1);
      assert s[1..][n - 1..] == s[n..];
    } else {
      assert s[0..] == s;
    }
  }

  lemma {:induction false} LastLine(line: string, rest: string, acc: Acc)
    requires Find(line, '\n') == |line|
    ensures ReadLines(line + "\n\n" + rest, acc) == Dispatch(TakeLines(acc, Split(line, '\n'))) + ReadLines(rest, FRESH)
  {
    var text := line + "\n\n" + rest;
    FindAt(text, '\n', |line|);
    assert Split(line, '\n') == [line] && [line][1..] == [];
    assert TakeLines(acc, [line]) == TakeLine(acc, line);
    if line == "" {
      // the blank line of an empty frame is its first one; the second is a frame of its own
      assert TakeLine(acc, "") == acc;
      assert text[1..] == "\n" + rest;
      FindAt("\n" + rest, '\n', 0);
      assert ("\n" + rest)[1..] == rest;
    } else {
      assert text[|line| + 1..] == "\n" + rest && text[..|line|] == line;
      FindAt("\n" + rest, '\n', 0);
      assert ("\n" + rest)[1..] == rest;
    }
  }

  // The whole text, drained frame by frame, says what it says line by line.
  lemma {:induction false} DrainIsReadLines(text: string)
    ensures Drain(text).0 == ReadLines(text, FRESH)
    decreases |text|
  {
    hide ReadLines, Drain, TakeLines, Split, Dispatch;
    var cut := FindBlank(text);
    if cut == |text| {
      DrainRest(text);
      NothingFinished(text);
    } else {
      var frame, rest := text[..cut], text[cut + 2..];
      assert text == frame + "\n\n" + rest;
      DrainIsReadLines(rest);
      assert FindBlank(frame) == |frame| by {
        PrefixNotBlank(text, cut);
      }
      if cut > 0 {
        NoBlankBefore(text, cut - 1);
      }
      if frame != "" && frame[0] == '\n' {
        NoBlankBefore(text, 0);
        LeftOverNewline(frame, rest);
      } else {
        LinesOfFrame(frame, rest, FRESH);
      }
      DrainStep(text, cut);
    }
  }

  lemma NewlineFirst(text: string, acc: Acc)
    requires text != "" && text[0] == '\n'
    ensures ReadLines(text, acc) == Dispatch(acc) + ReadLines(text[1..], FRESH)
  {
    hide Dispatch, TakeLine;
  }

  // A newline left over from the separator before says nothing.
  lemma {:induction false} LeftOverNewline(frame: string, rest: string)
    requires frame != "" && frame[0] == '\n' && FindBlank(frame) == |frame|
    requires |frame| > 1 ==> frame[1] != '\n' && frame[|frame| - 1] != '\n'
    ensures ReadLines(frame + "\n\n" + rest, FRESH) == ReadFrame(frame) + ReadLines(rest, FRESH)
  {
    hide Dispatch, TakeLines, TakeLine, Split, ReadLines;
    BlankIn(frame, 1);
    LinesOfFrame(frame[1..], rest, FRESH);
    var text := frame + "\n\n" + rest;
    NewlineFirst(text, FRESH);
    assert text[1..] == frame[1..] + "\n\n" + rest;
    NothingYet();
    TakeLinesStep(frame, 0, FRESH);
    assert frame[..0] == "";
    assert [] + ReadLines(text[1..], FRESH) == ReadLines(text[1..], FRESH);
  }

  lemma NothingYet()
    ensures Dispatch(FRESH) == [] && TakeLine(FRESH, "") == FRESH
  {
  }

  lemma {:induction false} PrefixNotBlank(s: string, cut: nat)
    requires cut == FindBlank(s)
    ensures FindBlank(s[..cut]) == cut
  {
    if cut > 0 {
      PrefixNotBlank(s[1..], cut - 1);
      assert s[..cut][1..] == s[1..][..cut - 1];
    }
  }

  // Without a blank line nothing is emitted.
  lemma {:induction false} NothingFinished(text: string)
    requires FindBlank(text) == |text|
    ensures ReadLines(text, FRESH) == []
  {
    var i := Find(text, '\n');
    if i == 0 && text != "" {
      BlankIn(text, 1);
      if |text| > 1 {
        NoBlankBefore(text, 0);
      }
      NothingAfter(text[1..], FRESH);
    } else {
      NothingAfter(text, FRESH);
    }
  }

  lemma {:induction false} NothingAfter(text: string, acc: Acc)
    requires FindBlank(text) == |text| && (text == "" || text[0] != '\n')
    ensures ReadLines(text, acc) == []
    decreases |text|
  {
    var i := Find(text, '\n');
    if i < |text| {
      BlankIn(text, i + 1);
      if i + 1 < |text| {
        NoBlankBefore(text, i);
      }
      NothingAfter(text[i + 1..], TakeLine(acc, text[..i]));
    }
  }

  // How the text is cut does not matter: the chunked reader emits the same events, and is left with
  // the same rest.
  lemma {:induction false} ChunkingDoesNotMatter(a: seq<string>, b: seq<string>)
    requires Concat(a) == Concat(b)
    ensures Feed("", a) == Feed("", b)
  {
    hide Drain, Feed, ReadLines;
    ChunkedIsWhole(a);
    ChunkedIsWhole(b);
  }

  // ---- what a server writes --------------------------------------------------------------------------

  function Decimal(n: nat): string {
    if n < 10 then [(n + '0' as int) as char] else Decimal(n / 10) + [(n % 10 + '0' as int) as char]
  }

  function WriteId(id: EventId): string {
    match id
    case NoId => ""
    case Number(n) => FieldText("id", Decimal(n))
    case Cursor(text) => FieldText("id", text)
  }

  function WriteData(lines: seq<string>): string {
    if lines == [] then "" else FieldText("data", lines[0]) + WriteData(lines[1..])
  }

  function Write(e: Event): string {
    FieldText("event", e.name) + WriteId(e.id) + WriteData(Split(e.data, '\n')) + "\n"
  }

  function WriteAll(es: seq<Event>): string {
    if es == [] then "" else Write(es[0]) + WriteAll(es[1..])
  }

  // A value that stays on its line.
  predicate OneLine(s: string) {
    (forall i :: 0 <= i < |s| ==> s[i] != '\n') && (s == "" || s[|s| - 1] != '\r')
  }

  predicate Writable(e: Event) {
    && OneLine(e.name) && (e.id.Cursor? ==> DottedDigits(e.id.text))
    && forall k :: 0 <= k < |Split(e.data, '\n')| ==> OneLine(Split(e.data, '\n')[k])
  }

  lemma {:induction false} DecimalValue(n: nat)
    ensures AllDigits(Decimal(n)) && Value(Decimal(n)) == n
  {
    if n >= 10 {
      DecimalValue(n / 10);
      var d := Decimal(n / 10);
      assert Decimal(n)[..|d|] == d;
    } else {
      assert Decimal(n)[..0] == "";
    }
  }

  lemma LineIsField(acc: Acc, line: string, at: nat)
    requires 0 < at == Find(line, ':') < |line| && line[|line| - 1] != '\r'
    ensures TakeLine(acc, line) == TakeField(acc, line[..at], Unpad(line[at + 1..]))
  {
    hide TakeField;
  }

  // A written field is taken as the field it is.
  lemma FieldLine(acc: Acc, field: string, value: string)
    requires field != "" && ':' !in field && OneLine(value)
    ensures TakeLine(acc, field + ": " + value) == TakeField(acc, field, value)
  {
    hide TakeLine, TakeField, Find;
    var line := field + ": " + value;
    FieldLineCuts(field, value);
    LineIsField(acc, line, |field|);
  }

  lemma FieldLineCuts(field: string, value: string)
    requires field != "" && ':' !in field && OneLine(value)
    ensures var line := field + ": " + value;
            && Find(line, ':') == |field| && line[|line| - 1] != '\r'
            && line[..|field|] == field && Unpad(line[|field| + 1..]) == value
  {
    var line := field + ": " + value;
    FindAt(line, ':', |field|);
    assert line[|field| + 1..] == " " + value;
    assert (" " + value)[1..] == value;
  }

  function FieldText(field: string, value: string): string {
    field + ": " + value + "\n"
  }

  lemma TakesField(field: string, value: string, rest: string, acc: Acc)
    requires field == "event" || field == "data" || field == "id"
    requires OneLine(value)
    ensures ReadLines(FieldText(field, value) + rest, acc) == ReadLines(rest, TakeLine(acc, field + ": " + value))
  {
    hide TakeLine;
    var line := field + ": " + value;
    var text := FieldText(field, value) + rest;
    assert text == line + "\n" + rest;
    FindAt(text, '\n', |line|);
    assert text[..|line|] == line && text[|line| + 1..] == rest;
  }

  lemma {:induction false} DottedIsNotDigits(s: string)
    requires DottedDigits(s)
    ensures !AllDigits(s) && OneLine(s)
  {
    var i := Find(s, '.');
    assert !IsDigit(s[i]);
    forall j | 0 <= j < |s| ensures s[j] == '.' || IsDigit(s[j]) {
      if j < i {
        assert s[..i][j] == s[j];
      } else if j > i {
        assert s[i + 1..][j - i - 1] == s[j];
      }
    }
  }

  lemma {:induction false} ReadsId(id: EventId, rest: string, acc: Acc)
    requires id.Cursor? ==> DottedDigits(id.text)
    ensures ReadLines(WriteId(id) + rest, acc) == ReadLines(rest, if id.NoId? then acc else acc.(id := id))
  {
    hide ReadLines, TakeLine, FieldText;
    match id
    case NoId =>
      assert "" + rest == rest;
    case Number(n) =>
      DecimalValue(n);
      assert forall i :: 0 <= i < |Decimal(n)| ==> IsDigit(Decimal(n)[i]);
      FieldLine(acc, "id", Decimal(n));
      TakesField("id", Decimal(n), rest, acc);
    case Cursor(text) =>
      DottedIsNotDigits(text);
      FieldLine(acc, "id", text);
      TakesField("id", text, rest, acc);
  }

  lemma {:induction false} ReadsData(lines: seq<string>, rest: string, acc: Acc)
    requires forall k :: 0 <= k < |lines| ==> OneLine(lines[k])
    ensures ReadLines(WriteData(lines) + rest, acc) == ReadLines(rest, acc.(data := acc.data + lines))
    decreases |lines|
  {
    hide ReadLines, TakeLine, FieldText, OneLine;
    if lines == [] {
      assert "" + rest == rest && acc.data + [] == acc.data;
    } else {
      FieldLine(acc, "data", lines[0]);
      var more := WriteData(lines[1..]) + rest;
      TakesField("data", lines[0], more, acc);
      assert WriteData(lines) + rest == FieldText("data", lines[0]) + more;
      ReadsData(lines[1..], rest, acc.(data := acc.data + [lines[0]]));
      assert acc.data + [lines[0]] + lines[1..] == acc.data + lines;
    }
  }

  lemma {:induction false} ReadsOne(e: Event, rest: string)
    requires Writable(e)
    ensures ReadLines(Write(e) + rest, FRESH) == [e] + ReadLines(rest, FRESH)
  {
    hide TakeLine, FieldText, OneLine, WriteId, WriteData;
    var named := FRESH.(name := e.name);
    var tail := "\n" + rest;
    var data := WriteData(Split(e.data, '\n')) + tail;
    FieldLine(FRESH, "event", e.name);
    TakesField("event", e.name, WriteId(e.id) + data, FRESH);
    assert Write(e) + rest == FieldText("event", e.name) + (WriteId(e.id) + data);
    ReadsId(e.id, data, named);
    var marked := if e.id.NoId? then named else named.(id := e.id);
    ReadsData(Split(e.data, '\n'), tail, marked);
    FindAt(tail, '\n', 0);
    assert tail[1..] == rest;
    assert marked.data + Split(e.data, '\n') == Split(e.data, '\n');
    JoinSplit(e.data, '\n');
  }

  // Whatever a server writes is read back, event for event, however the text is cut on its way.
  lemma {:induction false} WrittenIsRead(es: seq<Event>, chunks: seq<string>)
    requires forall k :: 0 <= k < |es| ==> Writable(es[k])
    requires Concat(chunks) == WriteAll(es)
    ensures Feed("", chunks).0 == es
  {
    ChunkedIsWhole(chunks);
    AllWrittenIsRead(es);
  }

  lemma {:induction false} AllWrittenIsRead(es: seq<Event>)
    requires forall k :: 0 <= k < |es| ==> Writable(es[k])
    ensures ReadLines(WriteAll(es), FRESH) == es
  {
    if es != [] {
      AllWrittenIsRead(es[1..]);
      ReadsOne(es[0], WriteAll(es[1..]));
    }
  }
}
