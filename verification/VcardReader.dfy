// Cards out of a whole text, and the text that cards are written as: any folding, any line ends.
module VcardReader {
  import opened Common
  import opened Text
  import opened Vcard

  // ---- the reader -----------------------------------------------------------------------------------

  datatype Card = Card(name: string, phones: seq<string>)
  datatype Draft = Draft(fn: string, n: string, phones: seq<string>)
  datatype Reading = Reading(cards: seq<Card>, card: Option<Draft>)

  // Without an `item1.` group.
  function DropGroup(s: string): string {
    var i := Find(s, '.');
    if i < |s| then s[i + 1..] else s
  }

  function PropertyName(head: string): string {
    Upper(Trim(DropGroup(Split(head, ';')[0])))
  }

  predicate QuotedPrintable(head: string) {
    var parts := Split(head, ';');
    exists i :: 1 <= i < |parts| && Upper(Trim(parts[i])) in {"QUOTED-PRINTABLE", "ENCODING=QUOTED-PRINTABLE"}
  }

  predicate SaysVcard(value: string) {
    Upper(Trim(value)) == "VCARD"
  }

  // Every run of white space becomes one space.
  function Collapse(s: string): string
    decreases |s|
  {
    if s == "" then ""
    else if IsSpace(s[0]) then TrimLeftIs(s[1..]); " " + Collapse(TrimLeft(s[1..]))
    else [s[0]] + Collapse(s[1..])
  }

  function Component(parts: seq<string>, i: nat): string {
    if i < |parts| then Trim(Unescape(parts[i])) else ""
  }

  function NonEmpty(parts: seq<string>): seq<string> {
    if parts == [] then [] else (if parts[0] == "" then [] else [parts[0]]) + NonEmpty(parts[1..])
  }

  // Prefix, given, additional, family, suffix, from the order family, given, additional, prefix, suffix.
  function StructuredName(parts: seq<string>): string {
    Join(NonEmpty([Component(parts, 3), Component(parts, 1), Component(parts, 2), Component(parts, 0), Component(parts, 4)]), ' ')
  }

  function TakeProperty(d: Draft, name: string, value: string): Draft {
    if name == "FN" then d.(fn := Collapse(Unescape(value)))
    else if name == "N" then d.(n := StructuredName(SplitFrom("", value, ';')))
    else if name == "TEL" && Trim(value) != "" then d.(phones := d.phones + [Trim(value)])
    else d
  }

  function Finished(d: Draft): Card {
    Card(Trim(if d.fn != "" then d.fn else d.n), d.phones)
  }

  function TakeLine(r: Reading, line: string, decode: string -> string): Reading {
    var colon := Find(line, ':');
    if colon == |line| then r
    else
      var head, raw := line[..colon], line[colon + 1..];
      var name := PropertyName(head);
      if name == "BEGIN" && SaysVcard(raw) then r.(card := Some(Draft("", "", [])))
      else if r.card.None? then r
      else if name == "END" && SaysVcard(raw) then Reading(r.cards + [Finished(r.card.value)], None)
      else r.(card := Some(TakeProperty(r.card.value, name, if QuotedPrintable(head) then decode(raw) else raw)))
  }

  function TakeLines(r: Reading, lines: seq<string>, decode: string -> string): Reading
    decreases |lines|
  {
    if lines == [] then r else TakeLines(TakeLine(r, lines[0], decode), lines[1..], decode)
  }

  const NOTHING := Reading([], None)

  function Cards(text: string, decode: string -> string): seq<Card> {
    TakeLines(NOTHING, Unfolded([], Physical(text)), decode).cards
  }

  // `decode` is the decoder of quoted-printable values.
  method ParseVcard(text: string, decode: string -> string) returns (cards: seq<Card>)
    ensures cards == Cards(text, decode)
  {
    var physical := Physical(text);
    var lines := Unfold(physical);
    cards := [];
    var card: Option<Draft> := None;
    for i := 0 to |lines|
      invariant TakeLines(NOTHING, lines, decode) == TakeLines(Reading(cards, card), lines[i..], decode)
    {
      hide PropertyName, SaysVcard, QuotedPrintable, Unescape, Collapse, Find, Trim;
      assert lines[i..][0] == lines[i] && lines[i..][1..] == lines[i + 1..];
      var line := lines[i];
      var colon := Find(line, ':');
      if colon == |line| {
        continue;
      }
      var head, raw := line[..colon], line[colon + 1..];
      var name := PropertyName(head);
      if name == "BEGIN" && SaysVcard(raw) {
        card := Some(Draft("", "", []));
        continue;
      }
      if card.None? {
        continue;
      }
      var d := card.value;
      if name == "END" && SaysVcard(raw) {
        cards := cards + [Card(Trim(if d.fn != "" then d.fn else d.n), d.phones)];
        card := None;
        continue;
      }
      var value := if QuotedPrintable(head) then decode(raw) else raw;
      if name == "FN" {
        d := d.(fn := Collapse(Unescape(value)));
      } else if name == "N" {
        var parts := SplitUnescaped(value, ';');
        d := d.(n := StructuredName(parts));
      } else if name == "TEL" {
        var number := Trim(value);
        if number != "" {
          d := d.(phones := d.phones + [number]);
        }
      }
      card := Some(d);
    }
  }

  // ---- the text ---------------------------------------------------------------------------------------

  datatype Phys = Phys(line: string, end: End)

  predicate Clean(line: string) {
    line != "" && '\r' !in line && '\n' !in line
  }

  predicate CleanLines(ls: seq<Phys>) {
    forall i :: 0 <= i < |ls| ==> Clean(ls[i].line) && (ls[i].end == Nothing ==> i == |ls| - 1)
  }

  function WriteText(ls: seq<Phys>): string {
    if ls == [] then "" else ls[0].line + (WriteEnd(ls[0].end) + WriteText(ls[1..]))
  }

  function Lines(ls: seq<Phys>): seq<string> {
    if ls == [] then [] else [ls[0].line] + Lines(ls[1..])
  }

  // After a last line end there is one more, empty line.
  function Remainder(ls: seq<Phys>): seq<string> {
    if ls != [] && ls[|ls| - 1].end == Nothing then [] else [""]
  }

  lemma {:induction false} NormalizedClean(line: string, rest: string)
    requires '\r' !in line
    ensures Normalized(line + rest) == line + Normalized(rest)
    decreases |line|
  {
    if line == "" {
      assert "" + rest == rest && "" + Normalized(rest) == Normalized(rest);
    } else {
      assert (line + rest)[1..] == line[1..] + rest;
      NormalizedClean(line[1..], rest);
      assert [line[0]] + (line[1..] + Normalized(rest)) == line + Normalized(rest);
    }
  }

  lemma NormalizedEnd(e: End, rest: string)
    requires e != Nothing && (rest == "" || rest[0] != '\n')
    ensures Normalized(WriteEnd(e) + rest) == "\n" + Normalized(rest)
  {
    var text := WriteEnd(e) + rest;
    if e == CRLF {
      assert text[2..] == rest;
    } else {
      assert text[1..] == rest;
    }
  }

  lemma SplitOne(line: string, rest: string)
    requires '\n' !in line
    ensures Split(line + ("\n" + rest), '\n') == [line] + Split(rest, '\n')
  {
    var text := line + ("\n" + rest);
    FindAt(text, '\n', |line|);
    assert text[..|line|] == line && text[|line| + 1..] == rest;
  }

  lemma SplitNone(line: string)
    requires '\n' !in line
    ensures Split(line, '\n') == [line]
  {
  }

  lemma CleanRest(ls: seq<Phys>)
    requires CleanLines(ls) && ls != []
    ensures CleanLines(ls[1..]) && Clean(ls[0].line) && (ls[0].end == Nothing ==> ls[1..] == [])
    ensures WriteText(ls[1..]) == "" || WriteText(ls[1..])[0] != '\n'
    ensures ls[1..] != [] ==> Remainder(ls[1..]) == Remainder(ls)
  {
    if |ls| > 1 {
      assert Clean(ls[1].line) && ls[1..][0] == ls[1];
      assert WriteText(ls[1..])[0] == ls[1].line[0];
      assert ls[1].line[0] in ls[1].line;
    }
  }

  lemma OneLine(line: string, e: End, rest: string)
    requires Clean(line) && (rest == "" || rest[0] != '\n') && (e == Nothing ==> rest == "")
    ensures Split(Normalized(line + (WriteEnd(e) + rest)), '\n') == [line] + if e == Nothing then [] else Split(Normalized(rest), '\n')
  {
    NormalizedClean(line, WriteEnd(e) + rest);
    if e == Nothing {
      assert WriteEnd(e) + rest == "" && line + "" == line;
      SplitNone(line);
    } else {
      hide Normalized, Split, WriteEnd;
      NormalizedEnd(e, rest);
      SplitOne(line, Normalized(rest));
    }
  }

  lemma NothingWritten()
    ensures Split(Normalized(""), '\n') == [""]
  {
    SplitNone("");
  }

  lemma {:induction false} PhysicalLines(ls: seq<Phys>)
    requires CleanLines(ls)
    ensures Split(Normalized(WriteText(ls)), '\n') == Lines(ls) + Remainder(ls)
    decreases |ls|
  {
    hide Normalized, Split, WriteEnd, Clean, CleanLines;
    if ls == [] {
      NothingWritten();
    } else {
      CleanRest(ls);
      OneLine(ls[0].line, ls[0].end, WriteText(ls[1..]));
      PhysicalLines(ls[1..]);
      if ls[0].end == Nothing {
        assert Lines(ls) == [ls[0].line];
      } else {
        assert ls[1..] == [] ==> Remainder(ls[1..]) == Remainder(ls);
        Assoc([ls[0].line], Lines(ls[1..]), Remainder(ls));
      }
    }
  }

}
