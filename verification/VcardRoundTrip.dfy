// Cards that are written, folded and ended in any way read back as themselves, tidied.
module VcardRoundTrip {
  import opened Common
  import opened Text
  import opened Vcard
  import opened VcardReader

  // ---- the writer -------------------------------------------------------------------------------------

  function TelLines(phones: seq<string>): seq<string> {
    if phones == [] then [] else ["TEL:" + phones[0]] + TelLines(phones[1..])
  }

  function CardLines(c: Card): seq<string> {
    ["BEGIN:VCARD", "VERSION:3.0", "FN:" + Escape(c.name)] + (TelLines(c.phones) + ["END:VCARD"])
  }

  function AllLines(cs: seq<Card>): seq<string> {
    if cs == [] then [] else CardLines(cs[0]) + AllLines(cs[1..])
  }

  function Trims(parts: seq<string>): seq<string> {
    if parts == [] then [] else [Trim(parts[0])] + Trims(parts[1..])
  }

  // What reading makes of a card.
  function Readback(c: Card): Card {
    Card(Trim(Collapse(NewlinesAsSpaces(c.name))), NonEmpty(Trims(c.phones)))
  }

  function Readbacks(cs: seq<Card>): seq<Card> {
    if cs == [] then [] else [Readback(cs[0])] + Readbacks(cs[1..])
  }

  // ---- one property -----------------------------------------------------------------------------------

  predicate Key(k: string) {
    0 < |k| < 16 && forall i :: 0 <= i < |k| ==> 'A' <= k[i] <= 'Z'
  }

  lemma KeyIsItsName(k: string)
    requires Key(k)
    ensures PropertyName(k) == k && !QuotedPrintable(k)
  {
    assert Find(k, ';') == |k| && Find(k, '.') == |k|;
    assert Split(k, ';') == [k];
    assert Trimmed(k);
    TrimTrimmed(k);
    assert Upper(k) == k;
  }

  lemma KeyEnds(k: string, v: string)
    requires Key(k)
    ensures var line := k + (":" + v);
            Find(line, ':') == |k| && |k| < |line| && line[..|k|] == k && line[|k| + 1..] == v
  {
    FindAt(k + (":" + v), ':', |k|);
  }

  lemma TakesKeyed(r: Reading, k: string, v: string, decode: string -> string)
    requires Key(k)
    ensures TakeLine(r, k + (":" + v), decode) ==
              if k == "BEGIN" && SaysVcard(v) then r.(card := Some(Draft("", "", [])))
              else if r.card.None? then r
              else if k == "END" && SaysVcard(v) then Reading(r.cards + [Finished(r.card.value)], None)
              else r.(card := Some(TakeProperty(r.card.value, k, v)))
  {
    hide SaysVcard, TakeProperty, Finished, PropertyName, QuotedPrintable, Key;
    KeyIsItsName(k);
    KeyEnds(k, v);
  }

  lemma VcardSaysVcard()
    ensures SaysVcard("VCARD")
  {
    TrimTrimmed("VCARD");
    assert Upper("VCARD") == "VCARD";
  }

  lemma TakesBegin(r: Reading, decode: string -> string)
    ensures TakeLine(r, "BEGIN:VCARD", decode) == r.(card := Some(Draft("", "", [])))
  {
    hide TakeLine, SaysVcard, Finished, TakeProperty;
    assert "BEGIN:VCARD" == "BEGIN" + (":" + "VCARD");
    VcardSaysVcard();
    TakesKeyed(r, "BEGIN", "VCARD", decode);
  }

  lemma TakesVersion(r: Reading, decode: string -> string)
    requires r.card.Some?
    ensures TakeLine(r, "VERSION:3.0", decode) == r
  {
    hide TakeLine, SaysVcard, Finished;
    assert "VERSION:3.0" == "VERSION" + (":" + "3.0");
    TakesKeyed(r, "VERSION", "3.0", decode);
  }

  lemma TakesName(r: Reading, v: string, decode: string -> string)
    requires r.card.Some?
    ensures TakeLine(r, "FN:" + v, decode) == r.(card := Some(r.card.value.(fn := Collapse(Unescape(v)))))
  {
    hide TakeLine, SaysVcard, Finished, Collapse, Unescape;
    assert "FN:" + v == "FN" + (":" + v);
    TakesKeyed(r, "FN", v, decode);
  }

  function WithPhones(r: Reading, more: seq<string>): Reading
    requires r.card.Some?
  {
    r.(card := Some(r.card.value.(phones := r.card.value.phones + more)))
  }

  lemma TakesTel(r: Reading, v: string, decode: string -> string)
    requires r.card.Some?
    ensures TakeLine(r, "TEL:" + v, decode) == WithPhones(r, NonEmpty([Trim(v)]))
  {
    hide TakeLine, SaysVcard, Finished, Trim;
    assert "TEL:" + v == "TEL" + (":" + v);
    TakesKeyed(r, "TEL", v, decode);
    var d := r.card.value;
    assert NonEmpty([Trim(v)]) == if Trim(v) == "" then [] else [Trim(v)];
    assert d.phones + [] == d.phones;
  }

  lemma TakesEnd(r: Reading, decode: string -> string)
    requires r.card.Some?
    ensures TakeLine(r, "END:VCARD", decode) == Reading(r.cards + [Finished(r.card.value)], None)
  {
    hide TakeLine, SaysVcard, Finished, TakeProperty;
    assert "END:VCARD" == "END" + (":" + "VCARD");
    VcardSaysVcard();
    TakesKeyed(r, "END", "VCARD", decode);
  }

  // ---- cards --------------------------------------------------------------------------------------------

  lemma TakeLinesCons(r: Reading, line: string, lines: seq<string>, decode: string -> string)
    ensures TakeLines(r, [line] + lines, decode) == TakeLines(TakeLine(r, line, decode), lines, decode)
  {
    assert ([line] + lines)[1..] == lines;
  }

  lemma {:induction false} TakesTels(r: Reading, phones: seq<string>, lines: seq<string>, decode: string -> string)
    requires r.card.Some?
    ensures TakeLines(r, TelLines(phones) + lines, decode) ==
              TakeLines(WithPhones(r, NonEmpty(Trims(phones))), lines, decode)
    decreases |phones|
  {
    hide TakeLines, TakeLine, Trim, NonEmpty;
    if phones == [] {
      assert NonEmpty(Trims(phones)) == [] by { NoNumbers(); }
      assert [] + lines == lines && r.card.value.phones + [] == r.card.value.phones;
    } else {
      var more := TelLines(phones[1..]) + lines;
      Assoc(["TEL:" + phones[0]], TelLines(phones[1..]), lines);
      TakeLinesCons(r, "TEL:" + phones[0], more, decode);
      TakesTel(r, phones[0], decode);
      var first := NonEmpty([Trim(phones[0])]);
      TakesTels(WithPhones(r, first), phones[1..], lines, decode);
      NumbersCons(phones);
      Assoc(r.card.value.phones, first, NonEmpty(Trims(phones[1..])));
    }
  }

  lemma NoNumbers()
    ensures NonEmpty(Trims([])) == []
  {
  }

  lemma NumbersCons(phones: seq<string>)
    requires phones != []
    ensures NonEmpty(Trims(phones)) == NonEmpty([Trim(phones[0])]) + NonEmpty(Trims(phones[1..]))
  {
    hide Trim;
    assert Trims(phones)[1..] == Trims(phones[1..]);
  }

  lemma FinishedIs(name: string, phones: seq<string>)
    ensures Finished(Draft(name, "", phones)) == Card(Trim(name), phones)
  {
  }

  lemma {:induction false} TakesCard(cards: seq<Card>, c: Card, lines: seq<string>, decode: string -> string)
    ensures TakeLines(Reading(cards, None), CardLines(c) + lines, decode) == TakeLines(Reading(cards + [Readback(c)], None), lines, decode)
  {
    hide TakeLines, TakeLine, Trim, Collapse, Escape, Unescape, Finished, TelLines, NonEmpty, Trims;
    var fn := "FN:" + Escape(c.name);
    var tail := ["END:VCARD"] + lines;
    var tels := TelLines(c.phones) + tail;
    assert CardLines(c) + lines == ["BEGIN:VCARD"] + (["VERSION:3.0"] + ([fn] + tels));
    var r := Reading(cards, Some(Draft("", "", [])));
    TakeLinesCons(Reading(cards, None), "BEGIN:VCARD", ["VERSION:3.0"] + ([fn] + tels), decode);
    TakesBegin(Reading(cards, None), decode);
    TakeLinesCons(r, "VERSION:3.0", [fn] + tels, decode);
    TakesVersion(r, decode);
    TakeLinesCons(r, fn, tels, decode);
    TakesName(r, Escape(c.name), decode);
    UnescapeEscape(c.name);
    var named := r.(card := Some(Draft(Collapse(NewlinesAsSpaces(c.name)), "", [])));
    TakesTels(named, c.phones, tail, decode);
    assert [] + NonEmpty(Trims(c.phones)) == NonEmpty(Trims(c.phones));
    var full := named.(card := Some(named.card.value.(phones := NonEmpty(Trims(c.phones)))));
    TakeLinesCons(full, "END:VCARD", lines, decode);
    TakesEnd(full, decode);
    FinishedIs(Collapse(NewlinesAsSpaces(c.name)), NonEmpty(Trims(c.phones)));
  }

  lemma {:induction false} TakesAll(cards: seq<Card>, cs: seq<Card>, lines: seq<string>, decode: string -> string)
    ensures TakeLines(Reading(cards, None), AllLines(cs) + lines, decode) == TakeLines(Reading(cards + Readbacks(cs), None), lines, decode)
    decreases |cs|
  {
    hide TakeLines, CardLines, Readback;
    if cs == [] {
      assert [] + lines == lines && cards + [] == cards;
    } else {
      Assoc(CardLines(cs[0]), AllLines(cs[1..]), lines);
      TakesCard(cards, cs[0], AllLines(cs[1..]) + lines, decode);
      TakesAll(cards + [Readback(cs[0])], cs[1..], lines, decode);
      Assoc(cards, [Readback(cs[0])], Readbacks(cs[1..]));
    }
  }

  // ---- folded lines ---------------------------------------------------------------------------------------

  // A line that begins with a short name and a colon.
  predicate Keyed(line: string) {
    line != "" && 'A' <= line[0] <= 'Z' && Find(line, ':') < 16
  }

  predicate AllKeyed(lines: seq<string>) {
    forall i :: 0 <= i < |lines| ==> Keyed(lines[i])
  }

  lemma KeyedLine(k: string, v: string)
    requires Key(k)
    ensures Keyed(k + (":" + v))
  {
    KeyEnds(k, v);
  }

  lemma {:induction false} TelsKeyed(phones: seq<string>)
    ensures AllKeyed(TelLines(phones))
  {
    if phones != [] {
      TelsKeyed(phones[1..]);
      KeyedLine("TEL", phones[0]);
      assert "TEL:" + phones[0] == "TEL" + (":" + phones[0]);
      hide Keyed;
    }
  }

  lemma FixedKeyed()
    ensures Keyed("BEGIN:VCARD") && Keyed("VERSION:3.0") && Keyed("END:VCARD")
  {
    hide Keyed;
    assert "BEGIN:VCARD" == "BEGIN" + (":" + "VCARD") && "VERSION:3.0" == "VERSION" + (":" + "3.0") && "END:VCARD" == "END" + (":" + "VCARD");
    KeyedLine("BEGIN", "VCARD");
    KeyedLine("VERSION", "3.0");
    KeyedLine("END", "VCARD");
  }

  lemma NameKeyed(v: string)
    ensures Keyed("FN:" + v)
  {
    hide Keyed;
    assert "FN:" + v == "FN" + (":" + v);
    KeyedLine("FN", v);
  }

  lemma CardKeyed(c: Card)
    ensures AllKeyed(CardLines(c))
  {
    hide Keyed, Escape, TelLines;
    TelsKeyed(c.phones);
    FixedKeyed();
    NameKeyed(Escape(c.name));
  }

  lemma {:induction false} AllLinesKeyed(cs: seq<Card>)
    ensures AllKeyed(AllLines(cs))
  {
    if cs != [] {
      AllLinesKeyed(cs[1..]);
      CardKeyed(cs[0]);
      hide Keyed, CardLines;
    }
  }

  lemma {:induction false} TooShort(s: string, p: string)
    requires |s| < |p|
    ensures !Contains(s, p)
  {
    if s != "" {
      TooShort(s[1..], p);
    }
  }

  lemma KeyedIsNotOpen(line: string)
    requires Keyed(line)
    ensures !OpenEnded(line)
  {
    TooShort(Upper(line[..Find(line, ':')]), "QUOTED-PRINTABLE");
  }

  lemma {:induction false} LogicalAt(fs: seq<Folding>, i: nat)
    requires i < |fs|
    ensures i < |Logicals(fs)| && Logicals(fs)[i] == Logical(fs[i])
    decreases i
  {
    if i > 0 {
      LogicalAt(fs[1..], i - 1);
    }
  }

  // No piece that begins a line is empty: a fold comes between two characters.
  predicate Cut(fs: seq<Folding>) {
    forall i :: 0 <= i < |fs| ==> fs[i].first != ""
  }

  lemma KeyedApart(fs: seq<Folding>)
    requires AllKeyed(Logicals(fs)) && Cut(fs)
    ensures Apart(fs) && (fs != [] ==> !OpenEnded(Logical(fs[|fs| - 1])))
  {
    hide Logicals, OpenEnded;
    forall i: nat | i < |fs| ensures !OpenEnded(Logical(fs[i])) && !StartsBlank(fs[i].first) {
      LogicalAt(fs, i);
      KeyedIsNotOpen(Logical(fs[i]));
      assert Logical(fs[i])[0] == fs[i].first[0];
    }
  }

  lemma {:induction false} OneMoreFolding(fs: seq<Folding>, f: Folding)
    ensures FoldedLines(fs + [f]) == FoldedLines(fs) + ([f.first] + PieceLines(f.rest))
    ensures Logicals(fs + [f]) == Logicals(fs) + [Logical(f)]
    decreases |fs|
  {
    if fs == [] {
      assert [] + [f] == [f];
      assert FoldedLines([f]) == [f.first] + PieceLines(f.rest) + [];
    } else {
      assert (fs + [f])[1..] == fs[1..] + [f];
      OneMoreFolding(fs[1..], f);
      hide PieceLines, Logical;
      Assoc([fs[0].first] + PieceLines(fs[0].rest), FoldedLines(fs[1..]), [f.first] + PieceLines(f.rest));
      Assoc([Logical(fs[0])], Logicals(fs[1..]), [Logical(f)]);
    }
  }

  // The foldings of a text with its possible empty last line.
  function Ended(fs: seq<Folding>, rest: seq<string>): seq<Folding> {
    if rest == [] then fs else fs + [Folding("", [])]
  }

  lemma EndedFacts(fs: seq<Folding>, rest: seq<string>)
    requires rest == [] || rest == [""]
    requires AllKeyed(Logicals(fs)) && Cut(fs) && WellFolded(fs)
    ensures FoldedLines(Ended(fs, rest)) == FoldedLines(fs) + rest && Logicals(Ended(fs, rest)) == Logicals(fs) + rest
    ensures WellFolded(Ended(fs, rest)) && Apart(Ended(fs, rest))
  {
    hide OpenEnded, FoldedLines, Logicals, AllKeyed, Cut;
    KeyedApart(fs);
    if rest == [] {
      assert FoldedLines(fs) + rest == FoldedLines(fs) && Logicals(fs) + rest == Logicals(fs);
    } else {
      var f := Folding("", []);
      OneMoreFolding(fs, f);
      assert [f.first] + PieceLines(f.rest) == [""] && Logical(f) == "";
      forall i | 0 < i < |fs + [f]| ensures ApartAt(fs + [f], i) {
        if i < |fs| {
          assert ApartAt(fs, i);
        }
      }
    }
  }

  // ---- whole texts -------------------------------------------------------------------------------------------

  function Marked(mark: bool, text: string): string {
    if mark then [BOM] + text else text
  }

  lemma EmptyLineSaysNothing(r: Reading, decode: string -> string)
    ensures TakeLines(r, [""], decode) == r && TakeLines(r, [], decode) == r
  {
    assert TakeLine(r, "", decode) == r;
    assert [""][1..] == [];
  }

  lemma StripMarked(mark: bool, text: string)
    requires text == "" || text[0] != BOM
    ensures StripBom(Marked(mark, text)) == text
  {
    assert mark ==> Marked(mark, text)[1..] == text;
  }

  lemma FirstChar(cs: seq<Card>, fs: seq<Folding>, ls: seq<Phys>)
    requires Logicals(fs) == AllLines(cs) && Cut(fs) && Lines(ls) == FoldedLines(fs)
    ensures WriteText(ls) == "" || WriteText(ls)[0] != BOM
  {
    if ls != [] {
      assert FoldedLines(fs)[0] == fs[0].first == ls[0].line;
      assert Logical(fs[0])[0] == fs[0].first[0];
      AllLinesKeyed(cs);
      LogicalAt(fs, 0);
      assert Keyed(Logical(fs[0]));
      hide WriteEnd;
      assert WriteText(ls)[0] == ls[0].line[0];
    }
  }

  // Cards written out, folded anywhere, with any line ends and with or without a byte order mark, are
  // read as the same cards with tidied names and numbers.
  lemma {:induction false} CardsRoundTrip(cs: seq<Card>, fs: seq<Folding>, ls: seq<Phys>, mark: bool, decode: string -> string)
    requires Logicals(fs) == AllLines(cs) && Cut(fs) && WellFolded(fs)
    requires Lines(ls) == FoldedLines(fs) && CleanLines(ls)
    ensures Cards(Marked(mark, WriteText(ls)), decode) == Readbacks(cs)
  {
    hide Normalized, Split, FoldedLines, Logicals, AllLines, Unfolded, TakeLines, Readbacks, WriteText, Marked, StripBom, AllKeyed;
    FirstChar(cs, fs, ls);
    StripMarked(mark, WriteText(ls));
    PhysicalLines(ls);
    var rest := Remainder(ls);
    AllLinesKeyed(cs);
    EndedFacts(fs, rest);
    UnfoldsExactlyWhen(Ended(fs, rest));
    TakesAll([], cs, rest, decode);
    EmptyLineSaysNothing(Reading([] + Readbacks(cs), None), decode);
    assert [] + Readbacks(cs) == Readbacks(cs);
  }

  // ---- what tidying leaves alone --------------------------------------------------------------------------

  // White space is single spaces.
  predicate Single(s: string) {
    forall i :: 0 <= i < |s| && IsSpace(s[i]) ==> s[i] == ' ' && (i + 1 < |s| ==> !IsSpace(s[i + 1]))
  }

  lemma {:induction false} CollapseSingle(s: string)
    ensures Single(Collapse(s))
    ensures s != "" && !IsSpace(s[0]) ==> Collapse(s) != "" && !IsSpace(Collapse(s)[0])
    ensures s == "" ==> Collapse(s) == ""
    decreases |s|
  {
    if s != "" {
      if IsSpace(s[0]) {
        TrimLeftIs(s[1..]);
        CollapseSingle(TrimLeft(s[1..]));
        assert IsSpace(' ');
      } else {
        CollapseSingle(s[1..]);
      }
    }
  }

  lemma {:induction false} SingleCollapses(s: string)
    requires Single(s)
    ensures Collapse(s) == s
    decreases |s|
  {
    if s != "" {
      assert forall i :: 0 <= i < |s[1..]| ==> s[1..][i] == s[i + 1];
      SingleCollapses(s[1..]);
      assert s == [s[0]] + s[1..];
      if IsSpace(s[0]) {
        assert TrimLeft(s[1..]) == s[1..];
      }
    }
  }

  lemma TrimKeepsSingle(s: string)
    requires Single(s)
    ensures Single(Trim(s)) && Trimmed(Trim(s))
  {
    hide Trim, IsSpace;
    var a := TrimIs(s);
    var t := Trim(s);
    forall i | 0 <= i < |t| && IsSpace(t[i]) ensures t[i] == ' ' && (i + 1 < |t| ==> !IsSpace(t[i + 1])) {
      assert t[i] == s[a + i];
    }
  }

  // A name survives exactly when its white space is single spaces inside it.
  lemma {:induction false} NameSurvivesExactlyWhen(name: string)
    ensures Trim(Collapse(NewlinesAsSpaces(name))) == name <==> Single(name) && Trimmed(name)
  {
    var spaced := NewlinesAsSpaces(name);
    CollapseSingle(spaced);
    TrimKeepsSingle(Collapse(spaced));
    if Single(name) && Trimmed(name) {
      assert '\n' !in name;
      SpacedSame(name);
      SingleCollapses(name);
      TrimTrimmed(name);
    }
  }

  predicate Number(p: string) {
    p != "" && Trimmed(p)
  }

  predicate Numbers(phones: seq<string>) {
    forall i :: 0 <= i < |phones| ==> Number(phones[i])
  }

  lemma NumbersFirst(phones: seq<string>)
    requires phones != []
    ensures Numbers(phones) <==> Number(phones[0]) && Numbers(phones[1..])
  {
    hide Number;
    assert forall i :: 0 < i < |phones| ==> phones[i] == phones[1..][i - 1];
  }

  // A list that starts with a kept number is unchanged exactly when the number and the rest are.
  lemma FirstKept(p: string, q: string, rest: seq<string>, rest': seq<string>)
    ensures [q] + rest' == [p] + rest <==> q == p && rest' == rest
  {
    assert ([q] + rest')[0] == q && ([q] + rest')[1..] == rest';
    assert ([p] + rest)[0] == p && ([p] + rest)[1..] == rest;
  }

  lemma {:induction false} NumbersSurviveExactlyWhen(phones: seq<string>)
    ensures |NonEmpty(Trims(phones))| <= |phones|
    ensures NonEmpty(Trims(phones)) == phones <==> Numbers(phones)
  {
    hide Trim, NonEmpty, Trims, Numbers, Trimmed;
    if phones == [] {
      NoNumbers();
      assert Numbers(phones) by { NothingToKeep(); }
    } else {
      var p, rest := phones[0], phones[1..];
      NumbersSurviveExactlyWhen(rest);
      NumbersCons(phones);
      TrimSameExactlyWhen(p);
      NumbersFirst(phones);
      OneNumber(Trim(p));
      assert phones == [p] + rest;
      if Trim(p) == "" {
        assert [] + NonEmpty(Trims(rest)) == NonEmpty(Trims(rest));
        assert p == "" || Trim(p) != p;
      } else {
        FirstKept(p, Trim(p), rest, NonEmpty(Trims(rest)));
        assert Number(p) <==> p == Trim(p);
      }
    }
  }

  lemma NothingToKeep()
    ensures Numbers([])
  {
  }

  lemma OneNumber(s: string)
    ensures NonEmpty([s]) == if s == "" then [] else [s]
  {
    assert [s][1..] == [];
  }

  lemma TrimSameExactlyWhen(p: string)
    ensures Trim(p) == p <==> Trimmed(p)
  {
    var a := TrimIs(p);
    if Trimmed(p) {
      TrimTrimmed(p);
    }
  }

  // A card is read back unchanged exactly when its name is tidy and its numbers are trimmed and there.
  lemma {:induction false} CardSurvivesExactlyWhen(c: Card)
    ensures Readback(c) == c <==>
              Single(c.name) && Trimmed(c.name) && Numbers(c.phones)
  {
    NameSurvivesExactlyWhen(c.name);
    NumbersSurviveExactlyWhen(c.phones);
  }

  // ---- structured names -------------------------------------------------------------------------------------

  function Tidied(parts: seq<string>, i: nat): string {
    if i < |parts| then Trim(NewlinesAsSpaces(parts[i])) else ""
  }

  lemma {:induction false} UnescapedAt(parts: seq<string>, i: nat)
    requires i < |parts|
    ensures |Escapes(parts)| == |parts| && Unescape(Escapes(parts)[i]) == NewlinesAsSpaces(parts[i])
    decreases |parts|
  {
    hide Escape, Unescape, NewlinesAsSpaces;
    if i == 0 {
      UnescapeEscape(parts[0]);
      if |parts| > 1 {
        UnescapedAt(parts[1..], 0);
      }
    } else {
      UnescapedAt(parts[1..], i - 1);
    }
  }

  lemma ComponentIs(parts: seq<string>, i: nat)
    requires parts != []
    ensures Component(Escapes(parts), i) == Tidied(parts, i)
  {
    hide Trim, Unescape, Escape, NewlinesAsSpaces;
    UnescapedAt(parts, if i < |parts| then i else 0);
  }

  // Components written as family, given, additional, prefix, suffix, any of them missing from the end,
  // are read as the name in speaking order: prefix, given, additional, family, suffix, without gaps.
  lemma {:induction false} StructuredNameIsSpoken(parts: seq<string>)
    requires parts != []
    ensures StructuredName(SplitFrom("", Join(Escapes(parts), ';'), ';')) ==
              Join(NonEmpty([Tidied(parts, 3), Tidied(parts, 1), Tidied(parts, 2), Tidied(parts, 0), Tidied(parts, 4)]), ' ')
  {
    hide Component, Tidied, Join, NonEmpty, SplitFrom, Escapes;
    SplitJoined(parts, ';');
    ComponentIs(parts, 0);
    ComponentIs(parts, 1);
    ComponentIs(parts, 2);
    ComponentIs(parts, 3);
    ComponentIs(parts, 4);
  }

  // A card without a formatted name takes the structured one.
  lemma {:induction false} StructuredCard(cards: seq<Card>, parts: seq<string>, decode: string -> string)
    requires parts != []
    ensures var n := Join(NonEmpty([Tidied(parts, 3), Tidied(parts, 1), Tidied(parts, 2), Tidied(parts, 0), Tidied(parts, 4)]), ' ');
            TakeLines(Reading(cards, None), ["BEGIN:VCARD", "N:" + Join(Escapes(parts), ';'), "END:VCARD"], decode) ==
              Reading(cards + [Card(Trim(n), [])], None)
  {
    hide Join, NonEmpty, Tidied, SplitFrom, Escapes, TakeLine, TakeLines, Finished, Trim, StructuredName;
    var value := Join(Escapes(parts), ';');
    var n := Join(NonEmpty([Tidied(parts, 3), Tidied(parts, 1), Tidied(parts, 2), Tidied(parts, 0), Tidied(parts, 4)]), ' ');
    StructuredNameIsSpoken(parts);
    var r := Reading(cards, Some(Draft("", "", [])));
    assert ["BEGIN:VCARD", "N:" + value, "END:VCARD"] == ["BEGIN:VCARD"] + (["N:" + value] + (["END:VCARD"] + []));
    TakeLinesCons(Reading(cards, None), "BEGIN:VCARD", ["N:" + value] + (["END:VCARD"] + []), decode);
    TakesBegin(Reading(cards, None), decode);
    TakeLinesCons(r, "N:" + value, ["END:VCARD"] + [], decode);
    TakesStructured(r, value, decode);
    var named := r.(card := Some(Draft("", n, [])));
    TakeLinesCons(named, "END:VCARD", [], decode);
    TakesEnd(named, decode);
    FinishedStructured(n);
    NoMoreLinesToTake(Reading(cards + [Card(Trim(n), [])], None), decode);
  }

  lemma TakesStructured(r: Reading, v: string, decode: string -> string)
    requires r.card.Some?
    ensures TakeLine(r, "N:" + v, decode) == r.(card := Some(r.card.value.(n := StructuredName(SplitFrom("", v, ';')))))
  {
    hide TakeLine, SaysVcard, Finished, StructuredName, SplitFrom;
    assert "N:" + v == "N" + (":" + v);
    TakesKeyed(r, "N", v, decode);
  }

  lemma FinishedStructured(n: string)
    ensures Finished(Draft("", n, [])) == Card(Trim(n), [])
  {
  }

  lemma NoMoreLinesToTake(r: Reading, decode: string -> string)
    ensures TakeLines(r, [], decode) == r
  {
  }
}
