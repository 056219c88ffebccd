// Reading contact exports as vCards: line ends, unfolding, escaped components and cards. Against the
// reader stand foldings (section 3.2 of RFC 6350), escaping (section 3.4) and a writer of cards.
module Vcard {
  import opened Text

  // ---- physical lines -------------------------------------------------------------------------------

  // Every line end becomes a line feed.
  function Normalized(s: string): string
    decreases |s|
  {
    if s == "" then ""
    else if s[0] == '\r' then "\n" + Normalized(if |s| > 1 && s[1] == '\n' then s[2..] else s[1..])
    else [s[0]] + Normalized(s[1..])
  }

  function Physical(text: string): seq<string> {
    Split(Normalized(StripBom(text)), '\n')
  }

  // ---- unfolding ------------------------------------------------------------------------------------

  predicate StartsBlank(line: string) {
    line != "" && (line[0] == ' ' || line[0] == '\t')
  }

  // A quoted-printable value that goes on in the next line.
  predicate OpenEnded(line: string) {
    Contains(Upper(line[..Find(line, ':')]), "QUOTED-PRINTABLE") && line != "" && line[|line| - 1] == '='
  }

  function TakePhysical(lines: seq<string>, line: string): seq<string> {
    if lines == [] then [line]
    else
      var prev := lines[|lines| - 1];
      if StartsBlank(line) then lines[|lines| - 1 := prev + line[1..]]
      else if OpenEnded(prev) then lines[|lines| - 1 := prev[..|prev| - 1] + line]
      else lines + [line]
  }

  function Unfolded(lines: seq<string>, physical: seq<string>): seq<string>
    decreases |physical|
  {
    if physical == [] then lines else Unfolded(TakePhysical(lines, physical[0]), physical[1..])
  }

  method Unfold(physical: seq<string>) returns (lines: seq<string>)
    ensures lines == Unfolded([], physical)
  {
    lines := [];
    for i := 0 to |physical|
      invariant Unfolded([], physical) == Unfolded(lines, physical[i..])
    {
      hide OpenEnded, StartsBlank;
      assert physical[i..][0] == physical[i] && physical[i..][1..] == physical[i + 1..];
      ghost var before := lines;
      var line := physical[i];
      if lines != [] && StartsBlank(line) {
        lines := lines[|lines| - 1 := lines[|lines| - 1] + line[1..]];
      } else if lines != [] && OpenEnded(lines[|lines| - 1]) {
        var prev := lines[|lines| - 1];
        lines := lines[|lines| - 1 := prev[..|prev| - 1] + line];
      } else {
        lines := lines + [line];
      }
      assert lines == TakePhysical(before, line);
    }
  }

  // A logical line as it was folded: a first piece, and pieces on lines that begin with a blank.
  datatype Piece = Piece(blank: char, text: string)
  datatype Folding = Folding(first: string, rest: seq<Piece>)

  predicate IsBlank(c: char) {
    c == ' ' || c == '\t'
  }

  predicate Blanks(rest: seq<Piece>) {
    forall i :: 0 <= i < |rest| ==> IsBlank(rest[i].blank)
  }

  function PiecesText(rest: seq<Piece>): string {
    if rest == [] then "" else rest[0].text + PiecesText(rest[1..])
  }

  function Logical(f: Folding): string {
    f.first + PiecesText(f.rest)
  }

  function PieceLines(rest: seq<Piece>): seq<string> {
    if rest == [] then [] else [[rest[0].blank] + rest[0].text] + PieceLines(rest[1..])
  }

  function FoldedLines(fs: seq<Folding>): seq<string> {
    if fs == [] then [] else [fs[0].first] + PieceLines(fs[0].rest) + FoldedLines(fs[1..])
  }

  function Logicals(fs: seq<Folding>): seq<string> {
    if fs == [] then [] else [Logical(fs[0])] + Logicals(fs[1..])
  }

  predicate WellFolded(fs: seq<Folding>) {
    forall i :: 0 <= i < |fs| ==> Blanks(fs[i].rest)
  }

  // What can go wrong between two lines: the later one begins with a blank, or the earlier one is
  // open-ended.
  predicate ApartAt(fs: seq<Folding>, i: nat)
    requires 0 < i < |fs|
  {
    !StartsBlank(fs[i].first) && !OpenEnded(Logical(fs[i - 1]))
  }

  predicate Apart(fs: seq<Folding>) {
    forall i :: 0 < i < |fs| ==> ApartAt(fs, i)
  }

  lemma ApartLater(fs: seq<Folding>)
    requires Apart(fs) && |fs| > 1
    ensures Apart(fs[1..]) && !StartsBlank(fs[1].first) && !OpenEnded(Logical(fs[0]))
  {
    hide StartsBlank, OpenEnded, Logical;
    assert ApartAt(fs, 1);
    forall i | 0 < i < |fs[1..]| ensures ApartAt(fs[1..], i) {
      assert ApartAt(fs, i + 1);
    }
  }

  lemma UnfoldedStep(lines: seq<string>, line: string, physical: seq<string>)
    ensures Unfolded(lines, [line] + physical) == Unfolded(TakePhysical(lines, line), physical)
  {
    assert ([line] + physical)[1..] == physical;
  }

  // Continuation lines extend the line before them.
  lemma {:induction false} TakesPieces(before: seq<string>, line: string, rest: seq<Piece>, more: seq<string>)
    requires Blanks(rest)
    ensures Unfolded(before + [line], PieceLines(rest) + more) == Unfolded(before + [line + PiecesText(rest)], more)
    decreases |rest|
  {
    if rest == [] {
      assert line + "" == line && [] + more == more;
    } else {
      hide Unfolded, OpenEnded;
      var head := [rest[0].blank] + rest[0].text;
      var lines := before + [line];
      assert PieceLines(rest) + more == [head] + (PieceLines(rest[1..]) + more);
      UnfoldedStep(lines, head, PieceLines(rest[1..]) + more);
      assert StartsBlank(head) && head[1..] == rest[0].text;
      assert TakePhysical(lines, head) == before + [line + rest[0].text];
      TakesPieces(before, line + rest[0].text, rest[1..], more);
      Assoc(line, rest[0].text, PiecesText(rest[1..]));
    }
  }

  lemma TakesLine(lines: seq<string>, line: string)
    requires lines == [] || (!StartsBlank(line) && !OpenEnded(lines[|lines| - 1]))
    ensures TakePhysical(lines, line) == lines + [line]
  {
  }

  lemma FoldedStep(fs: seq<Folding>)
    requires fs != []
    ensures FoldedLines(fs) == [fs[0].first] + (PieceLines(fs[0].rest) + FoldedLines(fs[1..]))
  {
  }

  lemma {:induction false} UnfoldsApart(lines: seq<string>, fs: seq<Folding>)
    requires WellFolded(fs) && Apart(fs)
    requires lines != [] && fs != [] ==> !StartsBlank(fs[0].first) && !OpenEnded(lines[|lines| - 1])
    ensures Unfolded(lines, FoldedLines(fs)) == lines + Logicals(fs)
    decreases |fs|
  {
    if fs != [] {
      hide Unfolded, OpenEnded, StartsBlank, FoldedLines, Apart;
      var f := fs[0];
      FoldedStep(fs);
      UnfoldedStep(lines, f.first, PieceLines(f.rest) + FoldedLines(fs[1..]));
      TakesLine(lines, f.first);
      TakesPieces(lines, f.first, f.rest, FoldedLines(fs[1..]));
      assert lines + [f.first + PiecesText(f.rest)] == lines + [Logical(f)];
      if |fs| > 1 {
        ApartLater(fs);
      }
      UnfoldsApart(lines + [Logical(f)], fs[1..]);
      Assoc(lines, [Logical(f)], Logicals(fs[1..]));
    } else {
      assert lines + [] == lines;
    }
  }

  // Unfolding never makes more lines than there were foldings.
  lemma {:induction false} NoMoreLines(lines: seq<string>, fs: seq<Folding>)
    requires WellFolded(fs)
    ensures |Unfolded(lines, FoldedLines(fs))| <= |lines| + |fs|
    decreases |fs|
  {
    if fs != [] {
      hide Unfolded, OpenEnded, StartsBlank, FoldedLines;
      FoldedStep(fs);
      UnfoldedStep(lines, fs[0].first, PieceLines(fs[0].rest) + FoldedLines(fs[1..]));
      var lines' := TakePhysical(lines, fs[0].first);
      var before, last := lines'[..|lines'| - 1], lines'[|lines'| - 1];
      assert lines' == before + [last];
      TakesPieces(before, last, fs[0].rest, FoldedLines(fs[1..]));
      NoMoreLines(before + [last + PiecesText(fs[0].rest)], fs[1..]);
    }
  }

  lemma {:induction false} UnfoldsFewer(lines: seq<string>, fs: seq<Folding>)
    requires WellFolded(fs) && lines != [] && fs != []
    requires !Apart(fs) || StartsBlank(fs[0].first) || OpenEnded(lines[|lines| - 1])
    ensures |Unfolded(lines, FoldedLines(fs))| < |lines| + |fs|
    decreases |fs|
  {
    hide Unfolded, FoldedLines;
    var f := fs[0];
    FoldedStep(fs);
    UnfoldedStep(lines, f.first, PieceLines(f.rest) + FoldedLines(fs[1..]));
    if StartsBlank(f.first) || OpenEnded(lines[|lines| - 1]) {
      var lines' := TakePhysical(lines, f.first);
      var before, last := lines'[..|lines'| - 1], lines'[|lines'| - 1];
      assert lines' == before + [last] && |lines'| == |lines|;
      TakesPieces(before, last, f.rest, FoldedLines(fs[1..]));
      NoMoreLines(before + [last + PiecesText(f.rest)], fs[1..]);
    } else {
      TakesLine(lines, f.first);
      TakesPieces(lines, f.first, f.rest, FoldedLines(fs[1..]));
      NotApartLater(fs);
      UnfoldsFewer(lines + [Logical(f)], fs[1..]);
    }
  }

  lemma NotApartLater(fs: seq<Folding>)
    requires !Apart(fs)
    ensures |fs| > 1
    ensures !Apart(fs[1..]) || StartsBlank(fs[1].first) || OpenEnded(Logical(fs[0]))
  {
    hide StartsBlank, OpenEnded, Logical;
    var i: nat :| 0 < i < |fs| && !ApartAt(fs, i);
    if i > 1 {
      assert !ApartAt(fs[1..], i - 1);
    }
  }

  lemma {:induction false} LogicalsLength(fs: seq<Folding>)
    ensures |Logicals(fs)| == |fs|
  {
    if fs != [] {
      LogicalsLength(fs[1..]);
    }
  }

  // Unfolding gives the logical lines back, however they were folded, exactly when no later line
  // begins with a blank and none before the last is an open-ended quoted-printable one.
  lemma {:induction false} UnfoldsExactlyWhen(fs: seq<Folding>)
    requires WellFolded(fs)
    ensures Unfolded([], FoldedLines(fs)) == Logicals(fs) <==> Apart(fs)
  {
    if Apart(fs) {
      UnfoldsApart([], fs);
      assert [] + Logicals(fs) == Logicals(fs);
    } else {
      hide Unfolded, FoldedLines, OpenEnded, StartsBlank;
      var f := fs[0];
      NotApartLater(fs);
      FoldedStep(fs);
      UnfoldedStep([], f.first, PieceLines(f.rest) + FoldedLines(fs[1..]));
      assert TakePhysical([], f.first) == [] + [f.first];
      TakesPieces([], f.first, f.rest, FoldedLines(fs[1..]));
      assert [] + [Logical(f)] == [Logical(f)];
      UnfoldsFewer([Logical(f)], fs[1..]);
      LogicalsLength(fs);
    }
  }

  // ---- components -------------------------------------------------------------------------------------

  // Split at separators that no backslash escapes; `cur` is the component being read.
  function SplitFrom(cur: string, value: string, sep: char): (parts: seq<string>)
    ensures parts != []
    decreases |value|
  {
    if value == "" then [cur]
    else if value[0] == '\\' && |value| > 1 then SplitFrom(cur + value[..2], value[2..], sep)
    else if value[0] == sep then [cur] + SplitFrom("", value[1..], sep)
    else SplitFrom(cur + [value[0]], value[1..], sep)
  }

  method SplitUnescaped(value: string, sep: char) returns (out: seq<string>)
    ensures out == SplitFrom("", value, sep)
  {
    out := [];
    var cur := "";
    var i := 0;
    assert [] + SplitFrom("", value, sep) == SplitFrom("", value, sep) && value[0..] == value;
    while i < |value|
      invariant i <= |value| && SplitFrom("", value, sep) == out + SplitFrom(cur, value[i..], sep)
    {
      ghost var rest := value[i..];
      assert rest[0] == value[i] && rest[1..] == value[i + 1..];
      if value[i] == '\\' && i + 1 < |value| {
        assert rest[..2] == [value[i], value[i + 1]] && rest[2..] == value[i + 2..];
        cur := cur + [value[i], value[i + 1]];
        i := i + 2;
      } else if value[i] == sep {
        Assoc(out, [cur], SplitFrom("", rest[1..], sep));
        out, cur, i := out + [cur], "", i + 1;
      } else {
        cur, i := cur + [value[i]], i + 1;
      }
    }
    out := out + [cur];
  }

  lemma {:induction false} SplitFromLossless(cur: string, value: string, sep: char)
    ensures Join(SplitFrom(cur, value, sep), sep) == cur + value
    decreases |value|
  {
    if value == "" {
      assert cur + "" == cur;
    } else {
      hide Join;
      if value[0] == '\\' && |value| > 1 {
        SplitFromLossless(cur + value[..2], value[2..], sep);
        assert cur + value[..2] + value[2..] == cur + value;
      } else if value[0] == sep {
        SplitFromLossless("", value[1..], sep);
        JoinCons(cur, SplitFrom("", value[1..], sep), sep);
        assert cur + [sep] + ("" + value[1..]) == cur + value;
      } else {
        SplitFromLossless(cur + [value[0]], value[1..], sep);
        assert cur + [value[0]] + value[1..] == cur + value;
      }
    }
  }

  // Nothing is lost: joining the parts with the separator gives the value back.
  lemma {:induction false} SplitIsLossless(value: string, sep: char)
    ensures Join(SplitFrom("", value, sep), sep) == value
  {
    SplitFromLossless("", value, sep);
    assert "" + value == value;
  }

  predicate Escapable(c: char) {
    c == '\\' || c == ';' || c == ','
  }

  function Unescape(value: string): string
    decreases |value|
  {
    if value == "" then ""
    else if value[0] == '\\' && |value| > 1 && Escapable(value[1]) then [value[1]] + Unescape(value[2..])
    else if value[0] == '\\' && |value| > 1 && (value[1] == 'n' || value[1] == 'N') then " " + Unescape(value[2..])
    else [value[0]] + Unescape(value[1..])
  }

  // Section 3.4 of RFC 6350.
  function EscapeChar(c: char): string {
    if Escapable(c) then ['\\', c] else if c == '\n' then "\\n" else [c]
  }

  function Escape(s: string): string {
    if s == "" then "" else EscapeChar(s[0]) + Escape(s[1..])
  }

  function NewlinesAsSpaces(s: string): string {
    if s == "" then "" else [if s[0] == '\n' then ' ' else s[0]] + NewlinesAsSpaces(s[1..])
  }

  lemma UnescapeStep(c: char, rest: string)
    ensures Unescape(EscapeChar(c) + rest) == [if c == '\n' then ' ' else c] + Unescape(rest)
  {
    var v := EscapeChar(c) + rest;
    if |EscapeChar(c)| == 2 {
      assert v[2..] == rest;
    } else {
      assert v[1..] == rest;
    }
  }

  lemma {:induction false} UnescapeEscape(s: string)
    ensures Unescape(Escape(s)) == NewlinesAsSpaces(s)
  {
    if s != "" {
      UnescapeEscape(s[1..]);
      UnescapeStep(s[0], Escape(s[1..]));
    }
  }

  lemma {:induction false} SpacedSame(s: string)
    ensures NewlinesAsSpaces(s) == s <==> '\n' !in s
    ensures |NewlinesAsSpaces(s)| == |s|
  {
    if s != "" {
      SpacedSame(s[1..]);
      assert s == [s[0]] + s[1..];
      if s[0] != '\n' {
        assert NewlinesAsSpaces(s) == s <==> NewlinesAsSpaces(s)[1..] == s[1..];
        assert '\n' in s <==> '\n' in s[1..];
      } else {
        assert NewlinesAsSpaces(s)[0] != s[0];
      }
    }
  }

  function Escapes(parts: seq<string>): seq<string> {
    if parts == [] then [] else [Escape(parts[0])] + Escapes(parts[1..])
  }

  function Unescapes(parts: seq<string>): seq<string> {
    if parts == [] then [] else [Unescape(parts[0])] + Unescapes(parts[1..])
  }

  function Spaceds(parts: seq<string>): seq<string> {
    if parts == [] then [] else [NewlinesAsSpaces(parts[0])] + Spaceds(parts[1..])
  }

  lemma SplitFromChar(cur: string, c: char, rest: string, sep: char)
    requires Escapable(sep) && sep != '\\'
    ensures SplitFrom(cur, EscapeChar(c) + rest, sep) == SplitFrom(cur + EscapeChar(c), rest, sep)
  {
    var v := EscapeChar(c) + rest;
    if |EscapeChar(c)| == 2 {
      assert v[..2] == EscapeChar(c) && v[2..] == rest;
    } else {
      assert v[1..] == rest && v[0] == c;
    }
  }

  // An escaped component is taken whole.
  lemma {:induction false} SplitFromEscaped(cur: string, s: string, rest: string, sep: char)
    requires Escapable(sep) && sep != '\\'
    ensures SplitFrom(cur, Escape(s) + rest, sep) == SplitFrom(cur + Escape(s), rest, sep)
    decreases |s|
  {
    hide SplitFrom, EscapeChar;
    if s == "" {
      assert "" + rest == rest && cur + "" == cur;
    } else {
      Assoc(EscapeChar(s[0]), Escape(s[1..]), rest);
      SplitFromChar(cur, s[0], Escape(s[1..]) + rest, sep);
      SplitFromEscaped(cur + EscapeChar(s[0]), s[1..], rest, sep);
      Assoc(cur, EscapeChar(s[0]), Escape(s[1..]));
    }
  }

  lemma {:induction false} SplitJoined(parts: seq<string>, sep: char)
    requires parts != [] && Escapable(sep) && sep != '\\'
    ensures SplitFrom("", Join(Escapes(parts), sep), sep) == Escapes(parts)
    decreases |parts|
  {
    var first := Escape(parts[0]);
    if |parts| == 1 {
      assert Escapes(parts) == [first];
      SplitFromEscaped("", parts[0], "", sep);
      assert first + "" == first && "" + first == first;
    } else {
      hide SplitFrom, Escape, Join;
      var others := Escapes(parts[1..]);
      JoinCons(first, others, sep);
      var rest := [sep] + Join(others, sep);
      Assoc(first, [sep], Join(others, sep));
      SplitFromEscaped("", parts[0], rest, sep);
      assert "" + first == first;
      SplitAtSep(first, Join(others, sep), sep);
      SplitJoined(parts[1..], sep);
    }
  }

  lemma SplitAtSep(cur: string, rest: string, sep: char)
    requires sep != '\\'
    ensures SplitFrom(cur, [sep] + rest, sep) == [cur] + SplitFrom("", rest, sep)
  {
    assert ([sep] + rest)[1..] == rest;
  }

  lemma {:induction false} UnescapesEscapes(parts: seq<string>)
    ensures Unescapes(Escapes(parts)) == Spaceds(parts)
  {
    if parts != [] {
      UnescapesEscapes(parts[1..]);
      UnescapeEscape(parts[0]);
    }
  }

  lemma {:induction false} SpacedsSame(parts: seq<string>)
    ensures |Spaceds(parts)| == |parts|
    ensures Spaceds(parts) == parts <==> forall i :: 0 <= i < |parts| ==> '\n' !in parts[i]
  {
    if parts != [] {
      SpacedsSame(parts[1..]);
      SpacedSame(parts[0]);
      assert Spaceds(parts)[0] == NewlinesAsSpaces(parts[0]) && Spaceds(parts)[1..] == Spaceds(parts[1..]);
      assert parts == [parts[0]] + parts[1..];
      assert (forall i :: 0 <= i < |parts| ==> '\n' !in parts[i]) <==>
        '\n' !in parts[0] && (forall i :: 0 <= i < |parts[1..]| ==> '\n' !in parts[1..][i]) by {
        assert forall i :: 0 < i < |parts| ==> parts[i] == parts[1..][i - 1];
      }
    }
  }

  // Escape, join, split, unescape gives the components back with line feeds as spaces; so it is the
  // identity exactly on components without line feeds.
  lemma {:induction false} ComponentsRoundTrip(parts: seq<string>, sep: char)
    requires parts != [] && (sep == ';' || sep == ',')
    ensures Unescapes(SplitFrom("", Join(Escapes(parts), sep), sep)) == Spaceds(parts)
    ensures Unescapes(SplitFrom("", Join(Escapes(parts), sep), sep)) == parts <==> forall i :: 0 <= i < |parts| ==> '\n' !in parts[i]
  {
    SplitJoined(parts, sep);
    UnescapesEscapes(parts);
    SpacedsSame(parts);
  }
}
