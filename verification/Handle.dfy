// The handle grammar: canonical names, the namespaces people's agents live under, and the wildcards
// that cover them.
module Handle {
  import opened Common
  import opened Text

  const MAX_HANDLE := 320
  const MAX_NAMESPACE := 32
  const MAX_NAME := 39
  const MAX_ADDRESS := 254
  const MAX_LABEL := 63

  // ---- segments ---------------------------------------------------------------------------------------

  datatype What = Namespace | Name

  datatype Why =
    | NotAscii | HandleTooLong | TooManyParts | ExpectedName | UseGithub
    | AddressTooLong | OneAt | AddressIncomplete | AddressChars | AddressEdge
    | DomainIncomplete | DomainChars | LabelDash
    | Empty(what: What) | TooLong(what: What) | Chars(what: What) | Edge(what: What)

  predicate IsAlnum(c: char) {
    'a' <= c <= 'z' || 'A' <= c <= 'Z' || '0' <= c <= '9'
  }

  predicate PlainChar(c: char) {
    IsAlnum(c) || c == '-' || c == '_' || c == '.'
  }

  predicate LocalChar(c: char) {
    IsAlnum(c) || c in "!$&'*+-=^_`{|}~."
  }

  predicate LabelChar(c: char) {
    IsAlnum(c) || c == '-'
  }

  predicate EdgeMark(c: char) {
    c == '-' || c == '.' || c == '@'
  }

  predicate EdgeMarked(s: string) {
    s != "" && (EdgeMark(s[0]) || EdgeMark(s[|s| - 1]))
  }

  predicate Every(s: string, p: char -> bool) {
    forall i :: 0 <= i < |s| ==> p(s[i])
  }

  predicate Ascii(s: string) {
    forall i :: 0 <= i < |s| ==> s[i] as int <= 0x7f
  }

  function Before(s: string, c: char): string {
    s[..Find(s, c)]
  }

  function After(s: string, c: char): string {
    var i := Find(s, c);
    if i < |s| then s[i + 1..] else ""
  }

  predicate LooksLikeAddress(s: string) {
    '@' in s && Before(s, '@') != "" && '.' in After(s, '@')
  }

  function LabelBad(l: string): Option<Why> {
    if l == "" || |l| > MAX_LABEL then Some(DomainIncomplete)
    else if !Every(l, LabelChar) then Some(DomainChars)
    else if l[0] == '-' || l[|l| - 1] == '-' then Some(LabelDash)
    else None
  }

  function LabelsBad(ls: seq<string>): Option<Why> {
    if ls == [] then None else if LabelBad(ls[0]).Some? then LabelBad(ls[0]) else LabelsBad(ls[1..])
  }

  function AddressBad(s: string): Option<Why> {
    var local, domain := Before(s, '@'), After(s, '@');
    if |s| > MAX_ADDRESS then Some(AddressTooLong)
    else if '@' in domain then Some(OneAt)
    else if local == "" || domain == "" then Some(AddressIncomplete)
    else if !Every(local, LocalChar) then Some(AddressChars)
    else if EdgeMarked(local) then Some(AddressEdge)
    else if |Split(domain, '.')| < 2 then Some(DomainIncomplete)
    else LabelsBad(Split(domain, '.'))
  }

  function PlainBad(s: string, max: nat, what: What): Option<Why> {
    if s == "" then Some(Empty(what))
    else if |s| > max then Some(TooLong(what))
    else if !Every(s, PlainChar) then Some(Chars(what))
    else if EdgeMarked(s) then Some(Edge(what))
    else None
  }

  function SegmentBad(s: string, max: nat, what: What): Option<Why> {
    if LooksLikeAddress(s) then AddressBad(s) else PlainBad(s, max, what)
  }

  function NamesBad(segs: seq<string>): Option<Why> {
    if segs == [] then None
    else if SegmentBad(segs[0], MAX_NAME, Name).Some? then SegmentBad(segs[0], MAX_NAME, Name)
    else NamesBad(segs[1..])
  }

  function SegmentsBad(segs: seq<string>): Option<Why>
    requires segs != []
  {
    if |segs| > 3 then Some(TooManyParts)
    else if |segs| == 1 then (if LooksLikeAddress(segs[0]) then AddressBad(segs[0]) else Some(ExpectedName))
    else if Lower(segs[0]) == "gh" then Some(UseGithub)
    else if SegmentBad(segs[0], MAX_NAMESPACE, Namespace).Some? then SegmentBad(segs[0], MAX_NAMESPACE, Namespace)
    else NamesBad(segs[1..])
  }

  // ---- canonical handles --------------------------------------------------------------------------------

  datatype Result = Silent | Refused(why: Why) | Accepted(handle: string)

  function Lowers(segs: seq<string>): seq<string> {
    if segs == [] then [] else [Lower(segs[0])] + Lowers(segs[1..])
  }

  function Unslashed(raw: string): string {
    if raw != "" && raw[0] == '/' then raw[1..] else raw
  }

  function Segments(raw: string): (segs: seq<string>)
    ensures segs != []
  {
    Split(Unslashed(raw), '/')
  }

  function Spelled(segs: seq<string>): string {
    "/" + Join(segs, '/')
  }

  function Canonical(input: string): Result {
    var raw := Trim(input);
    if raw == "" then Silent
    else if !Ascii(raw) then Refused(NotAscii)
    else if |raw| > MAX_HANDLE then Refused(HandleTooLong)
    else
      match SegmentsBad(Segments(raw))
      case Some(why) => Refused(why)
      case None => Accepted(Spelled(Lowers(Segments(raw))))
  }

  // ---- case does not matter -----------------------------------------------------------------------------

  // Characters that are their own lower case and nothing else's.
  predicate Caseless(c: char) {
    !('a' <= c <= 'z') && !('A' <= c <= 'Z')
  }

  lemma {:induction false} LowerFind(s: string, c: char)
    requires Caseless(c)
    ensures Find(Lower(s), c) == Find(s, c) && (c in Lower(s) <==> c in s)
  {
    var l := Lower(s);
    var i := Find(s, c);
    if i < |s| {
      FindAt(l, c, i);
      assert l[i] in l;
    } else {
      var k := Find(l, c);
      assert k < |l| ==> l[k] == LowerChar(s[k]);
    }
  }

  lemma LowerTake(s: string, i: nat, j: nat)
    requires i <= j <= |s|
    ensures Lower(s)[i..j] == Lower(s[i..j])
  {
  }

  lemma LowerLower(s: string)
    ensures Lower(Lower(s)) == Lower(s)
  {
  }

  lemma LowerEvery(s: string)
    ensures Every(Lower(s), PlainChar) == Every(s, PlainChar)
    ensures Every(Lower(s), LabelChar) == Every(s, LabelChar)
    ensures Ascii(Lower(s)) == Ascii(s)
  {
    var l := Lower(s);
    assert forall i :: 0 <= i < |s| ==> PlainChar(l[i]) == PlainChar(s[i]) && LabelChar(l[i]) == LabelChar(s[i]);
    assert forall i :: 0 <= i < |s| ==> (l[i] as int <= 0x7f <==> s[i] as int <= 0x7f);
    assert (forall i :: 0 <= i < |s| ==> PlainChar(l[i])) <==> (forall i :: 0 <= i < |s| ==> PlainChar(s[i]));
  }

  lemma LowerLocal(s: string)
    ensures Every(Lower(s), LocalChar) == Every(s, LocalChar)
  {
    var l := Lower(s);
    forall i | 0 <= i < |s| ensures LocalChar(l[i]) == LocalChar(s[i]) {
      LocalCharBlind(s[i]);
    }
  }

  lemma LocalCharBlind(c: char)
    ensures LocalChar(LowerChar(c)) == LocalChar(c)
  {
  }

  lemma LowerEdge(s: string)
    ensures EdgeMarked(Lower(s)) == EdgeMarked(s)
  {
  }

  lemma LowerParts(s: string, c: char)
    requires Caseless(c)
    ensures Before(Lower(s), c) == Lower(Before(s, c)) && After(Lower(s), c) == Lower(After(s, c))
  {
    hide Find;
    LowerFind(s, c);
  }

  lemma {:induction false} LowerSplit(s: string, c: char)
    requires Caseless(c)
    ensures Split(Lower(s), c) == Lowers(Split(s, c))
    decreases |s|
  {
    hide Find, Lower;
    var i := Find(s, c);
    LowerFind(s, c);
    if i < |s| {
      LowerTake(s, 0, i);
      LowerTake(s, i + 1, |s|);
      LowerSplit(s[i + 1..], c);
      assert Lower(s)[..i] == Lower(s[..i]) && Lower(s)[i + 1..] == Lower(s[i + 1..]);
      LowersCons(s[..i], Split(s[i + 1..], c));
    } else {
      assert Lowers([s]) == [Lower(s)];
    }
  }

  lemma LowersCons(s: string, segs: seq<string>)
    ensures Lowers([s] + segs) == [Lower(s)] + Lowers(segs)
  {
    assert ([s] + segs)[1..] == segs;
  }

  lemma LowerLooks(s: string)
    ensures LooksLikeAddress(Lower(s)) == LooksLikeAddress(s)
  {
    hide Find, Lower, Before, After;
    LowerFind(s, '@');
    LowerParts(s, '@');
    LowerFind(After(s, '@'), '.');
  }

  lemma LowerLabel(l: string)
    ensures LabelBad(Lower(l)) == LabelBad(l)
  {
    LowerEvery(l);
  }

  lemma {:induction false} LowerLabels(ls: seq<string>)
    ensures LabelsBad(Lowers(ls)) == LabelsBad(ls)
  {
    hide LabelBad, Lower;
    if ls != [] {
      LowerLabel(ls[0]);
      LowerLabels(ls[1..]);
      assert Lowers(ls)[1..] == Lowers(ls[1..]);
    }
  }

  lemma {:induction false} LowersLength(segs: seq<string>)
    ensures |Lowers(segs)| == |segs|
  {
    if segs != [] {
      LowersLength(segs[1..]);
    }
  }

  lemma LowerAddress(s: string)
    ensures AddressBad(Lower(s)) == AddressBad(s)
  {
    hide Find, Before, After, LabelsBad, Split, EdgeMarked, Every, LocalChar;
    LowerParts(s, '@');
    var local, domain := Before(s, '@'), After(s, '@');
    LowerFind(domain, '@');
    LowerLocal(local);
    LowerEdge(local);
    LowerSplit(domain, '.');
    LowersLength(Split(domain, '.'));
    LowerLabels(Split(domain, '.'));
  }

  lemma LowerSegment(s: string, max: nat, what: What)
    ensures SegmentBad(Lower(s), max, what) == SegmentBad(s, max, what)
  {
    hide AddressBad, LooksLikeAddress, EdgeMarked, Every;
    LowerLooks(s);
    LowerAddress(s);
    LowerEvery(s);
    LowerEdge(s);
  }

  lemma {:induction false} LowerNames(segs: seq<string>)
    ensures NamesBad(Lowers(segs)) == NamesBad(segs)
  {
    hide SegmentBad, Lower;
    if segs != [] {
      LowerSegment(segs[0], MAX_NAME, Name);
      LowerNames(segs[1..]);
      assert Lowers(segs)[1..] == Lowers(segs[1..]);
    }
  }

  lemma LowerSegments(segs: seq<string>)
    requires segs != []
    ensures Lowers(segs) != [] && SegmentsBad(Lowers(segs)) == SegmentsBad(segs)
  {
    hide SegmentBad, AddressBad, LooksLikeAddress, Lower, NamesBad;
    LowersLength(segs);
    assert Lowers(segs)[0] == Lower(segs[0]) && Lowers(segs)[1..] == Lowers(segs[1..]);
    LowerLower(segs[0]);
    LowerLooks(segs[0]);
    LowerAddress(segs[0]);
    LowerSegment(segs[0], MAX_NAMESPACE, Namespace);
    LowerNames(segs[1..]);
  }

  lemma {:induction false} LowerTrimLeft(s: string)
    ensures TrimLeft(Lower(s)) == Lower(TrimLeft(s))
  {
    if s != "" {
      assert Lower(s)[1..] == Lower(s[1..]);
      LowerTrimLeft(s[1..]);
    }
  }

  lemma {:induction false} LowerTrimRight(s: string)
    ensures TrimRight(Lower(s)) == Lower(TrimRight(s))
  {
    if s != "" {
      assert Lower(s)[..|s| - 1] == Lower(s[..|s| - 1]);
      LowerTrimRight(s[..|s| - 1]);
    }
  }

  lemma {:induction false} LowersLowers(segs: seq<string>)
    ensures Lowers(Lowers(segs)) == Lowers(segs)
  {
    hide Lower;
    if segs != [] {
      LowersLowers(segs[1..]);
      LowerLower(segs[0]);
      assert Lowers(segs)[1..] == Lowers(segs[1..]);
    }
  }

  lemma LowerUnslashed(raw: string)
    ensures Unslashed(Lower(raw)) == Lower(Unslashed(raw))
  {
  }

  lemma {:induction false} CanonicalOfLower(input: string)
    ensures Canonical(Lower(input)) == Canonical(input)
  {
    hide Lower, SegmentsBad, Lowers, Ascii, Split, Unslashed;
    LowerTrimLeft(input);
    LowerTrimRight(TrimLeft(input));
    var raw := Trim(input);
    assert Trim(Lower(input)) == Lower(raw);
    LowerEvery(raw);
    LowerUnslashed(raw);
    LowerSplit(Unslashed(raw), '/');
    LowerSegments(Segments(raw));
    LowersLowers(Segments(raw));
  }

  // Two spellings that differ only in case get the same answer: the same handle, or the same refusal.
  lemma {:induction false} CaseDoesNotMatter(a: string, b: string)
    requires Lower(a) == Lower(b)
    ensures Canonical(a) == Canonical(b)
  {
    CanonicalOfLower(a);
    CanonicalOfLower(b);
  }

  // ---- canonical handles are canonical --------------------------------------------------------------------

  lemma SpelledSegments(raw: string)
    ensures Spelled(Lowers(Segments(raw))) == "/" + Lower(Unslashed(raw))
  {
    hide Lower, Lowers, Split, Unslashed, Join;
    LowerSplit(Unslashed(raw), '/');
    JoinSplit(Lower(Unslashed(raw)), '/');
  }

  lemma EmptyIsBad()
    ensures Segments("/") == [""] && SegmentsBad([""]).Some?
  {
    assert Unslashed("/") == "";
    assert Split("", '/') == [""];
  }

  lemma AcceptedRaw(input: string, h: string)
    requires Canonical(input) == Accepted(h)
    ensures var raw := Trim(input);
            && raw != "" && raw != "/" && Trimmed(raw) && Ascii(raw) && |raw| <= MAX_HANDLE
            && SegmentsBad(Segments(raw)).None? && h == Spelled(Lowers(Segments(raw))) == "/" + Lower(Unslashed(raw))
  {
    hide Trim, Lower, Split, SegmentsBad, Lowers, Ascii, Trimmed, Spelled, Unslashed;
    SpelledSegments(Trim(input));
    EmptyIsBad();
    var a := TrimIs(input);
  }

  // An accepted handle is trimmed ASCII, at most one character longer than the text it came from.
  lemma SlashLower(raw: string)
    requires raw != "" && raw != "/" && Trimmed(raw) && Ascii(raw)
    ensures var h := "/" + Lower(Unslashed(raw));
            Trimmed(h) && Ascii(h) && |h| <= |raw| + 1 && Unslashed(h) == Lower(Unslashed(raw))
  {
    var body := Unslashed(raw);
    var h := "/" + Lower(body);
    assert body != "" && body[|body| - 1] == raw[|raw| - 1];
    assert h[|h| - 1] == LowerChar(raw[|raw| - 1]);
    assert Ascii(body);
    LowerEvery(body);
  }

  // A canonical handle is its own canonical form exactly when it fits: a text of the full length
  // without the leading slash makes a handle one character too long for its own grammar.
  lemma {:induction false} IdempotentExactlyWhen(input: string, h: string)
    requires Canonical(input) == Accepted(h)
    ensures Canonical(h) == (if |h| <= MAX_HANDLE then Accepted(h) else Refused(HandleTooLong))
  {
    hide Trim, Lower, Split, SegmentsBad, Lowers, Ascii, Trimmed, Spelled, Unslashed;
    AcceptedRaw(input, h);
    SlashLower(Trim(input));
    TrimTrimmed(h);
    var body := Unslashed(Trim(input));
    LowerSplit(body, '/');
    LowerSegments(Segments(Trim(input)));
    LowersLowers(Segments(Trim(input)));
  }

  function Repeat(n: nat): string {
    if n == 0 then "" else "a" + Repeat(n - 1)
  }

  lemma {:induction false} RepeatFacts(n: nat)
    ensures |Repeat(n)| == n && forall i :: 0 <= i < n ==> Repeat(n)[i] == 'a'
  {
    if n > 0 {
      RepeatFacts(n - 1);
    }
  }

  lemma RepeatPlain(n: nat)
    requires 0 < n <= MAX_NAME
    ensures SegmentBad(Repeat(n), MAX_NAME, Name).None?
  {
    RepeatFacts(n);
    assert '@' !in Repeat(n);
  }

  lemma ShortDomain()
    ensures Split("b.c", '.') == ["b", "c"] && LabelsBad(["b", "c"]).None? && '.' in "b.c" && '@' !in "b.c"
  {
    FindAt("b.c", '.', 1);
    assert "b.c"[..1] == "b" && "b.c"[2..] == "c";
    assert Find("c", '.') == 1;
    assert Split("c", '.') == ["c"];
    assert LabelBad("b").None? && LabelBad("c").None?;
    assert ["b", "c"][1..] == ["c"] && ["c"][1..] == [];
    assert LabelsBad(["c"]).None?;
    assert "b.c"[1] == '.';
  }

  lemma LongLocal(local: string)
    requires local == Repeat(250)
    ensures |local| == 250 && Every(local, LocalChar) && !EdgeMarked(local) && '@' !in local
  {
    RepeatFacts(250);
    hide Repeat;
  }

  lemma LongAddress()
    ensures var a := Repeat(250) + "@b.c";
            |a| == 254 && LooksLikeAddress(a) && AddressBad(a).None?
  {
    hide Repeat, Every, EdgeMarked, LabelsBad, Split;
    var local := Repeat(250);
    LongLocal(local);
    ShortDomain();
    var a := local + "@b.c";
    FindAt(a, '@', 250);
    assert Before(a, '@') == local && After(a, '@') == "b.c";
    assert a[250] in a;
  }

  lemma {:induction false} SplitSlashless(s: string, rest: string)
    requires '/' !in s
    ensures Split(s + ("/" + rest), '/') == [s] + Split(rest, '/') && Split(s, '/') == [s]
  {
    var text := s + ("/" + rest);
    FindAt(text, '/', |s|);
    assert text[..|s|] == s && text[|s| + 1..] == rest;
    assert Find(s, '/') == |s|;
  }

  function Longest(): string {
    Repeat(250) + "@b.c" + ("/" + (Repeat(39) + ("/" + Repeat(25))))
  }

  lemma ThreeSegments(a: string, b: string, c: string)
    requires a != "" && '/' !in a && '/' !in b && '/' !in c
    ensures Segments(a + ("/" + (b + ("/" + c)))) == [a, b, c]
  {
    hide Split;
    var s := a + ("/" + (b + ("/" + c)));
    assert s[0] == a[0] && a[0] in a;
    SplitSlashless(a, b + ("/" + c));
    SplitSlashless(b, c);
    SplitSlashless(c, "");
  }

  lemma LongestSegments()
    ensures Segments(Longest()) == [Repeat(250) + "@b.c", Repeat(39), Repeat(25)]
  {
    RepeatFacts(250);
    RepeatFacts(39);
    RepeatFacts(25);
    hide Repeat, Segments;
    ThreeSegments(Repeat(250) + "@b.c", Repeat(39), Repeat(25));
  }

  lemma RepeatAscii(n: nat)
    ensures |Repeat(n)| == n && Ascii(Repeat(n))
  {
    RepeatFacts(n);
  }

  lemma AsciiConcat(a: string, b: string)
    requires Ascii(a) && Ascii(b)
    ensures Ascii(a + b)
  {
  }

  lemma LongestText()
    ensures |Longest()| == 320 && Trimmed(Longest()) && Ascii(Longest()) && |Unslashed(Longest())| == 320
  {
    hide Repeat, Ascii;
    var a, b, c := Repeat(250), Repeat(39), Repeat(25);
    RepeatAscii(250);
    RepeatAscii(39);
    RepeatAscii(25);
    assert Ascii("@b.c") && Ascii("/") by { ShortAscii(); }
    AsciiConcat("/", c);
    AsciiConcat(b, "/" + c);
    AsciiConcat("/", b + ("/" + c));
    AsciiConcat(a, "@b.c");
    AsciiConcat(a + "@b.c", "/" + (b + ("/" + c)));
    LongestEnds();
  }

  lemma ShortAscii()
    ensures Ascii("@b.c") && Ascii("/")
  {
  }

  lemma LongestEnds()
    ensures Longest() != "" && Longest()[0] == 'a' && Longest()[|Longest()| - 1] == 'a'
  {
    RepeatFacts(250);
    RepeatFacts(25);
    hide Repeat;
    var s, c := Longest(), Repeat(25);
    assert s[|s| - 1] == c[24] && s[0] == Repeat(250)[0];
  }

  lemma ThreeGood(a: string, b: string, c: string)
    requires |a| > 2 && LooksLikeAddress(a) && AddressBad(a).None?
    requires SegmentBad(b, MAX_NAME, Name).None? && SegmentBad(c, MAX_NAME, Name).None?
    ensures SegmentsBad([a, b, c]).None?
  {
    hide SegmentBad, Lower;
    var names, last := [b, c], [c];
    assert [a, b, c][1..] == names && names[1..] == last && last[1..] == [];
    assert NamesBad([]).None? && NamesBad(last).None? && NamesBad(names).None?;
    assert SegmentBad(a, MAX_NAMESPACE, Namespace).None? by { AddressGood(a); }
  }

  lemma AddressGood(a: string)
    requires LooksLikeAddress(a) && AddressBad(a).None?
    ensures SegmentBad(a, MAX_NAMESPACE, Namespace).None?
  {
  }

  lemma LongestGood()
    ensures SegmentsBad([Repeat(250) + "@b.c", Repeat(39), Repeat(25)]).None?
  {
    hide Repeat, AddressBad, LooksLikeAddress, SegmentBad, SegmentsBad;
    LongAddress();
    RepeatPlain(39);
    RepeatPlain(25);
    ThreeGood(Repeat(250) + "@b.c", Repeat(39), Repeat(25));
  }

  // The property fails at the far end: an accepted text whose handle is refused.
  lemma {:induction false} LongestIsNotIdempotent()
    ensures exists h :: Canonical(Longest()) == Accepted(h) && Canonical(h) == Refused(HandleTooLong)
  {
    hide Longest, Repeat, SegmentsBad, Ascii, Trimmed, Lower, Lowers, Split, Unslashed;
    LongestText();
    LongestSegments();
    LongestGood();
    TrimTrimmed(Longest());
    SpelledSegments(Longest());
    var h := Spelled(Lowers(Segments(Longest())));
    assert Canonical(Longest()) == Accepted(h);
    assert |h| == 321;
    IdempotentExactlyWhen(Longest(), h);
  }

  // ---- namespaces and wildcards -----------------------------------------------------------------------------

  predicate Provider(s: string) {
    s == "github" || s == "google" || s == "pp"
  }

  function DropSlashes(s: string): string {
    if s != "" && s[0] == '/' then DropSlashes(s[1..]) else s
  }

  // Which namespace a handle's agents live under.
  function NamespaceOf(handle: string): Option<string> {
    var parts := Split(DropSlashes(handle), '/');
    if parts[0] == "" then None
    else if '@' in parts[0] then Some("/" + parts[0])
    else if |parts| >= 2 && Provider(parts[0]) then Some("/" + parts[0] + "/" + parts[1])
    else Some("/" + parts[0])
  }

  function FleetWildcard(handle: string): Option<string> {
    var ns := NamespaceOf(handle);
    if ns.Some? then Some(ns.value + "/*") else None
  }

  // The entry that covers a peer: its parent, wildcarded.
  function CoverageWildcard(peer: string): Option<string> {
    var rest := Unslashed(peer);
    var cut := FindLast(rest, '/');
    if cut == |rest| then None
    else
      var parent, name := rest[..cut], rest[cut + 1..];
      if parent == "" || name == "" || parent == "k" then None else Some("/" + parent + "/*")
  }

  // The parts of an accepted handle.
  predicate Part(s: string) {
    s != "" && '/' !in s
  }

  predicate Parts(segs: seq<string>) {
    forall i :: 0 <= i < |segs| ==> Part(segs[i])
  }

  predicate HandleParts(segs: seq<string>) {
    1 <= |segs| <= 3 && Parts(segs) && (|segs| == 1 ==> '@' in segs[0])
  }

  lemma {:induction false} SplitHasNoSeparator(s: string, c: char)
    ensures forall i :: 0 <= i < |Split(s, c)| ==> c !in Split(s, c)[i]
    decreases |s|
  {
    var i := Find(s, c);
    if i < |s| {
      SplitHasNoSeparator(s[i + 1..], c);
    }
  }

  lemma GoodIsThere(s: string, max: nat, what: What)
    requires SegmentBad(s, max, what).None?
    ensures s != ""
  {
  }

  lemma {:induction false} NamesThere(segs: seq<string>)
    requires NamesBad(segs).None?
    ensures forall i :: 0 <= i < |segs| ==> segs[i] != ""
  {
    if segs != [] {
      hide SegmentBad;
      GoodIsThere(segs[0], MAX_NAME, Name);
      NamesThere(segs[1..]);
    }
  }

  lemma SegmentsThere(segs: seq<string>)
    requires segs != [] && SegmentsBad(segs).None?
    ensures |segs| <= 3 && (forall i :: 0 <= i < |segs| ==> segs[i] != "") && (|segs| == 1 ==> '@' in segs[0])
  {
    if |segs| > 1 {
      hide SegmentBad, NamesBad, Lower;
      GoodIsThere(segs[0], MAX_NAMESPACE, Namespace);
      NamesThere(segs[1..]);
      assert forall i :: 1 <= i < |segs| ==> segs[i] == segs[1..][i - 1];
    }
  }

  lemma {:induction false} LowersAt(segs: seq<string>)
    ensures |Lowers(segs)| == |segs| && forall i :: 0 <= i < |segs| ==> Lowers(segs)[i] == Lower(segs[i])
  {
    hide Lower;
    if segs != [] {
      LowersAt(segs[1..]);
    }
  }

  function PartsOf(input: string): seq<string> {
    Lowers(Segments(Trim(input)))
  }

  lemma AcceptedParts(input: string, h: string)
    requires Canonical(input) == Accepted(h)
    ensures h == Spelled(PartsOf(input)) && HandleParts(PartsOf(input))
  {
    hide Trim, Lower, Split, SegmentsBad, Lowers, Ascii, Trimmed, Spelled, Unslashed;
    AcceptedRaw(input, h);
    var segs := Segments(Trim(input));
    SegmentsThere(segs);
    SplitHasNoSeparator(Unslashed(Trim(input)), '/');
    LowersAt(segs);
    forall i | 0 <= i < |segs| ensures Part(Lower(segs[i])) && ('@' in segs[i] ==> '@' in Lower(segs[i])) {
      LowerFind(segs[i], '/');
      LowerFind(segs[i], '@');
    }
  }

  lemma {:induction false} SplitJoin(segs: seq<string>)
    requires segs != [] && Parts(segs)
    ensures Split(Join(segs, '/'), '/') == segs
    decreases |segs|
  {
    hide Split;
    SplitSlashless(segs[0], Join(segs[1..], '/'));
    if |segs| > 1 {
      SplitJoin(segs[1..]);
      Assoc(segs[0], "/", Join(segs[1..], '/'));
      assert [segs[0]] + segs[1..] == segs;
    } else {
      assert segs == [segs[0]];
    }
  }

  lemma SpelledDropped(segs: seq<string>)
    requires segs != [] && Parts(segs)
    ensures DropSlashes(Spelled(segs)) == Join(segs, '/') == Unslashed(Spelled(segs)) && Split(Join(segs, '/'), '/') == segs
  {
    SplitJoin(segs);
    hide Split;
    var j := Join(segs, '/');
    assert Part(segs[0]) && j[0] == segs[0][0];
    assert segs[0][0] in segs[0];
    assert Spelled(segs)[1..] == j;
    assert DropSlashes(j) == j;
  }

  // The parts of the namespace.
  function Own(segs: seq<string>): seq<string>
    requires segs != []
  {
    if '@' !in segs[0] && Provider(segs[0]) && |segs| >= 2 then segs[..2] else segs[..1]
  }

  lemma NamespaceParts(segs: seq<string>)
    requires segs != [] && Parts(segs)
    ensures NamespaceOf(Spelled(segs)) == Some(Spelled(Own(segs)))
  {
    SpelledDropped(segs);
    hide Split, DropSlashes;
    assert Part(segs[0]);
    assert segs[..1] == [segs[0]];
    assert Join(segs[..1], '/') == segs[0];
    if |segs| >= 2 {
      assert segs[..2][1..] == [segs[1]];
      assert Join(segs[..2], '/') == segs[0] + ['/'] + segs[1];
      assert "/" + segs[0] + "/" + segs[1] == "/" + (segs[0] + ['/'] + segs[1]);
    }
  }

  lemma {:induction false} JoinLast(segs: seq<string>, last: string)
    requires segs != []
    ensures Join(segs + [last], '/') == Join(segs, '/') + ("/" + last)
    decreases |segs|
  {
    assert (segs + [last])[1..] == segs[1..] + [last];
    if |segs| > 1 {
      JoinLast(segs[1..], last);
      assert segs[0] + ['/'] + (Join(segs[1..], '/') + ("/" + last)) == segs[0] + ['/'] + Join(segs[1..], '/') + ("/" + last);
    } else {
      assert Join([last], '/') == last;
      assert segs[0] + ['/'] + last == segs[0] + ("/" + last);
    }
  }

  lemma JoinInjective(a: seq<string>, b: seq<string>)
    requires a != [] && b != [] && Parts(a) && Parts(b)
    ensures Join(a, '/') == Join(b, '/') <==> a == b
    ensures Spelled(a) == Spelled(b) <==> a == b
    ensures Spelled(a) + "/*" == Spelled(b) + "/*" <==> a == b
  {
    hide Join, Split;
    SplitJoin(a);
    SplitJoin(b);
    assert Spelled(a)[1..] == Join(a, '/') && Spelled(b)[1..] == Join(b, '/');
    assert (Spelled(a) + "/*")[..|Spelled(a) + "/*"| - 2] == Spelled(a);
    assert (Spelled(b) + "/*")[..|Spelled(b) + "/*"| - 2] == Spelled(b);
  }

  // Two or more parts: the last one goes.
  lemma CoverageOf(parent: seq<string>, last: string)
    requires parent != [] && Parts(parent) && Part(last)
    ensures CoverageWildcard(Spelled(parent + [last])) == if parent == ["k"] then None else Some(Spelled(parent) + "/*")
  {
    hide Split, DropSlashes, FindLast, Join, Unslashed, Parts;
    assert Parts(parent + [last]) by { MoreParts(parent, last); }
    SpelledDropped(parent + [last]);
    JoinLast(parent, last);
    FindLastAt(Join(parent, '/'), '/', last);
    KIsOnePart(parent);
  }

  lemma MoreParts(parent: seq<string>, last: string)
    requires Parts(parent) && Part(last)
    ensures Parts(parent + [last])
  {
  }

  lemma CoverageParts(segs: seq<string>)
    requires segs != [] && Parts(segs)
    ensures |segs| == 1 ==> CoverageWildcard(Spelled(segs)).None?
    ensures |segs| > 1 ==> CoverageWildcard(Spelled(segs)) ==
                             if segs[..|segs| - 1] == ["k"] then None else Some(Spelled(segs[..|segs| - 1]) + "/*")
  {
    assert Part(segs[|segs| - 1]);
    if |segs| == 1 {
      assert Unslashed(Spelled(segs)) == segs[0];
    } else {
      hide Spelled, CoverageWildcard;
      assert segs[..|segs| - 1] + [segs[|segs| - 1]] == segs;
      CoverageOf(segs[..|segs| - 1], segs[|segs| - 1]);
    }
  }

  lemma KIsOnePart(parent: seq<string>)
    requires parent != [] && Parts(parent)
    ensures Join(parent, '/') != "" && (Join(parent, '/') == "k" <==> parent == ["k"])
  {
    assert Part(parent[0]) && Parts(["k"]);
    JoinInjective(parent, ["k"]);
    assert Join(["k"], '/') == "k";
  }

  lemma OwnIsOwn(h: seq<string>, p: seq<string>)
    requires HandleParts(h) && HandleParts(p)
    ensures |p| > 1 && p[..|p| - 1] == Own(h) <==> Own(p) == Own(h) && |p| == |Own(h)| + 1
  {
    if |p| > 1 && p[..|p| - 1] == Own(h) {
      assert p[0] == Own(h)[0] == h[0];
      if |Own(h)| == 2 {
        assert p[..2] == Own(h);
      } else {
        assert p[..1] == Own(h);
      }
    }
  }

  // A handle with exactly one part more than its namespace.
  ghost predicate DirectChild(p: string) {
    NamespaceOf(p).Some? && exists name :: Part(name) && p == NamespaceOf(p).value + "/" + name
  }

  lemma DirectChildParts(p: seq<string>)
    requires HandleParts(p)
    ensures DirectChild(Spelled(p)) <==> |p| == |Own(p)| + 1
  {
    hide Join, Split, NamespaceOf;
    NamespaceParts(p);
    var ns := Spelled(Own(p));
    if |p| == |Own(p)| + 1 {
      var name := p[|p| - 1];
      assert Own(p) + [name] == p;
      JoinLast(Own(p), name);
      assert Spelled(p) == ns + "/" + name;
      assert Part(name);
    }
    if DirectChild(Spelled(p)) {
      var name :| Part(name) && Spelled(p) == ns + "/" + name;
      JoinLast(Own(p), name);
      assert Spelled(Own(p) + [name]) == Spelled(p);
      JoinInjective(Own(p) + [name], p);
    }
  }

  // A peer is covered by a handle's fleet wildcard exactly when it is a direct child of its own
  // namespace and that namespace is the handle's; only `/k` covers nobody.
  lemma {:induction false} CoveredExactlyWhen(peerInput: string, peer: string, input: string, handle: string)
    requires Canonical(peerInput) == Accepted(peer) && Canonical(input) == Accepted(handle)
    ensures CoverageWildcard(peer) == FleetWildcard(handle) <==>
              NamespaceOf(peer) == NamespaceOf(handle) && DirectChild(peer) && NamespaceOf(handle) != Some("/k")
  {
    hide Canonical, PartsOf, Spelled, NamespaceOf, CoverageWildcard, DirectChild, Join, Split;
    AcceptedParts(peerInput, peer);
    AcceptedParts(input, handle);
    var p, h := PartsOf(peerInput), PartsOf(input);
    NamespaceParts(p);
    NamespaceParts(h);
    CoverageParts(p);
    DirectChildParts(p);
    OwnIsOwn(h, p);
    JoinInjective(Own(p), Own(h));
    KIsSpelled(Own(h));
    if |p| > 1 {
      JoinInjective(p[..|p| - 1], Own(h));
    }
  }

  lemma KIsSpelled(segs: seq<string>)
    requires segs != [] && Parts(segs)
    ensures Spelled(segs) == "/k" <==> segs == ["k"]
  {
    assert Parts(["k"]);
    JoinInjective(segs, ["k"]);
    assert Spelled(["k"]) == "/k";
  }

  // An agent directly under one person's namespace is covered by somebody's fleet wildcard exactly
  // when the two have the same namespace.
  lemma {:induction false} AgentsCoveredExactlyWhen(input: string, handle: string, otherInput: string, other: string, agentInput: string, name: string)
    requires Canonical(input) == Accepted(handle) && Canonical(otherInput) == Accepted(other)
    requires NamespaceOf(handle).Some? && NamespaceOf(handle) != Some("/k") && Part(name)
    requires Canonical(agentInput) == Accepted(NamespaceOf(handle).value + "/" + name)
    ensures CoverageWildcard(NamespaceOf(handle).value + "/" + name) == FleetWildcard(other) <==> NamespaceOf(handle) == NamespaceOf(other)
  {
    hide Canonical, PartsOf, NamespaceOf, CoverageWildcard, Join, Split;
    var agent := NamespaceOf(handle).value + "/" + name;
    AcceptedParts(input, handle);
    AcceptedParts(agentInput, agent);
    CoveredExactlyWhen(agentInput, agent, otherInput, other);
    var h, p := PartsOf(input), PartsOf(agentInput);
    NamespaceParts(h);
    NamespaceParts(p);
    JoinLast(Own(h), name);
    assert Spelled(Own(h) + [name]) == agent;
    JoinInjective(Own(h) + [name], p);
    assert p[..|p| - 1] == Own(h);
    OwnIsOwn(h, p);
  }

  // No fleet wildcard is a provider's whole namespace.
  lemma {:induction false} NeverBareProvider(input: string, handle: string, provider: string)
    requires Canonical(input) == Accepted(handle) && Provider(provider)
    ensures FleetWildcard(handle).Some? && FleetWildcard(handle) != Some("/" + provider + "/*")
  {
    hide Canonical, PartsOf, NamespaceOf, Split;
    AcceptedParts(input, handle);
    var h := PartsOf(input);
    NamespaceParts(h);
    assert Spelled([provider]) == "/" + provider;
    assert Parts([provider]) && '@' !in provider;
    JoinInjective(Own(h), [provider]);
  }
}
