// The handle grammar said forwards: what addresses, words and handles look like, and that the validators
// take exactly these.
module HandleGrammar {
  import opened Text
  import opened Handle

  predicate DomainLabel(l: string) {
    1 <= |l| <= MAX_LABEL && Every(l, LabelChar) && l[0] != '-' && l[|l| - 1] != '-'
  }

  predicate LocalPart(s: string) {
    s != "" && Every(s, LocalChar) && !EdgeMarked(s)
  }

  predicate AllLabels(ls: seq<string>) {
    forall i :: 0 <= i < |ls| ==> DomainLabel(ls[i])
  }

  // A local part, an at sign and at least two domain labels.
  predicate IsAddress(s: string, local: string, labels: seq<string>) {
    s == local + ("@" + Join(labels, '.')) && LocalPart(local) && |labels| >= 2 && AllLabels(labels) && |s| <= MAX_ADDRESS
  }

  ghost predicate Address(s: string) {
    exists local, labels :: IsAddress(s, local, labels)
  }

  predicate Word(s: string, max: nat) {
    1 <= |s| <= max && Every(s, PlainChar) && !EdgeMarked(s)
  }

  // An address, or a namespace and one or two names, each a word or an address; /gh is not a namespace.
  ghost predicate Names(segs: seq<string>) {
    forall i :: 0 <= i < |segs| ==> Address(segs[i]) || Word(segs[i], MAX_NAME)
  }

  ghost predicate Grammatical(segs: seq<string>) {
    && 1 <= |segs| <= 3
    && if |segs| == 1 then Address(segs[0])
       else Lower(segs[0]) != "gh" && (Address(segs[0]) || Word(segs[0], MAX_NAMESPACE)) && Names(segs[1..])
  }

  lemma {:induction false} SplitJoinAt(parts: seq<string>, c: char)
    requires parts != [] && forall i :: 0 <= i < |parts| ==> c !in parts[i]
    ensures Split(Join(parts, c), c) == parts
    decreases |parts|
  {
    var rest := Join(parts[1..], c);
    if |parts| > 1 {
      SplitJoinAt(parts[1..], c);
      var text := parts[0] + [c] + rest;
      FindAt(text, c, |parts[0]|);
      assert text[..|parts[0]|] == parts[0] && text[|parts[0]| + 1..] == rest;
      assert [parts[0]] + parts[1..] == parts;
    } else {
      assert Find(parts[0], c) == |parts[0]|;
      assert parts == [parts[0]];
    }
  }

  lemma LabelExactlyWhen(l: string)
    ensures LabelBad(l).None? <==> DomainLabel(l)
  {
  }

  lemma {:induction false} LabelsExactlyWhen(ls: seq<string>)
    ensures LabelsBad(ls).None? <==> AllLabels(ls)
  {
    hide LabelBad, DomainLabel;
    if ls != [] {
      LabelExactlyWhen(ls[0]);
      LabelsExactlyWhen(ls[1..]);
      assert AllLabels(ls) <==> DomainLabel(ls[0]) && AllLabels(ls[1..]) by {
        assert forall i :: 1 <= i < |ls| ==> ls[i] == ls[1..][i - 1];
      }
    }
  }

  lemma LabelHasNo(l: string)
    requires DomainLabel(l)
    ensures '.' !in l && '@' !in l && '/' !in l
  {
  }

  lemma LocalHasNo(s: string)
    requires LocalPart(s)
    ensures '@' !in s && '/' !in s
  {
  }

  lemma {:induction false} DomainHasNo(labels: seq<string>)
    requires AllLabels(labels)
    ensures '@' !in Join(labels, '.') && '/' !in Join(labels, '.')
  {
    if labels != [] {
      LabelHasNo(labels[0]);
      DomainHasNo(labels[1..]);
    }
  }

  // An address reads as its parts.
  lemma AddressParts(s: string, local: string, labels: seq<string>)
    requires IsAddress(s, local, labels)
    ensures Before(s, '@') == local && After(s, '@') == Join(labels, '.') && '@' in s && '@' !in After(s, '@') && '/' !in s
    ensures Split(After(s, '@'), '.') == labels && '.' in After(s, '@')
  {
    hide DomainLabel, LocalPart;
    LocalHasNo(local);
    DomainHasNo(labels);
    FindAt(s, '@', |local|);
    assert s[|local|] in s;
    assert s[..|local|] == local && s[|local| + 1..] == Join(labels, '.');
    forall i | 0 <= i < |labels| ensures '.' !in labels[i] {
      LabelHasNo(labels[i]);
    }
    SplitJoinAt(labels, '.');
    assert Join(labels, '.')[|labels[0]|] == '.';
  }

  lemma AddressIsGood(s: string, local: string, labels: seq<string>)
    requires IsAddress(s, local, labels)
    ensures LooksLikeAddress(s) && AddressBad(s).None?
  {
    AddressParts(s, local, labels);
    LabelsExactlyWhen(labels);
    hide Split, Find, LabelsBad, Every, EdgeMarked, Before, After;
  }

  lemma GoodIsAddress(s: string)
    requires '@' in s && AddressBad(s).None?
    ensures IsAddress(s, Before(s, '@'), Split(After(s, '@'), '.'))
  {
    var i := Find(s, '@');
    assert s == s[..i] + ("@" + s[i + 1..]);
    JoinSplit(After(s, '@'), '.');
    LabelsExactlyWhen(Split(After(s, '@'), '.'));
    hide Split, LabelsBad, Every, EdgeMarked, Find;
  }

  lemma WordHasNo(s: string, max: nat)
    requires Word(s, max)
    ensures '@' !in s && '/' !in s
  {
  }

  // A segment passes exactly when it is an address or a word.
  lemma {:induction false} SegmentExactlyWhen(s: string, max: nat, what: What)
    ensures SegmentBad(s, max, what).None? <==> Address(s) || Word(s, max)
    ensures LooksLikeAddress(s) && AddressBad(s).None? <==> Address(s)
  {
    if Address(s) {
      var local, labels :| IsAddress(s, local, labels);
      AddressIsGood(s, local, labels);
    } else if Word(s, max) {
      WordHasNo(s, max);
    }
    if LooksLikeAddress(s) && AddressBad(s).None? {
      GoodIsAddress(s);
    }
    hide AddressBad, Every, EdgeMarked;
  }

  lemma {:induction false} NamesExactlyWhen(segs: seq<string>)
    ensures NamesBad(segs).None? <==> Names(segs)
  {
    hide SegmentBad, Address, Word;
    if segs != [] {
      SegmentExactlyWhen(segs[0], MAX_NAME, Name);
      NamesExactlyWhen(segs[1..]);
      assert Names(segs) <==> (Address(segs[0]) || Word(segs[0], MAX_NAME)) && Names(segs[1..]) by {
        assert forall i :: 1 <= i < |segs| ==> segs[i] == segs[1..][i - 1];
      }
    }
  }

  lemma SegmentsExactlyWhen(segs: seq<string>)
    requires segs != []
    ensures SegmentsBad(segs).None? <==> Grammatical(segs)
  {
    hide SegmentBad, AddressBad, LooksLikeAddress, Address, Word, NamesBad, Names, Lower;
    SegmentExactlyWhen(segs[0], MAX_NAMESPACE, Namespace);
    NamesExactlyWhen(segs[1..]);
  }

  // What is left of a text by trimming is taken exactly when it spells grammatical parts, with or
  // without the leading slash, in at most 320 ASCII characters.
  ghost predicate Spells(raw: string, segs: seq<string>) {
    Grammatical(segs) && (raw == Join(segs, '/') || raw == "/" + Join(segs, '/'))
  }

  lemma {:induction false} AcceptedExactlyWhen(input: string)
    ensures Canonical(input).Accepted? <==> Ascii(Trim(input)) && |Trim(input)| <= MAX_HANDLE && exists segs :: Spells(Trim(input), segs)
  {
    hide Trim, Ascii, SegmentsBad, Split, Grammatical, Lowers, Join;
    var raw := Trim(input);
    SegmentsExactlyWhen(Segments(raw));
    JoinSplit(Unslashed(raw), '/');
    if Canonical(input).Accepted? {
      assert raw == Unslashed(raw) || raw == "/" + Unslashed(raw);
      assert Spells(raw, Segments(raw));
    }
    if segs :| Spells(raw, segs) {
      SpelledSegmentsAre(raw, segs);
    }
  }

  lemma {:induction false} GrammaticalParts(segs: seq<string>)
    requires Grammatical(segs)
    ensures Parts(segs)
  {
    hide Lower;
    forall i | 0 <= i < |segs| ensures Part(segs[i]) {
      assert i > 0 ==> segs[i] == segs[1..][i - 1];
      GrammaticalPart(segs[i], if i == 0 then MAX_NAMESPACE else MAX_NAME);
    }
  }

  lemma GrammaticalPart(s: string, max: nat)
    requires Address(s) || Word(s, max)
    ensures Part(s)
  {
    if Address(s) {
      var local, labels :| IsAddress(s, local, labels);
      AddressParts(s, local, labels);
    } else {
      WordHasNo(s, max);
    }
  }

  lemma SpelledSegmentsAre(raw: string, segs: seq<string>)
    requires Spells(raw, segs)
    ensures raw != "" && Segments(raw) == segs
  {
    GrammaticalParts(segs);
    hide Split, Grammatical;
    SplitJoin(segs);
    assert Part(segs[0]) && segs[0][0] in segs[0];
    assert Join(segs, '/')[0] == segs[0][0];
    assert ("/" + Join(segs, '/'))[1..] == Join(segs, '/');
  }
}
