// Comparing the devices a commit really adds or removes with the ones its author declared.
module Devices {
  import opened Common

  datatype Device = Device(mailbox: string, id: string)

  function Key(d: Device): string {
    d.mailbox + ("|" + d.id)
  }

  function Keys(ds: seq<Device>): seq<string> {
    if ds == [] then [] else [Key(ds[0])] + Keys(ds[1..])
  }

  // The order texts are sorted in.
  predicate AtMost(a: string, b: string) {
    a == "" || (b != "" && (a[0] < b[0] || (a[0] == b[0] && AtMost(a[1..], b[1..]))))
  }

  function Insert(k: string, ks: seq<string>): seq<string> {
    if ks == [] || AtMost(k, ks[0]) then [k] + ks else [ks[0]] + Insert(k, ks[1..])
  }

  function Sort(ks: seq<string>): seq<string> {
    if ks == [] then [] else Insert(ks[0], Sort(ks[1..]))
  }

  // Nothing declared means nothing to compare with.
  predicate SameDevices(verified: seq<Device>, declared: Option<seq<Device>>) {
    declared.None? || Sort(Keys(verified)) == Sort(Keys(declared.value))
  }

  // ---- sorting ----------------------------------------------------------------------------------------

  predicate Sorted(ks: seq<string>) {
    forall i, j :: 0 <= i < j < |ks| ==> AtMost(ks[i], ks[j])
  }

  lemma {:induction false} Total(a: string, b: string)
    ensures AtMost(a, b) || AtMost(b, a)
    ensures AtMost(a, b) && AtMost(b, a) ==> a == b
  {
    if a != "" && b != "" && a[0] == b[0] {
      Total(a[1..], b[1..]);
      assert a == [a[0]] + a[1..] && b == [b[0]] + b[1..];
    }
  }

  lemma {:induction false} Transitive(a: string, b: string, c: string)
    requires AtMost(a, b) && AtMost(b, c)
    ensures AtMost(a, c)
  {
    if a != "" && a[0] == b[0] && b[0] == c[0] {
      Transitive(a[1..], b[1..], c[1..]);
    }
  }

  lemma {:induction false} InsertSorts(k: string, ks: seq<string>)
    requires Sorted(ks)
    ensures Sorted(Insert(k, ks)) && multiset(Insert(k, ks)) == multiset(ks) + multiset{k}
    decreases |ks|
  {
    if ks == [] {
    } else if AtMost(k, ks[0]) {
      forall j | 0 <= j < |ks| ensures AtMost(k, ks[j]) {
        if j > 0 {
          Transitive(k, ks[0], ks[j]);
        }
      }
    } else {
      InsertSorts(k, ks[1..]);
      Total(k, ks[0]);
      var rest := Insert(k, ks[1..]);
      assert ks == [ks[0]] + ks[1..];
      forall j | 0 <= j < |rest| ensures AtMost(ks[0], rest[j]) {
        assert rest[j] in multiset(rest);
        assert rest[j] == k || rest[j] in ks[1..];
      }
    }
  }

  lemma {:induction false} SortSorts(ks: seq<string>)
    ensures Sorted(Sort(ks)) && multiset(Sort(ks)) == multiset(ks)
  {
    if ks != [] {
      SortSorts(ks[1..]);
      InsertSorts(ks[0], Sort(ks[1..]));
      assert ks == [ks[0]] + ks[1..];
    }
  }

  lemma FirstIsSmallest(a: seq<string>, k: string)
    requires Sorted(a) && k in a
    ensures AtMost(a[0], k)
  {
    Total(a[0], a[0]);
  }

  lemma DropFirst(a: seq<string>)
    requires a != []
    ensures multiset(a[1..]) == multiset(a) - multiset{a[0]}
  {
    assert a == [a[0]] + a[1..];
  }

  lemma SmallestFirst(a: seq<string>, b: seq<string>)
    requires Sorted(a) && Sorted(b) && multiset(a) == multiset(b) && a != []
    ensures b != [] && a[0] == b[0] && multiset(a[1..]) == multiset(b[1..])
  {
    hide AtMost, Sorted;
    assert a[0] in multiset(b);
    FirstIsSmallest(b, a[0]);
    assert b[0] in multiset(a);
    FirstIsSmallest(a, b[0]);
    Total(a[0], b[0]);
    DropFirst(a);
    DropFirst(b);
  }

  lemma {:induction false} SortedIsUnique(a: seq<string>, b: seq<string>)
    requires Sorted(a) && Sorted(b) && multiset(a) == multiset(b)
    ensures a == b
  {
    if a != [] {
      SmallestFirst(a, b);
      SortedIsUnique(a[1..], b[1..]);
      assert a == [a[0]] + a[1..] && b == [b[0]] + b[1..];
    } else {
      assert |multiset(a)| == |a| && |multiset(b)| == |b|;
    }
  }

  lemma {:induction false} SameKeysExactlyWhen(a: seq<string>, b: seq<string>)
    ensures Sort(a) == Sort(b) <==> multiset(a) == multiset(b)
  {
    SortSorts(a);
    SortSorts(b);
    if multiset(a) == multiset(b) {
      SortedIsUnique(Sort(a), Sort(b));
    }
  }

  // ---- devices ------------------------------------------------------------------------------------------

  predicate Over(ds: seq<Device>, s: set<Device>) {
    forall i :: 0 <= i < |ds| ==> ds[i] in s
  }

  // No two of the devices have one key.
  predicate Distinguishable(s: set<Device>) {
    forall d, e :: d in s && e in s && Key(d) == Key(e) ==> d == e
  }

  lemma {:induction false} KeyCount(ds: seq<Device>, d: Device, s: set<Device>)
    requires Over(ds, s) && d in s && Distinguishable(s)
    ensures multiset(Keys(ds))[Key(d)] == multiset(ds)[d]
  {
    hide Key;
    if ds != [] {
      assert Over(ds[1..], s);
      KeyCount(ds[1..], d, s);
      assert ds[0] in s;
      assert ds == [ds[0]] + ds[1..];
    }
  }

  lemma {:induction false} KeyOf(ds: seq<Device>, k: string) returns (d: Device)
    requires k in Keys(ds)
    ensures d in ds && Key(d) == k
  {
    hide Key;
    if Key(ds[0]) == k {
      d := ds[0];
    } else {
      d := KeyOf(ds[1..], k);
    }
  }

  lemma KeysAgree(a: seq<Device>, b: seq<Device>, s: set<Device>)
    requires Over(a, s) && Over(b, s) && Distinguishable(s) && multiset(a) == multiset(b)
    ensures multiset(Keys(a)) == multiset(Keys(b))
  {
    hide Key, Distinguishable;
    forall k ensures multiset(Keys(a))[k] == multiset(Keys(b))[k] {
      if k in Keys(a) {
        var d := KeyOf(a, k);
        KeyCount(a, d, s);
        KeyCount(b, d, s);
      } else if k in Keys(b) {
        var d := KeyOf(b, k);
        KeyCount(a, d, s);
        KeyCount(b, d, s);
      }
    }
  }

  lemma {:induction false} ComparesRight(verified: seq<Device>, declared: seq<Device>, s: set<Device>)
    requires Over(verified, s) && Over(declared, s) && Distinguishable(s)
    ensures SameDevices(verified, Some(declared)) <==> multiset(verified) == multiset(declared)
  {
    hide Distinguishable;
    SameKeysExactlyWhen(Keys(verified), Keys(declared));
    if multiset(verified) == multiset(declared) {
      KeysAgree(verified, declared, s);
    }
    if multiset(Keys(verified)) == multiset(Keys(declared)) {
      forall d ensures multiset(verified)[d] == multiset(declared)[d] {
        if d in s {
          KeyCount(verified, d, s);
          KeyCount(declared, d, s);
        } else {
          assert d !in verified && d !in declared;
        }
      }
    }
  }

  ghost predicate ComparesOver(s: set<Device>) {
    forall verified, declared :: Over(verified, s) && Over(declared, s) ==>
      (SameDevices(verified, Some(declared)) <==> multiset(verified) == multiset(declared))
  }

  // The comparison accepts exactly the declarations that list the verified devices, each as often, in
  // any order: for all lists over some devices exactly when no two of these have one key.
  lemma {:induction false} SameDevicesExactlyWhen(s: set<Device>)
    ensures ComparesOver(s) <==> Distinguishable(s)
  {
    if Distinguishable(s) {
      hide SameDevices, Distinguishable;
      forall verified, declared | Over(verified, s) && Over(declared, s)
        ensures SameDevices(verified, Some(declared)) <==> multiset(verified) == multiset(declared)
      {
        ComparesRight(verified, declared, s);
      }
    } else {
      var d, e :| d in s && e in s && Key(d) == Key(e) && d != e;
      hide Key;
      assert Keys([d]) == Keys([e]) by { OneKey(d); OneKey(e); }
      assert Over([d], s) && Over([e], s) && SameDevices([d], Some([e]));
      assert d in multiset([d]) && d !in multiset([e]);
    }
  }

  lemma OneKey(d: Device)
    ensures Keys([d]) == [Key(d)]
  {
    hide Key;
    assert [d][1..] == [];
  }

  // Mailbox and id of one device continue into those of the other past a bar.
  ghost predicate Runs(d: Device, e: Device) {
    exists x :: e.mailbox == d.mailbox + "|" + x && d.id == x + "|" + e.id
  }

  // Two devices have one key exactly when a bar in a mailbox of one meets a bar in the id of the other.
  lemma ClashExactlyWhen(d: Device, e: Device)
    ensures Key(d) == Key(e) <==> d == e || Runs(d, e) || Runs(e, d)
  {
    if Key(d) == Key(e) {
      if |d.mailbox| <= |e.mailbox| {
        ClashRuns(d, e);
      } else {
        ClashRuns(e, d);
      }
    }
    if Runs(d, e) {
      RunsClash(d, e);
    }
    if Runs(e, d) {
      RunsClash(e, d);
    }
  }

  lemma RunsClash(d: Device, e: Device)
    requires Runs(d, e)
    ensures Key(d) == Key(e)
  {
    var x :| e.mailbox == d.mailbox + "|" + x && d.id == x + "|" + e.id;
    assert d.mailbox + "|" + (x + "|" + e.id) == d.mailbox + "|" + x + "|" + e.id;
  }

  lemma ClashRuns(d: Device, e: Device)
    requires Key(d) == Key(e) && |d.mailbox| <= |e.mailbox|
    ensures d == e || Runs(d, e)
  {
    var n, k := |d.mailbox|, Key(d);
    assert k[..n] == d.mailbox && k[n] == '|' && k[n + 1..] == d.id;
    assert k[..|e.mailbox|] == e.mailbox && k[|e.mailbox| + 1..] == e.id && k[|e.mailbox|] == '|';
    if n < |e.mailbox| {
      var x := e.mailbox[n + 1..];
      assert e.mailbox == e.mailbox[..n] + [e.mailbox[n]] + x;
      assert e.mailbox[..n] == k[..n] && e.mailbox[n] == k[n];
      assert k[n + 1..] == k[n + 1..|e.mailbox|] + [k[|e.mailbox|]] + k[|e.mailbox| + 1..];
      assert x == k[n + 1..|e.mailbox|];
    }
  }

  // So device ids without a bar are never confused, and one that has a bar can be.
  lemma PlainIdsDiffer(s: set<Device>)
    requires forall d :: d in s ==> '|' !in d.id
    ensures Distinguishable(s) && ComparesOver(s)
  {
    forall d, e | d in s && e in s && Key(d) == Key(e) ensures d == e {
      ClashExactlyWhen(d, e);
      assert Runs(d, e) ==> '|' in d.id by { if Runs(d, e) { RunsHasBar(d, e); } }
      assert Runs(e, d) ==> '|' in e.id by { if Runs(e, d) { RunsHasBar(e, d); } }
    }
    SameDevicesExactlyWhen(s);
  }

  lemma RunsHasBar(d: Device, e: Device)
    requires Runs(d, e)
    ensures '|' in d.id
  {
    var x :| e.mailbox == d.mailbox + "|" + x && d.id == x + "|" + e.id;
    assert d.id[|x|] == '|';
  }

  lemma BarsConfuse()
    ensures var a, b := Device("m", "x|y"), Device("m|x", "y");
            a != b && SameDevices([a], Some([b]))
  {
    var a, b := Device("m", "x|y"), Device("m|x", "y");
    assert Key(a) == "m|x|y" == Key(b);
    OneKey(a);
    OneKey(b);
  }
}
