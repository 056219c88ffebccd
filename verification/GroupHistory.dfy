// The rows a device keeps of one group: the only copy of what it could decrypt. They are kept in
// sequence order, one per position and kind, the newest thousand at most.
module GroupHistory {
  import opened Common

  const HISTORY_LIMIT: nat := 1000

  datatype Kind = MessageRow | CommitRow | NoticeRow | WarningRow

  // A position in half steps: entry `seq` is at 2 * seq, and a warning about it at 2 * seq + 1.
  type Position = nat

  datatype Row = Row(kind: Kind, at: Position, cmid: Option<nat>, expires: Option<nat>,
                     replacedBy: Option<nat>, shown: string)

  // What `remember` is given: a field that is None is left as the row has it.
  datatype Patch = Patch(kind: Kind, at: Position, cmid: Option<nat>, expires: Option<Option<nat>>,
                         replacedBy: Option<Option<nat>>, shown: Option<string>)

  function Or<T>(o: Option<T>, default: T): T {
    if o.Some? then o.value else default
  }

  function Merged(r: Row, p: Patch): Row {
    Row(p.kind, p.at, if p.cmid.Some? then p.cmid else r.cmid, Or(p.expires, r.expires),
        Or(p.replacedBy, r.replacedBy), Or(p.shown, r.shown))
  }

  function Fresh(p: Patch): Row {
    Row(p.kind, p.at, p.cmid, Or(p.expires, None), Or(p.replacedBy, None), Or(p.shown, ""))
  }

  type Key = (Position, Kind)

  function KeyOf(r: Row): Key {
    (r.at, r.kind)
  }

  ghost function Keys(rows: seq<Row>): set<Key> {
    set i | 0 <= i < |rows| :: KeyOf(rows[i])
  }

  ghost predicate Sorted(rows: seq<Row>) {
    forall i, j :: 0 <= i < j < |rows| ==> rows[i].at <= rows[j].at
  }

  ghost predicate Unique(rows: seq<Row>) {
    forall i, j :: 0 <= i < j < |rows| ==> KeyOf(rows[i]) != KeyOf(rows[j])
  }

  ghost predicate Ok(rows: seq<Row>) {
    Sorted(rows) && Unique(rows) && |rows| <= HISTORY_LIMIT
  }

  // ---- sorting ----------------------------------------------------------------------------------

  // Insert after everything that is not larger.
  function InsertLast(rows: seq<Row>, r: Row): seq<Row> {
    if rows == [] || rows[|rows| - 1].at <= r.at then rows + [r]
    else InsertLast(rows[..|rows| - 1], r) + [rows[|rows| - 1]]
  }

  // `list.sort` on the positions: a stable sort.
  function SortByPosition(rows: seq<Row>): seq<Row> {
    if rows == [] then []
    else InsertLast(SortByPosition(rows[..|rows| - 1]), rows[|rows| - 1])
  }

  // The rows at one position, in order.
  ghost function RowsAt(rows: seq<Row>, at: Position): seq<Row> {
    if rows == [] then []
    else RowsAt(rows[..|rows| - 1], at) + (if rows[|rows| - 1].at == at then [rows[|rows| - 1]] else [])
  }

  lemma {:induction false} InsertLastShape(rows: seq<Row>, r: Row) returns (n: nat)
    requires Sorted(rows)
    ensures n <= |rows| && InsertLast(rows, r) == Inserted(rows, n, r)
    ensures forall j :: 0 <= j < n ==> rows[j].at <= r.at
    ensures forall j :: n <= j < |rows| ==> r.at < rows[j].at
  {
    if rows == [] || rows[|rows| - 1].at <= r.at {
      n := |rows|;
      assert rows[..n] == rows;
    } else {
      SortedInit(rows);
      n := InsertLastShape(rows[..|rows| - 1], r);
      InsertedLonger(rows, n, r);
    }
  }

  lemma InsertedLonger(rows: seq<Row>, n: nat, r: Row)
    requires n < |rows|
    ensures Inserted(rows[..|rows| - 1], n, r) + [rows[|rows| - 1]] == Inserted(rows, n, r)
  {
  }

  function Inserted(rows: seq<Row>, n: nat, r: Row): seq<Row>
    requires n <= |rows|
  {
    rows[..n] + [r] + rows[n..]
  }

  lemma InsertedSorted(rows: seq<Row>, n: nat, r: Row)
    requires n <= |rows| && Sorted(rows)
    requires forall j :: 0 <= j < n ==> rows[j].at <= r.at
    requires forall j :: n <= j < |rows| ==> r.at < rows[j].at
    ensures Sorted(Inserted(rows, n, r))
  {
    var all := Inserted(rows, n, r);
    forall i, j | 0 <= i < j < |all| ensures all[i].at <= all[j].at {
      assert all[i] == (if i < n then rows[i] else if i == n then r else rows[i - 1]);
      assert all[j] == (if j < n then rows[j] else if j == n then r else rows[j - 1]);
    }
  }

  lemma {:induction false} RowsAtConcat(a: seq<Row>, b: seq<Row>, at: Position)
    ensures RowsAt(a + b, at) == RowsAt(a, at) + RowsAt(b, at)
  {
    if b == [] {
      assert a + b == a;
    } else {
      assert (a + b)[..|a + b| - 1] == a + b[..|b| - 1];
      RowsAtConcat(a, b[..|b| - 1], at);
    }
  }

  lemma {:induction false} NoRowsAt(rows: seq<Row>, at: Position)
    requires forall j :: 0 <= j < |rows| ==> rows[j].at != at
    ensures RowsAt(rows, at) == []
  {
    if rows != [] {
      NoRowsAt(rows[..|rows| - 1], at);
    }
  }

  lemma {:induction false} InsertedRowsAt(rows: seq<Row>, n: nat, r: Row, at: Position)
    requires n <= |rows|
    requires forall j :: n <= j < |rows| ==> r.at < rows[j].at
    ensures RowsAt(Inserted(rows, n, r), at) == RowsAt(rows + [r], at)
  {
    hide RowsAt;
    if r.at == at {
      NoRowsAt(rows[n..], at);
    } else {
      NoRowsAt([r], at);
    }
    var a, b := rows[..n], rows[n..];
    RowsAtConcat(a + [r], b, at);
    RowsAtConcat(a, [r], at);
    RowsAtConcat(a, b, at);
    RowsAtConcat(rows, [r], at);
    assert a + b == rows;
    var x, y, z := RowsAt(a, at), RowsAt([r], at), RowsAt(b, at);
    assert y == [] || z == [] ==> (x + y) + z == (x + z) + y;
  }

  // Sorted, the same rows, and rows at the same position stay in their order.
  lemma {:induction false} SortIsStableSort(rows: seq<Row>, at: Position)
    ensures Sorted(SortByPosition(rows))
    ensures multiset(SortByPosition(rows)) == multiset(rows)
    ensures RowsAt(SortByPosition(rows), at) == RowsAt(rows, at)
  {
    if rows != [] {
      var init, last := rows[..|rows| - 1], rows[|rows| - 1];
      SortIsStableSort(init, at);
      hide RowsAt, InsertLast, Sorted, SortByPosition;
      SortStep(rows);
      InsertLastIsStable(SortByPosition(init), last, at);
      RowsAtConcat(SortByPosition(init), [last], at);
      RowsAtConcat(init, [last], at);
      LastOf(rows);
    }
  }

  lemma SortStep(rows: seq<Row>)
    requires rows != []
    ensures SortByPosition(rows) == InsertLast(SortByPosition(rows[..|rows| - 1]), rows[|rows| - 1])
  {
    hide InsertLast;
  }

  lemma LastOf(rows: seq<Row>)
    requires rows != []
    ensures rows[..|rows| - 1] + [rows[|rows| - 1]] == rows
    ensures multiset(rows[..|rows| - 1]) + multiset{rows[|rows| - 1]} == multiset(rows)
  {
    assert rows == rows[..|rows| - 1] + [rows[|rows| - 1]];
  }

  lemma {:induction false} InsertLastIsStable(rows: seq<Row>, r: Row, at: Position)
    requires Sorted(rows)
    ensures Sorted(InsertLast(rows, r))
    ensures multiset(InsertLast(rows, r)) == multiset(rows) + multiset{r}
    ensures RowsAt(InsertLast(rows, r), at) == RowsAt(rows + [r], at)
  {
    var n := InsertLastShape(rows, r);
    InsertedSorted(rows, n, r);
    InsertedRowsAt(rows, n, r, at);
    hide Sorted, RowsAt;
    assert rows == rows[..n] + rows[n..];
  }

  lemma SortedInit(rows: seq<Row>)
    requires Sorted(rows) && rows != []
    ensures Sorted(rows[..|rows| - 1]) && rows[..|rows| - 1] + [rows[|rows| - 1]] == rows
    ensures |rows| > 1 ==> rows[|rows| - 2].at <= rows[|rows| - 1].at
  {
  }

  lemma {:induction false} SortingSorted(rows: seq<Row>)
    requires Sorted(rows)
    ensures SortByPosition(rows) == rows
  {
    if rows != [] {
      SortedInit(rows);
      hide Sorted;
      var init, last := rows[..|rows| - 1], rows[|rows| - 1];
      SortingSorted(init);
      assert init == [] || init[|init| - 1].at <= last.at;
      assert InsertLast(init, last) == init + [last];
    }
  }

  // ---- remembering ------------------------------------------------------------------------------

  ghost predicate Has(rows: seq<Row>, k: Key) {
    exists i :: 0 <= i < |rows| && KeyOf(rows[i]) == k
  }

  function Find(rows: seq<Row>, k: Key): (i: nat)
    ensures i <= |rows|
    ensures i < |rows| ==> KeyOf(rows[i]) == k
    ensures forall j :: 0 <= j < i ==> KeyOf(rows[j]) != k
  {
    if rows == [] || KeyOf(rows[0]) == k then 0 else 1 + Find(rows[1..], k)
  }

  function Newest(rows: seq<Row>): seq<Row> {
    if |rows| > HISTORY_LIMIT then rows[|rows| - HISTORY_LIMIT..] else rows
  }

  function Remembered(rows: seq<Row>, p: Patch): seq<Row> {
    var i := Find(rows, (p.at, p.kind));
    if i < |rows| then rows[i := Merged(rows[i], p)]
    else Newest(SortByPosition(rows + [Fresh(p)]))
  }

  // A new row goes where it belongs and displaces the oldest one when the list is full.
  lemma {:induction false} RememberedNew(rows: seq<Row>, p: Patch) returns (n: nat, cut: nat)
    requires Ok(rows) && !Has(rows, (p.at, p.kind))
    ensures n <= |rows| && (forall j :: 0 <= j < n ==> rows[j].at <= p.at) && (forall j :: n <= j < |rows| ==> p.at < rows[j].at)
    ensures cut == (if |rows| == HISTORY_LIMIT then 1 else 0)
    ensures Remembered(rows, p) == Inserted(rows, n, Fresh(p))[cut..]
  {
    var r := Fresh(p);
    assert (rows + [r])[..|rows|] == rows;
    SortingSorted(rows);
    n := InsertLastShape(rows, r);
    cut := if |rows| == HISTORY_LIMIT then 1 else 0;
  }

  lemma {:induction false} RememberKeepsOk(rows: seq<Row>, p: Patch)
    requires Ok(rows)
    ensures Ok(Remembered(rows, p))
  {
    if Has(rows, (p.at, p.kind)) {
      var i := Find(rows, (p.at, p.kind));
      var k :| 0 <= k < |rows| && KeyOf(rows[k]) == (p.at, p.kind);
      assert i < |rows|;
    } else {
      hide Sorted, Unique, Inserted, Remembered;
      var n, cut := RememberedNew(rows, p);
      InsertedSorted(rows, n, Fresh(p));
      InsertedUnique(rows, n, Fresh(p));
      InsertedLength(rows, n, Fresh(p));
      CutKeepsOrder(Inserted(rows, n, Fresh(p)), cut);
    }
  }

  lemma InsertedLength(rows: seq<Row>, n: nat, r: Row)
    requires n <= |rows|
    ensures |Inserted(rows, n, r)| == |rows| + 1
  {
  }

  lemma CutKeepsOrder(all: seq<Row>, cut: nat)
    requires cut <= |all| && Sorted(all) && Unique(all)
    ensures Sorted(all[cut..]) && Unique(all[cut..])
  {
    assert forall i :: 0 <= i < |all[cut..]| ==> all[cut..][i] == all[cut + i];
  }

  lemma InsertedUnique(rows: seq<Row>, n: nat, r: Row)
    requires n <= |rows| && Unique(rows) && !Has(rows, KeyOf(r))
    ensures Unique(Inserted(rows, n, r))
  {
    var all := Inserted(rows, n, r);
    forall i, j | 0 <= i < j < |all| ensures KeyOf(all[i]) != KeyOf(all[j]) {
      assert all[i] == (if i < n then rows[i] else if i == n then r else rows[i - 1]);
      assert all[j] == (if j < n then rows[j] else if j == n then r else rows[j - 1]);
    }
  }

  // The rows are the newest of everything ever remembered: nothing that was remembered and is gone
  // lies after a row that is still there.
  ghost predicate NewestOf(rows: seq<Row>, seen: set<Key>) {
    && Ok(rows) && Keys(rows) <= seen
    && (|rows| < HISTORY_LIMIT ==> Keys(rows) == seen)
    && forall x, y :: x in seen && x !in Keys(rows) && y in Keys(rows) ==> x.0 <= y.0
  }

  lemma KeysOfUpdate(rows: seq<Row>, i: nat, r: Row)
    requires i < |rows| && KeyOf(r) == KeyOf(rows[i])
    ensures Keys(rows[i := r]) == Keys(rows)
  {
    var updated := rows[i := r];
    forall k | k in Keys(rows) ensures k in Keys(updated) {
      var j :| 0 <= j < |rows| && KeyOf(rows[j]) == k;
      assert KeyOf(updated[j]) == k;
    }
  }

  lemma {:induction false} RememberKeepsNewest(rows: seq<Row>, seen: set<Key>, p: Patch)
    requires NewestOf(rows, seen)
    ensures NewestOf(Remembered(rows, p), seen + {(p.at, p.kind)})
  {
    if Has(rows, (p.at, p.kind)) {
      RememberedAgain(rows, seen, p);
    } else {
      RememberedFirst(rows, seen, p);
    }
  }

  lemma RememberedAgain(rows: seq<Row>, seen: set<Key>, p: Patch)
    requires NewestOf(rows, seen) && Has(rows, (p.at, p.kind))
    ensures NewestOf(Remembered(rows, p), seen + {(p.at, p.kind)})
  {
    RememberKeepsOk(rows, p);
    var key := (p.at, p.kind);
    var k :| 0 <= k < |rows| && KeyOf(rows[k]) == key;
    var i := Find(rows, key);
    hide Sorted, Unique;
    KeysOfUpdate(rows, i, Merged(rows[i], p));
    assert key in Keys(rows) && seen + {key} == seen;
  }

  lemma RememberedFirst(rows: seq<Row>, seen: set<Key>, p: Patch)
    requires NewestOf(rows, seen) && !Has(rows, (p.at, p.kind))
    ensures NewestOf(Remembered(rows, p), seen + {(p.at, p.kind)})
  {
    RememberKeepsOk(rows, p);
    var n, cut := RememberedNew(rows, p);
    var all := Inserted(rows, n, Fresh(p));
    InsertedSorted(rows, n, Fresh(p));
    hide Sorted, Unique, Inserted, Remembered;
    KeysOfInsert(rows, n, Fresh(p));
    KeysOfCut(all, cut);
  }

  lemma KeysOfInsert(rows: seq<Row>, n: nat, r: Row)
    requires n <= |rows|
    ensures Keys(Inserted(rows, n, r)) == Keys(rows) + {KeyOf(r)}
  {
    var all := Inserted(rows, n, r);
    forall k | k in Keys(all) ensures k in Keys(rows) + {KeyOf(r)} {
      var j :| 0 <= j < |all| && KeyOf(all[j]) == k;
      assert j < n ==> all[j] == rows[j];
      assert j > n ==> all[j] == rows[j - 1];
    }
    forall k | k in Keys(rows) + {KeyOf(r)} ensures k in Keys(all) {
      if k in Keys(rows) {
        var j :| 0 <= j < |rows| && KeyOf(rows[j]) == k;
        assert all[if j < n then j else j + 1] == rows[j];
      } else {
        assert all[n] == r;
      }
    }
  }

  // Cutting the front of a sorted list loses only keys that no kept one precedes.
  lemma KeysOfCut(all: seq<Row>, cut: nat)
    requires cut <= |all|
    ensures Keys(all[cut..]) <= Keys(all)
    ensures cut == 0 ==> Keys(all[cut..]) == Keys(all)
    ensures Sorted(all) ==> forall x, y :: x in Keys(all) && x !in Keys(all[cut..]) && y in Keys(all[cut..]) ==> x.0 <= y.0
  {
    assert all[0..] == all;
    forall k | k in Keys(all[cut..]) ensures k in Keys(all) {
      var j :| 0 <= j < |all[cut..]| && KeyOf(all[cut..][j]) == k;
      assert all[cut..][j] == all[cut + j];
    }
    forall i | cut <= i < |all| ensures KeyOf(all[i]) in Keys(all[cut..]) {
      assert all[cut..][i - cut] == all[i];
    }
    if Sorted(all) {
      forall x, y | x in Keys(all) && x !in Keys(all[cut..]) && y in Keys(all[cut..]) ensures x.0 <= y.0 {
        var i :| 0 <= i < |all| && KeyOf(all[i]) == x;
        var j :| 0 <= j < |all[cut..]| && KeyOf(all[cut..][j]) == y;
      }
    }
  }

  // ---- the other ways the rows change -------------------------------------------------------------

  // The first message row under a client message id.
  function FindOwn(rows: seq<Row>, cmid: nat): (i: nat)
    ensures i <= |rows|
    ensures i < |rows| ==> rows[i].kind.MessageRow? && rows[i].cmid == Some(cmid)
    ensures forall j :: 0 <= j < i ==> !(rows[j].kind.MessageRow? && rows[j].cmid == Some(cmid))
  {
    if rows == [] || (rows[0].kind.MessageRow? && rows[0].cmid == Some(cmid)) then 0 else 1 + FindOwn(rows[1..], cmid)
  }

  // The echo of an own message moves its row to the position the postbox gave it.
  function Confirmed(rows: seq<Row>, cmid: nat, seqno: nat, expires: Option<nat>): seq<Row> {
    var i := FindOwn(rows, cmid);
    if i < |rows| then rows[i := rows[i].(at := 2 * seqno, expires := expires)] else rows
  }

  // An edit marks the message it replaces.
  function Replaced(rows: seq<Row>, target: nat, edit: nat): seq<Row> {
    var i := Find(rows, (2 * target, MessageRow));
    if i < |rows| then rows[i := rows[i].(replacedBy := Some(edit))] else rows
  }

  function Kept(rows: seq<Row>, keep: Row -> bool): seq<Row> {
    if rows == [] then [] else (if keep(rows[0]) then [rows[0]] else []) + Kept(rows[1..], keep)
  }

  predicate Expired(r: Row, now: nat) {
    r.expires.Some? && r.expires.value != 0 && r.expires.value <= now
  }

  datatype Change =
    | Remember(patch: Patch)
    | Confirm(cmid: nat, seqno: nat, expires: Option<nat>)
    | Replace(target: nat, edit: nat)
    | Prune(now: nat)
    | Drop(seqnos: set<nat>)
    | Forget

  function Changed(rows: seq<Row>, c: Change): seq<Row> {
    match c
    case Remember(p) => Remembered(rows, p)
    case Confirm(cmid, seqno, expires) => Confirmed(rows, cmid, seqno, expires)
    case Replace(target, edit) => Replaced(rows, target, edit)
    case Prune(now) => Kept(rows, r => !Expired(r, now))
    case Drop(seqnos) => Kept(rows, r => !DroppedBy(r, seqnos))
    case Forget => []
  }

  predicate DroppedBy(r: Row, seqnos: set<nat>) {
    r.kind.MessageRow? && r.at % 2 == 0 && r.at / 2 in seqnos
  }

  function Run(rows: seq<Row>, cs: seq<Change>): seq<Row>
    decreases |cs|
  {
    if cs == [] then rows else Run(Changed(rows, cs[0]), cs[1..])
  }

  // The postbox keeps one sequence number per client message id; `seqOf` is that assignment.
  ghost predicate Placed(rows: seq<Row>, seqOf: map<nat, nat>) {
    forall i :: 0 <= i < |rows| && rows[i].kind.MessageRow? && rows[i].cmid.Some? ==>
      rows[i].cmid.value in seqOf && rows[i].at == 2 * seqOf[rows[i].cmid.value]
  }

  predicate Honest(c: Change, seqOf: map<nat, nat>) {
    match c
    case Remember(p) => p.kind.MessageRow? && p.cmid.Some? ==> p.cmid.value in seqOf && p.at == 2 * seqOf[p.cmid.value]
    case Confirm(cmid, seqno, _) => cmid in seqOf && seqno == seqOf[cmid]
    case _ => true
  }

  ghost predicate AllHonest(cs: seq<Change>, seqOf: map<nat, nat>) {
    forall k :: 0 <= k < |cs| ==> Honest(cs[k], seqOf)
  }

  lemma {:induction false} KeptMembers(rows: seq<Row>, keep: Row -> bool)
    ensures |Kept(rows, keep)| <= |rows|
    ensures forall r :: r in Kept(rows, keep) <==> r in rows && keep(r)
  {
    if rows != [] {
      KeptMembers(rows[1..], keep);
      assert rows == [rows[0]] + rows[1..];
    }
  }

  lemma RestInOrder(rows: seq<Row>)
    requires rows != []
    ensures Sorted(rows) ==> Sorted(rows[1..]) && forall r :: r in rows[1..] ==> rows[0].at <= r.at
    ensures Unique(rows) ==> Unique(rows[1..]) && forall r :: r in rows[1..] ==> KeyOf(rows[0]) != KeyOf(r)
  {
  }

  lemma SortedCons(r: Row, rest: seq<Row>)
    requires Sorted(rest) && forall q :: q in rest ==> r.at <= q.at
    ensures Sorted([r] + rest)
  {
  }

  lemma UniqueCons(r: Row, rest: seq<Row>)
    requires Unique(rest) && forall q :: q in rest ==> KeyOf(r) != KeyOf(q)
    ensures Unique([r] + rest)
  {
  }

  lemma KeptCons(rows: seq<Row>, keep: Row -> bool)
    requires rows != []
    ensures Kept(rows, keep) == if keep(rows[0]) then [rows[0]] + Kept(rows[1..], keep) else Kept(rows[1..], keep)
  {
    assert [] + Kept(rows[1..], keep) == Kept(rows[1..], keep);
  }

  lemma {:induction false} KeptIsPart(rows: seq<Row>, keep: Row -> bool)
    ensures |Kept(rows, keep)| <= |rows|
    ensures forall r :: r in Kept(rows, keep) <==> r in rows && keep(r)
    ensures Sorted(rows) ==> Sorted(Kept(rows, keep))
    ensures Unique(rows) ==> Unique(Kept(rows, keep))
  {
    KeptMembers(rows, keep);
    if rows == [] {
    } else {
      hide Sorted, Unique, Kept, KeyOf;
      KeptCons(rows, keep);
      KeptIsPart(rows[1..], keep);
      RestInOrder(rows);
      var rest := Kept(rows[1..], keep);
      if keep(rows[0]) && Sorted(rows) {
        SortedCons(rows[0], rest);
      }
      if keep(rows[0]) && Unique(rows) {
        UniqueCons(rows[0], rest);
      }
    }
  }

  lemma {:induction false} PatchedRowSame(rows: seq<Row>, i: nat, r: Row)
    requires Ok(rows) && i < |rows| && KeyOf(r) == KeyOf(rows[i])
    ensures Ok(rows[i := r]) && Keys(rows[i := r]) == Keys(rows)
  {
    KeysOfUpdate(rows, i, r);
  }

  lemma {:induction false} RememberKeepsPlaced(rows: seq<Row>, p: Patch, seqOf: map<nat, nat>)
    requires Ok(rows) && Placed(rows, seqOf) && Honest(Remember(p), seqOf)
    ensures Placed(Remembered(rows, p), seqOf)
  {
    var key := (p.at, p.kind);
    if Has(rows, key) {
      var k :| 0 <= k < |rows| && KeyOf(rows[k]) == key;
    } else {
      var n, cut := RememberedNew(rows, p);
      var all := Inserted(rows, n, Fresh(p));
      forall i | 0 <= i < |all| ensures all[i] == (if i < n then rows[i] else if i == n then Fresh(p) else rows[i - 1]) {
      }
      assert Placed(all, seqOf);
    }
  }

  lemma {:induction false} ChangeKeepsOk(rows: seq<Row>, c: Change, seqOf: map<nat, nat>)
    requires Ok(rows) && Placed(rows, seqOf) && Honest(c, seqOf)
    ensures Ok(Changed(rows, c)) && Placed(Changed(rows, c), seqOf)
    ensures c.Confirm? || c.Replace? ==> Keys(Changed(rows, c)) == Keys(rows)
  {
    match c
    case Remember(p) =>
      RememberKeepsOk(rows, p);
      RememberKeepsPlaced(rows, p, seqOf);
    case Confirm(cmid, seqno, expires) =>
      var i := FindOwn(rows, cmid);
      if i < |rows| {
        PatchedRowSame(rows, i, rows[i].(at := 2 * seqno, expires := expires));
      }
    case Replace(target, edit) =>
      var i := Find(rows, (2 * target, MessageRow));
      if i < |rows| {
        PatchedRowSame(rows, i, rows[i].(replacedBy := Some(edit)));
      }
    case Prune(now) =>
      KeptIsPart(rows, r => !Expired(r, now));
      KeptStayPlaced(rows, r => !Expired(r, now), seqOf);
    case Drop(seqnos) =>
      KeptIsPart(rows, r => !DroppedBy(r, seqnos));
      KeptStayPlaced(rows, r => !DroppedBy(r, seqnos), seqOf);
    case Forget =>
  }

  lemma KeptStayPlaced(rows: seq<Row>, keep: Row -> bool, seqOf: map<nat, nat>)
    requires Placed(rows, seqOf)
    ensures Placed(Kept(rows, keep), seqOf)
  {
    KeptIsPart(rows, keep);
    var kept := Kept(rows, keep);
    forall i | 0 <= i < |kept| && kept[i].kind.MessageRow? && kept[i].cmid.Some?
      ensures kept[i].cmid.value in seqOf && kept[i].at == 2 * seqOf[kept[i].cmid.value]
    {
      assert kept[i] in kept;
      var j :| 0 <= j < |rows| && rows[j] == kept[i];
    }
  }

  // Over any run, re-reading after a rejoin included: in order, one row per position and kind, a
  // thousand at most.
  lemma {:induction false} HistoryOfEveryRun(rows: seq<Row>, cs: seq<Change>, seqOf: map<nat, nat>)
    requires Ok(rows) && Placed(rows, seqOf) && AllHonest(cs, seqOf)
    ensures Ok(Run(rows, cs)) && Placed(Run(rows, cs), seqOf)
    decreases |cs|
  {
    if cs != [] {
      ChangeKeepsOk(rows, cs[0], seqOf);
      assert forall k :: 0 <= k < |cs[1..]| ==> cs[1..][k] == cs[k + 1];
      HistoryOfEveryRun(Changed(rows, cs[0]), cs[1..], seqOf);
    }
  }

  function PatchKey(p: Patch): Key {
    (p.at, p.kind)
  }

  predicate Removes(c: Change) {
    c.Prune? || c.Drop? || c.Forget?
  }

  // What the rows are to be measured against after a run: everything remembered since rows last
  // expired, were dropped or were forgotten, and what was left then.
  ghost function SeenSince(rows: seq<Row>, seen: set<Key>, cs: seq<Change>): set<Key>
    decreases |cs|
  {
    if cs == [] then seen
    else
      var next := Changed(rows, cs[0]);
      SeenSince(next, if Removes(cs[0]) then Keys(next) else if cs[0].Remember? then seen + {PatchKey(cs[0].patch)} else seen, cs[1..])
  }

  // Over every run the rows are the newest thousand of that, in whatever order it came.
  lemma {:induction false} NewestInEveryRun(rows: seq<Row>, seen: set<Key>, cs: seq<Change>, seqOf: map<nat, nat>)
    requires NewestOf(rows, seen) && Placed(rows, seqOf) && AllHonest(cs, seqOf)
    ensures NewestOf(Run(rows, cs), SeenSince(rows, seen, cs))
    decreases |cs|
  {
    if cs == [] {
    } else {
      var c, rest := cs[0], cs[1..];
      assert Honest(c, seqOf);
      hide NewestOf, Placed, Changed, Honest;
      NewestIsOk(rows, seen);
      ChangeKeepsOk(rows, c, seqOf);
      var seen' := ChangeKeepsNewest(rows, seen, c);
      RestHonest(cs, seqOf);
      NewestInEveryRun(Changed(rows, c), seen', rest, seqOf);
    }
  }

  lemma RestHonest(cs: seq<Change>, seqOf: map<nat, nat>)
    requires AllHonest(cs, seqOf) && cs != []
    ensures AllHonest(cs[1..], seqOf)
  {
    assert forall k :: 0 <= k < |cs[1..]| ==> cs[1..][k] == cs[k + 1];
  }

  lemma NewestIsOk(rows: seq<Row>, seen: set<Key>)
    requires NewestOf(rows, seen)
    ensures Ok(rows)
  {
  }

  lemma OkIsNewest(rows: seq<Row>)
    requires Ok(rows)
    ensures NewestOf(rows, Keys(rows))
  {
  }

  lemma ChangeKeepsNewest(rows: seq<Row>, seen: set<Key>, c: Change) returns (seen': set<Key>)
    requires NewestOf(rows, seen) && Ok(Changed(rows, c))
    requires c.Confirm? || c.Replace? ==> Keys(Changed(rows, c)) == Keys(rows)
    ensures seen' == if Removes(c) then Keys(Changed(rows, c)) else if c.Remember? then seen + {PatchKey(c.patch)} else seen
    ensures NewestOf(Changed(rows, c), seen')
  {
    seen' := if Removes(c) then Keys(Changed(rows, c)) else if c.Remember? then seen + {PatchKey(c.patch)} else seen;
    if c.Remember? {
      RememberKeepsNewest(rows, seen, c.patch);
    } else if !Removes(c) {
      SameKeysSameLength(rows, Changed(rows, c));
    }
  }

  // Why a key can leave the rows: its row expired or was dropped, the group was forgotten, or a
  // thousand rows at or after its position were kept without it.
  ghost predicate Goes(rows: seq<Row>, c: Change, x: Key) {
    match c
    case Prune(now) => exists r :: r in rows && KeyOf(r) == x && Expired(r, now)
    case Drop(seqnos) => exists r :: r in rows && KeyOf(r) == x && DroppedBy(r, seqnos)
    case Forget => true
    case Remember(p) =>
      && |Remembered(rows, p)| == HISTORY_LIMIT && x !in Keys(Remembered(rows, p))
      && forall y :: y in Keys(Remembered(rows, p)) ==> x.0 <= y.0
    case _ => false
  }

  lemma KeyMembers(rows: seq<Row>, x: Key)
    ensures x in Keys(rows) <==> exists r :: r in rows && KeyOf(r) == x
  {
    if r :| r in rows && KeyOf(r) == x {
      var i :| 0 <= i < |rows| && rows[i] == r;
      assert KeyOf(rows[i]) in Keys(rows);
    }
  }

  lemma KeptKey(rows: seq<Row>, keep: Row -> bool, x: Key)
    requires x in Keys(rows) && x !in Keys(Kept(rows, keep))
    ensures exists r :: r in rows && KeyOf(r) == x && !keep(r)
  {
    KeyMembers(rows, x);
    KeyMembers(Kept(rows, keep), x);
    KeptMembers(rows, keep);
    var r :| r in rows && KeyOf(r) == x;
  }

  // One change: a key that is there, or is just being remembered, stays or goes for such a reason.
  lemma {:induction false} StaysOrGoes(rows: seq<Row>, c: Change, x: Key, seqOf: map<nat, nat>)
    requires Ok(rows) && Placed(rows, seqOf) && Honest(c, seqOf)
    requires x in Keys(rows) || (c.Remember? && PatchKey(c.patch) == x)
    ensures x in Keys(Changed(rows, c)) || Goes(rows, c, x)
  {
    match c
    case Remember(p) =>
      hide Ok, Keys, Remembered;
      OkIsNewest(rows);
      RememberKeepsNewest(rows, Keys(rows), p);
      assert |Remembered(rows, p)| <= HISTORY_LIMIT by { NewestIsOk(Remembered(rows, p), Keys(rows) + {PatchKey(p)}); OkIsShort(Remembered(rows, p)); }
    case Prune(now) =>
      if x !in Keys(Changed(rows, c)) {
        KeptKey(rows, r => !Expired(r, now), x);
      }
    case Drop(seqnos) =>
      if x !in Keys(Changed(rows, c)) {
        KeptKey(rows, r => !DroppedBy(r, seqnos), x);
      }
    case Forget =>
    case _ =>
      ChangeKeepsOk(rows, c, seqOf);
  }

  lemma OkIsShort(rows: seq<Row>)
    requires Ok(rows)
    ensures |rows| <= HISTORY_LIMIT
  {
  }

  // The change number `n` of a run, from `rows`, is where `x` went.
  ghost predicate GoesAt(rows: seq<Row>, cs: seq<Change>, n: nat, x: Key) {
    n < |cs| && Goes(Run(rows, cs[..n]), cs[n], x)
  }

  lemma RunFrom(rows: seq<Row>, cs: seq<Change>, n: nat)
    requires 0 < n <= |cs|
    ensures Run(rows, cs[..n]) == Run(Changed(rows, cs[0]), cs[1..][..n - 1])
  {
    assert cs[..n][0] == cs[0] && cs[..n][1..] == cs[1..][..n - 1];
  }

  lemma {:induction false} EveryKeyStaysOrGoes(rows: seq<Row>, cs: seq<Change>, k: nat, x: Key, seqOf: map<nat, nat>)
    requires Ok(rows) && Placed(rows, seqOf) && AllHonest(cs, seqOf) && k <= |cs|
    requires (k < |cs| && cs[k].Remember? && PatchKey(cs[k].patch) == x) || (k == 0 && x in Keys(rows))
    ensures x in Keys(Run(rows, cs)) || exists n :: k <= n && GoesAt(rows, cs, n, x)
    decreases |cs|
  {
    if cs == [] {
    } else {
      var c, rest := cs[0], cs[1..];
      assert Honest(c, seqOf);
      hide Ok, Placed, Changed, Honest, Goes;
      ChangeKeepsOk(rows, c, seqOf);
      RestHonest(cs, seqOf);
      var next := Changed(rows, c);
      if k == 0 {
        StaysOrGoes(rows, c, x, seqOf);
      }
      if k == 0 && x !in Keys(next) {
        assert cs[..0] == [] && Run(rows, cs[..0]) == rows;
        assert GoesAt(rows, cs, 0, x);
      } else {
        var k' := if k == 0 then 0 else k - 1;
        EveryKeyStaysOrGoes(next, rest, k', x, seqOf);
        if x !in Keys(Run(rows, cs)) {
          var n :| k' <= n && GoesAt(next, rest, n, x);
          RunFrom(rows, cs, n + 1);
          assert GoesAt(rows, cs, n + 1, x);
        }
      }
    }
  }

  // From nothing, over every run: a key remembered at step `k` is in the rows at the end, or went at a
  // later step, pruned, dropped, forgotten, or cut with a thousand rows at or after it kept.
  lemma {:induction false} NothingGoesUnaccounted(cs: seq<Change>, k: nat, seqOf: map<nat, nat>)
    requires AllHonest(cs, seqOf) && k < |cs| && cs[k].Remember?
    ensures PatchKey(cs[k].patch) in Keys(Run([], cs)) || exists n :: k <= n && GoesAt([], cs, n, PatchKey(cs[k].patch))
  {
    EveryKeyStaysOrGoes([], cs, k, PatchKey(cs[k].patch), seqOf);
  }

  lemma {:induction false} KeyCount(rows: seq<Row>)
    requires Unique(rows)
    ensures |Keys(rows)| == |rows|
  {
    if rows == [] {
      assert Keys(rows) == {};
    } else {
      var init, last := rows[..|rows| - 1], rows[|rows| - 1];
      KeyCount(init);
      KeysOfInsert(init, |init|, last);
      assert Inserted(init, |init|, last) == rows;
      assert KeyOf(last) !in Keys(init);
    }
  }

  lemma SameKeysSameLength(a: seq<Row>, b: seq<Row>)
    requires Unique(a) && Unique(b) && Keys(a) == Keys(b)
    ensures |a| == |b|
  {
    KeyCount(a);
    KeyCount(b);
  }

  // Without that promise the order can break: the echo is matched to any message row with its client
  // id, also another sender's. It is kept exactly when the new position fits between the neighbours.
  ghost predicate Fits(rows: seq<Row>, i: nat, at: Position)
    requires i < |rows|
  {
    && (i == 0 || rows[i - 1].at <= at) && (i + 1 == |rows| || at <= rows[i + 1].at)
    && forall j :: 0 <= j < |rows| && j != i ==> KeyOf(rows[j]) != (at, MessageRow)
  }

  lemma MovedSorted(rows: seq<Row>, i: nat, r: Row)
    requires Sorted(rows) && i < |rows|
    ensures Sorted(rows[i := r]) <==> (i == 0 || rows[i - 1].at <= r.at) && (i + 1 == |rows| || r.at <= rows[i + 1].at)
  {
    var moved := rows[i := r];
    if Sorted(moved) {
      assert i > 0 ==> moved[i - 1] == rows[i - 1] && moved[i - 1].at <= moved[i].at;
      assert i + 1 < |rows| ==> moved[i + 1] == rows[i + 1] && moved[i].at <= moved[i + 1].at;
    }
  }

  lemma MovedUnique(rows: seq<Row>, i: nat, r: Row)
    requires Unique(rows) && i < |rows|
    ensures Unique(rows[i := r]) <==> forall j :: 0 <= j < |rows| && j != i ==> KeyOf(rows[j]) != KeyOf(r)
  {
    var moved := rows[i := r];
    if Unique(moved) {
      forall j | 0 <= j < |rows| && j != i ensures KeyOf(rows[j]) != KeyOf(r) {
        assert moved[j] == rows[j] && moved[i] == r;
      }
    }
  }

  lemma {:induction false} ConfirmKeepsExactlyWhenItFits(rows: seq<Row>, cmid: nat, seqno: nat, expires: Option<nat>)
    requires Ok(rows)
    ensures Ok(Confirmed(rows, cmid, seqno, expires)) <==>
              FindOwn(rows, cmid) == |rows| || Fits(rows, FindOwn(rows, cmid), 2 * seqno)
  {
    var i := FindOwn(rows, cmid);
    if i < |rows| {
      var r := Confirmed(rows, cmid, seqno, expires)[i];
      assert r.at == 2 * seqno && KeyOf(r) == (2 * seqno, MessageRow);
      hide Sorted, Unique;
      MovedSorted(rows, i, r);
      MovedUnique(rows, i, r);
    }
  }

  // Another member's message 5 under client id 7, then this device's own message 9 under the same id.
  lemma SharedClientIdBreaksOrder()
    ensures var theirs := Row(MessageRow, 10, Some(7), None, None, "theirs");
            var later := Row(NoticeRow, 12, None, None, None, "");
            Ok([theirs, later]) && !Ok(Confirmed([theirs, later], 7, 9, None))
  {
    var theirs := Row(MessageRow, 10, Some(7), None, None, "theirs");
    var later := Row(NoticeRow, 12, None, None, None, "");
    ConfirmKeepsExactlyWhenItFits([theirs, later], 7, 9, None);
    assert FindOwn([theirs, later], 7) == 0;
  }

  // ---- one entry of the log -----------------------------------------------------------------------

  // What `processItem` found an entry to be, once the library has had its say.
  datatype Shown =
    | ShownNotice(text: string, expires: Option<nat>)
    | CommitRejected
    | CommitVerified(text: string, declared: bool) // whether the declared devices match the verified ones
    | MessageDeleted(expires: Option<nat>, replacedBy: Option<nat>)
    | OwnMessage(cmid: nat, expires: Option<nat>)
    | Undecryptable(expires: Option<nat>)
    | SenderMismatch
    | Readable(cmid: nat, text: string, expires: Option<nat>, editOf: Option<nat>)
    | NothingToShow

  function ChangesOf(s: Shown, seqno: nat): seq<Change> {
    match s
    case ShownNotice(text, expires) => [Remember(Patch(NoticeRow, 2 * seqno, None, Some(expires), None, Some(text)))]
    case CommitRejected => [Remember(Patch(WarningRow, 2 * seqno, None, None, None, Some("commit_rejected")))]
    case CommitVerified(text, declared) =>
      [Remember(Patch(CommitRow, 2 * seqno, None, None, None, Some(text)))]
      + if declared then [] else [Remember(Patch(WarningRow, 2 * seqno + 1, None, None, None, Some("membership_mismatch")))]
    case MessageDeleted(expires, edit) => [Remember(Patch(MessageRow, 2 * seqno, None, Some(expires), Some(edit), None))]
    case OwnMessage(cmid, expires) => [Confirm(cmid, seqno, expires)]
    case Undecryptable(expires) => [Remember(Patch(MessageRow, 2 * seqno, None, Some(expires), None, None))]
    case SenderMismatch => [Remember(Patch(WarningRow, 2 * seqno, None, None, None, Some("sender_mismatch")))]
    case Readable(cmid, text, expires, editOf) =>
      [Remember(Patch(MessageRow, 2 * seqno, Some(cmid), Some(expires), None, Some(text)))]
      + if editOf.Some? then [Replace(editOf.value, seqno)] else []
    case NothingToShow => []
  }

  class History {
    var rows: seq<Row>

    constructor ()
      ensures rows == []
    {
      rows := [];
    }

    method RememberRow(p: Patch)
      modifies this
      ensures rows == Remembered(old(rows), p)
      ensures old(Ok(rows)) ==> Ok(rows)
    {
      if Ok(rows) {
        RememberKeepsOk(rows, p);
      }
      var at := 0;
      while at < |rows| && !(rows[at].at == p.at && rows[at].kind == p.kind)
        invariant at <= |rows|
        invariant forall j :: 0 <= j < at ==> KeyOf(rows[j]) != (p.at, p.kind)
      {
        at := at + 1;
      }
      if at < |rows| {
        rows := rows[at := Merged(rows[at], p)];
        return;
      }
      rows := rows + [Fresh(p)];
      rows := SortByPosition(rows);
      if |rows| > HISTORY_LIMIT {
        rows := rows[|rows| - HISTORY_LIMIT..];
      }
    }

    // The first message row under the client id moves; the order is kept exactly when it fits there.
    method ConfirmOwn(cmid: nat, seqno: nat, expires: Option<nat>)
      modifies this
      ensures rows == Confirmed(old(rows), cmid, seqno, expires)
      ensures old(Ok(rows)) ==>
                (Ok(rows) <==> FindOwn(old(rows), cmid) == |old(rows)| || Fits(old(rows), FindOwn(old(rows), cmid), 2 * seqno))
    {
      if Ok(rows) {
        ConfirmKeepsExactlyWhenItFits(rows, cmid, seqno, expires);
      }
      hide Ok, Fits;
      var i := 0;
      while i < |rows| && !(rows[i].kind.MessageRow? && rows[i].cmid == Some(cmid))
        invariant i <= |rows|
        invariant forall j :: 0 <= j < i ==> !(rows[j].kind.MessageRow? && rows[j].cmid == Some(cmid))
      {
        i := i + 1;
      }
      if i < |rows| {
        rows := rows[i := rows[i].(at := 2 * seqno, expires := expires)];
      }
    }

    // The edited message, if it is still there, points to its edit; no row moves or goes.
    method MarkReplaced(target: nat, edit: nat)
      modifies this
      ensures rows == Replaced(old(rows), target, edit)
      ensures old(Ok(rows)) ==> Ok(rows) && Keys(rows) == old(Keys(rows))
    {
      var i := 0;
      while i < |rows| && !(rows[i].kind.MessageRow? && rows[i].at == 2 * target)
        invariant i <= |rows|
        invariant forall j :: 0 <= j < i ==> KeyOf(rows[j]) != (2 * target, MessageRow)
      {
        i := i + 1;
      }
      if i < |rows| {
        if Ok(rows) {
          PatchedRowSame(rows, i, rows[i].(replacedBy := Some(edit)));
        }
        rows := rows[i := rows[i].(replacedBy := Some(edit))];
      }
    }

    // The rows of one entry; a message of this device, once sent, is shown as a readable one.
    method Show(s: Shown, seqno: nat)
      modifies this
      ensures rows == Run(old(rows), ChangesOf(s, seqno))
    {
      UpToTwo(rows, ChangesOf(s, seqno));
      match s
      case ShownNotice(text, expires) =>
        RememberRow(Patch(NoticeRow, 2 * seqno, None, Some(expires), None, Some(text)));
      case CommitRejected =>
        RememberRow(Patch(WarningRow, 2 * seqno, None, None, None, Some("commit_rejected")));
      case CommitVerified(text, declared) =>
        RememberRow(Patch(CommitRow, 2 * seqno, None, None, None, Some(text)));
        if !declared {
          RememberRow(Patch(WarningRow, 2 * seqno + 1, None, None, None, Some("membership_mismatch")));
        }
      case MessageDeleted(expires, edit) =>
        RememberRow(Patch(MessageRow, 2 * seqno, None, Some(expires), Some(edit), None));
      case OwnMessage(cmid, expires) =>
        ConfirmOwn(cmid, seqno, expires);
      case Undecryptable(expires) =>
        RememberRow(Patch(MessageRow, 2 * seqno, None, Some(expires), None, None));
      case SenderMismatch =>
        RememberRow(Patch(WarningRow, 2 * seqno, None, None, None, Some("sender_mismatch")));
      case Readable(cmid, text, expires, editOf) =>
        RememberRow(Patch(MessageRow, 2 * seqno, Some(cmid), Some(expires), None, Some(text)));
        if editOf.Some? {
          MarkReplaced(editOf.value, seqno);
        }
      case NothingToShow =>
    }
  }

  lemma UpToTwo(rows: seq<Row>, cs: seq<Change>)
    requires |cs| <= 2
    ensures |cs| == 1 ==> Run(rows, cs) == Changed(rows, cs[0])
    ensures |cs| == 2 ==> Run(rows, cs) == Changed(Changed(rows, cs[0]), cs[1])
  {
    if |cs| == 2 {
      var once := Changed(rows, cs[0]);
      assert cs[1..] == [cs[1]] && [cs[1]][1..] == [];
      assert Run(once, [cs[1]]) == Run(Changed(once, cs[1]), []);
    }
  }
}
