// What the inbox promises over whole runs: one attempt at a time and one stored message per send,
// rows that go only when answered, read marks that do not flicker, and deletions that stay.
module InboxRuns {
  import opened Common
  import opened InboxProtocol
  import opened InboxInvariants

  ghost predicate Possible(w: World, es: seq<Event>)
    decreases |es|
  {
    es == [] || (Enabled(w, es[0]) && Possible(Step(w, es[0]), es[1..]))
  }

  ghost function Exec(w: World, es: seq<Event>): World
    requires Possible(w, es)
    decreases |es|
  {
    if es == [] then w else Exec(Step(w, es[0]), es[1..])
  }

  // Every snapshot of the run is taken in request order.
  ghost predicate OrderlyRun(w: World, es: seq<Event>)
    requires Possible(w, es)
    decreases |es|
  {
    es == [] || (InOrder(w, es[0]) && OrderlyRun(Step(w, es[0]), es[1..]))
  }

  // A page just opened on a mailbox, before a postbox with any contents.
  ghost predicate Start(w: World) {
    && (forall id :: id in w.server.msgs ==> w.server.msgs[id].msg.id == id && w.server.msgs[id].msg.origin.None?)
    && w.server.byRef == map[]
    && w.page.inbound == [] && w.page.lastRequest == w.page.accepted == 0 && w.page.acked == {}
    && w.page.records == map[] && w.page.rows == []
    && w.net == Net(map[], map[], {}, map[]) && w.past == Past({}, {}, [])
  }

  ghost predicate Sound(w: World) {
    Sends(w) && Listings(w) && Served(w) && Gone(w)
  }

  ghost predicate MarksSound(w: World) {
    Listings(w) && Ordered(w) && Marks(w) && w.past.marked <= w.server.msgs.Keys
  }

  lemma StartIsSound(w: World)
    requires Start(w)
    ensures Sound(w) && MarksSound(w)
  {
  }

  lemma {:induction false} StepKeepsSound(w: World, e: Event)
    requires Enabled(w, e) && Sound(w)
    ensures Sound(Step(w, e))
  {
    SendsKept(w, e);
    ListingsKept(w, e);
    ServedKept(w, e);
    GoneKept(w, e);
  }

  lemma {:induction false} RunKeepsSound(w: World, es: seq<Event>)
    requires Possible(w, es) && Sound(w)
    ensures Sound(Exec(w, es))
    decreases |es|
  {
    if es != [] {
      StepKeepsSound(w, es[0]);
      RunKeepsSound(Step(w, es[0]), es[1..]);
    }
  }

  lemma {:induction false} RunKeepsMarks(w: World, es: seq<Event>)
    requires Possible(w, es) && OrderlyRun(w, es) && MarksSound(w)
    ensures MarksSound(Exec(w, es))
    decreases |es|
  {
    if es != [] {
      ListingsKept(w, es[0]);
      OrderedKept(w, es[0]);
      MarksKept(w, es[0]);
      RunKeepsMarks(Step(w, es[0]), es[1..]);
    }
  }

  // ---- sends ------------------------------------------------------------------------------------

  // In every run a pending record has at most one attempt under way, which is exactly when it says
  // "sending"; every attempt carries the request the record was born with; and a send under a
  // reference is stored at most once, however often it was tried.
  lemma {:induction false} SendsInEveryRun(w0: World, es: seq<Event>)
    requires Start(w0) && Possible(w0, es)
    ensures var w := Exec(w0, es);
      && (forall a, b :: (a in w.net.attempts && b in w.net.attempts && w.net.attempts[a].waiting && w.net.attempts[b].waiting
                          && w.net.attempts[a].record == w.net.attempts[b].record) ==> a == b)
      && (forall o :: o in w.page.records ==>
            (w.page.records[o].status.Sending? <==> exists a :: a in w.net.attempts && w.net.attempts[a].waiting && w.net.attempts[a].record == o))
      && (forall a :: a in w.net.attempts ==>
            w.net.attempts[a].record in w.page.records && w.net.attempts[a].request == w.page.records[w.net.attempts[a].record].request)
      && (forall i, j :: (i in w.server.msgs && j in w.server.msgs && w.server.msgs[i].msg.origin.Some?
                          && w.server.msgs[i].msg.origin == w.server.msgs[j].msg.origin && w.server.msgs[i].msg.ref.Some?) ==> i == j)
  {
    StartIsSound(w0);
    RunKeepsSound(w0, es);
    var w := Exec(w0, es);
    hide Start, Possible, Exec, Listings, Served, Gone;
    forall i, j | i in w.server.msgs && j in w.server.msgs && w.server.msgs[i].msg.origin.Some?
                  && w.server.msgs[i].msg.origin == w.server.msgs[j].msg.origin && w.server.msgs[i].msg.ref.Some?
      ensures i == j
    {
      var o := w.server.msgs[i].msg.origin.value;
      assert Copy(w.server, w.page.records, o, i) && Copy(w.server, w.page.records, o, j);
    }
  }

  // The request a record is retried with is the one it was made with, over any run.
  lemma {:induction false} RequestNeverChanges(w: World, es: seq<Event>, o: LocalId)
    requires Possible(w, es) && o in w.page.records
    ensures o in Exec(w, es).page.records && Exec(w, es).page.records[o].request == w.page.records[o].request
    decreases |es|
  {
    if es != [] {
      RequestsStay(w, es[0]);
      RequestNeverChanges(Step(w, es[0]), es[1..], o);
    }
  }

  // A send taken again stores a second message exactly when it has no reference.
  lemma {:induction false} StoredAgainExactlyWithoutRef(w0: World, es: seq<Event>, a: nat, id: MsgId, first: MsgId)
    requires Start(w0) && Possible(w0, es) && Enabled(Exec(w0, es), Take(a, id, true))
    requires first in Exec(w0, es).server.msgs
             && Exec(w0, es).server.msgs[first].msg.origin == Some(Exec(w0, es).net.attempts[a].record)
    ensures var w := Exec(w0, es);
            id in Step(w, Take(a, id, true)).server.msgs <==> w.net.attempts[a].request.ref.None?
    ensures var w := Exec(w0, es);
            w.net.attempts[a].request.ref.None? ==>
              Step(w, Take(a, id, true)).server.msgs[id].msg.origin == w.server.msgs[first].msg.origin && id != first
  {
    StartIsSound(w0);
    RunKeepsSound(w0, es);
    var w := Exec(w0, es);
    hide Start, Possible, Exec, Listings, Served, Gone, InFlight, Copies;
    assert Copy(w.server, w.page.records, w.net.attempts[a].record, first);
  }

  // ---- rows -------------------------------------------------------------------------------------

  lemma ReceiveSplits(w: World, t: Ticket)
    requires Enabled(w, Receive(t)) && Adoptable(w.page, t)
    ensures var l := w.net.listings[t].snapshot.value;
            var w' := Step(w, Receive(t));
            && w'.server == w.server && w'.page.records == w.page.records
            && w'.page.rows == Reconciled(w.page.rows, w.page.records, Ids(l), RefsIn(w.page.mailbox, l))
            && w'.page.inbound == ShowAll(l, w.page.acked).0 && w'.page.mailbox == w.page.mailbox
  {
  }

  // `adopt` drops a row only if the listing holds the copy its send stored.
  lemma {:induction false} DroppedOnlyWhenAnswered(w0: World, es: seq<Event>, t: Ticket, o: LocalId)
    requires Start(w0) && Possible(w0, es)
    requires var w := Exec(w0, es); Enabled(w, Receive(t)) && Adoptable(w.page, t) && o in w.page.rows && o !in Step(w, Receive(t)).page.rows
    ensures var l := Exec(w0, es).net.listings[t].snapshot.value;
            exists i :: 0 <= i < |l| && l[i].origin == Some(o) && l[i].out
  {
    StartIsSound(w0);
    RunKeepsSound(w0, es);
    var w := Exec(w0, es);
    ReceiveSplits(w, t);
    hide Start, Possible, Exec, Step, Enabled;
    var l := w.net.listings[t].snapshot.value;
    var mailbox := w.net.listings[t].mailbox;
    ReconciledIsPart(w.page.rows, w.page.records, Ids(l), RefsIn(w.page.mailbox, l));
    var r := w.page.records[o];
    if r.sentCopy.Some? && r.sentCopy.value in Ids(l) {
      var i :| 0 <= i < |l| && l[i].id == r.sentCopy.value;
      assert Once(w.server, mailbox, l[i]) && Copy(w.server, w.page.records, o, l[i].id);
    } else {
      var i :| 0 <= i < |l| && l[i].out && l[i].ref == r.request.ref;
      assert Once(w.server, mailbox, l[i]);
      assert w.server.msgs[l[i].id].msg.ref == r.request.ref;
    }
  }

  // After `adopt`, no settled row with a reference stands beside its own copy.
  lemma {:induction false} NoRowBesideItsCopy(w0: World, es: seq<Event>, t: Ticket, o: LocalId)
    requires Start(w0) && Possible(w0, es)
    requires var w := Exec(w0, es);
             && Enabled(w, Receive(t)) && Adoptable(w.page, t) && o in Step(w, Receive(t)).page.rows && o in w.page.records
             && !w.page.records[o].status.Sending? && w.page.records[o].request.ref.Some?
    ensures var l := Step(Exec(w0, es), Receive(t)).page.inbound;
            forall i :: 0 <= i < |l| ==> l[i].origin != Some(o)
  {
    StartIsSound(w0);
    RunKeepsSound(w0, es);
    hide Start, Possible, Exec, Step, Enabled, Sound, Adoptable;
    NoCopyListed(Exec(w0, es), t, o);
  }

  lemma NoCopyListed(w: World, t: Ticket, o: LocalId)
    requires Sound(w) && Enabled(w, Receive(t)) && Adoptable(w.page, t) && o in Step(w, Receive(t)).page.rows && o in w.page.records
    requires !w.page.records[o].status.Sending? && w.page.records[o].request.ref.Some?
    ensures var l := Step(w, Receive(t)).page.inbound;
            forall i :: 0 <= i < |l| ==> l[i].origin != Some(o)
  {
    ReceiveSplits(w, t);
    hide Step, Enabled, Served, Gone, Inbound, Adoptions, Attempts, InFlight, Copies;
    var l := w.net.listings[t].snapshot.value;
    ReconciledIsPart(w.page.rows, w.page.records, Ids(l), RefsIn(w.page.mailbox, l));
    ShowAllMeaning(l, w.page.acked);
    forall i | 0 <= i < |l| ensures l[i].origin != Some(o) {
      assert Once(w.server, w.net.listings[t].mailbox, l[i]);
    }
  }

  // A listed send that succeeded and of which the postbox has no copy.
  ghost predicate Unkept(w: World, o: LocalId) {
    && o in w.page.rows && o in w.page.records && w.page.records[o].status.Sent? && w.page.records[o].sentCopy.None?
    && KeptNone(w.server, w.page.records[o].request)
  }

  // The answer to a listed send that left no copy takes its row away exactly when it was a retry; the
  // row of a first attempt is one nothing accounts for.
  lemma {:induction false} UnkeptGoesExactlyOnRetry(w0: World, es: seq<Event>, a: nat)
    requires Start(w0) && Possible(w0, es) && Enabled(Exec(w0, es), Answer(a))
    requires var t := Exec(w0, es).net.attempts[a]; t.verdict == Some(Taken(None)) && t.record in Exec(w0, es).page.rows
    ensures var w := Exec(w0, es);
            var o := w.net.attempts[a].record;
            && (o in Step(w, Answer(a)).page.rows <==> !w.net.attempts[a].retry)
            && (Unkept(Step(w, Answer(a)), o) <==> !w.net.attempts[a].retry)
  {
    StartIsSound(w0);
    RunKeepsSound(w0, es);
    var w := Exec(w0, es);
    hide Start, Possible, Exec, Listings, Served, Gone, Origins, References, InFlight, Copies;
    MinusIsPart(w.page.rows, w.net.attempts[a].record);
  }

  // Signing out, or a confirmed deletion of its thread.
  predicate TakesAway(w: World, e: Event, o: LocalId)
    requires o in w.page.records
  {
    e.SignOut?
    || (e.ConfirmDelete? && e.deletion in w.net.deletions
        && var d := w.net.deletions[e.deletion];
           d.opening == w.page.opening && d.target.WholeThread? && InThread(w.page.records[o], d.mailbox, d.target.thread))
  }

  ghost predicate Spared(w: World, es: seq<Event>, o: LocalId)
    requires Possible(w, es) && o in w.page.records
    decreases |es|
  {
    es == [] || (!TakesAway(w, es[0], o)
                 && (RequestsStay(w, es[0]); Spared(Step(w, es[0]), es[1..], o)))
  }

  // Such a row stays through every listing, and every other step of any run, until one of those two
  // takes it away.
  lemma {:induction false} UnkeptSendStays(w: World, es: seq<Event>, o: LocalId)
    requires Sound(w) && Possible(w, es) && Unkept(w, o) && Spared(w, es, o)
    ensures Unkept(Exec(w, es), o)
    decreases |es|
  {
    if es != [] {
      hide Sound, Unkept, TakesAway;
      UnkeptStaysExactlyWhen(w, es[0], o);
      StepKeepsSound(w, es[0]);
      UnkeptSendStays(Step(w, es[0]), es[1..], o);
    }
  }

  lemma {:induction false} UnkeptStaysExactlyWhen(w: World, e: Event, o: LocalId)
    requires Sound(w) && Enabled(w, e) && Unkept(w, o)
    ensures Unkept(Step(w, e), o) <==> !TakesAway(w, e, o)
  {
    UnkeptRecord(w, e, o);
    ServerGrows(w, e);
    RequestsStay(w, e);
    if e.Receive? && Adoptable(w.page, e.ticket) {
      UnkeptThroughListing(w, e.ticket, o);
      hide Step, Enabled, Sound;
    } else {
      UnkeptRow(w, e, o);
      hide Step, Enabled, Sound, TakesAway;
    }
  }

  // Its record is settled, and stays as it is.
  lemma UnkeptRecord(w: World, e: Event, o: LocalId)
    requires Sound(w) && Enabled(w, e) && Unkept(w, o)
    ensures o in Step(w, e).page.records && Step(w, e).page.records[o].status.Sent? && Step(w, e).page.records[o].sentCopy.None?
  {
    hide Listings, Served, Gone, Origins, References, Copies;
  }

  lemma UnkeptRow(w: World, e: Event, o: LocalId)
    requires Sound(w) && Enabled(w, e) && Unkept(w, o)
    requires e.Receive? ==> !Adoptable(w.page, e.ticket)
    ensures o in Step(w, e).page.rows <==> !TakesAway(w, e, o)
  {
    hide Listings, Served, Gone, Origins, References, Copies;
    if e.Discard? {
      MinusIsPart(w.page.rows, e.local);
    } else if e.Answer? {
      MinusIsPart(w.page.rows, w.net.attempts[e.attempt].record);
    } else if e.ConfirmDelete? {
      var d := w.net.deletions[e.deletion];
      if d.target.WholeThread? {
        OutsideIsPart(w.page.rows, w.page.records, d.mailbox, d.target.thread);
      }
    }
  }

  // A reference the postbox remembers without a copy is on no message of a listing.
  lemma UnkeptUnlisted(w: World, t: Ticket, o: LocalId, i: nat)
    requires Sends(w) && Listings(w) && t in w.net.listings && w.net.listings[t].snapshot.Some? && i < |w.net.listings[t].snapshot.value|
    requires Unkept(w, o) && w.page.records[o].request.ref.Some?
    ensures w.net.listings[t].snapshot.value[i].ref != w.page.records[o].request.ref
  {
    hide Tickets, Inbound, Adoptions, Attempts, InFlight, Copies;
    assert Once(w.server, w.net.listings[t].mailbox, w.net.listings[t].snapshot.value[i]);
  }

  lemma {:induction false} UnkeptThroughListing(w: World, t: Ticket, o: LocalId)
    requires Sound(w) && Enabled(w, Receive(t)) && Adoptable(w.page, t) && Unkept(w, o)
    ensures o in Step(w, Receive(t)).page.rows
  {
    ReceiveSplits(w, t);
    hide Step, Enabled, Sends, Listings, Served, Gone, IsListing;
    var l := w.net.listings[t].snapshot.value;
    ReconciledIsPart(w.page.rows, w.page.records, Ids(l), RefsIn(w.page.mailbox, l));
    var q := w.page.records[o].request;
    forall i | 0 <= i < |l| && q.ref.Some? ensures l[i].ref != q.ref {
      UnkeptUnlisted(w, t, o, i);
    }
  }

  // ---- listings and deletions ---------------------------------------------------------------------

  // Adopted listings come from the opening that adopts them and their numbers strictly ascend, in
  // every run: a listing asked for before a switch is never adopted, also not back in its mailbox.
  lemma {:induction false} AdoptionsInEveryRun(w0: World, es: seq<Event>)
    requires Start(w0) && Possible(w0, es)
    ensures var d := Exec(w0, es).past.adopted;
      && (forall i :: 0 <= i < |d| ==> d[i].1.opening == d[i].0)
      && (forall i, j :: 0 <= i < j < |d| ==> Before(d[i].1, d[j].1))
  {
    StartIsSound(w0);
    RunKeepsSound(w0, es);
  }

  lemma {:induction false} GoneOnlyGrows(w: World, es: seq<Event>)
    requires Possible(w, es)
    ensures w.past.gone <= Exec(w, es).past.gone
    decreases |es|
  {
    if es != [] {
      FrameLists(w, es[0]);
      GoneOnlyGrows(Step(w, es[0]), es[1..]);
    }
  }

  // A message or thread whose deletion was confirmed never comes back, whatever listing was under way
  // then or is asked for later.
  lemma {:induction false} NothingResurrected(w0: World, es: seq<Event>, d: nat, more: seq<Event>)
    requires Start(w0) && Possible(w0, es)
    requires var w := Exec(w0, es);
             && Enabled(w, ConfirmDelete(d)) && w.net.deletions[d].opening == w.page.opening
             && Possible(Step(w, ConfirmDelete(d)), more)
    ensures var w := Exec(w0, es);
            Lacks(Exec(Step(w, ConfirmDelete(d)), more).page.inbound, w.net.deletions[d].served.value)
  {
    StartIsSound(w0);
    RunKeepsSound(w0, es);
    var w := Exec(w0, es);
    var w1 := Step(w, ConfirmDelete(d));
    StepKeepsSound(w, ConfirmDelete(d));
    RunKeepsSound(w1, more);
    GoneOnlyGrows(w1, more);
  }

  // ---- read marks ---------------------------------------------------------------------------------

  // No step of the run takes the mark back: its ack does not fail and the mailbox stays.
  predicate LeavesMark(e: Event, id: MsgId) {
    !(e.AckFailed? && e.ack.id == id) && !e.Switch? && !e.SignOut?
  }

  lemma {:induction false} MarkStays(w: World, es: seq<Event>, id: MsgId)
    requires Possible(w, es) && id in w.past.marked
    requires forall k :: 0 <= k < |es| ==> LeavesMark(es[k], id)
    ensures id in Exec(w, es).past.marked
    decreases |es|
  {
    if es != [] {
      assert LeavesMark(es[0], id);
      FrameLists(w, es[0]);
      assert forall k :: 0 <= k < |es[1..]| ==> es[1..][k] == es[k + 1];
      MarkStays(Step(w, es[0]), es[1..], id);
    }
  }

  // From the moment a message is marked read, as long as its ack does not fail and the mailbox stays,
  // the list shows it read after every step, whichever listings arrive: if the postbox takes its
  // snapshots in request order.
  lemma {:induction false} MarksNeverFlicker(w0: World, es: seq<Event>, ids: set<MsgId>, id: MsgId, more: seq<Event>)
    requires Start(w0) && Possible(w0, es) && OrderlyRun(w0, es) && id in ids && Enabled(Exec(w0, es), MarkVisible(ids))
    requires var w1 := Step(Exec(w0, es), MarkVisible(ids));
             Possible(w1, more) && OrderlyRun(w1, more)
    requires forall k :: 0 <= k < |more| ==> LeavesMark(more[k], id)
    ensures ShownRead(Exec(Step(Exec(w0, es), MarkVisible(ids)), more).page.inbound, id)
  {
    StartIsSound(w0);
    RunKeepsMarks(w0, es);
    var w := Exec(w0, es);
    var w1 := Step(w, MarkVisible(ids));
    ListingsKept(w, MarkVisible(ids));
    OrderedKept(w, MarkVisible(ids));
    MarksKept(w, MarkVisible(ids));
    RunKeepsMarks(w1, more);
    MarkStays(w1, more, id);
  }

  // ---- when the marks flicker ---------------------------------------------------------------------

  // Two listings under way, both taken, of a message that is marked and not yet confirmed: received in
  // order, they leave it read exactly unless the earlier one was taken after the ack and the later one
  // before it.
  lemma {:induction false} FlickersExactlyWhenInverted(w: World, t: Ticket, u: Ticket, id: MsgId)
    requires Listings(w) && t in w.net.listings && u in w.net.listings && t.number < u.number
    requires Adoptable(w.page, t) && Adoptable(w.page, u) && id in w.page.acked
    requires w.net.listings[t].snapshot.Some? && w.net.listings[u].snapshot.Some?
    ensures Possible(w, [Receive(t), Receive(u)])
    ensures ShownRead(Exec(w, [Receive(t), Receive(u)]).page.inbound, id) <==>
              (IsRead(w.net.listings[t].snapshot.value, id) ==> ShownRead(w.net.listings[u].snapshot.value, id))
  {
    var a, b := w.net.listings[t].snapshot.value, w.net.listings[u].snapshot.value;
    assert AllOnce(w.server, w.net.listings[t].mailbox, a) && AllOnce(w.server, w.net.listings[u].mailbox, b);
    ShowAllMeaning(a, w.page.acked);
    var w1 := Step(w, Receive(t));
    assert w1.page.acked == ShowAll(a, w.page.acked).1 && w1.page.opening == w.page.opening && w1.page.accepted == t.number;
    assert u in w1.net.listings && w1.net.listings[u] == w.net.listings[u];
    ShowAllMeaning(b, w1.page.acked);
    var w2 := Step(w1, Receive(u));
    assert w2.page.inbound == ShowAll(b, w1.page.acked).0;
    assert [Receive(t), Receive(u)][1..] == [Receive(u)] && [Receive(u)][1..] == [];
    assert Possible(w2, []) && Exec(w2, []) == w2;
    assert Possible(w1, [Receive(u)]) && Exec(w1, [Receive(u)]) == w2;
    forall i | 0 <= i < |b| && b[i].id == id ensures w2.page.inbound[i].id == id && w2.page.inbound[i].read == (b[i].read || id in w1.page.acked) {
    }
  }

  const UNREAD := Msg(1, false, None, false, None, None)
  const SEEN := Msg(1, false, None, true, None, None)

  ghost function OneMessage(read: bool): Server {
    Server(map[1 := Stored(0, if read then SEEN else UNREAD)], {}, map[])
  }

  // A page that has adopted its first listing and may have two more under way.
  ghost function Waiting(last: nat, early: Option<seq<Msg>>, late: Option<seq<Msg>>, marked: bool, served: bool): World {
    World(OneMessage(served),
          Page(Some(0), 0, last, 1, [if marked then SEEN else UNREAD], 1, if marked then {1} else {}, map[], []),
          Net(if last == 3 then map[Ticket(0, 2) := Listing(0, early), Ticket(0, 3) := Listing(0, late)]
              else if last == 2 then map[Ticket(0, 2) := Listing(0, early)] else map[],
              map[], if marked then {Ack(0, 1, 1)} else {}, map[]),
          Past(if marked then {1} else {}, {}, [(0, Ticket(0, 1))]))
  }

  ghost function Opened(last: nat, first: Option<seq<Msg>>): World {
    World(OneMessage(false), Page(Some(0), 0, last, 0, [], 0, {}, map[], []),
          Net(if last == 1 then map[Ticket(0, 1) := Listing(0, first)] else map[], map[], {}, map[]), Past({}, {}, []))
  }

  lemma SingleIsListing(s: Server, mailbox: Mailbox, m: Msg)
    requires s.msgs == map[m.id := Stored(mailbox, m)] && s.deleted == {}
    ensures IsListing(s, mailbox, [m])
  {
    var l := [m];
    forall id | Live(s, mailbox, id) ensures exists i :: 0 <= i < |l| && l[i].id == id {
      assert l[0].id == id;
    }
  }

  lemma ShowSingle(m: Msg)
    ensures ShowAll([m], {}) == ([m], {})
  {
    var l := [m];
    var none: seq<Msg>, nobody: set<MsgId> := [], {};
    assert l[..|l| - 1] == none && none + [m] == l && nobody - {m.id} == nobody;
    assert ShowAll(none, nobody) == (none, nobody);
  }

  lemma SingleListing(read: bool)
    ensures IsListing(OneMessage(read), 0, [if read then SEEN else UNREAD])
    ensures ShowAll([if read then SEEN else UNREAD], {}) == ([if read then SEEN else UNREAD], {})
  {
    hide IsListing, ShowAll;
    SingleIsListing(OneMessage(read), 0, if read then SEEN else UNREAD);
    ShowSingle(if read then SEEN else UNREAD);
  }

  lemma FirstListing()
    ensures Enabled(Opened(0, None), RequestListing) && Step(Opened(0, None), RequestListing) == Opened(1, None)
    ensures Enabled(Opened(1, None), Snapshot(Ticket(0, 1), [UNREAD]))
    ensures Step(Opened(1, None), Snapshot(Ticket(0, 1), [UNREAD])) == Opened(1, Some([UNREAD]))
  {
    hide IsListing;
    SingleListing(false);
  }

  lemma FirstReceived()
    ensures Enabled(Opened(1, Some([UNREAD])), Receive(Ticket(0, 1)))
    ensures Step(Opened(1, Some([UNREAD])), Receive(Ticket(0, 1))) == Waiting(1, None, None, false, false)
  {
    hide IsListing;
    SingleListing(false);
    assert map[Ticket(0, 1) := Listing(0, Some([UNREAD]))] - {Ticket(0, 1)} == map[];
  }

  lemma TwoMore()
    ensures Enabled(Waiting(1, None, None, false, false), RequestListing)
    ensures Step(Waiting(1, None, None, false, false), RequestListing) == Waiting(2, None, None, false, false)
    ensures Enabled(Waiting(2, None, None, false, false), RequestListing)
    ensures Step(Waiting(2, None, None, false, false), RequestListing) == Waiting(3, None, None, false, false)
  {
  }

  lemma LateTaken()
    ensures Enabled(Waiting(3, None, None, false, false), Snapshot(Ticket(0, 3), [UNREAD]))
    ensures Step(Waiting(3, None, None, false, false), Snapshot(Ticket(0, 3), [UNREAD])) == Waiting(3, None, Some([UNREAD]), false, false)
  {
    hide IsListing;
    SingleListing(false);
  }

  lemma MarkedAndServed()
    ensures Enabled(Waiting(3, None, Some([UNREAD]), false, false), MarkVisible({1}))
    ensures Step(Waiting(3, None, Some([UNREAD]), false, false), MarkVisible({1})) == Waiting(3, None, Some([UNREAD]), true, false)
    ensures Enabled(Waiting(3, None, Some([UNREAD]), true, false), ServeAck(Ack(0, 1, 1)))
    ensures Step(Waiting(3, None, Some([UNREAD]), true, false), ServeAck(Ack(0, 1, 1))) == Waiting(3, None, Some([UNREAD]), true, true)
  {
    assert Waiting(3, None, Some([UNREAD]), false, false).page.inbound[0].id == 1;
    assert MarkRead([UNREAD], {1}, true) == [SEEN];
    assert (set id | id in {1} :: Ack(0, id, 1)) == {Ack(0, 1, 1)};
  }

  lemma EarlyTaken()
    ensures Enabled(Waiting(3, None, Some([UNREAD]), true, true), Snapshot(Ticket(0, 2), [SEEN]))
    ensures Step(Waiting(3, None, Some([UNREAD]), true, true), Snapshot(Ticket(0, 2), [SEEN])) == Waiting(3, Some([SEEN]), Some([UNREAD]), true, true)
  {
    hide IsListing;
    SingleListing(true);
  }

  lemma {:induction false} InvertedRun() returns (w0: World, es: seq<Event>)
    ensures w0 == Opened(0, None) && Possible(w0, es) && Exec(w0, es) == Waiting(3, Some([SEEN]), Some([UNREAD]), true, true)
  {
    w0 := Opened(0, None);
    FirstListing(); FirstReceived(); TwoMore(); LateTaken(); MarkedAndServed(); EarlyTaken();
    assert Possible(w0, []) && Exec(w0, []) == w0;
    hide Step, Enabled, Opened, Waiting;
    es := Took(w0, [], w0, RequestListing, Opened(1, None));
    es := Took(w0, es, Opened(1, None), Snapshot(Ticket(0, 1), [UNREAD]), Opened(1, Some([UNREAD])));
    es := Took(w0, es, Opened(1, Some([UNREAD])), Receive(Ticket(0, 1)), Waiting(1, None, None, false, false));
    es := Took(w0, es, Waiting(1, None, None, false, false), RequestListing, Waiting(2, None, None, false, false));
    es := Took(w0, es, Waiting(2, None, None, false, false), RequestListing, Waiting(3, None, None, false, false));
    es := Took(w0, es, Waiting(3, None, None, false, false), Snapshot(Ticket(0, 3), [UNREAD]), Waiting(3, None, Some([UNREAD]), false, false));
    es := Took(w0, es, Waiting(3, None, Some([UNREAD]), false, false), MarkVisible({1}), Waiting(3, None, Some([UNREAD]), true, false));
    es := Took(w0, es, Waiting(3, None, Some([UNREAD]), true, false), ServeAck(Ack(0, 1, 1)), Waiting(3, None, Some([UNREAD]), true, true));
    es := Took(w0, es, Waiting(3, None, Some([UNREAD]), true, true), Snapshot(Ticket(0, 2), [SEEN]), Waiting(3, Some([SEEN]), Some([UNREAD]), true, true));
  }

  // Such a run exists: the listing asked for first is served after the ack, the next one before it,
  // and the message comes back unread although its ack was served.
  lemma {:induction false} OutOfOrderFlickers() returns (w0: World, es: seq<Event>)
    ensures Start(w0) && Possible(w0, es) && Possible(Exec(w0, es), [Receive(Ticket(0, 2)), Receive(Ticket(0, 3))])
    ensures 1 in Exec(w0, es).past.marked && 1 in Exec(w0, es).page.acked
    ensures !ShownRead(Exec(Exec(w0, es), [Receive(Ticket(0, 2)), Receive(Ticket(0, 3))]).page.inbound, 1)
  {
    w0, es := InvertedRun();
    assert Start(w0);
    StartIsSound(w0);
    RunKeepsSound(w0, es);
    var w := Exec(w0, es);
    assert w == Waiting(3, Some([SEEN]), Some([UNREAD]), true, true);
    hide Exec, Possible, Step, Enabled, Start, Sends, Served, Gone, Listings;
    FlickersExactlyWhenInverted(Exec(w0, es), Ticket(0, 2), Ticket(0, 3), 1);
    assert [SEEN][0].id == 1 && [UNREAD][0].id == 1;
  }

  // ---- sends that go wrong -------------------------------------------------------------------------

  // A page with an empty mailbox that has sent one message, listed at once.
  ghost function OneSend(ref: Option<Ref>, status: Status, uncertain: bool, msgs: map<MsgId, Stored>,
                         byRef: map<(Mailbox, Ref), Option<MsgId>>, attempts: map<nat, Attempt>): World {
    World(Server(msgs, {}, byRef),
          Page(Some(0), 0, 0, 0, [], 0, {}, map[1 := Record(Request(0, ref, None, 7), status, uncertain, None, None)], [1]),
          Net(map[], attempts, {}, map[]), Past({}, {}, []))
  }

  function Attempted(ref: Option<Ref>, retry: bool, waiting: bool, verdict: Option<Verdict>): Attempt {
    Attempt(1, Request(0, ref, None, 7), retry, waiting, verdict)
  }

  ghost function Empty(): World {
    World(Server(map[], {}, map[]), Page(Some(0), 0, 0, 0, [], 0, {}, map[], []), Net(map[], map[], {}, map[]), Past({}, {}, []))
  }

  lemma EmptyStarts()
    ensures Start(Empty()) && Possible(Empty(), []) && Exec(Empty(), []) == Empty()
  {
  }

  lemma FirstSend(ref: Option<Ref>)
    ensures Enabled(Empty(), Send(1, 0, ref, None, 7, false))
    ensures Step(Empty(), Send(1, 0, ref, None, 7, false)) ==
              OneSend(ref, Sending, false, map[], map[], map[0 := Attempted(ref, false, true, None)])
  {
  }

  lemma TakenWithoutCopy()
    ensures var w := OneSend(Some(5), Sending, false, map[], map[], map[0 := Attempted(Some(5), false, true, None)]);
            && Enabled(w, Take(0, 9, false))
            && Step(w, Take(0, 9, false)) ==
                 OneSend(Some(5), Sending, false, map[], map[(0, 5) := None], map[0 := Attempted(Some(5), false, true, Some(Taken(None)))])
  {
  }

  // The row nothing accounts for is reached: one send under a reference, taken without a copy and
  // answered.
  lemma {:induction false} UnkeptRun() returns (w0: World, es: seq<Event>)
    ensures Start(w0) && es == [Send(1, 0, Some(5), None, 7, false), Take(0, 9, false)] && Possible(w0, es)
    ensures Enabled(Exec(w0, es), Answer(0)) && Unkept(Step(Exec(w0, es), Answer(0)), 1)
  {
    w0 := Empty();
    EmptyStarts();
    FirstSend(Some(5));
    TakenWithoutCopy();
    hide Step, Enabled, Start, Possible, Exec;
    es := Took(w0, [], w0, Send(1, 0, Some(5), None, 7, false),
               OneSend(Some(5), Sending, false, map[], map[], map[0 := Attempted(Some(5), false, true, None)]));
    var w := OneSend(Some(5), Sending, false, map[], map[(0, 5) := None], map[0 := Attempted(Some(5), false, true, Some(Taken(None)))]);
    es := Took(w0, es, OneSend(Some(5), Sending, false, map[], map[], map[0 := Attempted(Some(5), false, true, None)]), Take(0, 9, false), w);
    AnswerEnabled(w, 0);
    UnkeptGoesExactlyOnRetry(w0, es, 0);
  }

  lemma AnswerEnabled(w: World, a: nat)
    requires a in w.net.attempts && w.net.attempts[a].waiting && w.net.attempts[a].verdict.Some? && w.net.attempts[a].record in w.page.records
    ensures Enabled(w, Answer(a))
  {
  }

  const COPY := Stored(0, Msg(1, true, None, true, None, Some(1)))

  lemma TakenWithCopy()
    ensures var w := OneSend(None, Sending, false, map[], map[], map[0 := Attempted(None, false, true, None)]);
            && Enabled(w, Take(0, 1, true))
            && Step(w, Take(0, 1, true)) ==
                 OneSend(None, Sending, false, map[1 := COPY], map[], map[0 := Attempted(None, false, true, Some(Taken(Some(1))))])
  {
  }

  lemma AnswerLost()
    ensures var w := OneSend(None, Sending, false, map[1 := COPY], map[], map[0 := Attempted(None, false, true, Some(Taken(Some(1))))]);
            && Enabled(w, LoseAnswer(0))
            && Step(w, LoseAnswer(0)) ==
                 OneSend(None, Failed, true, map[1 := COPY], map[], map[0 := Attempted(None, false, false, Some(Taken(Some(1))))])
  {
  }

  lemma Retried()
    ensures var w := OneSend(None, Failed, true, map[1 := COPY], map[], map[0 := Attempted(None, false, false, Some(Taken(Some(1))))]);
            && Enabled(w, Retry(1, 1))
            && Step(w, Retry(1, 1)) ==
                 OneSend(None, Sending, false, map[1 := COPY], map[],
                         map[0 := Attempted(None, false, false, Some(Taken(Some(1)))), 1 := Attempted(None, true, true, None)])
  {
  }

  // A send without a reference is taken, its answer is lost, and its retry is stored beside it.
  lemma {:induction false} StoredTwiceRun() returns (w0: World, es: seq<Event>)
    ensures Start(w0) && Possible(w0, es)
    ensures Enabled(Exec(w0, es), Take(1, 2, true))
    ensures var msgs := Step(Exec(w0, es), Take(1, 2, true)).server.msgs;
            1 in msgs && 2 in msgs && msgs[1].msg.origin == msgs[2].msg.origin == Some(1)
  {
    w0 := Empty();
    EmptyStarts();
    FirstSend(None); TakenWithCopy(); AnswerLost(); Retried();
    hide Step, Enabled, Start, Possible, Exec;
    var w1 := OneSend(None, Sending, false, map[], map[], map[0 := Attempted(None, false, true, None)]);
    es := Took(w0, [], w0, Send(1, 0, None, None, 7, false), w1);
    var w2 := OneSend(None, Sending, false, map[1 := COPY], map[], map[0 := Attempted(None, false, true, Some(Taken(Some(1))))]);
    es := Took(w0, es, w1, Take(0, 1, true), w2);
    var w3 := OneSend(None, Failed, true, map[1 := COPY], map[], map[0 := Attempted(None, false, false, Some(Taken(Some(1))))]);
    es := Took(w0, es, w2, LoseAnswer(0), w3);
    var w4 := OneSend(None, Sending, false, map[1 := COPY], map[],
                      map[0 := Attempted(None, false, false, Some(Taken(Some(1)))), 1 := Attempted(None, true, true, None)]);
    es := Took(w0, es, w3, Retry(1, 1), w4);
    TakeEnabled(w4, 1, 2);
    StoredAgainExactlyWithoutRef(w0, es, 1, 2, 1);
    assert 1 in Step(w4, Take(1, 2, true)).server.msgs && Step(w4, Take(1, 2, true)).server.msgs[1].msg.origin == Some(1) by {
      ServerGrows(w4, Take(1, 2, true));
    }
  }

  lemma TakeEnabled(w: World, a: nat, id: MsgId)
    requires a in w.net.attempts && w.net.attempts[a].verdict.None? && id !in w.server.msgs
    ensures Enabled(w, Take(a, id, true))
  {
  }

  // Extend a run by one step whose effect is known.
  lemma Took(w0: World, es: seq<Event>, w: World, e: Event, next: World) returns (longer: seq<Event>)
    requires Possible(w0, es) && Exec(w0, es) == w && Enabled(w, e) && Step(w, e) == next
    ensures longer == es + [e] && Possible(w0, longer) && Exec(w0, longer) == next
  {
    longer := es + [e];
    ExecSnoc(w0, es, e);
  }

  lemma {:induction false} ExecSnoc(w: World, es: seq<Event>, e: Event)
    requires Possible(w, es) && Enabled(Exec(w, es), e)
    ensures Possible(w, es + [e]) && Exec(w, es + [e]) == Step(Exec(w, es), e)
    decreases |es|
  {
    if es == [] {
      assert [e][1..] == [];
      assert Possible(Step(w, e), []) && Exec(Step(w, e), []) == Step(w, e);
    } else {
      assert (es + [e])[1..] == es[1..] + [e];
      ExecSnoc(Step(w, es[0]), es[1..], e);
    }
  }
}
