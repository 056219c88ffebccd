// What every step of the inbox keeps.
module InboxInvariants {
  import opened Common
  import opened InboxProtocol

  // ---- the postbox only grows -------------------------------------------------------------------

  // The same message later: only its read mark may have been set.
  ghost predicate Later(a: Msg, b: Msg) {
    a.(read := b.read) == b && (a.read ==> b.read)
  }

  ghost predicate Grows(s: Server, t: Server) {
    && s.deleted <= t.deleted
    && (forall id :: id in s.msgs ==> id in t.msgs && t.msgs[id].mailbox == s.msgs[id].mailbox && Later(s.msgs[id].msg, t.msgs[id].msg))
    && (forall k :: k in s.byRef ==> k in t.byRef && t.byRef[k] == s.byRef[k])
  }

  // ---- sends ------------------------------------------------------------------------------------

  // A stored message that came from a record is that record's, under its reference.
  ghost predicate Copy(s: Server, records: map<LocalId, Record>, o: LocalId, id: MsgId) {
    && o in records && id in s.msgs
    && s.msgs[id].mailbox == records[o].request.mailbox
    && s.msgs[id].msg.origin == Some(o) && s.msgs[id].msg.out && s.msgs[id].msg.ref == records[o].request.ref
  }

  ghost predicate Origins(w: World) {
    var s, records := w.server, w.page.records;
    && (forall id :: id in s.msgs ==> s.msgs[id].msg.id == id)
    && (forall id :: id in s.msgs && s.msgs[id].msg.origin.Some? ==>
          && Copy(s, records, s.msgs[id].msg.origin.value, id)
          && (s.msgs[id].msg.ref.Some? ==>
                (s.msgs[id].mailbox, s.msgs[id].msg.ref.value) in s.byRef
                && s.byRef[(s.msgs[id].mailbox, s.msgs[id].msg.ref.value)] == Some(id)))
    && (forall o, id :: o in records && id in s.msgs && records[o].request.ref.Some? && s.msgs[id].msg.ref == records[o].request.ref
          ==> s.msgs[id].msg.origin == Some(o))
  }

  ghost predicate References(w: World) {
    var s, records := w.server, w.page.records;
    && (forall o, q :: o in records && q in records && records[o].request.ref.Some? && records[o].request.ref == records[q].request.ref ==> o == q)
    && (forall k :: k in s.byRef && s.byRef[k].Some? ==> s.byRef[k].value in s.msgs && s.msgs[s.byRef[k].value].msg.ref == Some(k.1))
  }

  // The postbox remembers a reference as one it kept no copy under.
  ghost predicate KeptNone(s: Server, q: Request) {
    q.ref.Some? ==> (q.mailbox, q.ref.value) in s.byRef && s.byRef[(q.mailbox, q.ref.value)] == None
  }

  // Attempts carry the request their record was born with, and a verdict names that record's copy.
  ghost predicate Attempts(w: World) {
    forall a :: a in w.net.attempts ==>
      var t := w.net.attempts[a];
      && t.record in w.page.records && t.request == w.page.records[t.record].request
      && (t.verdict.Some? && t.verdict.value.Taken? && t.verdict.value.copy.Some? ==>
            Copy(w.server, w.page.records, t.record, t.verdict.value.copy.value))
      && (t.verdict == Some(Taken(None)) ==> KeptNone(w.server, t.request))
  }

  // A record is being sent exactly while one attempt of it is waited for.
  ghost predicate InFlight(w: World) {
    && (forall a, b :: (a in w.net.attempts && b in w.net.attempts && w.net.attempts[a].waiting && w.net.attempts[b].waiting
                        && w.net.attempts[a].record == w.net.attempts[b].record) ==> a == b)
    && (forall a :: a in w.net.attempts && w.net.attempts[a].waiting && w.net.attempts[a].record in w.page.records ==>
          w.page.records[w.net.attempts[a].record].status.Sending?)
    && (forall o :: o in w.page.records && w.page.records[o].status.Sending? ==>
          exists a :: a in w.net.attempts && w.net.attempts[a].waiting && w.net.attempts[a].record == o)
  }

  ghost predicate Copies(w: World) {
    && (forall o :: o in w.page.records && w.page.records[o].sentCopy.Some? ==> Copy(w.server, w.page.records, o, w.page.records[o].sentCopy.value))
    && (forall i :: 0 <= i < |w.page.rows| ==> w.page.rows[i] in w.page.records)
  }

  ghost predicate Sends(w: World) {
    Origins(w) && References(w) && Attempts(w) && InFlight(w) && Copies(w)
  }

  // ---- listings ---------------------------------------------------------------------------------

  // A message of the mailbox as it was at some point.
  ghost predicate Once(s: Server, mailbox: Mailbox, m: Msg) {
    m.id in s.msgs && s.msgs[m.id].mailbox == mailbox && Later(m, s.msgs[m.id].msg)
  }

  // The same, whatever its read mark.
  ghost predicate OnceIn(s: Server, mailbox: Mailbox, m: Msg) {
    m.id in s.msgs && s.msgs[m.id].mailbox == mailbox && m.(read := true) == s.msgs[m.id].msg.(read := true)
  }

  ghost predicate AllOnce(s: Server, mailbox: Mailbox, l: seq<Msg>) {
    Distinct(l) && forall i :: 0 <= i < |l| ==> Once(s, mailbox, l[i])
  }

  ghost predicate Tickets(w: World) {
    && w.page.accepted <= w.page.lastRequest
    && (forall t :: t in w.net.listings ==>
          && t.opening <= w.page.opening
          && (t.opening == w.page.opening ==> t.number <= w.page.lastRequest && Some(w.net.listings[t].mailbox) == w.page.mailbox))
  }

  ghost predicate Snapshots(w: World) {
    forall t :: t in w.net.listings && w.net.listings[t].snapshot.Some? ==>
      AllOnce(w.server, w.net.listings[t].mailbox, w.net.listings[t].snapshot.value)
  }

  ghost predicate Inbound(w: World) {
    && (w.page.mailbox.None? ==> w.page.inbound == [])
    && (w.page.mailbox.Some? ==> forall i :: 0 <= i < |w.page.inbound| ==> OnceIn(w.server, w.page.mailbox.value, w.page.inbound[i]))
  }

  // Adopted listings were requested in the opening that adopted them, in ascending order.
  ghost predicate Before(a: Ticket, b: Ticket) {
    a.opening < b.opening || (a.opening == b.opening && a.number < b.number)
  }

  ghost predicate Adoptions(w: World) {
    var d := w.past.adopted;
    && (forall i :: 0 <= i < |d| ==> d[i].0 == d[i].1.opening <= w.page.opening && d[i].1 !in w.net.listings)
    && (forall i :: 0 <= i < |d| && d[i].0 == w.page.opening ==> d[i].1.number <= w.page.accepted)
    && (forall i, j :: 0 <= i < j < |d| ==> Before(d[i].1, d[j].1))
  }

  ghost predicate Listings(w: World) {
    Tickets(w) && Snapshots(w) && Inbound(w) && Adoptions(w)
  }

  // ---- deletions --------------------------------------------------------------------------------

  ghost predicate Lacks(l: seq<Msg>, ids: set<MsgId>) {
    forall i :: 0 <= i < |l| ==> l[i].id !in ids
  }

  ghost predicate Served(w: World) {
    forall d :: d in w.net.deletions && w.net.deletions[d].served.Some? ==>
      && w.net.deletions[d].served.value <= w.server.deleted
      && forall id :: id in w.net.deletions[d].served.value ==> id in w.server.msgs && Hits(w.net.deletions[d].target, w.server.msgs[id].msg)
  }

  // A confirmed deletion is gone from the postbox, from the list, and from every listing that can
  // still be adopted.
  ghost predicate Gone(w: World) {
    && w.past.gone <= w.server.deleted
    && Lacks(w.page.inbound, w.past.gone)
    && (forall t :: t in w.net.listings && w.net.listings[t].snapshot.Some? && Adoptable(w.page, t) ==>
          Lacks(w.net.listings[t].snapshot.value, w.past.gone))
  }

  // ---- read marks -------------------------------------------------------------------------------

  ghost predicate ShownRead(l: seq<Msg>, id: MsgId) {
    forall i :: 0 <= i < |l| && l[i].id == id ==> l[i].read
  }

  // Every listing that can still be adopted agrees, and so does the postbox.
  ghost predicate AgreedRead(w: World, id: MsgId) {
    && (id in w.server.msgs ==> w.server.msgs[id].msg.read)
    && (forall t :: t in w.net.listings && w.net.listings[t].snapshot.Some? && Adoptable(w.page, t) ==>
          ShownRead(w.net.listings[t].snapshot.value, id))
  }

  ghost predicate Marks(w: World) {
    forall id :: id in w.past.marked ==> ShownRead(w.page.inbound, id) && (id in w.page.acked || AgreedRead(w, id))
  }

  // Of two listings under way, the later one was taken later.
  ghost predicate NotBefore(a: seq<Msg>, b: seq<Msg>) {
    forall i, j :: 0 <= i < |a| && 0 <= j < |b| && a[i].id == b[j].id && a[i].read ==> b[j].read
  }

  ghost predicate Ordered(w: World) {
    forall t, u :: t in w.net.listings && u in w.net.listings && t.opening == u.opening == w.page.opening && t.number < u.number
                   && w.net.listings[t].snapshot.Some? && w.net.listings[u].snapshot.Some? ==>
      NotBefore(w.net.listings[t].snapshot.value, w.net.listings[u].snapshot.value)
  }

  // The postbox takes its snapshots in the order of the requests.
  ghost predicate InOrder(w: World, e: Event) {
    e.Snapshot? ==> forall t :: t in w.net.listings && t.opening == e.ticket.opening && t.number > e.ticket.number
                                ==> w.net.listings[t].snapshot.None?
  }

  // ---- what each step leaves alone ----------------------------------------------------------------

  lemma Frame(w: World, e: Event)
    requires Enabled(w, e)
    ensures var w' := Step(w, e);
      && (!(e.Arrive? || e.SentElsewhere? || e.ReadElsewhere? || e.DeletedElsewhere? || e.Take? || e.ServeAck? || e.ServeDelete?) ==>
            w'.server == w.server)
      && (!(e.Send? || e.Answer? || e.LoseAnswer? || e.Retry?) ==> w'.page.records == w.page.records)
      && (!(e.Send? || e.Answer? || e.LoseAnswer? || e.Discard? || e.Receive? || e.ConfirmDelete? || e.SignOut?) ==> w'.page.rows == w.page.rows)
      && (!(e.Receive? || e.MarkVisible? || e.AckFailed? || e.ConfirmDelete? || e.Switch? || e.SignOut?) ==> w'.page.inbound == w.page.inbound)
      && (!(e.Send? || e.Take? || e.Refuse? || e.Answer? || e.LoseAnswer? || e.Retry?) ==> w'.net.attempts == w.net.attempts)
      && (!(e.Receive? || e.ConfirmDelete? || e.RequestListing? || e.Switch? || e.SignOut?) ==>
            w'.page.accepted == w.page.accepted && w'.page.lastRequest == w.page.lastRequest)
      && (!(e.Switch? || e.SignOut?) ==> w'.page.mailbox == w.page.mailbox && w'.page.opening == w.page.opening)
  {
  }

  lemma FrameLists(w: World, e: Event)
    requires Enabled(w, e)
    ensures var w' := Step(w, e);
      && (!(e.RequestListing? || e.Snapshot? || e.Receive? || e.LoseListing?) ==> w'.net.listings == w.net.listings)
      && (!(e.AskDelete? || e.ServeDelete? || e.ConfirmDelete? || e.FailDelete?) ==> w'.net.deletions == w.net.deletions)
      && (!(e.MarkVisible? || e.AckFailed? || e.Receive? || e.Switch? || e.SignOut?) ==> w'.page.acked == w.page.acked)
      && (!(e.MarkVisible? || e.AckFailed? || e.Switch? || e.SignOut?) ==> w'.past.marked == w.past.marked)
      && (!e.ConfirmDelete? ==> w'.past.gone == w.past.gone)
      && (!e.Receive? ==> w'.past.adopted == w.past.adopted)
  {
  }

  // ---- every step keeps them --------------------------------------------------------------------

  lemma TakenGrows(s: Server, a: Attempt, id: MsgId, keeps: bool)
    requires id !in s.msgs
    ensures Grows(s, TakenBy(s, a, id, keeps).0)
  {
  }

  lemma ServerGrows(w: World, e: Event)
    requires Enabled(w, e)
    ensures Grows(w.server, Step(w, e).server)
  {
    Frame(w, e);
    if e.Take? {
      TakenGrows(w.server, w.net.attempts[e.attempt], e.id, e.keepsCopy);
    }
  }

  // Records are never forgotten and keep their request.
  lemma RequestsStay(w: World, e: Event)
    requires Enabled(w, e)
    ensures forall o :: o in w.page.records ==> o in Step(w, e).page.records && Step(w, e).page.records[o].request == w.page.records[o].request
  {
  }

  lemma CopyStays(w: World, e: Event, o: LocalId, id: MsgId)
    requires Enabled(w, e) && Copy(w.server, w.page.records, o, id)
    ensures Copy(Step(w, e).server, Step(w, e).page.records, o, id)
  {
    ServerGrows(w, e);
    RequestsStay(w, e);
  }

  lemma TakenServer(w: World, e: Event)
    requires e.Take? && Enabled(w, e)
    ensures Step(w, e).server == TakenBy(w.server, w.net.attempts[e.attempt], e.id, e.keepsCopy).0 && Step(w, e).page == w.page
  {
  }

  lemma TakeKeepsOrigins(w: World, e: Event)
    requires e.Take? && Enabled(w, e) && Origins(w) && References(w) && Attempts(w)
    ensures Origins(Step(w, e)) && References(Step(w, e))
  {
    TakenServer(w, e);
    assert e.id !in w.server.msgs;
    hide Step, Enabled;
    TakenOrigins(w, Step(w, e), w.net.attempts[e.attempt], e.id, e.keepsCopy);
    TakenReferences(w, Step(w, e), w.net.attempts[e.attempt], e.id, e.keepsCopy);
  }

  lemma TakenOrigins(w: World, x: World, a: Attempt, id: MsgId, keeps: bool)
    requires Origins(w) && References(w) && a.record in w.page.records && a.request == w.page.records[a.record].request && id !in w.server.msgs
    requires x.page == w.page && x.server == TakenBy(w.server, a, id, keeps).0
    ensures Origins(x)
  {
  }

  lemma TakenReferences(w: World, x: World, a: Attempt, id: MsgId, keeps: bool)
    requires Origins(w) && References(w) && id !in w.server.msgs
    requires x.page == w.page && x.server == TakenBy(w.server, a, id, keeps).0
    ensures References(x)
  {
  }

  lemma PutKeepsOrigins(w: World, e: Event)
    requires (e.Arrive? || e.SentElsewhere?) && Enabled(w, e) && Origins(w) && References(w)
    ensures Origins(Step(w, e)) && References(Step(w, e))
  {
  }

  lemma ReadKeepsOrigins(w: World, e: Event)
    requires (e.ReadElsewhere? || e.ServeAck?) && Enabled(w, e) && Origins(w) && References(w)
    ensures Origins(Step(w, e)) && References(Step(w, e))
  {
  }

  lemma RecordKeepsOrigins(w: World, e: Event)
    requires (e.Send? || e.Answer? || e.LoseAnswer? || e.Retry?) && Enabled(w, e) && Origins(w) && References(w)
    ensures Origins(Step(w, e)) && References(Step(w, e))
  {
  }

  lemma OriginsKept(w: World, e: Event)
    requires Enabled(w, e) && Origins(w) && References(w) && Attempts(w)
    ensures Origins(Step(w, e)) && References(Step(w, e))
  {
    Frame(w, e);
    if e.Take? {
      TakeKeepsOrigins(w, e);
    } else if e.Arrive? || e.SentElsewhere? {
      PutKeepsOrigins(w, e);
    } else if e.ReadElsewhere? || e.ServeAck? {
      ReadKeepsOrigins(w, e);
    } else if e.Send? || e.Answer? || e.LoseAnswer? || e.Retry? {
      RecordKeepsOrigins(w, e);
    } else if e.DeletedElsewhere? || e.ServeDelete? {
      assert Step(w, e).server.msgs == w.server.msgs && Step(w, e).server.byRef == w.server.byRef;
    }
  }

  ghost predicate AttemptOk(w: World, a: nat)
    requires a in w.net.attempts
  {
    var t := w.net.attempts[a];
    && t.record in w.page.records && t.request == w.page.records[t.record].request
    && (t.verdict.Some? && t.verdict.value.Taken? && t.verdict.value.copy.Some? ==>
          Copy(w.server, w.page.records, t.record, t.verdict.value.copy.value))
    && (t.verdict == Some(Taken(None)) ==> KeptNone(w.server, t.request))
  }

  // A request taken again under its reference is answered with the record's own copy.
  lemma TakenNamesCopy(w: World, e: Event)
    requires e.Take? && Enabled(w, e) && Origins(w) && References(w) && Attempts(w)
    ensures AttemptOk(Step(w, e), e.attempt)
  {
    RequestsStay(w, e);
    var t := w.net.attempts[e.attempt];
    if t.request.ref.Some? && (t.request.mailbox, t.request.ref.value) in w.server.byRef {
      var c := w.server.byRef[(t.request.mailbox, t.request.ref.value)];
      if c.Some? {
        assert w.server.msgs[c.value].msg.ref == w.page.records[t.record].request.ref;
        assert Copy(w.server, w.page.records, t.record, c.value);
      }
    }
  }

  lemma AttemptSame(w: World, e: Event, a: nat)
    requires Enabled(w, e) && a in w.net.attempts && !(e.Take? && e.attempt == a)
    ensures a in Step(w, e).net.attempts
    ensures var t, t' := w.net.attempts[a], Step(w, e).net.attempts[a];
            t'.record == t.record && t'.request == t.request && (t'.verdict == t.verdict || t'.verdict == Some(Refused))
  {
    Frame(w, e);
  }

  lemma AttemptStays(w: World, e: Event, a: nat)
    requires Enabled(w, e) && Attempts(w) && a in w.net.attempts && !(e.Take? && e.attempt == a)
    ensures a in Step(w, e).net.attempts && AttemptOk(Step(w, e), a)
  {
    RequestsStay(w, e);
    AttemptSame(w, e, a);
    ServerGrows(w, e);
    hide Step, Enabled;
    var t := w.net.attempts[a];
    if t.verdict.Some? && t.verdict.value.Taken? && t.verdict.value.copy.Some? {
      CopyStays(w, e, t.record, t.verdict.value.copy.value);
    }
  }

  lemma AttemptsKept(w: World, e: Event)
    requires Enabled(w, e) && Origins(w) && References(w) && Attempts(w)
    ensures Attempts(Step(w, e))
  {
    Frame(w, e);
    forall a | a in Step(w, e).net.attempts ensures AttemptOk(Step(w, e), a) {
      if e.Take? && e.attempt == a {
        TakenNamesCopy(w, e);
      } else if a in w.net.attempts {
        AttemptStays(w, e, a);
      }
    }
  }

  lemma StartInFlight(w: World, e: Event)
    requires (e.Send? || e.Retry?) && Enabled(w, e) && Attempts(w) && InFlight(w)
    ensures InFlight(Step(w, e))
  {
    var w' := Step(w, e);
    forall o | o in w'.page.records && w'.page.records[o].status.Sending?
      ensures exists a :: a in w'.net.attempts && w'.net.attempts[a].waiting && w'.net.attempts[a].record == o
    {
      if o == e.local {
        assert e.attempt in w'.net.attempts;
      } else {
        var a :| a in w.net.attempts && w.net.attempts[a].waiting && w.net.attempts[a].record == o;
        assert a in w'.net.attempts && w'.net.attempts[a] == w.net.attempts[a];
      }
    }
  }

  lemma SettleInFlight(w: World, e: Event)
    requires (e.Answer? || e.LoseAnswer?) && Enabled(w, e) && Attempts(w) && InFlight(w)
    ensures InFlight(Step(w, e))
  {
    var w' := Step(w, e);
    forall o | o in w'.page.records && w'.page.records[o].status.Sending?
      ensures exists a :: a in w'.net.attempts && w'.net.attempts[a].waiting && w'.net.attempts[a].record == o
    {
      var a :| a in w.net.attempts && w.net.attempts[a].waiting && w.net.attempts[a].record == o;
      assert a in w'.net.attempts && w'.net.attempts[a].waiting && w'.net.attempts[a].record == o;
    }
  }

  lemma JudgeInFlight(w: World, e: Event)
    requires (e.Take? || e.Refuse?) && Enabled(w, e) && InFlight(w)
    ensures InFlight(Step(w, e))
  {
    var w' := Step(w, e);
    forall o | o in w'.page.records && w'.page.records[o].status.Sending?
      ensures exists a :: a in w'.net.attempts && w'.net.attempts[a].waiting && w'.net.attempts[a].record == o
    {
      var a :| a in w.net.attempts && w.net.attempts[a].waiting && w.net.attempts[a].record == o;
      assert a in w'.net.attempts && w'.net.attempts[a].waiting && w'.net.attempts[a].record == o;
    }
  }

  lemma InFlightKept(w: World, e: Event)
    requires Enabled(w, e) && Attempts(w) && InFlight(w)
    ensures InFlight(Step(w, e))
  {
    if e.Send? || e.Retry? {
      StartInFlight(w, e);
    } else if e.Answer? || e.LoseAnswer? {
      SettleInFlight(w, e);
    } else if e.Take? || e.Refuse? {
      JudgeInFlight(w, e);
    } else {
      Frame(w, e);
      hide Step, Enabled;
    }
  }

  lemma {:induction false} MinusIsPart(rows: seq<LocalId>, o: LocalId)
    ensures forall x :: x in Minus(rows, o) <==> x in rows && x != o
  {
    if rows != [] {
      MinusIsPart(rows[..|rows| - 1], o);
      assert rows == rows[..|rows| - 1] + [rows[|rows| - 1]];
    }
  }

  // `reconcile` drops exactly the rows that are answered.
  lemma {:induction false} ReconciledIsPart(rows: seq<LocalId>, records: map<LocalId, Record>, ids: set<MsgId>, refs: set<(Mailbox, Ref)>)
    ensures forall x :: x in Reconciled(rows, records, ids, refs) <==> x in rows && !(x in records && Answered(records[x], ids, refs))
  {
    if rows != [] {
      ReconciledIsPart(rows[..|rows| - 1], records, ids, refs);
      assert rows == rows[..|rows| - 1] + [rows[|rows| - 1]];
    }
  }

  lemma {:induction false} OutsideIsPart(rows: seq<LocalId>, records: map<LocalId, Record>, mailbox: Mailbox, thread: Thread)
    ensures forall x :: x in RowsOutside(rows, records, mailbox, thread) <==> x in rows && !(x in records && InThread(records[x], mailbox, thread))
  {
    if rows != [] {
      OutsideIsPart(rows[..|rows| - 1], records, mailbox, thread);
      assert rows == rows[..|rows| - 1] + [rows[|rows| - 1]];
    }
  }

  lemma RowsAreRecords(w: World, e: Event)
    requires Enabled(w, e) && Copies(w) && Attempts(w)
    ensures forall i :: 0 <= i < |Step(w, e).page.rows| ==> Step(w, e).page.rows[i] in Step(w, e).page.records
  {
    Frame(w, e);
    RequestsStay(w, e);
    var w' := Step(w, e);
    forall x | x in w'.page.rows ensures x in w'.page.records {
      match e
      case Discard(o) => MinusIsPart(w.page.rows, o);
      case Answer(a) => MinusIsPart(w.page.rows, w.net.attempts[a].record);
      case Receive(t) =>
        if Adoptable(w.page, t) {
          var l := w.net.listings[t].snapshot.value;
          ReconciledIsPart(w.page.rows, w.page.records, Ids(l), RefsIn(w.page.mailbox, l));
        }
      case ConfirmDelete(d) =>
        if w.net.deletions[d].target.WholeThread? {
          OutsideIsPart(w.page.rows, w.page.records, w.net.deletions[d].mailbox, w.net.deletions[d].target.thread);
        }
      case _ =>
    }
  }

  lemma CopiesKept(w: World, e: Event)
    requires Enabled(w, e) && Attempts(w) && Copies(w)
    ensures Copies(Step(w, e))
  {
    RowsAreRecords(w, e);
    Frame(w, e);
    var w' := Step(w, e);
    forall o | o in w'.page.records && w'.page.records[o].sentCopy.Some?
      ensures Copy(w'.server, w'.page.records, o, w'.page.records[o].sentCopy.value)
    {
      if o in w.page.records && w'.page.records[o].sentCopy == w.page.records[o].sentCopy {
        CopyStays(w, e, o, w.page.records[o].sentCopy.value);
      } else {
        AttemptStays(w, e, e.attempt);
      }
    }
  }

  lemma SendsKept(w: World, e: Event)
    requires Enabled(w, e) && Sends(w)
    ensures Sends(Step(w, e))
  {
    OriginsKept(w, e);
    AttemptsKept(w, e);
    InFlightKept(w, e);
    CopiesKept(w, e);
  }

  // ---- listings ---------------------------------------------------------------------------------

  ghost predicate IsRead(l: seq<Msg>, id: MsgId) {
    exists i :: 0 <= i < |l| && l[i].id == id && l[i].read
  }

  // Adopting shows a message read when the server says so or the page acknowledged it, and keeps the
  // acknowledgements the listing does not confirm yet.
  lemma {:induction false} ShowAllMeaning(l: seq<Msg>, acked: set<MsgId>)
    requires Distinct(l)
    ensures |ShowAll(l, acked).0| == |l|
    ensures forall i :: 0 <= i < |l| ==> ShowAll(l, acked).0[i] == l[i].(read := l[i].read || l[i].id in acked)
    ensures forall id :: id in ShowAll(l, acked).1 <==> id in acked && !IsRead(l, id)
  {
    if l != [] {
      var init, m := l[..|l| - 1], l[|l| - 1];
      ShowAllMeaning(init, acked);
      assert forall i :: 0 <= i < |init| ==> init[i].id != m.id;
      forall id ensures IsRead(l, id) <==> IsRead(init, id) || (id == m.id && m.read) {
        if IsRead(init, id) {
          var i :| 0 <= i < |init| && init[i].id == id && init[i].read;
          assert l[i].id == id;
        }
      }
      assert !IsRead(init, m.id);
    }
  }

  lemma {:induction false} WithoutMeaning(l: seq<Msg>, t: Target)
    ensures forall m :: m in Without(l, t) <==> m in l && !Hits(t, m)
  {
    if l != [] {
      WithoutMeaning(l[..|l| - 1], t);
      assert l == l[..|l| - 1] + [l[|l| - 1]];
    }
  }

  lemma TicketsKept(w: World, e: Event)
    requires Enabled(w, e) && Tickets(w)
    ensures Tickets(Step(w, e))
  {
    Frame(w, e);
    FrameLists(w, e);
  }

  lemma OnceStays(s: Server, t: Server, mailbox: Mailbox, m: Msg)
    requires Grows(s, t)
    ensures Once(s, mailbox, m) ==> Once(t, mailbox, m)
    ensures OnceIn(s, mailbox, m) ==> OnceIn(t, mailbox, m)
    ensures Once(s, mailbox, m) ==> OnceIn(s, mailbox, m)
  {
  }

  lemma AllOnceStays(s: Server, t: Server, mailbox: Mailbox, l: seq<Msg>)
    requires Grows(s, t) && AllOnce(s, mailbox, l)
    ensures AllOnce(t, mailbox, l)
  {
    forall i | 0 <= i < |l| ensures Once(t, mailbox, l[i]) {
      OnceStays(s, t, mailbox, l[i]);
    }
  }

  lemma SnapshotsKept(w: World, e: Event)
    requires Enabled(w, e) && Snapshots(w)
    ensures Snapshots(Step(w, e))
  {
    ServerGrows(w, e);
    FrameLists(w, e);
    var w' := Step(w, e);
    forall t | t in w'.net.listings && w'.net.listings[t].snapshot.Some?
      ensures AllOnce(w'.server, w'.net.listings[t].mailbox, w'.net.listings[t].snapshot.value)
    {
      if e.Snapshot? && e.ticket == t {
        assert forall i :: 0 <= i < |e.listing| ==> Live(w.server, w.net.listings[t].mailbox, e.listing[i].id);
      } else if t in w.net.listings && w.net.listings[t].snapshot.Some? {
        AllOnceStays(w.server, w'.server, w.net.listings[t].mailbox, w.net.listings[t].snapshot.value);
      }
    }
  }

  lemma ReceiveKeepsInbound(w: World, e: Event)
    requires e.Receive? && Enabled(w, e) && Tickets(w) && Snapshots(w) && Inbound(w)
    ensures Inbound(Step(w, e))
  {
    var l := w.net.listings[e.ticket].snapshot.value;
    ShowAllMeaning(l, w.page.acked);
    if Adoptable(w.page, e.ticket) {
      forall i | 0 <= i < |l| ensures OnceIn(w.server, w.page.mailbox.value, ShowAll(l, w.page.acked).0[i]) {
        OnceStays(w.server, w.server, w.page.mailbox.value, l[i]);
      }
    }
  }

  lemma InboundKept(w: World, e: Event)
    requires Enabled(w, e) && Tickets(w) && Snapshots(w) && Inbound(w)
    ensures Inbound(Step(w, e))
  {
    Frame(w, e);
    ServerGrows(w, e);
    if e.Receive? {
      ReceiveKeepsInbound(w, e);
    } else if e.ConfirmDelete? {
      var t := w.net.deletions[e.deletion].target;
      WithoutMeaning(w.page.inbound, t);
      forall i | 0 <= i < |Without(w.page.inbound, t)| ensures Without(w.page.inbound, t)[i] in w.page.inbound {
        assert Without(w.page.inbound, t)[i] in Without(w.page.inbound, t);
      }
    } else if w.page.mailbox.Some? {
      forall i | 0 <= i < |w.page.inbound| ensures OnceIn(Step(w, e).server, w.page.mailbox.value, w.page.inbound[i]) {
        OnceStays(w.server, Step(w, e).server, w.page.mailbox.value, w.page.inbound[i]);
      }
    }
  }

  lemma AdoptionsKept(w: World, e: Event)
    requires Enabled(w, e) && Tickets(w) && Adoptions(w)
    ensures Adoptions(Step(w, e))
  {
    Frame(w, e);
    FrameLists(w, e);
    if e.Receive? && Adoptable(w.page, e.ticket) {
      ReceiveKeepsAdoptions(w, e);
    }
  }

  lemma ReceiveKeepsAdoptions(w: World, e: Event)
    requires e.Receive? && Enabled(w, e) && Tickets(w) && Adoptions(w) && Adoptable(w.page, e.ticket)
    ensures Adoptions(Step(w, e))
  {
    var d, t := w.past.adopted, e.ticket;
    var d' := d + [(w.page.opening, t)];
    forall i | 0 <= i < |d| ensures Before(d[i].1, t) {
      assert d[i].1 != t;
    }
    assert Step(w, e).past.adopted == d' && Step(w, e).page.accepted == t.number && Step(w, e).page.opening == w.page.opening;
    assert Step(w, e).net.listings == w.net.listings - {t};
  }

  lemma ListingsKept(w: World, e: Event)
    requires Enabled(w, e) && Listings(w)
    ensures Listings(Step(w, e))
  {
    TicketsKept(w, e);
    SnapshotsKept(w, e);
    InboundKept(w, e);
    AdoptionsKept(w, e);
  }

  // ---- deletions --------------------------------------------------------------------------------

  lemma ServedKept(w: World, e: Event)
    requires Enabled(w, e) && Served(w)
    ensures Served(Step(w, e))
  {
    FrameLists(w, e);
    ServerGrows(w, e);
  }

  lemma ConfirmKeepsGone(w: World, e: Event)
    requires e.ConfirmDelete? && Enabled(w, e) && Tickets(w) && Inbound(w) && Served(w) && Gone(w)
    ensures Gone(Step(w, e))
  {
    var del := w.net.deletions[e.deletion];
    var l := Without(w.page.inbound, del.target);
    WithoutMeaning(w.page.inbound, del.target);
    forall i | 0 <= i < |l| ensures l[i].id !in w.past.gone + (if del.opening == w.page.opening then del.served.value else {}) {
      assert l[i] in l && l[i] in w.page.inbound;
      var j :| 0 <= j < |w.page.inbound| && w.page.inbound[j] == l[i];
      assert OnceIn(w.server, w.page.mailbox.value, w.page.inbound[j]);
    }
  }

  lemma ReceiveKeepsGone(w: World, e: Event)
    requires e.Receive? && Enabled(w, e) && Tickets(w) && Snapshots(w) && Gone(w)
    ensures Gone(Step(w, e))
  {
    ShowAllMeaning(w.net.listings[e.ticket].snapshot.value, w.page.acked);
  }

  lemma GoneKept(w: World, e: Event)
    requires Enabled(w, e) && Listings(w) && Served(w) && Gone(w)
    ensures Gone(Step(w, e))
  {
    ServerGrows(w, e);
    Frame(w, e);
    FrameLists(w, e);
    if e.ConfirmDelete? {
      ConfirmKeepsGone(w, e);
    } else if e.Receive? {
      ReceiveKeepsGone(w, e);
    }
  }

  // ---- read marks -------------------------------------------------------------------------------

  lemma SnapshotKeepsOrder(w: World, e: Event)
    requires e.Snapshot? && Enabled(w, e) && InOrder(w, e) && Snapshots(w) && Ordered(w)
    ensures Ordered(Step(w, e))
  {
    var w' := Step(w, e);
    forall t | t in w.net.listings && t.opening == e.ticket.opening && t.number < e.ticket.number && w.net.listings[t].snapshot.Some?
               && t.opening == w.page.opening && w.net.listings[t].snapshot.value != []
      ensures NotBefore(w.net.listings[t].snapshot.value, e.listing)
    {
      var l := w.net.listings[t].snapshot.value;
      forall i, j | 0 <= i < |l| && 0 <= j < |e.listing| && l[i].id == e.listing[j].id && l[i].read ensures e.listing[j].read {
        assert Once(w.server, w.net.listings[t].mailbox, l[i]);
        assert Live(w.server, w.net.listings[e.ticket].mailbox, e.listing[j].id);
      }
    }
  }

  lemma OrderedKept(w: World, e: Event)
    requires Enabled(w, e) && InOrder(w, e) && Tickets(w) && Snapshots(w) && Ordered(w)
    ensures Ordered(Step(w, e))
  {
    Frame(w, e);
    FrameLists(w, e);
    if e.Snapshot? {
      SnapshotKeepsOrder(w, e);
    }
  }

  // Only a snapshot makes a listing adoptable.
  lemma NoNewListing(w: World, e: Event, t: Ticket)
    requires Enabled(w, e) && Tickets(w) && !e.Snapshot?
    requires t in Step(w, e).net.listings && Step(w, e).net.listings[t].snapshot.Some? && Adoptable(Step(w, e).page, t)
    ensures t in w.net.listings && w.net.listings[t] == Step(w, e).net.listings[t] && Adoptable(w.page, t)
  {
    Frame(w, e);
    FrameLists(w, e);
  }

  lemma AgreedStays(w: World, e: Event, id: MsgId)
    requires Enabled(w, e) && Tickets(w) && AgreedRead(w, id) && id in w.server.msgs
    ensures AgreedRead(Step(w, e), id)
  {
    ServerGrows(w, e);
    var w' := Step(w, e);
    forall t | t in w'.net.listings && w'.net.listings[t].snapshot.Some? && Adoptable(w'.page, t)
      ensures ShownRead(w'.net.listings[t].snapshot.value, id)
    {
      if e.Snapshot? {
        assert forall j :: 0 <= j < |e.listing| ==> Live(w.server, w.net.listings[e.ticket].mailbox, e.listing[j].id);
      } else {
        hide Step, Enabled;
        NoNewListing(w, e, t);
      }
    }
  }

  // Once a listing shows the message read, the postbox does, and so does every later listing.
  lemma ReceiveAgrees(w: World, e: Event, id: MsgId)
    requires e.Receive? && Enabled(w, e) && Adoptable(w.page, e.ticket) && Listings(w) && Ordered(w)
    requires IsRead(w.net.listings[e.ticket].snapshot.value, id)
    ensures AgreedRead(Step(w, e), id)
  {
    var l := w.net.listings[e.ticket].snapshot.value;
    var i :| 0 <= i < |l| && l[i].id == id && l[i].read;
    assert Once(w.server, w.net.listings[e.ticket].mailbox, l[i]);
    var w' := Step(w, e);
    assert w'.server == w.server && w'.page.opening == w.page.opening && w'.page.accepted == e.ticket.number;
    forall t | t in w'.net.listings && w'.net.listings[t].snapshot.Some? && Adoptable(w'.page, t)
      ensures ShownRead(w'.net.listings[t].snapshot.value, id)
    {
      assert t != e.ticket && t.number > e.ticket.number;
      assert NotBefore(l, w.net.listings[t].snapshot.value);
    }
  }

  lemma MarkKept(w: World, e: Event, id: MsgId)
    requires Enabled(w, e) && Listings(w) && Ordered(w) && Marks(w) && Step(w, e).page.opening == w.page.opening
    requires id in w.past.marked && id in Step(w, e).past.marked && id in w.server.msgs
    ensures ShownRead(Step(w, e).page.inbound, id) && (id in Step(w, e).page.acked || AgreedRead(Step(w, e), id))
  {
    Frame(w, e);
    FrameLists(w, e);
    if e.Receive? && Adoptable(w.page, e.ticket) {
      var l := w.net.listings[e.ticket].snapshot.value;
      ShowAllMeaning(l, w.page.acked);
      if id in w.page.acked && IsRead(l, id) {
        ReceiveAgrees(w, e, id);
      }
    }
    if e.ConfirmDelete? {
      var t := w.net.deletions[e.deletion].target;
      WithoutMeaning(w.page.inbound, t);
      forall i | 0 <= i < |Without(w.page.inbound, t)| ensures Without(w.page.inbound, t)[i] in w.page.inbound {
        assert Without(w.page.inbound, t)[i] in Without(w.page.inbound, t);
      }
    }
    if id !in w.page.acked {
      AgreedStays(w, e, id);
    }
  }

  // A message that is marked now was on the screen.
  lemma NewMark(w: World, e: Event, id: MsgId)
    requires Enabled(w, e) && Inbound(w) && id in Step(w, e).past.marked && id !in w.past.marked
    ensures e.MarkVisible? && id in w.server.msgs && id in Step(w, e).page.acked && ShownRead(Step(w, e).page.inbound, id)
  {
    FrameLists(w, e);
    assert e.MarkVisible?;
    var i :| 0 <= i < |w.page.inbound| && w.page.inbound[i].id == id && !w.page.inbound[i].out && !w.page.inbound[i].read;
    assert OnceIn(w.server, w.page.mailbox.value, w.page.inbound[i]);
  }

  // Marks do not outlive an opening.
  lemma MarkedSameOpening(w: World, e: Event)
    requires Enabled(w, e) && Step(w, e).past.marked != {}
    ensures Step(w, e).page.opening == w.page.opening
  {
  }

  lemma MarkAt(w: World, e: Event, id: MsgId)
    requires Enabled(w, e) && Listings(w) && Ordered(w) && Marks(w) && w.past.marked <= w.server.msgs.Keys && id in Step(w, e).past.marked
    ensures id in Step(w, e).server.msgs
    ensures ShownRead(Step(w, e).page.inbound, id) && (id in Step(w, e).page.acked || AgreedRead(Step(w, e), id))
  {
    ServerGrows(w, e);
    MarkedSameOpening(w, e);
    hide Step, Enabled, Tickets, Snapshots, Adoptions, Ordered, Marks, ShownRead, AgreedRead;
    if id in w.past.marked {
      MarkKept(w, e, id);
    } else {
      NewMark(w, e, id);
    }
  }

  lemma MarksKept(w: World, e: Event)
    requires Enabled(w, e) && Listings(w) && Ordered(w) && Marks(w) && w.past.marked <= w.server.msgs.Keys
    ensures Marks(Step(w, e)) && Step(w, e).past.marked <= Step(w, e).server.msgs.Keys
  {
    hide Step, Enabled, Listings, Ordered, ShownRead, AgreedRead;
    var x := Step(w, e);
    forall id | id in x.past.marked ensures id in x.server.msgs && ShownRead(x.page.inbound, id) && (id in x.page.acked || AgreedRead(x, id)) {
      MarkAt(w, e, id);
    }
  }
}
