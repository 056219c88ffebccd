// The page's own code: the mutable state and the pieces that change it. Each is tied to the step of
// InboxProtocol it performs, in every sound world around the page, and says what the caller sees.
module InboxClient {
  import opened Common
  import opened InboxProtocol
  import opened InboxInvariants
  import opened InboxRuns

  lemma SwitchedPage(w: World, to: Mailbox)
    requires Enabled(w, Switch(to))
    ensures Step(w, Switch(to)).page == Fresh(w.page, Some(to)) && Step(w, Switch(to)).net == w.net
  {
  }

  // Nothing asked for in an earlier opening can be adopted in a new one.
  lemma NothingAdoptable(w: World, mailbox: Option<Mailbox>)
    requires Sound(w)
    ensures forall t :: t in w.net.listings ==> !Adoptable(Fresh(w.page, mailbox), t)
  {
  }

  // A new request is numbered above everything under way.
  lemma NextTicket(w: World)
    requires Sound(w)
    ensures var t := Ticket(w.page.opening, w.page.lastRequest + 1);
            && t !in w.net.listings && Adoptable(w.page, t)
            && forall u :: u in w.net.listings ==> Before(u, t)
  {
  }

  lemma AskedPage(w: World)
    requires Enabled(w, RequestListing)
    ensures Step(w, RequestListing).page == w.page.(lastRequest := w.page.lastRequest + 1)
    ensures Ticket(w.page.opening, w.page.lastRequest + 1) in Step(w, RequestListing).net.listings
  {
  }

  lemma AnsweredPage(w: World, i: nat)
    requires Enabled(w, InboxProtocol.Answer(i))
    ensures Step(w, InboxProtocol.Answer(i)).page == Settle(w.page, w.net.attempts[i], w.net.attempts[i].verdict)
  {
  }

  lemma RefusedPage(w: World, ack: Ack)
    requires Enabled(w, AckFailed(ack))
    ensures Step(w, AckFailed(ack)).page ==
              if ack.opening != w.page.opening then w.page
              else w.page.(acked := w.page.acked - {ack.id},
                           inbound := if ack.list == w.page.list then MarkRead(w.page.inbound, {ack.id}, false) else w.page.inbound)
  {
  }

  // The call meant to drop the row of a send that left no copy drops nothing.
  lemma {:induction false} ReconcilingNothingDropsNothing(rows: seq<LocalId>, records: map<LocalId, Record>)
    ensures Reconciled(rows, records, {}, {}) == rows
  {
    if rows != [] {
      ReconcilingNothingDropsNothing(rows[..|rows| - 1], records);
    }
  }

  class Inbox {
    var mailbox: Option<Mailbox>
    var opening: nat
    var inboxRequest: nat
    var acceptedInboxRequest: nat
    var inbound: seq<Msg>
    var list: nat
    var acked: set<MsgId>
    var records: map<LocalId, Record>
    var rows: seq<LocalId>

    constructor (mailbox: Option<Mailbox>)
      ensures ThePage() == Page(mailbox, 0, 0, 0, [], 0, {}, map[], [])
    {
      this.mailbox := mailbox;
      opening, inboxRequest, acceptedInboxRequest, inbound, list, acked, records, rows := 0, 0, 0, [], 0, {}, map[], [];
    }

    function ThePage(): Page
      reads this
    {
      Page(mailbox, opening, inboxRequest, acceptedInboxRequest, inbound, list, acked, records, rows)
    }

    // Filter the rows by what a listing answers.
    method Reconcile(ids: set<MsgId>, refs: set<(Mailbox, Ref)>)
      modifies `rows
      ensures rows == Reconciled(old(rows), records, ids, refs)
    {
      var kept: seq<LocalId> := [];
      for i := 0 to |rows|
        invariant rows == old(rows) && kept == Reconciled(rows[..i], records, ids, refs)
      {
        assert rows[..i + 1][..i] == rows[..i];
        if !(rows[i] in records && Answered(records[rows[i]], ids, refs)) {
          kept := kept + [rows[i]];
        }
      }
      assert rows[..|rows|] == rows;
      rows := kept;
    }

    // The listing becomes the list, with this page's read marks laid over it; rows it answers go.
    method Adopt(incoming: seq<Msg>)
      modifies this
      ensures ThePage() == Adopted(old(ThePage()), incoming)
    {
      var shown: seq<Msg> := [];
      for i := 0 to |incoming|
        invariant (shown, acked) == ShowAll(incoming[..i], old(acked))
        invariant ThePage() == old(ThePage()).(acked := acked)
      {
        assert incoming[..i + 1][..i] == incoming[..i];
        var m := incoming[i];
        if !m.read && m.id in acked {
          m := m.(read := true);
        } else if m.read {
          acked := acked - {m.id};
        }
        shown := shown + [m];
      }
      assert incoming[..|incoming|] == incoming;
      inbound, list := shown, list + 1;
      Reconcile(Ids(incoming), RefsIn(mailbox, incoming));
    }

    // `loadInbox` and the poll, up to the request: its ticket is new, adoptable as things stand, and
    // above every listing under way.
    method AskForListing() returns (ticket: Ticket)
      modifies `inboxRequest
      ensures ThePage() == old(ThePage()).(lastRequest := inboxRequest) && ticket == Ticket(opening, inboxRequest)
      ensures forall w: World :: w.page == old(ThePage()) && Sound(w) ==>
                ticket !in w.net.listings && Adoptable(ThePage(), ticket) && forall u :: u in w.net.listings ==> Before(u, ticket)
      ensures forall w: World :: w.page == old(ThePage()) && Enabled(w, RequestListing) ==>
                ThePage() == Step(w, RequestListing).page && ticket in Step(w, RequestListing).net.listings
    {
      hide Step, Sound;
      inboxRequest := inboxRequest + 1;
      ticket := Ticket(opening, inboxRequest);
      forall w: World | w.page == old(ThePage()) && Sound(w)
        ensures ticket !in w.net.listings && Adoptable(ThePage(), ticket) && forall u :: u in w.net.listings ==> Before(u, ticket)
      {
        NextTicket(w);
      }
      forall w: World | w.page == old(ThePage()) && Enabled(w, RequestListing)
        ensures ThePage() == Step(w, RequestListing).page && ticket in Step(w, RequestListing).net.listings
      {
        AskedPage(w);
      }
    }

    // ... and from the answer on: not if the mailbox was reopened, and not if a later request was
    // adopted already.
    method ReceiveListing(ticket: Ticket, body: seq<Msg>) returns (adopted: bool)
      modifies this
      ensures adopted == Adoptable(old(ThePage()), ticket)
      ensures forall w: World :: w.page == old(ThePage()) && Enabled(w, Receive(ticket)) && w.net.listings[ticket].snapshot == Some(body) ==>
                ThePage() == Step(w, Receive(ticket)).page
    {
      if ticket.opening != opening || ticket.number < acceptedInboxRequest {
        return false;
      }
      acceptedInboxRequest := ticket.number;
      Adopt(body);
      return true;
    }

    // Mark what is on screen as read, at once; the acks follow.
    method AckVisible(displayed: set<MsgId>) returns (unread: set<MsgId>)
      modifies this
      ensures unread == set i | 0 <= i < |old(inbound)| && !old(inbound)[i].out && old(inbound)[i].id in displayed && !old(inbound)[i].read :: old(inbound)[i].id
      ensures ThePage() == old(ThePage()).(inbound := MarkRead(old(inbound), unread, true), acked := old(acked) + unread)
      ensures forall w: World :: w.page == old(ThePage()) ==> Enabled(w, MarkVisible(unread)) && ThePage() == Step(w, MarkVisible(unread)).page
    {
      unread := set i | 0 <= i < |inbound| && !inbound[i].out && inbound[i].id in displayed && !inbound[i].read :: inbound[i].id;
      inbound := MarkRead(inbound, unread, true);
      acked := acked + unread;
      forall w: World | w.page == old(ThePage()) ensures Enabled(w, MarkVisible(unread)) && ThePage() == Step(w, MarkVisible(unread)).page {
        forall id | id in unread ensures exists i :: 0 <= i < |w.page.inbound| && w.page.inbound[i].id == id && !w.page.inbound[i].out && !w.page.inbound[i].read {
          var i :| 0 <= i < |old(inbound)| && !old(inbound)[i].out && !old(inbound)[i].read && old(inbound)[i].id == id;
          assert w.page.inbound[i].id == id;
        }
      }
    }

    // The ack of one message failed: its mark is taken back, in the opening and list it was made in,
    // and no other message's.
    method AckRefused(ack: Ack)
      modifies this
      ensures forall id :: id != ack.id ==> (id in acked <==> id in old(acked)) && (ShownRead(inbound, id) <==> old(ShownRead(inbound, id)))
      ensures ack.opening != old(opening) ==> ThePage() == old(ThePage())
      ensures ack.opening == old(opening) ==> ack.id !in acked
      ensures ack.opening == old(opening) && ack.list == old(list) ==>
                forall i :: 0 <= i < |inbound| && inbound[i].id == ack.id ==> !inbound[i].read
      ensures forall w: World :: w.page == old(ThePage()) && Enabled(w, AckFailed(ack)) && Sound(w) ==>
                ThePage() == Step(w, AckFailed(ack)).page && Sound(Step(w, AckFailed(ack)))
    {
      hide Step, Sound, Enabled;
      if ack.opening == opening {
        acked := acked - {ack.id};
        if ack.list == list {
          inbound := MarkRead(inbound, {ack.id}, false);
        }
      }
      forall w: World | w.page == old(ThePage()) && Enabled(w, AckFailed(ack)) && Sound(w)
        ensures ThePage() == Step(w, AckFailed(ack)).page && Sound(Step(w, AckFailed(ack)))
      {
        RefusedPage(w, ack);
        StepKeepsSound(w, AckFailed(ack));
      }
    }

    // A deletion was confirmed: take the messages out of the list and refuse every listing asked for
    // before now.
    method Deleted(d: Deletion)
      modifies this
      ensures d.opening == old(opening) ==>
                && inbound == Without(old(inbound), d.target)
                && acceptedInboxRequest == inboxRequest == old(inboxRequest) + 1
                && rows == (if d.target.WholeThread? then RowsOutside(old(rows), records, d.mailbox, d.target.thread) else old(rows))
                && ThePage() == old(ThePage()).(inbound := inbound, lastRequest := inboxRequest, accepted := acceptedInboxRequest, rows := rows)
      ensures d.opening != old(opening) ==> ThePage() == old(ThePage())
    {
      if d.opening != opening {
        return;
      }
      var kept: seq<Msg> := [];
      for i := 0 to |inbound|
        invariant ThePage() == old(ThePage()) && kept == Without(inbound[..i], d.target)
      {
        assert inbound[..i + 1][..i] == inbound[..i];
        if !Hits(d.target, inbound[i]) {
          kept := kept + [inbound[i]];
        }
      }
      assert inbound[..|inbound|] == inbound;
      inbound := kept;
      if d.target.WholeThread? {
        rows := RowsOutside(rows, records, d.mailbox, d.target.thread);
      }
      inboxRequest := inboxRequest + 1;
      acceptedInboxRequest := inboxRequest;
    }

    // Filter one record out of the rows.
    method DropRow(o: LocalId)
      modifies `rows
      ensures rows == Minus(old(rows), o)
    {
      var kept: seq<LocalId> := [];
      for i := 0 to |rows|
        invariant rows == old(rows) && kept == Minus(rows[..i], o)
      {
        assert rows[..i + 1][..i] == rows[..i];
        if rows[i] != o {
          kept := kept + [rows[i]];
        }
      }
      assert rows[..|rows|] == rows;
      rows := kept;
    }

    // One attempt's outcome: an answer, or none. The record is settled under its own request; its row
    // goes exactly when a retry left no copy and comes exactly when a hidden send is to be shown; every
    // other row and record stays.
    method Deliver(a: Attempt, verdict: Option<Verdict>)
      requires a.record in records
      modifies this
      ensures a.record in records && !records[a.record].status.Sending? && records[a.record].request == old(records)[a.record].request
      ensures forall o :: o != a.record ==> (o in rows <==> o in old(rows)) && (o in records <==> o in old(records))
                                            && (o in records ==> records[o] == old(records)[o])
      ensures a.record in rows <==>
                if verdict == Some(Taken(None)) then a.record in old(rows) && !a.retry
                else a.record in old(rows)
                     || (!a.retry && old(records)[a.record].hiddenIn == Some(opening) && verdict != Some(Refused))
      ensures ThePage() == Settle(old(ThePage()), a, verdict)
      ensures forall w: World, i: nat ::
                w.page == old(ThePage()) && Enabled(w, InboxProtocol.Answer(i)) && i in w.net.attempts && w.net.attempts[i] == a && a.verdict == verdict && Sound(w) ==>
                ThePage() == Step(w, InboxProtocol.Answer(i)).page && Sound(Step(w, InboxProtocol.Answer(i)))
    {
      hide Step, Sound, Enabled;
      var r := records[a.record];
      var hidden := !a.retry && r.hiddenIn == Some(opening);
      MinusIsPart(rows, a.record);
      if verdict.None? {
        records := records[a.record := r.(status := Failed, uncertain := true)];
        if hidden {
          rows := rows + [a.record];
        }
      } else if verdict.value.Refused? {
        records := records[a.record := r.(status := Failed, uncertain := false)];
      } else {
        records := records[a.record := r.(status := Sent, sentCopy := verdict.value.copy)];
        if verdict.value.copy.Some? {
          if hidden {
            rows := rows + [a.record];
          }
        } else if a.retry {
          DropRow(a.record);
        } else if r.hiddenIn.None? {
          ReconcilingNothingDropsNothing(rows, records);
          Reconcile({}, {});
        }
      }
      forall w: World, i: nat | w.page == old(ThePage()) && Enabled(w, InboxProtocol.Answer(i)) && i in w.net.attempts && w.net.attempts[i] == a && a.verdict == verdict && Sound(w)
        ensures ThePage() == Step(w, InboxProtocol.Answer(i)).page && Sound(Step(w, InboxProtocol.Answer(i)))
      {
        AnsweredPage(w, i);
        StepKeepsSound(w, InboxProtocol.Answer(i));
      }
    }

    // Open another mailbox: a new state, no corrections, and nothing asked for before can be adopted;
    // pending sends stay.
    method SwitchIdentity(to: Mailbox)
      modifies this
      ensures mailbox == Some(to) && records == old(records) && rows == old(rows)
      ensures old(mailbox) == Some(to) ==> ThePage() == old(ThePage())
      ensures old(mailbox) != Some(to) ==> inbound == [] && acked == {}
      ensures old(mailbox) != Some(to) ==> forall w: World :: w.page == old(ThePage()) && Enabled(w, Switch(to)) && Sound(w) ==>
                && ThePage() == Step(w, Switch(to)).page && Sound(Step(w, Switch(to)))
                && forall t :: t in w.net.listings ==> !Adoptable(ThePage(), t)
    {
      hide Step, Sound, Enabled;
      if mailbox == Some(to) {
        return;
      }
      mailbox, opening, inboxRequest, acceptedInboxRequest, inbound, list, acked := Some(to), opening + 1, 0, 0, [], list + 1, {};
      forall w: World | w.page == old(ThePage()) && Enabled(w, Switch(to)) && Sound(w)
        ensures ThePage() == Step(w, Switch(to)).page && Sound(Step(w, Switch(to)))
        ensures forall t :: t in w.net.listings ==> !Adoptable(ThePage(), t)
      {
        SwitchedPage(w, to);
        StepKeepsSound(w, Switch(to));
        NothingAdoptable(w, Some(to));
      }
    }
  }
}
