// The inbox page's optimistic state against its postbox. The cached list is replaced whole by
// listings that can arrive late and out of order; over it lie unconfirmed sends, local read marks,
// deletions and mailbox switches. The steps are the pieces of page code between awaits, what the
// postbox does, and answers that get lost.
module InboxProtocol {
  import opened Common

  type Mailbox = nat
  type MsgId = nat
  type Ref = nat
  type Thread = nat
  type LocalId = nat

  // `origin` is the pending record whose send stored the message, if it was sent from this page.
  datatype Msg = Msg(id: MsgId, out: bool, ref: Option<Ref>, read: bool, thread: Option<Thread>, origin: Option<LocalId>)

  // ---- the postbox ------------------------------------------------------------------------------

  datatype Stored = Stored(mailbox: Mailbox, msg: Msg)

  // Message ids are never reused; a reference is remembered with what its first send stored.
  datatype Server = Server(msgs: map<MsgId, Stored>, deleted: set<MsgId>, byRef: map<(Mailbox, Ref), Option<MsgId>>)

  // ---- the page -----------------------------------------------------------------------------------

  datatype Request = Request(mailbox: Mailbox, ref: Option<Ref>, thread: Option<Thread>, body: nat)

  datatype Status = Sending | Sent | Failed

  // A pending send. A conversation's opening message is only listed once its outcome is known:
  // `hiddenIn` is the opening it was composed during.
  datatype Record = Record(request: Request, status: Status, uncertain: bool, sentCopy: Option<MsgId>, hiddenIn: Option<nat>)

  // `opening` stands for the identity of the state object: every switch makes a new one.
  // `list` likewise for the rows of the adopted listing.
  datatype Page = Page(mailbox: Option<Mailbox>, opening: nat, lastRequest: nat, accepted: nat,
                       inbound: seq<Msg>, list: nat, acked: set<MsgId>,
                       records: map<LocalId, Record>, rows: seq<LocalId>)

  // ---- under way ----------------------------------------------------------------------------------

  datatype Ticket = Ticket(opening: nat, number: nat)

  datatype Listing = Listing(mailbox: Mailbox, snapshot: Option<seq<Msg>>)

  datatype Verdict = Taken(copy: Option<MsgId>) | Refused

  // One POST of a record's request. The page may have stopped waiting for it.
  datatype Attempt = Attempt(record: LocalId, request: Request, retry: bool, waiting: bool, verdict: Option<Verdict>)

  datatype Ack = Ack(opening: nat, id: MsgId, list: nat)

  datatype Target = OneMessage(id: MsgId) | WholeThread(thread: Thread)

  datatype Deletion = Deletion(opening: nat, mailbox: Mailbox, target: Target, served: Option<set<MsgId>>)

  datatype Net = Net(listings: map<Ticket, Listing>, attempts: map<nat, Attempt>, acks: set<Ack>, deletions: map<nat, Deletion>)

  // What happened so far, for stating the results: the read marks made in this opening whose ack has
  // not failed, the messages whose deletion was confirmed, and the adopted listings (with the opening
  // they were adopted in).
  datatype Past = Past(marked: set<MsgId>, gone: set<MsgId>, adopted: seq<(nat, Ticket)>)

  datatype World = World(server: Server, page: Page, net: Net, past: Past)

  // ---- listings ---------------------------------------------------------------------------------

  ghost predicate Distinct(l: seq<Msg>) {
    forall i, j :: 0 <= i < j < |l| ==> l[i].id != l[j].id
  }

  predicate Live(s: Server, mailbox: Mailbox, id: MsgId) {
    id in s.msgs && id !in s.deleted && s.msgs[id].mailbox == mailbox
  }

  // A listing of the mailbox: its messages that are not deleted, each once, in some order.
  ghost predicate IsListing(s: Server, mailbox: Mailbox, l: seq<Msg>) {
    && Distinct(l)
    && (forall i :: 0 <= i < |l| ==> Live(s, mailbox, l[i].id) && s.msgs[l[i].id].msg == l[i])
    && (forall id :: Live(s, mailbox, id) ==> exists i :: 0 <= i < |l| && l[i].id == id)
  }

  function Ids(l: seq<Msg>): set<MsgId> {
    set i | 0 <= i < |l| :: l[i].id
  }

  function OutRefs(l: seq<Msg>): set<Ref> {
    set i | 0 <= i < |l| && l[i].out && l[i].ref.Some? :: l[i].ref.value
  }

  // The loop of `adopt`: a message this page acknowledged is shown read, and once the server agrees
  // the correction is no longer needed.
  function ShowAll(l: seq<Msg>, acked: set<MsgId>): (seq<Msg>, set<MsgId>) {
    if l == [] then ([], acked)
    else
      var (shown, left) := ShowAll(l[..|l| - 1], acked);
      var m := l[|l| - 1];
      if !m.read && m.id in left then (shown + [m.(read := true)], left)
      else if m.read then (shown + [m], left - {m.id})
      else (shown + [m], left)
  }

  // Whether `reconcile` drops a row.
  predicate Answered(r: Record, ids: set<MsgId>, refs: set<(Mailbox, Ref)>) {
    || (!r.status.Sending? && r.request.ref.Some? && (r.request.mailbox, r.request.ref.value) in refs)
    || (!r.status.Failed? && r.sentCopy.Some? && r.sentCopy.value in ids)
  }

  function Reconciled(rows: seq<LocalId>, records: map<LocalId, Record>, ids: set<MsgId>, refs: set<(Mailbox, Ref)>): seq<LocalId> {
    if rows == [] then []
    else
      var kept := Reconciled(rows[..|rows| - 1], records, ids, refs);
      var o := rows[|rows| - 1];
      if o in records && Answered(records[o], ids, refs) then kept else kept + [o]
  }

  function RefsIn(mailbox: Option<Mailbox>, l: seq<Msg>): set<(Mailbox, Ref)> {
    if mailbox.None? then {} else set f | f in OutRefs(l) :: (mailbox.value, f)
  }

  function Adopted(p: Page, l: seq<Msg>): Page {
    var (shown, left) := ShowAll(l, p.acked);
    p.(inbound := shown, acked := left, list := p.list + 1,
       rows := Reconciled(p.rows, p.records, Ids(l), RefsIn(p.mailbox, l)))
  }

  function MarkRead(l: seq<Msg>, ids: set<MsgId>, read: bool): (r: seq<Msg>)
    ensures |r| == |l|
    ensures forall i :: 0 <= i < |l| ==> r[i] == (if l[i].id in ids then l[i].(read := read) else l[i])
  {
    seq(|l|, i requires 0 <= i < |l| => if l[i].id in ids then l[i].(read := read) else l[i])
  }

  predicate Hits(t: Target, m: Msg) {
    match t
    case OneMessage(id) => m.id == id
    case WholeThread(thread) => m.thread == Some(thread)
  }

  function Without(l: seq<Msg>, t: Target): seq<Msg> {
    if l == [] then []
    else Without(l[..|l| - 1], t) + (if Hits(t, l[|l| - 1]) then [] else [l[|l| - 1]])
  }

  function Minus(rows: seq<LocalId>, o: LocalId): seq<LocalId> {
    if rows == [] then []
    else Minus(rows[..|rows| - 1], o) + (if rows[|rows| - 1] == o then [] else [rows[|rows| - 1]])
  }

  predicate InThread(r: Record, mailbox: Mailbox, thread: Thread) {
    r.request.mailbox == mailbox && r.request.thread == Some(thread)
  }

  function RowsOutside(rows: seq<LocalId>, records: map<LocalId, Record>, mailbox: Mailbox, thread: Thread): seq<LocalId> {
    if rows == [] then []
    else
      var o := rows[|rows| - 1];
      RowsOutside(rows[..|rows| - 1], records, mailbox, thread)
      + (if o in records && InThread(records[o], mailbox, thread) then [] else [o])
  }

  // ---- steps ------------------------------------------------------------------------------------

  datatype Event =
      // other devices and other people
    | Arrive(id: MsgId, box: Mailbox, thread: Option<Thread>)
    | SentElsewhere(id: MsgId, box: Mailbox, thread: Option<Thread>, ref: Option<Ref>)
    | ReadElsewhere(id: MsgId)
    | DeletedElsewhere(id: MsgId)
      // sending
    | Send(local: LocalId, attempt: nat, ref: Option<Ref>, thread: Option<Thread>, body: nat, opensConversation: bool)
    | Take(attempt: nat, id: MsgId, keepsCopy: bool)
    | Refuse(attempt: nat)
    | Answer(attempt: nat)
    | LoseAnswer(attempt: nat)
    | Retry(local: LocalId, attempt: nat)
    | Discard(local: LocalId)
      // listing
    | RequestListing
    | Snapshot(ticket: Ticket, listing: seq<Msg>)
    | Receive(ticket: Ticket)
    | LoseListing(ticket: Ticket)
      // reading
    | MarkVisible(ids: set<MsgId>)
    | ServeAck(ack: Ack)
    | AckDone(ack: Ack)
    | AckFailed(ack: Ack)
      // deleting
    | AskDelete(deletion: nat, target: Target)
    | ServeDelete(deletion: nat)
    | ConfirmDelete(deletion: nat)
    | FailDelete(deletion: nat)
      // changing mailbox
    | Switch(to: Mailbox)
    | SignOut

  ghost predicate FreshRef(w: World, f: Option<Ref>) {
    f.Some? ==>
      && (forall o :: o in w.page.records ==> w.page.records[o].request.ref != f)
      && (forall id :: id in w.server.msgs ==> w.server.msgs[id].msg.ref != f)
      && (forall k :: k in w.server.byRef ==> k.1 != f.value)
  }

  ghost predicate Enabled(w: World, e: Event) {
    var s, p, n := w.server, w.page, w.net;
    match e
    case Arrive(id, _, _) => id !in s.msgs
    case SentElsewhere(id, _, _, ref) => id !in s.msgs && FreshRef(w, ref)
    case ReadElsewhere(id) => id in s.msgs
    case DeletedElsewhere(id) => id in s.msgs
    // references are drawn at random, so never one in use
    case Send(local, a, ref, _, _, _) => p.mailbox.Some? && local !in p.records && a !in n.attempts && FreshRef(w, ref)
    case Take(a, id, _) => a in n.attempts && n.attempts[a].verdict.None? && id !in s.msgs
    case Refuse(a) => a in n.attempts && n.attempts[a].verdict.None?
    case Answer(a) => a in n.attempts && n.attempts[a].waiting && n.attempts[a].verdict.Some? && n.attempts[a].record in p.records
    case LoseAnswer(a) => a in n.attempts && n.attempts[a].waiting && n.attempts[a].record in p.records
    case Retry(local, a) => local in p.rows && local in p.records && p.records[local].status.Failed?
                            && Some(p.records[local].request.mailbox) == p.mailbox && a !in n.attempts
    case Discard(local) => local in p.rows && local in p.records && p.records[local].status.Failed?
                           && Some(p.records[local].request.mailbox) == p.mailbox
    case RequestListing => p.mailbox.Some?
    case Snapshot(t, l) => t in n.listings && n.listings[t].snapshot.None? && IsListing(s, n.listings[t].mailbox, l)
    case Receive(t) => t in n.listings && n.listings[t].snapshot.Some?
    case LoseListing(t) => t in n.listings
    case MarkVisible(ids) => forall id :: id in ids ==> exists i :: 0 <= i < |p.inbound| && p.inbound[i].id == id && !p.inbound[i].out && !p.inbound[i].read
    case ServeAck(a) => a in n.acks
    case AckDone(a) => a in n.acks
    case AckFailed(a) => a in n.acks
    case AskDelete(d, _) => p.mailbox.Some? && d !in n.deletions
    case ServeDelete(d) => d in n.deletions && n.deletions[d].served.None?
    case ConfirmDelete(d) => d in n.deletions && n.deletions[d].served.Some?
    case FailDelete(d) => d in n.deletions
    case Switch(to) => p.mailbox != Some(to)
    case SignOut => true
  }

  function Put(s: Server, id: MsgId, box: Mailbox, m: Msg): Server {
    s.(msgs := s.msgs[id := Stored(box, m)])
  }

  function ReadOn(s: Server, id: MsgId): Server {
    if id in s.msgs then s.(msgs := s.msgs[id := s.msgs[id].(msg := s.msgs[id].msg.(read := true))]) else s
  }

  // The postbox takes a request: for a reference it knows, the first answer is given again.
  function TakenBy(s: Server, a: Attempt, id: MsgId, keepsCopy: bool): (Server, Verdict) {
    var q := a.request;
    if q.ref.Some? && (q.mailbox, q.ref.value) in s.byRef then (s, Taken(s.byRef[(q.mailbox, q.ref.value)]))
    else
      var copy := if keepsCopy then Some(id) else None;
      var s1 := if keepsCopy then Put(s, id, q.mailbox, Msg(id, true, q.ref, true, q.thread, Some(a.record))) else s;
      (if q.ref.Some? then s1.(byRef := s1.byRef[(q.mailbox, q.ref.value) := copy]) else s1, Taken(copy))
  }

  // What an attempt's outcome does to its record ...
  function Settled(r: Record, v: Option<Verdict>): Record {
    match v
    case None => r.(status := Failed, uncertain := true)
    case Some(Refused) => r.(status := Failed, uncertain := false)
    case Some(Taken(copy)) => r.(status := Sent, sentCopy := copy)
  }

  // ... and to the rows: a hidden record shows up unless it was refused, and a retried send the
  // postbox kept no copy of goes.
  function RowsAfter(p: Page, a: Attempt, v: Option<Verdict>): seq<LocalId>
    requires a.record in p.records
  {
    var hidden := !a.retry && p.records[a.record].hiddenIn == Some(p.opening);
    match v
    case None => if hidden then p.rows + [a.record] else p.rows
    case Some(Refused) => p.rows
    case Some(Taken(Some(_))) => if hidden then p.rows + [a.record] else p.rows
    case Some(Taken(None)) => if a.retry then Minus(p.rows, a.record) else p.rows
  }

  function Settle(p: Page, a: Attempt, v: Option<Verdict>): Page
    requires a.record in p.records
  {
    p.(records := p.records[a.record := Settled(p.records[a.record], v)], rows := RowsAfter(p, a, v))
  }

  // Which messages a deletion reaches.
  function Reach(s: Server, mailbox: Mailbox, t: Target): set<MsgId> {
    set id | id in s.msgs && s.msgs[id].mailbox == mailbox && Hits(t, s.msgs[id].msg)
  }

  predicate Adoptable(p: Page, t: Ticket) {
    t.opening == p.opening && t.number >= p.accepted
  }

  function Fresh(p: Page, mailbox: Option<Mailbox>): Page {
    Page(mailbox, p.opening + 1, 0, 0, [], p.list + 1, {}, p.records, p.rows)
  }

  function Step(w: World, e: Event): World
    requires Enabled(w, e)
  {
    var s, p, n := w.server, w.page, w.net;
    match e
    case Arrive(id, box, thread) => w.(server := Put(s, id, box, Msg(id, false, None, false, thread, None)))
    case SentElsewhere(id, box, thread, ref) => w.(server := Put(s, id, box, Msg(id, true, ref, true, thread, None)))
    case ReadElsewhere(id) => w.(server := ReadOn(s, id))
    case DeletedElsewhere(id) => w.(server := s.(deleted := s.deleted + {id}))
    case Send(local, a, ref, thread, body, opens) =>
      var q := Request(p.mailbox.value, ref, thread, body);
      var r := Record(q, Sending, false, None, if opens then Some(p.opening) else None);
      w.(page := p.(records := p.records[local := r], rows := if opens then p.rows else p.rows + [local]),
         net := n.(attempts := n.attempts[a := Attempt(local, q, false, true, None)]))
    case Take(a, id, keeps) =>
      var (s', v) := TakenBy(s, n.attempts[a], id, keeps);
      w.(server := s', net := n.(attempts := n.attempts[a := n.attempts[a].(verdict := Some(v))]))
    case Refuse(a) => w.(net := n.(attempts := n.attempts[a := n.attempts[a].(verdict := Some(Refused))]))
    case Answer(a) =>
      w.(page := Settle(p, n.attempts[a], n.attempts[a].verdict),
         net := n.(attempts := n.attempts[a := n.attempts[a].(waiting := false)]))
    case LoseAnswer(a) =>
      w.(page := Settle(p, n.attempts[a], None), net := n.(attempts := n.attempts[a := n.attempts[a].(waiting := false)]))
    case Retry(local, a) =>
      w.(page := p.(records := p.records[local := p.records[local].(status := Sending, uncertain := false)]),
         net := n.(attempts := n.attempts[a := Attempt(local, p.records[local].request, true, true, None)]))
    case Discard(local) => w.(page := p.(rows := Minus(p.rows, local)))
    case RequestListing =>
      w.(page := p.(lastRequest := p.lastRequest + 1),
         net := n.(listings := n.listings[Ticket(p.opening, p.lastRequest + 1) := Listing(p.mailbox.value, None)]))
    case Snapshot(t, l) => w.(net := n.(listings := n.listings[t := n.listings[t].(snapshot := Some(l))]))
    case Receive(t) =>
      var w' := w.(net := n.(listings := n.listings - {t}));
      if Adoptable(p, t) then
        w'.(page := Adopted(p.(accepted := t.number), n.listings[t].snapshot.value),
            past := w.past.(adopted := w.past.adopted + [(p.opening, t)]))
      else w'
    case LoseListing(t) => w.(net := n.(listings := n.listings - {t}))
    case MarkVisible(ids) =>
      w.(page := p.(inbound := MarkRead(p.inbound, ids, true), acked := p.acked + ids),
         net := n.(acks := n.acks + set id | id in ids :: Ack(p.opening, id, p.list)),
         past := w.past.(marked := w.past.marked + ids))
    case ServeAck(a) => w.(server := ReadOn(s, a.id))
    case AckDone(a) => w.(net := n.(acks := n.acks - {a}))
    case AckFailed(a) =>
      var w' := w.(net := n.(acks := n.acks - {a}));
      if a.opening == p.opening then
        w'.(page := p.(acked := p.acked - {a.id}, inbound := if a.list == p.list then MarkRead(p.inbound, {a.id}, false) else p.inbound),
            past := w.past.(marked := w.past.marked - {a.id}))
      else w'
    case AskDelete(d, target) => w.(net := n.(deletions := n.deletions[d := Deletion(p.opening, p.mailbox.value, target, None)]))
    case ServeDelete(d) =>
      var hit := Reach(s, n.deletions[d].mailbox, n.deletions[d].target);
      w.(server := s.(deleted := s.deleted + hit), net := n.(deletions := n.deletions[d := n.deletions[d].(served := Some(hit))]))
    case ConfirmDelete(d) =>
      var del := n.deletions[d];
      var w' := w.(net := n.(deletions := n.deletions - {d}));
      if del.opening == p.opening then
        w'.(page := p.(inbound := Without(p.inbound, del.target), lastRequest := p.lastRequest + 1, accepted := p.lastRequest + 1,
                       rows := if del.target.WholeThread? then RowsOutside(p.rows, p.records, del.mailbox, del.target.thread) else p.rows),
            past := w.past.(gone := w.past.gone + del.served.value))
      else w'
    case FailDelete(d) => w.(net := n.(deletions := n.deletions - {d}))
    case Switch(to) => w.(page := Fresh(p, Some(to)), past := w.past.(marked := {}))
    case SignOut => w.(page := Fresh(p, None).(rows := []), past := w.past.(marked := {}))
  }
}
