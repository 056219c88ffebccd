// One device following one encrypted group. The atomic steps are the pieces of client code that
// run between two awaits, what the postbox does meanwhile, and a crash that reloads the last
// saved record. The results are about every run of these steps.
module GroupProtocol {
  import opened Common
  import opened GroupLog

  // The MLS library's state for the group. `joinSeq`, `handed` and `gone` record what the ratchets
  // have been through: where the device joined, the messages it consumed, and the messages that
  // were already deleted when their turn came.
  datatype Mls = Mls(epoch: nat, pending: Option<Item>, joinSeq: nat, handed: seq<Handed>, gone: set<nat>)

  // What one save stores: the library state and the cursor, together.
  datatype Rec = Rec(group: Option<Mls>, inGroup: bool, cursor: nat)

  // An entry as a page of the log carried it.
  datatype Fetched = Fetched(seqno: nat, item: Item, deleted: bool)

  // The running page: the working record, the unread rest of the page being processed, and the
  // sequence number the postbox gave the pending commit, once its answer has arrived.
  datatype Mem = Mem(rec: Rec, page: seq<Fetched>, answer: Option<nat>)

  // A commit request on its way to the postbox.
  datatype Post = Post(commit: Item, revision: nat)

  // The postbox. `inflight` holds this device's commit requests that are not decided yet; a crash
  // of the client does not recall them.
  datatype Postbox = Postbox(log: seq<Item>, revision: nat, deleted: set<nat>, inflight: set<Post>)

  datatype World = World(me: DeviceId, box: Postbox, mem: Mem, disk: Rec, nextId: nat)

  // ---- the MLS device -------------------------------------------------------------------------

  datatype Incoming = GotMessage | GotCommit | GotRemoved | OwnConfirmed | OwnEcho | StaleEpoch | FutureEpoch

  // `process_incoming`: refuse other epochs, recognise the echo of the pending commit, let another
  // device's commit supersede it.
  function ProcessIncoming(me: DeviceId, m: Mls, seqno: nat, item: Item): (Incoming, Option<Mls>)
    requires !item.Notice?
  {
    if item.epoch < m.epoch then (StaleEpoch, Some(m))
    else if item.epoch > m.epoch then (FutureEpoch, Some(m))
    else if item.sender == me then
      if item.Commit? && m.pending == Some(item) then (OwnConfirmed, Some(Merge(m)))
      else (OwnEcho, Some(m))
    else if item.App? then (GotMessage, Some(m.(handed := m.handed + [Handed(seqno, m.epoch)])))
    else if me in item.removes then (GotRemoved, None)
    else (GotCommit, Some(Merge(m)))
  }

  // Enter the next epoch; whatever was pending belonged to the old one.
  function Merge(m: Mls): Mls {
    m.(epoch := m.epoch + 1, pending := None)
  }

  // ---- one entry of the log -------------------------------------------------------------------

  datatype Outcome = Message | Merged | NoticeShown | Removed | Gap | Skipped | Thrown

  // `processItem`, without the rows it shows (see GroupHistory).
  function ProcessItem(me: DeviceId, rec: Rec, f: Fetched): (Rec, Outcome) {
    match f.item
    case Notice => (rec, NoticeShown)
    case Commit(sender, _, _, _, _) =>
      if rec.group.None? then (rec, if sender == me then Thrown else Skipped)
      else if sender == me && rec.group.value.pending.None? then (rec, Skipped)
      else
        var (r, m) := ProcessIncoming(me, rec.group.value, f.seqno, f.item);
        match r {
          case FutureEpoch => (rec, Gap)
          case GotRemoved => (rec.(group := None, inGroup := false), Removed)
          case GotCommit => (rec.(group := m), Merged)
          case OwnConfirmed => (rec.(group := m), Merged)
          case _ => (rec, Skipped)
        }
    case App(sender, _, _) =>
      if f.deleted then
        (if rec.group.Some? && sender != me
         then rec.(group := Some(rec.group.value.(gone := rec.group.value.gone + {f.seqno}))) else rec, Message)
      else if sender == me then (rec, Skipped)
      else if rec.group.None? then (rec, Message)
      else
        var (r, m) := ProcessIncoming(me, rec.group.value, f.seqno, f.item);
        if r.FutureEpoch? then (rec, Gap) else (rec.(group := m), Message)
  }

  const PAGE: nat := 100

  // GET messages?after_seq=cursor&limit=100
  function ReadPage(box: Postbox, cursor: nat): (page: seq<Fetched>)
    requires cursor <= |box.log|
  {
    var n := if |box.log| - cursor < PAGE then |box.log| - cursor else PAGE;
    seq(n, k requires 0 <= k < n => Fetched(cursor + k + 1, box.log[cursor + k], cursor + k + 1 in box.deleted))
  }

  // ---- steps ----------------------------------------------------------------------------------

  datatype Event =
      // everybody else
    | ForeignCommit(from: DeviceId, adds: set<DeviceId>, removes: set<DeviceId>)
    | ForeignMessage(from: DeviceId, cmid: nat)
    | AddNotice
    | BumpRevision
    | DeleteMessage(seqno: nat)
      // the postbox deciding this device's requests
    | Accept(post: Post)
    | Refuse(post: Post)
    | AcceptMessage(cmid: nat, epoch: nat)
      // this device
    | Fetch
    | ProcessNext
    | EndRead
    | Persist
    | Build(newDevices: set<DeviceId>, departed: set<DeviceId>)
    | Send(revision: nat)
    | Answer(seqno: nat)
    | Confirm
    | Discard
    | Join(seqno: nat)
    | FailJoin
    | Create
    | Leave
    | Crash

  predicate Viable(box: Postbox, p: Post) {
    p.commit.Commit? && p.commit.epoch == Epoch(box.log)
  }

  predicate Enabled(w: World, e: Event) {
    var log, rec := w.box.log, w.mem.rec;
    match e
    case ForeignCommit(from, _, _) => from != w.me
    case ForeignMessage(from, _) => from != w.me
    case AddNotice => true
    case BumpRevision => true
    case DeleteMessage(q) => 1 <= q <= |log| && log[q - 1].App?
    // the first valid commit for an epoch and revision wins
    case Accept(p) => p in w.box.inflight && Viable(w.box, p) && p.revision == w.box.revision
    case Refuse(p) => p in w.box.inflight
    case AcceptMessage(_, epoch) => epoch == Epoch(log)
    case Fetch => rec.inGroup && w.mem.page == [] && rec.cursor <= |log|
    case ProcessNext => rec.inGroup && w.mem.page != []
                        && (w.mem.answer.Some? ==> w.mem.page[0].seqno < w.mem.answer.value)
    case EndRead => true
    case Persist => true
    // the library refuses a second commit while one is pending
    case Build(_, departed) => rec.group.Some? && rec.inGroup && rec.group.value.pending.None?
                               && w.mem.answer.None? && w.mem.page == [] && w.me !in departed
    // the pending commit is saved before it is posted
    case Send(_) => rec.group.Some? && rec.group.value.pending.Some? && w.mem.answer.None? && w.disk == rec
    case Answer(q) => 1 <= q <= |log| && rec.group.Some? && rec.group.value.pending == Some(log[q - 1])
                      && rec.cursor < q && w.mem.answer.None? && w.mem.page == []
    case Confirm => rec.group.Some? && rec.group.value.pending.Some? && w.mem.answer.Some? && w.mem.page == []
    case Discard => rec.group.Some? && rec.group.value.pending.Some?
    case Join(q) => 1 <= q <= |log| && log[q - 1].Commit? && w.me in log[q - 1].adds && log[q - 1].sender != w.me
                    && w.mem.page == [] && w.mem.answer.None?
    case FailJoin => w.mem.page == [] && w.mem.answer.None?
    case Create => rec.group.None? && Epoch(log) == 0 && w.mem.page == [] && w.mem.answer.None? && rec.cursor <= |log|
    case Leave => true
    case Crash => true
  }

  function Appended(w: World, x: Item): World {
    w.(box := w.box.(log := w.box.log + [x]))
  }

  function Step(w: World, e: Event): World
    requires Enabled(w, e)
  {
    var box, mem, rec := w.box, w.mem, w.mem.rec;
    match e
    case ForeignCommit(from, adds, removes) =>
      w.(box := box.(log := box.log + [Commit(from, w.nextId, Epoch(box.log), adds, removes)], revision := box.revision + 1),
         nextId := w.nextId + 1)
    case ForeignMessage(from, cmid) => Appended(w, App(from, cmid, Epoch(box.log)))
    case AddNotice => Appended(w, Notice)
    case BumpRevision => w.(box := box.(revision := box.revision + 1))
    case DeleteMessage(q) => w.(box := box.(deleted := box.deleted + {q}))
    case Accept(p) =>
      w.(box := box.(log := box.log + [p.commit], revision := box.revision + 1, inflight := box.inflight - {p}))
    case Refuse(p) => w.(box := box.(inflight := box.inflight - {p}))
    case AcceptMessage(cmid, epoch) => Appended(w, App(w.me, cmid, epoch))
    case Fetch => w.(mem := mem.(page := ReadPage(box, rec.cursor)))
    case ProcessNext => w.(mem := Processed(w.me, mem))
    case EndRead => w.(mem := mem.(page := []))
    case Persist => w.(disk := rec)
    case Build(adds, removes) =>
      w.(mem := mem.(rec := rec.(group := Some(rec.group.value.(
           pending := Some(Commit(w.me, w.nextId, rec.group.value.epoch, adds, removes)))))),
         nextId := w.nextId + 1)
    case Send(revision) => w.(box := box.(inflight := box.inflight + {Post(rec.group.value.pending.value, revision)}))
    case Answer(q) => w.(mem := mem.(answer := Some(q)))
    case Confirm =>
      var q := mem.answer.value;
      w.(mem := mem.(rec := rec.(group := Some(Merge(rec.group.value)), cursor := if rec.cursor < q then q else rec.cursor),
                     answer := None))
    case Discard => w.(mem := Mem(rec.(group := Some(rec.group.value.(pending := None))), [], None))
    case Join(q) => w.(mem := mem.(rec := Rec(Some(Mls(EpochAt(box.log, q), None, q, [], {})), true, q)))
    case FailJoin => w.(mem := mem.(rec := rec.(group := None)))
    case Create => w.(mem := mem.(rec := Rec(Some(Mls(0, None, rec.cursor, [], {})), true, rec.cursor)))
    case Leave => w.(mem := Mem(rec.(group := None, inGroup := false), [], None))
    case Crash => w.(mem := Mem(w.disk, [], None))
  }

  // The loop body of `syncLocked`: process one entry, then move the cursor to it.
  function Processed(me: DeviceId, mem: Mem): Mem
    requires mem.page != []
  {
    var f := mem.page[0];
    var out := ProcessItem(me, mem.rec, f);
    if out.1.Thrown? then mem.(page := [])
    else mem.(rec := out.0.(cursor := f.seqno),
              page := if out.1.Removed? || out.1.Gap? then [] else mem.page[1..])
  }

  // ---- what the two hypotheses and a fresh welcome amount to ------------------------------------

  // Whether a step may be taken without losing the log. Four steps can go wrong, each for a reason
  // the device could look up:
  // - dropping a pending commit the postbox took, or still may take (an error answer is only safe
  //   when it means "not accepted", and the read after acceptance must not fail);
  // - merging an accepted commit before everything sequenced ahead of it was read;
  // - joining from a welcome older than one of this device's own commits;
  // - starting over while an old commit request may still be accepted.
  ghost predicate Safe(w: World, e: Event)
    requires Enabled(w, e)
  {
    var log, rec := w.box.log, w.mem.rec;
    match e
    case Discard =>
      && (forall i :: rec.cursor <= i < |log| ==> Some(log[i]) != rec.group.value.pending)
      && (forall p :: p in w.box.inflight && Viable(w.box, p) ==> Some(p.commit) != rec.group.value.pending)
    case Confirm => forall i :: rec.cursor <= i < w.mem.answer.value - 1 && i < |log| ==> !GroupLog.ForeignApp(log, w.me, i)
    case Join(q) =>
      && (forall i :: q <= i < |log| ==> !OwnCommit(log, w.me, i))
      && (forall p :: p in w.box.inflight ==> !Viable(w.box, p))
    case Create => forall p :: p in w.box.inflight ==> !Viable(w.box, p)
    case _ => true
  }

  // ---- the invariant ----------------------------------------------------------------------------

  // A record holds exactly the log up to its cursor.
  ghost predicate Holds(box: Postbox, me: DeviceId, r: Rec) {
    && r.cursor <= |box.log|
    && (r.group.Some? ==>
          var m := r.group.value;
          && r.inGroup
          && m.joinSeq <= r.cursor
          && m.epoch == EpochAt(box.log, r.cursor)
          && m.gone <= box.deleted
          && (forall q :: q in m.gone ==> q <= r.cursor)
          && m.handed == Deliveries(box.log, me, m.joinSeq, r.cursor, m.gone)
          && (forall i :: m.joinSeq <= i < r.cursor && box.log[i].Commit? ==> me !in box.log[i].removes)
          && (m.pending.Some? ==> m.pending.value.Commit? && m.pending.value.sender == me
                                  && m.pending.value.epoch == m.epoch && me !in m.pending.value.removes))
  }

  // Own commits past the cursor, and own requests that can still be accepted, are the pending one.
  ghost predicate Covers(box: Postbox, me: DeviceId, r: Rec) {
    r.cursor <= |box.log| && r.group.Some? ==>
      && (forall i :: r.cursor <= i < |box.log| && OwnCommit(box.log, me, i) ==> r.group.value.pending == Some(box.log[i]))
      && (forall p :: p in box.inflight && Viable(box, p) ==> r.group.value.pending == Some(p.commit))
  }

  // The page is the log right after the cursor.
  ghost predicate PageFits(box: Postbox, m: Mem) {
    forall k :: 0 <= k < |m.page| ==>
      && m.page[k].seqno == m.rec.cursor + k + 1 <= |box.log|
      && m.page[k].item == box.log[m.rec.cursor + k]
      && (m.page[k].deleted ==> m.page[k].seqno in box.deleted)
  }

  ghost predicate AnswerFits(box: Postbox, m: Mem) {
    m.answer.Some? ==>
      && m.rec.group.Some?
      && m.rec.cursor < m.answer.value <= |box.log|
      && m.rec.group.value.pending == Some(box.log[m.answer.value - 1])
  }

  ghost predicate BoxOk(box: Postbox, me: DeviceId) {
    && Sequenced(box.log)
    && (forall p :: p in box.inflight ==> p.commit.Commit? && p.commit.sender == me && p.commit.epoch <= Epoch(box.log))
  }

  ghost predicate Inv(w: World) {
    && BoxOk(w.box, w.me)
    && Holds(w.box, w.me, w.mem.rec) && Covers(w.box, w.me, w.mem.rec)
    && Holds(w.box, w.me, w.disk) && Covers(w.box, w.me, w.disk)
    && PageFits(w.box, w.mem)
    && AnswerFits(w.box, w.mem)
  }

  // ---- every step keeps it, exactly when it is safe ---------------------------------------------

  // Appending an entry at the epoch in force disturbs no record, provided an own commit is the
  // pending one of every record that has a group.
  lemma {:induction false} AppendKeeps(box: Postbox, me: DeviceId, x: Item, r: Rec)
    requires BoxOk(box, me) && Holds(box, me, r) && Covers(box, me, r)
    requires x.Notice? || x.epoch == Epoch(box.log)
    requires x.Commit? && x.sender == me && r.group.Some? ==> r.group.value.pending == Some(x)
    ensures forall box': Postbox :: box'.log == box.log + [x] && box'.deleted == box.deleted && box'.inflight <= box.inflight
              ==> BoxOk(box', me) && Holds(box', me, r) && Covers(box', me, r)
  {
    SequencedAppend(box.log, x);
    EpochAtAppend(box.log, x, r.cursor);
    if r.group.Some? {
      DeliveriesAppend(box.log, x, me, r.group.value.joinSeq, r.cursor, r.group.value.gone);
    }
  }

  lemma AppendSteps(w: World, e: Event)
    requires Inv(w) && Enabled(w, e)
    requires e.ForeignCommit? || e.ForeignMessage? || e.AddNotice? || e.Accept? || e.AcceptMessage?
    ensures Inv(Step(w, e))
  {
    var w' := Step(w, e);
    var x := w'.box.log[|w.box.log|];
    assert w'.box.log == w.box.log + [x] && w'.mem == w.mem && w'.disk == w.disk && w'.me == w.me;
    assert w'.box.deleted == w.box.deleted && w'.box.inflight <= w.box.inflight;
    AppendKeeps(w.box, w.me, x, w.mem.rec);
    AppendKeeps(w.box, w.me, x, w.disk);
    PageStays(w.box, w'.box, w.mem);
  }

  // Pages and answers refer to entries, and entries never change.
  lemma PageStays(box: Postbox, box': Postbox, m: Mem)
    requires PageFits(box, m) && AnswerFits(box, m)
    requires |box.log| <= |box'.log| && box'.log[..|box.log|] == box.log && box.deleted <= box'.deleted
    ensures PageFits(box', m) && AnswerFits(box', m)
  {
    forall i | 0 <= i < |box.log| ensures box'.log[i] == box.log[i] {
      assert box'.log[..|box.log|][i] == box.log[i];
    }
  }

  lemma OtherBoxSteps(w: World, e: Event)
    requires Inv(w) && Enabled(w, e)
    requires e.BumpRevision? || e.DeleteMessage? || e.Refuse?
    ensures Inv(Step(w, e))
  {
    PageStays(w.box, Step(w, e).box, w.mem);
  }

  // The next entry of a page, read by a device that holds the log up to its cursor, is at the
  // device's own epoch: it is neither a gap nor stale, and a commit of this device is the pending one.
  lemma {:induction false} NextEntryFits(w: World)
    requires Inv(w) && Enabled(w, ProcessNext) && w.mem.rec.group.Some?
    ensures var f := w.mem.page[0]; var m := w.mem.rec.group.value;
            && f.seqno == w.mem.rec.cursor + 1 <= |w.box.log| && f.item == w.box.log[w.mem.rec.cursor]
            && (!f.item.Notice? ==> f.item.epoch == m.epoch)
            && (f.item.Commit? && f.item.sender == w.me ==> m.pending == Some(f.item))
            && (w.mem.answer.Some? ==> !f.item.Commit?)
    ensures !ProcessItem(w.me, w.mem.rec, w.mem.page[0]).1.Gap?
    ensures !ProcessItem(w.me, w.mem.rec, w.mem.page[0]).1.Thrown?
  {
    var log, c := w.box.log, w.mem.rec.cursor;
    assert w.mem.page[0].item == log[c];
    assert log[c].Commit? && log[c].sender == w.me ==> OwnCommit(log, w.me, c);
    if w.mem.answer.Some? {
      var q := w.mem.answer.value;
      EpochAtMonotone(log, c, q - 1);
      SameEpochNoCommit(log, c, q - 1);
    }
  }

  lemma {:induction false} ProcessNextHolds(w: World)
    requires Inv(w) && Enabled(w, ProcessNext) && w.mem.rec.group.Some?
    ensures Holds(w.box, w.me, Processed(w.me, w.mem).rec)
    ensures w.mem.answer.Some? ==> AnswerFits(w.box, Processed(w.me, w.mem))
  {
    NextEntryFits(w);
    var m, c := w.mem.rec.group.value, w.mem.rec.cursor;
    DeliveriesIgnoreLater(w.box.log, w.me, m.joinSeq, c, m.gone, c + 1);
    assert c + 1 !in m.gone;
  }

  lemma {:induction false} ProcessNextCovers(w: World)
    requires Inv(w) && Enabled(w, ProcessNext) && w.mem.rec.group.Some?
    ensures Covers(w.box, w.me, Processed(w.me, w.mem).rec)
  {
    NextEntryFits(w);
    if w.box.log[w.mem.rec.cursor].Commit? {
      NothingOwnAfterNextCommit(w.box, w.me, w.mem.rec);
    }
  }

  lemma {:induction false} ProcessNextKeepsPage(w: World)
    requires Inv(w) && Enabled(w, ProcessNext)
    ensures PageFits(w.box, Processed(w.me, w.mem))
    ensures w.mem.rec.group.None? ==> Processed(w.me, w.mem).rec.group.None? && Processed(w.me, w.mem).rec.cursor <= |w.box.log|
  {
    assert w.mem.page[0].seqno == w.mem.rec.cursor + 1 <= |w.box.log|;
  }

  lemma {:induction false} ProcessNextKeeps(w: World)
    requires Inv(w) && Enabled(w, ProcessNext)
    ensures Inv(Step(w, ProcessNext))
  {
    ProcessNextKeepsPage(w);
    if w.mem.rec.group.Some? {
      ProcessNextHolds(w);
      ProcessNextCovers(w);
    }
  }

  // Once the commit at the cursor is merged nothing of this device's is left behind it: a second
  // own commit, or a request that could still be accepted, would belong to the epoch just left.
  lemma {:induction false} NothingOwnAfterNextCommit(box: Postbox, me: DeviceId, r: Rec)
    requires BoxOk(box, me) && Holds(box, me, r) && Covers(box, me, r) && r.group.Some?
    requires r.cursor < |box.log| && box.log[r.cursor].Commit?
    ensures forall i :: r.cursor < i < |box.log| ==> !OwnCommit(box.log, me, i)
    ensures forall p :: p in box.inflight ==> !Viable(box, p)
  {
    forall i | r.cursor < i < |box.log| ensures !OwnCommit(box.log, me, i) {
      EpochAtMonotone(box.log, r.cursor + 1, i);
    }
    EpochAtMonotone(box.log, r.cursor + 1, |box.log|);
  }

  // The accepted commit is the first commit past the cursor, and the last thing of this device's.
  lemma {:induction false} AcceptedIsNext(w: World)
    requires Inv(w) && w.mem.answer.Some?
    ensures var log, c, q := w.box.log, w.mem.rec.cursor, w.mem.answer.value;
            && EpochAt(log, q) == EpochAt(log, c) + 1
            && (forall i :: c <= i < q - 1 ==> !log[i].Commit?)
            && (forall i :: q <= i < |log| ==> !OwnCommit(log, w.me, i))
            && (forall p :: p in w.box.inflight ==> !Viable(w.box, p))
  {
    var log, c, q := w.box.log, w.mem.rec.cursor, w.mem.answer.value;
    EpochAtMonotone(log, c, q - 1);
    SameEpochNoCommit(log, c, q - 1);
    forall i | q <= i < |log| ensures !OwnCommit(log, w.me, i) {
      EpochAtMonotone(log, q, i);
    }
    EpochAtMonotone(log, q, |log|);
  }

  // What merging early would skip.
  lemma {:induction false} MergedDeliveries(w: World)
    requires Inv(w) && Enabled(w, Confirm)
    ensures var m, q := w.mem.rec.group.value, w.mem.answer.value;
            m.handed == Deliveries(w.box.log, w.me, m.joinSeq, q, m.gone) <==> Safe(w, Confirm)
  {
    var log, c, q := w.box.log, w.mem.rec.cursor, w.mem.answer.value;
    var m := w.mem.rec.group.value;
    DeliveriesSkip(log, w.me, m.joinSeq, c, q - 1, m.gone);
    assert Deliveries(log, w.me, m.joinSeq, q, m.gone) == Deliveries(log, w.me, m.joinSeq, q - 1, m.gone);
    if !Safe(w, Confirm) {
      var i :| c <= i < q - 1 && GroupLog.ForeignApp(log, w.me, i);
      assert i + 1 !in m.gone;
    }
  }

  lemma {:induction false} ConfirmKeeps(w: World)
    requires Inv(w) && Enabled(w, Confirm)
    ensures Inv(Step(w, Confirm)) <==> Safe(w, Confirm)
  {
    MergedDeliveries(w);
    AcceptedIsNext(w);
    hide Safe, Deliveries, EpochAt;
    var r := Step(w, Confirm).mem.rec;
    assert Covers(w.box, w.me, r);
    assert Holds(w.box, w.me, r) <==> Safe(w, Confirm);
  }

  lemma {:induction false} DiscardKeeps(w: World)
    requires Inv(w) && Enabled(w, Discard)
    ensures Inv(Step(w, Discard)) <==> Safe(w, Discard)
  {
    var log, rec := w.box.log, w.mem.rec;
    var w' := Step(w, Discard);
    if exists i :: rec.cursor <= i < |log| && Some(log[i]) == rec.group.value.pending {
      var i :| rec.cursor <= i < |log| && Some(log[i]) == rec.group.value.pending;
      assert OwnCommit(log, w.me, i);
      assert !Covers(w'.box, w.me, w'.mem.rec);
    }
  }

  lemma {:induction false} JoinKeeps(w: World, q: nat)
    requires Inv(w) && Enabled(w, Join(q))
    ensures Inv(Step(w, Join(q))) <==> Safe(w, Join(q))
  {
    var w' := Step(w, Join(q));
    assert Deliveries(w.box.log, w.me, q, q, {}) == [];
    if exists i :: q <= i < |w.box.log| && OwnCommit(w.box.log, w.me, i) {
      assert !Covers(w'.box, w.me, w'.mem.rec);
    }
  }

  lemma {:induction false} CreateKeeps(w: World)
    requires Inv(w) && Enabled(w, Create)
    ensures Inv(Step(w, Create)) <==> Safe(w, Create)
  {
    var log, c := w.box.log, w.mem.rec.cursor;
    EpochAtMonotone(log, 0, c);
    EpochAtMonotone(log, c, |log|);
    SameEpochNoCommit(log, 0, |log|);
  }

  lemma {:induction false} SendKeeps(w: World, revision: nat)
    requires Inv(w) && Enabled(w, Send(revision))
    ensures Inv(Step(w, Send(revision)))
  {
    EpochAtMonotone(w.box.log, w.mem.rec.cursor, |w.box.log|);
    PageStays(w.box, Step(w, Send(revision)).box, w.mem);
  }

  // Building a commit over a fully covered record: nothing of this device's is past the cursor, so
  // the new pending commit hides nothing.
  lemma {:induction false} BuildKeeps(w: World, adds: set<DeviceId>, removes: set<DeviceId>)
    requires Inv(w) && Enabled(w, Build(adds, removes))
    ensures Inv(Step(w, Build(adds, removes)))
  {
    var log, rec := w.box.log, w.mem.rec;
    forall i | rec.cursor <= i < |log| ensures !OwnCommit(log, w.me, i) {
      assert rec.group.value.pending.None?;
    }
  }

  lemma {:induction false} LocalSteps(w: World, e: Event)
    requires Inv(w) && Enabled(w, e)
    requires e.Fetch? || e.EndRead? || e.Persist? || e.Answer? || e.FailJoin? || e.Leave? || e.Crash?
    ensures Inv(Step(w, e))
  {
  }

  // The step theorem: a step of the protocol keeps the invariant if and only if it is safe.
  lemma {:induction false} StepKeepsExactlyWhenSafe(w: World, e: Event)
    requires Inv(w) && Enabled(w, e)
    ensures Inv(Step(w, e)) <==> Safe(w, e)
  {
    hide Inv, Step, Enabled, Safe;
    if e.Confirm? {
      ConfirmKeeps(w);
    } else if e.Discard? {
      DiscardKeeps(w);
    } else if e.Join? {
      JoinKeeps(w, e.seqno);
    } else if e.Create? {
      CreateKeeps(w);
    } else {
      OtherStepsKeep(w, e);
    }
  }

  lemma OnlyFourCanBeUnsafe(w: World, e: Event)
    requires Enabled(w, e) && !e.Confirm? && !e.Discard? && !e.Join? && !e.Create?
    ensures Safe(w, e)
  {
  }

  lemma {:induction false} OtherStepsKeep(w: World, e: Event)
    requires Inv(w) && Enabled(w, e)
    requires !e.Confirm? && !e.Discard? && !e.Join? && !e.Create?
    ensures Inv(Step(w, e)) && Safe(w, e)
  {
    hide Inv, Step, Enabled, Safe;
    OnlyFourCanBeUnsafe(w, e);
    if e.ProcessNext? {
      ProcessNextKeeps(w);
    } else if e.Send? {
      SendKeeps(w, e.revision);
    } else if e.Build? {
      BuildKeeps(w, e.newDevices, e.departed);
    } else if e.Fetch? || e.EndRead? || e.Persist? || e.Answer? || e.FailJoin? || e.Leave? || e.Crash? {
      LocalSteps(w, e);
    } else if e.BumpRevision? || e.DeleteMessage? || e.Refuse? {
      OtherBoxSteps(w, e);
    } else {
      AppendSteps(w, e);
    }
  }
}
