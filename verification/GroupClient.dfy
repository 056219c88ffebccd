// The client's own loops (`syncLocked`, `commitLocked`, `send`) over a postbox that keeps changing
// at every await. Each method is tied to the step machine: what it did is a safe run of it, so every
// result of GroupRuns holds at each of its awaits, whatever the interleaving.
module GroupClient {
  import opened Common
  import opened GroupLog
  import opened GroupProtocol
  import opened GroupRuns

  const MAX_PAGES: nat := 1000
  const MAX_RETRIES: nat := 6

  ghost predicate Reaches(a: World, b: World) {
    exists es :: SafeRun(a, es) && Possible(a, es) && Exec(a, es) == b
  }

  lemma SafeRunSnoc(w: World, es: seq<Event>, e: Event)
    requires SafeRun(w, es) && Possible(w, es) && Enabled(Exec(w, es), e) && Safe(Exec(w, es), e)
    ensures SafeRun(w, es + [e]) && Possible(w, es + [e]) && Exec(w, es + [e]) == Step(Exec(w, es), e)
    decreases |es|
  {
    ExecSnoc(w, es, e);
    if es == [] {
      assert [e][1..] == [];
      assert SafeRun(Step(w, e), []);
    } else {
      assert (es + [e])[1..] == es[1..] + [e];
      SafeRunSnoc(Step(w, es[0]), es[1..], e);
    }
  }

  // One more safe step after a safe run.
  lemma ReachesStep(a: World, b: World, e: Event)
    requires Reaches(a, b) && Inv(b) && Enabled(b, e) && Safe(b, e)
    ensures Reaches(a, Step(b, e)) && Inv(Step(b, e))
  {
    var es :| SafeRun(a, es) && Possible(a, es) && Exec(a, es) == b;
    SafeRunSnoc(a, es, e);
    StepKeepsExactlyWhenSafe(b, e);
  }

  // A crash during a method is a crash at a prefix of its run.
  lemma CrashAnywhere(a: World, es: seq<Event>, n: nat)
    requires Inv(a) && SafeRun(a, es) && n <= |es|
    ensures SafeRun(a, es[..n] + [Crash]) && Possible(a, es[..n] + [Crash]) && Inv(Exec(a, es[..n] + [Crash]))
    decreases n
  {
    SafeRunKeepsInv(a, es);
    if n == 0 {
      assert es[..n] + [Crash] == [Crash] && [Crash][1..] == [];
      assert SafeRun(Step(a, Crash), []);
      SafeRunKeepsInv(a, [Crash]);
    } else {
      StepKeepsExactlyWhenSafe(a, es[0]);
      CrashAnywhere(Step(a, es[0]), es[1..], n - 1);
      assert (es[..n] + [Crash])[1..] == es[1..][..n - 1] + [Crash];
      SafeRunKeepsInv(a, es[..n] + [Crash]);
    }
  }

  predicate IsForeign(e: Event) {
    e.ForeignCommit? || e.ForeignMessage? || e.AddNotice? || e.BumpRevision? || e.DeleteMessage?
  }

  ghost predicate Carried(s: set<Post>, x: Item) {
    exists p :: p in s && p.commit == x
  }

  // What can have happened to the postbox beside this page: the log only grew, by entries that are
  // not this device's or that requests `s` of an earlier page carried; the revision counts at least
  // the commits among them.
  ghost predicate Beside(me: DeviceId, s: set<Post>, a: Postbox, b: Postbox) {
    && |a.log| <= |b.log| && b.log[..|a.log|] == a.log && b.inflight <= a.inflight && a.deleted <= b.deleted
    && (forall i :: |a.log| <= i < |b.log| && !b.log[i].Notice? && b.log[i].sender == me ==>
          b.log[i].Commit? && Carried(s, b.log[i]))
    && a.revision <= b.revision
    && ((exists i :: |a.log| <= i < |b.log| && b.log[i].Commit?) ==> a.revision < b.revision)
  }

  // The same with every request that was under way.
  ghost predicate Elsewhere(me: DeviceId, a: Postbox, b: Postbox) {
    Beside(me, a.inflight, a, b)
  }

  // The postbox decides a request that this page does not wait for.
  predicate IsStray(e: Event, waiting: set<Post>) {
    (e.Accept? || e.Refuse?) && e.post !in waiting
  }

  lemma StepBeside(w: World, e: Event, waiting: set<Post>)
    requires Enabled(w, e) && (IsForeign(e) || IsStray(e, waiting)) && waiting <= w.box.inflight
    ensures Beside(w.me, w.box.inflight - waiting, w.box, Step(w, e).box) && Safe(w, e)
    ensures waiting <= Step(w, e).box.inflight
    ensures Step(w, e) == w.(box := Step(w, e).box, nextId := Step(w, e).nextId)
  {
  }

  // What processing the next entry does, in terms of the record alone.
  lemma NextEntry(w: World)
    requires Inv(w) && Enabled(w, ProcessNext)
    ensures Safe(w, ProcessNext) && w.mem.page != [] && w.mem.page[0].seqno == w.mem.rec.cursor + 1
    ensures Step(w, ProcessNext) == w.(mem := Processed(w.me, w.mem))
    ensures var out := ProcessItem(w.me, w.mem.rec, w.mem.page[0]);
            && (w.mem.rec.group.Some? ==> !out.1.Gap? && !out.1.Thrown?) && (w.mem.rec.group.None? ==> out.0.group.None?)
            && (w.mem.rec.group.Some? && !out.1.Removed? ==> out.0.group.Some? && out.0.inGroup)
            && (w.mem.rec.group.Some? && out.0.group.Some? ==>
                  out.0.group.value.pending == if w.mem.page[0].item.Commit? then None else w.mem.rec.group.value.pending)
            && w.mem.rec.cursor < |w.box.log| && w.mem.page[0].item == w.box.log[w.mem.rec.cursor]
            && (if out.1.Removed? then out.0.group.None? && !out.0.inGroup else out.0.inGroup)
            && out.0.cursor == w.mem.rec.cursor && (out.1.Thrown? ==> out.0 == w.mem.rec)
  {
    if w.mem.rec.group.Some? {
      NextEntryFits(w);
    }
  }

  lemma FetchAt(w: World)
    requires Inv(w) && w.mem.rec.inGroup && w.mem.page == []
    ensures Enabled(w, Fetch) && Safe(w, Fetch) && w.mem.rec.cursor <= |w.box.log|
    ensures Step(w, Fetch) == w.(mem := w.mem.(page := ReadPage(w.box, w.mem.rec.cursor)))
    ensures var n := |ReadPage(w.box, w.mem.rec.cursor)|;
            n <= PAGE && w.mem.rec.cursor + n <= |w.box.log| && (n < PAGE ==> w.mem.rec.cursor + n == |w.box.log|)
  {
  }

  lemma PageHead(w: World)
    requires Inv(w) && w.mem.rec.inGroup && w.mem.page != []
    ensures w.mem.page[0].seqno == w.mem.rec.cursor + 1
    ensures (w.mem.answer.Some? ==> w.mem.page[0].seqno < w.mem.answer.value) ==> Enabled(w, ProcessNext)
  {
  }

  lemma OutsideHoldsNothing(w: World)
    requires Inv(w) && !w.mem.rec.inGroup
    ensures w.mem.rec.group.None?
  {
  }

  lemma EndReadAt(w: World)
    ensures Enabled(w, EndRead) && Safe(w, EndRead) && Step(w, EndRead) == w.(mem := w.mem.(page := []))
  {
  }

  lemma ElsewhereGrows(me: DeviceId, a: Postbox, b: Postbox)
    requires Elsewhere(me, a, b)
    ensures |a.log| <= |b.log| && b.inflight <= a.inflight && a.revision <= b.revision && b.log[..|a.log|] == a.log
  {
  }

  lemma BesideIsElsewhere(me: DeviceId, a: Postbox, b: Postbox)
    requires Beside(me, a.inflight, a, b)
    ensures Elsewhere(me, a, b)
  {
  }

  lemma ElsewhereItself(me: DeviceId, a: Postbox)
    ensures Elsewhere(me, a, a)
  {
  }

  lemma CarriedByMore(s: set<Post>, t: set<Post>, x: Item)
    requires s <= t && Carried(s, x)
    ensures Carried(t, x)
  {
  }

  lemma BesideMore(me: DeviceId, s: set<Post>, t: set<Post>, a: Postbox, b: Postbox)
    requires Beside(me, s, a, b) && s <= t
    ensures Beside(me, t, a, b)
  {
    forall i | |a.log| <= i < |b.log| && !b.log[i].Notice? && b.log[i].sender == me ensures Carried(t, b.log[i]) {
      CarriedByMore(s, t, b.log[i]);
    }
  }

  lemma BesideGrows(me: DeviceId, s: set<Post>, a: Postbox, b: Postbox)
    requires Beside(me, s, a, b)
    ensures b.inflight <= a.inflight
  {
  }

  lemma BesideTwice(me: DeviceId, s: set<Post>, a: Postbox, b: Postbox, c: Postbox)
    requires Beside(me, s, a, b) && Beside(me, s, b, c)
    ensures Beside(me, s, a, c)
  {
    hide Carried;
    forall i | 0 <= i < |a.log| ensures c.log[i] == a.log[i] {
      assert c.log[..|b.log|][i] == b.log[i] && b.log[..|a.log|][i] == a.log[i];
    }
    assert c.log[..|a.log|] == a.log;
    forall i | |a.log| <= i < |c.log| && !c.log[i].Notice? && c.log[i].sender == me
      ensures c.log[i].Commit? && Carried(s, c.log[i])
    {
      if i < |b.log| {
        assert c.log[..|b.log|][i] == b.log[i];
      }
    }
    if i :| |a.log| <= i < |c.log| && c.log[i].Commit? {
      if i < |b.log| {
        assert c.log[..|b.log|][i] == b.log[i];
      }
    }
  }

  lemma ElsewhereTwice(me: DeviceId, a: Postbox, b: Postbox, c: Postbox)
    requires Elsewhere(me, a, b) && Elsewhere(me, b, c)
    ensures Elsewhere(me, a, c)
  {
    assert b.inflight <= a.inflight;
    hide Beside;
    BesideMore(me, b.inflight, a.inflight, b, c);
    BesideTwice(me, a.inflight, a, b, c);
  }

  // The log grew by one new entry of this device, at `q` and at the epoch in force there; anything
  // else of this device's in it was on its way already.
  ghost predicate OneOwn(me: DeviceId, a: Postbox, b: Postbox, q: nat) {
    && |a.log| < q <= |b.log| && b.log[..|a.log|] == a.log && b.inflight <= a.inflight
    && b.log[q - 1].Commit? && b.log[q - 1].sender == me && b.log[q - 1].epoch == EpochAt(b.log, q - 1)
    && !Carried(a.inflight, b.log[q - 1])
    && (forall i :: |a.log| <= i < |b.log| && i != q - 1 && !b.log[i].Notice? && b.log[i].sender == me ==>
          b.log[i].Commit? && Carried(a.inflight, b.log[i]))
  }

  lemma OneOwnGrows(me: DeviceId, a: Postbox, b: Postbox, q: nat)
    requires OneOwn(me, a, b, q)
    ensures |a.log| < q <= |b.log| && b.inflight <= a.inflight && b.log[..|a.log|] == a.log
  {
  }

  lemma OneOwnBetween(me: DeviceId, a: Postbox, b: Postbox, c: Postbox, d: Postbox, q: nat)
    requires Elsewhere(me, a, b) && OneOwn(me, b, c, q) && Elsewhere(me, c, d)
    requires PastAll(a.inflight, Epoch(b.log))
    ensures OneOwn(me, a, d, q)
  {
    hide Carried;
    forall i | 0 <= i < |c.log| ensures d.log[i] == c.log[i] {
      assert d.log[..|c.log|][i] == c.log[i];
    }
    forall i | 0 <= i < |b.log| ensures c.log[i] == b.log[i] {
      assert c.log[..|b.log|][i] == b.log[i];
    }
    forall i | 0 <= i < |a.log| ensures d.log[i] == a.log[i] {
      assert b.log[..|a.log|][i] == a.log[i];
    }
    assert d.log[..|a.log|] == a.log;
    forall i | |a.log| <= i < |d.log| && i != q - 1 && !d.log[i].Notice? && d.log[i].sender == me
      ensures d.log[i].Commit? && Carried(a.inflight, d.log[i])
    {
      if |c.log| <= i {
        CarriedByMore(c.inflight, a.inflight, d.log[i]);
      } else if |b.log| <= i {
        CarriedByMore(b.inflight, a.inflight, d.log[i]);
      }
    }
    SamePrefixSameEpoch(c.log, d.log, q - 1);
    SamePrefixSameEpoch(b.log, c.log, |b.log|);
    EpochAtMonotone(c.log, |b.log|, q - 1);
    NotCarried(a.inflight, Epoch(b.log), d.log[q - 1]);
  }

  // Every request is of an epoch that is over.
  ghost predicate PastAll(s: set<Post>, epoch: nat) {
    forall p :: p in s ==> p.commit.Commit? && p.commit.epoch < epoch
  }

  lemma NotCarried(s: set<Post>, epoch: nat, x: Item)
    requires PastAll(s, epoch) && x.Commit? && x.epoch >= epoch
    ensures !Carried(s, x)
  {
  }

  lemma PastLater(s: set<Post>, t: set<Post>, epoch: nat, later: nat)
    requires PastAll(s, epoch) && t <= s && epoch <= later
    ensures PastAll(t, later)
  {
  }

  lemma EpochGrows(a: seq<Item>, b: seq<Item>)
    requires |a| <= |b| && b[..|a|] == a
    ensures Epoch(a) <= Epoch(b)
  {
    forall i | 0 <= i < |a| ensures a[i] == b[i] {
      assert b[..|a|][i] == a[i];
    }
    SamePrefixSameEpoch(a, b, |a|);
    EpochAtMonotone(b, |a|, |b|);
  }

  // A request of an earlier page that lands is the first commit to land, so at most one does.
  lemma TravellingLandsFirst(me: DeviceId, a: Postbox, b: Postbox, i: nat)
    requires BoxOk(a, me) && Sequenced(b.log) && |a.log| <= i < |b.log| && b.log[..|a.log|] == a.log
    requires b.log[i].Commit? && Carried(a.inflight, b.log[i])
    ensures b.log[i].epoch == Epoch(a.log)
    ensures forall k :: |a.log| <= k < i ==> !b.log[k].Commit?
    ensures forall k :: i < k < |b.log| && b.log[k].Commit? ==> !Carried(a.inflight, b.log[k])
  {
    var n := |a.log|;
    forall k | 0 <= k < n ensures a.log[k] == b.log[k] {
      assert b.log[..n][k] == a.log[k];
    }
    SamePrefixSameEpoch(a.log, b.log, n);
    EpochAtMonotone(b.log, n, i);
    SameEpochNoCommit(b.log, n, i);
    forall k | i < k < |b.log| && b.log[k].Commit? ensures !Carried(a.inflight, b.log[k]) {
      EpochAtMonotone(b.log, i + 1, k);
    }
  }

  // No commit of this device is past the cursor.
  ghost predicate NoneOfOurs(log: seq<Item>, me: DeviceId, cursor: nat) {
    forall i :: cursor <= i < |log| ==> !OwnCommit(log, me, i)
  }

  lemma NoneOfOursStays(me: DeviceId, s: set<Post>, a: Postbox, b: Postbox, cursor: nat)
    requires Beside(me, s, a, b) && NoneOfOurs(a.log, me, cursor) && PastAll(s, Epoch(a.log)) && Sequenced(b.log)
    ensures NoneOfOurs(b.log, me, cursor)
  {
    forall i | 0 <= i < |a.log| ensures a.log[i] == b.log[i] {
      assert b.log[..|a.log|][i] == a.log[i];
    }
    SamePrefixSameEpoch(a.log, b.log, |a.log|);
    forall i | cursor <= i < |b.log| ensures !OwnCommit(b.log, me, i) {
      if i < |a.log| {
        assert !OwnCommit(a.log, me, i);
      } else {
        EpochAtMonotone(b.log, |a.log|, i);
        if b.log[i].Commit? {
          NotCarried(s, Epoch(a.log), b.log[i]);
        }
      }
    }
  }

  // With nothing pending, every request still under way is of an epoch that is over.
  lemma NothingTravels(w: World)
    requires Inv(w) && w.mem.rec.group.Some? && w.mem.rec.group.value.pending.None?
    ensures PastAll(w.box.inflight, Epoch(w.box.log))
  {
  }

  lemma BuildAt(w: World, adds: set<DeviceId>, removes: set<DeviceId>)
    requires Inv(w) && w.mem.rec.group.Some? && w.mem.rec.group.value.pending.None?
    requires w.mem.answer.None? && w.mem.page == [] && w.me !in removes
    ensures Enabled(w, Build(adds, removes)) && Safe(w, Build(adds, removes))
    ensures NoneOfOurs(w.box.log, w.me, w.mem.rec.cursor) && PastAll(w.box.inflight, Epoch(w.box.log))
    ensures var m := w.mem.rec.group.value;
            Step(w, Build(adds, removes)) == w.(nextId := w.nextId + 1, mem := w.mem.(rec := w.mem.rec.(group :=
              Some(m.(pending := Some(Commit(w.me, w.nextId, m.epoch, adds, removes)))))))
  {
    forall i | w.mem.rec.cursor <= i < |w.box.log| ensures !OwnCommit(w.box.log, w.me, i) {
      assert w.mem.rec.group.value.pending.None?;
    }
  }

  lemma FailJoinAt(w: World)
    requires w.mem.page == [] && w.mem.answer.None?
    ensures Enabled(w, FailJoin) && Safe(w, FailJoin) && Step(w, FailJoin) == w.(mem := w.mem.(rec := w.mem.rec.(group := None)))
  {
  }

  lemma PersistAt(w: World)
    ensures Enabled(w, GroupProtocol.Persist) && Safe(w, GroupProtocol.Persist) && Step(w, GroupProtocol.Persist) == w.(disk := w.mem.rec)
  {
  }

  function Joined(log: seq<Item>, q: nat): Rec
    requires q <= |log|
  {
    Rec(Some(Mls(EpochAt(log, q), None, q, [], {})), true, q)
  }

  // No request of this device's can still be accepted.
  ghost predicate NoneTravels(box: Postbox) {
    forall p :: p in box.inflight ==> !Viable(box, p)
  }

  // A welcome can be joined from; safely exactly when none of this device's own commits follow it,
  // nor can.
  lemma JoinAt(w: World, q: nat)
    requires Inv(w) && w.mem.page == [] && w.mem.answer.None?
    requires 1 <= q <= |w.box.log| && Welcomes(w.box.log[q - 1], w.me)
    ensures Enabled(w, Join(q)) && Step(w, Join(q)) == w.(mem := w.mem.(rec := Joined(w.box.log, q)))
    ensures Safe(w, Join(q)) <==> NoneOfOurs(w.box.log, w.me, q) && NoneTravels(w.box)
  {
    hide Inv;
  }

  lemma JoinedKeepsOnlyWhen(w: World, q: nat)
    requires Inv(w) && w.mem.page == [] && w.mem.answer.None?
    requires 1 <= q <= |w.box.log| && Welcomes(w.box.log[q - 1], w.me)
    ensures Inv(w.(mem := w.mem.(rec := Joined(w.box.log, q)), disk := Joined(w.box.log, q))) ==>
              NoneOfOurs(w.box.log, w.me, q) && NoneTravels(w.box)
  {
    JoinAt(w, q);
    hide Step, Enabled, Safe, Welcomes, Holds, Covers, PageFits, AnswerFits, BoxOk, EpochAt;
    StepKeepsExactlyWhenSafe(w, Join(q));
  }

  lemma SendAt(w: World, revision: nat)
    requires Inv(w) && w.mem.rec.group.Some? && w.mem.rec.group.value.pending.Some? && w.mem.answer.None? && w.disk == w.mem.rec
    ensures Enabled(w, Send(revision)) && Safe(w, Send(revision))
    ensures Step(w, Send(revision)) ==
              w.(box := w.box.(inflight := w.box.inflight + {Post(w.mem.rec.group.value.pending.value, revision)}))
  {
  }

  lemma AcceptAt(w: World, p: Post)
    requires Inv(w) && p in w.box.inflight && p.commit.epoch == Epoch(w.box.log) && p.revision == w.box.revision
    ensures Enabled(w, Accept(p)) && Safe(w, Accept(p))
    ensures Step(w, Accept(p)) == w.(box := Postbox(w.box.log + [p.commit], w.box.revision + 1, w.box.deleted, w.box.inflight - {p}))
  {
  }

  lemma RefuseAt(w: World, p: Post)
    requires p in w.box.inflight
    ensures Enabled(w, Refuse(p)) && Safe(w, Refuse(p))
    ensures Step(w, Refuse(p)) == w.(box := w.box.(inflight := w.box.inflight - {p}))
  {
  }

  lemma AnswerAt(w: World, q: nat)
    requires w.mem.rec.cursor < q <= |w.box.log| && w.mem.answer.None? && w.mem.page == []
    requires w.mem.rec.group.Some? && w.mem.rec.group.value.pending == Some(w.box.log[q - 1])
    ensures Enabled(w, Answer(q)) && Safe(w, Answer(q))
    ensures Step(w, Answer(q)) == w.(mem := w.mem.(answer := Some(q)))
  {
  }

  lemma DiscardAt(w: World)
    requires Inv(w) && w.mem.rec.group.Some? && w.mem.rec.group.value.pending.Some?
    requires NoneOfOurs(w.box.log, w.me, w.mem.rec.cursor) && PastAll(w.box.inflight, Epoch(w.box.log))
    ensures Enabled(w, Discard) && Safe(w, Discard)
    ensures Step(w, Discard) == w.(mem := Mem(w.mem.rec.(group := Some(w.mem.rec.group.value.(pending := None))), [], None))
  {
    forall i | w.mem.rec.cursor <= i < |w.box.log| ensures Some(w.box.log[i]) != w.mem.rec.group.value.pending {
      assert !OwnCommit(w.box.log, w.me, i);
    }
  }

  // Nothing another device wrote is left to be read between two positions.
  predicate NothingUnread(log: seq<Item>, me: DeviceId, from: nat, to: nat) {
    forall i :: from <= i < to && i < |log| ==> !GroupLog.ForeignApp(log, me, i)
  }

  lemma NothingBetween(log: seq<Item>, me: DeviceId, from: nat, to: nat)
    ensures from >= to ==> NothingUnread(log, me, from, to)
  {
  }

  lemma ConfirmAt(w: World)
    requires Inv(w) && w.mem.answer.Some? && w.mem.page == []
    requires NothingUnread(w.box.log, w.me, w.mem.rec.cursor, w.mem.answer.value - 1)
    ensures w.mem.rec.group.Some? && w.mem.rec.cursor < w.mem.answer.value && Enabled(w, Confirm) && Safe(w, Confirm)
    ensures Step(w, Confirm) == w.(mem := Mem(w.mem.rec.(group := Some(Merge(w.mem.rec.group.value)), cursor := w.mem.answer.value), [], None))
  {
  }

  lemma CreateAt(w: World)
    requires Inv(w) && w.mem.rec.group.None? && Epoch(w.box.log) == 0
    requires w.mem.page == [] && w.mem.answer.None? && NoneTravels(w.box)
    ensures Enabled(w, Create) && Safe(w, Create)
    ensures Step(w, Create) ==
              w.(mem := w.mem.(rec := Rec(Some(Mls(0, None, w.mem.rec.cursor, [], {})), true, w.mem.rec.cursor)))
  {
  }

  // The commit that a welcome to this device came with.
  predicate Welcomes(x: Item, me: DeviceId) {
    x.Commit? && me in x.adds && x.sender != me
  }

  lemma AnswerMeans(w: World)
    requires Inv(w) && w.mem.answer.Some?
    ensures w.mem.rec.group.Some? && w.mem.rec.group.value.pending.Some?
    ensures w.mem.rec.cursor < w.mem.answer.value <= |w.box.log|
    ensures w.box.log[w.mem.answer.value - 1].Commit? && w.box.log[w.mem.answer.value - 1].sender == w.me
    ensures w.box.log[w.mem.answer.value - 1].epoch == EpochAt(w.box.log, w.mem.answer.value - 1)
  {
  }

  lemma EpochBehind(w: World)
    requires Inv(w) && w.mem.rec.group.Some? && w.mem.rec.group.value.epoch != Epoch(w.box.log)
    ensures w.mem.rec.cursor <= |w.box.log| && exists i :: w.mem.rec.cursor <= i < |w.box.log| && w.box.log[i].Commit?
  {
    if forall i :: w.mem.rec.cursor <= i < |w.box.log| ==> !w.box.log[i].Commit? {
      NoCommitSameEpoch(w.box.log, w.mem.rec.cursor, |w.box.log|);
    }
  }

  lemma PendingMeans(w: World)
    requires Inv(w) && w.mem.rec.group.Some? && w.mem.rec.group.value.pending.Some?
    ensures w.mem.rec.cursor <= |w.box.log|
    ensures var c := w.mem.rec.group.value.pending.value;
            c.Commit? && c.sender == w.me && c.epoch == w.mem.rec.group.value.epoch
  {
  }

  // A request of ours under way changes nothing but `inflight`, and nothing older lands any more ...
  lemma SentOnly(me: DeviceId, a: Postbox, b: Postbox, c: Postbox, cursor: nat, p: Post)
    requires b == a.(inflight := a.inflight + {p}) && Beside(me, b.inflight - {p}, b, c) && p in c.inflight
    requires PastAll(a.inflight, Epoch(a.log)) && NoneOfOurs(a.log, me, cursor) && Sequenced(c.log)
    ensures |a.log| <= |c.log| && c.log[..|a.log|] == a.log && Epoch(a.log) <= Epoch(c.log)
    ensures NoneOfOurs(c.log, me, cursor) && PastAll(c.inflight - {p}, Epoch(c.log))
    ensures Beside(me, a.inflight, a, c.(inflight := c.inflight - {p}))
  {
    assert b.inflight - {p} <= a.inflight;
    assert c.inflight - {p} <= a.inflight;
    hide NoneOfOurs, Epoch;
    BesideMore(me, b.inflight - {p}, a.inflight, b, c);
    NoneOfOursStays(me, a.inflight, b, c, cursor);
    EpochGrows(a.log, c.log);
    PastLater(a.inflight, c.inflight - {p}, Epoch(a.log), Epoch(c.log));
  }

  lemma LongerAfter(me: DeviceId, a: Postbox, b: Postbox)
    requires Elsewhere(me, a, b)
    ensures |a.log| <= |b.log|
  {
  }

  // ... and accepted, it is the only new entry of ours.
  lemma AcceptedOnly(me: DeviceId, a: Postbox, c: Postbox, d: Postbox, e: Postbox, p: Post)
    requires Beside(me, a.inflight, a, c.(inflight := c.inflight - {p}))
    requires d == Postbox(c.log + [p.commit], c.revision + 1, c.deleted, c.inflight - {p}) && Elsewhere(me, d, e)
    requires p.commit.Commit? && p.commit.sender == me && p.commit.epoch == Epoch(c.log)
    requires PastAll(a.inflight, Epoch(a.log))
    ensures OneOwn(me, a, e, |d.log|) && e.log[|d.log| - 1] == p.commit
  {
    AcceptedAlone(me, a, c, d, p);
    hide OneOwn, Beside;
    ElsewhereItself(me, a);
    OneOwnBetween(me, a, a, d, e, |d.log|);
    ElsewhereGrows(me, d, e);
    assert e.log[..|d.log|][|d.log| - 1] == p.commit;
  }

  lemma AcceptedAlone(me: DeviceId, a: Postbox, c: Postbox, d: Postbox, p: Post)
    requires Beside(me, a.inflight, a, c.(inflight := c.inflight - {p}))
    requires d == Postbox(c.log + [p.commit], c.revision + 1, c.deleted, c.inflight - {p})
    requires p.commit.Commit? && p.commit.sender == me && p.commit.epoch == Epoch(c.log)
    requires PastAll(a.inflight, Epoch(a.log))
    ensures OneOwn(me, a, d, |d.log|)
  {
    hide Carried, PastAll;
    EpochGrows(a.log, c.log);
    NotCarried(a.inflight, Epoch(a.log), p.commit);
    EpochAtAppend(c.log, p.commit, |c.log|);
    assert d.log[..|a.log|] == a.log;
  }

  // Losing a race after catching up to `start` means something landed since.
  lemma LostRace(w: World, start: Postbox, revision: nat)
    requires Inv(w) && w.mem.rec.group.Some? && Elsewhere(w.me, start, w.box) && w.mem.rec.cursor >= |start.log|
    requires start.revision <= revision <= w.box.revision
    requires w.box.revision != revision || w.mem.rec.group.value.epoch != Epoch(w.box.log)
    ensures start.revision < w.box.revision
  {
    if w.mem.rec.group.value.epoch != Epoch(w.box.log) {
      EpochBehind(w);
    }
  }

  // Without catching up first, losing a race means that, or that the device is behind.
  lemma LostRaceUnread(w: World, start: Postbox, revision: nat)
    requires Inv(w) && w.mem.rec.group.Some? && Elsewhere(w.me, start, w.box)
    requires start.revision <= revision <= w.box.revision
    requires w.box.revision != revision || w.mem.rec.group.value.epoch != Epoch(w.box.log)
    ensures start.revision < w.box.revision || Behind(w)
  {
    if w.mem.rec.group.value.epoch != Epoch(w.box.log) {
      EpochAtMonotone(w.box.log, w.mem.rec.cursor, |w.box.log|);
    }
  }

  ghost predicate Behind(w: World) {
    w.mem.rec.group.Some? && w.mem.rec.group.value.epoch < Epoch(w.box.log)
  }

  lemma BehindHolds(w: World)
    ensures Behind(w) ==> w.mem.rec.group.Some?
  {
  }

  ghost predicate SameEpoch(a: Option<Mls>, b: Option<Mls>) {
    a.Some? && b.Some? && a.value.epoch == b.value.epoch
  }

  lemma StaysBehind(a: World, b: World)
    requires Elsewhere(a.me, a.box, b.box) && SameEpoch(a.mem.rec.group, b.mem.rec.group) && a.me == b.me
    ensures Behind(a) ==> Behind(b)
  {
    forall i | 0 <= i < |a.box.log| ensures a.box.log[i] == b.box.log[i] {
      assert b.box.log[..|a.box.log|][i] == a.box.log[i];
    }
    SamePrefixSameEpoch(a.box.log, b.box.log, |a.box.log|);
    EpochAtMonotone(b.box.log, |a.box.log|, |b.box.log|);
  }

  lemma HolderIsIn(w: World)
    requires Inv(w)
    ensures w.mem.rec.group.Some? ==> w.mem.rec.inGroup
  {
  }

  ghost predicate NothingLeft(device: Option<Mls>) {
    device.Some? ==> device.value.pending.None?
  }

  // What one attempt added is what all attempts added, since the lost ones added nothing.
  lemma AfterOthers(me: DeviceId, a: Postbox, b: Postbox, c: Postbox)
    requires Elsewhere(me, a, b) && (a == b || PastAll(a.inflight, Epoch(b.log)))
    ensures Elsewhere(me, b, c) ==> Elsewhere(me, a, c)
    ensures forall q :: OneOwn(me, b, c, q) ==> OneOwn(me, a, c, q)
  {
    if Elsewhere(me, b, c) {
      ElsewhereTwice(me, a, b, c);
    }
    if a != b {
      forall q | OneOwn(me, b, c, q) ensures OneOwn(me, a, c, q) {
        ElsewhereItself(me, c);
        OneOwnBetween(me, a, b, c, c, q);
      }
    }
  }

  predicate NoCommitIn(log: seq<Item>, from: nat, to: nat) {
    forall i :: from <= i < to && i < |log| ==> !log[i].Commit?
  }

  // Reading from one position to another drops the pending commit exactly when it passes a commit:
  // the pending one itself, or another device's.
  ghost predicate ReadOn(before: Option<Mls>, after: Option<Mls>, log: seq<Item>, from: nat, to: nat) {
    && (before.None? ==> after.None?)
    && (before.Some? && after.Some? ==>
          after.value.pending == if NoCommitIn(log, from, to) then before.value.pending else None)
  }

  // A commit is left pending exactly when one was pending before and no commit has been read since.
  ghost predicate LeftExactly(before: Option<Mls>, after: Option<Mls>, log: seq<Item>, from: nat, to: nat) {
    && (before.None? ==> after.None?)
    && (!NothingLeft(after) <==> after.Some? && !NothingLeft(before) && NoCommitIn(log, from, to))
  }

  ghost predicate Longer(a: seq<Item>, b: seq<Item>) {
    |a| <= |b| && b[..|a|] == a
  }

  lemma NoCommitLonger(a: seq<Item>, b: seq<Item>, from: nat, to: nat)
    requires Longer(a, b) && to <= |a|
    ensures NoCommitIn(a, from, to) <==> NoCommitIn(b, from, to)
  {
    forall i | 0 <= i < |a| ensures a[i] == b[i] {
      assert b[..|a|][i] == a[i];
    }
  }

  lemma NoCommitTwice(log: seq<Item>, from: nat, mid: nat, to: nat)
    requires from <= mid <= to
    ensures NoCommitIn(log, from, to) <==> NoCommitIn(log, from, mid) && NoCommitIn(log, mid, to)
  {
  }

  lemma NoCommitOne(log: seq<Item>, c: nat)
    requires c < |log|
    ensures NoCommitIn(log, c, c + 1) <==> !log[c].Commit?
  {
  }

  lemma ReadOnItself(x: Option<Mls>, log: seq<Item>, c: nat)
    ensures ReadOn(x, x, log, c, c) && LeftExactly(x, x, log, c, c) && NoCommitIn(log, c, c)
  {
  }

  lemma ReadOnLonger(before: Option<Mls>, after: Option<Mls>, a: seq<Item>, b: seq<Item>, from: nat, to: nat)
    requires ReadOn(before, after, a, from, to) && Longer(a, b) && to <= |a|
    ensures ReadOn(before, after, b, from, to) && LeftExactly(before, after, b, from, to)
  {
    hide NoCommitIn, Longer;
    NoCommitLonger(a, b, from, to);
  }

  lemma ForgottenReadsOn(before: Option<Mls>, log: seq<Item>, from: nat, to: nat)
    ensures ReadOn(before, None, log, from, to)
  {
  }

  lemma ReadOnTwice(x: Option<Mls>, y: Option<Mls>, z: Option<Mls>, log: seq<Item>, from: nat, mid: nat, to: nat)
    requires from <= mid <= to && ReadOn(x, y, log, from, mid) && ReadOn(y, z, log, mid, to)
    ensures ReadOn(x, z, log, from, to)
  {
    hide NoCommitIn;
    NoCommitTwice(log, from, mid, to);
  }

  lemma StillLeft(x: Option<Mls>, y: Option<Mls>, a: seq<Item>, b: seq<Item>, from: nat, to: nat)
    requires LeftExactly(x, y, a, from, to) && Longer(a, b) && to <= |a|
    ensures LeftExactly(x, y, b, from, to)
  {
    hide NoCommitIn, Longer;
    NoCommitLonger(a, b, from, to);
  }

  lemma LeftTwice(x: Option<Mls>, y: Option<Mls>, z: Option<Mls>, a: seq<Item>, b: seq<Item>, from: nat, mid: nat, to: nat)
    requires from <= mid <= to && mid <= |a| && Longer(a, b)
    requires LeftExactly(x, y, a, from, mid) && LeftExactly(y, z, b, mid, to)
    ensures LeftExactly(x, z, b, from, to)
  {
    hide NoCommitIn, Longer;
    NoCommitLonger(a, b, from, mid);
    NoCommitTwice(b, from, mid, to);
  }

  // Once a commit could be built and is gone again, nothing is left.
  lemma NothingLeftAfter(x: Option<Mls>, z: Option<Mls>, a: seq<Item>, b: seq<Item>, from: nat, mid: nat, to: nat)
    requires from <= mid <= to && mid <= |a| && Longer(a, b)
    requires x.Some? && NothingLeft(z) && (NothingLeft(x) || !NoCommitIn(a, from, mid))
    ensures LeftExactly(x, z, b, from, to)
  {
    hide NoCommitIn, Longer;
    NoCommitLonger(a, b, from, mid);
    NoCommitTwice(b, from, mid, to);
  }

  lemma MayBuild(x: Option<Mls>, y: Option<Mls>, log: seq<Item>, from: nat, to: nat)
    requires ReadOn(x, y, log, from, to) && y.Some? && y.value.pending.None?
    ensures x.Some? && (NothingLeft(x) || !NoCommitIn(log, from, to))
  {
  }

  lemma LongerTwice(a: seq<Item>, b: seq<Item>, c: seq<Item>)
    requires Longer(a, b) && Longer(b, c)
    ensures Longer(a, c)
  {
    assert c[..|a|] == c[..|b|][..|a|];
  }

  lemma GrewEitherWay(me: DeviceId, a: Postbox, b: Postbox)
    requires Elsewhere(me, a, b) || exists q :: OneOwn(me, a, b, q)
    ensures Longer(a.log, b.log)
  {
  }

  // A device that may build again has outlived every request that was under way when it started.
  lemma OutlivedAll(a: World, b: World)
    requires Inv(a) && Inv(b) && Longer(a.box.log, b.box.log) && a.mem.rec.group.Some?
    requires a.mem.rec.cursor <= b.mem.rec.cursor
    requires NothingLeft(a.mem.rec.group) || !NoCommitIn(b.box.log, a.mem.rec.cursor, b.mem.rec.cursor)
    ensures PastAll(a.box.inflight, Epoch(b.box.log))
  {
    EpochGrows(a.box.log, b.box.log);
    if NothingLeft(a.mem.rec.group) {
      NothingTravels(a);
    } else {
      PendingMeans(a);
      var c := a.mem.rec.cursor;
      PrefixAt(a.box.log, b.box.log, c);
      var i :| c <= i < b.mem.rec.cursor && i < |b.box.log| && b.box.log[i].Commit?;
      EpochAtMonotone(b.box.log, c, i);
      EpochAtMonotone(b.box.log, i + 1, |b.box.log|);
      TravellingIsPending(a);
    }
  }

  lemma PrefixAt(a: seq<Item>, b: seq<Item>, n: nat)
    requires Longer(a, b) && n <= |a|
    ensures EpochAt(a, n) == EpochAt(b, n)
  {
    forall i | 0 <= i < n ensures a[i] == b[i] {
      assert b[..|a|][i] == a[i];
    }
    SamePrefixSameEpoch(a, b, n);
  }

  lemma TravellingIsPending(w: World)
    requires Inv(w) && w.mem.rec.group.Some? && w.mem.rec.group.value.pending.Some?
    ensures w.mem.rec.cursor <= |w.box.log| && w.mem.rec.group.value.epoch == EpochAt(w.box.log, w.mem.rec.cursor)
    ensures forall p :: p in w.box.inflight ==>
              p.commit.Commit? && (p.commit.epoch < Epoch(w.box.log) || p.commit.epoch == w.mem.rec.group.value.epoch)
  {
  }

  lemma CursorInLog(w: World)
    requires Inv(w)
    ensures w.mem.rec.cursor <= |w.box.log| && w.disk.cursor <= |w.box.log| && Sequenced(w.box.log)
  {
  }

  // The log grew without a message of this device ...
  ghost predicate Quiet(me: DeviceId, a: Postbox, b: Postbox) {
    && |a.log| <= |b.log| && b.log[..|a.log|] == a.log
    && forall i :: |a.log| <= i < |b.log| && b.log[i].App? ==> b.log[i].sender != me
  }

  // ... or with exactly one, at `q`.
  ghost predicate OneMessage(me: DeviceId, a: Postbox, b: Postbox, q: nat, cmid: nat) {
    && |a.log| < q <= |b.log| && b.log[..|a.log|] == a.log
    && b.log[q - 1] == App(me, cmid, EpochAt(b.log, q - 1))
    && forall i :: |a.log| <= i < |b.log| && i != q - 1 && b.log[i].App? ==> b.log[i].sender != me
  }

  lemma OthersAreQuiet(me: DeviceId, a: Postbox, b: Postbox)
    requires Elsewhere(me, a, b) || exists q :: OneOwn(me, a, b, q)
    ensures Quiet(me, a, b)
  {
  }

  lemma QuietTwice(me: DeviceId, a: Postbox, b: Postbox, c: Postbox)
    requires Quiet(me, a, b) && Quiet(me, b, c)
    ensures Quiet(me, a, c)
  {
    forall i | 0 <= i < |b.log| ensures c.log[i] == b.log[i] {
      assert c.log[..|b.log|][i] == b.log[i];
    }
    assert c.log[..|a.log|] == b.log[..|a.log|];
  }

  lemma MessageLanded(me: DeviceId, a: Postbox, b: Postbox, c: Postbox, d: Postbox, cmid: nat)
    requires Quiet(me, a, b) && c.log == b.log + [App(me, cmid, Epoch(b.log))] && Elsewhere(me, c, d)
    ensures OneMessage(me, a, d, |c.log|, cmid)
  {
    OthersAreQuiet(me, c, d);
    forall i | 0 <= i < |c.log| ensures d.log[i] == c.log[i] {
      assert d.log[..|c.log|][i] == c.log[i];
    }
    assert d.log[..|a.log|] == b.log[..|a.log|];
    SamePrefixSameEpoch(b.log, d.log, |b.log|);
  }

  lemma OneMessageAfter(me: DeviceId, a: Postbox, b: Postbox, c: Postbox, q: nat, cmid: nat)
    requires Quiet(me, a, b) && OneMessage(me, b, c, q, cmid)
    ensures OneMessage(me, a, c, q, cmid)
  {
    forall i | 0 <= i < |b.log| ensures c.log[i] == b.log[i] {
      assert c.log[..|b.log|][i] == b.log[i];
    }
    assert c.log[..|a.log|] == b.log[..|a.log|];
  }

  lemma {:induction false} SamePrefixSameEpoch(a: seq<Item>, b: seq<Item>, n: nat)
    requires n <= |a| && n <= |b| && forall i :: 0 <= i < n ==> a[i] == b[i]
    ensures EpochAt(a, n) == EpochAt(b, n)
  {
    if n > 0 {
      SamePrefixSameEpoch(a, b, n - 1);
    }
  }

  lemma AcceptMessageAt(w: World, cmid: nat)
    requires Inv(w)
    ensures Enabled(w, AcceptMessage(cmid, Epoch(w.box.log))) && Safe(w, AcceptMessage(cmid, Epoch(w.box.log)))
    ensures Step(w, AcceptMessage(cmid, Epoch(w.box.log))) ==
              w.(box := w.box.(log := w.box.log + [App(w.me, cmid, Epoch(w.box.log))]))
  {
  }

  // A device that holds the group meets no gap and keeps the group unless it was removed or told to
  // resync.
  ghost predicate Keeps(before: Option<Mls>, after: Option<Mls>, inGroup: bool, r: SyncResult) {
    && (before.Some? ==> !r.SyncGap?) && (before.None? ==> after.None?)
    && (before.Some? && (r.Synced? || r.SyncFailed?) ==> after.Some? && inGroup)
    && (r.Resynced? || r.SyncRemoved? ==> after.None? && !inGroup)
  }

  class PostboxService {
    var box: Postbox
    var nextId: nat

    constructor ()
      ensures box == Postbox([], 0, {}, {})
    {
      box := Postbox([], 0, {}, {});
      nextId := 0;
    }
  }

  datatype SyncResult = Synced | SyncRemoved | SyncGap | Resynced | SyncFailed

  datatype CommitResult =
    | Committed(seqno: nat)  // posted, accepted and merged
    | NothingToDo
    | Conflict               // every attempt lost its race
    | Threw                  // an error other than a lost race reached the caller
    | CatchUpFailed          // accepted, but the read before merging failed
    | MergedEarly(seqno: nat) // accepted and merged over a message that had not been read

  datatype SendResult =
    | Sent(seqno: nat)
    | NotMember
    | SendConflict  // the epoch moved under every attempt
    | SendThrew     // an error reached the caller; the message may or may not be in the log
    | Unsound       // a commit made on the way failed its read after acceptance

  class Client {
    const me: DeviceId
    const service: PostboxService
    var device: Option<Mls>
    var inGroup: bool
    var cursor: nat
    var saved: Rec
    var page: seq<Fetched>
    var answer: Option<nat>

    constructor (me: DeviceId, service: PostboxService)
      ensures this.me == me && this.service == service && fresh(this)
      ensures device == None && !inGroup && cursor == 0 && saved == Rec(None, false, 0) && page == [] && answer == None
    {
      this.me := me;
      this.service := service;
      device, inGroup, cursor, saved, page, answer := None, false, 0, Rec(None, false, 0), [], None;
    }

    function Record(): Rec
      reads this
    {
      Rec(device, inGroup, cursor)
    }

    function W(): World
      reads this, service
    {
      World(me, service.box, Mem(Record(), page, answer), saved, service.nextId)
    }

    // Any await: other parties act any number of times, and the postbox decides requests of an earlier
    // page. Those in `waiting` are this page's own.
    method Await(waiting: set<Post>, ghost w0: World)
      requires Inv(W()) && Reaches(w0, W()) && waiting <= service.box.inflight
      modifies service
      ensures Inv(W()) && Reaches(w0, W()) && waiting <= service.box.inflight
      ensures Beside(me, old(service.box.inflight) - waiting, old(service.box), service.box)
      ensures Elsewhere(me, old(service.box), service.box)
    {
      var n: nat := *;
      ghost var strays := service.box.inflight - waiting;
      ElsewhereItself(me, service.box);
      assert Beside(me, strays, service.box, service.box);
      hide Inv, Reaches, Enabled, Safe, Step, Beside;
      while n > 0
        invariant Inv(W()) && Reaches(w0, W()) && waiting <= service.box.inflight <= old(service.box.inflight)
        invariant Beside(me, strays, old(service.box), service.box)
      {
        var e: Event := *;
        if (IsForeign(e) || IsStray(e, waiting)) && Enabled(W(), e) {
          StepBeside(W(), e, waiting);
          ReachesStep(w0, W(), e);
          var w := Step(W(), e);
          BesideMore(me, service.box.inflight - waiting, strays, service.box, w.box);
          BesideGrows(me, strays, service.box, w.box);
          BesideTwice(me, strays, old(service.box), service.box, w.box);
          service.box, service.nextId := w.box, w.nextId;
        }
        n := n - 1;
      }
      BesideMore(me, strays, old(service.box.inflight), old(service.box), service.box);
    }

    method Persist(ghost w0: World)
      requires Inv(W()) && Reaches(w0, W())
      modifies `saved
      ensures saved == Record()
      ensures Inv(W()) && Reaches(w0, W())
    {
      ReachesStep(w0, W(), GroupProtocol.Persist);
      saved := Record();
    }

    // `processItem`
    method ProcessEntry(f: Fetched) returns (outcome: Outcome)
      modifies `device, `inGroup
      ensures (Record(), outcome) == ProcessItem(me, old(Record()), f)
    {
      if f.item.Notice? {
        return NoticeShown;
      }
      if f.item.Commit? {
        if device.None? {
          return if f.item.sender == me then Thrown else Skipped;
        }
        if f.item.sender == me && device.value.pending.None? {
          return Skipped; // merged when it was accepted
        }
        var (r, m) := ProcessIncoming(me, device.value, f.seqno, f.item);
        if r.FutureEpoch? {
          return Gap;
        }
        if r.GotCommit? || r.OwnConfirmed? {
          device := m;
          return Merged;
        }
        if r.GotRemoved? {
          device, inGroup := None, false;
          return Removed;
        }
        return Skipped;
      }
      if f.deleted {
        if device.Some? && f.item.sender != me {
          device := Some(device.value.(gone := device.value.gone + {f.seqno}));
        }
        return Message;
      }
      if f.item.sender == me {
        return Skipped;
      }
      if device.None? {
        return Message;
      }
      var (r, m) := ProcessIncoming(me, device.value, f.seqno, f.item);
      if r.FutureEpoch? {
        return Gap;
      }
      device := m;
      return Message;
    }
  
    // The body of the reading loop: process the next entry, move the cursor to it, save.
    method TakeEntry(ghost w0: World) returns (outcome: Outcome)
      requires Inv(W()) && Reaches(w0, W()) && Enabled(W(), ProcessNext)
      modifies this
      ensures Inv(W()) && Reaches(w0, W())
      ensures outcome == ProcessItem(me, old(Record()), old(page[0])).1
      ensures answer == old(answer)
      ensures old(device).Some? ==> !outcome.Gap? && !outcome.Thrown?
      ensures old(device).Some? && !outcome.Removed? ==> device.Some? && inGroup
      ensures outcome.Removed? || old(device).None? ==> device.None?
      ensures outcome.Removed? ==> !inGroup
      ensures ReadOn(old(device), device, service.box.log, old(cursor), cursor) && cursor <= |service.box.log|
      ensures if outcome.Thrown? then cursor == old(cursor) else cursor == old(cursor) + 1
      ensures if outcome.Thrown? || outcome.Removed? || outcome.Gap? then page == [] else page == old(page)[1..] && inGroup
    {
      hide Inv, Reaches, Enabled, Safe, Step, ProcessItem, NoCommitIn;
      NextEntry(W());
      NoCommitOne(service.box.log, cursor);
      ReachesStep(w0, W(), ProcessNext);
      ghost var next := Step(W(), ProcessNext);
      var f := page[0];
      ghost var out := ProcessItem(me, Record(), f);
      outcome := ProcessEntry(f);
      assert Record() == out.0 && outcome == out.1;
      if outcome.Thrown? {
        page := [];
      } else {
        cursor := f.seqno;
        page := if outcome.Removed? || outcome.Gap? then [] else page[1..];
      }
      assert W() == next;
      Persist(w0);
    }

    // The postbox no longer serves this device's position (410): forget the group and ask to be
    // added again.
    method ResyncLocked(ghost w0: World)
      requires Inv(W()) && Reaches(w0, W())
      modifies this
      ensures Inv(W()) && Reaches(w0, W())
      ensures device.None? && !inGroup && cursor == old(cursor) && page == [] && answer.None?
    {
      ReachesStep(w0, W(), Leave);
      device, inGroup, page, answer := None, false, [], None;
      Persist(w0);
    }

    // One page of entries. `Synced` means the whole page was processed.
    method ProcessPage(upTo: Option<nat>, ghost w0: World) returns (r: SyncResult, stopped: bool)
      requires Inv(W()) && Reaches(w0, W()) && inGroup
      requires answer.Some? ==> upTo == Some(answer.value - 1)
      modifies this, service
      ensures Inv(W()) && Reaches(w0, W()) && Elsewhere(me, old(service.box), service.box)
      ensures answer == old(answer) && old(cursor) <= cursor && page == []
      ensures Keeps(old(device), device, inGroup, r)
      ensures ReadOn(old(device), device, service.box.log, old(cursor), cursor)
      ensures r.Synced? ==> inGroup && cursor <= old(cursor + |page|)
      ensures r.Synced? && stopped ==> upTo.Some? && cursor >= upTo.value
      ensures r.Synced? && !stopped ==> cursor == old(cursor + |page|)
      ensures !r.Resynced?
    {
      hide Inv, Reaches, Enabled, Safe, Step, ProcessItem, Elsewhere, Processed, ReadOn, Beside;
      ElsewhereItself(me, service.box);
      ReadOnItself(device, service.box.log, cursor);
      stopped := false;
      while page != []
        invariant Inv(W()) && Reaches(w0, W()) && inGroup
        invariant Elsewhere(me, old(service.box), service.box)
        invariant answer == old(answer) && old(cursor) <= cursor
        invariant cursor + |page| == old(cursor + |page|)
        invariant Keeps(old(device), device, inGroup, Synced)
        invariant ReadOn(old(device), device, service.box.log, old(cursor), cursor)
        decreases |page|
      {
        PageHead(W()); // no entry of the page is at or before the cursor
        if upTo.Some? && page[0].seqno > upTo.value {
          stopped := true;
          break;
        }
        ghost var held, at := device, cursor;
        var outcome := TakeEntry(w0);
        ReadOnTwice(old(device), held, device, service.box.log, old(cursor), at, cursor);
        if outcome.Removed? {
          return SyncRemoved, false;
        }
        if outcome.Gap? {
          return SyncGap, false;
        }
        if outcome.Thrown? {
          return SyncFailed, false;
        }
        ghost var before := service.box;
        CursorInLog(W());
        Await({}, w0);
        ElsewhereGrows(me, before, service.box);
        ReadOnLonger(old(device), device, before.log, service.box.log, old(cursor), cursor);
        ElsewhereTwice(me, old(service.box), before, service.box);
      }
      EndReadAt(W());
      ReachesStep(w0, W(), EndRead);
      page := [];
      return Synced, stopped;
    }

    // The postbox takes the commit and answers with its place in the log.
    method Accepted(p: Post, ghost box0: Postbox, ghost w0: World) returns (seqno: Option<nat>)
      requires Inv(W()) && Reaches(w0, W()) && page == [] && answer.None?
      requires device.Some? && device.value.pending == Some(p.commit) && p.commit.Commit? && p.commit.sender == me && cursor <= |service.box.log|
      requires p in service.box.inflight && p.commit.epoch == Epoch(service.box.log) && p.revision == service.box.revision
      requires PastAll(box0.inflight, Epoch(box0.log))
      requires Beside(me, box0.inflight, box0, service.box.(inflight := service.box.inflight - {p}))
      modifies service, `answer
      ensures Inv(W()) && Reaches(w0, W()) && answer == seqno
      ensures seqno.Some? && OneOwn(me, box0, service.box, seqno.value)
    {
      hide Inv, Reaches, Enabled, Safe, Step, Elsewhere, Beside, OneOwn, Epoch, PastAll;
      AcceptAt(W(), p);
      ReachesStep(w0, W(), Accept(p));
      ghost var box2 := service.box;
      service.box := Postbox(service.box.log + [p.commit], service.box.revision + 1, service.box.deleted, service.box.inflight - {p});
      var q := |service.box.log|;
      ghost var box3 := service.box;
      Await({}, w0);
      AcceptedOnly(me, box0, box2, box3, service.box, p);
      LongerAfter(me, box3, service.box);
      AnswerAt(W(), q);
      ReachesStep(w0, W(), Answer(q));
      answer := Some(q);
      return Some(q);
    }

    // Read everything after the cursor in sequence order, up to `upTo` when given. `seen` is the
    // postbox as the last page of the read saw it.
    method SyncLocked(upTo: Option<nat>, ghost w0: World) returns (r: SyncResult, ghost seen: Postbox)
      requires Inv(W()) && Reaches(w0, W()) && page == []
      requires answer.Some? ==> upTo == Some(answer.value - 1)
      modifies this, service
      ensures Inv(W()) && Reaches(w0, W()) && page == []
      ensures Elsewhere(me, old(service.box), service.box)
      ensures old(cursor) <= cursor
      ensures if r.Resynced? then answer.None? else answer == old(answer)
      ensures Keeps(old(device), device, inGroup, r)
      ensures ReadOn(old(device), device, service.box.log, old(cursor), cursor)
      // a completed read reached `upTo`, or the end of the log as its last page saw it (unless the
      // log is more than a hundred thousand entries ahead)
      ensures Elsewhere(me, old(service.box), seen) && Elsewhere(me, seen, service.box)
      ensures r.Synced? && old(inGroup) && cursor < old(cursor) + PAGE * MAX_PAGES ==>
                (upTo.Some? && cursor >= upTo.value) || cursor >= |seen.log|
    {
      hide Inv, Reaches, Enabled, Safe, Step, ProcessItem, Elsewhere, ReadPage, ReadOn, Beside;
      ElsewhereItself(me, service.box);
      ReadOnItself(device, service.box.log, cursor);
      seen := service.box;
      if !inGroup {
        OutsideHoldsNothing(W());
        return Synced, seen;
      }
      for n := 0 to MAX_PAGES
        invariant Inv(W()) && Reaches(w0, W()) && page == [] && inGroup
        invariant Elsewhere(me, old(service.box), service.box)
        invariant answer == old(answer)
        invariant cursor >= old(cursor) + PAGE * n
        invariant Keeps(old(device), device, inGroup, Synced)
        invariant ReadOn(old(device), device, service.box.log, old(cursor), cursor)
        invariant Elsewhere(me, old(service.box), seen) && Elsewhere(me, seen, service.box)
      {
        ghost var before := service.box;
        CursorInLog(W());
        Await({}, w0);
        ElsewhereGrows(me, before, service.box);
        ReadOnLonger(old(device), device, before.log, service.box.log, old(cursor), cursor);
        ElsewhereTwice(me, old(service.box), before, service.box);
        seen := service.box;
        ElsewhereItself(me, seen);
        var status: nat := *;
        if status == 410 {
          ResyncLocked(w0);
          ForgottenReadsOn(old(device), service.box.log, old(cursor), cursor);
          return Resynced, seen;
        }
        if status != 200 {
          return SyncFailed, seen;
        }
        FetchAt(W());
        ReachesStep(w0, W(), Fetch);
        page := ReadPage(service.box, cursor);
        var more := cursor + PAGE < |service.box.log|;
        ghost var held, at := device, cursor;
        var end, stopped := ProcessPage(upTo, w0);
        ElsewhereGrows(me, seen, service.box);
        ReadOnLonger(old(device), held, seen.log, service.box.log, old(cursor), at);
        ReadOnTwice(old(device), held, device, service.box.log, old(cursor), at, cursor);
        ElsewhereTwice(me, old(service.box), seen, service.box);
        if !end.Synced? {
          return end, seen;
        }
        if stopped || !more {
          break;
        }
      }
      return Synced, seen;
    }
  
    // POST commits: the postbox takes the commit only at the current epoch and revision. An error
    // answer means it was not taken.
    method PostCommit(revision: nat, ghost w0: World) returns (seqno: Option<nat>, conflict: bool)
      requires Inv(W()) && Reaches(w0, W()) && page == [] && answer.None?
      requires device.Some? && device.value.pending.Some? && saved == Record()
      requires NoneOfOurs(service.box.log, me, cursor) && PastAll(service.box.inflight, Epoch(service.box.log))
      modifies service, `answer
      ensures Inv(W()) && Reaches(w0, W()) && answer == seqno
      ensures seqno.Some? ==> OneOwn(me, old(service.box), service.box, seqno.value)
      ensures seqno.Some? ==> !old(Behind(W()))
      ensures seqno.None? ==> Elsewhere(me, old(service.box), service.box) && NoneOfOurs(service.box.log, me, cursor)
      ensures seqno.None? ==> PastAll(service.box.inflight, Epoch(service.box.log))
      ensures seqno.None? && conflict ==> service.box.revision != revision || device.value.epoch != Epoch(service.box.log)
    {
      hide Inv, Reaches, Enabled, Safe, Step, Elsewhere, Beside, OneOwn, NoneOfOurs, Epoch, PastAll;
      PendingMeans(W());
      var p := Post(device.value.pending.value, revision);
      SendAt(W(), revision);
      ReachesStep(w0, W(), Send(revision));
      ghost var box0 := service.box;
      service.box := service.box.(inflight := service.box.inflight + {p});
      ghost var box1 := service.box;
      Await({p}, w0);
      CursorInLog(W());
      SentOnly(me, box0, box1, service.box, cursor, p);
      var ok: bool := *;
      if p.commit.epoch == Epoch(service.box.log) && revision == service.box.revision && ok {
        seqno := Accepted(p, box0, w0);
        return seqno, false;
      }
      RefuseAt(W(), p);
      ReachesStep(w0, W(), Refuse(p));
      service.box := service.box.(inflight := service.box.inflight - {p});
      assert Elsewhere(me, box0, service.box) by { BesideIsElsewhere(me, box0, service.box); }
      var told: bool := *; // or any other refusal
      conflict := told && (p.commit.epoch != Epoch(service.box.log) || revision != service.box.revision);
      return None, conflict;
    }

    // The library builds a commit at the device's epoch and keeps it pending.
    method BuildCommit(adds: set<DeviceId>, removes: set<DeviceId>, ghost w0: World)
      requires Inv(W()) && Reaches(w0, W()) && page == [] && answer.None?
      requires device.Some? && device.value.pending.None? && me !in removes
      modifies `device, service`nextId
      ensures Inv(W()) && Reaches(w0, W()) && NoneOfOurs(service.box.log, me, cursor)
      ensures PastAll(service.box.inflight, Epoch(service.box.log))
      ensures device.Some? && device.value.pending.Some? && device.value.(pending := None) == old(device).value
    {
      hide Inv, Reaches, Enabled, Safe, Step, NoneOfOurs, PastAll;
      BuildAt(W(), adds, removes);
      ReachesStep(w0, W(), Build(adds, removes));
      device := Some(device.value.(pending := Some(Commit(me, service.nextId, device.value.epoch, adds, removes))));
      service.nextId := service.nextId + 1;
    }

    // `discardCommit`, after an answer that means "not accepted"
    method DropCommit(ghost w0: World)
      requires Inv(W()) && Reaches(w0, W()) && page == [] && answer.None?
      requires device.Some? && device.value.pending.Some? && NoneOfOurs(service.box.log, me, cursor)
      requires PastAll(service.box.inflight, Epoch(service.box.log))
      modifies `device, `saved
      ensures Inv(W()) && Reaches(w0, W())
      ensures device == Some(old(device).value.(pending := None)) && saved == Record()
    {
      hide Inv, Reaches, Enabled, Safe, Step, NoneOfOurs, PastAll;
      DiscardAt(W());
      ReachesStep(w0, W(), Discard);
      device := Some(device.value.(pending := None));
      Persist(w0);
    }

    // The rest of `commitLocked` once a commit is accepted: read what was sequenced before it (an
    // activation has nothing to read), merge, save. The merge is sound when no message was missed.
    method MergeAccepted(activation: bool, ghost w0: World) returns (r: CommitResult)
      requires Inv(W()) && Reaches(w0, W()) && page == [] && answer.Some?
      modifies this, service
      ensures Elsewhere(me, old(service.box), service.box) && page == [] && answer.None? && old(cursor) <= cursor
      ensures r == Committed(old(answer.value)) || r == MergedEarly(old(answer.value)) || r.Threw? || r.CatchUpFailed?
      ensures r.Threw? || r.Committed? ==> Inv(W()) && Reaches(w0, W())
      ensures r.Committed? ==> device.Some? && saved == Record() && old(answer).value == cursor
      ensures r.MergedEarly? && !activation ==> cursor >= old(cursor) + PAGE * MAX_PAGES
      ensures activation ==> (r.Committed? <==> NothingUnread(old(service.box.log), me, old(cursor), old(answer).value - 1))
      ensures activation ==> r.Committed? || r.MergedEarly?
      ensures NothingLeft(device)
    {
      hide Inv, Reaches, Enabled, Safe, Step, Elsewhere, Beside, ReadOn, NothingUnread;
      var q := answer.value;
      AnswerMeans(W());
      HolderIsIn(W());
      ElsewhereItself(me, service.box);
      if !activation {
        ghost var seen;
        var s;
        s, seen := SyncLocked(Some(q - 1), w0);
        ElsewhereGrows(me, old(service.box), seen);
        ElsewhereGrows(me, old(service.box), service.box);
        if s.Resynced? {
          return Threw; // no group left to merge into
        }
        AnswerMeans(W());
        if s.SyncFailed? {
          device, answer := Some(device.value.(pending := None)), None;
          saved := Record();
          return CatchUpFailed;
        }
      }
      NothingBetween(service.box.log, me, cursor, q - 1);
      if NothingUnread(service.box.log, me, cursor, q - 1) {
        ConfirmAt(W());
        ReachesStep(w0, W(), Confirm);
        device, cursor, answer := Some(Merge(device.value)), q, None;
        Persist(w0);
        return Committed(q);
      }
      device, cursor, answer := Some(Merge(device.value)), q, None;
      saved := Record();
      return MergedEarly(q);
    }

    // The first half of an attempt: catch up, ask what is to be committed, build it and save. The
    // creator of a group that is not active yet cannot read it, and does not try. `seen` is the postbox
    // as the catch-up last saw it, for an activation as it was when asked.
    method Prepare(activation: bool, ghost w0: World) returns (ready: bool, r: CommitResult, revision: nat, ghost seen: Postbox)
      requires Inv(W()) && Reaches(w0, W()) && page == [] && answer.None?
      modifies this, service
      ensures Inv(W()) && Reaches(w0, W()) && page == [] && answer.None?
      ensures Elsewhere(me, old(service.box), service.box) && old(cursor) <= cursor
      ensures Elsewhere(me, old(service.box), seen) && Elsewhere(me, seen, service.box)
      // a reloaded pending commit stands in the way until a commit has been read
      ensures !ready ==> LeftExactly(old(device), device, service.box.log, old(cursor), cursor)
      ensures ready ==> old(device).Some? && (NothingLeft(old(device)) || !NoCommitIn(service.box.log, old(cursor), cursor))
      ensures activation && !ready ==> device == old(device) && cursor == old(cursor)
      ensures !ready ==> r.NothingToDo? || r.Threw?
      ensures ready ==> device.Some? && device.value.pending.Some? && saved == Record() && NoneOfOurs(service.box.log, me, cursor)
      ensures ready ==> PastAll(service.box.inflight, Epoch(service.box.log)) && PastAll(old(service.box.inflight), Epoch(service.box.log))
      ensures ready ==> seen.revision <= revision <= service.box.revision
      ensures ready && activation ==> SameEpoch(old(device), device) && cursor == old(cursor) && NothingLeft(old(device))
      ensures ready && !activation && cursor < old(cursor) + PAGE * MAX_PAGES ==> cursor >= |seen.log|
    {
      hide Inv, Reaches, Enabled, Safe, Step, Elsewhere, Beside, NoneOfOurs, ReadOn, LeftExactly, NoCommitIn, PastAll, Epoch;
      ghost var start := W();
      HolderIsIn(W());
      ElsewhereItself(me, service.box);
      ReadOnItself(device, service.box.log, cursor);
      seen := service.box;
      if !activation {
        var s;
        s, seen := SyncLocked(None, w0);
        CursorInLog(W());
        ReadOnLonger(old(device), device, service.box.log, service.box.log, old(cursor), cursor);
        if s.SyncFailed? {
          return false, Threw, 0, seen;
        }
      }
      if !inGroup {
        return false, NothingToDo, 0, seen;
      }
      ghost var synced := service.box;
      CursorInLog(W());
      Await({}, w0);
      ElsewhereTwice(me, old(service.box), synced, service.box);
      ElsewhereTwice(me, seen, synced, service.box);
      ElsewhereGrows(me, synced, service.box);
      ReadOnLonger(old(device), device, synced.log, service.box.log, old(cursor), cursor);
      if activation {
        seen := service.box;
        ElsewhereItself(me, seen);
      }
      var planned: bool, failed: bool := *, *;
      if failed {
        return false, Threw, 0, seen;
      }
      if !planned {
        return false, NothingToDo, 0, seen;
      }
      revision := service.box.revision;
      ElsewhereGrows(me, seen, service.box);
      ghost var read := service.box;
      CursorInLog(W());
      Await({}, w0); // key packages are claimed
      ElsewhereGrows(me, read, service.box);
      ElsewhereTwice(me, old(service.box), read, service.box);
      ElsewhereTwice(me, seen, read, service.box);
      ReadOnLonger(old(device), device, read.log, service.box.log, old(cursor), cursor);
      if device.None? || device.value.pending.Some? {
        return false, Threw, 0, seen; // the library has no such group, or refuses a second pending commit
      }
      MayBuild(old(device), device, service.box.log, old(cursor), cursor);
      ReadOnItself(device, service.box.log, cursor);
      ElsewhereGrows(me, old(service.box), service.box);
      OutlivedAll(start, W());
      var adds: set<DeviceId>, removes: set<DeviceId> := *, *;
      BuildCommit(adds, removes - {me}, w0);
      Persist(w0);
      return true, Threw, revision, seen;
    }

    // One attempt of the retry loop. `lost` means another change won the race.
    method Attempt(activation: bool, ghost w0: World) returns (lost: bool, r: CommitResult, ghost seen: Postbox)
      requires Inv(W()) && Reaches(w0, W()) && page == [] && answer.None?
      modifies this, service
      ensures page == [] && answer.None? && old(cursor) <= cursor
      ensures LeftExactly(old(device), device, service.box.log, old(cursor), cursor)
      ensures activation && !NothingLeft(old(device)) ==> !lost && device == old(device) && (r.NothingToDo? || r.Threw?)
      ensures activation && old(Behind(W())) ==>
                !r.Committed? && !r.MergedEarly? && Elsewhere(me, old(service.box), service.box) && SameEpoch(old(device), device)
      ensures lost ==> Inv(W()) && Reaches(w0, W()) && Elsewhere(me, old(service.box), service.box)
      ensures lost ==> PastAll(old(service.box.inflight), Epoch(service.box.log))
      // a lost race means a change since the catch-up's last page, or an activation that is behind
      ensures lost ==> Elsewhere(me, old(service.box), seen) && Elsewhere(me, seen, service.box)
      ensures lost && cursor < old(cursor) + PAGE * MAX_PAGES ==>
                (!activation ==> cursor >= |seen.log|)
                && (seen.revision < service.box.revision || (activation && Behind(W())))
      ensures lost && activation ==> SameEpoch(old(device), device)
      ensures !lost ==> !r.Conflict?
      ensures !lost && !r.CatchUpFailed? && !r.MergedEarly? ==> Inv(W()) && Reaches(w0, W())
      ensures !lost ==> Elsewhere(me, old(service.box), service.box) || exists q :: OneOwn(me, old(service.box), service.box, q)
      ensures !lost && r.Committed? ==> OneOwn(me, old(service.box), service.box, r.seqno) && r.seqno == cursor && saved == Record()
    {
      hide Inv, Reaches, Enabled, Safe, Step, Elsewhere, Beside, OneOwn, NoneOfOurs, Epoch, Behind, LeftExactly, NoCommitIn, PastAll;
      ghost var start := W();
      BehindHolds(W());
      var ready, revision;
      ready, r, revision, seen := Prepare(activation, w0);
      if !ready {
        return false, r, seen;
      }
      ghost var posting, at := W(), cursor;
      CursorInLog(W());
      if activation {
        StaysBehind(start, W());
      }
      var seqno, conflict := PostCommit(revision, w0);
      if seqno.Some? {
        ghost var accepted := service.box;
        OneOwnGrows(me, posting.box, accepted, seqno.value);
        r := MergeAccepted(activation, w0);
        ElsewhereGrows(me, accepted, service.box);
        LongerTwice(posting.box.log, accepted.log, service.box.log);
        NothingLeftAfter(old(device), device, posting.box.log, service.box.log, old(cursor), at, cursor);
        OneOwnBetween(me, old(service.box), posting.box, accepted, service.box, seqno.value);
        return false, r, seen;
      }
      ElsewhereGrows(me, posting.box, service.box);
      EpochGrows(posting.box.log, service.box.log);
      PastLater(old(service.box.inflight), old(service.box.inflight), Epoch(posting.box.log), Epoch(service.box.log));
      ElsewhereTwice(me, old(service.box), posting.box, service.box);
      ElsewhereTwice(me, seen, posting.box, service.box);
      DropCommit(w0);
      NothingLeftAfter(old(device), device, posting.box.log, service.box.log, old(cursor), at, cursor);
      if conflict && activation {
        LostRaceUnread(W(), seen, revision);
      } else if conflict && cursor < old(cursor) + PAGE * MAX_PAGES {
        LostRace(W(), seen, revision);
      }
      return conflict, Threw, seen;
    }

    // The retry loop: an attempt that lost its race is dropped and made again from the newer log.
    method CommitLocked(activation: bool, ghost w0: World) returns (r: CommitResult)
      requires Inv(W()) && Reaches(w0, W()) && page == [] && answer.None?
      modifies this, service
      ensures page == [] && answer.None? && old(cursor) <= cursor
      // sound, except where the read after acceptance failed or could not keep up
      ensures !r.CatchUpFailed? && !r.MergedEarly? ==> Inv(W()) && Reaches(w0, W())
      // at most one new entry of this device is added, and exactly one when it reports so
      ensures Elsewhere(me, old(service.box), service.box) || exists q :: OneOwn(me, old(service.box), service.box, q)
      ensures r.Committed? ==> OneOwn(me, old(service.box), service.box, r.seqno) && r.seqno == cursor && saved == Record()
      // a commit is left pending exactly when one was pending at the start and no commit was read; an
      // activation reads nothing and so leaves it as it is
      ensures LeftExactly(old(device), device, service.box.log, old(cursor), cursor)
      ensures activation && !NothingLeft(old(device)) ==> device == old(device) && (r.NothingToDo? || r.Threw?)
      // giving up means six competing changes landed, one in each attempt after its catch-up; an
      // activation, which never catches up, can also give up because the group had moved on without
      // it, and then never succeeds
      ensures r.Conflict? && cursor < old(cursor) + PAGE * MAX_PAGES ==>
                service.box.revision >= old(service.box.revision) + MAX_RETRIES || (activation && Behind(W()))
      ensures activation && old(Behind(W())) ==>
                !r.Committed? && !r.MergedEarly? && Elsewhere(me, old(service.box), service.box) && Behind(W())
    {
      hide Inv, Reaches, Enabled, Safe, Step, Elsewhere, Beside, OneOwn, Behind, LeftExactly, PastAll, Epoch;
      ghost var first := W();
      ElsewhereItself(me, service.box);
      ReadOnItself(device, service.box.log, cursor);
      for attempt := 0 to MAX_RETRIES
        invariant Inv(W()) && Reaches(w0, W()) && page == [] && answer.None?
        invariant Elsewhere(me, old(service.box), service.box) && old(cursor) <= cursor
        invariant if attempt == 0 then W() == first else PastAll(old(service.box.inflight), Epoch(service.box.log))
        invariant LeftExactly(old(device), device, service.box.log, old(cursor), cursor)
        invariant activation && !NothingLeft(old(device)) ==> attempt == 0
        invariant activation && old(Behind(W())) ==> Behind(W())
        invariant cursor < old(cursor) + PAGE * MAX_PAGES ==>
                    service.box.revision >= old(service.box.revision) + attempt || (activation && Behind(W()))
      {
        ghost var start := W();
        CursorInLog(W());
        var lost;
        ghost var seen;
        lost, r, seen := Attempt(activation, w0);
        if !lost {
          BehindHolds(start);
          AfterOthers(me, old(service.box), start.box, service.box);
          GrewEitherWay(me, start.box, service.box);
          LeftTwice(old(device), start.mem.rec.group, device, start.box.log, service.box.log, old(cursor), start.mem.rec.cursor, cursor);
          if activation && Elsewhere(me, start.box, service.box) && SameEpoch(start.mem.rec.group, device) {
            StaysBehind(start, W());
          }
          return r;
        }
        if activation {
          StaysBehind(start, W());
        }
        ElsewhereGrows(me, old(service.box), start.box);
        ElsewhereGrows(me, start.box, seen);
        ElsewhereGrows(me, start.box, service.box);
        LeftTwice(old(device), start.mem.rec.group, device, start.box.log, service.box.log, old(cursor), start.mem.rec.cursor, cursor);
        if attempt > 0 {
          EpochGrows(start.box.log, service.box.log);
          PastLater(old(service.box.inflight), old(service.box.inflight), Epoch(start.box.log), Epoch(service.box.log));
        }
        ElsewhereTwice(me, old(service.box), start.box, service.box);
      }
      return Conflict;
    }

    // Create the MLS group of a provisioning row, unless the device holds it already, and post the
    // commit that activates it.
    method Activate(ghost w0: World) returns (r: CommitResult)
      requires Inv(W()) && Reaches(w0, W()) && page == [] && answer.None?
      // a device without the group starts over: nobody has activated the row, nor will this device
      requires device.None? ==> Epoch(service.box.log) == 0 && NoneTravels(service.box)
      modifies this, service
      ensures page == [] && answer.None?
      ensures !r.CatchUpFailed? && !r.MergedEarly? ==> Inv(W()) && Reaches(w0, W())
      ensures Elsewhere(me, old(service.box), service.box) || exists q :: OneOwn(me, old(service.box), service.box, q)
      // nothing is read, so a commit is left pending exactly when one was pending before
      ensures NothingLeft(device) <==> NothingLeft(old(device))
      ensures !NothingLeft(old(device)) ==> device == old(device) && (r.NothingToDo? || r.Threw?)
      ensures old(Behind(W())) ==> !r.Committed? && !r.MergedEarly? && Elsewhere(me, old(service.box), service.box) && Behind(W())
    {
      hide Inv, Reaches, Enabled, Safe, Step, Elsewhere, Beside, OneOwn, NoneTravels;
      if device.None? {
        CreateAt(W());
        ReachesStep(w0, W(), Create);
        device, inGroup := Some(Mls(0, None, cursor, [], {})), true;
        Persist(w0);
      }
      r := CommitLocked(true, w0);
    }

    // One welcome: forget what the device held of the group, join at the welcome's position, save.
    // Sound exactly for a welcome that no commit of this device's own has overtaken, nor still can.
    method ProcessWelcome(seqno: nat, opens: bool, ghost w0: World) returns (joined: bool)
      requires Inv(W()) && Reaches(w0, W()) && page == [] && answer.None?
      requires 1 <= seqno <= |service.box.log| && Welcomes(service.box.log[seqno - 1], me)
      modifies this
      ensures joined == opens && page == [] && answer.None? && saved == Record()
      ensures if joined then Record() == Rec(Some(Mls(EpochAt(service.box.log, seqno), None, seqno, [], {})), true, seqno)
              else device.None? && inGroup == old(inGroup) && cursor == old(cursor)
      ensures joined && Inv(W()) ==> NoneOfOurs(service.box.log, me, seqno) && NoneTravels(service.box)
      ensures !joined || (NoneOfOurs(service.box.log, me, seqno) && NoneTravels(service.box)) ==> Inv(W()) && Reaches(w0, W())
    {
      hide Inv, Reaches, Step, Enabled, Safe, NoneOfOurs, NoneTravels, EpochAt, Welcomes;
      JoinedKeepsOnlyWhen(W(), seqno);
      if !opens {
        FailJoinAt(W());
        ReachesStep(w0, W(), FailJoin);
        device := None;
        Persist(w0);
        return false;
      }
      JoinAt(W(), seqno);
      ghost var sound := NoneOfOurs(service.box.log, me, seqno) && NoneTravels(service.box);
      if sound {
        ReachesStep(w0, W(), Join(seqno));
      }
      device, inGroup, cursor := Some(Mls(EpochAt(service.box.log, seqno), None, seqno, [], {})), true, seqno;
      PersistAt(W());
      if sound {
        ReachesStep(w0, W(), GroupProtocol.Persist);
      }
      saved := Record();
      return true;
    }

    // `init` after the page died at any await: all that is left is the saved record.
    method Reload(ghost w0: World)
      requires Inv(W()) && Reaches(w0, W())
      modifies this
      ensures W() == Step(old(W()), Crash) && Inv(W()) && Reaches(w0, W())
    {
      ReachesStep(w0, W(), Crash);
      device, inGroup, cursor, page, answer := saved.group, saved.inGroup, saved.cursor, [], None;
    }

    // POST messages: taken only at the current epoch. The answer may be lost.
    method PostMessage(cmid: nat, epoch: nat, ghost w0: World) returns (seqno: Option<nat>, heard: bool)
      requires Inv(W()) && Reaches(w0, W())
      modifies service
      ensures Inv(W()) && Reaches(w0, W()) && Longer(old(service.box.log), service.box.log)
      ensures seqno.Some? ==> OneMessage(me, old(service.box), service.box, seqno.value, cmid)
      ensures seqno.None? ==> Elsewhere(me, old(service.box), service.box)
    {
      hide Inv, Reaches, Enabled, Safe, Step, Elsewhere, Beside, Epoch, Quiet, OneMessage;
      Await({}, w0);
      ElsewhereGrows(me, old(service.box), service.box);
      var ok: bool := *;
      if epoch != Epoch(service.box.log) || !ok {
        return None, true;
      }
      OthersAreQuiet(me, old(service.box), service.box);
      ghost var before := service.box;
      AcceptMessageAt(W(), cmid);
      ReachesStep(w0, W(), AcceptMessage(cmid, epoch));
      service.box := service.box.(log := service.box.log + [App(me, cmid, epoch)]);
      ghost var taken := service.box;
      var q := |service.box.log|;
      Await({}, w0);
      ElsewhereGrows(me, taken, service.box);
      LongerTwice(before.log, taken.log, service.box.log);
      LongerTwice(old(service.box.log), before.log, service.box.log);
      MessageLanded(me, old(service.box), before, taken, service.box, cmid);
      heard := *;
      return Some(q), heard;
    }

    // Encrypt at the current epoch and post; on an epoch conflict catch up and encrypt again under the
    // same id, and when a removal is waiting for its commit, make that commit first.
    method SendLocked(cmid: nat, ghost w0: World) returns (r: SendResult)
      requires Inv(W()) && Reaches(w0, W()) && page == [] && answer.None?
      modifies this, service
      ensures !r.Unsound? ==> Inv(W()) && Reaches(w0, W()) && page == [] && answer.None?
      // one message at most, at the epoch in force at its sequence number
      ensures Quiet(me, old(service.box), service.box) || exists q :: OneMessage(me, old(service.box), service.box, q, cmid)
      ensures r.Sent? ==> OneMessage(me, old(service.box), service.box, r.seqno, cmid)
      ensures r.NotMember? || r.SendConflict? || r.Unsound? ==> Quiet(me, old(service.box), service.box)
      // a commit is left pending exactly when one was pending at the start and no commit was read
      ensures LeftExactly(old(device), device, service.box.log, old(cursor), cursor)
    {
      hide Inv, Reaches, Enabled, Safe, Step, Elsewhere, Beside, OneOwn, Quiet, OneMessage, LeftExactly, ReadOn;
      ElsewhereItself(me, service.box);
      OthersAreQuiet(me, service.box, service.box);
      ReadOnItself(device, service.box.log, cursor);
      for attempt := 0 to MAX_RETRIES
        invariant Inv(W()) && Reaches(w0, W()) && page == [] && answer.None? && old(cursor) <= cursor
        invariant Quiet(me, old(service.box), service.box)
        invariant LeftExactly(old(device), device, service.box.log, old(cursor), cursor)
      {
        ghost var start := W();
        CursorInLog(W());
        var s, _ := SyncLocked(None, w0);
        ElsewhereGrows(me, start.box, service.box);
        OthersAreQuiet(me, start.box, service.box);
        QuietTwice(me, old(service.box), start.box, service.box);
        CursorInLog(W());
        ReadOnLonger(start.mem.rec.group, device, service.box.log, service.box.log, start.mem.rec.cursor, cursor);
        LeftTwice(old(device), start.mem.rec.group, device, start.box.log, service.box.log, old(cursor), start.mem.rec.cursor, cursor);
        if s.SyncFailed? {
          return SendThrew;
        }
        if !inGroup {
          return NotMember;
        }
        if device.None? {
          return SendThrew; // the library has no such group
        }
        Persist(w0);
        ghost var posting := service.box;
        var seqno, heard := PostMessage(cmid, device.value.epoch, w0);
        StillLeft(old(device), device, posting.log, service.box.log, old(cursor), cursor);
        if seqno.Some? {
          OneMessageAfter(me, old(service.box), posting, service.box, seqno.value, cmid);
          return if heard then Sent(seqno.value) else SendThrew;
        }
        OthersAreQuiet(me, posting, service.box);
        QuietTwice(me, old(service.box), posting, service.box);
        var status: nat := *;
        if status == 0 {
          return SendThrew;
        }
        if status == 1 {
          ghost var before := W();
          CursorInLog(W());
          var c := CommitLocked(false, w0); // key_activation_pending
          OthersAreQuiet(me, before.box, service.box);
          QuietTwice(me, old(service.box), before.box, service.box);
          GrewEitherWay(me, before.box, service.box);
          LeftTwice(old(device), before.mem.rec.group, device, before.box.log, service.box.log, old(cursor), before.mem.rec.cursor, cursor);
          if c.CatchUpFailed? || c.MergedEarly? {
            return Unsound;
          }
          if c.Threw? || c.Conflict? {
            return SendThrew;
          }
        }
      }
      return SendConflict;
    }
  }
}
