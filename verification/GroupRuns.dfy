// What the step theorem gives for whole runs: the epoch, exactly-once delivery, crash consistency,
// and the concrete runs that break when an unsafe step is taken.
module GroupRuns {
  import opened Common
  import opened GroupLog
  import opened GroupProtocol

  // Every step is enabled where it is taken.
  ghost predicate Possible(w: World, es: seq<Event>)
    decreases |es|
  {
    es == [] || (Enabled(w, es[0]) && Possible(Step(w, es[0]), es[1..]))
  }

  ghost function Exec(w: World, es: seq<Event>): World
    requires Possible(w, es)
    decreases |es|
  {
    if es == [] then w else Exec(Step(w, es[0]), es[1..])
  }

  // A possible run all of whose steps are safe.
  ghost predicate SafeRun(w: World, es: seq<Event>)
    decreases |es|
  {
    es == [] || (Enabled(w, es[0]) && Safe(w, es[0]) && SafeRun(Step(w, es[0]), es[1..]))
  }

  // A device that has not joined yet, facing a group with any honest past.
  ghost predicate Start(w: World) {
    && Sequenced(w.box.log) && w.box.inflight == {}
    && w.mem == Mem(Rec(None, false, 0), [], None)
    && w.disk == w.mem.rec
  }

  lemma StartIsSound(w: World)
    requires Start(w)
    ensures Inv(w)
  {
  }

  lemma SafeRunsArePossible(w: World, es: seq<Event>)
    requires SafeRun(w, es)
    ensures Possible(w, es)
    decreases |es|
  {
    if es != [] {
      SafeRunsArePossible(Step(w, es[0]), es[1..]);
    }
  }

  // Crashing is part of the alphabet, so this covers a crash at any point of any run.
  lemma {:induction false} SafeRunKeepsInv(w: World, es: seq<Event>)
    requires Inv(w) && SafeRun(w, es)
    ensures Possible(w, es) && Inv(Exec(w, es))
    decreases |es|
  {
    SafeRunsArePossible(w, es);
    if es != [] {
      StepKeepsExactlyWhenSafe(w, es[0]);
      SafeRunKeepsInv(Step(w, es[0]), es[1..]);
    }
  }

  // The first unsafe step of a run is exactly where the invariant is lost.
  lemma {:induction false} FirstUnsafeStepLosesInv(w: World, es: seq<Event>, e: Event)
    requires Inv(w) && SafeRun(w, es) && Possible(w, es) && Enabled(Exec(w, es), e) && !Safe(Exec(w, es), e)
    ensures !Inv(Step(Exec(w, es), e))
  {
    SafeRunKeepsInv(w, es);
    StepKeepsExactlyWhenSafe(Exec(w, es), e);
  }

  // ---- epochs -----------------------------------------------------------------------------------

  ghost function CommitsIn(log: seq<Item>, from: nat, to: nat): set<nat>
    requires to <= |log|
  {
    set i | from <= i < to && log[i].Commit?
  }

  lemma {:induction false} EpochCountsCommits(log: seq<Item>, from: nat, to: nat)
    requires from <= to <= |log|
    ensures EpochAt(log, to) == EpochAt(log, from) + |CommitsIn(log, from, to)|
  {
    if from < to {
      EpochCountsCommits(log, from, to - 1);
      var rest := CommitsIn(log, from, to - 1);
      assert CommitsIn(log, from, to) == if log[to - 1].Commit? then rest + {to - 1} else rest;
      assert to - 1 !in rest;
    } else {
      assert CommitsIn(log, from, to) == {};
    }
  }

  // After any safe run the device is at its joining epoch plus the number of commits sequenced
  // after its join point and up to its cursor; and so is the device the saved record would restore.
  lemma {:induction false} EpochOfEveryRun(w0: World, es: seq<Event>)
    requires Start(w0) && SafeRun(w0, es) && Possible(w0, es)
    ensures var w := Exec(w0, es);
            forall r :: r in {w.mem.rec, w.disk} && r.group.Some? ==>
              var m := r.group.value;
              && m.joinSeq <= r.cursor <= |w.box.log|
              && m.epoch == EpochAt(w.box.log, m.joinSeq) + |CommitsIn(w.box.log, m.joinSeq, r.cursor)|
  {
    SafeRunKeepsInv(w0, es);
    var w := Exec(w0, es);
    forall r | r in {w.mem.rec, w.disk} && r.group.Some?
      ensures var m := r.group.value;
              && m.joinSeq <= r.cursor <= |w.box.log|
              && m.epoch == EpochAt(w.box.log, m.joinSeq) + |CommitsIn(w.box.log, m.joinSeq, r.cursor)|
    {
      EpochCountsCommits(w.box.log, r.group.value.joinSeq, r.cursor);
    }
  }

  lemma {:induction false} EpochOnlyGrows(w: World, es: seq<Event>)
    requires Possible(w, es)
    ensures Epoch(w.box.log) <= Epoch(Exec(w, es).box.log)
    decreases |es|
  {
    if es != [] {
      var w' := Step(w, es[0]);
      if w'.box.log != w.box.log {
        EpochAtAppend(w.box.log, w'.box.log[|w.box.log|], |w.box.log|);
        assert w'.box.log == w.box.log + [w'.box.log[|w.box.log|]];
      }
      EpochOnlyGrows(w', es[1..]);
    }
  }

  // A commit built behind the group's epoch is never accepted, however often it is posted: only
  // reading the log gets the device out. (An activation does not read before it tries again.)
  lemma {:induction false} StaleCommitNeverAccepted(w: World, es: seq<Event>, p: Post)
    requires Possible(w, es) && p.commit.Commit? && p.commit.epoch < Epoch(w.box.log)
    ensures !Enabled(Exec(w, es), Accept(p))
  {
    EpochOnlyGrows(w, es);
  }

  // ---- delivery ---------------------------------------------------------------------------------

  // After any safe run, what the device consumed is every other device's message between its join
  // point and its cursor, once, in order, and each at the epoch it was encrypted in; the only
  // messages left out are ones the postbox had deleted before they were read.
  lemma {:induction false} ExactlyOnceInEveryRun(w0: World, es: seq<Event>)
    requires Start(w0) && SafeRun(w0, es) && Possible(w0, es)
    ensures var w := Exec(w0, es);
            w.mem.rec.group.Some? ==>
              var m := w.mem.rec.group.value;
              && Ascending(m.handed) && m.gone <= w.box.deleted && w.mem.rec.cursor <= |w.box.log|
              && forall h :: h in m.handed <==>
                   && m.joinSeq < h.seqno <= w.mem.rec.cursor && GroupLog.ForeignApp(w.box.log, w.me, h.seqno - 1)
                   && h.seqno !in m.gone && h.epoch == w.box.log[h.seqno - 1].epoch
  {
    SafeRunKeepsInv(w0, es);
    var w := Exec(w0, es);
    if w.mem.rec.group.Some? {
      var m := w.mem.rec.group.value;
      DeliveriesMeaning(w.box.log, w.me, m.joinSeq, w.mem.rec.cursor, m.gone);
    }
  }

  // The "gap" outcome cannot happen to a device that holds the group.
  lemma {:induction false} GapUnreachable(w0: World, es: seq<Event>)
    requires Start(w0) && SafeRun(w0, es) && Possible(w0, es)
    requires Enabled(Exec(w0, es), ProcessNext) && Exec(w0, es).mem.rec.group.Some?
    ensures var w := Exec(w0, es);
            var outcome := ProcessItem(w.me, w.mem.rec, w.mem.page[0]).1;
            !outcome.Gap? && !outcome.Thrown?
  {
    SafeRunKeepsInv(w0, es);
    NextEntryFits(Exec(w0, es));
  }

  // ---- crashes ----------------------------------------------------------------------------------

  // Read the rest of the log, as `syncLocked` does when nothing else happens meanwhile.
  ghost function CatchUp(box: Postbox, me: DeviceId, r: Rec): Rec
    requires r.cursor <= |box.log|
    decreases |box.log| - r.cursor
  {
    if !r.inGroup || r.cursor == |box.log| then r
    else
      var f := Fetched(r.cursor + 1, box.log[r.cursor], r.cursor + 1 in box.deleted);
      var (r', outcome) := ProcessItem(me, r, f);
      if outcome.Thrown? then r
      else if outcome.Removed? || outcome.Gap? then r'.(cursor := f.seqno)
      else CatchUp(box, me, r'.(cursor := f.seqno))
  }

  ghost predicate RemovesMe(box: Postbox, me: DeviceId, i: nat)
    requires i < |box.log|
  {
    box.log[i].Commit? && me in box.log[i].removes
  }

  // The record after one more entry.
  ghost function ReadOne(box: Postbox, me: DeviceId, r: Rec): Rec
    requires r.cursor < |box.log|
  {
    Processed(me, Mem(r, [Fetched(r.cursor + 1, box.log[r.cursor], r.cursor + 1 in box.deleted)], None)).rec
  }

  ghost function OneEntry(box: Postbox, me: DeviceId, r: Rec): World
    requires r.cursor < |box.log|
  {
    World(me, box, Mem(r, [Fetched(r.cursor + 1, box.log[r.cursor], r.cursor + 1 in box.deleted)], None), r, 0)
  }

  lemma {:induction false} ReadOneIsSound(box: Postbox, me: DeviceId, r: Rec)
    requires BoxOk(box, me) && Holds(box, me, r) && Covers(box, me, r) && r.group.Some? && r.cursor < |box.log|
    ensures Holds(box, me, ReadOne(box, me, r)) && Covers(box, me, ReadOne(box, me, r))
    ensures Inv(OneEntry(box, me, r)) && Enabled(OneEntry(box, me, r), ProcessNext)
  {
    hide ProcessItem, Processed;
    ProcessNextKeeps(OneEntry(box, me, r));
  }

  lemma {:induction false} ReadOneShape(box: Postbox, me: DeviceId, r: Rec)
    requires BoxOk(box, me) && Holds(box, me, r) && Covers(box, me, r) && r.group.Some? && r.cursor < |box.log|
    ensures var n := ReadOne(box, me, r);
            && n.cursor == r.cursor + 1
            && CatchUp(box, me, r) == (if n.group.Some? then CatchUp(box, me, n) else n)
            && (if RemovesMe(box, me, r.cursor) then n.group.None? && !n.inGroup
                else n.group.Some? && n.group.value.joinSeq == r.group.value.joinSeq)
            && (n.group.Some? && (OwnCommit(box.log, me, r.cursor) || r.group.value.pending.None?) ==> n.group.value.pending.None?)
  {
    ReadOneIsSound(box, me, r);
    NextEntryFits(OneEntry(box, me, r));
    HeldPendingIsSane(box, me, r);
    hide Holds, Covers, BoxOk, Inv, Enabled;
  }

  lemma HeldPendingIsSane(box: Postbox, me: DeviceId, r: Rec)
    requires Holds(box, me, r) && r.group.Some?
    ensures r.inGroup && r.cursor <= |box.log|
    ensures r.group.value.pending.Some? ==> me !in r.group.value.pending.value.removes
  {
  }

  // A sound record, caught up, either holds the whole log or stopped at the commit removing it.
  lemma {:induction false} CatchUpReadsEverything(box: Postbox, me: DeviceId, r: Rec)
    requires BoxOk(box, me) && Holds(box, me, r) && Covers(box, me, r) && r.group.Some?
    ensures var c := CatchUp(box, me, r);
            && Holds(box, me, c) && r.cursor <= c.cursor
            && (c.group.Some? ==> c.cursor == |box.log| && c.group.value.joinSeq == r.group.value.joinSeq
                                  && c.group.value.epoch == Epoch(box.log))
            && (c.group.None? ==> !c.inGroup && r.cursor < c.cursor && RemovesMe(box, me, c.cursor - 1)
                                  && forall i :: r.cursor <= i < c.cursor - 1 ==> !RemovesMe(box, me, i))
    decreases |box.log| - r.cursor
  {
    if r.cursor < |box.log| {
      hide Holds, Covers, BoxOk, ReadOne;
      ReadOneIsSound(box, me, r);
      ReadOneShape(box, me, r);
      if ReadOne(box, me, r).group.Some? {
        CatchUpReadsEverything(box, me, ReadOne(box, me, r));
      }
    }
  }

  ghost function StillThere(handed: seq<Handed>, deleted: set<nat>): seq<Handed> {
    if handed == [] then []
    else StillThere(handed[..|handed| - 1], deleted)
         + (if handed[|handed| - 1].seqno in deleted then [] else [handed[|handed| - 1]])
  }

  lemma {:induction false} StillThereOfDeliveries(log: seq<Item>, me: DeviceId, from: nat, to: nat, gone: set<nat>, deleted: set<nat>)
    requires to <= |log| && gone <= deleted
    ensures StillThere(Deliveries(log, me, from, to, gone), deleted) == Deliveries(log, me, from, to, deleted)
  {
    if from < to {
      StillThereOfDeliveries(log, me, from, to - 1, gone, deleted);
      var d0 := Deliveries(log, me, from, to - 1, gone);
      if GroupLog.ForeignApp(log, me, to - 1) && to !in gone {
        var h := Handed(to, EpochAt(log, to - 1));
        assert (d0 + [h])[..|d0|] == d0;
      } else {
        assert Deliveries(log, me, from, to, gone) == d0;
      }
    }
  }

  // The same position, epoch and consumed messages, up to messages deleted since.
  ghost predicate SameState(box: Postbox, a: Rec, b: Rec) {
    && a.cursor == b.cursor && a.inGroup == b.inGroup && a.group.Some? == b.group.Some?
    && (a.group.Some? ==>
          var x, y := a.group.value, b.group.value;
          && x.epoch == y.epoch && x.joinSeq == y.joinSeq
          && StillThere(x.handed, box.deleted) == StillThere(y.handed, box.deleted)
          && (box.deleted == {} ==> x.handed == y.handed))
  }

  // Crash consistency: at any point of any safe run, reloading the saved record and reading on ends
  // in the same state as reading on without the crash (as long as the record is of the same joining).
  lemma {:induction false} ReloadReachesTheSameState(w0: World, es: seq<Event>)
    requires Start(w0) && SafeRun(w0, es) && Possible(w0, es)
    requires var w := Exec(w0, es);
             && w.mem.rec.group.Some? && w.disk.group.Some?
             && w.mem.rec.group.value.joinSeq == w.disk.group.value.joinSeq
    ensures var w := Exec(w0, es);
            && w.mem.rec.cursor <= |w.box.log| && w.disk.cursor <= |w.box.log|
            && SameState(w.box, CatchUp(w.box, w.me, w.mem.rec), CatchUp(w.box, w.me, Step(w, Crash).mem.rec))
  {
    hide Start, SafeRun, Possible, Exec, Covers, BoxOk, CatchUp, SameState;
    StartIsSound(w0);
    SafeRunKeepsInv(w0, es);
    var w := Exec(w0, es);
    TwoRecordsAgree(w.box, w.me, w.mem.rec, w.disk);
  }

  lemma {:induction false} TwoRecordsAgree(box: Postbox, me: DeviceId, a: Rec, b: Rec)
    requires BoxOk(box, me) && Holds(box, me, a) && Covers(box, me, a) && Holds(box, me, b) && Covers(box, me, b)
    requires a.group.Some? && b.group.Some? && a.group.value.joinSeq == b.group.value.joinSeq
    ensures SameState(box, CatchUp(box, me, a), CatchUp(box, me, b))
  {
    var x, y := CatchUp(box, me, a), CatchUp(box, me, b);
    CatchUpReadsEverything(box, me, a);
    CatchUpReadsEverything(box, me, b);
    StopsAtSamePlace(box, me, a, b);
    StopsAtSamePlace(box, me, b, a);
    if x.group.Some? && y.group.Some? {
      var j := x.group.value.joinSeq;
      StillThereOfDeliveries(box.log, me, j, |box.log|, x.group.value.gone, box.deleted);
      StillThereOfDeliveries(box.log, me, j, |box.log|, y.group.value.gone, box.deleted);
      assert box.deleted == {} ==> x.group.value.gone == {} && y.group.value.gone == {};
    }
  }

  lemma {:induction false} StopsAtSamePlace(box: Postbox, me: DeviceId, a: Rec, b: Rec)
    requires BoxOk(box, me) && Holds(box, me, a) && Covers(box, me, a) && Holds(box, me, b) && Covers(box, me, b)
    requires a.group.Some? && b.group.Some? && a.group.value.joinSeq == b.group.value.joinSeq
    ensures CatchUp(box, me, a).cursor <= CatchUp(box, me, b).cursor
    ensures CatchUp(box, me, a).group.Some? ==> CatchUp(box, me, b).group.Some?
  {
    CatchUpReadsEverything(box, me, a);
    CatchUpReadsEverything(box, me, b);
    var x, y := CatchUp(box, me, a), CatchUp(box, me, b);
    if y.group.None? {
      // the commit that stopped b is after the common join point, so a met it too
      assert RemovesMe(box, me, y.cursor - 1);
    }
  }

  // A commit that was accepted just before a crash is merged on reload, through the pending commit
  // in the saved record: the device ends in the postbox's own epoch.
  lemma {:induction false} AcceptedCommitSurvivesCrash(w0: World, es: seq<Event>, q: nat)
    requires Start(w0) && SafeRun(w0, es) && Possible(w0, es)
    requires var w := Exec(w0, es);
             && w.disk.group.Some? && w.disk.cursor < q <= |w.box.log| && OwnCommit(w.box.log, w.me, q - 1)
             && forall i :: w.disk.cursor <= i < |w.box.log| ==> !RemovesMe(w.box, w.me, i)
    ensures var w := Exec(w0, es);
            && w.disk.cursor <= |w.box.log|
            && var c := CatchUp(w.box, w.me, Step(w, Crash).mem.rec);
               && c.group.Some? && c.cursor == |w.box.log| && c.group.value.epoch == Epoch(w.box.log)
               && c.group.value.pending.None?
  {
    hide Start, SafeRun, Possible, Exec, Covers, BoxOk, CatchUp;
    StartIsSound(w0);
    SafeRunKeepsInv(w0, es);
    var w := Exec(w0, es);
    CatchUpReadsEverything(w.box, w.me, w.disk);
    MergedIsNotPending(w.box, w.me, w.disk, q);
  }

  lemma {:induction false} MergedIsNotPending(box: Postbox, me: DeviceId, r: Rec, q: nat)
    requires BoxOk(box, me) && Holds(box, me, r) && Covers(box, me, r) && r.group.Some?
    requires r.cursor < q <= |box.log| && OwnCommit(box.log, me, q - 1)
    requires CatchUp(box, me, r).group.Some?
    ensures CatchUp(box, me, r).group.value.pending.None?
    decreases |box.log| - r.cursor
  {
    hide Holds, Covers, BoxOk, ReadOne;
    ReadOneIsSound(box, me, r);
    ReadOneShape(box, me, r);
    if r.cursor + 1 < q {
      MergedIsNotPending(box, me, ReadOne(box, me, r), q);
    } else {
      NothingPendingStays(box, me, ReadOne(box, me, r));
    }
  }

  lemma {:induction false} NothingPendingStays(box: Postbox, me: DeviceId, r: Rec)
    requires BoxOk(box, me) && Holds(box, me, r) && Covers(box, me, r) && r.group.Some? && r.group.value.pending.None?
    ensures r.cursor <= |box.log|
    ensures CatchUp(box, me, r).group.Some? ==> CatchUp(box, me, r).group.value.pending.None?
    decreases |box.log| - r.cursor
  {
    if r.cursor < |box.log| {
      hide Holds, Covers, BoxOk, ReadOne;
      ReadOneIsSound(box, me, r);
      ReadOneShape(box, me, r);
      if ReadOne(box, me, r).group.Some? {
        NothingPendingStays(box, me, ReadOne(box, me, r));
      }
    }
  }

  // ---- the runs that break ------------------------------------------------------------------------

  ghost function EmptyWorld(log: seq<Item>): World {
    World(0, Postbox(log, 0, {}, {}), Mem(Rec(None, false, 0), [], None), Rec(None, false, 0), 10)
  }

  lemma ExecSnoc(w: World, es: seq<Event>, e: Event)
    requires Possible(w, es) && Enabled(Exec(w, es), e)
    ensures Possible(w, es + [e]) && Exec(w, es + [e]) == Step(Exec(w, es), e)
    decreases |es|
  {
    if es == [] {
      assert [e][1..] == [];
      assert Exec(Step(w, e), []) == Step(w, e);
    } else {
      assert (es + [e])[1..] == es[1..] + [e];
      ExecSnoc(Step(w, es[0]), es[1..], e);
    }
  }

  // Extend a run by one step whose effect is known.
  lemma Took(w0: World, es: seq<Event>, w: World, e: Event, next: World) returns (longer: seq<Event>)
    requires Possible(w0, es) && Exec(w0, es) == w && Enabled(w, e) && Step(w, e) == next
    ensures Possible(w0, longer) && Exec(w0, longer) == next
  {
    longer := es + [e];
    ExecSnoc(w0, es, e);
  }

  // A member with a saved pending commit that the postbox has just accepted.
  ghost function AcceptedWorld(log: seq<Item>, mine: Item, epoch: nat, cursor: nat): World {
    var rec := Rec(Some(Mls(epoch, Some(mine), cursor, [], {})), true, cursor);
    World(0, Postbox(log + [mine], 1, {}, {}), Mem(rec, [], None), rec, 11)
  }

  lemma CommitAccepted(w0: World, es: seq<Event>, log: seq<Item>, epoch: nat, cursor: nat, adds: set<DeviceId>)
    returns (longer: seq<Event>)
    requires Possible(w0, es) && cursor == |log| && epoch == Epoch(log)
    requires var rec := Rec(Some(Mls(epoch, None, cursor, [], {})), true, cursor);
             && Exec(w0, es).me == 0 && Exec(w0, es).box == Postbox(log, 0, {}, {})
             && Exec(w0, es).mem == Mem(rec, [], None) && Exec(w0, es).nextId == 10
    ensures Possible(w0, longer)
    ensures Exec(w0, longer) == AcceptedWorld(log, Commit(0, 10, epoch, adds, {}), epoch, cursor)
  {
    var mine := Commit(0, 10, epoch, adds, {});
    var w := Exec(w0, es);
    var rec := Rec(Some(Mls(epoch, Some(mine), cursor, [], {})), true, cursor);
    var w1 := World(0, w.box, Mem(rec, [], None), w.disk, 11);
    longer := Took(w0, es, w, Build(adds, {}), w1);
    var w2 := w1.(disk := rec);
    longer := Took(w0, longer, w1, Persist, w2);
    var w3 := w2.(box := Postbox(log, 0, {}, {Post(mine, 0)}));
    longer := Took(w0, longer, w2, Send(0), w3);
    longer := Took(w0, longer, w3, Accept(Post(mine, 0)), AcceptedWorld(log, mine, epoch, cursor));
  }

  // Dropping a pending commit that is already in the log: reading on, the device skips its own
  // commit, stays an epoch behind, and the next message of another device is a gap.
  lemma {:induction false} DroppedCommitIsSkipped(w: World)
    requires Sequenced(w.box.log) && Holds(w.box, w.me, w.mem.rec) && w.mem.rec.group.Some? && w.mem.page == []
    requires w.mem.rec.cursor + 1 < |w.box.log|
    requires w.mem.rec.group.value.pending == Some(w.box.log[w.mem.rec.cursor])
    requires GroupLog.ForeignApp(w.box.log, w.me, w.mem.rec.cursor + 1) && w.mem.rec.cursor + 2 !in w.box.deleted
    ensures Possible(w, [Discard, Fetch, ProcessNext])
    ensures var w' := Exec(w, [Discard, Fetch, ProcessNext]);
            && w'.box == w.box && w'.me == w.me && w'.mem.rec.group.Some? && w'.mem.rec.cursor == w.mem.rec.cursor + 1
            && w'.mem.rec.group.value.epoch + 1 == EpochAt(w.box.log, w'.mem.rec.cursor)
            && w'.mem.page != [] && ProcessItem(w.me, w'.mem.rec, w'.mem.page[0]).1.Gap?
  {
    var c := w.mem.rec.cursor;
    var w1 := Step(w, Discard);
    var w2 := Step(w1, Fetch);
    assert w2.mem.page[0] == Fetched(c + 1, w.box.log[c], c + 1 in w.box.deleted);
    assert w2.mem.page[1] == Fetched(c + 2, w.box.log[c + 1], false);
    OwnCommitSkipped(w.me, w2.mem);
    hide Possible, Exec, Processed, ReadPage;
    ThreeSteps(w, Discard, Fetch, ProcessNext);
    NextMessageIsAhead(w, c);
  }

  // An own commit that is not pending any more is skipped.
  lemma OwnCommitSkipped(me: DeviceId, mem: Mem)
    requires |mem.page| > 1 && mem.rec.group.Some? && mem.rec.group.value.pending.None?
    requires mem.page[0].item.Commit? && mem.page[0].item.sender == me
    ensures Processed(me, mem) == mem.(rec := mem.rec.(cursor := mem.page[0].seqno), page := mem.page[1..])
  {
  }

  // So the message behind it is of an epoch this device never entered.
  lemma NextMessageIsAhead(w: World, c: nat)
    requires Sequenced(w.box.log) && Holds(w.box, w.me, w.mem.rec) && w.mem.rec.group.Some? && c == w.mem.rec.cursor
    requires c + 1 < |w.box.log| && w.box.log[c].Commit? && GroupLog.ForeignApp(w.box.log, w.me, c + 1)
    ensures w.mem.rec.group.value.epoch + 1 == EpochAt(w.box.log, c + 1)
    ensures var rec := w.mem.rec.(group := Some(w.mem.rec.group.value.(pending := None)), cursor := c + 1);
            ProcessItem(w.me, rec, Fetched(c + 2, w.box.log[c + 1], false)).1.Gap?
  {
  }

  // Joining from a welcome that an own commit follows: the cursor goes back to the welcome, the own
  // commit is skipped as if it had been merged, and the device stays an epoch behind.
  lemma {:induction false} OldWelcomeSkipsOwnCommit(w: World, q: nat)
    requires Sequenced(w.box.log) && Enabled(w, Join(q)) && q < |w.box.log| && OwnCommit(w.box.log, w.me, q)
    ensures Possible(w, [Join(q), Fetch, ProcessNext])
    ensures var w' := Exec(w, [Join(q), Fetch, ProcessNext]);
            && w'.box == w.box && w'.mem.rec.group.Some? && w'.mem.rec.cursor == q + 1
            && w'.mem.rec.group.value.epoch + 1 == EpochAt(w.box.log, w'.mem.rec.cursor)
  {
    var w1 := Step(w, Join(q));
    var w2 := Step(w1, Fetch);
    assert w2.mem.page[0] == Fetched(q + 1, w.box.log[q], q + 1 in w.box.deleted);
    ThreeSteps(w, Join(q), Fetch, ProcessNext);
  }

  lemma ThreeSteps(w: World, a: Event, b: Event, c: Event)
    requires Enabled(w, a) && Enabled(Step(w, a), b) && Enabled(Step(Step(w, a), b), c)
    ensures Possible(w, [a, b, c]) && Exec(w, [a, b, c]) == Step(Step(Step(w, a), b), c)
  {
    var x, y, z := Step(w, a), Step(Step(w, a), b), Step(Step(Step(w, a), b), c);
    assert Possible(z, []) && Exec(z, []) == z;
    assert [c][1..] == [];
    assert Possible(y, [c]) && Exec(y, [c]) == z;
    assert [b, c][1..] == [c];
    assert Possible(x, [b, c]) && Exec(x, [b, c]) == z;
    assert [a, b, c][1..] == [b, c];
  }

  // Both happen: from a fresh device, a run reaches a state where the first lemma applies (the answer
  // to an accepted commit was lost) ...
  lemma LostAnswerRun() returns (w0: World, es: seq<Event>)
    ensures Start(w0) && Possible(w0, es)
    ensures var w := Exec(w0, es);
            && Sequenced(w.box.log) && Holds(w.box, w.me, w.mem.rec) && w.mem.rec.group.Some? && w.mem.page == []
            && w.mem.rec.cursor + 1 < |w.box.log|
            && w.mem.rec.group.value.pending == Some(w.box.log[w.mem.rec.cursor])
            && GroupLog.ForeignApp(w.box.log, w.me, w.mem.rec.cursor + 1) && w.mem.rec.cursor + 2 !in w.box.deleted
  {
    w0 := EmptyWorld([]);
    var mine, hello := Commit(0, 10, 0, {1}, {}), App(1, 7, 1);
    es := Took(w0, [], w0, Create, w0.(mem := Mem(Rec(Some(Mls(0, None, 0, [], {})), true, 0), [], None)));
    es := CommitAccepted(w0, es, [], 0, 0, {1});
    var w := AcceptedWorld([], mine, 0, 0);
    assert w.box.log == [mine] && EpochAt([mine], 0) == 0 && EpochAt([mine], 1) == 1;
    assert [mine] + [hello] == [mine, hello];
    es := Took(w0, es, w, ForeignMessage(1, 7), w.(box := w.box.(log := [mine, hello])));
    assert EpochAt([mine, hello], 0) == 0 && EpochAt([mine, hello], 1) == 1;
  }

  // ... and one where the second does (the acknowledgement of the welcome was lost, so it is served
  // again after the device made a commit of its own).
  lemma OldWelcomeRun() returns (w0: World, es: seq<Event>)
    ensures Start(w0) && Possible(w0, es)
    ensures var w := Exec(w0, es);
            Sequenced(w.box.log) && Enabled(w, Join(1)) && |w.box.log| == 2 && OwnCommit(w.box.log, w.me, 1)
  {
    var added, mine := Commit(1, 0, 0, {0}, {}), Commit(0, 10, 1, {}, {});
    w0 := EmptyWorld([added]);
    assert EpochAt([added], 0) == 0 && EpochAt([added], 1) == 1;
    es := Took(w0, [], w0, Join(1), w0.(mem := Mem(Rec(Some(Mls(1, None, 1, [], {})), true, 1), [], None)));
    es := CommitAccepted(w0, es, [added], 1, 1, {});
    assert [added] + [mine] == [added, mine];
    assert EpochAt([added, mine], 0) == 0 && EpochAt([added, mine], 1) == 1;
  }
}
