// A page can die after it saved a pending commit and before the postbox took it. The library builds no
// second commit beside a pending one, and only a page that built a commit confirms or drops it, so
// the reloaded device cannot commit until it reads a commit or gives the group up.
module GroupPending {
  import opened Common
  import opened GroupLog
  import opened GroupProtocol
  import opened GroupRuns
  import opened GroupClient

  // Memory and saved record both hold the pending commit, and no answer is expected.
  ghost predicate Stuck(w: World, c: Item) {
    && w.mem.rec.group.Some? && w.mem.rec.group.value.pending == Some(c)
    && w.disk.group.Some? && w.disk.group.value.pending == Some(c)
    && w.mem.answer.None?
  }

  // Reading a commit, joining anew, forgetting the group.
  predicate Frees(w: World, e: Event) {
    e.Join? || e.FailJoin? || e.Leave? || (e.ProcessNext? && w.mem.page != [] && w.mem.page[0].item.Commit?)
  }

  // A page posts, confirms and drops only what it built itself.
  predicate OwnBuilds(es: seq<Event>, built: bool) {
    es == [] || ((es[0].Send? || es[0].Answer? || es[0].Discard? ==> built)
                 && OwnBuilds(es[1..], es[0].Build? || (built && !es[0].Crash?)))
  }

  ghost predicate NothingFrees(w: World, es: seq<Event>)
    decreases |es|
  {
    es == [] || (Enabled(w, es[0]) && !Frees(w, es[0]) && NothingFrees(Step(w, es[0]), es[1..]))
  }

  lemma ReadingFrees(w: World, c: Item)
    requires Inv(w) && Stuck(w, c) && Enabled(w, ProcessNext)
    ensures Stuck(Step(w, ProcessNext), c) <==> !Frees(w, ProcessNext)
    ensures Frees(w, ProcessNext) ==> NothingLeft(Step(w, ProcessNext).mem.rec.group)
  {
    hide Inv, Enabled, Step, ProcessItem;
    NextEntry(w);
    ReadingTakesOne(w);
  }

  lemma ReadingTakesOne(w: World)
    requires Enabled(w, ProcessNext)
    ensures w.mem.page != [] && Step(w, ProcessNext).disk == w.disk && Step(w, ProcessNext).mem.answer == w.mem.answer
    ensures var out := ProcessItem(w.me, w.mem.rec, w.mem.page[0]);
            Step(w, ProcessNext).mem.rec.group == if out.1.Thrown? then w.mem.rec.group else out.0.group
    ensures var out := ProcessItem(w.me, w.mem.rec, w.mem.page[0]);
            w.mem.rec.group.Some? && !w.mem.page[0].item.Commit? ==> out.0.group.Some?
  {
  }

  // One step: the commit stays in the way exactly unless the step frees the device of it.
  lemma StuckStep(w: World, e: Event, c: Item)
    requires Inv(w) && Stuck(w, c) && Enabled(w, e) && !e.Answer? && !e.Discard?
    ensures !e.Build?
    ensures Stuck(Step(w, e), c) <==> !Frees(w, e)
    ensures Frees(w, e) ==> NothingLeft(Step(w, e).mem.rec.group)
    ensures !Frees(w, e) ==> Inv(Step(w, e))
  {
    hide Inv, Step, Enabled, Stuck, Frees, Safe;
    if e.ProcessNext? {
      ReadingFrees(w, c);
    } else {
      OtherSteps(w, e, c);
    }
    StuckIsSafe(w, e, c);
    StepKeepsExactlyWhenSafe(w, e);
  }

  lemma OtherSteps(w: World, e: Event, c: Item)
    requires Stuck(w, c) && Enabled(w, e) && !e.Answer? && !e.Discard? && !e.ProcessNext?
    ensures Stuck(Step(w, e), c) <==> !Frees(w, e)
    ensures Frees(w, e) ==> NothingLeft(Step(w, e).mem.rec.group)
  {
  }

  lemma StuckIsSafe(w: World, e: Event, c: Item)
    requires Stuck(w, c) && Enabled(w, e) && !e.Discard?
    ensures !e.Build? && (!Frees(w, e) ==> Safe(w, e))
  {
  }

  // Every run: nothing is built until a step frees the device, however often it is reloaded, reads
  // messages, or the postbox decides the old request.
  lemma {:induction false} StuckUntilFreed(w: World, es: seq<Event>, c: Item)
    requires Inv(w) && Stuck(w, c) && OwnBuilds(es, false) && NothingFrees(w, es)
    ensures Possible(w, es) && Stuck(Exec(w, es), c) && Inv(Exec(w, es))
    ensures forall k :: 0 <= k < |es| ==> !es[k].Build?
    ensures forall adds, removes :: !Enabled(Exec(w, es), Build(adds, removes))
    decreases |es|
  {
    if es == [] {
    } else {
      StuckStep(w, es[0], c);
      hide Inv, Stuck, Enabled, Step, Frees;
      StuckUntilFreed(Step(w, es[0]), es[1..], c);
    }
  }

  lemma SafelyTook(w0: World, es: seq<Event>, w: World, e: Event, next: World) returns (longer: seq<Event>)
    requires SafeRun(w0, es) && Possible(w0, es) && Exec(w0, es) == w
    requires Enabled(w, e) && Safe(w, e) && Step(w, e) == next
    ensures longer == es + [e] && SafeRun(w0, longer) && Possible(w0, longer) && Exec(w0, longer) == next
  {
    longer := es + [e];
    SafeRunSnoc(w0, es, e);
  }

  lemma NoSteps(w: World)
    ensures SafeRun(w, []) && Possible(w, []) && Exec(w, []) == w
  {
  }

  function Saved(c: Item): Rec {
    Rec(Some(Mls(0, Some(c), 0, [], {})), true, 0)
  }

  ghost function SavedWorld(c: Item, inflight: set<Post>): World {
    World(0, Postbox([], 0, {}, inflight), Mem(Saved(c), [], None), Saved(c), 11)
  }

  // A group is created, its activating commit built and saved ...
  lemma SavedRun(c: Item) returns (es: seq<Event>)
    requires c == Commit(0, 10, 0, {}, {})
    ensures SafeRun(EmptyWorld([]), es) && Possible(EmptyWorld([]), es) && Exec(EmptyWorld([]), es) == SavedWorld(c, {})
  {
    hide SafeRun, Possible, Exec;
    var w0 := EmptyWorld([]);
    NoSteps(w0);
    var w1 := w0.(mem := Mem(Rec(Some(Mls(0, None, 0, [], {})), true, 0), [], None));
    es := SafelyTook(w0, [], w0, Create, w1);
    var w2 := w1.(mem := Mem(Saved(c), [], None), nextId := 11);
    es := SafelyTook(w0, es, w1, Build({}, {}), w2);
    es := SafelyTook(w0, es, w2, GroupProtocol.Persist, SavedWorld(c, {}));
  }

  // ... and the page dies, before the request went out or while it travels.
  lemma StuckRun(sent: bool) returns (w0: World, es: seq<Event>, c: Item)
    ensures Start(w0) && SafeRun(w0, es) && Possible(w0, es)
    ensures Inv(Exec(w0, es)) && Stuck(Exec(w0, es), c) && Exec(w0, es).box.log == []
    ensures Exec(w0, es).box.inflight == if sent then {Post(c, 0)} else {}
  {
    w0 := EmptyWorld([]);
    c := Commit(0, 10, 0, {}, {});
    es := SavedRun(c);
    StartIsSound(w0);
    hide SafeRun, Possible, Exec, Inv;
    var w := SavedWorld(c, {});
    if sent {
      assert {} + {Post(c, 0)} == {Post(c, 0)};
      w := SavedWorld(c, {Post(c, 0)});
      es := SafelyTook(w0, es, SavedWorld(c, {}), Send(0), w);
    }
    es := SafelyTook(w0, es, w, Crash, w);
    SafeRunKeepsInv(w0, es);
  }

  // So does being left behind while activating: another device of the mailbox activates the group
  // between this device's creating it and its commit.
  lemma BehindRun() returns (w0: World, es: seq<Event>)
    ensures Start(w0) && SafeRun(w0, es) && Possible(w0, es)
    ensures var w := Exec(w0, es);
            Inv(w) && Behind(w) && NothingLeft(w.mem.rec.group) && w.disk == w.mem.rec && w.mem.page == [] && w.mem.answer.None?
  {
    w0 := EmptyWorld([]);
    var created := Rec(Some(Mls(0, None, 0, [], {})), true, 0);
    var w1 := w0.(mem := Mem(created, [], None));
    es := SafelyTook(w0, [], w0, Create, w1);
    var w2 := w1.(disk := created);
    es := SafelyTook(w0, es, w1, GroupProtocol.Persist, w2);
    var theirs := Commit(1, 10, 0, {}, {});
    assert [] + [theirs] == [theirs] && EpochAt([theirs], 0) == 0 && EpochAt([theirs], 1) == 1;
    var w3 := w2.(box := Postbox([theirs], 1, {}, {}), nextId := 11);
    es := SafelyTook(w0, es, w2, ForeignCommit(1, {}, {}), w3);
    StartIsSound(w0);
    SafeRunKeepsInv(w0, es);
  }
}
