// How often a chunk is posted: once, and three more times while the service is busy.
module CaptureRetries {
  import opened Common
  import opened CaptureProtocol
  import opened CaptureInvariants
  import opened CaptureRuns
  import opened CaptureQueue

  function PostCount(posts: seq<Post>, audio: nat): nat {
    if posts == [] then 0 else PostCount(posts[..|posts| - 1], audio) + if posts[|posts| - 1].audio == audio then 1 else 0
  }

  lemma CountAppend(posts: seq<Post>, p: Post, audio: nat)
    ensures PostCount(posts + [p], audio) == PostCount(posts, audio) + if p.audio == audio then 1 else 0
  {
    assert (posts + [p])[..|posts|] == posts;
  }

  lemma {:induction false} NoneCounted(posts: seq<Post>, audio: nat)
    requires NotPosted(posts, audio)
    ensures PostCount(posts, audio) == 0
  {
    if posts != [] {
      assert NotPosted(posts[..|posts| - 1], audio);
      NoneCounted(posts[..|posts| - 1], audio);
    }
  }

  // A chunk under way has been posted once more than it was answered busy; one that waits, as often.
  ghost predicate LoopCounts(j: Job, k: Cap, posts: seq<Post>)
    requires IsLoop(j)
  {
    Tries(k, j.item.number) <= MAX_TRIES && PostCount(posts, j.item.audio) == Tries(k, j.item.number) + if j.Posting? then 1 else 0
  }

  ghost predicate LoopsCount(jobs: map<nat, Job>, caps: seq<Cap>, posts: seq<Post>) {
    forall j :: j in jobs && IsLoop(jobs[j]) && jobs[j].cap < |caps| ==> LoopCounts(jobs[j], caps[jobs[j].cap], posts)
  }

  ghost predicate Tried(posts: seq<Post>, c: nat, n: nat) {
    exists i :: 0 <= i < |posts| && posts[i].cap == c && posts[i].number == n
  }

  // Only posted chunks have been tried.
  ghost predicate TriesKnown(caps: seq<Cap>, posts: seq<Post>) {
    forall c, n :: 0 <= c < |caps| && n in caps[c].tries ==> Tried(posts, c, n)
  }

  ghost predicate Few(posts: seq<Post>) {
    forall audio: nat :: PostCount(posts, audio) <= MAX_TRIES + 1
  }

  ghost predicate Counted(w: World) {
    LoopsCount(w.jobs, w.caps, w.posts) && TriesKnown(w.caps, w.posts) && Few(w.posts)
  }

  // ---- steps without a post ---------------------------------------------------------------------------

  ghost predicate Still(w: World, x: World) {
    && x.posts == w.posts && |w.caps| <= |x.caps|
    && (forall c :: 0 <= c < |x.caps| ==> x.caps[c].tries == if c < |w.caps| then w.caps[c].tries else map[])
    && (forall j :: j in x.jobs && IsLoop(x.jobs[j]) ==> j in w.jobs && x.jobs[j] == w.jobs[j])
  }

  lemma StillKeeps(w: World, x: World)
    requires Refs(w) && Counted(w) && Still(w, x)
    ensures Counted(x)
  {
    hide PostCount, Tried, RecRefs, TimerRefs;
    forall j | j in x.jobs && IsLoop(x.jobs[j]) && x.jobs[j].cap < |x.caps| ensures LoopCounts(x.jobs[j], x.caps[x.jobs[j].cap], x.posts) {
      assert LoopCounts(w.jobs[j], w.caps[w.jobs[j].cap], w.posts);
    }
  }

  // ---- posting --------------------------------------------------------------------------------------------

  // A chunk that was not posted was not tried.
  lemma FreshIsUntried(w: World, c: nat, item: Item, out: Option<nat>)
    requires Between(w, out) && Counted(w) && c < |w.caps| && ItemOk(w.caps, w.recs, w.numbered, c, item) && NotPosted(w.posts, item.audio)
    ensures PostCount(w.posts, item.audio) == 0 && Tries(w.caps[c], item.number) == 0
  {
    hide Refs, Queues, Lives, Retries, Derivings, Pushed, Carried, Numbers, Loops, Verifying, Sessions;
    NoneCounted(w.posts, item.audio);
    assert !Tried(w.posts, c, item.number);
  }

  lemma PostCounts(w: World, c: nat)
    requires Between(w, Some(c)) && Counted(w) && w.cap == Some(c) && c < |w.caps| && w.caps[c].queue != []
    requires PostCount(w.posts, w.caps[c].queue[0].audio) == Tries(w.caps[c], w.caps[c].queue[0].number) <= MAX_TRIES
    ensures Counted(Turn(w, c))
  {
    hide Between, ItemOk, PostCount, Tried;
    BetweenRefs(w, Some(c));
    NextIsFree(w);
    QueueHead(w, c, Some(c));
    var k, item := w.caps[c], w.caps[c].queue[0];
    var p := Post(c, k.meeting, item.number, k.token, item.audio);
    var x := Turn(w, c);
    forall audio: nat ensures PostCount(x.posts, audio) == PostCount(w.posts, audio) + if item.audio == audio then 1 else 0 {
      CountAppend(w.posts, p, audio);
    }
    forall j | j in x.jobs && IsLoop(x.jobs[j]) && x.jobs[j].cap < |x.caps| ensures LoopCounts(x.jobs[j], x.caps[x.jobs[j].cap], x.posts) {
      if j != w.next {
        JobFacts(w, j, Some(c));
        LoopElsewhere(w, j, c);
        OtherAudio(w, c, k.head, w.jobs[j].cap, w.jobs[j].item, Some(c));
        assert LoopCounts(w.jobs[j], w.caps[w.jobs[j].cap], w.posts);
      }
    }
    forall d, n | 0 <= d < |x.caps| && n in x.caps[d].tries ensures Tried(x.posts, d, n) {
      TriedStays(w.posts, p, d, n);
    }
  }

  lemma TriedStays(posts: seq<Post>, p: Post, c: nat, n: nat)
    requires Tried(posts, c, n)
    ensures Tried(posts + [p], c, n)
  {
    var i :| 0 <= i < |posts| && posts[i].cap == c && posts[i].number == n;
    assert (posts + [p])[i] == posts[i];
  }

  lemma LoopElsewhere(w: World, j: nat, c: nat)
    requires Between(w, Some(c)) && j in w.jobs && IsLoop(w.jobs[j])
    ensures w.jobs[j].cap != c
  {
    hide Refs, Queues, Lives, Retries, Derivings, Pushed, Carried, Posted, Numbers, Verifying, Sessions;
  }

  // The chunk at the head is new, or the one the loop was at.
  lemma TurnCounts(w: World, c: nat, out: Option<(nat, nat)>)
    requires Between(w, Some(c)) && Placed(w, out) && Counted(w) && c < |w.caps|
    requires out.Some? ==> out.value.0 == c
    requires out.Some? && w.cap == Some(c) && w.caps[c].queue != [] && out.value.1 == w.caps[c].head ==>
               PostCount(w.posts, w.caps[c].queue[0].audio) == Tries(w.caps[c], w.caps[c].queue[0].number) <= MAX_TRIES
    ensures Counted(Turn(w, c))
  {
    if w.cap == Some(c) && w.caps[c].queue != [] {
      hide Between, Counted, Placed, ItemOk;
      QueueHead(w, c, Some(c));
      if out != Some((c, w.caps[c].head)) {
        HeadIsFresh(w, c, out);
        FreshIsUntried(w, c, w.caps[c].queue[0], Some(c));
      }
      PostCounts(w, c);
    } else {
      hide Between, Placed;
      BetweenRefs(w, Some(c));
      StillKeeps(w, Turn(w, c));
    }
  }

  lemma HeadIsFresh(w: World, c: nat, out: Option<(nat, nat)>)
    requires Between(w, Some(c)) && Placed(w, out) && w.cap == Some(c) && c < |w.caps| && w.caps[c].queue != [] && out != Some((c, w.caps[c].head))
    ensures NotPosted(w.posts, w.caps[c].queue[0].audio)
  {
    hide Between, LoopsFit, Ahead, Distinct, ItemOk;
    QueueHead(w, c, Some(c));
    NotTaken(w, c, w.caps[c].head);
  }

  lemma NotTaken(w: World, c: nat, i: nat)
    requires Between(w, Some(c))
    ensures !Taken(w.jobs, c, i)
  {
    hide Refs, Queues, Lives, Retries, Derivings, Pushed, Carried, Posted, Numbers, Verifying, Sessions;
  }

  lemma NextTurnCounts(w: World, c: nat, l: Cap, at: nat)
    requires Between(w, Some(c)) && Placed(w, Some((c, at))) && Counted(w) && w.cap == Some(c) && c < |w.caps| && w.caps[c].uploading
    requires Shorter(w.caps[c], l) && (l.queue != [] ==> at < l.head) && TriesKnown(w.caps[c := l], w.posts)
    ensures Counted(Turn(SetCap(w, c, l), c))
  {
    var x := SetCap(w, c, l);
    assert Counted(x) by { RetriedCounts(w, c, l); }
    hide Between, Placed, Counted, ItemOk, QueueOk, TriesKnown;
    CapFacts(w, c, Some(c));
    ShortenedPlaced(w, c, l, Some((c, at)));
    SetQueueKeeps(w, c, l, Some(c));
    TurnCounts(x, c, Some((c, at)));
  }

  // Counting a try matters only to the capture's own loop, which is between two jobs.
  lemma RetriedCounts(w: World, c: nat, l: Cap)
    requires Between(w, Some(c)) && Counted(w) && c < |w.caps| && TriesKnown(w.caps[c := l], w.posts)
    ensures Counted(SetCap(w, c, l))
  {
    hide Refs, Queues, Lives, Retries, Derivings, Pushed, Carried, Posted, Numbers, Verifying, Sessions, PostCount, Tried;
    var x := SetCap(w, c, l);
    forall j | j in x.jobs && IsLoop(x.jobs[j]) && x.jobs[j].cap < |x.caps| ensures LoopCounts(x.jobs[j], x.caps[x.jobs[j].cap], x.posts) {
      LoopElsewhere(w, j, c);
      assert LoopCounts(w.jobs[j], w.caps[w.jobs[j].cap], w.posts);
    }
  }

  lemma TriesStayKnown(w: World, c: nat, l: Cap, n: nat)
    requires TriesKnown(w.caps, w.posts) && c < |w.caps| && Tried(w.posts, c, n)
    requires forall m :: m in l.tries ==> m == n || m in w.caps[c].tries
    ensures TriesKnown(w.caps[c := l], w.posts)
  {
    hide Tried;
  }

  lemma AnsweredCounts(w: World, c: nat, item: Item, at: nat, a: Answer)
    requires Between(w, Some(c)) && Placed(w, Some((c, at))) && Counted(w) && c < |w.caps| && w.caps[c].uploading
    requires LoopFits(Posting(c, item, at), w.caps[c], w.cap == Some(c)) && LoopCounts(Posting(c, item, at), w.caps[c], w.posts)
    requires Tried(w.posts, c, item.number)
    ensures Counted(Answered(w, c, item, at, a))
  {
    hide Between, Placed, Counted, ItemOk, QueueOk, Turn, Shorter, TriesKnown, Tried, PostCount, Shift, Emptied;
    var k := w.caps[c];
    var k' := k.(tries := k.tries[item.number := Tries(k, item.number) + 1]);
    BetweenRefs(w, Some(c));
    CapFacts(w, c, Some(c));
    ShorterFacts(k, k');
    KnownAfter(w, c, k', item.number);
    if w.cap != Some(c) {
      StillKeeps(w, SetCap(w, c, k.(uploading := false)));
    } else if a.Accepted? {
      HeadMovesOn(k, at);
      NextTurnCounts(w, c, Shift(k), at);
    } else if a.Refused? {
      HeadMovesOn(k, at);
      NextTurnCounts(w, c, Emptied(k), at);
    } else if Tries(k', item.number) > MAX_TRIES {
      HeadMovesOn(k', at);
      NextTurnCounts(w, c, Shift(k'), at);
    } else {
      RetriedCounts(w, c, k');
      BackoffCounts(SetCap(w, c, k'), c, item, at);
    }
  }

  lemma HeadMovesOn(k: Cap, at: nat)
    requires at <= k.head
    ensures Shift(k).queue != [] ==> at < Shift(k).head
    ensures Emptied(k).queue == []
  {
  }

  lemma KnownAfter(w: World, c: nat, l: Cap, n: nat)
    requires Counted(w) && c < |w.caps| && Tried(w.posts, c, n) && forall m :: m in l.tries ==> m == n || m in w.caps[c].tries
    ensures TriesKnown(w.caps[c := l], w.posts) && TriesKnown(w.caps[c := Shift(l)], w.posts)
    ensures TriesKnown(w.caps[c := Shift(w.caps[c])], w.posts) && TriesKnown(w.caps[c := Emptied(w.caps[c])], w.posts)
  {
    hide Tried, LoopsCount, Few;
    TriesStayKnown(w, c, l, n);
    TriesStayKnown(w, c, Shift(l), n);
    TriesStayKnown(w, c, Shift(w.caps[c]), n);
    TriesStayKnown(w, c, Emptied(w.caps[c]), n);
  }

  lemma BackoffCounts(w: World, c: nat, item: Item, at: nat)
    requires Counted(w) && c < |w.caps| && LoopCounts(Backoff(c, item, at), w.caps[c], w.posts)
    ensures Counted(NewJob(w, Backoff(c, item, at)))
  {
    hide PostCount, Tried;
  }

  // ---- every step ---------------------------------------------------------------------------------------------

  lemma LoopFacts(w: World, j: nat)
    requires Inv(w) && Placed(w, None) && Counted(w) && j in w.jobs && IsLoop(w.jobs[j])
    ensures w.jobs[j].cap < |w.caps| && w.caps[w.jobs[j].cap].uploading
    ensures LoopFits(w.jobs[j], w.caps[w.jobs[j].cap], w.cap == Some(w.jobs[j].cap)) && LoopCounts(w.jobs[j], w.caps[w.jobs[j].cap], w.posts)
    ensures w.jobs[j].Posting? ==> Tried(w.posts, w.jobs[j].cap, w.jobs[j].item.number)
  {
    hide Waiting, Ahead, Distinct;
    JobFacts(w, j, None);
    if w.jobs[j].Posting? {
      CountedIsTried(w, w.jobs[j].cap, w.jobs[j].item);
    }
  }

  // A chunk with a post has been posted under its own number.
  lemma CountedIsTried(w: World, c: nat, item: Item)
    requires Inv(w) && c < |w.caps| && ItemOk(w.caps, w.recs, w.numbered, c, item) && PostCount(w.posts, item.audio) > 0
    ensures Tried(w.posts, c, item.number)
  {
    hide Refs, Queues, Lives, Retries, Derivings, Pushed, Carried, Loops, Verifying, Sessions;
    var i := SomePost(w.posts, item.audio);
    assert ItemOk(w.caps, w.recs, w.numbered, w.posts[i].cap, Item(w.posts[i].number, w.posts[i].audio));
    assert (w.caps[c].meeting, item.number) in w.numbered;
  }

  lemma {:induction false} SomePost(posts: seq<Post>, audio: nat) returns (i: nat)
    requires PostCount(posts, audio) > 0
    ensures i < |posts| && posts[i].audio == audio
  {
    if posts[|posts| - 1].audio == audio {
      i := |posts| - 1;
    } else {
      i := SomePost(posts[..|posts| - 1], audio);
    }
  }

  lemma AnswerCounts(w: World, j: nat, a: Answer)
    requires Inv(w) && Placed(w, None) && Counted(w) && j in w.jobs && w.jobs[j].Posting?
    ensures Refs(w) && Counted(AnswerTaken(w, j, a))
  {
    hide Between, Placed, Counted, Answered, LoopFits, LoopCounts, Tried;
    BetweenRefs(w, None);
    LoopFacts(w, j);
    DropLoopPlaced(w, j);
    DropJobKeeps(w, j);
    assert Counted(WithoutJob(w, j)) by { DroppedCounts(w, j); }
    SameLoop(w.jobs[j]);
    AnsweredCounts(WithoutJob(w, j), w.jobs[j].cap, w.jobs[j].item, w.jobs[j].at, a);
  }

  lemma SameLoop(b: Job)
    requires b.Posting?
    ensures b == Posting(b.cap, b.item, b.at)
  {
  }

  lemma DroppedCounts(w: World, j: nat)
    requires Refs(w) && Counted(w)
    ensures Counted(WithoutJob(w, j))
  {
    hide Counted;
    StillKeeps(w, WithoutJob(w, j));
  }

  lemma WaitCounts(w: World, j: nat)
    requires Inv(w) && Placed(w, None) && Counted(w) && j in w.jobs && w.jobs[j].Backoff?
    ensures Refs(w) && Counted(WaitTaken(w, j))
  {
    hide Between, Placed, Counted, Turn, PostCount;
    BetweenRefs(w, None);
    LoopFacts(w, j);
    DropLoopPlaced(w, j);
    DropJobKeeps(w, j);
    DroppedCounts(w, j);
    var b, x := w.jobs[j], WithoutJob(w, j);
    if x.cap == Some(b.cap) && x.caps[b.cap].queue != [] {
      QueueHead(x, b.cap, Some(b.cap));
    }
    TurnCounts(x, b.cap, Some((b.cap, b.at)));
  }

  lemma UploadCounts(w: World, c: nat)
    requires Inv(w) && Placed(w, None) && Counted(w) && c < |w.caps|
    ensures Counted(Upload(w, c))
  {
    hide Between, Placed, Counted, Turn;
    if !w.caps[c].uploading {
      LoopBegins(w, c);
      FlagPlaced(w, c, true);
      BetweenRefs(w, None);
      var x := SetCap(w, c, w.caps[c].(uploading := true));
      StillKeeps(w, x);
      TurnCounts(x, c, None);
    }
  }

  lemma QueuedCounts(w: World, c: nat, item: Item)
    requires Inv(w) && Placed(w, None) && Counted(w) && c < |w.caps| && ItemOk(w.caps, w.recs, w.numbered, c, item)
    requires NotPosted(w.posts, item.audio) && NotPushed(w.caps[c], item.audio)
    requires forall j :: j in w.jobs && HasChunk(w.jobs[j]) ==> w.jobs[j].item.audio != item.audio
    ensures Counted(Queued(w, c, item))
  {
    hide Between, Placed, Counted, ItemOk, QueueOk, NotPosted, NotPushed, Upload;
    if w.cap == Some(c) {
      CapFacts(w, c, None);
      PushOk(w.caps[c], item);
      PushedPlaced(w, c, item);
      SetQueueKeeps(w, c, Push(w.caps[c], item), None);
      BetweenRefs(w, None);
      var x := SetCap(w, c, Push(w.caps[c], item));
      StillKeeps(w, x);
      UploadCounts(x, c);
    }
  }

  lemma CipherCounts(w: World, j: nat, ok: bool)
    requires Inv(w) && Placed(w, None) && Counted(w) && j in w.jobs && w.jobs[j].Encrypt?
    ensures Refs(w) && Counted(CipherTaken(w, j, ok))
  {
    assert NotPosted(w.posts, w.jobs[j].item.audio) && (w.jobs[j].cap < |w.caps| ==> NotPushed(w.caps[w.jobs[j].cap], w.jobs[j].item.audio)) by { EncryptedIsAhead(w, j); }
    hide Between, Placed, Counted, ItemOk, Queued, NotPosted, NotPushed, Calm;
    BetweenRefs(w, None);
    DropCalm(w, j);
    var x := WithoutJob(w, j);
    CalmKeeps(w, x);
    DropJobKeeps(w, j);
    JobFacts(w, j, None);
    DroppedCounts(w, j);
    OnlyOneAhead(w, j);
    QueuedCounts(x, w.jobs[j].cap, w.jobs[j].item);
  }

  lemma EncryptedIsAhead(w: World, j: nat)
    requires Inv(w) && Placed(w, None) && j in w.jobs && w.jobs[j].Encrypt?
    ensures NotPosted(w.posts, w.jobs[j].item.audio) && w.jobs[j].cap < |w.caps| && NotPushed(w.caps[w.jobs[j].cap], w.jobs[j].item.audio)
  {
    hide Waiting, LoopsFit, Distinct;
    JobFacts(w, j, None);
  }

  lemma OnlyOneAhead(w: World, j: nat)
    requires Placed(w, None) && j in w.jobs && HasChunk(w.jobs[j])
    ensures forall i :: i in WithoutJob(w, j).jobs && HasChunk(WithoutJob(w, j).jobs[i]) ==> WithoutJob(w, j).jobs[i].item.audio != w.jobs[j].item.audio
  {
    hide Waiting, LoopsFit, Distinct;
  }

  lemma CalmIsStill(w: World, x: World)
    requires Calm(w, x)
    ensures Still(w, x)
  {
  }

  lemma NumberedIsStill(w: World, c: nat, r: nat)
    requires c < |w.caps|
    ensures Still(w, Numbered(w, c, r))
  {
  }

  lemma RecorderCounts(w: World, r: nat, mic: Mic)
    requires Inv(w) && Counted(w) && r < |w.recs| && Live(w.recs[r])
    ensures Refs(w) && Counted(RecorderDone(w, r, mic))
  {
    hide Between, Counted, Recording, Numbered, Calm, NoRetry, NotDeriving;
    BetweenRefs(w, None);
    LiveFacts(w, r);
    var c := w.recs[r].cap;
    var x := SetRec(w, r, w.recs[r].(phase := Done));
    RecMoves(w, r, w.recs[r].(phase := Done), None);
    BetweenRefs(x, None);
    StillKeeps(w, x);
    if Keeps(w, r) {
      NumberedKeeps(x, c, r);
      BetweenRefs(Numbered(x, c, r), None);
      NumberedIsStill(x, c, r);
      StillKeeps(x, Numbered(x, c, r));
    }
    var y := if Keeps(w, r) then Numbered(x, c, r) else x;
    RecordingCalm(y, c, mic);
    CalmIsStill(y, Recording(y, c, mic));
    StillKeeps(y, Recording(y, c, mic));
  }

  lemma BytesIsStill(w: World, j: nat, ok: bool)
    requires Refs(w) && j in w.jobs && w.jobs[j].ReadBytes?
    ensures Still(w, BytesTaken(w, j, ok))
  {
    hide RecRefs, TimerRefs;
  }

  lemma StepCounts(w: World, s: Step)
    requires Inv(w) && Placed(w, None) && Counted(w) && Enabled(w, s)
    ensures Refs(w) && Counted(StepTo(w, s))
  {
    hide Between, Placed, Counted, Refs, RecorderDone, BytesTaken, CipherTaken, AnswerTaken, WaitTaken, Calm, Still,
      Applied, VerdictTaken, Synced, Stopped, KeyTaken, ExportTaken, Fired, SetRec, StopRec, MicSwapped, MuteLifted;
    BetweenRefs(w, None);
    match s
    case OnStop(r, mic) => RecorderCounts(w, r, mic);
    case BytesRead(j, ok) =>
      BytesIsStill(w, j, ok);
      StillKeeps(w, BytesTaken(w, j, ok));
    case Encrypted(j, ok) => CipherCounts(w, j, ok);
    case PostAnswered(j, a) => AnswerCounts(w, j, a);
    case Waited(j) => WaitCounts(w, j);
    case _ =>
      CalmStep(w, s);
      hide StepTo, Enabled;
      CalmIsStill(w, StepTo(w, s));
      StillKeeps(w, StepTo(w, s));
  }

  lemma InitCounted(able: bool)
    ensures Counted(Init(able))
  {
  }

  lemma {:induction false} RunCounts(w: World, steps: seq<Step>)
    requires Inv(w) && Placed(w, None) && Counted(w) && Possible(w, steps)
    ensures Counted(Exec(w, steps))
    decreases |steps|
  {
    hide Between, Placed, Counted, StepTo;
    if steps != [] {
      StepKeeps(w, steps[0]);
      StepPlaced(w, steps[0]);
      StepCounts(w, steps[0]);
      RunCounts(StepTo(w, steps[0]), steps[1..]);
    }
  }

  // In every run a chunk is posted at most four times.
  lemma {:induction false} PostedAtMostFourTimes(able: bool, steps: seq<Step>, audio: nat)
    requires Possible(Init(able), steps)
    ensures PostCount(Exec(Init(able), steps).posts, audio) <= MAX_TRIES + 1
  {
    hide Between, Placed, LoopsCount, TriesKnown;
    InitOk(able);
    InitPlaced(able);
    InitCounted(able);
    RunCounts(Init(able), steps);
  }
}
