// Which chunk leaves the queue when an upload is answered. The loop takes the first chunk off the
// queue, which is the uploaded one only as long as the backlog has not pushed that one out.
module CaptureQueue {
  import opened Common
  import opened CaptureProtocol
  import opened CaptureInvariants
  import opened CaptureRuns

  // ---- where chunks are -----------------------------------------------------------------------------

  ghost predicate NotPosted(posts: seq<Post>, audio: nat) {
    forall i :: 0 <= i < |posts| ==> posts[i].audio != audio
  }

  ghost predicate NotPushed(k: Cap, audio: nat) {
    forall i :: 0 <= i < |k.pushed| ==> k.pushed[i].audio != audio
  }

  function Later(a: nat, b: int): int {
    if a >= b then a else b
  }

  // The loop's chunk and where it was pushed; it heads the queue unless six more came.
  predicate LoopFits(j: Job, k: Cap, running: bool)
    requires IsLoop(j)
  {
    j.at < |k.pushed| && k.pushed[j.at] == j.item && (running ==> k.head == Later(j.at, |k.pushed| - MAX_BACKLOG))
  }

  ghost predicate LoopsFit(jobs: map<nat, Job>, caps: seq<Cap>, cap: Option<nat>) {
    forall j :: j in jobs && IsLoop(jobs[j]) && jobs[j].cap < |caps| ==> LoopFits(jobs[j], caps[jobs[j].cap], cap == Some(jobs[j].cap))
  }

  ghost predicate Taken(jobs: map<nat, Job>, c: nat, i: nat) {
    exists j :: j in jobs && IsLoop(jobs[j]) && jobs[j].cap == c && jobs[j].at == i
  }

  // Queued chunks have not been posted, but for the one the loop is at; `out` is one it was just at.
  ghost predicate Waiting(jobs: map<nat, Job>, caps: seq<Cap>, posts: seq<Post>, out: Option<(nat, nat)>) {
    forall c, i :: 0 <= c < |caps| && caps[c].head <= i < |caps[c].pushed| && !Taken(jobs, c, i) && out != Some((c, i)) ==>
      NotPosted(posts, caps[c].pushed[i].audio)
  }

  // Chunks being encrypted are nowhere else.
  ghost predicate Ahead(jobs: map<nat, Job>, caps: seq<Cap>, posts: seq<Post>) {
    && (forall j :: j in jobs && HasChunk(jobs[j]) && jobs[j].cap < |caps| ==>
          NotPosted(posts, jobs[j].item.audio) && NotPushed(caps[jobs[j].cap], jobs[j].item.audio))
    && (forall i, j :: i in jobs && j in jobs && HasChunk(jobs[i]) && HasChunk(jobs[j]) && jobs[i].item.audio == jobs[j].item.audio ==> i == j)
  }

  ghost predicate Distinct(caps: seq<Cap>) {
    forall c :: 0 <= c < |caps| ==> DistinctPushes(caps[c])
  }

  predicate DistinctPushes(k: Cap) {
    forall i, j :: 0 <= i < j < |k.pushed| ==> k.pushed[i].audio != k.pushed[j].audio
  }

  ghost predicate Placed(w: World, out: Option<(nat, nat)>) {
    LoopsFit(w.jobs, w.caps, w.cap) && Waiting(w.jobs, w.caps, w.posts, out) && Ahead(w.jobs, w.caps, w.posts) && Distinct(w.caps)
  }

  // ---- steps that leave the queues alone --------------------------------------------------------------

  // Chunks, uploads and queues stay; a capture may stop, which empties its queue, or start.
  ghost predicate Calm(w: World, x: World) {
    && x.posts == w.posts && |w.caps| <= |x.caps|
    && (forall c :: 0 <= c < |w.caps| ==> x.caps[c].pushed == w.caps[c].pushed && x.caps[c].tries == w.caps[c].tries && w.caps[c].head <= x.caps[c].head
                                          && (x.cap == Some(c) ==> w.cap == Some(c) && x.caps[c].head == w.caps[c].head))
    && (forall c :: |w.caps| <= c < |x.caps| ==> x.caps[c].pushed == [] && x.caps[c].tries == map[])
    && (forall j :: j in x.jobs && Carries(x.jobs[j]) ==> j in w.jobs && x.jobs[j] == w.jobs[j])
    && (forall j :: j in w.jobs && IsLoop(w.jobs[j]) ==> j in x.jobs && x.jobs[j] == w.jobs[j])
    && w.next <= x.next && x.numbered == w.numbered
  }

  lemma CalmTaken(w: World, x: World, c: nat, i: nat)
    requires Calm(w, x) && Taken(w.jobs, c, i)
    ensures Taken(x.jobs, c, i)
  {
    var j :| j in w.jobs && IsLoop(w.jobs[j]) && w.jobs[j].cap == c && w.jobs[j].at == i;
    assert x.jobs[j] == w.jobs[j];
  }

  lemma CalmKeeps(w: World, x: World)
    requires Refs(w) && Placed(w, None) && Calm(w, x)
    ensures Placed(x, None)
  {
    CalmWaits(w, x);
    CalmDistinct(w, x);
    CalmAhead(w, x);
    CalmLoops(w, x);
    hide LoopsFit, Waiting, Ahead, Distinct, Calm;
  }

  lemma CalmLoops(w: World, x: World)
    requires Refs(w) && LoopsFit(w.jobs, w.caps, w.cap) && Calm(w, x)
    ensures LoopsFit(x.jobs, x.caps, x.cap)
  {
    hide RecRefs, TimerRefs;
  }

  lemma CalmWaits(w: World, x: World)
    requires Waiting(w.jobs, w.caps, w.posts, None) && Calm(w, x)
    ensures Waiting(x.jobs, x.caps, x.posts, None)
  {
    hide NotPosted, Taken;
    forall c, i | 0 <= c < |x.caps| && x.caps[c].head <= i < |x.caps[c].pushed| && !Taken(x.jobs, c, i)
      ensures NotPosted(x.posts, x.caps[c].pushed[i].audio)
    {
      if c < |w.caps| && Taken(w.jobs, c, i) {
        CalmTaken(w, x, c, i);
      }
    }
  }

  lemma CalmDistinct(w: World, x: World)
    requires Distinct(w.caps) && Calm(w, x)
    ensures Distinct(x.caps)
  {
    forall c | 0 <= c < |x.caps| ensures DistinctPushes(x.caps[c]) {
      assert c < |w.caps| ==> DistinctPushes(w.caps[c]);
    }
  }

  lemma CalmAhead(w: World, x: World)
    requires Refs(w) && Ahead(w.jobs, w.caps, w.posts) && Calm(w, x)
    ensures Ahead(x.jobs, x.caps, x.posts)
  {
    hide RecRefs, TimerRefs, NotPosted;
    forall j | j in x.jobs && HasChunk(x.jobs[j]) && x.jobs[j].cap < |x.caps|
      ensures NotPosted(x.posts, x.jobs[j].item.audio) && NotPushed(x.caps[x.jobs[j].cap], x.jobs[j].item.audio)
    {
      assert x.jobs[j] == w.jobs[j];
      assert NotPushed(w.caps[x.jobs[j].cap], x.jobs[j].item.audio);
    }
  }

  lemma ClosedCalm(w: World, c: nat)
    requires c < |w.caps| && w.cap == Some(c) && w.caps[c].head <= |w.caps[c].pushed|
    ensures Calm(w, SetCap(w, c, Closed(w.caps[c])).(cap := None))
  {
  }

  lemma StoppedCalm(w: World)
    requires Refs(w) && forall c :: 0 <= c < |w.caps| ==> w.caps[c].head <= |w.caps[c].pushed|
    ensures Calm(w, Stopped(w))
  {
    if w.cap.Some? {
      var c := w.cap.value;
      ClearRefs(w, c);
      hide ClearTimer, StopCapRec, Calm;
      StopCapRecRefs(ClearTimer(w, c), c);
      ClosedCalm(w, c);
      var y := SetCap(w, c, Closed(w.caps[c])).(cap := None);
      assert Stopped(w) == y.(timers := Stopped(w).timers, recs := Stopped(w).recs);
      CalmElsewhere(w, y, Stopped(w));
    }
  }

  // Timers, recorders and views do not matter to the queues.
  lemma CalmElsewhere(w: World, x: World, y: World)
    requires Calm(w, x) && y.posts == x.posts && y.caps == x.caps && y.cap == x.cap && y.jobs == x.jobs && y.next == x.next && y.numbered == x.numbered
    ensures Calm(w, y)
  {
  }

  lemma HeadsFit(w: World)
    requires Inv(w)
    ensures forall c :: 0 <= c < |w.caps| ==> w.caps[c].head <= |w.caps[c].pushed|
  {
    hide Refs, Lives, Retries, Derivings, Pushed, Carried, Posted, Numbers, Loops, Verifying, Sessions;
  }

  lemma SyncedCalm(w: World)
    requires Inv(w)
    ensures Refs(w) && Calm(w, Synced(w))
  {
    BetweenRefs(w, None);
    HeadsFit(w);
    StoppedCalm(w);
    StoppedKeeps(w);
    BetweenRefs(Stopped(w), None);
    hide Between, Stopped;
    if Wanted(w) && !UpToDate(w) {
      StartedCalm(w, Stopped(w), w.view.value, w.view.value.grant.value);
    }
  }

  lemma StartedCalm(w: World, s: World, v: View, g: Grant)
    requires Calm(w, s) && s.next !in s.jobs && s.next == w.next && |s.caps| == |w.caps|
    ensures Calm(w, Started(s, v, g))
  {
  }

  lemma CalmTwice(w: World, x: World, y: World)
    requires Calm(w, x) && Calm(x, y)
    ensures Calm(w, y)
  {
  }

  lemma CapCalm(w: World, c: nat, k: Cap)
    requires c < |w.caps| && k.pushed == w.caps[c].pushed && k.head == w.caps[c].head && k.tries == w.caps[c].tries
    ensures Calm(w, SetCap(w, c, k))
  {
  }

  lemma JobCalm(w: World, j: Job)
    requires !Carries(j) && w.next !in w.jobs
    ensures Calm(w, NewJob(w, j))
  {
  }

  lemma DropCalm(w: World, j: nat)
    requires j in w.jobs && !IsLoop(w.jobs[j])
    ensures Calm(w, WithoutJob(w, j))
  {
  }

  lemma NewTimerCalm(w: World, c: nat, t: Timer)
    requires c < |w.caps|
    ensures Calm(w, NewTimer(w, c, t))
  {
  }

  lemma NewRecCalm(w: World, c: nat, muted: bool, phase: Phase)
    requires c < |w.caps|
    ensures Calm(w, NewRec(w, c, muted, phase))
  {
  }

  lemma RecordingCalm(w: World, c: nat, mic: Mic)
    requires c < |w.caps|
    ensures Calm(w, Recording(w, c, mic))
  {
    CalmItself(w);
    hide Calm;
    match mic
    case NoTrack => NewTimerCalm(w, c, Retry(c));
    case NoRecorder =>
    case WontStart(muted) => NewRecCalm(w, c, muted, Idle);
    case Starts(muted) =>
      var x := NewRec(w, c, muted, Active);
      NewRecCalm(w, c, muted, Active);
      NewTimerCalm(x, c, Cut(|w.recs|));
      CalmTwice(w, x, NewTimer(x, c, Cut(|w.recs|)));
  }

  lemma NextIsFree(w: World)
    requires Refs(w)
    ensures w.next !in w.jobs
  {
  }

  lemma KeyCalm(w: World, j: nat, ok: bool)
    requires Refs(w) && j in w.jobs && w.jobs[j].MakeKey?
    ensures Calm(w, KeyTaken(w, j, ok))
  {
    var c, x := w.jobs[j].cap, WithoutJob(w, j);
    DropCalm(w, j);
    NextIsFree(w);
    if ok {
      CapCalm(x, c, x.caps[c].(key := true));
      var y := SetCap(x, c, x.caps[c].(key := true));
      JobCalm(y, ExportKey(c));
      hide Calm;
      CalmTwice(w, x, y);
      CalmTwice(w, y, NewJob(y, ExportKey(c)));
    }
  }

  lemma ExportCalm(w: World, j: nat, ok: bool, mic: Mic)
    requires Refs(w) && j in w.jobs && w.jobs[j].ExportKey?
    ensures Calm(w, ExportTaken(w, j, ok, mic))
  {
    var c, x := w.jobs[j].cap, WithoutJob(w, j);
    DropCalm(w, j);
    if ok && x.cap == Some(c) {
      hide Calm, Recording;
      RecordingCalm(x, c, mic);
      CalmTwice(w, x, Recording(x, c, mic));
    }
  }

  lemma FiredCalm(w: World, t: nat, mic: Mic)
    requires Refs(w) && t in w.timers
    ensures Calm(w, Fired(w, t, mic))
  {
    var x := w.(timers := w.timers - {t});
    if w.timers[t].Retry? {
      assert Calm(w, x);
      hide Calm, Recording;
      RecordingCalm(x, w.timers[t].cap, mic);
      CalmTwice(w, x, Recording(x, w.timers[t].cap, mic));
    }
  }

  lemma CalmFrom(w: World, x: World, y: World)
    requires Calm(x, y) && w.posts == x.posts && w.caps == x.caps && w.cap == x.cap && w.jobs == x.jobs && w.next == x.next && w.numbered == x.numbered
    ensures Calm(w, y)
  {
  }

  lemma ViewKeeps(w: World, v: View)
    requires Inv(w)
    ensures Inv(w.(view := Some(v)))
  {
  }

  lemma AppliedCalm(w: World, v: View)
    requires Inv(w)
    ensures Refs(w) && Calm(w, Applied(w, v))
  {
    BetweenRefs(w, None);
    NextIsFree(w);
    ViewKeeps(w, v);
    var x := w.(view := Some(v));
    SyncedCalm(x);
    hide Between, Calm, Synced, RecRefs, JobRefs, TimerRefs;
    if NeedsTrust(w, v) {
      var y := x.(trusts := w.trusts + [Trust(v.session, None)], trusted := Some(|w.trusts|));
      JobCalm(y, Verify(|w.trusts|));
      CalmFrom(w, y, NewJob(y, Verify(|w.trusts|)));
    } else {
      CalmFrom(w, x, Synced(x));
    }
  }

  lemma VerdictAlone(w: World, j: nat, ok: bool)
    requires j in w.jobs && w.jobs[j].Verify? && w.jobs[j].trust < |w.trusts|
    ensures Calm(w, VerdictTaken(w, j, ok))
  {
  }

  lemma VerdictCalm(w: World, j: nat, ok: bool)
    requires Inv(w) && j in w.jobs && w.jobs[j].Verify?
    ensures Refs(w) && w.jobs[j].trust < |w.trusts| && Refs(VerdictTaken(w, j, ok)) && Calm(w, Synced(VerdictTaken(w, j, ok)))
  {
    hide Between, Synced, Calm, VerdictTaken;
    BetweenRefs(w, None);
    JudgedKeeps(w, j, ok);
    var x := VerdictTaken(w, j, ok);
    VerdictAlone(w, j, ok);
    BetweenRefs(x, None);
    SyncedCalm(x);
    CalmTwice(w, x, Synced(x));
  }

  lemma MuteCalm(w: World)
    requires Refs(w)
    ensures Calm(w, MuteLifted(w))
  {
  }

  lemma CalmItself(w: World)
    ensures Calm(w, w)
  {
  }

  lemma MicCalm(w: World)
    requires Refs(w)
    ensures Calm(w, MicSwapped(w))
  {
    CalmItself(w);
    if w.cap.Some? {
      var c := w.cap.value;
      ClearRefs(w, c);
      hide ClearTimer, StopCapRec, Calm;
      StopCapRecRefs(ClearTimer(w, c), c);
      CalmElsewhere(w, w, MicSwapped(w));
    }
  }

  // ---- chunks that move ---------------------------------------------------------------------------------

  // A new chunk is a recording nobody has seen.
  lemma NumberedKeepsPlaced(w: World, c: nat, r: nat)
    requires Inv(w) && Placed(w, None) && c < |w.caps| && forall k :: k in w.numbered ==> w.numbered[k] != r
    ensures Placed(Numbered(w, c, r), None)
  {
    BetweenRefs(w, None);
    NextIsFree(w);
    Unseen(w, r);
    hide Between, Refs;
    var m := w.caps[c].meeting;
    var n := NextNumber(w, m);
    NewChunkPlaced(w.jobs, w.next, ReadBytes(c, Item(n, r)), w.caps, w.cap, w.posts);
  }

  lemma NewChunkPlaced(jobs: map<nat, Job>, next: nat, j: Job, caps: seq<Cap>, cap: Option<nat>, posts: seq<Post>)
    requires LoopsFit(jobs, caps, cap) && Waiting(jobs, caps, posts, None) && Ahead(jobs, caps, posts) && next !in jobs
    requires HasChunk(j) && j.cap < |caps| && NotPosted(posts, j.item.audio) && NotPushed(caps[j.cap], j.item.audio)
    requires forall l :: l in jobs && HasChunk(jobs[l]) ==> jobs[l].item.audio != j.item.audio
    ensures var jobs' := jobs[next := j];
            LoopsFit(jobs', caps, cap) && Waiting(jobs', caps, posts, None) && Ahead(jobs', caps, posts)
  {
    hide NotPosted, NotPushed;
    var jobs' := jobs[next := j];
    forall d, i | 0 <= d < |caps| && caps[d].head <= i < |caps[d].pushed| && !Taken(jobs', d, i) ensures NotPosted(posts, caps[d].pushed[i].audio) {
      SameTaken(jobs, jobs', d, i);
    }
    hide Taken, Waiting;
    assert LoopsFit(jobs', caps, cap);
    assert Ahead(jobs', caps, posts);
  }

  lemma SameTaken(jobs: map<nat, Job>, jobs': map<nat, Job>, c: nat, i: nat)
    requires forall j :: j in jobs && IsLoop(jobs[j]) ==> j in jobs' && jobs'[j] == jobs[j]
    ensures Taken(jobs, c, i) ==> Taken(jobs', c, i)
  {
    if Taken(jobs, c, i) {
      var j :| j in jobs && IsLoop(jobs[j]) && jobs[j].cap == c && jobs[j].at == i;
      assert jobs'[j] == jobs[j];
    }
  }

  lemma Unseen(w: World, r: nat)
    requires Inv(w) && forall k :: k in w.numbered ==> w.numbered[k] != r
    ensures NotPosted(w.posts, r)
    ensures forall c :: 0 <= c < |w.caps| ==> NotPushed(w.caps[c], r)
    ensures forall j :: j in w.jobs && HasChunk(w.jobs[j]) ==> w.jobs[j].item.audio != r
  {
    hide Refs, Queues, Lives, Retries, Derivings, Numbers, Loops, Verifying, Sessions;
    forall c, i | 0 <= c < |w.caps| && 0 <= i < |w.caps[c].pushed| ensures w.caps[c].pushed[i].audio != r {
      assert ItemOk(w.caps, w.recs, w.numbered, c, w.caps[c].pushed[i]);
    }
  }

  lemma BytesKeepsPlaced(w: World, j: nat, ok: bool)
    requires Refs(w) && Placed(w, None) && j in w.jobs && w.jobs[j].ReadBytes?
    ensures Placed(BytesTaken(w, j, ok), None)
  {
    NextIsFree(w);
    DropCalm(w, j);
    var b, y := w.jobs[j], WithoutJob(w, j);
    assert NotPosted(w.posts, b.item.audio) && NotPushed(w.caps[b.cap], b.item.audio);
    assert forall l :: l in y.jobs && HasChunk(y.jobs[l]) ==> y.jobs[l].item.audio != b.item.audio;
    CalmKeeps(w, y);
    hide LoopsFit, Waiting, Ahead, Distinct, Calm, NotPosted, NotPushed, Refs;
    if ok && w.caps[b.cap].key {
      NewChunkPlaced(y.jobs, y.next, Encrypt(b.cap, b.item), y.caps, y.cap, y.posts);
    }
  }

  // ---- the loop -----------------------------------------------------------------------------------------

  lemma DropLoopPlaced(w: World, j: nat)
    requires Placed(w, None) && j in w.jobs && IsLoop(w.jobs[j])
    ensures Placed(WithoutJob(w, j), Some((w.jobs[j].cap, w.jobs[j].at)))
  {
    var x := WithoutJob(w, j);
    var out := (w.jobs[j].cap, w.jobs[j].at);
    forall d, i | 0 <= d < |x.caps| && x.caps[d].head <= i < |x.caps[d].pushed| && !Taken(x.jobs, d, i) && out != (d, i)
      ensures NotPosted(x.posts, x.caps[d].pushed[i].audio)
    {
      StillTaken(w.jobs, j, d, i);
    }
    assert LoopsFit(x.jobs, x.caps, x.cap);
    assert Ahead(x.jobs, x.caps, x.posts);
  }

  lemma StillTaken(jobs: map<nat, Job>, j: nat, d: nat, i: nat)
    requires j in jobs && IsLoop(jobs[j]) && (d, i) != (jobs[j].cap, jobs[j].at)
    ensures Taken(jobs, d, i) ==> Taken(jobs - {j}, d, i)
  {
    if Taken(jobs, d, i) {
      var l :| l in jobs && IsLoop(jobs[l]) && jobs[l].cap == d && jobs[l].at == i;
      assert l in jobs - {j} && (jobs - {j})[l] == jobs[l];
    }
  }

  lemma OthersEmpty(w: World, c: nat, out: Option<nat>)
    requires Between(w, out) && w.cap == Some(c)
    ensures forall d :: 0 <= d < |w.caps| && d != c ==> w.caps[d].head == |w.caps[d].pushed|
  {
    hide Refs, Lives, Retries, Derivings, Pushed, Carried, Posted, Numbers, Loops, Verifying, Sessions;
    forall d | 0 <= d < |w.caps| && d != c ensures w.caps[d].head == |w.caps[d].pushed| {
      assert QueueOk(w.caps[d]);
    }
  }

  // A chunk of one capture is not a chunk of another.
  lemma OtherAudio(w: World, c: nat, i: nat, d: nat, item: Item, out: Option<nat>)
    requires Between(w, out) && c < |w.caps| && i < |w.caps[c].pushed| && d != c && ItemOk(w.caps, w.recs, w.numbered, d, item)
    ensures w.caps[c].pushed[i].audio != item.audio
  {
    hide Refs, Queues, Lives, Retries, Derivings, Numbers, Loops, Verifying, Sessions, Posted, Carried;
    assert ItemOk(w.caps, w.recs, w.numbered, c, w.caps[c].pushed[i]);
  }

  lemma PostedWaits(w: World, c: nat, out: Option<(nat, nat)>)
    requires Between(w, Some(c)) && Placed(w, out) && w.cap == Some(c) && c < |w.caps| && w.caps[c].queue != [] && w.next !in w.jobs
    requires out.Some? ==> out.value.0 == c && out.value.1 <= w.caps[c].head
    ensures var x := Turn(w, c); Waiting(x.jobs, x.caps, x.posts, None)
  {
    QueueHead(w, c, Some(c));
    OthersEmpty(w, c, Some(c));
    hide Between;
    var x := Turn(w, c);
    var h := w.caps[c].head;
    assert x.jobs[w.next] == Posting(c, w.caps[c].queue[0], h);
    assert Taken(x.jobs, c, h);
    forall d, i | 0 <= d < |x.caps| && x.caps[d].head <= i < |x.caps[d].pushed| && !Taken(x.jobs, d, i)
      ensures NotPosted(x.posts, x.caps[d].pushed[i].audio)
    {
      SameTaken(w.jobs, x.jobs, d, i);
      assert d == c && i != h;
      assert NotPosted(w.posts, w.caps[c].pushed[i].audio) && DistinctPushes(w.caps[c]);
    }
  }

  lemma PostedAhead(w: World, c: nat, out: Option<(nat, nat)>)
    requires Between(w, Some(c)) && Placed(w, out) && w.cap == Some(c) && c < |w.caps| && w.caps[c].queue != [] && w.next !in w.jobs
    ensures var x := Turn(w, c); Ahead(x.jobs, x.caps, x.posts)
  {
    hide Between, ItemOk, LoopsFit, Waiting, Distinct;
    QueueHead(w, c, Some(c));
    var x := Turn(w, c);
    var h := w.caps[c].head;
    forall j | j in x.jobs && HasChunk(x.jobs[j]) && x.jobs[j].cap < |x.caps|
      ensures NotPosted(x.posts, x.jobs[j].item.audio) && NotPushed(x.caps[x.jobs[j].cap], x.jobs[j].item.audio)
    {
      assert j in w.jobs && x.jobs[j] == w.jobs[j];
      JobFacts(w, j, Some(c));
      assert NotPosted(w.posts, w.jobs[j].item.audio) && NotPushed(w.caps[w.jobs[j].cap], w.jobs[j].item.audio);
      if w.jobs[j].cap != c {
        OtherAudio(w, c, h, w.jobs[j].cap, w.jobs[j].item, Some(c));
      }
    }
  }

  lemma PostedLoops(w: World, c: nat)
    requires Between(w, Some(c)) && LoopsFit(w.jobs, w.caps, w.cap) && w.cap == Some(c) && c < |w.caps| && w.caps[c].queue != [] && w.next !in w.jobs
    ensures var x := Turn(w, c); LoopsFit(x.jobs, x.caps, x.cap)
  {
    QueueHead(w, c, Some(c));
    CapFacts(w, c, Some(c));
    hide Between, ItemOk;
    var k := w.caps[c];
    assert LoopFits(Posting(c, k.queue[0], k.head), k, true);
  }

  lemma EndedPlaced(w: World, c: nat, out: Option<(nat, nat)>)
    requires Between(w, Some(c)) && Placed(w, out) && c < |w.caps| && w.caps[c].queue == []
    requires out.Some? ==> out.value.0 == c
    ensures Placed(SetCap(w, c, w.caps[c].(uploading := false)), None)
  {
    CapFacts(w, c, Some(c));
    hide Between, ItemOk;
    var x := SetCap(w, c, w.caps[c].(uploading := false));
    assert w.caps[c].head == |w.caps[c].pushed|;
    forall d, i | 0 <= d < |x.caps| && x.caps[d].head <= i < |x.caps[d].pushed| && !Taken(x.jobs, d, i)
      ensures NotPosted(x.posts, x.caps[d].pushed[i].audio)
    {
      assert d != c;
    }
    SamePushes(w, x);
  }

  // Only flags changed.
  lemma SamePushes(w: World, x: World)
    requires x.jobs == w.jobs && x.posts == w.posts && x.cap == w.cap && |x.caps| == |w.caps|
    requires forall d :: 0 <= d < |w.caps| ==> x.caps[d].pushed == w.caps[d].pushed && x.caps[d].head == w.caps[d].head
    requires LoopsFit(w.jobs, w.caps, w.cap) && Ahead(w.jobs, w.caps, w.posts) && Distinct(w.caps)
    ensures LoopsFit(x.jobs, x.caps, x.cap) && Ahead(x.jobs, x.caps, x.posts) && Distinct(x.caps)
  {
    forall d | 0 <= d < |x.caps| ensures DistinctPushes(x.caps[d]) {
      assert DistinctPushes(w.caps[d]);
    }
    forall j | j in x.jobs && HasChunk(x.jobs[j]) && x.jobs[j].cap < |x.caps|
      ensures NotPosted(x.posts, x.jobs[j].item.audio) && NotPushed(x.caps[x.jobs[j].cap], x.jobs[j].item.audio)
    {
      assert NotPushed(w.caps[x.jobs[j].cap], x.jobs[j].item.audio);
    }
  }

  lemma TurnPlaced(w: World, c: nat, out: Option<(nat, nat)>)
    requires Between(w, Some(c)) && Placed(w, out) && c < |w.caps|
    requires out.Some? ==> out.value.0 == c && (w.cap == Some(c) ==> out.value.1 <= w.caps[c].head)
    ensures Placed(Turn(w, c), None)
  {
    BetweenRefs(w, Some(c));
    NextIsFree(w);
    CapFacts(w, c, Some(c));
    hide LoopsFit, Waiting, Ahead, Distinct, Between, Refs;
    if w.cap == Some(c) && w.caps[c].queue != [] {
      PostedWaits(w, c, out);
      PostedAhead(w, c, out);
      PostedLoops(w, c);
    } else {
      EndedPlaced(w, c, out);
    }
  }

  // Taking chunks off the front.
  lemma ShortenedPlaced(w: World, c: nat, l: Cap, out: Option<(nat, nat)>)
    requires Between(w, Some(c)) && Placed(w, out) && c < |w.caps|
    requires l.pushed == w.caps[c].pushed && w.caps[c].head <= l.head
    ensures Placed(SetCap(w, c, l), out)
  {
    hide Refs, Queues, Lives, Retries, Derivings, Pushed, Carried, Posted, Numbers, Verifying, Sessions;
    var x := SetCap(w, c, l);
    assert DistinctPushes(w.caps[c]);
    assert Distinct(x.caps);
    assert LoopsFit(x.jobs, x.caps, x.cap);
    forall j | j in x.jobs && HasChunk(x.jobs[j]) && x.jobs[j].cap < |x.caps|
      ensures NotPosted(x.posts, x.jobs[j].item.audio) && NotPushed(x.caps[x.jobs[j].cap], x.jobs[j].item.audio)
    {
      assert NotPushed(w.caps[x.jobs[j].cap], x.jobs[j].item.audio);
    }
  }

  lemma NextTurnPlaced(w: World, c: nat, l: Cap, at: nat)
    requires Between(w, Some(c)) && Placed(w, Some((c, at))) && w.cap == Some(c) && c < |w.caps| && w.caps[c].uploading
    requires Shorter(w.caps[c], l) && at <= w.caps[c].head
    ensures Placed(Turn(SetCap(w, c, l), c), None)
  {
    hide Between, Placed, ItemOk, QueueOk;
    CapFacts(w, c, Some(c));
    ShortenedPlaced(w, c, l, Some((c, at)));
    SetQueueKeeps(w, c, l, Some(c));
    TurnPlaced(SetCap(w, c, l), c, Some((c, at)));
  }

  lemma BackoffPlaced(w: World, c: nat, item: Item, at: nat)
    requires Refs(w) && Placed(w, Some((c, at))) && c < |w.caps| && w.next !in w.jobs && LoopFits(Backoff(c, item, at), w.caps[c], w.cap == Some(c))
    ensures Placed(NewJob(w, Backoff(c, item, at)), None)
  {
    hide Refs;
    var x := NewJob(w, Backoff(c, item, at));
    assert x.jobs[w.next] == Backoff(c, item, at);
    assert Taken(x.jobs, c, at);
    forall d, i | 0 <= d < |x.caps| && x.caps[d].head <= i < |x.caps[d].pushed| && !Taken(x.jobs, d, i)
      ensures NotPosted(x.posts, x.caps[d].pushed[i].audio)
    {
      SameTaken(w.jobs, x.jobs, d, i);
    }
    assert LoopsFit(x.jobs, x.caps, x.cap);
    assert Ahead(x.jobs, x.caps, x.posts);
  }

  // Trying again, taking one off and dropping all leave what was pushed and only move the head on.
  predicate Shorter(k: Cap, l: Cap) {
    SameButQueue(k, l) && QueueOk(l) && l.pushed == k.pushed && k.head <= l.head
  }

  lemma ShorterFacts(k: Cap, k': Cap)
    requires QueueOk(k) && k' == k.(tries := k'.tries)
    ensures Shorter(k, Shift(k)) && Shorter(k, Emptied(k)) && Shorter(k, Shift(k')) && Shorter(k, k')
  {
    SameQueue(k, k');
  }

  lemma AnsweredPlaced(w: World, c: nat, item: Item, at: nat, a: Answer)
    requires Between(w, Some(c)) && Placed(w, Some((c, at))) && c < |w.caps| && w.caps[c].uploading
    requires LoopFits(Posting(c, item, at), w.caps[c], w.cap == Some(c))
    ensures Placed(Answered(w, c, item, at, a), None)
  {
    hide Between, Placed, ItemOk, QueueOk, Turn, Shift, Emptied, Shorter;
    CapFacts(w, c, Some(c));
    var k := w.caps[c];
    var k' := k.(tries := k.tries[item.number := Tries(k, item.number) + 1]);
    ShorterFacts(k, k');
    if w.cap != Some(c) {
      EndedPlaced(w, c, Some((c, at)));
    } else if a.Accepted? {
      NextTurnPlaced(w, c, Shift(k), at);
    } else if a.Refused? {
      NextTurnPlaced(w, c, Emptied(k), at);
    } else if Tries(k', item.number) > MAX_TRIES {
      NextTurnPlaced(w, c, Shift(k'), at);
    } else {
      RetryPlaced(w, c, k', item, at);
    }
  }

  lemma RetryPlaced(w: World, c: nat, l: Cap, item: Item, at: nat)
    requires Between(w, Some(c)) && Placed(w, Some((c, at))) && c < |w.caps| && SameButQueue(w.caps[c], l)
    requires l.pushed == w.caps[c].pushed && l.head == w.caps[c].head && LoopFits(Posting(c, item, at), w.caps[c], w.cap == Some(c))
    ensures Placed(NewJob(SetCap(w, c, l), Backoff(c, item, at)), None)
  {
    BetweenRefs(w, Some(c));
    NextIsFree(w);
    hide Between, Placed, Refs;
    ShortenedPlaced(w, c, l, Some((c, at)));
    SetQueueRefs(w, c, l);
    BackoffPlaced(SetCap(w, c, l), c, item, at);
  }

  lemma SetQueueRefs(w: World, c: nat, l: Cap)
    requires Refs(w) && c < |w.caps| && SameButQueue(w.caps[c], l)
    ensures Refs(SetCap(w, c, l))
  {
    hide JobRefs, TimerRefs;
  }

  // ---- a new chunk -------------------------------------------------------------------------------------

  lemma PushFits(k: Cap, item: Item, j: Job, running: bool)
    requires QueueOk(k) && IsLoop(j) && LoopFits(j, k, running)
    ensures LoopFits(j, Push(k, item), running)
  {
    PushOk(k, item);
  }

  lemma PushedPlaced(w: World, c: nat, item: Item)
    requires Placed(w, None) && c < |w.caps| && QueueOk(w.caps[c])
    requires NotPosted(w.posts, item.audio) && NotPushed(w.caps[c], item.audio)
    requires forall j :: j in w.jobs && HasChunk(w.jobs[j]) ==> w.jobs[j].item.audio != item.audio
    ensures Placed(SetCap(w, c, Push(w.caps[c], item)), None)
  {
    var k, l := w.caps[c], Push(w.caps[c], item);
    PushOk(k, item);
    var x := SetCap(w, c, l);
    assert DistinctPushes(k);
    assert DistinctPushes(l);
    assert Distinct(x.caps);
    forall j | j in x.jobs && IsLoop(x.jobs[j]) && x.jobs[j].cap < |x.caps|
      ensures LoopFits(x.jobs[j], x.caps[x.jobs[j].cap], x.cap == Some(x.jobs[j].cap))
    {
      if x.jobs[j].cap == c {
        PushFits(k, item, w.jobs[j], w.cap == Some(c));
      }
    }
    forall j | j in x.jobs && HasChunk(x.jobs[j]) && x.jobs[j].cap < |x.caps|
      ensures NotPosted(x.posts, x.jobs[j].item.audio) && NotPushed(x.caps[x.jobs[j].cap], x.jobs[j].item.audio)
    {
      assert NotPushed(w.caps[x.jobs[j].cap], x.jobs[j].item.audio);
    }
    PushedWaits(w, c, item);
  }

  lemma PushedWaits(w: World, c: nat, item: Item)
    requires Waiting(w.jobs, w.caps, w.posts, None) && c < |w.caps| && QueueOk(w.caps[c]) && NotPosted(w.posts, item.audio)
    ensures var x := SetCap(w, c, Push(w.caps[c], item)); Waiting(x.jobs, x.caps, x.posts, None)
  {
    hide NotPosted, Taken;
    var k, l := w.caps[c], Push(w.caps[c], item);
    PushOk(k, item);
    var x := SetCap(w, c, l);
    forall d, i | 0 <= d < |x.caps| && x.caps[d].head <= i < |x.caps[d].pushed| && !Taken(x.jobs, d, i)
      ensures NotPosted(x.posts, x.caps[d].pushed[i].audio)
    {
      if d == c && i < |k.pushed| {
        assert k.head <= i && l.pushed[i] == k.pushed[i];
      }
    }
  }

  lemma QueuedPlaced(w: World, c: nat, item: Item)
    requires Inv(w) && Placed(w, None) && c < |w.caps| && ItemOk(w.caps, w.recs, w.numbered, c, item)
    requires NotPosted(w.posts, item.audio) && NotPushed(w.caps[c], item.audio)
    requires forall j :: j in w.jobs && HasChunk(w.jobs[j]) ==> w.jobs[j].item.audio != item.audio
    ensures Placed(Queued(w, c, item), None)
  {
    if w.cap == Some(c) {
      CapFacts(w, c, None);
      PushOk(w.caps[c], item);
      PushedPlaced(w, c, item);
      hide Between, Placed, ItemOk, QueueOk, Turn, Push, NotPosted, NotPushed;
      SetQueueKeeps(w, c, Push(w.caps[c], item), None);
      UploadPlaced(SetCap(w, c, Push(w.caps[c], item)), c);
    }
  }

  lemma UploadPlaced(w: World, c: nat)
    requires Inv(w) && Placed(w, None) && c < |w.caps|
    ensures Placed(Upload(w, c), None)
  {
    if !w.caps[c].uploading {
      LoopBegins(w, c);
      var x := SetCap(w, c, w.caps[c].(uploading := true));
      hide Between, Turn;
      assert Placed(x, None) by { FlagPlaced(w, c, true); }
      TurnPlaced(x, c, None);
    }
  }

  lemma FlagPlaced(w: World, c: nat, on: bool)
    requires Placed(w, None) && c < |w.caps|
    ensures Placed(SetCap(w, c, w.caps[c].(uploading := on)), None)
  {
    var x := SetCap(w, c, w.caps[c].(uploading := on));
    SamePushes(w, x);
    hide LoopsFit, Ahead, Distinct, Taken, NotPosted;
  }

  // ---- every step ---------------------------------------------------------------------------------------

  lemma CipherPlaced(w: World, j: nat, ok: bool)
    requires Inv(w) && Placed(w, None) && j in w.jobs && w.jobs[j].Encrypt?
    ensures Refs(w) && Placed(CipherTaken(w, j, ok), None)
  {
    BetweenRefs(w, None);
    DropCalm(w, j);
    var x := WithoutJob(w, j);
    CalmKeeps(w, x);
    DropJobKeeps(w, j);
    JobFacts(w, j, None);
    assert NotPosted(w.posts, w.jobs[j].item.audio) && NotPushed(w.caps[w.jobs[j].cap], w.jobs[j].item.audio);
    assert forall i :: i in x.jobs && HasChunk(x.jobs[i]) ==> x.jobs[i].item.audio != w.jobs[j].item.audio;
    hide Between, Placed, ItemOk, Queued, Refs, NotPosted, NotPushed;
    QueuedPlaced(x, w.jobs[j].cap, w.jobs[j].item);
  }

  lemma AnswerPlaced(w: World, j: nat, a: Answer)
    requires Inv(w) && Placed(w, None) && j in w.jobs && w.jobs[j].Posting?
    ensures Refs(w) && Placed(AnswerTaken(w, j, a), None)
  {
    BetweenRefs(w, None);
    DropLoopPlaced(w, j);
    DropJobKeeps(w, j);
    JobFacts(w, j, None);
    var b := w.jobs[j];
    assert LoopFits(b, w.caps[b.cap], w.cap == Some(b.cap));
    hide Between, Placed, ItemOk, Answered, Refs;
    AnsweredPlaced(WithoutJob(w, j), b.cap, b.item, b.at, a);
  }

  lemma WaitPlaced(w: World, j: nat)
    requires Inv(w) && Placed(w, None) && j in w.jobs && w.jobs[j].Backoff?
    ensures Refs(w) && Placed(WaitTaken(w, j), None)
  {
    BetweenRefs(w, None);
    DropLoopPlaced(w, j);
    DropJobKeeps(w, j);
    JobFacts(w, j, None);
    var b := w.jobs[j];
    assert LoopFits(b, w.caps[b.cap], w.cap == Some(b.cap));
    hide Between, Placed, ItemOk, Turn, Refs;
    TurnPlaced(WithoutJob(w, j), b.cap, Some((b.cap, b.at)));
  }

  lemma RecorderPlaced(w: World, r: nat, mic: Mic)
    requires Inv(w) && Placed(w, None) && r < |w.recs| && Live(w.recs[r])
    ensures Refs(w) && Placed(RecorderDone(w, r, mic), None)
  {
    BetweenRefs(w, None);
    LiveFacts(w, r);
    var c := w.recs[r].cap;
    var x := SetRec(w, r, w.recs[r].(phase := Done));
    RecMoves(w, r, w.recs[r].(phase := Done), None);
    hide Between, NoRetry, NotDeriving, LoopsFit, Waiting, Ahead, Distinct;
    assert Placed(x, None);
    BetweenRefs(x, None);
    if Keeps(w, r) {
      NumberedKeepsPlaced(x, c, r);
      NumberedKeeps(x, c, r);
      BetweenRefs(Numbered(x, c, r), None);
    }
    var y := if Keeps(w, r) then Numbered(x, c, r) else x;
    hide Placed, Recording, Numbered, Refs;
    RecordingCalm(y, c, mic);
    CalmKeeps(y, Recording(y, c, mic));
  }

  lemma CalmStep(w: World, s: Step)
    requires Inv(w) && Enabled(w, s)
    requires !s.OnStop? && !s.BytesRead? && !s.Encrypted? && !s.PostAnswered? && !s.Waited?
    ensures Refs(w) && Calm(w, StepTo(w, s))
  {
    BetweenRefs(w, None);
    HeadsFit(w);
    hide Between, Synced, Stopped, Applied, KeyTaken, ExportTaken, Fired, MicSwapped, MuteLifted, VerdictTaken;
    match s
    case Apply(v) => AppliedCalm(w, v);
    case VerifyDone(j, ok) => VerdictCalm(w, j, ok);
    case Leave =>
      StoppedCalm(w);
      hide Calm;
      CalmElsewhere(w, Stopped(w), Stopped(w).(view := None, trusted := None));
    case Decline => StoppedCalm(w);
    case KeyMade(j, ok) => KeyCalm(w, j, ok);
    case KeyExported(j, ok, mic) => ExportCalm(w, j, ok, mic);
    case Fire(t, mic) => FiredCalm(w, t, mic);
    case Data(r) =>
      CalmItself(w);
      hide Calm;
      CalmElsewhere(w, w, StepTo(w, s));
    case TrackEnds(r) =>
      CalmItself(w);
      hide Calm;
      CalmElsewhere(w, w, StepTo(w, s));
    case MicChanged => MicCalm(w);
    case Unmuted => MuteCalm(w);
  }

  lemma StepPlaced(w: World, s: Step)
    requires Inv(w) && Placed(w, None) && Enabled(w, s)
    ensures Refs(w) && Placed(StepTo(w, s), None)
  {
    hide Between, Placed, Refs, RecorderDone, BytesTaken, CipherTaken, AnswerTaken, WaitTaken, Calm,
      Applied, VerdictTaken, Synced, Stopped, KeyTaken, ExportTaken, Fired, SetRec, StopRec, MicSwapped, MuteLifted;
    BetweenRefs(w, None);
    match s
    case OnStop(r, mic) => RecorderPlaced(w, r, mic);
    case BytesRead(j, ok) => BytesKeepsPlaced(w, j, ok);
    case Encrypted(j, ok) => CipherPlaced(w, j, ok);
    case PostAnswered(j, a) => AnswerPlaced(w, j, a);
    case Waited(j) => WaitPlaced(w, j);
    case _ =>
      CalmStep(w, s);
      hide StepTo, Enabled;
      CalmKeeps(w, StepTo(w, s));
  }

  lemma InitPlaced(able: bool)
    ensures Placed(Init(able), None)
  {
  }

  lemma {:induction false} RunPlaced(w: World, steps: seq<Step>)
    requires Inv(w) && Placed(w, None) && Possible(w, steps)
    ensures Inv(Exec(w, steps)) && Placed(Exec(w, steps), None)
    decreases |steps|
  {
    hide Between, Placed, StepTo;
    if steps != [] {
      StepKeeps(w, steps[0]);
      StepPlaced(w, steps[0]);
      RunPlaced(StepTo(w, steps[0]), steps[1..]);
    }
  }

  // ---- what an accepted upload takes off the queue --------------------------------------------------------

  lemma HeadOfLoop(w: World, j: nat)
    requires Inv(w) && Placed(w, None) && j in w.jobs && IsLoop(w.jobs[j]) && w.cap == Some(w.jobs[j].cap)
    ensures w.jobs[j].cap < |w.caps|
    ensures var b := w.jobs[j];
            var k := w.caps[b.cap];
            && k.queue != []
            && (k.queue[0] == b.item <==> |k.pushed| <= b.at + MAX_BACKLOG)
            && (k.queue[0] != b.item ==> NotPosted(w.posts, k.queue[0].audio))
  {
    JobFacts(w, j, None);
    OneOfEach(w);
    var b := w.jobs[j];
    var k := w.caps[b.cap];
    CapFacts(w, b.cap, None);
    assert LoopFits(b, k, true) && DistinctPushes(k);
    hide Between, ItemOk, LoopsFit, Ahead, Distinct;
    if |k.pushed| > b.at + MAX_BACKLOG {
      assert !Taken(w.jobs, b.cap, k.head);
    }
  }

  // The chunk that an accepted upload takes off the queue is the uploaded one exactly when no more
  // than five chunks were queued behind it since; otherwise it is one that was never posted.
  lemma {:induction false} AcceptedDropsItsOwnExactlyWhen(able: bool, steps: seq<Step>, j: nat)
    requires Possible(Init(able), steps)
    requires var w := Exec(Init(able), steps); j in w.jobs && w.jobs[j].Posting? && w.cap == Some(w.jobs[j].cap)
    ensures var w := Exec(Init(able), steps);
            w.jobs[j].cap < |w.caps|
    ensures var w := Exec(Init(able), steps);
            var b := w.jobs[j];
            var k := w.caps[b.cap];
            && k.queue != [] && Shift(k).queue == k.queue[1..]
            && (k.queue[0] == b.item <==> |k.pushed| <= b.at + MAX_BACKLOG)
            && (k.queue[0] != b.item ==> NotPosted(w.posts, k.queue[0].audio))
  {
    hide Between, Placed;
    InitOk(able);
    InitPlaced(able);
    RunPlaced(Init(able), steps);
    HeadOfLoop(Exec(Init(able), steps), j);
  }

  // ---- and such a chunk is lost -----------------------------------------------------------------------------

  // A numbered recording that is in no queue and on no way into one, and was never posted.
  ghost predicate Lost(w: World, audio: nat) {
    && NotPosted(w.posts, audio)
    && (forall j :: j in w.jobs && HasChunk(w.jobs[j]) ==> w.jobs[j].item.audio != audio)
    && (forall c :: 0 <= c < |w.caps| ==> NotQueued(w.caps[c], audio))
    && (exists k :: k in w.numbered && w.numbered[k] == audio)
  }

  predicate NotQueued(k: Cap, audio: nat) {
    forall i :: k.head <= i < |k.pushed| ==> k.pushed[i].audio != audio
  }

  lemma CalmLost(w: World, x: World, audio: nat)
    requires Lost(w, audio) && Calm(w, x)
    ensures Lost(x, audio)
  {
    forall c | 0 <= c < |x.caps| ensures NotQueued(x.caps[c], audio) {
      assert c < |w.caps| ==> NotQueued(w.caps[c], audio);
    }
  }

  lemma JobLost(w: World, j: Job, audio: nat)
    requires Lost(w, audio) && w.next !in w.jobs && (HasChunk(j) ==> j.item.audio != audio)
    ensures Lost(NewJob(w, j), audio)
  {
  }

  lemma DropLost(w: World, j: nat, audio: nat)
    requires Lost(w, audio)
    ensures Lost(WithoutJob(w, j), audio)
  {
  }

  lemma CapLost(w: World, c: nat, l: Cap, audio: nat)
    requires Lost(w, audio) && c < |w.caps| && NotQueued(l, audio)
    ensures Lost(SetCap(w, c, l), audio)
  {
  }

  lemma TurnLost(w: World, c: nat, audio: nat)
    requires Refs(w) && Lost(w, audio) && c < |w.caps| && QueueOk(w.caps[c])
    ensures Lost(Turn(w, c), audio)
  {
    NextIsFree(w);
    hide Refs;
    assert NotQueued(w.caps[c], audio);
    if w.cap == Some(c) && w.caps[c].queue != [] {
      var x := Turn(w, c);
      assert w.caps[c].queue[0] == w.caps[c].pushed[w.caps[c].head];
    }
  }

  lemma NextTurnLost(w: World, c: nat, l: Cap, audio: nat)
    requires Refs(w) && Lost(w, audio) && c < |w.caps| && Shorter(w.caps[c], l)
    ensures Lost(Turn(SetCap(w, c, l), c), audio)
  {
    assert NotQueued(w.caps[c], audio);
    CapLost(w, c, l, audio);
    SetQueueRefs(w, c, l);
    hide Lost, Refs, Turn;
    TurnLost(SetCap(w, c, l), c, audio);
  }

  lemma AnsweredLost(w: World, c: nat, item: Item, at: nat, a: Answer, audio: nat)
    requires Refs(w) && Lost(w, audio) && c < |w.caps| && QueueOk(w.caps[c])
    ensures Lost(Answered(w, c, item, at, a), audio)
  {
    NextIsFree(w);
    var k := w.caps[c];
    var k' := k.(tries := k.tries[item.number := Tries(k, item.number) + 1]);
    ShorterFacts(k, k');
    assert NotQueued(k, audio);
    assert NotQueued(k', audio) && NotQueued(k.(uploading := false), audio);
    hide Lost, Refs, Turn, QueueOk, Shift, Emptied, NotQueued, Shorter;
    if w.cap != Some(c) {
      CapLost(w, c, k.(uploading := false), audio);
    } else if a.Accepted? {
      NextTurnLost(w, c, Shift(k), audio);
    } else if a.Refused? {
      NextTurnLost(w, c, Emptied(k), audio);
    } else if Tries(k', item.number) > MAX_TRIES {
      NextTurnLost(w, c, Shift(k'), audio);
    } else {
      CapLost(w, c, k', audio);
      JobLost(SetCap(w, c, k'), Backoff(c, item, at), audio);
    }
  }

  lemma QueuedLost(w: World, c: nat, item: Item, audio: nat)
    requires Refs(w) && Lost(w, audio) && c < |w.caps| && QueueOk(w.caps[c]) && item.audio != audio
    ensures Lost(Queued(w, c, item), audio)
  {
    var k := w.caps[c];
    assert NotQueued(k, audio);
    PushOk(k, item);
    var l := Push(k, item);
    assert k.head <= l.head;
    assert NotQueued(l, audio);
    CapLost(w, c, l, audio);
    SetQueueRefs(w, c, l);
    hide Refs, Turn, Lost, QueueOk;
    var x := SetCap(w, c, l);
    if w.cap == Some(c) && !l.uploading {
      UploadLost(x, c, audio);
    }
  }

  lemma UploadLost(w: World, c: nat, audio: nat)
    requires Refs(w) && Lost(w, audio) && c < |w.caps| && QueueOk(w.caps[c])
    ensures Lost(Turn(SetCap(w, c, w.caps[c].(uploading := true)), c), audio)
  {
    assert NotQueued(w.caps[c], audio);
    var l := w.caps[c].(uploading := true);
    assert QueueOk(l);
    CapLost(w, c, l, audio);
    FlagRefs(w, c);
    hide Lost, Refs, Turn;
    TurnLost(SetCap(w, c, l), c, audio);
  }

  lemma FlagRefs(w: World, c: nat)
    requires Refs(w) && c < |w.caps|
    ensures Refs(SetCap(w, c, w.caps[c].(uploading := true)))
  {
    hide JobRefs, TimerRefs;
  }

  lemma RecorderLost(w: World, r: nat, mic: Mic, audio: nat)
    requires Inv(w) && Lost(w, audio) && r < |w.recs| && Live(w.recs[r])
    ensures Refs(w) && Lost(RecorderDone(w, r, mic), audio)
  {
    BetweenRefs(w, None);
    LiveFacts(w, r);
    NextIsFree(w);
    var c := w.recs[r].cap;
    var x := SetRec(w, r, w.recs[r].(phase := Done));
    assert Lost(x, audio) && r != audio;
    var y := if Keeps(w, r) then Numbered(x, c, r) else x;
    hide Between, Refs, NoRetry, NotDeriving;
    if Keeps(w, r) {
      NumberedLost(x, c, r, audio);
    }
    hide Recording, Numbered, Lost;
    RecordingCalm(y, c, mic);
    CalmLost(y, Recording(y, c, mic), audio);
  }

  lemma NumberedLost(w: World, c: nat, r: nat, audio: nat)
    requires Lost(w, audio) && c < |w.caps| && r != audio && w.next !in w.jobs
    requires (w.caps[c].meeting, NextNumber(w, w.caps[c].meeting)) !in w.numbered
    ensures Lost(Numbered(w, c, r), audio)
  {
    var m := w.caps[c].meeting;
    var n := NextNumber(w, m);
    var x := w.(seqs := w.seqs[m := n + 1], numbered := w.numbered[(m, n) := r]);
    var k :| k in w.numbered && w.numbered[k] == audio;
    assert x.numbered[k] == audio;
    assert Lost(x, audio);
    hide Lost;
    JobLost(x, ReadBytes(c, Item(n, r)), audio);
  }

  lemma BytesLost(w: World, j: nat, ok: bool, audio: nat)
    requires Refs(w) && Lost(w, audio) && j in w.jobs && w.jobs[j].ReadBytes?
    ensures Lost(BytesTaken(w, j, ok), audio)
  {
    NextIsFree(w);
    assert w.jobs[j].item.audio != audio;
    hide Lost;
    DropLost(w, j, audio);
    if ok && w.caps[w.jobs[j].cap].key {
      JobLost(WithoutJob(w, j), Encrypt(w.jobs[j].cap, w.jobs[j].item), audio);
    }
  }

  lemma CipherLost(w: World, j: nat, ok: bool, audio: nat)
    requires Inv(w) && Lost(w, audio) && j in w.jobs && w.jobs[j].Encrypt?
    ensures Refs(w) && Lost(CipherTaken(w, j, ok), audio)
  {
    BetweenRefs(w, None);
    DropJobKeeps(w, j);
    JobFacts(w, j, None);
    assert w.jobs[j].item.audio != audio;
    var c, x := w.jobs[j].cap, WithoutJob(w, j);
    BetweenRefs(x, None);
    CapFacts(x, c, None);
    hide Lost, Between, Refs, ItemOk, Queued, QueueOk;
    DropLost(w, j, audio);
    QueuedLost(x, c, w.jobs[j].item, audio);
  }

  lemma AnswerLost(w: World, j: nat, a: Answer, audio: nat)
    requires Inv(w) && Lost(w, audio) && j in w.jobs && w.jobs[j].Posting?
    ensures Refs(w) && Lost(AnswerTaken(w, j, a), audio)
  {
    BetweenRefs(w, None);
    DropJobKeeps(w, j);
    JobFacts(w, j, None);
    var b, x := w.jobs[j], WithoutJob(w, j);
    BetweenRefs(x, Some(b.cap));
    CapFacts(x, b.cap, Some(b.cap));
    hide Lost, Between, Refs, ItemOk, Answered, QueueOk;
    DropLost(w, j, audio);
    AnsweredLost(x, b.cap, b.item, b.at, a, audio);
  }

  lemma WaitLost(w: World, j: nat, audio: nat)
    requires Inv(w) && Lost(w, audio) && j in w.jobs && w.jobs[j].Backoff?
    ensures Refs(w) && Lost(WaitTaken(w, j), audio)
  {
    BetweenRefs(w, None);
    DropJobKeeps(w, j);
    JobFacts(w, j, None);
    var b, x := w.jobs[j], WithoutJob(w, j);
    BetweenRefs(x, Some(b.cap));
    CapFacts(x, b.cap, Some(b.cap));
    hide Lost, Between, Refs, ItemOk, Turn, QueueOk;
    DropLost(w, j, audio);
    TurnLost(x, b.cap, audio);
  }

  lemma StepLost(w: World, s: Step, audio: nat)
    requires Inv(w) && Lost(w, audio) && Enabled(w, s)
    ensures Refs(w) && Lost(StepTo(w, s), audio)
  {
    hide Between, Lost, Refs, RecorderDone, BytesTaken, CipherTaken, AnswerTaken, WaitTaken, Calm,
      Applied, VerdictTaken, Synced, Stopped, KeyTaken, ExportTaken, Fired, SetRec, StopRec, MicSwapped, MuteLifted;
    BetweenRefs(w, None);
    match s
    case OnStop(r, mic) => RecorderLost(w, r, mic, audio);
    case BytesRead(j, ok) => BytesLost(w, j, ok, audio);
    case Encrypted(j, ok) => CipherLost(w, j, ok, audio);
    case PostAnswered(j, a) => AnswerLost(w, j, a, audio);
    case Waited(j) => WaitLost(w, j, audio);
    case _ =>
      CalmStep(w, s);
      hide StepTo, Enabled;
      CalmLost(w, StepTo(w, s), audio);
  }

  lemma {:induction false} RunLost(w: World, steps: seq<Step>, audio: nat)
    requires Inv(w) && Lost(w, audio) && Possible(w, steps)
    ensures Lost(Exec(w, steps), audio)
    decreases |steps|
  {
    hide Between, Lost, StepTo;
    if steps != [] {
      StepKeeps(w, steps[0]);
      StepLost(w, steps[0], audio);
      RunLost(StepTo(w, steps[0]), steps[1..], audio);
    }
  }

  // Overrun: an upload is answered after its own chunk was pushed out of the queue.
  ghost predicate Overrun(w: World, j: nat) {
    && j in w.jobs && w.jobs[j].Posting? && w.cap == Some(w.jobs[j].cap) && w.jobs[j].cap < |w.caps|
    && |w.caps[w.jobs[j].cap].pushed| > w.jobs[j].at + MAX_BACKLOG
  }

  lemma OverrunDrops(w: World, j: nat)
    requires Inv(w) && Placed(w, None) && Overrun(w, j)
    ensures Refs(w) && w.caps[w.jobs[j].cap].queue != []
    ensures Lost(StepTo(w, PostAnswered(j, Accepted)), w.caps[w.jobs[j].cap].queue[0].audio)
  {
    BetweenRefs(w, None);
    HeadOfLoop(w, j);
    var b := w.jobs[j];
    var k := w.caps[b.cap];
    AcceptedIs(w, j);
    hide Between, Placed, Lost, QueueOk, Turn, NotPosted, Refs, StepTo, Shift;
    ShiftedIsLost(w, j);
    ShiftedRefs(w, j);
    TurnLost(SetCap(WithoutJob(w, j), b.cap, Shift(k)), b.cap, k.queue[0].audio);
  }

  lemma AcceptedIs(w: World, j: nat)
    requires Refs(w) && Overrun(w, j)
    ensures var c := w.jobs[j].cap;
            StepTo(w, PostAnswered(j, Accepted)) == Turn(SetCap(WithoutJob(w, j), c, Shift(w.caps[c])), c)
  {
    hide Turn, Shift, RecRefs, TimerRefs;
  }

  lemma ShiftedRefs(w: World, j: nat)
    requires Inv(w) && Overrun(w, j)
    ensures var c := w.jobs[j].cap;
            Refs(SetCap(WithoutJob(w, j), c, Shift(w.caps[c]))) && QueueOk(Shift(w.caps[c]))
  {
    var b := w.jobs[j];
    var k := w.caps[b.cap];
    DropJobKeeps(w, j);
    CapFacts(w, b.cap, None);
    ShiftOk(k);
    BetweenRefs(WithoutJob(w, j), Some(b.cap));
    hide Between, ItemOk, Refs;
    SetQueueRefs(WithoutJob(w, j), b.cap, Shift(k));
  }

  lemma ShiftedIsLost(w: World, j: nat)
    requires Inv(w) && Placed(w, None) && Overrun(w, j) && w.caps[w.jobs[j].cap].queue != []
    requires NotPosted(w.posts, w.caps[w.jobs[j].cap].queue[0].audio)
    ensures var c := w.jobs[j].cap;
            Lost(SetCap(WithoutJob(w, j), c, Shift(w.caps[c])), w.caps[c].queue[0].audio)
  {
    hide Between, LoopsFit, Waiting, NotPosted;
    var c := w.jobs[j].cap;
    var k := w.caps[c];
    QueueHead(w, c, None);
    OthersEmpty(w, c, None);
    var item := k.queue[0];
    var audio := item.audio;
    assert (w.caps[c].meeting, item.number) in w.numbered;
    var x := SetCap(WithoutJob(w, j), c, Shift(k));
    assert DistinctPushes(k);
    assert NotQueued(Shift(k), audio);
    forall l | l in x.jobs && HasChunk(x.jobs[l]) ensures x.jobs[l].item.audio != audio {
      JobFacts(w, l, None);
      assert NotPushed(w.caps[w.jobs[l].cap], w.jobs[l].item.audio);
    }
  }

  // A chunk dropped in place of the uploaded one is never uploaded, whatever follows.
  lemma {:induction false} OverrunLosesAChunk(able: bool, steps: seq<Step>, j: nat, more: seq<Step>)
    requires Possible(Init(able), steps) && Overrun(Exec(Init(able), steps), j)
    requires Refs(Exec(Init(able), steps)) && Possible(StepTo(Exec(Init(able), steps), PostAnswered(j, Accepted)), more)
    ensures var w := Exec(Init(able), steps);
            && w.caps[w.jobs[j].cap].queue != []
            && NotPosted(Exec(StepTo(w, PostAnswered(j, Accepted)), more).posts, w.caps[w.jobs[j].cap].queue[0].audio)
  {
    InitOk(able);
    InitPlaced(able);
    RunPlaced(Init(able), steps);
    hide Possible, Exec, Between, Placed, StepTo, Overrun, Refs;
    var w := Exec(Init(able), steps);
    OverrunDrops(w, j);
    assert Enabled(w, PostAnswered(j, Accepted)) by { OverrunEnabled(w, j); }
    StepKeeps(w, PostAnswered(j, Accepted));
    RunLost(StepTo(w, PostAnswered(j, Accepted)), more, w.caps[w.jobs[j].cap].queue[0].audio);
  }

  lemma OverrunEnabled(w: World, j: nat)
    requires Overrun(w, j)
    ensures Enabled(w, PostAnswered(j, Accepted))
  {
  }
}
