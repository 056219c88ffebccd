// What every step of a capture keeps.
module CaptureInvariants {
  import opened Common
  import opened CaptureProtocol

  // ---- the invariant --------------------------------------------------------------------------------

  // The queue is the tail of what was pushed, and only the running capture has one.
  predicate QueueOk(k: Cap) {
    k.head <= |k.pushed| && k.queue == k.pushed[k.head..] && |k.queue| <= MAX_BACKLOG
  }

  ghost predicate Queues(caps: seq<Cap>, cap: Option<nat>) {
    && (forall c :: 0 <= c < |caps| ==> QueueOk(caps[c]) && (caps[c].queue != [] ==> cap == Some(c)))
    && (cap.Some? && cap.value < |caps| ==> caps[cap.value].running)
  }

  // Recorders follow one another: a live one is the capture's latest, no retry is scheduled beside
  // it, and nothing is recorded while the key is still being derived.
  ghost predicate Lives(recs: seq<Rec>, caps: seq<Cap>) {
    forall r :: 0 <= r < |recs| && Live(recs[r]) && recs[r].cap < |caps| ==>
      caps[recs[r].cap].rec == Some(r) && caps[recs[r].cap].allMuted == !recs[r].voiced
  }

  ghost predicate Retries(timers: map<nat, Timer>, caps: seq<Cap>, recs: seq<Rec>) {
    forall t :: t in timers && timers[t].Retry? && timers[t].cap < |caps| ==>
      caps[timers[t].cap].timer == Some(t) && NoneLive(recs, timers[t].cap)
  }

  predicate NoneLive(recs: seq<Rec>, c: nat) {
    forall r :: 0 <= r < |recs| && recs[r].cap == c ==> !Live(recs[r])
  }

  predicate NoRetry(timers: map<nat, Timer>, c: nat) {
    forall t :: t in timers && timers[t].Retry? ==> timers[t].cap != c
  }

  predicate NothingRecorded(recs: seq<Rec>, c: nat) {
    forall r :: 0 <= r < |recs| ==> recs[r].cap != c
  }

  predicate NotDeriving(jobs: map<nat, Job>, c: nat) {
    forall j :: j in jobs && IsDeriving(jobs[j]) ==> jobs[j].cap != c
  }

  ghost predicate Derivings(jobs: map<nat, Job>, recs: seq<Rec>, timers: map<nat, Timer>) {
    && (forall j :: j in jobs && IsDeriving(jobs[j]) ==> NothingRecorded(recs, jobs[j].cap) && NoRetry(timers, jobs[j].cap))
    && (forall i, j :: i in jobs && j in jobs && IsDeriving(jobs[i]) && IsDeriving(jobs[j]) && jobs[i].cap == jobs[j].cap ==> i == j)
  }

  // A chunk is a recording of its own capture under the number that recording was given.
  predicate ItemOk(caps: seq<Cap>, recs: seq<Rec>, numbered: map<(Meeting, nat), nat>, c: nat, item: Item) {
    && c < |caps| && item.audio < |recs| && recs[item.audio].cap == c
    && (caps[c].meeting, item.number) in numbered && numbered[(caps[c].meeting, item.number)] == item.audio
  }

  ghost predicate Pushed(caps: seq<Cap>, recs: seq<Rec>, numbered: map<(Meeting, nat), nat>) {
    forall c, i :: 0 <= c < |caps| && 0 <= i < |caps[c].pushed| ==> ItemOk(caps, recs, numbered, c, caps[c].pushed[i])
  }

  predicate Carries(j: Job) {
    HasChunk(j) || IsLoop(j)
  }

  ghost predicate Carried(jobs: map<nat, Job>, caps: seq<Cap>, recs: seq<Rec>, numbered: map<(Meeting, nat), nat>) {
    forall j :: j in jobs && Carries(jobs[j]) ==> ItemOk(caps, recs, numbered, jobs[j].cap, jobs[j].item)
  }

  ghost predicate Posted(posts: seq<Post>, caps: seq<Cap>, recs: seq<Rec>, numbered: map<(Meeting, nat), nat>) {
    forall i :: 0 <= i < |posts| ==>
      && ItemOk(caps, recs, numbered, posts[i].cap, Item(posts[i].number, posts[i].audio))
      && posts[i].meeting == caps[posts[i].cap].meeting && posts[i].token == caps[posts[i].cap].token
  }

  // Numbers are given in order, each to one finished recording, and no recording gets two.
  ghost predicate Numbers(numbered: map<(Meeting, nat), nat>, seqs: map<Meeting, nat>, recs: seq<Rec>) {
    && (forall k :: k in numbered ==> k.0 in seqs && k.1 < seqs[k.0])
    && (forall k :: k in numbered ==> numbered[k] < |recs| && Finished(recs[numbered[k]]))
    && (forall k, l :: k in numbered && l in numbered && numbered[k] == numbered[l] ==> k == l)
  }

  predicate Finished(r: Rec) {
    r.phase.Done? && r.heard && r.voiced
  }

  // One upload loop per capture, and the flag says whether there is one; `out` is a capture whose
  // loop is between two of its jobs.
  ghost predicate Loops(jobs: map<nat, Job>, caps: seq<Cap>, out: Option<nat>) {
    && (forall j :: j in jobs && IsLoop(jobs[j]) ==> Some(jobs[j].cap) != out && (jobs[j].cap < |caps| ==> caps[jobs[j].cap].uploading))
    && (forall i, j :: i in jobs && j in jobs && IsLoop(jobs[i]) && IsLoop(jobs[j]) && jobs[i].cap == jobs[j].cap ==> i == j)
    && (forall c :: 0 <= c < |caps| && caps[c].uploading && out != Some(c) ==> HasLoop(jobs, c))
  }

  ghost predicate HasLoop(jobs: map<nat, Job>, c: nat) {
    exists j :: j in jobs && IsLoop(jobs[j]) && jobs[j].cap == c
  }

  // Every capture was started under a service key whose signature was verified.
  ghost predicate Verifying(jobs: map<nat, Job>, trusts: seq<Trust>) {
    && (forall j :: j in jobs && jobs[j].Verify? ==> jobs[j].trust < |trusts| && trusts[jobs[j].trust].ok.None?)
    && (forall i, j :: i in jobs && j in jobs && jobs[i].Verify? && jobs[j].Verify? && jobs[i].trust == jobs[j].trust ==> i == j)
  }

  ghost predicate Sessions(caps: seq<Cap>, trusts: seq<Trust>) {
    forall c :: 0 <= c < |caps| ==> SessionVerified(trusts, caps[c].session)
  }

  ghost predicate SessionVerified(trusts: seq<Trust>, session: nat) {
    exists t :: 0 <= t < |trusts| && trusts[t] == Trust(session, Some(true))
  }

  ghost predicate Between(w: World, out: Option<nat>) {
    && Refs(w) && Queues(w.caps, w.cap) && Lives(w.recs, w.caps) && Retries(w.timers, w.caps, w.recs)
    && Derivings(w.jobs, w.recs, w.timers)
    && Pushed(w.caps, w.recs, w.numbered) && Carried(w.jobs, w.caps, w.recs, w.numbered)
    && Posted(w.posts, w.caps, w.recs, w.numbered) && Numbers(w.numbered, w.seqs, w.recs)
    && Loops(w.jobs, w.caps, out) && Verifying(w.jobs, w.trusts) && Sessions(w.caps, w.trusts)
  }

  ghost predicate Inv(w: World) {
    Between(w, None)
  }

  // ---- what does not depend on what ------------------------------------------------------------------

  // Captures that differ at most in their queues, keys, recorders, timers and flags.
  ghost predicate Alike(caps: seq<Cap>, caps': seq<Cap>) {
    && |caps| <= |caps'|
    && forall c :: 0 <= c < |caps| ==>
      caps'[c].meeting == caps[c].meeting && caps'[c].token == caps[c].token && caps'[c].session == caps[c].session
  }

  // Recorders that were added or moved on.
  ghost predicate MoreRecs(recs: seq<Rec>, recs': seq<Rec>) {
    |recs| <= |recs'| && forall r :: 0 <= r < |recs| ==> recs'[r].cap == recs[r].cap && (Finished(recs[r]) ==> recs'[r] == recs[r])
  }

  ghost predicate MoreNumbers(n: map<(Meeting, nat), nat>, n': map<(Meeting, nat), nat>) {
    forall k :: k in n ==> k in n' && n'[k] == n[k]
  }

  lemma ItemFrame(caps: seq<Cap>, recs: seq<Rec>, n: map<(Meeting, nat), nat>, caps': seq<Cap>, recs': seq<Rec>, n': map<(Meeting, nat), nat>, c: nat, item: Item)
    requires Alike(caps, caps') && MoreRecs(recs, recs') && MoreNumbers(n, n') && ItemOk(caps, recs, n, c, item)
    ensures ItemOk(caps', recs', n', c, item)
  {
  }

  lemma ChunkFrame(w: World, x: World, out: Option<nat>)
    requires Between(w, out) && Alike(w.caps, x.caps) && MoreRecs(w.recs, x.recs) && MoreNumbers(w.numbered, x.numbered)
    ensures Carried(w.jobs, x.caps, x.recs, x.numbered) && Posted(w.posts, x.caps, x.recs, x.numbered)
  {
    hide Refs, Queues, Lives, Retries, Derivings, Pushed, Numbers, Loops, Verifying, Sessions, MoreNumbers, MoreRecs, ItemOk;
    forall j | j in w.jobs && Carries(w.jobs[j]) ensures ItemOk(x.caps, x.recs, x.numbered, w.jobs[j].cap, w.jobs[j].item) {
      ItemFrame(w.caps, w.recs, w.numbered, x.caps, x.recs, x.numbered, w.jobs[j].cap, w.jobs[j].item);
    }
    forall i | 0 <= i < |w.posts|
      ensures ItemOk(x.caps, x.recs, x.numbered, w.posts[i].cap, Item(w.posts[i].number, w.posts[i].audio)) && w.posts[i].cap < |w.caps|
    {
      ItemCap(w.caps, w.recs, w.numbered, w.posts[i].cap, Item(w.posts[i].number, w.posts[i].audio));
      ItemFrame(w.caps, w.recs, w.numbered, x.caps, x.recs, x.numbered, w.posts[i].cap, Item(w.posts[i].number, w.posts[i].audio));
    }
  }

  lemma ItemCap(caps: seq<Cap>, recs: seq<Rec>, n: map<(Meeting, nat), nat>, c: nat, item: Item)
    requires ItemOk(caps, recs, n, c, item)
    ensures c < |caps|
  {
  }

  // The chunks already pushed, for captures whose queues did not get more.
  lemma PushedFrame(w: World, x: World, out: Option<nat>)
    requires Between(w, out) && Alike(w.caps, x.caps) && MoreRecs(w.recs, x.recs) && MoreNumbers(w.numbered, x.numbered)
    requires forall c :: 0 <= c < |x.caps| ==> x.caps[c].pushed == if c < |w.caps| then w.caps[c].pushed else []
    ensures Pushed(x.caps, x.recs, x.numbered)
  {
    hide Refs, Queues, Lives, Retries, Derivings, Posted, Carried, Numbers, Loops, Verifying, Sessions, MoreNumbers, MoreRecs, ItemOk, Alike;
    forall c, i | 0 <= c < |x.caps| && 0 <= i < |x.caps[c].pushed| ensures ItemOk(x.caps, x.recs, x.numbered, c, x.caps[c].pushed[i]) {
      assert c < |w.caps|;
      ItemFrame(w.caps, w.recs, w.numbered, x.caps, x.recs, x.numbered, c, w.caps[c].pushed[i]);
    }
  }

  lemma SessionFrame(caps: seq<Cap>, caps': seq<Cap>, trusts: seq<Trust>)
    requires Sessions(caps, trusts) && Alike(caps, caps') && |caps| == |caps'|
    ensures Sessions(caps', trusts)
  {
    hide SessionVerified;
  }

  // Captures with the same recorders, timers and mute flags.
  ghost predicate SameRecs(caps: seq<Cap>, caps': seq<Cap>) {
    && |caps| == |caps'|
    && forall c :: 0 <= c < |caps| ==> caps'[c].rec == caps[c].rec && caps'[c].timer == caps[c].timer && caps'[c].allMuted == caps[c].allMuted
  }

  lemma RecFrame(recs: seq<Rec>, caps: seq<Cap>, caps': seq<Cap>, timers: map<nat, Timer>)
    requires SameRecs(caps, caps') && RecRefs(recs, caps) && Lives(recs, caps) && Retries(timers, caps, recs)
    ensures RecRefs(recs, caps') && Lives(recs, caps') && Retries(timers, caps', recs)
  {
    hide NoneLive;
  }

  lemma LoopFrame(jobs: map<nat, Job>, caps: seq<Cap>, caps': seq<Cap>, out: Option<nat>)
    requires Loops(jobs, caps, out) && |caps| == |caps'|
    requires forall c :: 0 <= c < |caps| ==> caps'[c].uploading == caps[c].uploading
    ensures Loops(jobs, caps', out)
  {
    hide HasLoop;
  }

  lemma QueueFrame(caps: seq<Cap>, caps': seq<Cap>, cap: Option<nat>)
    requires Queues(caps, cap) && |caps| == |caps'|
    requires forall c :: 0 <= c < |caps| ==> caps'[c].queue == caps[c].queue && caps'[c].pushed == caps[c].pushed && caps'[c].head == caps[c].head
    requires forall c :: 0 <= c < |caps| ==> caps'[c].running == caps[c].running
    ensures Queues(caps', cap)
  {
    forall c | 0 <= c < |caps'| ensures QueueOk(caps'[c]) {
      assert QueueOk(caps[c]);
    }
  }

  // ---- changing a queue -----------------------------------------------------------------------------

  // The parts of a capture that only the queue and the upload loop look at.
  predicate SameButQueue(k: Cap, l: Cap) {
    l == k.(queue := l.queue, pushed := l.pushed, head := l.head, tries := l.tries)
  }

  lemma SetQueueKeeps(w: World, c: nat, l: Cap, out: Option<nat>)
    requires Between(w, out) && c < |w.caps| && SameButQueue(w.caps[c], l)
    requires QueueOk(l) && (l.queue != [] ==> w.cap == Some(c))
    requires forall i :: 0 <= i < |l.pushed| ==> ItemOk(w.caps, w.recs, w.numbered, c, l.pushed[i])
    ensures Between(SetCap(w, c, l), out)
  {
    hide RecRefs, JobRefs, TimerRefs, Lives, Retries, Derivings, Posted, Carried, Numbers, Loops, Verifying, Sessions, MoreRecs, MoreNumbers, QueueOk;
    var x := SetCap(w, c, l);
    assert Alike(w.caps, x.caps);
    assert MoreRecs(w.recs, w.recs) && MoreNumbers(w.numbered, w.numbered) by { SameIsMore(w); }
    ChunkFrame(w, x, out);
    SessionFrame(w.caps, x.caps, w.trusts);
    RecFrame(w.recs, w.caps, x.caps, w.timers);
    LoopFrame(w.jobs, w.caps, x.caps, out);
    PushedSet(w, c, l);
  }

  lemma SameIsMore(w: World)
    ensures Alike(w.caps, w.caps) && MoreRecs(w.recs, w.recs) && MoreNumbers(w.numbered, w.numbered)
  {
  }

  lemma PushedSet(w: World, c: nat, l: Cap)
    requires Pushed(w.caps, w.recs, w.numbered) && c < |w.caps| && SameButQueue(w.caps[c], l)
    requires forall i :: 0 <= i < |l.pushed| ==> ItemOk(w.caps, w.recs, w.numbered, c, l.pushed[i])
    ensures Pushed(w.caps[c := l], w.recs, w.numbered)
  {
  }

  // ---- timers and recorders -------------------------------------------------------------------------

  lemma FewerTimers(w: World, gone: set<nat>, out: Option<nat>)
    requires Between(w, out)
    ensures Between(w.(timers := w.timers - gone), out)
  {
    hide RecRefs, JobRefs, Lives, Posted, Carried, Numbers, Loops, Verifying, Sessions, Pushed, Queues, NoneLive, NothingRecorded;
  }

  lemma RecMoves(w: World, r: nat, x: Rec, out: Option<nat>)
    requires Between(w, out) && r < |w.recs| && !Finished(w.recs[r])
    requires x.cap == w.recs[r].cap && x.voiced == w.recs[r].voiced && (Live(x) ==> Live(w.recs[r]))
    ensures Between(SetRec(w, r, x), out)
  {
    hide JobRefs, TimerRefs, Posted, Carried, Loops, Verifying, Sessions, Pushed, Queues, MoreRecs, MoreNumbers, Alike, Lives, Retries, Derivings, RecRefs, Numbers;
    var y := SetRec(w, r, x);
    assert MoreRecs(w.recs, y.recs) && MoreNumbers(w.numbered, w.numbered) && Alike(w.caps, w.caps) by { MovedIsMore(w, r, x); }
    ChunkFrame(w, y, out);
    PushedFrame(w, y, out);
    RecMovesLives(w, r, x);
    RecMovesNumbers(w, r, x);
  }

  lemma MovedIsMore(w: World, r: nat, x: Rec)
    requires r < |w.recs| && !Finished(w.recs[r]) && x.cap == w.recs[r].cap
    ensures Alike(w.caps, w.caps) && MoreRecs(w.recs, w.recs[r := x]) && MoreNumbers(w.numbered, w.numbered)
  {
  }

  lemma RecMovesLives(w: World, r: nat, x: Rec)
    requires r < |w.recs| && x.cap == w.recs[r].cap && x.voiced == w.recs[r].voiced && (Live(x) ==> Live(w.recs[r]))
    requires RecRefs(w.recs, w.caps) && Lives(w.recs, w.caps) && Retries(w.timers, w.caps, w.recs) && Derivings(w.jobs, w.recs, w.timers)
    ensures var recs := w.recs[r := x];
            RecRefs(recs, w.caps) && Lives(recs, w.caps) && Retries(w.timers, w.caps, recs) && Derivings(w.jobs, recs, w.timers)
  {
    hide NoRetry;
    var recs := w.recs[r := x];
    assert forall c: nat :: NoneLive(w.recs, c) ==> NoneLive(recs, c);
    assert forall c: nat :: NothingRecorded(w.recs, c) ==> NothingRecorded(recs, c);
  }

  lemma RecMovesNumbers(w: World, r: nat, x: Rec)
    requires r < |w.recs| && !Finished(w.recs[r]) && Numbers(w.numbered, w.seqs, w.recs)
    ensures Numbers(w.numbered, w.seqs, w.recs[r := x])
  {
  }

  // ---- starting and stopping ------------------------------------------------------------------------

  // The flags, the key and the queue of a capture change, and perhaps which one is running.
  lemma CloseKeeps(w: World, c: nat, out: Option<nat>)
    requires Between(w, out) && w.cap == Some(c)
    ensures Between(SetCap(w, c, Closed(w.caps[c])).(cap := None), out)
  {
    hide RecRefs, JobRefs, TimerRefs, Lives, Retries, Derivings, Posted, Carried, Numbers, Loops, Verifying, Sessions, MoreRecs, MoreNumbers, Pushed, Alike;
    var x := SetCap(w, c, Closed(w.caps[c])).(cap := None);
    FlagsFrame(w, c, Closed(w.caps[c]), out);
  }

  predicate SameButFlags(k: Cap, l: Cap) {
    l == k.(running := l.running, key := l.key, queue := l.queue, head := l.head)
  }

  lemma FlagsFrame(w: World, c: nat, l: Cap, out: Option<nat>)
    requires Between(w, out) && c < |w.caps| && SameButFlags(w.caps[c], l)
    ensures var caps := w.caps[c := l];
            && RecRefs(w.recs, caps) && Lives(w.recs, caps) && Retries(w.timers, caps, w.recs) && Loops(w.jobs, caps, out)
            && Pushed(caps, w.recs, w.numbered) && Carried(w.jobs, caps, w.recs, w.numbered)
            && Posted(w.posts, caps, w.recs, w.numbered) && Sessions(caps, w.trusts)
  {
    hide RecRefs, JobRefs, TimerRefs, Lives, Retries, Derivings, Posted, Carried, Numbers, Loops, Verifying, Sessions, MoreRecs, MoreNumbers, Queues, Pushed;
    var x := SetCap(w, c, l);
    assert Alike(w.caps, x.caps);
    SameIsMore(w);
    ChunkFrame(w, x, out);
    PushedFrame(w, x, out);
    SessionFrame(w.caps, x.caps, w.trusts);
    RecFrame(w.recs, w.caps, x.caps, w.timers);
    LoopFrame(w.jobs, w.caps, x.caps, out);
  }

  lemma StopRecKeeps(w: World, r: nat, out: Option<nat>)
    requires Between(w, out) && r < |w.recs|
    ensures Between(StopRec(w, r), out)
  {
    hide Between;
    if w.recs[r].phase.Active? {
      RecMoves(w, r, w.recs[r].(phase := Stopping), out);
    }
  }

  lemma ClearKeeps(w: World, c: nat, out: Option<nat>)
    requires Between(w, out) && c < |w.caps|
    ensures Between(ClearTimer(w, c), out) && ClearTimer(w, c) == w.(timers := ClearTimer(w, c).timers)
  {
    hide Between;
    if w.caps[c].timer.Some? {
      FewerTimers(w, {w.caps[c].timer.value}, out);
    }
  }

  lemma StopCapRecKeeps(w: World, c: nat, out: Option<nat>)
    requires Between(w, out) && c < |w.caps|
    ensures Between(StopCapRec(w, c), out) && StopCapRec(w, c) == w.(recs := StopCapRec(w, c).recs)
  {
    hide Queues, JobRefs, TimerRefs, Lives, Retries, Derivings, Posted, Carried, Numbers, Loops, Verifying, Sessions, Pushed;
    if w.caps[c].rec.Some? {
      StopRecKeeps(w, w.caps[c].rec.value, out);
    }
  }

  lemma BetweenRefs(w: World, out: Option<nat>)
    requires Between(w, out)
    ensures Refs(w)
  {
  }

  lemma StoppedKeeps(w: World)
    requires Inv(w)
    ensures Inv(Stopped(w)) && Stopped(w).cap.None? && Stopped(w).trusts == w.trusts && Stopped(w).next == w.next && Stopped(w).view == w.view
    ensures Stopped(w).jobs == w.jobs && |Stopped(w).caps| == |w.caps| && Stopped(w).posts == w.posts && Stopped(w).trusted == w.trusted
  {
    hide Between, ClearTimer, StopCapRec, Closed;
    BetweenRefs(w, None);
    if w.cap.Some? {
      var c := w.cap.value;
      ClearKeeps(w, c, None);
      BetweenRefs(ClearTimer(w, c), None);
      StopCapRecKeeps(ClearTimer(w, c), c, None);
      CloseKeeps(StopCapRec(ClearTimer(w, c), c), c, None);
    }
  }

  lemma StartedKeeps(w: World, v: View, g: Grant)
    requires Inv(w) && w.cap.None? && SessionVerified(w.trusts, v.session)
    ensures Inv(Started(w, v, g))
  {
    hide Posted, Carried, Pushed, Numbers, MoreRecs, MoreNumbers, SessionVerified, QueueOk;
    var x := Started(w, v, g);
    SameIsMore(w);
    assert Alike(w.caps, x.caps);
    ChunkFrame(w, x, None);
    PushedFrame(w, x, None);
    assert QueueOk(NewCap(v, g)) by { FreshQueue(v, g); }
    assert Carried(x.jobs, x.caps, x.recs, x.numbered) by {
      NewJobCarried(w.jobs, w.next, MakeKey(|w.caps|), x.caps, x.recs, x.numbered);
    }
    StartedJobs(w, v, g);
  }

  lemma FreshQueue(v: View, g: Grant)
    ensures QueueOk(NewCap(v, g))
  {
  }

  lemma NewJobCarried(jobs: map<nat, Job>, next: nat, j: Job, caps: seq<Cap>, recs: seq<Rec>, n: map<(Meeting, nat), nat>)
    requires Carried(jobs, caps, recs, n) && (Carries(j) ==> ItemOk(caps, recs, n, j.cap, j.item))
    ensures Carried(jobs[next := j], caps, recs, n)
  {
    hide ItemOk;
  }

  lemma StartedJobs(w: World, v: View, g: Grant)
    requires Inv(w)
    ensures var x := Started(w, v, g);
            Loops(x.jobs, x.caps, None) && Derivings(x.jobs, x.recs, x.timers) && Verifying(x.jobs, x.trusts)
  {
    hide Loops, Derivings, Verifying;
    var c := |w.caps|;
    FreshJob(w, None);
    MoreCapsLoops(w.jobs, w.caps, NewCap(v, g));
    NewJobLoops(w.jobs, w.next, MakeKey(c), w.caps + [NewCap(v, g)], None);
    NewJobVerifying(w.jobs, w.next, MakeKey(c), w.trusts);
    NewJobDerivings(w.jobs, w.next, MakeKey(c), w.recs, w.timers);
  }

  // ---- jobs -----------------------------------------------------------------------------------------

  lemma FreshJob(w: World, out: Option<nat>)
    requires Between(w, out)
    ensures w.next !in w.jobs && w.next !in w.timers && NotDeriving(w.jobs, |w.caps|) && NothingRecorded(w.recs, |w.caps|) && NoRetry(w.timers, |w.caps|)
  {
    hide Posted, Carried, Pushed, Numbers, Queues, Lives, Retries, Sessions, Loops, Derivings, Verifying;
  }

  lemma MoreCapsLoops(jobs: map<nat, Job>, caps: seq<Cap>, k: Cap)
    requires Loops(jobs, caps, None) && !k.uploading && forall j :: j in jobs && IsLoop(jobs[j]) ==> jobs[j].cap < |caps|
    ensures Loops(jobs, caps + [k], None)
  {
    hide HasLoop;
  }

  lemma NewJobLoops(jobs: map<nat, Job>, next: nat, j: Job, caps: seq<Cap>, out: Option<nat>)
    requires Loops(jobs, caps, out) && next !in jobs
    requires IsLoop(j) ==> out == Some(j.cap) && (j.cap < |caps| ==> caps[j.cap].uploading)
    ensures Loops(jobs[next := j], caps, if IsLoop(j) then None else out)
  {
    var jobs' := jobs[next := j];
    assert IsLoop(j) ==> jobs'[next] == j;
    forall c | 0 <= c < |caps| && caps[c].uploading && (if IsLoop(j) then None else out) != Some(c) ensures HasLoop(jobs', c) {
      if IsLoop(j) && j.cap == c {
        assert jobs'[next] == j;
      } else {
        var i :| i in jobs && IsLoop(jobs[i]) && jobs[i].cap == c;
        assert jobs'[i] == jobs[i];
      }
    }
  }

  lemma NewJobVerifying(jobs: map<nat, Job>, next: nat, j: Job, trusts: seq<Trust>)
    requires Verifying(jobs, trusts) && next !in jobs && !j.Verify?
    ensures Verifying(jobs[next := j], trusts)
  {
  }

  lemma NewJobDerivings(jobs: map<nat, Job>, next: nat, j: Job, recs: seq<Rec>, timers: map<nat, Timer>)
    requires Derivings(jobs, recs, timers) && next !in jobs
    requires IsDeriving(j) ==> NotDeriving(jobs, j.cap) && NothingRecorded(recs, j.cap) && NoRetry(timers, j.cap)
    ensures Derivings(jobs[next := j], recs, timers)
  {
    hide NothingRecorded, NoRetry;
  }

  // A job of the kinds that refer to a capture.
  lemma NewJobKeeps(w: World, j: Job, out: Option<nat>)
    requires Between(w, out) && !j.Verify? && j.cap < |w.caps|
    requires Carries(j) ==> ItemOk(w.caps, w.recs, w.numbered, j.cap, j.item)
    requires IsLoop(j) ==> out == Some(j.cap) && w.caps[j.cap].uploading
    requires IsDeriving(j) ==> NotDeriving(w.jobs, j.cap) && NothingRecorded(w.recs, j.cap) && NoRetry(w.timers, j.cap)
    ensures Between(NewJob(w, j), if IsLoop(j) then None else out)
  {
    hide Posted, Carried, Pushed, Numbers, Queues, Lives, Retries, Sessions, Loops, Derivings, Verifying, NotDeriving, NothingRecorded, NoRetry, RecRefs, ItemOk;
    FreshJob(w, out);
    NewJobCarried(w.jobs, w.next, j, w.caps, w.recs, w.numbered);
    NewJobLoops(w.jobs, w.next, j, w.caps, out);
    NewJobVerifying(w.jobs, w.next, j, w.trusts);
    NewJobDerivings(w.jobs, w.next, j, w.recs, w.timers);
  }

  lemma DropJobLoops(jobs: map<nat, Job>, j: nat, caps: seq<Cap>)
    requires Loops(jobs, caps, None) && j in jobs
    ensures Loops(jobs - {j}, caps, if IsLoop(jobs[j]) then Some(jobs[j].cap) else None)
  {
    var jobs' := jobs - {j};
    forall c | 0 <= c < |caps| && caps[c].uploading && (IsLoop(jobs[j]) ==> jobs[j].cap != c) ensures HasLoop(jobs', c) {
      var i :| i in jobs && IsLoop(jobs[i]) && jobs[i].cap == c;
      assert i in jobs' && jobs'[i] == jobs[i];
    }
  }

  // A job is done; if it was the upload loop's, the loop is between two jobs.
  lemma DropJobKeeps(w: World, j: nat)
    requires Inv(w) && j in w.jobs
    ensures Between(WithoutJob(w, j), if IsLoop(w.jobs[j]) then Some(w.jobs[j].cap) else None)
  {
    hide Posted, Pushed, Numbers, Queues, Lives, Retries, Sessions, Loops, NotDeriving, NothingRecorded, NoRetry, RecRefs, ItemOk, HasLoop;
    DropJobLoops(w.jobs, j, w.caps);
  }

  lemma JobFacts(w: World, j: nat, out: Option<nat>)
    requires Between(w, out) && j in w.jobs && !w.jobs[j].Verify?
    ensures w.jobs[j].cap < |w.caps|
    ensures Carries(w.jobs[j]) ==> ItemOk(w.caps, w.recs, w.numbered, w.jobs[j].cap, w.jobs[j].item)
    ensures IsLoop(w.jobs[j]) ==> w.caps[w.jobs[j].cap].uploading
    ensures IsDeriving(w.jobs[j]) ==> NothingRecorded(w.recs, w.jobs[j].cap) && NoRetry(w.timers, w.jobs[j].cap)
    ensures IsDeriving(w.jobs[j]) ==> NotDeriving(WithoutJob(w, j).jobs, w.jobs[j].cap)
  {
    hide Posted, Pushed, Numbers, Queues, Lives, Retries, Sessions, NothingRecorded, NoRetry, RecRefs, ItemOk, HasLoop;
  }

  // ---- the pieces of page code ------------------------------------------------------------------------

  lemma WantedIsVerified(w: World)
    requires Refs(w) && Wanted(w)
    ensures SessionVerified(w.trusts, w.view.value.session)
  {
    assert w.trusts[w.trusted.value] == Trust(w.view.value.session, Some(true));
  }

  lemma SyncedKeeps(w: World)
    requires Inv(w)
    ensures Inv(Synced(w))
  {
    hide Between, Stopped, SessionVerified;
    BetweenRefs(w, None);
    StoppedKeeps(w);
    if Wanted(w) && !UpToDate(w) {
      WantedIsVerified(w);
      StartedKeeps(Stopped(w), w.view.value, w.view.value.grant.value);
    }
  }

  // Nothing of this capture is recording or about to.
  predicate Quiet(w: World, c: nat) {
    NoneLive(w.recs, c) && NoRetry(w.timers, c) && NotDeriving(w.jobs, c)
  }

  lemma TimerKeeps(w: World, c: nat, t: Timer)
    requires Inv(w) && c < |w.caps| && Quiet(w, c) && t == Retry(c)
    ensures Inv(NewTimer(w, c, t))
  {
    hide Posted, Carried, Pushed, Numbers, Queues, Lives, Retries, Sessions, Loops, Verifying, NotDeriving, NothingRecorded, NoneLive, RecRefs, ItemOk, Alike, MoreRecs, MoreNumbers, Derivings;
    FreshJob(w, None);
    TimerFrame(w, c);
    RetryTimer(w, c);
  }

  lemma RetryTimer(w: World, c: nat)
    requires Inv(w) && c < |w.caps| && Quiet(w, c)
    ensures var x := NewTimer(w, c, Retry(c));
            Retries(x.timers, x.caps, x.recs) && Derivings(x.jobs, x.recs, x.timers)
  {
    hide Posted, Carried, Pushed, Numbers, Queues, Lives, Sessions, Loops, Verifying, NothingRecorded, NoneLive, RecRefs, ItemOk;
  }

  // Setting a capture's timer field matters only to its own retries.
  lemma TimerFrame(w: World, c: nat)
    requires Inv(w) && c < |w.caps|
    ensures var caps := w.caps[c := w.caps[c].(timer := Some(w.next))];
            && RecRefs(w.recs, caps) && Lives(w.recs, caps) && Loops(w.jobs, caps, None) && Queues(caps, w.cap)
            && Pushed(caps, w.recs, w.numbered) && Carried(w.jobs, caps, w.recs, w.numbered)
            && Posted(w.posts, caps, w.recs, w.numbered) && Sessions(caps, w.trusts)
  {
    hide JobRefs, TimerRefs, Retries, Derivings, Posted, Carried, Numbers, Loops, Verifying, Sessions, MoreRecs, MoreNumbers, Pushed, QueueOk;
    var x := SetCap(w, c, w.caps[c].(timer := Some(w.next)));
    SameIsMore(w);
    assert Alike(w.caps, x.caps);
    ChunkFrame(w, x, None);
    PushedFrame(w, x, None);
    SessionFrame(w.caps, x.caps, w.trusts);
    LoopFrame(w.jobs, w.caps, x.caps, None);
    QueueFrame(w.caps, x.caps, w.cap);
  }

  lemma CutKeeps(w: World, c: nat, r: nat)
    requires Inv(w) && c < |w.caps| && NoRetry(w.timers, c) && r < |w.recs|
    ensures Inv(NewTimer(w, c, Cut(r)))
  {
    hide Posted, Carried, Pushed, Numbers, Queues, Lives, Sessions, Loops, Verifying, NotDeriving, NothingRecorded, NoneLive, RecRefs, ItemOk;
    FreshJob(w, None);
    TimerFrame(w, c);
  }

  lemma NewRecKeeps(w: World, c: nat, muted: bool, phase: Phase)
    requires Inv(w) && c < |w.caps| && Quiet(w, c) && !phase.Done?
    ensures Inv(NewRec(w, c, muted, phase))
  {
    hide JobRefs, Posted, Carried, Pushed, Numbers, Lives, Retries, Derivings, Sessions, Loops, Verifying, RecRefs, ItemOk, MoreRecs, MoreNumbers, Alike, QueueOk, NoneLive, NotDeriving, NothingRecorded, NoRetry;
    var x := NewRec(w, c, muted, phase);
    NewRecFrames(w, c, muted, phase);
    ChunkFrame(w, x, None);
    PushedFrame(w, x, None);
    SessionFrame(w.caps, x.caps, w.trusts);
    LoopFrame(w.jobs, w.caps, x.caps, None);
    QueueFrame(w.caps, x.caps, w.cap);
    NewRecLives(w, c, muted, phase);
    NewRecChain(w, c, muted, phase);
  }

  lemma NewRecFrames(w: World, c: nat, muted: bool, phase: Phase)
    requires Inv(w) && c < |w.caps|
    ensures var x := NewRec(w, c, muted, phase);
            Alike(w.caps, x.caps) && MoreRecs(w.recs, x.recs) && MoreNumbers(w.numbered, x.numbered) && Numbers(x.numbered, x.seqs, x.recs)
  {
    hide RecRefs, JobRefs, TimerRefs, Posted, Carried, Pushed, Lives, Retries, Derivings, Sessions, Loops, Verifying, Queues;
  }

  lemma NewRecLives(w: World, c: nat, muted: bool, phase: Phase)
    requires Inv(w) && c < |w.caps| && NoneLive(w.recs, c)
    ensures var x := NewRec(w, c, muted, phase);
            RecRefs(x.recs, x.caps) && Lives(x.recs, x.caps)
  {
    hide JobRefs, TimerRefs, Posted, Carried, Pushed, Retries, Derivings, Sessions, Loops, Verifying, Queues, Numbers;
  }

  lemma NewRecChain(w: World, c: nat, muted: bool, phase: Phase)
    requires Inv(w) && c < |w.caps| && Quiet(w, c)
    ensures var x := NewRec(w, c, muted, phase);
            Retries(x.timers, x.caps, x.recs) && Derivings(x.jobs, x.recs, x.timers)
  {
    hide JobRefs, RecRefs, TimerRefs, Posted, Carried, Pushed, Lives, Sessions, Loops, Verifying, Queues, Numbers;
    var x := NewRec(w, c, muted, phase);
    assert forall d: nat :: d != c && NoneLive(w.recs, d) ==> NoneLive(x.recs, d);
    assert forall d: nat :: d != c && NothingRecorded(w.recs, d) ==> NothingRecorded(x.recs, d);
  }

  lemma RecordingKeeps(w: World, c: nat, mic: Mic)
    requires Inv(w) && c < |w.caps| && Quiet(w, c)
    ensures Inv(Recording(w, c, mic))
  {
    hide Between, NoneLive, NoRetry, NotDeriving;
    if w.caps[c].running && w.cap == Some(c) {
      match mic
      case NoTrack => TimerKeeps(w, c, Retry(c));
      case NoRecorder =>
      case WontStart(muted) => NewRecKeeps(w, c, muted, Idle);
      case Starts(muted) =>
        NewRecKeeps(w, c, muted, Active);
        CutKeeps(NewRec(w, c, muted, Active), c, |w.recs|);
    }
  }

  lemma NumberedKeeps(w: World, c: nat, r: nat)
    requires Inv(w) && c < |w.caps| && r < |w.recs| && w.recs[r].cap == c && Finished(w.recs[r])
    requires forall k :: k in w.numbered ==> w.numbered[k] != r
    ensures Inv(Numbered(w, c, r))
  {
    hide RecRefs, JobRefs, TimerRefs, Posted, Carried, Pushed, Queues, Lives, Retries, Derivings, Sessions, Loops, Verifying, MoreRecs, MoreNumbers, Alike, ItemOk, Numbers;
    var m := w.caps[c].meeting;
    var n := NextNumber(w, m);
    var x := w.(seqs := w.seqs[m := n + 1], numbered := w.numbered[(m, n) := r]);
    NextNumberIsNew(w, m, r);
    SameIsMore(w);
    assert MoreNumbers(w.numbered, x.numbered) by { OneMoreNumber(w.numbered, (m, n), r); }
    ChunkFrame(w, x, None);
    PushedFrame(w, x, None);
    assert ItemOk(x.caps, x.recs, x.numbered, c, Item(n, r)) by { NewItem(x, c, n, r); }
    NewJobKeeps(x, ReadBytes(c, Item(n, r)), None);
  }

  lemma NextNumberIsNew(w: World, m: Meeting, r: nat)
    requires Numbers(w.numbered, w.seqs, w.recs) && r < |w.recs| && Finished(w.recs[r])
    requires forall k :: k in w.numbered ==> w.numbered[k] != r
    ensures var n := NextNumber(w, m);
            (m, n) !in w.numbered && Numbers(w.numbered[(m, n) := r], w.seqs[m := n + 1], w.recs)
  {
  }

  lemma OneMoreNumber(n: map<(Meeting, nat), nat>, k: (Meeting, nat), r: nat)
    requires k !in n
    ensures MoreNumbers(n, n[k := r])
  {
  }

  lemma NewItem(w: World, c: nat, n: nat, r: nat)
    requires c < |w.caps| && r < |w.recs| && w.recs[r].cap == c && (w.caps[c].meeting, n) in w.numbered && w.numbered[(w.caps[c].meeting, n)] == r
    ensures ItemOk(w.caps, w.recs, w.numbered, c, Item(n, r))
  {
  }

  // A recorder that is about to report its end is its capture's only activity, and not numbered yet.
  lemma LiveFacts(w: World, r: nat)
    requires Inv(w) && r < |w.recs| && Live(w.recs[r])
    ensures w.recs[r].cap < |w.caps| && w.caps[w.recs[r].cap].allMuted == !w.recs[r].voiced
    ensures forall q :: 0 <= q < |w.recs| && q != r && w.recs[q].cap == w.recs[r].cap ==> !Live(w.recs[q])
    ensures NoRetry(w.timers, w.recs[r].cap) && NotDeriving(w.jobs, w.recs[r].cap)
    ensures forall k :: k in w.numbered ==> w.numbered[k] != r
  {
    hide JobRefs, Posted, Carried, Pushed, Queues, Sessions, Loops, Verifying;
  }

  lemma RecorderDoneKeeps(w: World, r: nat, mic: Mic)
    requires Inv(w) && r < |w.recs| && Live(w.recs[r])
    ensures Inv(RecorderDone(w, r, mic))
  {
    LiveFacts(w, r);
    hide Between, NoRetry, NotDeriving;
    BetweenRefs(w, None);
    var c := w.recs[r].cap;
    var x := SetRec(w, r, w.recs[r].(phase := Done));
    RecMoves(w, r, w.recs[r].(phase := Done), None);
    assert NoneLive(x.recs, c);
    if Keeps(w, r) {
      NumberedKeeps(x, c, r);
      NumberedQuiet(x, c, r);
      RecordingKeeps(Numbered(x, c, r), c, mic);
    } else {
      RecordingKeeps(x, c, mic);
    }
  }

  lemma NumberedQuiet(w: World, c: nat, r: nat)
    requires Refs(w) && c < |w.caps| && Quiet(w, c)
    ensures Quiet(Numbered(w, c, r), c)
  {
    hide NoneLive, NoRetry;
  }

  // ---- the upload loop ----------------------------------------------------------------------------------

  lemma PostKeeps(w: World, c: nat, p: Post, out: Option<nat>)
    requires Between(w, out) && c < |w.caps| && p.cap == c && p.meeting == w.caps[c].meeting && p.token == w.caps[c].token
    requires ItemOk(w.caps, w.recs, w.numbered, c, Item(p.number, p.audio))
    ensures Between(w.(posts := w.posts + [p]), out)
  {
    hide RecRefs, JobRefs, TimerRefs, Carried, Pushed, Queues, Lives, Retries, Derivings, Sessions, Loops, Verifying, Numbers, ItemOk;
    assert Posted(w.posts + [p], w.caps, w.recs, w.numbered);
  }

  lemma QueueHead(w: World, c: nat, out: Option<nat>)
    requires Between(w, out) && c < |w.caps| && w.caps[c].queue != []
    ensures w.caps[c].head < |w.caps[c].pushed| && w.caps[c].queue[0] == w.caps[c].pushed[w.caps[c].head]
    ensures ItemOk(w.caps, w.recs, w.numbered, c, w.caps[c].queue[0])
  {
    hide Refs, Carried, Posted, Lives, Retries, Derivings, Sessions, Loops, Verifying, Numbers, ItemOk;
    assert QueueOk(w.caps[c]);
  }

  lemma LoopEnds(w: World, c: nat)
    requires Between(w, Some(c)) && c < |w.caps|
    ensures Inv(SetCap(w, c, w.caps[c].(uploading := false)))
  {
    hide JobRefs, TimerRefs, Posted, Carried, Numbers, Derivings, Verifying, Sessions, MoreRecs, MoreNumbers, Pushed, QueueOk, RecRefs, Lives, Retries, Queues, HasLoop;
    var x := SetCap(w, c, w.caps[c].(uploading := false));
    SameIsMore(w);
    assert Alike(w.caps, x.caps);
    ChunkFrame(w, x, Some(c));
    PushedFrame(w, x, Some(c));
    SessionFrame(w.caps, x.caps, w.trusts);
    RecFrame(w.recs, w.caps, x.caps, w.timers);
    QueueFrame(w.caps, x.caps, w.cap);
  }

  lemma LoopBegins(w: World, c: nat)
    requires Inv(w) && c < |w.caps| && !w.caps[c].uploading
    ensures Between(SetCap(w, c, w.caps[c].(uploading := true)), Some(c))
  {
    hide JobRefs, TimerRefs, Posted, Carried, Numbers, Derivings, Verifying, Sessions, MoreRecs, MoreNumbers, Pushed, QueueOk, RecRefs, Lives, Retries, Queues, HasLoop;
    var x := SetCap(w, c, w.caps[c].(uploading := true));
    SameIsMore(w);
    assert Alike(w.caps, x.caps);
    ChunkFrame(w, x, None);
    PushedFrame(w, x, None);
    SessionFrame(w.caps, x.caps, w.trusts);
    RecFrame(w.recs, w.caps, x.caps, w.timers);
    QueueFrame(w.caps, x.caps, w.cap);
  }

  lemma TurnKeeps(w: World, c: nat)
    requires Between(w, Some(c)) && c < |w.caps| && w.caps[c].uploading
    ensures Inv(Turn(w, c))
  {
    hide Between, ItemOk;
    var k := w.caps[c];
    if w.cap == Some(c) && k.queue != [] {
      QueueHead(w, c, Some(c));
      var p := Post(c, k.meeting, k.queue[0].number, k.token, k.queue[0].audio);
      PostKeeps(w, c, p, Some(c));
      NewJobKeeps(w.(posts := w.posts + [p]), Posting(c, k.queue[0], k.head), Some(c));
    } else {
      LoopEnds(w, c);
    }
  }

  lemma UploadKeeps(w: World, c: nat)
    requires Inv(w) && c < |w.caps|
    ensures Inv(Upload(w, c))
  {
    hide Between, Turn;
    if !w.caps[c].uploading {
      LoopBegins(w, c);
      TurnKeeps(SetCap(w, c, w.caps[c].(uploading := true)), c);
    }
  }

  lemma PushOk(k: Cap, item: Item)
    requires QueueOk(k)
    ensures QueueOk(Push(k, item)) && Push(k, item).pushed == k.pushed + [item]
  {
    var q := Trim(k.queue + [item]);
    var all := k.pushed + [item];
    assert k.queue + [item] == all[k.head..];
    assert q == all[|all| - |q|..];
  }

  lemma CapFacts(w: World, c: nat, out: Option<nat>)
    requires Between(w, out) && c < |w.caps|
    ensures QueueOk(w.caps[c]) && (w.caps[c].queue != [] ==> w.cap == Some(c)) && (w.cap == Some(c) ==> w.caps[c].running)
    ensures forall i :: 0 <= i < |w.caps[c].pushed| ==> ItemOk(w.caps, w.recs, w.numbered, c, w.caps[c].pushed[i])
  {
    hide Refs, Carried, Posted, Lives, Retries, Derivings, Sessions, Loops, Verifying, Numbers, ItemOk;
  }

  lemma QueuedKeeps(w: World, c: nat, item: Item)
    requires Inv(w) && c < |w.caps| && ItemOk(w.caps, w.recs, w.numbered, c, item)
    ensures Inv(Queued(w, c, item))
  {
    hide Between, ItemOk, Upload, QueueOk;
    if w.cap == Some(c) {
      var k := w.caps[c];
      CapFacts(w, c, None);
      PushOk(k, item);
      SetQueueKeeps(w, c, Push(k, item), None);
      UploadKeeps(SetCap(w, c, Push(k, item)), c);
    }
  }

  lemma ShiftOk(k: Cap)
    requires QueueOk(k)
    ensures QueueOk(Shift(k)) && QueueOk(Emptied(k))
  {
  }

  lemma AnsweredKeeps(w: World, c: nat, item: Item, at: nat, a: Answer)
    requires Between(w, Some(c)) && c < |w.caps| && w.caps[c].uploading && ItemOk(w.caps, w.recs, w.numbered, c, item)
    ensures Inv(Answered(w, c, item, at, a))
  {
    hide Between, ItemOk, Turn, QueueOk;
    var k := w.caps[c];
    CapFacts(w, c, Some(c));
    var k' := k.(tries := k.tries[item.number := Tries(k, item.number) + 1]);
    SameQueue(k, k');
    if w.cap != Some(c) {
      LoopEnds(w, c);
    } else if a.Accepted? {
      NextTurn(w, c, Shift(k));
    } else if a.Refused? {
      NextTurn(w, c, Emptied(k));
    } else if Tries(k', item.number) > MAX_TRIES {
      NextTurn(w, c, Shift(k'));
    } else {
      SetQueueKeeps(w, c, k', Some(c));
      assert ItemOk(w.caps[c := k'], w.recs, w.numbered, c, item) by { ItemSame(w, c, k', item); }
      NewJobKeeps(SetCap(w, c, k'), Backoff(c, item, at), Some(c));
    }
  }

  lemma SameQueue(k: Cap, k': Cap)
    requires QueueOk(k) && k' == k.(tries := k'.tries)
    ensures QueueOk(k') && QueueOk(Shift(k)) && QueueOk(Emptied(k)) && QueueOk(Shift(k'))
  {
    ShiftOk(k);
    ShiftOk(k');
  }

  lemma ItemSame(w: World, c: nat, l: Cap, item: Item)
    requires c < |w.caps| && SameButQueue(w.caps[c], l) && ItemOk(w.caps, w.recs, w.numbered, c, item)
    ensures ItemOk(w.caps[c := l], w.recs, w.numbered, c, item)
  {
  }

  lemma NextTurn(w: World, c: nat, l: Cap)
    requires Between(w, Some(c)) && w.cap == Some(c) && c < |w.caps| && w.caps[c].uploading && SameButQueue(w.caps[c], l) && QueueOk(l)
    requires l.pushed == w.caps[c].pushed
    ensures Inv(Turn(SetCap(w, c, l), c))
  {
    hide Between, ItemOk, Turn, QueueOk;
    CapFacts(w, c, Some(c));
    SetQueueKeeps(w, c, l, Some(c));
    TurnKeeps(SetCap(w, c, l), c);
  }

  // ---- every step ---------------------------------------------------------------------------------------

  lemma VerifyKeeps(w: World, v: View)
    requires Inv(w)
    ensures Inv(NewJob(w.(view := Some(v), trusts := w.trusts + [Trust(v.session, None)], trusted := Some(|w.trusts|)), Verify(|w.trusts|)))
  {
    hide RecRefs, JobRefs, TimerRefs, Posted, Pushed, Queues, Lives, Retries, Derivings, Sessions, Loops, Numbers, Carried, Verifying;
    FreshJob(w, None);
    VerifyJob(w, Trust(v.session, None));
    var j, trusts := Verify(|w.trusts|), w.trusts + [Trust(v.session, None)];
    NewJobCarried(w.jobs, w.next, j, w.caps, w.recs, w.numbered);
    NewJobLoops(w.jobs, w.next, j, w.caps, None);
    NewJobDerivings(w.jobs, w.next, j, w.recs, w.timers);
    MoreTrusts(w.caps, w.trusts, Trust(v.session, None));
  }

  lemma VerifyJob(w: World, t: Trust)
    requires Inv(w) && t.ok.None?
    ensures var jobs, trusts := w.jobs[w.next := Verify(|w.trusts|)], w.trusts + [t];
            JobRefs(jobs, w.next + 1, |w.caps|, |trusts|) && Verifying(jobs, trusts) && TimerRefs(w.timers, w.next + 1, |w.caps|, |w.recs|)
  {
    hide RecRefs, Posted, Pushed, Queues, Lives, Retries, Derivings, Sessions, Loops, Numbers, Carried;
  }

  lemma MoreTrusts(caps: seq<Cap>, trusts: seq<Trust>, t: Trust)
    requires Sessions(caps, trusts)
    ensures Sessions(caps, trusts + [t])
  {
    forall c | 0 <= c < |caps| ensures SessionVerified(trusts + [t], caps[c].session) {
      var i :| 0 <= i < |trusts| && trusts[i] == Trust(caps[c].session, Some(true));
      assert (trusts + [t])[i] == trusts[i];
    }
  }

  lemma JudgedKeeps(w: World, j: nat, ok: bool)
    requires Inv(w) && j in w.jobs && w.jobs[j].Verify?
    ensures w.jobs[j].trust < |w.trusts|
    ensures Inv(VerdictTaken(w, j, ok))
  {
    hide RecRefs, TimerRefs, Posted, Pushed, Queues, Lives, Retries, Derivings, Sessions, Loops, Numbers, HasLoop, Carried;
    DropJobKeeps(w, j);
    JudgedSessions(w.caps, w.trusts, w.jobs[j].trust, ok);
  }

  lemma JudgedSessions(caps: seq<Cap>, trusts: seq<Trust>, t: nat, ok: bool)
    requires Sessions(caps, trusts) && t < |trusts| && trusts[t].ok.None?
    ensures Sessions(caps, trusts[t := trusts[t].(ok := Some(ok))])
  {
    var trusts' := trusts[t := trusts[t].(ok := Some(ok))];
    forall c | 0 <= c < |caps| ensures SessionVerified(trusts', caps[c].session) {
      var i :| 0 <= i < |trusts| && trusts[i] == Trust(caps[c].session, Some(true));
      assert trusts'[i] == trusts[i];
    }
  }

  lemma AppliedKeeps(w: World, v: View)
    requires Inv(w)
    ensures Refs(w) && Inv(Applied(w, v))
  {
    BetweenRefs(w, None);
    if NeedsTrust(w, v) {
      hide Between;
      VerifyKeeps(w, v);
    } else {
      assert Inv(w.(view := Some(v)));
      hide Between, Synced;
      SyncedKeeps(w.(view := Some(v)));
    }
  }

  lemma DeriveFailedKeeps(w: World, j: nat)
    requires Inv(w) && j in w.jobs && IsDeriving(w.jobs[j])
    ensures Inv(DeriveFailed(WithoutJob(w, j), w.jobs[j].cap))
  {
    var c := w.jobs[j].cap;
    JobFacts(w, j, None);
    NothingQueued(w, c);
    DropJobKeeps(w, j);
    hide RecRefs, JobRefs, TimerRefs, Posted, Pushed, Lives, Retries, Derivings, Sessions, Loops, Numbers, Carried, QueueOk;
  }

  // What was never recorded was never queued.
  lemma NothingQueued(w: World, c: nat)
    requires Inv(w) && c < |w.caps| && NothingRecorded(w.recs, c)
    ensures w.caps[c].queue == []
  {
    CapFacts(w, c, None);
    if w.caps[c].queue != [] {
      QueueHead(w, c, None);
      assert false;
    }
  }

  lemma KeyKeeps(w: World, c: nat)
    requires Inv(w) && c < |w.caps|
    ensures Inv(SetCap(w, c, w.caps[c].(key := true)))
  {
    hide JobRefs, TimerRefs, Posted, Carried, Numbers, Derivings, Verifying, Sessions, Pushed, QueueOk, RecRefs, Lives, Retries, Queues, Loops;
    var l := w.caps[c].(key := true);
    FlagsFrame(w, c, l, None);
    QueueFrame(w.caps, w.caps[c := l], w.cap);
  }

  lemma KeyMadeKeeps(w: World, j: nat, ok: bool)
    requires Inv(w) && j in w.jobs && w.jobs[j].MakeKey?
    ensures Refs(w) && Inv(KeyTaken(w, j, ok))
  {
    BetweenRefs(w, None);
    hide Between, NothingRecorded, NoRetry, NotDeriving, DeriveFailed;
    var c := w.jobs[j].cap;
    JobFacts(w, j, None);
    if ok {
      DropJobKeeps(w, j);
      var x := WithoutJob(w, j);
      KeyKeeps(x, c);
      NewJobKeeps(SetCap(x, c, x.caps[c].(key := true)), ExportKey(c), None);
    } else {
      DeriveFailedKeeps(w, j);
    }
  }

  lemma KeyExportedKeeps(w: World, j: nat, ok: bool, mic: Mic)
    requires Inv(w) && j in w.jobs && w.jobs[j].ExportKey?
    ensures Refs(w) && Inv(ExportTaken(w, j, ok, mic))
  {
    BetweenRefs(w, None);
    hide Between, NoRetry, NotDeriving, DeriveFailed, Recording;
    var c := w.jobs[j].cap;
    JobFacts(w, j, None);
    if ok {
      DropJobKeeps(w, j);
      RecordingKeeps(WithoutJob(w, j), c, mic);
    } else {
      DeriveFailedKeeps(w, j);
    }
  }

  lemma RetryFacts(w: World, t: nat)
    requires Inv(w) && t in w.timers && w.timers[t].Retry?
    ensures w.timers[t].cap < |w.caps| && Quiet(w.(timers := w.timers - {t}), w.timers[t].cap)
  {
    hide JobRefs, RecRefs, Posted, Carried, Pushed, Queues, Sessions, Loops, Verifying, Numbers, Lives, NoneLive, NothingRecorded;
  }

  lemma FireKeeps(w: World, t: nat, mic: Mic)
    requires Inv(w) && t in w.timers
    ensures Refs(w) && Inv(Fired(w, t, mic))
  {
    BetweenRefs(w, None);
    hide Between, Quiet, Recording, StopRec;
    FewerTimers(w, {t}, None);
    if w.timers[t].Retry? {
      RetryFacts(w, t);
      RecordingKeeps(w.(timers := w.timers - {t}), w.timers[t].cap, mic);
    } else {
      StopRecKeeps(w.(timers := w.timers - {t}), w.timers[t].rec, None);
    }
  }

  lemma MuteLiftedKeeps(w: World)
    requires Inv(w)
    ensures Refs(w) && Inv(MuteLifted(w))
  {
    BetweenRefs(w, None);
    if w.cap.Some? {
      hide Voiced, JobRefs, TimerRefs, Posted, Carried, Numbers, Derivings, Verifying, Sessions, MoreRecs, MoreNumbers, Alike, Pushed, RecRefs, Lives, Retries, Queues, Loops;
      MuteFrames(w);
      MuteChunks(w);
      MuteCaps(w);
      MuteLives(w);
      MuteChain(w);
    }
  }

  lemma MuteFrames(w: World)
    requires Inv(w) && w.cap.Some?
    ensures Refs(w)
    ensures var x := MuteLifted(w);
            Alike(w.caps, x.caps) && MoreRecs(w.recs, x.recs) && MoreNumbers(w.numbered, x.numbered) && Numbers(x.numbered, x.seqs, x.recs)
  {
    hide RecRefs, JobRefs, TimerRefs, Posted, Carried, Pushed, Lives, Retries, Derivings, Sessions, Loops, Verifying, Queues;
  }

  lemma MuteChunks(w: World)
    requires Inv(w) && w.cap.Some?
    ensures Refs(w)
    ensures var x := MuteLifted(w);
            && Carried(x.jobs, x.caps, x.recs, x.numbered) && Posted(x.posts, x.caps, x.recs, x.numbered)
            && Pushed(x.caps, x.recs, x.numbered)
  {
    BetweenRefs(w, None);
    hide Between, Refs, Voiced, Posted, Carried, MoreRecs, MoreNumbers, Alike, Pushed;
    MuteFrames(w);
    ChunkFrame(w, MuteLifted(w), None);
    PushedFrame(w, MuteLifted(w), None);
  }

  lemma MuteCaps(w: World)
    requires Inv(w) && w.cap.Some?
    ensures Refs(w)
    ensures var x := MuteLifted(w);
            Sessions(x.caps, x.trusts) && Loops(x.jobs, x.caps, None) && Queues(x.caps, x.cap)
  {
    hide Voiced, JobRefs, TimerRefs, Posted, Carried, Numbers, Derivings, Verifying, Sessions, MoreRecs, MoreNumbers, Pushed, RecRefs, Lives, Retries, Queues, Loops;
    var caps := MuteLifted(w).caps;
    SessionFrame(w.caps, caps, w.trusts);
    LoopFrame(w.jobs, w.caps, caps, None);
    QueueFrame(w.caps, caps, w.cap);
  }

  lemma MuteLives(w: World)
    requires Inv(w) && w.cap.Some?
    ensures Refs(w)
    ensures var x := MuteLifted(w);
            RecRefs(x.recs, x.caps) && Lives(x.recs, x.caps)
  {
    BetweenRefs(w, None);
    hide Between, JobRefs, TimerRefs;
    MutedRefs(w.recs, w.caps, w.cap.value);
    assert Lives(w.recs, w.caps) by { BetweenLives(w); }
    MutedLives(w.recs, w.caps, w.cap.value);
  }

  lemma BetweenLives(w: World)
    requires Inv(w)
    ensures Lives(w.recs, w.caps)
  {
  }

  lemma MutedRefs(recs: seq<Rec>, caps: seq<Cap>, c: nat)
    requires RecRefs(recs, caps) && c < |caps|
    ensures RecRefs(Voiced(recs, c), caps[c := caps[c].(allMuted := false)])
  {
  }

  lemma MutedLives(recs: seq<Rec>, caps: seq<Cap>, c: nat)
    requires Lives(recs, caps) && c < |caps|
    ensures Lives(Voiced(recs, c), caps[c := caps[c].(allMuted := false)])
  {
  }

  lemma MuteChain(w: World)
    requires Inv(w) && w.cap.Some?
    ensures Refs(w)
    ensures var x := MuteLifted(w);
            Retries(x.timers, x.caps, x.recs) && Derivings(x.jobs, x.recs, x.timers)
  {
    hide RecRefs, JobRefs, TimerRefs, Posted, Carried, Pushed, Sessions, Loops, Verifying, Queues, Numbers, Lives, NoRetry, NoneLive, NothingRecorded, Voiced;
    var c := w.cap.value;
    var recs := Voiced(w.recs, c);
    forall d: nat ensures NoneLive(w.recs, d) == NoneLive(recs, d) && NothingRecorded(w.recs, d) == NothingRecorded(recs, d) {
      VoicedSame(w.recs, c, d);
    }
  }

  lemma VoicedSame(recs: seq<Rec>, c: nat, d: nat)
    ensures NoneLive(recs, d) == NoneLive(Voiced(recs, c), d) && NothingRecorded(recs, d) == NothingRecorded(Voiced(recs, c), d)
  {
    var recs' := Voiced(recs, c);
    assert forall r :: 0 <= r < |recs| ==> recs'[r].cap == recs[r].cap && Live(recs'[r]) == Live(recs[r]);
    assert NoneLive(recs', d) ==> NoneLive(recs, d) by {
      assert forall r :: 0 <= r < |recs| ==> recs[r].cap == recs'[r].cap;
    }
  }

  lemma MicSwappedKeeps(w: World)
    requires Inv(w)
    ensures Refs(w) && Inv(MicSwapped(w))
  {
    BetweenRefs(w, None);
    hide Between, ClearTimer, StopCapRec;
    if w.cap.Some? {
      ClearKeeps(w, w.cap.value, None);
      BetweenRefs(ClearTimer(w, w.cap.value), None);
      StopCapRecKeeps(ClearTimer(w, w.cap.value), w.cap.value, None);
    }
  }

  lemma BytesReadKeeps(w: World, j: nat, ok: bool)
    requires Inv(w) && j in w.jobs && w.jobs[j].ReadBytes?
    ensures Refs(w) && Inv(BytesTaken(w, j, ok))
  {
    hide Between, Refs, ItemOk, NothingRecorded, NoRetry, NotDeriving;
    BetweenRefs(w, None);
    JobFacts(w, j, None);
    DropJobKeeps(w, j);
    NewJobKeeps(WithoutJob(w, j), Encrypt(w.jobs[j].cap, w.jobs[j].item), None);
  }

  lemma EncryptedKeeps(w: World, j: nat, ok: bool)
    requires Inv(w) && j in w.jobs && w.jobs[j].Encrypt?
    ensures Refs(w) && Inv(CipherTaken(w, j, ok))
  {
    BetweenRefs(w, None);
    hide Between, Refs, ItemOk, Queued;
    JobFacts(w, j, None);
    DropJobKeeps(w, j);
    QueuedKeeps(WithoutJob(w, j), w.jobs[j].cap, w.jobs[j].item);
  }

  lemma PostAnsweredKeeps(w: World, j: nat, a: Answer)
    requires Inv(w) && j in w.jobs && w.jobs[j].Posting?
    ensures Refs(w) && Inv(AnswerTaken(w, j, a))
  {
    BetweenRefs(w, None);
    hide Between, Refs, ItemOk, Answered;
    JobFacts(w, j, None);
    DropJobKeeps(w, j);
    AnsweredKeeps(WithoutJob(w, j), w.jobs[j].cap, w.jobs[j].item, w.jobs[j].at, a);
  }

  lemma WaitedKeeps(w: World, j: nat)
    requires Inv(w) && j in w.jobs && w.jobs[j].Backoff?
    ensures Refs(w) && Inv(WaitTaken(w, j))
  {
    BetweenRefs(w, None);
    hide Between, Refs, ItemOk, Turn;
    JobFacts(w, j, None);
    DropJobKeeps(w, j);
    TurnKeeps(WithoutJob(w, j), w.jobs[j].cap);
  }

  lemma DataKeeps(w: World, r: nat)
    requires Inv(w) && r < |w.recs| && Live(w.recs[r])
    ensures Inv(SetRec(w, r, w.recs[r].(heard := true)))
  {
    hide Between;
    RecMoves(w, r, w.recs[r].(heard := true), None);
  }

  // Every step keeps the invariant.
  lemma StepKeeps(w: World, s: Step)
    requires Inv(w) && Enabled(w, s)
    ensures Refs(w) && Inv(StepTo(w, s))
  {
    BetweenRefs(w, None);
    hide Between, Refs, Synced, Stopped, Applied, KeyTaken, ExportTaken, Fired, RecorderDone, MicSwapped, MuteLifted, BytesTaken, CipherTaken, AnswerTaken, WaitTaken, VerdictTaken;
    match s
    case Apply(v) => AppliedKeeps(w, v);
    case VerifyDone(j, ok) =>
      JudgedKeeps(w, j, ok);
      SyncedKeeps(VerdictTaken(w, j, ok));
    case Leave => LeaveKeeps(w);
    case Decline => StoppedKeeps(w);
    case KeyMade(j, ok) => KeyMadeKeeps(w, j, ok);
    case KeyExported(j, ok, mic) => KeyExportedKeeps(w, j, ok, mic);
    case Fire(t, mic) => FireKeeps(w, t, mic);
    case Data(r) => DataKeeps(w, r);
    case TrackEnds(r) => StopRecKeeps(w, r, None);
    case OnStop(r, mic) => RecorderDoneKeeps(w, r, mic);
    case MicChanged => MicSwappedKeeps(w);
    case Unmuted => MuteLiftedKeeps(w);
    case BytesRead(j, ok) => BytesReadKeeps(w, j, ok);
    case Encrypted(j, ok) => EncryptedKeeps(w, j, ok);
    case PostAnswered(j, a) => PostAnsweredKeeps(w, j, a);
    case Waited(j) => WaitedKeeps(w, j);
  }

  lemma LeaveKeeps(w: World)
    requires Inv(w)
    ensures Refs(w) && Inv(Stopped(w).(view := None, trusted := None))
  {
    BetweenRefs(w, None);
    hide Stopped;
    StoppedKeeps(w);
  }
}
