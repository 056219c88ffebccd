// The page's own code for capturing: the mutable state and the pieces that change it. Each performs its
// part of a step of CaptureProtocol, keeps the invariant, and says what its caller sees.
module CaptureClient {
  import opened Common
  import opened CaptureProtocol
  import opened CaptureInvariants
  import opened CaptureRuns

  // Every upload so far was one of its capture's own recordings.
  ghost predicate AllOwn(w: World) {
    forall i :: 0 <= i < |w.posts| ==> OwnAudio(w, w.posts[i])
  }

  lemma InvMeansOwn(w: World)
    requires Inv(w)
    ensures AllOwn(w)
  {
    hide OwnAudio, Between;
    forall i | 0 <= i < |w.posts| ensures OwnAudio(w, w.posts[i]) {
      UploadIsOwn(w, i);
    }
  }

  // A capture that is over holds no queue and no key, and none of its recorders goes on.
  ghost predicate Over(w: World, c: nat) {
    && c < |w.caps| && !w.caps[c].running && w.caps[c].queue == [] && !w.caps[c].key
    && forall r :: 0 <= r < |w.recs| && w.recs[r].cap == c ==> !w.recs[r].phase.Active?
  }

  lemma StoppedParts(w: World)
    requires Refs(w) && w.cap.Some?
    ensures var c, x := w.cap.value, Stopped(w);
      && |x.caps| == |w.caps| && !x.caps[c].running && x.caps[c].queue == [] && !x.caps[c].key
      && |x.recs| == |w.recs| && x.recs == StopCapRec(ClearTimer(w, c), c).recs
  {
    RunningRefs(w);
    hide Refs, ClearTimer, StopCapRec;
    StoppedLength(ClearTimer(w, w.cap.value), w.cap.value);
  }

  lemma StoppedLength(w: World, c: nat)
    requires Refs(w) && c < |w.caps|
    ensures var x := StopCapRec(w, c);
      && x.caps == w.caps && |x.recs| == |w.recs|
      && forall r :: 0 <= r < |w.recs| ==> x.recs[r].cap == w.recs[r].cap
                                           && (x.recs[r].phase.Active? ==> w.recs[r].phase.Active? && w.caps[c].rec != Some(r))
  {
    LatestRefs(w, c);
    hide Refs;
  }

  lemma LatestRefs(w: World, c: nat)
    requires Refs(w) && c < |w.caps|
    ensures w.caps[c].rec.Some? ==> w.caps[c].rec.value < |w.recs|
  {
    hide JobRefs, TimerRefs;
  }

  lemma RunningRefs(w: World)
    requires Refs(w) && w.cap.Some?
    ensures w.cap.value < |w.caps| && Refs(ClearTimer(w, w.cap.value)) && ClearTimer(w, w.cap.value).caps == w.caps
    ensures ClearTimer(w, w.cap.value) == w.(timers := ClearTimer(w, w.cap.value).timers)
    ensures Refs(StopCapRec(ClearTimer(w, w.cap.value), w.cap.value))
    ensures StopCapRec(ClearTimer(w, w.cap.value), w.cap.value).caps == w.caps
  {
    hide ClearTimer, StopCapRec, RecRefs, JobRefs, TimerRefs;
    ClearRefs(w, w.cap.value);
    StopCapRecRefs(ClearTimer(w, w.cap.value), w.cap.value);
  }

  lemma TurnForm(w: World, c: nat)
    requires c < |w.caps|
    ensures var k := w.caps[c];
      Turn(w, c) ==
        if w.cap == Some(c) && k.queue != [] then
          w.(posts := w.posts + [Post(c, k.meeting, k.queue[0].number, k.token, k.queue[0].audio)],
             jobs := w.jobs[w.next := Posting(c, k.queue[0], k.head)], next := w.next + 1)
        else w.(caps := w.caps[c := k.(uploading := false)])
  {
  }

  lemma TurnFacts(w: World, c: nat)
    requires c < |w.caps|
    ensures Between(w, Some(c)) && w.caps[c].uploading ==> Inv(Turn(w, c)) && AllOwn(Turn(w, c))
  {
    hide Between, AllOwn, Turn;
    if Between(w, Some(c)) && w.caps[c].uploading {
      TurnKeeps(w, c);
      InvMeansOwn(Turn(w, c));
    }
  }

  lemma RecordingFacts(w: World, c: nat, mic: Mic)
    requires c < |w.caps|
    ensures Inv(w) && Quiet(w, c) ==> Inv(Recording(w, c, mic))
  {
    hide Between, Quiet, Recording;
    if Inv(w) && Quiet(w, c) {
      RecordingKeeps(w, c, mic);
    }
  }

  lemma NumberFacts(w: World, c: nat, r: nat)
    requires Refs(w) && c < |w.caps|
    ensures Refs(Numbered(w, c, r))
    ensures Inv(w) ==> (w.caps[c].meeting, NextNumber(w, w.caps[c].meeting)) !in w.numbered && MoreNumbers(w.numbered, Numbered(w, c, r).numbered)
  {
    hide Between, Refs, MoreNumbers;
    NumberedRefs(w, c, r);
    if Inv(w) {
      NumberIsNew(w, w.caps[c].meeting);
      OneMoreNumber(w.numbered, (w.caps[c].meeting, NextNumber(w, w.caps[c].meeting)), r);
    }
  }

  lemma ActiveIsLatest(w: World, r: nat)
    requires Inv(w) && r < |w.recs| && w.recs[r].phase.Active?
    ensures w.recs[r].cap < |w.caps| && w.caps[w.recs[r].cap].rec == Some(r)
  {
    hide JobRefs, TimerRefs, Posted, Carried, Pushed, Queues, Sessions, Loops, Verifying, Numbers, Derivings, Retries;
    assert Live(w.recs[r]);
  }

  lemma StopFacts(w: World)
    requires Inv(w)
    ensures Refs(w) && Inv(Stopped(w)) && Stopped(w).cap.None?
    ensures Stopped(w).posts == w.posts && Stopped(w).jobs == w.jobs && Stopped(w).view == w.view
    ensures w.cap.Some? ==> Over(Stopped(w), w.cap.value)
  {
    hide Between, Stopped;
    BetweenRefs(w, None);
    StoppedKeeps(w);
    if w.cap.Some? {
      hide Refs, ClearTimer, StopCapRec;
      StoppedParts(w);
      RunningRefs(w);
      StoppedLength(ClearTimer(w, w.cap.value), w.cap.value);
      forall r | 0 <= r < |w.recs| && w.recs[r].cap == w.cap.value && w.recs[r].phase.Active? ensures w.caps[w.cap.value].rec == Some(r) {
        ActiveIsLatest(w, r);
      }
    }
  }

  lemma SyncFacts(w: World)
    requires Inv(w)
    ensures Refs(w) && Inv(Synced(w)) && InStep(Synced(w)) && Synced(w).posts == w.posts && Synced(w).view == w.view
  {
    hide Between, Synced, InStep;
    BetweenRefs(w, None);
    SyncedKeeps(w);
    SyncedExactlyWhenWanted(w);
    SyncedShape(w);
  }

  // A new capture beside it leaves the old one over.
  lemma OverStays(w: World)
    requires Inv(w)
    ensures Refs(w) && (w.cap.Some? && Wanted(w) ==> Over(Started(Stopped(w), w.view.value, w.view.value.grant.value), w.cap.value))
  {
    hide Between, Stopped;
    StopFacts(w);
  }

  lemma ViewFacts(w: World, v: View)
    requires Inv(w)
    ensures Refs(w) && Inv(w.(view := Some(v))) && Inv(Applied(w, v)) && Applied(w, v).view == Some(v) && Applied(w, v).posts == w.posts
    ensures if NeedsTrust(w, v) then Applied(w, v).cap == w.cap && Refs(Applied(w, v)) && !Wanted(Applied(w, v)) else InStep(Applied(w, v))
  {
    BetweenRefs(w, None);
    hide Between, Synced, InStep;
    AppliedKeeps(w, v);
    BetweenRefs(Applied(w, v), None);
    ViewKeeps(w, v);
    SyncFacts(w.(view := Some(v)));
  }

  lemma CipherFacts(w: World, j: nat, ok: bool)
    requires Inv(w) && j in w.jobs && w.jobs[j].Encrypt?
    ensures Refs(w) && w.jobs[j].cap < |w.caps|
    ensures var x := CipherTaken(w, j, ok); Inv(x) && AllOwn(x) && OneUpload(w, x)
  {
    BetweenRefs(w, None);
    hide Between, AllOwn, Queued;
    EncryptedKeeps(w, j, ok);
    InvMeansOwn(CipherTaken(w, j, ok));
    QueuedShape(WithoutJob(w, j), w.jobs[j].cap, w.jobs[j].item);
  }

  lemma AnswerFacts(w: World, j: nat, a: Answer)
    requires Inv(w) && j in w.jobs && w.jobs[j].Posting?
    ensures Refs(w) && w.jobs[j].cap < |w.caps|
    ensures var x := AnswerTaken(w, j, a); Inv(x) && AllOwn(x) && OneUpload(w, x)
  {
    BetweenRefs(w, None);
    hide Between, AllOwn, Answered;
    PostAnsweredKeeps(w, j, a);
    InvMeansOwn(AnswerTaken(w, j, a));
    AnsweredShape(WithoutJob(w, j), w.jobs[j].cap, w.jobs[j].item, w.jobs[j].at, a);
  }

  lemma DoneFacts(w: World, r: nat, mic: Mic)
    requires Inv(w) && r < |w.recs| && Live(w.recs[r])
    ensures Refs(w) && Refs(SetRec(w, r, w.recs[r].(phase := Done))) && Inv(RecorderDone(w, r, mic))
    ensures forall k :: k in w.numbered ==> w.numbered[k] != r
  {
    hide Between, RecorderDone;
    BetweenRefs(w, None);
    LiveFacts(w, r);
    RecorderDoneKeeps(w, r, mic);
    DoneRefs(w, r);
  }

  // The next number of a meeting is new in any sound state.
  lemma NumberIsNew(w: World, m: Meeting)
    requires Inv(w)
    ensures (m, NextNumber(w, m)) !in w.numbered
  {
    hide Refs, Posted, Carried, Pushed, Queues, Lives, Retries, Derivings, Sessions, Loops, Verifying;
  }

  lemma ViewKeeps(w: World, v: View)
    requires Inv(w)
    ensures Inv(w.(view := Some(v)))
  {
    hide Refs, Posted, Carried, Pushed, Queues, Lives, Retries, Derivings, Sessions, Loops, Verifying, Numbers;
    RefsOfView(w, v);
  }

  lemma RefsOfView(w: World, v: View)
    ensures Refs(w) ==> Refs(w.(view := Some(v)))
  {
  }

  lemma DoneRefs(w: World, r: nat)
    requires Refs(w) && r < |w.recs|
    ensures Refs(SetRec(w, r, w.recs[r].(phase := Done)))
  {
    hide JobRefs, TimerRefs;
  }

  lemma NumberedRefs(w: World, c: nat, r: nat)
    requires Refs(w) && c < |w.caps|
    ensures Refs(Numbered(w, c, r))
  {
  }

  lemma PushedQueue(k: Cap, item: Item)
    ensures Push(k, item).queue == Trim(k.queue + [item]) && Push(k, item).uploading == k.uploading
  {
  }

  // At most one upload is started, and only for the capture that was running.
  ghost predicate OneUpload(w: World, x: World) {
    x.posts == w.posts || (|x.posts| == |w.posts| + 1 && x.posts[..|w.posts|] == w.posts && w.cap == Some(x.posts[|w.posts|].cap))
  }

  class Notes {
    const able: bool
    var view: Option<View>
    var trusts: seq<Trust>
    var trusted: Option<nat>
    var cap: Option<nat>
    var caps: seq<Cap>
    var seqs: map<Meeting, nat>
    var recs: seq<Rec>
    var timers: map<nat, Timer>
    var jobs: map<nat, Job>
    var next: nat
    var posts: seq<Post>
    var numbered: map<(Meeting, nat), nat>

    constructor (able: bool)
      ensures TheWorld() == Init(able)
    {
      this.able := able;
      view, trusts, trusted, cap, caps, seqs := None, [], None, None, [], map[];
      recs, timers, jobs, next, posts, numbered := [], map[], map[], 0, [], map[];
    }

    function TheWorld(): World
      reads this
    {
      World(able, view, trusts, trusted, cap, caps, seqs, recs, timers, jobs, next, posts, numbered)
    }

    // `setTimeout` and `clearTimeout` of a capture's timer.
    method SetTimer(c: nat, t: Timer)
      requires c < |caps|
      modifies `timers, `caps, `next
      ensures TheWorld() == NewTimer(old(TheWorld()), c, t)
    {
      timers, caps, next := timers[next := t], caps[c := caps[c].(timer := Some(next))], next + 1;
    }

    method DropTimer(c: nat)
      requires c < |caps|
      modifies `timers
      ensures TheWorld() == ClearTimer(old(TheWorld()), c)
    {
      if caps[c].timer.Some? {
        timers := timers - {caps[c].timer.value};
      }
    }

    // `rec.stop()` of a capture's recorder, unless it is not recording.
    method StopRecorder(c: nat)
      requires Refs(TheWorld()) && c < |caps|
      modifies `recs
      ensures TheWorld() == StopCapRec(old(TheWorld()), c)
    {
      hide JobRefs, TimerRefs;
      if caps[c].rec.Some? && recs[caps[c].rec.value].phase.Active? {
        recs := recs[caps[c].rec.value := recs[caps[c].rec.value].(phase := Stopping)];
      }
    }

    // An await: the rest of the function is left for later.
    method StartJob(j: Job)
      modifies `jobs, `next
      ensures TheWorld() == NewJob(old(TheWorld()), j)
    {
      jobs, next := jobs[next := j], next + 1;
    }

    // End the running capture at once; what it queued is not uploaded any more.
    method StopCapture()
      requires Inv(TheWorld())
      modifies `cap, `timers, `caps, `recs
      ensures Refs(old(TheWorld())) && TheWorld() == Stopped(old(TheWorld())) && Inv(TheWorld())
      ensures cap.None?
      ensures old(cap).Some? ==> Over(TheWorld(), old(cap).value)
    {
      hide Between, Over, Refs, ClearTimer, StopCapRec;
      StopFacts(TheWorld());
      if cap.None? {
        return;
      }
      RunningRefs(TheWorld());
      var c := cap.value;
      DropTimer(c);
      StopRecorder(c);
      cap, caps := None, caps[c := caps[c].(running := false, queue := [], head := |caps[c].pushed|, key := false)];
    }

    // Bring what runs in step with the view: a capture that is up to date is left alone, any other one is
    // over.
    method SyncCapture()
      requires Inv(TheWorld())
      modifies `cap, `timers, `caps, `recs, `jobs, `next
      ensures Refs(old(TheWorld())) && TheWorld() == Synced(old(TheWorld())) && Inv(TheWorld())
      ensures InStep(TheWorld())
      ensures old(cap).Some? && cap != old(cap) ==> Over(TheWorld(), old(cap).value)
    {
      hide Between, RecRefs, JobRefs, TimerRefs, InStep, Stopped, Over;
      SyncFacts(TheWorld());
      OverStays(TheWorld());
      if !Wanted(TheWorld()) {
        StopCapture();
        return;
      }
      var v := view.value;
      if cap.Some? && caps[cap.value].meeting == v.meeting && caps[cap.value].version == v.grant.value.version {
        return;
      }
      StopCapture();
      cap, caps := Some(|caps|), caps + [NewCap(v, v.grant.value)];
      StartJob(MakeKey(|caps| - 1));
    }

    // A new view: if its service key is unknown, have it verified first.
    method TakeView(v: View)
      requires Inv(TheWorld())
      modifies `view, `trusts, `trusted, `cap, `timers, `caps, `recs, `jobs, `next
      ensures Refs(old(TheWorld())) && TheWorld() == Applied(old(TheWorld()), v) && Inv(TheWorld())
      ensures view == Some(v)
      ensures if NeedsTrust(old(TheWorld()), v) then cap == old(cap) && !Wanted(TheWorld()) else InStep(TheWorld())
    {
      hide Between, RecRefs, JobRefs, TimerRefs, InStep, Synced, Over;
      ViewFacts(TheWorld(), v);
      var known := v.meeting.None? || (trusted.Some? && trusts[trusted.value].session == v.session);
      view := Some(v);
      if !known {
        trusted, trusts := Some(|trusts|), trusts + [Trust(v.session, None)];
        StartJob(Verify(|trusts| - 1));
        return;
      }
      SyncCapture();
    }

    method OpenRecorder(c: nat, muted: bool, phase: Phase)
      requires c < |caps|
      modifies `recs, `caps
      ensures TheWorld() == NewRec(old(TheWorld()), c, muted, phase)
    {
      caps, recs := caps[c := caps[c].(rec := Some(|recs|), allMuted := muted)], recs + [Rec(c, phase, false, !muted)];
    }

    // Start the next recording of the running capture, if there is a microphone to record.
    method Record(c: nat, mic: Mic)
      requires Refs(TheWorld()) && c < |caps|
      modifies `recs, `caps, `timers, `next
      ensures TheWorld() == Recording(old(TheWorld()), c, mic)
      ensures old(Inv(TheWorld()) && Quiet(TheWorld(), c)) ==> Inv(TheWorld())
      ensures mic.Starts? && cap == Some(c) && old(caps)[c].running ==>
                |caps| == |old(caps)| && caps[c].rec == Some(|old(recs)|) && recs == old(recs) + [Rec(c, Active, false, !mic.muted)]
      ensures !mic.Starts? || cap != Some(c) ==> forall r :: 0 <= r < |recs| && recs[r].phase.Active? ==> r < |old(recs)|
    {
      hide Between, Quiet, Refs;
      RecordingFacts(TheWorld(), c, mic);
      if !caps[c].running || cap != Some(c) {
        return;
      }
      match mic
      case NoTrack =>
        SetTimer(c, Retry(c));
      case NoRecorder =>
      case WontStart(muted) =>
        OpenRecorder(c, muted, Idle);
      case Starts(muted) =>
        OpenRecorder(c, muted, Active);
        SetTimer(c, Cut(|recs| - 1));
    }

    // The recorder's end: keep what it heard, unless all of it was muted, and record on.
    method RecorderStopped(r: nat, mic: Mic)
      requires Inv(TheWorld()) && r < |recs| && Live(recs[r])
      modifies `recs, `caps, `timers, `jobs, `next, `seqs, `numbered
      ensures Refs(old(TheWorld())) && TheWorld() == RecorderDone(old(TheWorld()), r, mic) && Inv(TheWorld())
      // it is numbered exactly when the running capture heard something that was not all muted
      ensures (exists k :: k in numbered && numbered[k] == r) <==> Keeps(old(TheWorld()), r)
    {
      hide Between, JobRefs, TimerRefs, Recording, Numbered;
      DoneFacts(TheWorld(), r, mic);
      var c := recs[r].cap;
      recs := recs[r := recs[r].(phase := Done)];
      if cap == Some(c) && caps[c].running && !caps[c].allMuted && recs[r].heard {
        Enqueue(c, r);
      }
      Record(c, mic);
    }

    // The recording takes its meeting's next number, which nothing has yet in any sound state; numbers
    // that were given stay given.
    method Enqueue(c: nat, r: nat)
      requires Refs(TheWorld()) && c < |caps|
      modifies `seqs, `numbered, `jobs, `next
      ensures TheWorld() == Numbered(old(TheWorld()), c, r) && Refs(TheWorld())
      ensures exists k :: k in numbered && numbered[k] == r && k.0 == caps[c].meeting && numbered == old(numbered)[k := r]
      ensures old(Inv(TheWorld())) ==> MoreNumbers(old(numbered), numbered)
    {
      hide Between, Refs, MoreNumbers;
      NumberFacts(TheWorld(), c, r);
      var m := caps[c].meeting;
      var n := if m in seqs then seqs[m] else 0;
      seqs, numbered := seqs[m := n + 1], numbered[(m, n) := r];
      StartJob(ReadBytes(c, Item(n, r)));
      assert (m, n) in numbered && numbered[(m, n)] == r;
    }

    // A chunk has been encrypted: queue it, if its capture still runs, and upload.
    method TakeCiphertext(j: nat, ok: bool)
      requires Inv(TheWorld()) && j in jobs && jobs[j].Encrypt?
      modifies `caps, `posts, `jobs, `next
      ensures Refs(old(TheWorld())) && TheWorld() == CipherTaken(old(TheWorld()), j, ok) && Inv(TheWorld()) && AllOwn(TheWorld())
      ensures var c := old(jobs)[j].cap;
              && c < |caps|
              && (ok && cap == Some(c) ==> caps[c].queue == Trim(old(caps)[c].queue + [old(jobs)[j].item]))
              && (!ok || cap != Some(c) ==> caps == old(caps) && posts == old(posts))
              && (old(caps)[c].uploading ==> posts == old(posts))
      ensures OneUpload(old(TheWorld()), TheWorld())
    {
      hide Between, Refs, AllOwn, OneUpload, Push, Turn, Trim;
      CipherFacts(TheWorld(), j, ok);
      PushedQueue(caps[jobs[j].cap], jobs[j].item);
      var c, item := jobs[j].cap, jobs[j].item;
      jobs := jobs - {j};
      if !ok || cap != Some(c) {
        return;
      }
      Enter(c, item);
      if caps[c].uploading {
        return;
      }
      caps := caps[c := caps[c].(uploading := true)];
      UploadNext(c);
    }

    // Into the queue, dropping the oldest beyond the backlog.
    method Enter(c: nat, item: Item)
      requires c < |caps|
      modifies `caps
      ensures TheWorld() == SetCap(old(TheWorld()), c, Push(old(caps)[c], item))
    {
      var queue := caps[c].queue + [item];
      ghost var whole := queue;
      while |queue| > MAX_BACKLOG
        invariant |queue| <= |whole| && queue == whole[|whole| - |queue|..] && (|queue| < |whole| ==> |queue| >= MAX_BACKLOG)
      {
        queue := queue[1..];
      }
      assert queue == Trim(whole);
      var pushed := caps[c].pushed + [item];
      caps := caps[c := caps[c].(queue := queue, pushed := pushed, head := if |pushed| >= |queue| then |pushed| - |queue| else 0)];
    }

    // The head of the upload loop.
    method UploadNext(c: nat)
      requires c < |caps|
      modifies `caps, `posts, `jobs, `next
      ensures TheWorld() == Turn(old(TheWorld()), c)
      ensures old(Between(TheWorld(), Some(c)) && caps[c].uploading) ==> Inv(TheWorld()) && AllOwn(TheWorld())
      ensures |caps| == |old(caps)| && caps[c].queue == old(caps)[c].queue
      ensures cap == Some(c) && caps[c].queue != [] ==>
                && |posts| == |old(posts)| + 1 && posts[..|old(posts)|] == old(posts)
                && posts[|old(posts)|].cap == c && posts[|old(posts)|].audio == caps[c].queue[0].audio && caps == old(caps)
      ensures cap != Some(c) || caps[c].queue == [] ==> posts == old(posts) && jobs == old(jobs) && !caps[c].uploading
    {
      hide Between, AllOwn, Turn;
      TurnFacts(TheWorld(), c);
      TurnForm(TheWorld(), c);
      if cap != Some(c) || caps[c].queue == [] {
        caps := caps[c := caps[c].(uploading := false)];
        return;
      }
      var item := caps[c].queue[0];
      posts := posts + [Post(c, caps[c].meeting, item.number, caps[c].token, item.audio)];
      StartJob(Posting(c, item, caps[c].head));
    }

    // From the answer to an upload on.
    method TakeAnswer(j: nat, a: Answer)
      requires Inv(TheWorld()) && j in jobs && jobs[j].Posting?
      modifies `caps, `posts, `jobs, `next
      ensures Refs(old(TheWorld())) && TheWorld() == AnswerTaken(old(TheWorld()), j, a) && Inv(TheWorld()) && AllOwn(TheWorld())
      ensures OneUpload(old(TheWorld()), TheWorld())
      // an answer to a capture that is over changes nothing it holds; an accepted chunk leaves the
      // queue, a refusal empties it, and a busy postbox leaves it alone for three tries
      ensures var c := old(jobs)[j].cap;
              && c < |caps|
              && (cap != Some(c) ==> posts == old(posts) && caps[c].queue == old(caps)[c].queue)
              && (cap == Some(c) && a.Accepted? ==> caps[c].queue == Shift(old(caps)[c]).queue)
              && (cap == Some(c) && a.Refused? ==> caps[c].queue == [] && posts == old(posts) && !caps[c].uploading)
              && (cap == Some(c) && a.Busy? && Tries(old(caps)[c], old(jobs)[j].item.number) < MAX_TRIES ==>
                    caps[c].queue == old(caps)[c].queue && posts == old(posts))
    {
      hide Between, Refs, AllOwn, OneUpload, Turn;
      AnswerFacts(TheWorld(), j, a);
      var c, item, at := jobs[j].cap, jobs[j].item, jobs[j].at;
      jobs := jobs - {j};
      var k := caps[c];
      if cap != Some(c) {
        caps := caps[c := k.(uploading := false)];
        return;
      }
      if a.Busy? {
        k := k.(tries := k.tries[item.number := Tries(k, item.number) + 1]);
        if Tries(k, item.number) <= MAX_TRIES {
          caps := caps[c := k];
          StartJob(Backoff(c, item, at));
          return;
        }
      }
      caps := caps[c := if a.Refused? then k.(queue := [], head := |k.pushed|) else Shift(k)];
      UploadNext(c);
    }
  }
}
