// Whole runs of the capture machine: views, consents, timers, recorders, encryption and answers in
// any order.
module CaptureRuns {
  import opened Common
  import opened CaptureProtocol
  import opened CaptureInvariants

  ghost predicate Possible(w: World, steps: seq<Step>)
    decreases |steps|
  {
    steps == [] || (Refs(w) && Enabled(w, steps[0]) && Possible(StepTo(w, steps[0]), steps[1..]))
  }

  ghost function Exec(w: World, steps: seq<Step>): World
    requires Possible(w, steps)
    decreases |steps|
  {
    if steps == [] then w else Exec(StepTo(w, steps[0]), steps[1..])
  }

  lemma InitOk(able: bool)
    ensures Inv(Init(able))
  {
  }

  lemma {:induction false} RunKeeps(w: World, steps: seq<Step>)
    requires Inv(w) && Possible(w, steps)
    ensures Inv(Exec(w, steps))
    decreases |steps|
  {
    hide Between, StepTo;
    if steps != [] {
      StepKeeps(w, steps[0]);
      RunKeeps(StepTo(w, steps[0]), steps[1..]);
    }
  }

  // ---- every upload --------------------------------------------------------------------------------

  // An upload carries the token, and belongs to the meeting, of the capture that recorded its audio;
  // that audio was not silence, and the capture's service key had been verified.
  ghost predicate OwnAudio(w: World, p: Post) {
    && p.cap < |w.caps| && p.audio < |w.recs| && w.recs[p.audio].cap == p.cap
    && p.token == w.caps[p.cap].token && p.meeting == w.caps[p.cap].meeting
    && w.recs[p.audio].heard && w.recs[p.audio].voiced
    && SessionVerified(w.trusts, w.caps[p.cap].session)
  }

  lemma UploadIsOwn(w: World, i: nat)
    requires Inv(w) && i < |w.posts|
    ensures OwnAudio(w, w.posts[i])
  {
    hide RecRefs, JobRefs, TimerRefs, Carried, Pushed, Queues, Lives, Retries, Derivings, Loops, Verifying, SessionVerified;
  }

  lemma {:induction false} EveryUploadIsOwn(able: bool, steps: seq<Step>, i: nat)
    requires Possible(Init(able), steps) && i < |Exec(Init(able), steps).posts|
    ensures OwnAudio(Exec(Init(able), steps), Exec(Init(able), steps).posts[i])
  {
    hide Between, OwnAudio;
    InitOk(able);
    RunKeeps(Init(able), steps);
    UploadIsOwn(Exec(Init(able), steps), i);
  }

  lemma NumberNamesAudio(w: World, i: nat, k: nat)
    requires Inv(w) && i < |w.posts| && k < |w.posts|
    ensures (w.posts[i].meeting, w.posts[i].number) == (w.posts[k].meeting, w.posts[k].number) <==> w.posts[i].audio == w.posts[k].audio
  {
    hide RecRefs, JobRefs, TimerRefs, Carried, Pushed, Queues, Lives, Retries, Derivings, Loops, Verifying, Sessions;
  }

  // Within a meeting two uploads have the same number exactly when they are the same recording, also
  // across captures that were stopped and started again.
  lemma {:induction false} NoNumberReused(able: bool, steps: seq<Step>, i: nat, k: nat)
    requires Possible(Init(able), steps) && i < |Exec(Init(able), steps).posts| && k < |Exec(Init(able), steps).posts|
    ensures var posts := Exec(Init(able), steps).posts;
            (posts[i].meeting, posts[i].number) == (posts[k].meeting, posts[k].number) <==> posts[i].audio == posts[k].audio
  {
    hide Between;
    InitOk(able);
    RunKeeps(Init(able), steps);
    NumberNamesAudio(Exec(Init(able), steps), i, k);
  }

  // ---- stopping --------------------------------------------------------------------------------------

  // What one step can do to uploads and captures: start one upload, for the running capture; drop the
  // running capture or start a new one; nothing that makes an old capture the running one again.
  ghost predicate StepShape(w: World, x: World) {
    && (x.posts == w.posts || (|x.posts| == |w.posts| + 1 && x.posts[..|w.posts|] == w.posts && w.cap == Some(x.posts[|w.posts|].cap)))
    && (x.cap == w.cap || x.cap.None? || x.cap.value >= |w.caps|)
    && |w.caps| <= |x.caps|
  }

  lemma StoppedShape(w: World)
    requires Refs(w)
    ensures Stopped(w).posts == w.posts && Stopped(w).cap.None? && |Stopped(w).caps| == |w.caps|
  {
    hide ClearTimer, StopCapRec, RecRefs, JobRefs, TimerRefs;
    if w.cap.Some? {
      ClearRefs(w, w.cap.value);
      StopCapRecRefs(ClearTimer(w, w.cap.value), w.cap.value);
    }
  }

  lemma SyncedShape(w: World)
    requires Refs(w)
    ensures Synced(w).posts == w.posts && |w.caps| <= |Synced(w).caps|
    ensures Synced(w).cap == w.cap || Synced(w).cap.None? || Synced(w).cap.value >= |w.caps|
  {
    hide Stopped;
    StoppedShape(w);
  }

  lemma TurnShape(w: World, c: nat)
    requires c < |w.caps|
    ensures StepShape(w, Turn(w, c)) && Turn(w, c).cap == w.cap
  {
  }

  lemma NextTurnShape(w: World, c: nat, k: Cap)
    requires c < |w.caps|
    ensures StepShape(w, Turn(SetCap(w, c, k), c))
  {
    hide Turn;
    TurnShape(SetCap(w, c, k), c);
  }

  lemma AnsweredShape(w: World, c: nat, item: Item, at: nat, a: Answer)
    requires c < |w.caps|
    ensures StepShape(w, Answered(w, c, item, at, a))
  {
    hide Turn, Shift, StepShape;
    var k := w.caps[c];
    var k' := k.(tries := k.tries[item.number := Tries(k, item.number) + 1]);
    if w.cap != Some(c) {
      assert StepShape(w, SetCap(w, c, k.(uploading := false))) by { CapShape(w, c, k.(uploading := false)); }
    } else if a.Accepted? {
      NextTurnShape(w, c, Shift(k));
    } else if a.Refused? {
      NextTurnShape(w, c, Emptied(k));
    } else if Tries(k', item.number) > MAX_TRIES {
      NextTurnShape(w, c, Shift(k'));
    } else {
      CapShape(w, c, k');
      JobShape(w, SetCap(w, c, k'), Backoff(c, item, at));
    }
  }

  lemma CapShape(w: World, c: nat, k: Cap)
    requires c < |w.caps|
    ensures StepShape(w, SetCap(w, c, k))
  {
  }

  lemma JobShape(w: World, x: World, j: Job)
    requires StepShape(w, x)
    ensures StepShape(w, NewJob(x, j))
  {
  }

  lemma QueuedShape(w: World, c: nat, item: Item)
    requires c < |w.caps|
    ensures StepShape(w, Queued(w, c, item))
  {
    hide Turn, Push;
    var y := SetCap(w, c, Push(w.caps[c], item));
    TurnShape(SetCap(y, c, y.caps[c].(uploading := true)), c);
  }

  lemma RecordingShape(w: World, c: nat, mic: Mic)
    requires c < |w.caps|
    ensures Recording(w, c, mic).posts == w.posts && Recording(w, c, mic).cap == w.cap && |Recording(w, c, mic).caps| == |w.caps|
  {
  }

  lemma StepHasShape(w: World, s: Step)
    requires Refs(w) && Enabled(w, s)
    ensures StepShape(w, StepTo(w, s))
  {
    hide Synced, Stopped, KeyTaken, ExportTaken, Fired, RecorderDone, MicSwapped, MuteLifted, BytesTaken, Queued, Answered, Turn, VerdictTaken, RecRefs, TimerRefs;
    match s
    case Apply(v) => SyncedShape(w.(view := Some(v)));
    case VerifyDone(j, ok) =>
      VerdictRefs(w, j, ok);
      VerdictShape(w, j, ok);
      SyncedShape(VerdictTaken(w, j, ok));
    case Leave => StoppedShape(w);
    case Decline => StoppedShape(w);
    case KeyMade(j, ok) => KeyShape(w, j, ok);
    case KeyExported(j, ok, mic) => ExportShape(w, j, ok, mic);
    case Fire(t, mic) => FiredShape(w, t, mic);
    case Data(r) =>
    case TrackEnds(r) =>
    case OnStop(r, mic) => RecorderShape(w, r, mic);
    case MicChanged => MicShape(w);
    case Unmuted => MuteShape(w);
    case BytesRead(j, ok) => BytesShape(w, j, ok);
    case Encrypted(j, ok) => QueuedShape(WithoutJob(w, j), w.jobs[j].cap, w.jobs[j].item);
    case PostAnswered(j, a) => AnsweredShape(WithoutJob(w, j), w.jobs[j].cap, w.jobs[j].item, w.jobs[j].at, a);
    case Waited(j) => TurnShape(WithoutJob(w, j), w.jobs[j].cap);
  }

  lemma VerdictShape(w: World, j: nat, ok: bool)
    requires Refs(w) && j in w.jobs && w.jobs[j].Verify?
    ensures VerdictTaken(w, j, ok).posts == w.posts && VerdictTaken(w, j, ok).cap == w.cap && VerdictTaken(w, j, ok).caps == w.caps
  {
  }

  lemma KeyShape(w: World, j: nat, ok: bool)
    requires Refs(w) && j in w.jobs && w.jobs[j].MakeKey?
    ensures StepShape(w, KeyTaken(w, j, ok))
  {
  }

  lemma ExportShape(w: World, j: nat, ok: bool, mic: Mic)
    requires Refs(w) && j in w.jobs && w.jobs[j].ExportKey?
    ensures StepShape(w, ExportTaken(w, j, ok, mic))
  {
    hide Recording;
    RecordingShape(WithoutJob(w, j), w.jobs[j].cap, mic);
  }

  lemma MicShape(w: World)
    requires Refs(w)
    ensures StepShape(w, MicSwapped(w))
  {
    hide ClearTimer, StopCapRec, RecRefs, JobRefs, TimerRefs;
    if w.cap.Some? {
      ClearRefs(w, w.cap.value);
      StopCapRecRefs(ClearTimer(w, w.cap.value), w.cap.value);
    }
  }

  lemma MuteShape(w: World)
    requires Refs(w)
    ensures StepShape(w, MuteLifted(w))
  {
  }

  lemma BytesShape(w: World, j: nat, ok: bool)
    requires Refs(w) && j in w.jobs && w.jobs[j].ReadBytes?
    ensures StepShape(w, BytesTaken(w, j, ok))
  {
  }

  lemma FiredShape(w: World, t: nat, mic: Mic)
    requires Refs(w) && t in w.timers
    ensures Fired(w, t, mic).posts == w.posts && Fired(w, t, mic).cap == w.cap && |Fired(w, t, mic).caps| == |w.caps|
  {
    if w.timers[t].Retry? {
      RecordingShape(w.(timers := w.timers - {t}), w.timers[t].cap, mic);
    }
  }

  lemma RecorderShape(w: World, r: nat, mic: Mic)
    requires Refs(w) && r < |w.recs|
    ensures RecorderDone(w, r, mic).posts == w.posts && RecorderDone(w, r, mic).cap == w.cap && |RecorderDone(w, r, mic).caps| == |w.caps|
  {
    var x := SetRec(w, r, w.recs[r].(phase := Done));
    RecordingShape(if Keeps(w, r) then Numbered(x, w.recs[r].cap, r) else x, w.recs[r].cap, mic);
  }

  function PostsOf(posts: seq<Post>, c: nat): seq<Post> {
    if posts == [] then []
    else if posts[|posts| - 1].cap == c then PostsOf(posts[..|posts| - 1], c) + [posts[|posts| - 1]]
    else PostsOf(posts[..|posts| - 1], c)
  }

  // Once a capture is not the running one, no continuation it left behind starts another upload for
  // it, whatever follows.
  lemma {:induction false} StoppedIsSilent(w: World, steps: seq<Step>, c: nat)
    requires Possible(w, steps) && c < |w.caps| && w.cap != Some(c)
    ensures PostsOf(Exec(w, steps).posts, c) == PostsOf(w.posts, c) && Exec(w, steps).cap != Some(c)
    decreases |steps|
  {
    hide StepTo, Refs;
    if steps != [] {
      var x := StepTo(w, steps[0]);
      StepHasShape(w, steps[0]);
      assert x.posts != w.posts ==> x.posts[..|x.posts| - 1] == w.posts;
      StoppedIsSilent(x, steps[1..], c);
    }
  }

  // Declining and leaving stop the running capture there and then, so nothing it recorded is
  // uploaded afterwards.
  lemma {:induction false} NothingAfterDecline(w: World, s: Step, steps: seq<Step>, c: nat)
    requires s.Decline? || s.Leave?
    requires c < |w.caps| && Possible(w, [s] + steps)
    ensures PostsOf(Exec(w, [s] + steps).posts, c) == PostsOf(w.posts, c)
  {
    hide Stopped, Refs;
    assert ([s] + steps)[1..] == steps;
    StoppedShape(w);
    StoppedIsSilent(StepTo(w, s), steps, c);
  }

  // ---- one at a time -------------------------------------------------------------------------------------

  lemma OneOfEach(w: World)
    requires Inv(w)
    ensures forall i, j :: i in w.jobs && j in w.jobs && IsLoop(w.jobs[i]) && IsLoop(w.jobs[j]) && w.jobs[i].cap == w.jobs[j].cap ==> i == j
    ensures forall q, r :: 0 <= q < |w.recs| && 0 <= r < |w.recs| && Live(w.recs[q]) && Live(w.recs[r]) && w.recs[q].cap == w.recs[r].cap ==> q == r
  {
  }

  // A capture never has two uploads under way or two recorders running at once.
  lemma {:induction false} OneUploadOneRecorder(able: bool, steps: seq<Step>)
    requires Possible(Init(able), steps)
    ensures var w := Exec(Init(able), steps);
            && (forall i, j :: i in w.jobs && j in w.jobs && IsLoop(w.jobs[i]) && IsLoop(w.jobs[j]) && w.jobs[i].cap == w.jobs[j].cap ==> i == j)
            && (forall q, r :: 0 <= q < |w.recs| && 0 <= r < |w.recs| && Live(w.recs[q]) && Live(w.recs[r]) && w.recs[q].cap == w.recs[r].cap ==> q == r)
  {
    hide Between;
    InitOk(able);
    RunKeeps(Init(able), steps);
    OneOfEach(Exec(Init(able), steps));
  }

  // A capture runs exactly when it is wanted, and then it is one for the view's meeting and grant.
  ghost predicate InStep(w: World) {
    Refs(w) && (w.cap.Some? <==> Wanted(w)) && (Wanted(w) ==> UpToDate(w))
  }

  // After a view has been taken in and its key judged, what runs is what is wanted.
  lemma SyncedExactlyWhenWanted(w: World)
    requires Refs(w)
    ensures InStep(Synced(w)) && Synced(w).view == w.view && (Wanted(Synced(w)) <==> Wanted(w))
  {
    StoppedRefs(w);
    hide Stopped;
    if Wanted(w) && !UpToDate(w) {
      StartedInStep(Stopped(w), w.view.value, w.view.value.grant.value);
    }
  }

  lemma StartedInStep(w: World, v: View, g: Grant)
    requires Refs(w) && Wanted(w) && v == w.view.value && g == v.grant.value
    ensures InStep(Started(w, v, g)) && Started(w, v, g).view == w.view
  {
    var x := Started(w, v, g);
    StartedRefs(w, v, g);
  }

  lemma StartedRefs(w: World, v: View, g: Grant)
    requires Refs(w)
    ensures Refs(Started(w, v, g))
  {
  }

  lemma StoppedRefs(w: World)
    requires Refs(w)
    ensures Refs(Stopped(w)) && Stopped(w).view == w.view && Stopped(w).trusts == w.trusts && Stopped(w).trusted == w.trusted
    ensures |Stopped(w).caps| == |w.caps| && Stopped(w).able == w.able && Stopped(w).cap.None?
  {
    if w.cap.Some? {
      var c := w.cap.value;
      ClearRefs(w, c);
      hide ClearTimer, StopCapRec, JobRefs, TimerRefs;
      StopCapRecRefs(ClearTimer(w, c), c);
    }
  }

  lemma ClearRefs(w: World, c: nat)
    requires Refs(w) && c < |w.caps|
    ensures Refs(ClearTimer(w, c)) && ClearTimer(w, c) == w.(timers := ClearTimer(w, c).timers)
  {
    hide RecRefs, JobRefs;
  }

  lemma StopCapRecRefs(w: World, c: nat)
    requires Refs(w) && c < |w.caps|
    ensures Refs(StopCapRec(w, c)) && StopCapRec(w, c) == w.(recs := StopCapRec(w, c).recs)
  {
    hide JobRefs, TimerRefs;
  }
}
