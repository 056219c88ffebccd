// Meeting-notes capture on one device. Captures come and go as views of the meeting arrive; each
// leaves continuations behind: key derivation, timers, recorders, encryption, the upload loop and its
// waits. The steps are the pieces of page code between awaits and callbacks.
module CaptureProtocol {
  import opened Common

  const MAX_BACKLOG := 6
  const MAX_TRIES := 3

  type Meeting = Option<nat>

  datatype Grant = Grant(version: nat, token: nat)

  datatype View = View(meeting: Meeting, active: bool, consented: bool, grant: Option<Grant>, session: nat)

  // A service key's session and the verdict on its signature, once there is one.
  datatype Trust = Trust(session: nat, ok: Option<bool>)

  // One recording with its number in the meeting. `audio` is the recorder it came from.
  datatype Item = Item(number: nat, audio: nat)

  // A capture. `pushed` is everything its queue ever held, `head` how much of that has left it again.
  datatype Cap = Cap(meeting: Meeting, version: nat, token: nat, session: nat, running: bool, key: bool,
                     queue: seq<Item>, uploading: bool, rec: Option<nat>, timer: Option<nat>, allMuted: bool,
                     tries: map<nat, nat>, pushed: seq<Item>, head: nat)

  datatype Phase = Idle | Active | Stopping | Done

  // A recorder: the capture it records for, whether it has data, and whether the microphone was on
  // at some moment before its end was handled.
  datatype Rec = Rec(cap: nat, phase: Phase, heard: bool, voiced: bool)

  datatype Timer = Retry(cap: nat) | Cut(rec: nat)

  datatype Job =
    | Verify(trust: nat)
    | MakeKey(cap: nat) | ExportKey(cap: nat)
    | ReadBytes(cap: nat, item: Item) | Encrypt(cap: nat, item: Item)
    | Posting(cap: nat, item: Item, at: nat) | Backoff(cap: nat, item: Item, at: nat)

  // One upload that was started.
  datatype Post = Post(cap: nat, meeting: Meeting, number: nat, token: nat, audio: nat)

  // `numbered` remembers which recording got which number.
  datatype World = World(able: bool, view: Option<View>, trusts: seq<Trust>, trusted: Option<nat>,
                         cap: Option<nat>, caps: seq<Cap>, seqs: map<Meeting, nat>,
                         recs: seq<Rec>, timers: map<nat, Timer>, jobs: map<nat, Job>, next: nat,
                         posts: seq<Post>, numbered: map<(Meeting, nat), nat>)

  predicate IsLoop(j: Job) {
    j.Posting? || j.Backoff?
  }

  predicate HasChunk(j: Job) {
    j.ReadBytes? || j.Encrypt?
  }

  predicate IsDeriving(j: Job) {
    j.MakeKey? || j.ExportKey?
  }

  predicate Live(r: Rec) {
    r.phase.Active? || r.phase.Stopping?
  }

  // Everything referred to exists.
  ghost predicate RecRefs(recs: seq<Rec>, caps: seq<Cap>) {
    && (forall r :: 0 <= r < |recs| ==> recs[r].cap < |caps|)
    && (forall c :: 0 <= c < |caps| && caps[c].rec.Some? ==> caps[c].rec.value < |recs| && recs[caps[c].rec.value].cap == c)
  }

  ghost predicate JobRefs(jobs: map<nat, Job>, next: nat, caps: nat, trusts: nat) {
    forall j :: j in jobs ==> j < next && (if jobs[j].Verify? then jobs[j].trust < trusts else jobs[j].cap < caps)
  }

  ghost predicate TimerRefs(timers: map<nat, Timer>, next: nat, caps: nat, recs: nat) {
    forall t :: t in timers ==> t < next && (if timers[t].Retry? then timers[t].cap < caps else timers[t].rec < recs)
  }

  ghost predicate Refs(w: World) {
    && (w.cap.Some? ==> w.cap.value < |w.caps|)
    && (w.trusted.Some? ==> w.trusted.value < |w.trusts|)
    && RecRefs(w.recs, w.caps) && JobRefs(w.jobs, w.next, |w.caps|, |w.trusts|) && TimerRefs(w.timers, w.next, |w.caps|, |w.recs|)
  }

  function SetCap(w: World, c: nat, k: Cap): World
    requires c < |w.caps|
  {
    w.(caps := w.caps[c := k])
  }

  function SetRec(w: World, r: nat, x: Rec): World
    requires r < |w.recs|
  {
    w.(recs := w.recs[r := x])
  }

  function NewJob(w: World, j: Job): World {
    w.(jobs := w.jobs[w.next := j], next := w.next + 1)
  }

  function WithoutJob(w: World, j: nat): World {
    w.(jobs := w.jobs - {j})
  }

  function NewTimer(w: World, c: nat, t: Timer): World
    requires c < |w.caps|
  {
    w.(timers := w.timers[w.next := t], caps := w.caps[c := w.caps[c].(timer := Some(w.next))], next := w.next + 1)
  }

  function ClearTimer(w: World, c: nat): World
    requires c < |w.caps|
  {
    if w.caps[c].timer.Some? then w.(timers := w.timers - {w.caps[c].timer.value}) else w
  }

  // ---- starting and stopping ----------------------------------------------------------------------

  predicate Wanted(w: World)
    requires w.trusted.Some? ==> w.trusted.value < |w.trusts|
  {
    && w.view.Some? && w.view.value.active && w.view.value.consented && w.view.value.grant.Some?
    && w.trusted.Some? && w.trusts[w.trusted.value].ok == Some(true)
    && w.trusts[w.trusted.value].session == w.view.value.session && w.able
  }

  // `rec.stop()`, unless it is not recording.
  function StopRec(w: World, r: nat): World
    requires r < |w.recs|
  {
    if w.recs[r].phase.Active? then SetRec(w, r, w.recs[r].(phase := Stopping)) else w
  }

  function StopCapRec(w: World, c: nat): World
    requires Refs(w) && c < |w.caps|
  {
    if w.caps[c].rec.Some? then StopRec(w, w.caps[c].rec.value) else w
  }

  function Closed(k: Cap): Cap {
    k.(running := false, queue := [], key := false, head := |k.pushed|)
  }

  function Stopped(w: World): World
    requires Refs(w)
  {
    if w.cap.None? then w
    else
      var c := w.cap.value;
      var s := StopCapRec(ClearTimer(w, c), c);
      SetCap(s, c, Closed(s.caps[c])).(cap := None)
  }

  function NewCap(v: View, g: Grant): Cap {
    Cap(v.meeting, g.version, g.token, v.session, true, false, [], false, None, None, false, map[], [], 0)
  }

  predicate UpToDate(w: World)
    requires Refs(w) && Wanted(w)
  {
    && w.cap.Some? && w.caps[w.cap.value].meeting == w.view.value.meeting
    && w.caps[w.cap.value].version == w.view.value.grant.value.version
  }

  function Started(w: World, v: View, g: Grant): World {
    NewJob(w.(cap := Some(|w.caps|), caps := w.caps + [NewCap(v, g)]), MakeKey(|w.caps|))
  }

  // `syncCapture`, up to its first await.
  function Synced(w: World): World
    requires Refs(w)
  {
    if !Wanted(w) then Stopped(w)
    else if UpToDate(w) then w
    else Started(Stopped(w), w.view.value, w.view.value.grant.value)
  }

  // ---- recording -----------------------------------------------------------------------------------

  // What the microphone and the recorder answer.
  datatype Mic = NoTrack | NoRecorder | WontStart(muted: bool) | Starts(muted: bool)

  function NewRec(w: World, c: nat, muted: bool, phase: Phase): World
    requires c < |w.caps|
  {
    w.(recs := w.recs + [Rec(c, phase, false, !muted)],
       caps := w.caps[c := w.caps[c].(rec := Some(|w.recs|), allMuted := muted)])
  }

  function Recording(w: World, c: nat, mic: Mic): World
    requires c < |w.caps|
  {
    if !w.caps[c].running || w.cap != Some(c) then w
    else
      match mic
      case NoTrack => NewTimer(w, c, Retry(c))
      case NoRecorder => w
      case WontStart(muted) => NewRec(w, c, muted, Idle)
      case Starts(muted) => NewTimer(NewRec(w, c, muted, Active), c, Cut(|w.recs|))
  }

  function NextNumber(w: World, m: Meeting): nat {
    if m in w.seqs then w.seqs[m] else 0
  }

  // `enqueue`, up to its first await: the chunk takes the meeting's next number.
  function Numbered(w: World, c: nat, r: nat): World
    requires c < |w.caps|
  {
    var m := w.caps[c].meeting;
    var n := NextNumber(w, m);
    NewJob(w.(seqs := w.seqs[m := n + 1], numbered := w.numbered[(m, n) := r]), ReadBytes(c, Item(n, r)))
  }

  predicate Keeps(w: World, r: nat)
    requires Refs(w) && r < |w.recs|
  {
    var c := w.recs[r].cap;
    w.cap == Some(c) && w.caps[c].running && !w.caps[c].allMuted && w.recs[r].heard
  }

  // `onstop`.
  function RecorderDone(w: World, r: nat, mic: Mic): World
    requires Refs(w) && r < |w.recs|
  {
    var s := SetRec(w, r, w.recs[r].(phase := Done));
    var c := w.recs[r].cap;
    Recording(if Keeps(w, r) then Numbered(s, c, r) else s, c, mic)
  }

  // ---- uploading -----------------------------------------------------------------------------------

  // Older chunks are dropped beyond the backlog.
  function Trim(q: seq<Item>): seq<Item> {
    if |q| > MAX_BACKLOG then q[|q| - MAX_BACKLOG..] else q
  }

  function Push(k: Cap, item: Item): Cap {
    var q := Trim(k.queue + [item]);
    k.(queue := q, pushed := k.pushed + [item], head := if |k.pushed| + 1 >= |q| then |k.pushed| + 1 - |q| else 0)
  }

  function Shift(k: Cap): Cap {
    if k.queue == [] then k else k.(queue := k.queue[1..], head := k.head + 1)
  }

  function Emptied(k: Cap): Cap {
    k.(queue := [], head := |k.pushed|)
  }

  // The head of the upload loop: the next POST, or out of the loop.
  function Turn(w: World, c: nat): World
    requires c < |w.caps|
  {
    var k := w.caps[c];
    if w.cap == Some(c) && k.queue != [] then
      var item := k.queue[0];
      NewJob(w.(posts := w.posts + [Post(c, k.meeting, item.number, k.token, item.audio)]), Posting(c, item, k.head))
    else SetCap(w, c, k.(uploading := false))
  }

  function Upload(w: World, c: nat): World
    requires c < |w.caps|
  {
    if w.caps[c].uploading then w else Turn(SetCap(w, c, w.caps[c].(uploading := true)), c)
  }

  datatype Answer = Accepted | Busy | Refused

  function Tries(k: Cap, n: nat): nat {
    if n in k.tries then k.tries[n] else 0
  }

  // From the answer to a POST on.
  function Answered(w: World, c: nat, item: Item, at: nat, a: Answer): World
    requires c < |w.caps|
  {
    var k := w.caps[c];
    if w.cap != Some(c) then SetCap(w, c, k.(uploading := false))
    else if a.Accepted? then Turn(SetCap(w, c, Shift(k)), c)
    else if a.Refused? then Turn(SetCap(w, c, Emptied(k)), c)
    else
      var k' := k.(tries := k.tries[item.number := Tries(k, item.number) + 1]);
      if Tries(k', item.number) > MAX_TRIES then Turn(SetCap(w, c, Shift(k')), c)
      else NewJob(SetCap(w, c, k'), Backoff(c, item, at))
  }

  // ---- steps ----------------------------------------------------------------------------------------

  datatype Step =
    | Apply(view: View)
    | VerifyDone(job: nat, ok: bool)
    | Leave
    | Decline
    | KeyMade(job: nat, ok: bool)
    | KeyExported(job: nat, ok: bool, mic: Mic)
    | Fire(timer: nat, mic: Mic)
    | Data(rec: nat)
    | TrackEnds(rec: nat)
    | OnStop(rec: nat, mic: Mic)
    | MicChanged
    | Unmuted
    | BytesRead(job: nat, ok: bool)
    | Encrypted(job: nat, ok: bool)
    | PostAnswered(job: nat, answer: Answer)
    | Waited(job: nat)

  predicate Enabled(w: World, s: Step) {
    match s
    case Apply(_) => true
    case VerifyDone(j, _) => j in w.jobs && w.jobs[j].Verify?
    case Leave => true
    case Decline => w.view.Some?
    case KeyMade(j, _) => j in w.jobs && w.jobs[j].MakeKey?
    case KeyExported(j, _, _) => j in w.jobs && w.jobs[j].ExportKey?
    case Fire(t, _) => t in w.timers
    case Data(r) => r < |w.recs| && Live(w.recs[r])
    case TrackEnds(r) => r < |w.recs| && w.recs[r].phase.Active?
    case OnStop(r, _) => r < |w.recs| && w.recs[r].phase.Stopping?
    case MicChanged => true
    case Unmuted => true
    case BytesRead(j, _) => j in w.jobs && w.jobs[j].ReadBytes?
    case Encrypted(j, _) => j in w.jobs && w.jobs[j].Encrypt?
    case PostAnswered(j, _) => j in w.jobs && w.jobs[j].Posting?
    case Waited(j) => j in w.jobs && w.jobs[j].Backoff?
  }

  predicate NeedsTrust(w: World, v: View)
    requires Refs(w)
  {
    v.meeting.Some? && (w.trusted.None? || w.trusts[w.trusted.value].session != v.session)
  }

  function Applied(w: World, v: View): World
    requires Refs(w)
  {
    var s := w.(view := Some(v));
    if NeedsTrust(w, v) then
      NewJob(s.(trusts := s.trusts + [Trust(v.session, None)], trusted := Some(|s.trusts|)), Verify(|s.trusts|))
    else Synced(s)
  }

  function Judged(w: World, t: nat, ok: bool): World
    requires t < |w.trusts|
  {
    w.(trusts := w.trusts[t := w.trusts[t].(ok := Some(ok))])
  }

  function DeriveFailed(w: World, c: nat): World {
    if w.cap == Some(c) then w.(cap := None) else w
  }

  // The recordings that are still running hear the microphone come on.
  function Voiced(recs: seq<Rec>, c: nat): (r: seq<Rec>)
    ensures |r| == |recs|
  {
    seq(|recs|, i requires 0 <= i < |recs| => if recs[i].cap == c && Live(recs[i]) then recs[i].(voiced := true) else recs[i])
  }

  function MuteLifted(w: World): World
    requires Refs(w)
  {
    if w.cap.None? then w
    else
      var c := w.cap.value;
      w.(caps := w.caps[c := w.caps[c].(allMuted := false)], recs := Voiced(w.recs, c))
  }

  function MicSwapped(w: World): World
    requires Refs(w)
  {
    if w.cap.Some? && w.caps[w.cap.value].rec.Some? && w.recs[w.caps[w.cap.value].rec.value].phase.Active?
    then StopCapRec(ClearTimer(w, w.cap.value), w.cap.value)
    else w
  }

  // After encryption: into the queue, if the capture is still the running one.
  function Queued(w: World, c: nat, item: Item): World
    requires c < |w.caps|
  {
    if w.cap != Some(c) then w else Upload(SetCap(w, c, Push(w.caps[c], item)), c)
  }

  function KeyTaken(w: World, j: nat, ok: bool): World
    requires Refs(w) && j in w.jobs && w.jobs[j].MakeKey?
  {
    var c, x := w.jobs[j].cap, WithoutJob(w, j);
    if ok then NewJob(SetCap(x, c, x.caps[c].(key := true)), ExportKey(c)) else DeriveFailed(x, c)
  }

  function ExportTaken(w: World, j: nat, ok: bool, mic: Mic): World
    requires Refs(w) && j in w.jobs && w.jobs[j].ExportKey?
  {
    var c, x := w.jobs[j].cap, WithoutJob(w, j);
    if !ok then DeriveFailed(x, c) else if x.cap != Some(c) then x else Recording(x, c, mic)
  }

  function Fired(w: World, t: nat, mic: Mic): World
    requires Refs(w) && t in w.timers
  {
    var x := w.(timers := w.timers - {t});
    match w.timers[t]
    case Retry(c) => Recording(x, c, mic)
    case Cut(r) => StopRec(x, r)
  }

  // Encryption needs the key, which a stopped capture no longer has.
  function BytesTaken(w: World, j: nat, ok: bool): World
    requires Refs(w) && j in w.jobs && w.jobs[j].ReadBytes?
  {
    var b, x := w.jobs[j], WithoutJob(w, j);
    if ok && w.caps[b.cap].key then NewJob(x, Encrypt(b.cap, b.item)) else x
  }

  function CipherTaken(w: World, j: nat, ok: bool): World
    requires Refs(w) && j in w.jobs && w.jobs[j].Encrypt?
  {
    if ok then Queued(WithoutJob(w, j), w.jobs[j].cap, w.jobs[j].item) else WithoutJob(w, j)
  }

  function AnswerTaken(w: World, j: nat, a: Answer): World
    requires Refs(w) && j in w.jobs && w.jobs[j].Posting?
  {
    Answered(WithoutJob(w, j), w.jobs[j].cap, w.jobs[j].item, w.jobs[j].at, a)
  }

  function WaitTaken(w: World, j: nat): World
    requires Refs(w) && j in w.jobs && w.jobs[j].Backoff?
  {
    Turn(WithoutJob(w, j), w.jobs[j].cap)
  }

  function VerdictTaken(w: World, j: nat, ok: bool): World
    requires j in w.jobs && w.jobs[j].Verify? && w.jobs[j].trust < |w.trusts|
  {
    WithoutJob(Judged(w, w.jobs[j].trust, ok), j)
  }

  lemma VerdictRefs(w: World, j: nat, ok: bool)
    requires Refs(w) && j in w.jobs && w.jobs[j].Verify?
    ensures Refs(VerdictTaken(w, j, ok))
  {
  }

  function StepTo(w: World, s: Step): World
    requires Refs(w) && Enabled(w, s)
  {
    match s
    case Apply(v) => Applied(w, v)
    case VerifyDone(j, ok) => VerdictRefs(w, j, ok); Synced(VerdictTaken(w, j, ok))
    case Leave => Stopped(w).(view := None, trusted := None)
    case Decline => Stopped(w)
    case KeyMade(j, ok) => KeyTaken(w, j, ok)
    case KeyExported(j, ok, mic) => ExportTaken(w, j, ok, mic)
    case Fire(t, mic) => Fired(w, t, mic)
    case Data(r) => SetRec(w, r, w.recs[r].(heard := true))
    case TrackEnds(r) => StopRec(w, r)
    case OnStop(r, mic) => RecorderDone(w, r, mic)
    case MicChanged => MicSwapped(w)
    case Unmuted => MuteLifted(w)
    case BytesRead(j, ok) => BytesTaken(w, j, ok)
    case Encrypted(j, ok) => CipherTaken(w, j, ok)
    case PostAnswered(j, a) => AnswerTaken(w, j, a)
    case Waited(j) => WaitTaken(w, j)
  }

  function Init(able: bool): World {
    World(able, None, [], None, None, [], map[], [], map[], map[], 0, [], map[])
  }
}
