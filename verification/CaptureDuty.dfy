// When the capture that runs is the one the view calls for: which steps lose that, and which grant the
// running capture then works under.
module CaptureDuty {
  import opened Common
  import opened CaptureProtocol
  import opened CaptureInvariants
  import opened CaptureRuns

  // Nothing changed that decides what should run, or what does.
  ghost predicate SameDuty(w: World, x: World) {
    && x.view == w.view && x.cap == w.cap && x.trusts == w.trusts && x.trusted == w.trusted && x.able == w.able
    && |w.caps| == |x.caps|
    && forall c :: 0 <= c < |w.caps| ==> x.caps[c].meeting == w.caps[c].meeting && x.caps[c].version == w.caps[c].version
  }

  lemma SameDutySameStep(w: World, x: World)
    requires Refs(w) && Refs(x) && SameDuty(w, x)
    ensures InStep(w) <==> InStep(x)
  {
    hide RecRefs, JobRefs, TimerRefs;
  }

  lemma SameDutyTwice(w: World, x: World, y: World)
    requires SameDuty(w, x) && SameDuty(x, y)
    ensures SameDuty(w, y)
  {
  }

  lemma SetCapDuty(w: World, c: nat, k: Cap)
    requires c < |w.caps| && k.meeting == w.caps[c].meeting && k.version == w.caps[c].version
    ensures SameDuty(w, SetCap(w, c, k))
  {
  }

  lemma TurnDuty(w: World, c: nat)
    requires c < |w.caps|
    ensures SameDuty(w, Turn(w, c))
  {
  }

  lemma NextTurnDuty(w: World, c: nat, k: Cap)
    requires c < |w.caps| && k.meeting == w.caps[c].meeting && k.version == w.caps[c].version
    ensures SameDuty(w, Turn(SetCap(w, c, k), c))
  {
    hide Turn, SameDuty;
    SetCapDuty(w, c, k);
    TurnDuty(SetCap(w, c, k), c);
    SameDutyTwice(w, SetCap(w, c, k), Turn(SetCap(w, c, k), c));
  }

  lemma AnsweredDuty(w: World, c: nat, item: Item, at: nat, a: Answer)
    requires c < |w.caps|
    ensures SameDuty(w, Answered(w, c, item, at, a))
  {
    hide Turn, SameDuty, Shift;
    var k := w.caps[c];
    var k' := k.(tries := k.tries[item.number := Tries(k, item.number) + 1]);
    ShiftDuty(k);
    ShiftDuty(k');
    if w.cap != Some(c) {
      SetCapDuty(w, c, k.(uploading := false));
    } else if a.Accepted? {
      NextTurnDuty(w, c, Shift(k));
    } else if a.Refused? {
      NextTurnDuty(w, c, Emptied(k));
    } else if Tries(k', item.number) > MAX_TRIES {
      NextTurnDuty(w, c, Shift(k'));
    } else {
      SetCapDuty(w, c, k');
      NewJobDuty(w, SetCap(w, c, k'), Backoff(c, item, at));
    }
  }

  lemma ShiftDuty(k: Cap)
    ensures Shift(k).meeting == k.meeting && Shift(k).version == k.version
  {
  }

  lemma NewJobDuty(w: World, x: World, j: Job)
    requires SameDuty(w, x)
    ensures SameDuty(w, NewJob(x, j))
  {
  }

  lemma QueuedDuty(w: World, c: nat, item: Item)
    requires c < |w.caps|
    ensures SameDuty(w, Queued(w, c, item))
  {
    hide Turn, Push, SameDuty;
    SameDutyItself(w);
    if w.cap == Some(c) {
      PushDuty(w.caps[c], item);
      var y := SetCap(w, c, Push(w.caps[c], item));
      SetCapDuty(w, c, Push(w.caps[c], item));
      NextTurnDuty(y, c, y.caps[c].(uploading := true));
      SameDutyTwice(w, y, Turn(SetCap(y, c, y.caps[c].(uploading := true)), c));
    }
  }

  lemma SameDutyItself(w: World)
    ensures SameDuty(w, w)
  {
  }

  lemma PushDuty(k: Cap, item: Item)
    ensures Push(k, item).meeting == k.meeting && Push(k, item).version == k.version
  {
  }

  lemma RecordingDuty(w: World, c: nat, mic: Mic)
    requires c < |w.caps|
    ensures SameDuty(w, Recording(w, c, mic))
  {
  }

  lemma RecorderDuty(w: World, r: nat, mic: Mic)
    requires Refs(w) && r < |w.recs|
    ensures SameDuty(w, RecorderDone(w, r, mic))
  {
    hide Recording;
    var x := SetRec(w, r, w.recs[r].(phase := Done));
    RecordingDuty(if Keeps(w, r) then Numbered(x, w.recs[r].cap, r) else x, w.recs[r].cap, mic);
  }

  lemma FiredDuty(w: World, t: nat, mic: Mic)
    requires Refs(w) && t in w.timers
    ensures SameDuty(w, Fired(w, t, mic))
  {
    hide Recording;
    if w.timers[t].Retry? {
      RecordingDuty(w.(timers := w.timers - {t}), w.timers[t].cap, mic);
    }
  }

  lemma MicDuty(w: World)
    requires Refs(w)
    ensures SameDuty(w, MicSwapped(w)) && SameDuty(w, MuteLifted(w))
  {
    hide ClearTimer, StopCapRec, RecRefs, JobRefs, TimerRefs, Voiced;
    if w.cap.Some? {
      ClearRefs(w, w.cap.value);
      StopCapRecRefs(ClearTimer(w, w.cap.value), w.cap.value);
    }
  }

  lemma DeriveDuty(w: World, j: nat, mic: Mic)
    requires Refs(w) && j in w.jobs && IsDeriving(w.jobs[j])
    ensures w.jobs[j].MakeKey? ==> SameDuty(w, KeyTaken(w, j, true))
    ensures w.jobs[j].ExportKey? ==> SameDuty(w, ExportTaken(w, j, true, mic))
    ensures w.cap != Some(w.jobs[j].cap) ==> SameDuty(w, DeriveFailed(WithoutJob(w, j), w.jobs[j].cap))
  {
    hide Recording;
    RecordingDuty(WithoutJob(w, j), w.jobs[j].cap, mic);
  }

  // The steps after which what runs may not be what is wanted: a view whose key has yet to be
  // verified, while a capture runs; declining, until the next view; and a key that could not be made.
  predicate Loses(w: World, s: Step)
    requires Refs(w) && Enabled(w, s)
  {
    match s
    case Apply(v) => NeedsTrust(w, v) && w.cap.Some?
    case Decline => w.cap.Some?
    case KeyMade(j, ok) => !ok && w.cap == Some(w.jobs[j].cap)
    case KeyExported(j, ok, _) => !ok && w.cap == Some(w.jobs[j].cap)
    case _ => false
  }

  lemma PlainStep(w: World, s: Step)
    requires Refs(w) && Enabled(w, s)
    requires !s.Apply? && !s.VerifyDone? && !s.Leave? && !s.Decline? && !Loses(w, s)
    ensures SameDuty(w, StepTo(w, s))
  {
    hide Synced, Stopped, Fired, RecorderDone, MicSwapped, MuteLifted, Queued, Answered, Turn, Recording, RecRefs, TimerRefs;
    match s
    case KeyMade(j, ok) => DeriveDuty(w, j, NoRecorder);
    case KeyExported(j, ok, mic) => DeriveDuty(w, j, mic);
    case Fire(t, mic) => FiredDuty(w, t, mic);
    case Data(r) =>
    case TrackEnds(r) =>
    case OnStop(r, mic) => RecorderDuty(w, r, mic);
    case MicChanged => MicDuty(w);
    case Unmuted => MicDuty(w);
    case BytesRead(j, ok) =>
    case Encrypted(j, ok) => QueuedDuty(WithoutJob(w, j), w.jobs[j].cap, w.jobs[j].item);
    case PostAnswered(j, a) => AnsweredDuty(WithoutJob(w, j), w.jobs[j].cap, w.jobs[j].item, w.jobs[j].at, a);
    case Waited(j) => TurnDuty(WithoutJob(w, j), w.jobs[j].cap);
  }

  // Taking a view with a known key in, a verdict on a key, and leaving bring what runs in step from
  // any state.
  lemma BringsInStep(w: World, s: Step)
    requires Refs(w) && Enabled(w, s)
    requires (s.Apply? && !NeedsTrust(w, s.view)) || s.VerifyDone? || s.Leave?
    ensures InStep(StepTo(w, s))
  {
    hide Synced, Stopped, RecRefs, TimerRefs, VerdictTaken;
    match s
    case Apply(v) => SyncedExactlyWhenWanted(w.(view := Some(v)));
    case VerifyDone(j, ok) =>
      VerdictRefs(w, j, ok);
      SyncedExactlyWhenWanted(VerdictTaken(w, j, ok));
    case Leave => StoppedRefs(w);
  }

  // One step: a state in step stays so exactly unless the step is one of those.
  lemma {:induction false} InStepExactlyUnless(w: World, s: Step)
    requires Inv(w) && Enabled(w, s) && InStep(w)
    ensures InStep(StepTo(w, s)) <==> !Loses(w, s)
  {
    StepKeeps(w, s);
    hide Between;
    if s.VerifyDone? || s.Leave? || (s.Apply? && !NeedsTrust(w, s.view)) {
      BringsInStep(w, s);
    } else if s.Apply? {
      WaitsForVerdict(w, s.view);
    } else if s.Decline? {
      StoppedRefs(w);
    } else if Loses(w, s) {
      LostCapture(w, s);
    } else {
      BetweenRefs(StepTo(w, s), None);
      PlainStep(w, s);
      SameDutySameStep(w, StepTo(w, s));
    }
  }

  lemma WaitsForVerdict(w: World, v: View)
    requires Refs(w) && NeedsTrust(w, v) && Refs(Applied(w, v))
    ensures InStep(Applied(w, v)) <==> w.cap.None?
  {
    hide RecRefs, JobRefs, TimerRefs;
  }

  lemma LostCapture(w: World, s: Step)
    requires Refs(w) && Enabled(w, s) && Loses(w, s) && (s.KeyMade? || s.KeyExported?) && InStep(w) && Refs(StepTo(w, s))
    ensures !InStep(StepTo(w, s))
  {
    hide RecRefs, JobRefs, TimerRefs;
  }

  ghost predicate NothingLoses(w: World, steps: seq<Step>)
    requires Possible(w, steps)
    decreases |steps|
  {
    steps == [] || (!Loses(w, steps[0]) && NothingLoses(StepTo(w, steps[0]), steps[1..]))
  }

  // Over every run without such a step, from any state in step ...
  lemma {:induction false} InStepInEveryRun(w: World, steps: seq<Step>)
    requires Inv(w) && InStep(w) && Possible(w, steps) && NothingLoses(w, steps)
    ensures InStep(Exec(w, steps))
    decreases |steps|
  {
    if steps == [] {
    } else {
      hide Between, InStep, Loses, StepTo;
      InStepExactlyUnless(w, steps[0]);
      StepKeeps(w, steps[0]);
      InStepInEveryRun(StepTo(w, steps[0]), steps[1..]);
    }
  }

  // ... and so from the start.
  lemma {:induction false} InStepFromTheStart(able: bool, steps: seq<Step>)
    requires Possible(Init(able), steps) && NothingLoses(Init(able), steps)
    ensures InStep(Exec(Init(able), steps))
  {
    InitOk(able);
    hide Between, Possible, Exec, NothingLoses;
    InStepInEveryRun(Init(able), steps);
  }

  // ---- which grant it works under ---------------------------------------------------------------------

  predicate Matches(k: Cap, v: View) {
    v.grant.Some? && k.token == v.grant.value.token && k.session == v.session
  }

  // What runs has the view's token and service key exactly unless a capture of that meeting and version
  // ran already with others: it is then kept as it is.
  lemma {:induction false} GrantTakenExactlyUnless(w: World)
    requires Refs(w) && Wanted(w)
    ensures Refs(Synced(w)) && Synced(w).cap.Some?
    ensures Matches(Synced(w).caps[Synced(w).cap.value], w.view.value) <==> !(UpToDate(w) && !Matches(w.caps[w.cap.value], w.view.value))
  {
    SyncedExactlyWhenWanted(w);
    StoppedRefs(w);
    hide Stopped, RecRefs, JobRefs, TimerRefs;
  }

  function Told(token: nat): View {
    View(Some(1), true, true, Some(Grant(1, token)), 5)
  }

  ghost function Capturing(view: View): World {
    World(true, Some(view), [Trust(5, Some(true))], Some(0), Some(0), [NewCap(Told(7), Grant(1, 7))], map[], [], map[], map[1 := MakeKey(0)], 2, [], map[])
  }

  lemma FirstView()
    ensures var w := Init(true);
            && Refs(w) && Enabled(w, Apply(Told(7)))
            && StepTo(w, Apply(Told(7))) ==
                 World(true, Some(Told(7)), [Trust(5, None)], Some(0), None, [], map[], [], map[], map[0 := Verify(0)], 1, [], map[])
  {
  }

  lemma FirstVerdict()
    ensures var w := World(true, Some(Told(7)), [Trust(5, None)], Some(0), None, [], map[], [], map[], map[0 := Verify(0)], 1, [], map[]);
            Refs(w) && Enabled(w, VerifyDone(0, true)) && StepTo(w, VerifyDone(0, true)) == Capturing(Told(7))
  {
    var w := World(true, Some(Told(7)), [Trust(5, None)], Some(0), None, [], map[], [], map[], map[0 := Verify(0)], 1, [], map[]);
    assert w.jobs - {0} == map[];
    assert VerdictTaken(w, 0, true) == World(true, Some(Told(7)), [Trust(5, Some(true))], Some(0), None, [], map[], [], map[], map[], 1, [], map[]);
  }

  lemma SecondView()
    ensures Refs(Capturing(Told(7))) && Enabled(Capturing(Told(7)), Apply(Told(8)))
    ensures StepTo(Capturing(Told(7)), Apply(Told(8))) == Capturing(Told(8))
  {
  }

  lemma ThreeSteps(w: World, a: Step, b: Step, c: Step, x: World, y: World, z: World)
    requires Refs(w) && Enabled(w, a) && StepTo(w, a) == x && Refs(x) && Enabled(x, b) && StepTo(x, b) == y
    requires Refs(y) && Enabled(y, c) && StepTo(y, c) == z
    ensures Possible(w, [a, b, c]) && Exec(w, [a, b, c]) == z
  {
    hide StepTo, Refs, Enabled;
    assert Possible(z, []) && Exec(z, []) == z;
    assert [c][1..] == [];
    assert Possible(y, [c]) && Exec(y, [c]) == z;
    assert [b, c][1..] == [c];
    assert Possible(x, [b, c]) && Exec(x, [b, c]) == z;
    assert [a, b, c][1..] == [b, c];
  }

  lemma StillKnown()
    ensures Refs(Capturing(Told(7))) && !NeedsTrust(Capturing(Told(7)), Told(8)) && Refs(Capturing(Told(8))) && Wanted(Capturing(Told(8)))
  {
  }

  // It happens: the meeting's second view carries a new token under the same version, and the capture
  // goes on with the first.
  lemma {:induction false} OldTokenRun() returns (steps: seq<Step>)
    ensures Possible(Init(true), steps)
    ensures var w := Exec(Init(true), steps);
            InStep(w) && Wanted(w) && w.cap == Some(0) && |w.caps| == 1 && w.caps[0].token == 7 && w.view == Some(Told(8))
  {
    hide StepTo, Refs, Enabled, InStep, Wanted, NeedsTrust;
    steps := [Apply(Told(7)), VerifyDone(0, true), Apply(Told(8))];
    FirstView();
    FirstVerdict();
    SecondView();
    StillKnown();
    ThreeSteps(Init(true), steps[0], steps[1], steps[2], StepTo(Init(true), steps[0]), Capturing(Told(7)), Capturing(Told(8)));
    BringsInStep(Capturing(Told(7)), steps[2]);
  }
}
