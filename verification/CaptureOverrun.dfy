// A run in which an upload outlasts the backlog: seven chunks are recorded, encrypted and queued while
// the first one's upload is unanswered.
module CaptureOverrun {
  import opened Common
  import opened CaptureProtocol
  import opened CaptureInvariants
  import opened CaptureRuns
  import opened CaptureQueue

  lemma {:induction false} Took(w0: World, es: seq<Step>, s: Step)
    requires Possible(w0, es) && Refs(Exec(w0, es)) && Enabled(Exec(w0, es), s)
    ensures Possible(w0, es + [s]) && Exec(w0, es + [s]) == StepTo(Exec(w0, es), s)
    decreases |es|
  {
    hide StepTo, Refs, Enabled;
    if es == [] {
      assert [] + [s] == [s] && [s][1..] == [];
      assert Possible(StepTo(w0, s), []);
    } else {
      assert (es + [s])[1..] == es[1..] + [s] && (es + [s])[0] == es[0];
      Took(StepTo(w0, es[0]), es[1..], s);
    }
  }

  // The running capture has its key and is recording with the microphone on.
  ghost predicate Going(w: World, c: nat, r: nat) {
    && Inv(w) && w.cap == Some(c) && c < |w.caps| && w.caps[c].key && !w.caps[c].allMuted
    && r < |w.recs| && w.recs[r].cap == c && w.recs[r].phase.Active?
  }

  // A recording ends with something heard, and the next one begins.
  function Recorded(w: World, c: nat, r: nat): World
    requires Refs(w) && r < |w.recs|
  {
    RecorderDone(SetRec(w, r, w.recs[r].(phase := Stopping, heard := true)), r, Starts(false))
  }

  lemma HeardRefs(w: World, r: nat)
    requires Refs(w) && r < |w.recs|
    ensures Refs(SetRec(w, r, w.recs[r].(heard := true))) && Refs(SetRec(w, r, w.recs[r].(phase := Stopping, heard := true)))
  {
    hide JobRefs, TimerRefs;
  }

  lemma RecordStepFacts(w: World, r: nat)
    requires Refs(w) && r < |w.recs| && w.recs[r].phase.Active?
    ensures var x, y := SetRec(w, r, w.recs[r].(heard := true)), SetRec(w, r, w.recs[r].(phase := Stopping, heard := true));
            && Refs(x) && Refs(y)
            && Enabled(w, Data(r)) && StepTo(w, Data(r)) == x
            && Enabled(x, TrackEnds(r)) && StepTo(x, TrackEnds(r)) == y
            && Enabled(y, OnStop(r, Starts(false))) && StepTo(y, OnStop(r, Starts(false))) == RecorderDone(y, r, Starts(false))
  {
    HeardRefs(w, r);
    hide RecorderDone, RecRefs, JobRefs, TimerRefs;
  }

  lemma Went(w0: World, es: seq<Step>, s: Step)
    requires Possible(w0, es) && Inv(Exec(w0, es)) && Enabled(Exec(w0, es), s)
    ensures Refs(Exec(w0, es)) && Possible(w0, es + [s])
    ensures Exec(w0, es + [s]) == StepTo(Exec(w0, es), s) && Inv(Exec(w0, es + [s]))
  {
    hide Possible, Exec, StepTo, Enabled, Between;
    BetweenRefs(Exec(w0, es), None);
    Took(w0, es, s);
    StepKeeps(Exec(w0, es), s);
  }

  lemma RecordSteps(w0: World, es: seq<Step>, c: nat, r: nat) returns (es': seq<Step>)
    requires Possible(w0, es) && Going(Exec(w0, es), c, r)
    ensures Possible(w0, es') && Refs(Exec(w0, es))
    ensures Inv(Exec(w0, es')) && Exec(w0, es') == Recorded(Exec(w0, es), c, r)
  {
    var w := Exec(w0, es);
    hide Possible, Exec, Between, StepTo, Enabled, RecorderDone;
    BetweenRefs(w, None);
    RecordStepFacts(w, r);
    Went(w0, es, Data(r));
    var es1 := es + [Data(r)];
    Went(w0, es1, TrackEnds(r));
    var es2 := es1 + [TrackEnds(r)];
    Went(w0, es2, OnStop(r, Starts(false)));
    es' := es2 + [OnStop(r, Starts(false))];
  }

  lemma RecordedFacts(w: World, c: nat, r: nat)
    requires Going(w, c, r)
    ensures Refs(w)
    ensures var x := Recorded(w, c, r);
            && x.cap == Some(c) && |x.caps| == |w.caps|
            && x.caps[c] == w.caps[c].(rec := Some(|w.recs|), timer := Some(w.next + 1), allMuted := false)
            && |x.recs| == |w.recs| + 1 && x.recs[|w.recs|].cap == c && x.recs[|w.recs|].phase.Active?
            && x.next == w.next + 2 && (exists n :: x.jobs == w.jobs[w.next := ReadBytes(c, Item(n, r))])
  {
    hide Between, ItemOk, RecRefs, JobRefs, TimerRefs, QueueOk;
    BetweenRefs(w, None);
    CapFacts(w, c, None);
    var y := SetRec(w, r, w.recs[r].(phase := Stopping, heard := true));
    HeardRefs(w, r);
    assert Keeps(y, r);
    var z := SetRec(y, r, y.recs[r].(phase := Done));
    NextRecording(z, c, r);
  }

  lemma NextRecording(z: World, c: nat, r: nat)
    requires c < |z.caps| && z.cap == Some(c) && z.caps[c].running
    ensures var x := Recording(Numbered(z, c, r), c, Starts(false));
            && x.cap == Some(c) && |x.caps| == |z.caps|
            && x.caps[c] == z.caps[c].(rec := Some(|z.recs|), timer := Some(z.next + 1), allMuted := false)
            && |x.recs| == |z.recs| + 1 && x.recs[|z.recs|].cap == c && x.recs[|z.recs|].phase.Active?
            && x.next == z.next + 2 && (exists n :: x.jobs == z.jobs[z.next := ReadBytes(c, Item(n, r))])
  {
    var n := NextNumber(z, z.caps[c].meeting);
    assert Recording(Numbered(z, c, r), c, Starts(false)).jobs == z.jobs[z.next := ReadBytes(c, Item(n, r))];
  }

  // One more chunk: recorded, read, encrypted and queued, while no upload is answered.
  lemma OneMoreChunk(w0: World, es: seq<Step>, c: nat, r: nat) returns (es': seq<Step>, r': nat)
    requires Possible(w0, es) && Going(Exec(w0, es), c, r)
    ensures Possible(w0, es') && Going(Exec(w0, es'), c, r')
    ensures var w, x := Exec(w0, es), Exec(w0, es');
            && |x.caps| == |w.caps| && |x.caps[c].pushed| == |w.caps[c].pushed| + 1 && x.caps[c].uploading
            && (w.caps[c].uploading ==> forall j :: j in w.jobs && IsLoop(w.jobs[j]) ==> j in x.jobs && x.jobs[j] == w.jobs[j])
            && (!w.caps[c].uploading && w.caps[c].queue == [] ==> exists j :: j in x.jobs && x.jobs[j].Posting? && x.jobs[j].cap == c && x.jobs[j].at == |w.caps[c].pushed|)
  {
    var w := Exec(w0, es);
    BetweenRefs(w, None);
    NextIsFree(w);
    CapFacts(w, c, None);
    hide Possible, Exec, Recorded, Between, StepTo, Enabled, ItemOk;
    RecordedFacts(w, c, r);
    es' := RecordSteps(w0, es, c, r);
    var x := Exec(w0, es');
    BetweenRefs(x, None);
    BytesFacts(x, w.next);
    Went(w0, es', BytesRead(w.next, true));
    es' := es' + [BytesRead(w.next, true)];
    var y := Exec(w0, es');
    BetweenRefs(y, None);
    CipherFacts(y, x.next, c);
    Went(w0, es', Encrypted(x.next, true));
    es' := es' + [Encrypted(x.next, true)];
    r' := |w.recs|;
    LoopsRemain(w, x, y, c, r);
  }

  lemma LoopsRemain(w: World, x: World, y: World, c: nat, r: nat)
    requires w.next !in w.jobs && (exists n :: x.jobs == w.jobs[w.next := ReadBytes(c, Item(n, r))])
    requires x.next == w.next + 2 && x.next !in w.jobs && w.next in x.jobs && !x.jobs[w.next].Verify?
    requires exists i :: y.jobs == (x.jobs - {w.next})[x.next := Encrypt(c, i)]
    ensures forall j :: j in w.jobs && IsLoop(w.jobs[j]) ==> j in y.jobs - {x.next} && (y.jobs - {x.next})[j] == w.jobs[j]
  {
  }

  lemma BytesFacts(w: World, j: nat)
    requires Refs(w) && j in w.jobs && w.jobs[j].ReadBytes? && w.jobs[j].cap < |w.caps| && w.caps[w.jobs[j].cap].key
    ensures Enabled(w, BytesRead(j, true))
    ensures var x := StepTo(w, BytesRead(j, true));
            && x == w.(jobs := x.jobs, next := w.next + 1)
            && x.jobs == (w.jobs - {j})[w.next := Encrypt(w.jobs[j].cap, w.jobs[j].item)]
  {
  }

  lemma CipherFacts(w: World, j: nat, c: nat)
    requires Refs(w) && j in w.jobs && w.jobs[j].Encrypt? && w.jobs[j].cap == c && w.cap == Some(c) && c < |w.caps| && QueueOk(w.caps[c])
    ensures Enabled(w, Encrypted(j, true))
    ensures var x := StepTo(w, Encrypted(j, true));
            && x.cap == w.cap && |x.caps| == |w.caps| && x.recs == w.recs
            && x.caps[c].key == w.caps[c].key && x.caps[c].allMuted == w.caps[c].allMuted && x.caps[c].uploading
            && |x.caps[c].pushed| == |w.caps[c].pushed| + 1
            && (w.caps[c].uploading ==> x.jobs == w.jobs - {j})
            && (!w.caps[c].uploading && w.caps[c].queue == [] ==> w.next in x.jobs && x.jobs[w.next].Posting? && x.jobs[w.next].cap == c && x.jobs[w.next].at == |w.caps[c].pushed|)
  {
    PushOk(w.caps[c], w.jobs[j].item);
  }

  // ---- getting there ---------------------------------------------------------------------------------------

  const VIEW := View(Some(0), true, true, Some(Grant(1, 7)), 5)

  function Asked(): World {
    Init(true).(view := Some(VIEW), trusts := [Trust(5, None)], trusted := Some(0), jobs := map[0 := Verify(0)], next := 1)
  }

  function Begun(key: bool, at: nat, job: Job): World {
    Asked().(trusts := [Trust(5, Some(true))], cap := Some(0), caps := [NewCap(VIEW, Grant(1, 7)).(key := key)], jobs := map[at := job], next := at + 1)
  }

  lemma AskedStep()
    ensures Refs(Init(true)) && Enabled(Init(true), Apply(VIEW)) && StepTo(Init(true), Apply(VIEW)) == Asked()
  {
  }

  lemma BegunStep()
    ensures Refs(Asked()) && Enabled(Asked(), VerifyDone(0, true)) && StepTo(Asked(), VerifyDone(0, true)) == Begun(false, 1, MakeKey(0))
  {
    var x := VerdictTaken(Asked(), 0, true);
    assert x.trusts == [Trust(5, Some(true))] && x.jobs == map[];
    assert Wanted(x) && x.cap.None?;
    assert [] + [NewCap(VIEW, Grant(1, 7))] == [NewCap(VIEW, Grant(1, 7))];
  }

  lemma KeyStep()
    ensures var w := Begun(false, 1, MakeKey(0));
            Refs(w) && Enabled(w, KeyMade(1, true)) && StepTo(w, KeyMade(1, true)) == Begun(true, 2, ExportKey(0))
  {
    var w := Begun(false, 1, MakeKey(0));
    assert w.jobs - {1} == map[];
  }

  lemma RecordStep()
    ensures var w := Begun(true, 2, ExportKey(0));
            && Refs(w) && Enabled(w, KeyExported(2, true, Starts(false)))
            && var x := StepTo(w, KeyExported(2, true, Starts(false)));
               && x.cap == Some(0) && |x.caps| == 1 && x.caps[0].key && !x.caps[0].allMuted && !x.caps[0].uploading
               && x.caps[0].queue == [] && x.caps[0].pushed == [] && |x.recs| == 1 && x.recs[0].cap == 0 && x.recs[0].phase.Active?
  {
  }

  lemma StartUp() returns (es: seq<Step>)
    ensures Possible(Init(true), es) && Going(Exec(Init(true), es), 0, 0)
    ensures var w := Exec(Init(true), es); |w.caps| == 1 && !w.caps[0].uploading && w.caps[0].queue == [] && w.caps[0].pushed == []
  {
    InitOk(true);
    assert Possible(Init(true), []) && Exec(Init(true), []) == Init(true);
    hide Possible, Exec, Between, StepTo, Enabled, Init, Asked, Begun, Refs;
    AskedStep(); BegunStep(); KeyStep(); RecordStep();
    Went(Init(true), [], Apply(VIEW));
    es := [] + [Apply(VIEW)];
    Went(Init(true), es, VerifyDone(0, true));
    es := es + [VerifyDone(0, true)];
    Went(Init(true), es, KeyMade(1, true));
    es := es + [KeyMade(1, true)];
    Went(Init(true), es, KeyExported(2, true, Starts(false)));
    es := es + [KeyExported(2, true, Starts(false))];
  }

  ghost predicate Unanswered(w: World, c: nat, at: nat) {
    exists j :: j in w.jobs && w.jobs[j].Posting? && w.jobs[j].cap == c && w.jobs[j].at == at
  }

  lemma {:induction false} Chunks(n: nat) returns (es: seq<Step>, r: nat)
    ensures Possible(Init(true), es) && Going(Exec(Init(true), es), 0, r)
    ensures var w := Exec(Init(true), es);
            |w.caps[0].pushed| == n + 1 && w.caps[0].uploading && Unanswered(w, 0, 0)
  {
    hide Possible, Exec, Between, Init;
    if n == 0 {
      es := StartUp();
      es, r := OneMoreChunk(Init(true), es, 0, 0);
    } else {
      es, r := Chunks(n - 1);
      var w := Exec(Init(true), es);
      var j :| j in w.jobs && w.jobs[j].Posting? && w.jobs[j].cap == 0 && w.jobs[j].at == 0;
      es, r := OneMoreChunk(Init(true), es, 0, r);
      assert Exec(Init(true), es).jobs[j] == w.jobs[j];
    }
  }

  // The overrun does happen.
  lemma {:induction false} OverrunHappens() returns (es: seq<Step>, j: nat)
    ensures Possible(Init(true), es) && Overrun(Exec(Init(true), es), j)
  {
    hide Possible, Exec, Between, Init;
    var r;
    es, r := Chunks(MAX_BACKLOG);
    var w := Exec(Init(true), es);
    j :| j in w.jobs && w.jobs[j].Posting? && w.jobs[j].cap == 0 && w.jobs[j].at == 0;
  }
}
