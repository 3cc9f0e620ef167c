/**
 What becomes of an accepted switcher half: it waits on its capture, moves to the
 job that sealed it, and is admitted, or is lost for a reason that can be named.
 */
module TraceHalves {
  import opened Options
  import opened CaptureSlots
  import opened TraceLifecycle

  // ---------------------------------------------------------------------------
  // Where a half waits
  // ---------------------------------------------------------------------------

  // A job that has sealed the capture and not yet set its status.
  predicate Seals(j: Job, cid: CapId) {
    (j.Sealing? || j.Failing? || j.Committed?) && j.cid == cid
  }

  // A job that took the half off the capture.
  predicate Carries(j: Job, cid: CapId) {
    (j.Marked? || j.Unslotted?) && j.cid == cid && j.held
  }

  // The capture is still to be sealed, or a job is about to set its status.
  ghost predicate Alive(s: System, cid: CapId) {
    cid in s.caps && (!s.caps[cid].sealed || exists tid :: tid in s.jobs && Seals(s.jobs[tid], cid))
  }

  ghost predicate OnCapture(s: System, cid: CapId) {
    Alive(s, cid) && s.caps[cid].held
  }

  ghost predicate Carried(s: System, cid: CapId) {
    cid in s.caps && exists tid :: tid in s.jobs && Carries(s.jobs[tid], cid)
  }

  ghost predicate Waits(s: System, cid: CapId) {
    OnCapture(s, cid) || Carried(s, cid)
  }

  // ---------------------------------------------------------------------------
  // What a step does to it
  // ---------------------------------------------------------------------------

  predicate ByJob(s: System, step: Step) {
    IsJobStep(step) && step.tid in s.jobs
  }

  // The half is admitted: its trace goes from open to reducing, and the job that carried it processes it.
  predicate Taken(s: System, step: Step, t: System, cid: CapId) {
    && ByJob(s, step) && s.jobs[step.tid] == Unslotted(cid, true) && step.AfterRelease? && cid in s.caps
    && var x := s.caps[cid].trace;
       && Has(s, x, Open) && Has(t, x, Reducing) && step.tid in t.jobs
       && t.jobs[step.tid] == Processing(x, s.caps[cid].slot.key, s.rows[x].trusted && step.keyTrusted)
  }

  // The capture panics or is sealed as aborted or failed, is a golden sample, has a trace that left open
  // meanwhile, or the process ends.
  ghost predicate Loses(s: System, step: Step, cid: CapId) {
    || (step.Restart? && RecoversQueued(s, step.recovered))
    || (step.Panic? && step.cid == cid && step.tid !in s.jobs && cid in s.caps && !s.caps[cid].sealed)
    || (ByJob(s, step) && cid in s.caps &&
        var j := s.jobs[step.tid];
        || (step.MarkFailed? && (j == Sealing(cid, false) || j == Failing(cid)))
        || (step.ReleaseSlot? && j == Marked(cid, true) && s.caps[cid].slot.golden)
        || (step.AfterRelease? && j == Unslotted(cid, true) && !Has(s, s.caps[cid].trace, Open)))
  }

  // Of a capture at most one job is the one that sealed it, and it takes the half with it.
  ghost predicate OneSealer(s: System) {
    && (forall tid :: tid in s.jobs && IsRelay(s.jobs[tid]) ==> SealerOk(s, s.jobs[tid]))
    && (forall a, b :: a in s.jobs && b in s.jobs && IsRelay(s.jobs[a]) && IsRelay(s.jobs[b]) && s.jobs[a].cid == s.jobs[b].cid ==> a == b)
  }

  predicate SealerOk(s: System, j: Job)
    requires IsRelay(j)
  {
    && j.cid in s.caps && s.caps[j.cid].sealed
    && (j.Marked? || j.Unslotted? ==> !s.caps[j.cid].capturing && !s.caps[j.cid].held)
  }

  // What a step of a job does to captures and jobs.
  predicate SealerMoves(s: System, t: System, tid: Tid)
    requires tid in s.jobs
  {
    && JobsSetAt(s, t, tid) && t.caps.Keys == s.caps.Keys
    && (forall c :: c in s.caps ==> t.caps[c].sealed == s.caps[c].sealed && (t.caps[c].capturing ==> s.caps[c].capturing)
                                    && (t.caps[c].held && !s.caps[c].held ==> s.caps[c].capturing))
    && (tid in t.jobs && IsRelay(t.jobs[tid]) ==> IsRelay(s.jobs[tid]) && s.jobs[tid].cid == t.jobs[tid].cid
                                                  && (SealerOk(s, s.jobs[tid]) ==> SealerOk(t, t.jobs[tid])))
  }

  lemma SealingMovesSealer(s: System, step: Step, tid: Tid)
    requires tid in s.jobs && (s.jobs[tid].Sealing? || s.jobs[tid].Failing? || s.jobs[tid].Committed?)
    ensures SealerMoves(s, RelayStep(s, step, tid, s.jobs[tid]), tid)
  {
  }

  lemma EndingMovesSealer(s: System, step: Step, tid: Tid)
    requires tid in s.jobs && (s.jobs[tid].Ending? || s.jobs[tid].Marked? || s.jobs[tid].Unslotted?)
    ensures SealerMoves(s, RelayStep(s, step, tid, s.jobs[tid]), tid)
  {
    hide CaptureSlots.Released;
  }

  lemma SubmitMovesSealer(s: System, step: Step, tid: Tid)
    requires tid in s.jobs && IsSubmit(s.jobs[tid])
    ensures SealerMoves(s, SubmitStep(s, step, tid, s.jobs[tid]), tid)
  {
  }

  lemma HalfMovesSealer(s: System, step: Step, tid: Tid)
    requires tid in s.jobs
    requires var j := s.jobs[tid]; j.Processing? || j.Shaped? || j.Dropping? || j.Counted?
    ensures SealerMoves(s, ProcessStep(s, step, tid, s.jobs[tid]), tid)
  {
    hide CaptureSlots.WithQueued, CaptureSlots.QueueFits, SealerOk;
  }

  lemma QueueMovesSealer(s: System, step: Step, tid: Tid)
    requires tid in s.jobs
    requires var j := s.jobs[tid]; j.Enqueueing? || j.InQueue? || j.Consuming? || j.Consumed?
    ensures SealerMoves(s, ProcessStep(s, step, tid, s.jobs[tid]), tid)
  {
    hide CaptureSlots.QueueReleased, SealerOk;
  }

  lemma JobMovesSealer(s: System, step: Step, tid: Tid)
    requires tid in s.jobs
    ensures SealerMoves(s, JobStep(s, step, tid), tid)
  {
    var j := s.jobs[tid];
    hide SealerMoves, RelayStep, SubmitStep, ProcessStep;
    if j.Sealing? || j.Failing? || j.Committed? { SealingMovesSealer(s, step, tid); }
    else if IsRelay(j) { EndingMovesSealer(s, step, tid); }
    else if IsSubmit(j) { SubmitMovesSealer(s, step, tid); }
    else if j.Processing? || j.Shaped? || j.Dropping? || j.Counted? { HalfMovesSealer(s, step, tid); }
    else { QueueMovesSealer(s, step, tid); }
  }

  lemma MovedKeepsOneSealer(s: System, t: System, tid: Tid)
    requires OneSealer(s) && tid in s.jobs && SealerMoves(s, t, tid)
    ensures OneSealer(t)
  {
    forall o | o in t.jobs && IsRelay(t.jobs[o]) ensures SealerOk(t, t.jobs[o]) {
      if o != tid { assert o in s.jobs && t.jobs[o] == s.jobs[o] && SealerOk(s, s.jobs[o]); }
    }
  }

  lemma ClaimKeepsOneSealer(s: System, step: Step)
    requires OneSealer(s) && (step.ClaimTraced? || step.ClaimGolden?)
    ensures OneSealer(Next(s, step))
  {
    hide CaptureSlots.WithTraced, CaptureSlots.WithGolden, CaptureSlots.TracedFits, CaptureSlots.GoldenFits;
  }

  lemma OtherKeepsOneSealer(s: System, step: Step)
    requires OneSealer(s) && (step.Seal? || step.Panic? || step.Submit? || step.Expire? || step.Revoke?)
    ensures OneSealer(Next(s, step))
  {
  }

  lemma NextKeepsOneSealer(s: System, step: Step)
    requires OneSealer(s)
    ensures OneSealer(Next(s, step))
  {
    hide OneSealer, JobStep, SealerMoves;
    if IsJobStep(step) {
      NextIsJobStep(s, step);
      hide Next;
      if step.tid in s.jobs {
        JobMovesSealer(s, step, step.tid);
        MovedKeepsOneSealer(s, Next(s, step), step.tid);
      }
    } else if step.ClaimTraced? || step.ClaimGolden? {
      ClaimKeepsOneSealer(s, step);
    } else if step.Restart? {
      NextIsRestart(s, step);
      RestartHasNoSealer(s, step.recovered);
    } else {
      OtherKeepsOneSealer(s, step);
    }
  }

  lemma RestartHasNoSealer(s: System, recovered: map<Tid, TraceId>)
    ensures OneSealer(RestartStep(s, recovered))
  {
  }

  // ---------------------------------------------------------------------------
  // A held half is kept, taken, or lost for a named reason
  // ---------------------------------------------------------------------------

  // What a step comes to for a waiting half.
  ghost predicate Follows(s: System, step: Step, t: System, cid: CapId) {
    && (Waits(t, cid) || Taken(s, step, t, cid) <==> !Loses(s, step, cid))
    && (Taken(s, step, t, cid) ==> !Waits(t, cid))
  }

  // The waiting half as one place: the capture, or the job.
  ghost predicate WaitsAt(s: System, cid: CapId, place: Option<Tid>) {
    && cid in s.caps
    && match place
       case None => s.caps[cid].held && !s.caps[cid].sealed
       case Some(tid) => tid in s.jobs && if Seals(s.jobs[tid], cid) then s.caps[cid].held else Carries(s.jobs[tid], cid)
  }

  lemma WaitsSomewhere(s: System, cid: CapId) returns (place: Option<Tid>)
    requires Waits(s, cid)
    ensures WaitsAt(s, cid, place)
  {
    if Carried(s, cid) {
      var tid :| tid in s.jobs && Carries(s.jobs[tid], cid);
      place := Some(tid);
    } else if !s.caps[cid].sealed {
      place := None;
    } else {
      var tid :| tid in s.jobs && Seals(s.jobs[tid], cid);
      place := Some(tid);
    }
  }

  lemma WaitsThere(s: System, cid: CapId, place: Option<Tid>)
    requires WaitsAt(s, cid, place)
    ensures Waits(s, cid)
  {
    if place.Some? {
      if Seals(s.jobs[place.value], cid) {
        assert Alive(s, cid);
      } else {
        assert Carried(s, cid);
      }
    }
  }

  // With one sealer nothing waits where there is neither an open capture nor a job with the half.
  lemma WaitsNowhere(s: System, cid: CapId)
    requires forall place :: !WaitsAt(s, cid, place)
    ensures !Waits(s, cid)
  {
    if Waits(s, cid) {
      var place := WaitsSomewhere(s, cid);
    }
  }

  // Steps of the job that holds the half, or seals the capture it is on.
  lemma OwnStep(s: System, step: Step, tid: Tid, cid: CapId)
    requires OneSealer(s) && WaitsAt(s, cid, Some(tid)) && IsJobStep(step) && step.tid == tid
    ensures var t := RelayStep(s, step, tid, s.jobs[tid]);
      if Loses(s, step, cid) then !Taken(s, step, t, cid) && forall place :: !WaitsAt(t, cid, place)
      else if Taken(s, step, t, cid) then forall place :: !WaitsAt(t, cid, place)
      else WaitsAt(t, cid, Some(tid))
  {
    hide CaptureSlots.Released;
    assert IsRelay(s.jobs[tid]) && SealerOk(s, s.jobs[tid]);
  }

  // Steps of any other job.
  lemma ElsewhereStep(s: System, step: Step, tid: Tid, cid: CapId, place: Option<Tid>)
    requires OneSealer(s) && WaitsAt(s, cid, place) && tid in s.jobs && place != Some(tid)
    requires IsJobStep(step) && step.tid == tid
    ensures var t := JobStep(s, step, tid); WaitsAt(t, cid, place) && !Loses(s, step, cid) && !Taken(s, step, t, cid)
  {
    hide JobStep;
    var j := s.jobs[tid];
    var t := JobStep(s, step, tid);
    if place.Some? { assert IsRelay(s.jobs[place.value]); }
    assert IsRelay(j) ==> j.cid != cid by { if IsRelay(j) { NotTheSealer(s, tid, cid, place); } }
    JobMovesSealer(s, step, tid);
    JobKeepsHeld(s, step, tid, cid);
    OtherPlaceStays(s, t, tid, cid, place);
    hide Taken, Loses, WaitsAt;
    OtherTakesNothing(s, step, t, tid, cid);
  }

  // A capture that is open has no sealer, and one with a sealer has no other.
  lemma NotTheSealer(s: System, tid: Tid, cid: CapId, place: Option<Tid>)
    requires OneSealer(s) && WaitsAt(s, cid, place) && tid in s.jobs && place != Some(tid) && IsRelay(s.jobs[tid])
    ensures s.jobs[tid].cid != cid
  {
    assert SealerOk(s, s.jobs[tid]);
  }

  lemma OtherPlaceStays(s: System, t: System, tid: Tid, cid: CapId, place: Option<Tid>)
    requires WaitsAt(s, cid, place) && tid in s.jobs && place != Some(tid) && SealerMoves(s, t, tid)
    requires cid in t.caps && (s.caps[cid].held ==> t.caps[cid].held)
    ensures WaitsAt(t, cid, place)
  {
    hide SealerOk;
  }

  lemma OtherTakesNothing(s: System, step: Step, t: System, tid: Tid, cid: CapId)
    requires IsJobStep(step) && step.tid == tid && tid in s.jobs && (IsRelay(s.jobs[tid]) ==> s.jobs[tid].cid != cid)
    ensures !Loses(s, step, cid) && !Taken(s, step, t, cid)
  {
  }

  // A job that is no sealer of the capture leaves its half on it.
  lemma JobKeepsHeld(s: System, step: Step, tid: Tid, cid: CapId)
    requires tid in s.jobs && cid in s.caps && (IsRelay(s.jobs[tid]) ==> s.jobs[tid].cid != cid)
    ensures var t := JobStep(s, step, tid); cid in t.caps && (s.caps[cid].held ==> t.caps[cid].held)
  {
    var j := s.jobs[tid];
    if IsRelay(j) {
      RelayKeepsHeld(s, step, tid, cid);
    } else if IsSubmit(j) {
      assert JobStep(s, step, tid) == SubmitStep(s, step, tid, j);
      hide JobStep;
    } else {
      ProcessKeepsCaps(s, step, tid);
    }
    hide RelayStep, ProcessStep;
  }

  lemma RelayKeepsHeld(s: System, step: Step, tid: Tid, cid: CapId)
    requires tid in s.jobs && cid in s.caps && IsRelay(s.jobs[tid]) && s.jobs[tid].cid != cid
    ensures var t := RelayStep(s, step, tid, s.jobs[tid]); cid in t.caps && t.caps[cid] == s.caps[cid]
  {
    hide CaptureSlots.Released;
  }

  lemma ProcessKeepsCaps(s: System, step: Step, tid: Tid)
    requires tid in s.jobs && !IsRelay(s.jobs[tid]) && !IsSubmit(s.jobs[tid])
    ensures ProcessStep(s, step, tid, s.jobs[tid]).caps == s.caps
  {
    hide CaptureSlots.WithQueued, CaptureSlots.QueueReleased, CaptureSlots.QueueFits;
  }

  lemma ClaimFollows(s: System, step: Step, cid: CapId, place: Option<Tid>)
    requires WaitsAt(s, cid, place) && (step.ClaimTraced? || step.ClaimGolden?)
    ensures var t := Next(s, step); WaitsAt(t, cid, place) && !Loses(s, step, cid) && !Taken(s, step, t, cid)
  {
    hide CaptureSlots.WithTraced, CaptureSlots.WithGolden, CaptureSlots.TracedFits, CaptureSlots.GoldenFits;
  }

  lemma SealFollows(s: System, step: Step, cid: CapId, place: Option<Tid>)
    requires OneSealer(s) && WaitsAt(s, cid, place) && step.Seal?
    ensures var t := Next(s, step);
      && WaitsAt(t, cid, if place.None? && t != s && step.cid == cid then Some(step.tid) else place)
      && !Loses(s, step, cid) && !Taken(s, step, t, cid)
  {
    if place.Some? { assert SealerOk(s, s.jobs[place.value]); }
  }

  lemma PanicFollows(s: System, step: Step, cid: CapId, place: Option<Tid>)
    requires OneSealer(s) && WaitsAt(s, cid, place) && step.Panic?
    ensures var t := Next(s, step);
      && !Taken(s, step, t, cid)
      && if Loses(s, step, cid) then forall p :: !WaitsAt(t, cid, p) else WaitsAt(t, cid, place)
  {
    if place.Some? { assert SealerOk(s, s.jobs[place.value]); }
    if Loses(s, step, cid) {
      forall tid | tid in s.jobs && IsRelay(s.jobs[tid]) ensures s.jobs[tid].cid != cid { assert SealerOk(s, s.jobs[tid]); }
    }
  }

  lemma QuietFollows(s: System, step: Step, cid: CapId, place: Option<Tid>)
    requires WaitsAt(s, cid, place) && (step.Submit? || step.Expire? || step.Revoke?)
    ensures var t := Next(s, step); WaitsAt(t, cid, place) && !Loses(s, step, cid) && !Taken(s, step, t, cid)
  {
  }

  lemma RestartFollows(s: System, step: Step, cid: CapId, place: Option<Tid>)
    requires WaitsAt(s, cid, place) && step.Restart?
    ensures var t := Next(s, step);
      && !Taken(s, step, t, cid)
      && if Loses(s, step, cid) then forall p :: !WaitsAt(t, cid, p) else WaitsAt(t, cid, place)
  {
  }

  // Main result on one step: the half waits on or is taken, exactly when the step is none of those that lose it.
  lemma HalfFollows(s: System, step: Step, cid: CapId)
    requires OneSealer(s) && Waits(s, cid)
    ensures Follows(s, step, Next(s, step), cid)
  {
    var place := WaitsSomewhere(s, cid);
    var t := Next(s, step);
    hide OneSealer, Next, JobStep, RelayStep, WaitsAt, Waits, Taken, Loses, RecoversQueued;
    forall p | WaitsAt(t, cid, p) ensures Waits(t, cid) { WaitsThere(t, cid, p); }
    if forall p :: !WaitsAt(t, cid, p) { WaitsNowhere(t, cid); }
    if IsJobStep(step) {
      NextIsJobStep(s, step);
      if step.tid !in s.jobs {
        IdleFollows(s, step, cid, place);
      } else if place == Some(step.tid) {
        PlaceIsRelay(s, step.tid, cid);
        assert t == RelayStep(s, step, step.tid, s.jobs[step.tid]) by { JobIsRelay(s, step); }
        OwnStep(s, step, step.tid, cid);
      } else {
        ElsewhereStep(s, step, step.tid, cid, place);
      }
    } else if step.ClaimTraced? || step.ClaimGolden? {
      ClaimFollows(s, step, cid, place);
    } else if step.Seal? {
      SealFollows(s, step, cid, place);
    } else if step.Panic? {
      PanicFollows(s, step, cid, place);
    } else if step.Restart? {
      RestartFollows(s, step, cid, place);
    } else {
      QuietFollows(s, step, cid, place);
    }
  }

  lemma IdleFollows(s: System, step: Step, cid: CapId, place: Option<Tid>)
    requires IsJobStep(step) && step.tid !in s.jobs && WaitsAt(s, cid, place)
    ensures !Loses(s, step, cid) && !Taken(s, step, s, cid)
  {
  }

  lemma PlaceIsRelay(s: System, tid: Tid, cid: CapId)
    requires WaitsAt(s, cid, Some(tid))
    ensures tid in s.jobs && IsRelay(s.jobs[tid])
  {
  }

  lemma {:induction false} RunKeepsOneSealer(s: System, steps: seq<Step>)
    requires OneSealer(s)
    ensures OneSealer(Run(s, steps))
    decreases |steps|
  {
    hide OneSealer, Next;
    if steps != [] {
      NextKeepsOneSealer(s, steps[0]);
      RunKeepsOneSealer(Next(s, steps[0]), steps[1..]);
    }
  }

  // The step that ends a wait.
  ghost predicate EndsAt(s: System, steps: seq<Step>, k: nat, cid: CapId) {
    && k < |steps| && Waits(Run(s, steps[..k]), cid)
    && (Taken(Run(s, steps[..k]), steps[k], Run(s, steps[..k + 1]), cid) || Loses(Run(s, steps[..k]), steps[k], cid))
  }

  // Main result over runs: a half that waits is still waiting at the end, or one step took or lost it.
  lemma {:induction false} EveryHeldHalfFollows(s: System, steps: seq<Step>, cid: CapId)
    requires OneSealer(s) && Waits(s, cid)
    ensures Waits(Run(s, steps), cid) || exists k: nat :: EndsAt(s, steps, k, cid)
    decreases |steps|
  {
    if steps != [] {
      var t := Next(s, steps[0]);
      HalfFollows(s, steps[0], cid);
      NextKeepsOneSealer(s, steps[0]);
      assert steps[..0] == [] && steps[..1][1..] == [] && Run(s, steps[..1]) == t;
      hide OneSealer, Waits, Taken, Loses, Next;
      if Waits(t, cid) {
        EveryHeldHalfFollows(t, steps[1..], cid);
        if !Waits(Run(s, steps), cid) {
          var k: nat :| EndsAt(t, steps[1..], k, cid);
          assert steps[..k + 1][1..] == steps[1..][..k] && steps[..k + 2][1..] == steps[1..][..k + 1];
          assert EndsAt(s, steps, k + 1, cid);
        }
      } else {
        assert EndsAt(s, steps, 0, cid);
      }
    }
  }

  // An upload that finds the capture capturing is answered as accepted, and from then on waits on it exactly
  // when the capture is alive: one that has panicked still takes a half, and nobody comes for it. Any other
  // upload is refused because a half is held, or goes on to be admitted by itself.
  lemma AcceptedHalfWaits(s: System, tid: Tid, cid: CapId)
    requires tid in s.jobs && s.jobs[tid].Found? && s.jobs[tid].cap == Some(cid) && cid in s.caps
    ensures var t := Next(s, HoldOrPass(tid)); var c := s.caps[cid];
      && (tid in t.jobs <==> !c.held && !c.capturing)
      && (tid in t.jobs ==> t.jobs[tid] == Trying(s.jobs[tid].trace, s.jobs[tid].key) && t.caps == s.caps)
      && (!c.held && c.capturing ==> (OnCapture(t, cid) <==> Alive(s, cid)))
  {
    var t := Next(s, HoldOrPass(tid));
    if Alive(s, cid) && s.caps[cid].sealed {
      var o :| o in s.jobs && Seals(s.jobs[o], cid);
      assert o != tid && o in t.jobs && t.jobs[o] == s.jobs[o];
    }
  }

  // ---------------------------------------------------------------------------
  // A lone trace
  // ---------------------------------------------------------------------------

  // Uploading while the capture is under way.
  function UploadAlone(s: System, tid: Tid): System {
    StepOf(StepOf(s, FindCapture(tid), tid), HoldOrPass(tid), tid)
  }

  // From the seal's commit to the half in hand.
  function SealAlone(s: System, tid: Tid, keyTrusted: bool): System {
    StepOf(StepOf(StepOf(StepOf(s, Commit(tid, true), tid), MarkSealed(tid), tid), ReleaseSlot(tid), tid), AfterRelease(tid, keyTrusted), tid)
  }

  // From a half in hand to the end of the trace.
  function ProcessAlone(s: System, tid: Tid): System {
    StepOf(StepOf(StepOf(StepOf(s, StoreShapes(tid), tid), CountQueue(tid), tid), ToQueued(tid), tid), Enqueue(tid, false), tid)
  }

  function ConsumeAlone(s: System, tid: Tid, ok: bool): System {
    StepOf(StepOf(StepOf(s, Take(tid), tid), Finish(tid, ok), tid), ReleaseQueue(tid), tid)
  }

  // An upload to a trace that is being captured is held on its capture, and ends.
  lemma LoneUploadIsHeld(s: System, tid: Tid, x: TraceId, key: KeyId, cid: CapId)
    requires tid in s.jobs && s.jobs[tid] == Submitting(x, key)
    requires x in s.slots.active && s.slots.active[x].cid == cid && cid in s.caps && s.caps[cid].capturing && !s.caps[cid].held
    ensures UploadAlone(s, tid) == s.(jobs := s.jobs - {tid}, caps := s.caps[cid := s.caps[cid].(held := true)])
  {
    var s1 := StepOf(s, FindCapture(tid), tid);
    assert s1 == s.(jobs := s.jobs[tid := Found(x, key, Some(cid))]);
    assert s.jobs[tid := Found(x, key, Some(cid))] - {tid} == s.jobs - {tid};
  }

  lemma SealedToRelease(s: System, tid: Tid, cid: CapId)
    requires tid in s.jobs && s.jobs[tid] == Sealing(cid, true) && cid in s.caps && !s.caps[cid].slot.golden
    requires Has(s, s.caps[cid].trace, Capturing)
    ensures var c := s.caps[cid]; var x := c.trace;
      StepOf(StepOf(StepOf(s, Commit(tid, true), tid), MarkSealed(tid), tid), ReleaseSlot(tid), tid) ==
      System(s.rows[x := s.rows[x].(status := Open)], s.caps[cid := c.(capturing := false, held := false)],
             CaptureSlots.Released(s.slots, x, c.slot, false), s.jobs[tid := Unslotted(cid, c.held)], s.processed)
  {
    hide CaptureSlots.Released;
    var c, x := s.caps[cid], s.caps[cid].trace;
    var s1 := StepOf(s, Commit(tid, true), tid);
    assert s1 == s.(rows := s.rows[x := s.rows[x].(status := Open)], jobs := s.jobs[tid := Committed(cid)]);
    var s2 := StepOf(s1, MarkSealed(tid), tid);
    assert s2 == s1.(caps := s.caps[cid := c.(capturing := false, held := false)], jobs := s.jobs[tid := Marked(cid, c.held)]);
  }

  // A clean seal that meets no other opens the trace, gives the slot back once, and with a half held on the
  // capture ends in processing it; without one the job is over.
  lemma LoneSealTakesHalf(s: System, tid: Tid, cid: CapId, keyTrusted: bool)
    requires tid in s.jobs && s.jobs[tid] == Sealing(cid, true) && cid in s.caps && !s.caps[cid].slot.golden
    requires Has(s, s.caps[cid].trace, Capturing)
    ensures var c := s.caps[cid]; var x := c.trace; var r := s.rows[x];
      SealAlone(s, tid, keyTrusted) ==
      System(s.rows[x := if c.held then r.(status := Reducing, trusted := r.trusted && keyTrusted) else r.(status := Open)],
             s.caps[cid := c.(capturing := false, held := false)], CaptureSlots.Released(s.slots, x, c.slot, false),
             if c.held then s.jobs[tid := Processing(x, c.slot.key, r.trusted && keyTrusted)] else s.jobs - {tid}, s.processed)
  {
    SealedToRelease(s, tid, cid);
    hide CaptureSlots.Released;
    var c, x := s.caps[cid], s.caps[cid].trace;
    var s3 := System(s.rows[x := s.rows[x].(status := Open)], s.caps[cid := c.(capturing := false, held := false)],
                     CaptureSlots.Released(s.slots, x, c.slot, false), s.jobs[tid := Unslotted(cid, c.held)], s.processed);
    var t := StepOf(s3, AfterRelease(tid, keyTrusted), tid);
    assert s.jobs[tid := Unslotted(cid, c.held)] - {tid} == s.jobs - {tid};
    assert !c.held ==> t == End(s3, tid);
  }

  // A golden sample goes to the queue at once.
  lemma LoneGoldenIsQueued(s: System, tid: Tid, cid: CapId)
    requires tid in s.jobs && s.jobs[tid] == Sealing(cid, true) && cid in s.caps && s.caps[cid].slot.golden
    requires Has(s, s.caps[cid].trace, Capturing)
    ensures var x := s.caps[cid].trace;
      var t := StepOf(StepOf(StepOf(s, Commit(tid, true), tid), MarkSealed(tid), tid), ReleaseSlot(tid), tid);
      Has(t, x, Queued) && tid in t.jobs && t.jobs[tid] == Enqueueing(x)
  {
    hide CaptureSlots.Released;
    var s1 := StepOf(s, Commit(tid, true), tid);
    assert s1.jobs[tid] == Committed(cid);
  }

  // The half in hand: its shapes are stored, and unless its key's queue is full the trace is queued, with a queue
  // place taken exactly when it is not trusted; else it is dropped.
  lemma LoneHalfIsQueued(s: System, tid: Tid, x: TraceId, key: KeyId, trusted: bool)
    requires tid in s.jobs && s.jobs[tid] == Processing(x, key, trusted) && Has(s, x, Reducing)
    requires trusted || QueueFits(s.slots, key)
    ensures var t := ProcessAlone(s, tid);
      && t.processed == s.processed + [x] && t.caps == s.caps && t.jobs == s.jobs[tid := InQueue(x)]
      && t.rows == s.rows[x := s.rows[x].(status := Queued)]
      && t.slots == if trusted then s.slots else WithQueued(s.slots, key)
  {
    hide CaptureSlots.QueueFits, CaptureSlots.WithQueued;
    var s1 := StepOf(s, StoreShapes(tid), tid);
    assert s1 == s.(processed := s.processed + [x], jobs := s.jobs[tid := Shaped(x, key, trusted)]);
    var s2 := StepOf(s1, CountQueue(tid), tid);
    assert s2.jobs == s.jobs[tid := Counted(x)] && s2.rows == s.rows;
    var s3 := StepOf(s2, ToQueued(tid), tid);
    assert s3.jobs == s.jobs[tid := Enqueueing(x)];
  }

  lemma LoneHalfIsDropped(s: System, tid: Tid, x: TraceId, key: KeyId)
    requires tid in s.jobs && s.jobs[tid] == Processing(x, key, false) && Has(s, x, Reducing) && !QueueFits(s.slots, key)
    ensures var t := StepOf(StepOf(StepOf(s, StoreShapes(tid), tid), CountQueue(tid), tid), WriteDropped(tid), tid);
      Has(t, x, Dropped) && t.processed == s.processed + [x] && t.slots == s.slots && t.jobs == s.jobs - {tid}
  {
    hide CaptureSlots.QueueFits;
    var s1 := StepOf(s, StoreShapes(tid), tid);
    assert s1.jobs == s.jobs[tid := Shaped(x, key, false)] && s1.slots == s.slots && s1.rows == s.rows;
    var s2 := StepOf(s1, CountQueue(tid), tid);
    assert s2.jobs == s.jobs[tid := Dropping(x)] && s2.rows == s.rows;
  }

  // The consumer ends a queued trace, and gives the queue place of an untrusted one back.
  lemma LoneConsumption(s: System, tid: Tid, x: TraceId, ok: bool)
    requires tid in s.jobs && s.jobs[tid] == InQueue(x) && Has(s, x, Queued)
    ensures var t := ConsumeAlone(s, tid, ok);
      && t.rows == s.rows[x := s.rows[x].(status := if ok then Finished else Failed)] && t.jobs == s.jobs - {tid}
      && t.slots == QueueReleased(s.slots, s.rows[x].key, s.rows[x].trusted) && t.processed == s.processed
  {
    hide CaptureSlots.QueueReleased;
    var s1 := StepOf(s, Take(tid), tid);
    assert s1.jobs == s.jobs[tid := Consuming(x, s.rows[x].key, s.rows[x].trusted)] && s1.rows == s.rows;
  }

  // A later upload, to an open trace, is admitted by itself; one to a trace that is not open is not.
  lemma LoneUploadIsAdmitted(s: System, tid: Tid, x: TraceId, key: KeyId, keyTrusted: bool)
    requires tid in s.jobs && s.jobs[tid] == Submitting(x, key) && x !in s.slots.active
    ensures var t := StepOf(UploadAlone(s, tid), TrySubmit(tid, keyTrusted), tid);
      if Has(s, x, Open)
      then Has(t, x, Reducing) && t.jobs == s.jobs[tid := Processing(x, key, s.rows[x].trusted && keyTrusted)]
      else t.rows == s.rows && t.jobs == s.jobs - {tid}
  {
    var s1 := StepOf(s, FindCapture(tid), tid);
    assert s1.jobs == s.jobs[tid := Found(x, key, None)];
    var s2 := StepOf(s1, HoldOrPass(tid), tid);
    assert s2.jobs == s.jobs[tid := Trying(x, key)];
  }

  // A half in hand whose key has a free place in the queue is processed, and its trace ends.
  lemma LoneHalfFinishes(s: System, tid: Tid, x: TraceId, key: KeyId, trusted: bool, ok: bool)
    requires tid in s.jobs && s.jobs[tid] == Processing(x, key, trusted) && Has(s, x, Reducing)
    requires trusted || QueueFits(s.slots, key)
    ensures var t := ConsumeAlone(ProcessAlone(s, tid), tid, ok);
      Has(t, x, if ok then Finished else Failed) && t.processed == s.processed + [x] && t.jobs == s.jobs - {tid}
  {
    hide CaptureSlots.QueueFits, CaptureSlots.WithQueued, CaptureSlots.QueueReleased, ProcessAlone, ConsumeAlone, StepOf, JobStep;
    LoneHalfIsQueued(s, tid, x, key, trusted);
    var t := ProcessAlone(s, tid);
    LoneConsumption(t, tid, x, ok);
    assert s.jobs[tid := InQueue(x)] - {tid} == s.jobs - {tid};
  }

  // Main result: a half uploaded while its trace is captured, with no other actor, is processed once the capture
  // is sealed, and its trace ends finished or failed as the consumer says.
  lemma LoneTraceFinishes(s: System, up: Tid, seal: Tid, x: TraceId, key: KeyId, cid: CapId, keyTrusted: bool, ok: bool)
    requires up != seal && up in s.jobs && s.jobs[up] == Submitting(x, key) && seal in s.jobs && s.jobs[seal] == Sealing(cid, true)
    requires x in s.slots.active && s.slots.active[x].cid == cid && cid in s.caps && s.caps[cid].trace == x
    requires s.caps[cid].capturing && !s.caps[cid].held && !s.caps[cid].slot.golden && Has(s, x, Capturing)
    requires (s.rows[x].trusted && keyTrusted) || QueueFits(CaptureSlots.Released(s.slots, x, s.caps[cid].slot, false), s.caps[cid].slot.key)
    ensures var t := ConsumeAlone(ProcessAlone(SealAlone(UploadAlone(s, up), seal, keyTrusted), seal), seal, ok);
      Has(t, x, if ok then Finished else Failed) && t.processed == s.processed + [x] && t.jobs == s.jobs - {up, seal}
  {
    hide CaptureSlots.QueueFits, CaptureSlots.Released, UploadAlone, SealAlone, ProcessAlone, ConsumeAlone, StepOf, JobStep;
    LoneUploadIsHeld(s, up, x, key, cid);
    var s1 := UploadAlone(s, up);
    LoneSealTakesHalf(s1, seal, cid, keyTrusted);
    var s2, trusted := SealAlone(s1, seal, keyTrusted), s.rows[x].trusted && keyTrusted;
    LoneHalfFinishes(s2, seal, x, s.caps[cid].slot.key, trusted, ok);
    assert s2.jobs - {seal} == s.jobs - {up, seal};
  }
}
