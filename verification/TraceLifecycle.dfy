/**
 The life of a Contract Lab trace: relays that seal captures, uploads of the
 switcher half, expiry, revocation, the consumer and restarts interleave. Each
 step is one critical section or one store statement of the goroutine it belongs to.
 */
module TraceLifecycle {
  import opened Options
  import opened CaptureSlots

  datatype Status =
    | Capturing | Open | Reducing | Queued
    | Finished | Failed | Aborted | Expired | Revoked | Dropped | Lost

  predicate Terminal(s: Status) {
    s != Capturing && s != Open && s != Reducing && s != Queued
  }

  // A row of contract_traces.
  datatype Row = Row(key: KeyId, trusted: bool, status: Status)

  // A capture object. It outlives its slot: the relay keeps a pointer to it.
  datatype Cap = Cap(trace: TraceId, slot: Slot, sealed: bool, capturing: bool, held: bool)

  // A goroutine between two critical sections.
  datatype Job =
    // Seal and ReleaseOnPanic
    | Sealing(cid: CapId, clean: bool)                 // sealed set; commit or abort next
    | Failing(cid: CapId)                              // the commit failed
    | Ending(cid: CapId, slot: bool, err: bool, aborted: bool)  // slot: not given back yet; then the status write
    | Committed(cid: CapId)
    | Marked(cid: CapId, held: bool)                   // capture status set, held half taken
    | Unslotted(cid: CapId, held: bool)                // slot given back
    // SubmitHalf
    | Submitting(trace: TraceId, key: KeyId)
    | Found(trace: TraceId, key: KeyId, cap: Option<CapId>)
    | Trying(trace: TraceId, key: KeyId)
    // processSwitcherHalf, which runs on the goroutine of either
    | Processing(trace: TraceId, key: KeyId, trusted: bool)
    | Shaped(trace: TraceId, key: KeyId, trusted: bool)
    | Dropping(trace: TraceId)
    | Counted(trace: TraceId)
    | Enqueueing(trace: TraceId)
    | InQueue(trace: TraceId)                          // an element of the consumer's channel
    | Consuming(trace: TraceId, key: KeyId, trusted: bool)
    | Consumed(key: KeyId, trusted: bool)

  type Tid = nat

  datatype System = System(
    rows: map<TraceId, Row>, caps: map<CapId, Cap>, slots: Slots,
    jobs: map<Tid, Job>, processed: seq<TraceId>)

  // A process that starts on the rows an earlier one left, once it has reset them.
  function Booted(rows: map<TraceId, Row>): System {
    System(map t | t in rows :: ResetRow(rows[t]), map[], NoSlots, map[], [])
  }

  datatype Step =
    | ClaimTraced(cid: CapId, trace: TraceId, key: KeyId, trusted: bool, insertOk: bool)
    | ClaimGolden(cid: CapId, trace: TraceId, key: KeyId, sampleKey: string, toolDay: string, version: string, insertOk: bool)
    | Seal(tid: Tid, cid: CapId, clean: bool)
    | Panic(tid: Tid, cid: CapId)
    | Commit(tid: Tid, dbOk: bool)
    | MarkFailed(tid: Tid)
    | MarkSealed(tid: Tid)
    | ReleaseSlot(tid: Tid)
    | WriteEnd(tid: Tid)
    | AfterRelease(tid: Tid, keyTrusted: bool)
    | Submit(tid: Tid, trace: TraceId, key: KeyId)
    | FindCapture(tid: Tid)
    | HoldOrPass(tid: Tid)
    | TrySubmit(tid: Tid, keyTrusted: bool)
    | StoreShapes(tid: Tid)
    | CountQueue(tid: Tid)
    | WriteDropped(tid: Tid)
    | ToQueued(tid: Tid)
    | Enqueue(tid: Tid, full: bool)
    | Take(tid: Tid)
    | Finish(tid: Tid, ok: bool)
    | ReleaseQueue(tid: Tid)
    | Expire(trace: TraceId)
    | Revoke(key: KeyId)
    | Restart(recovered: map<Tid, TraceId>)

  // ---------------------------------------------------------------------------
  // Store statements
  // ---------------------------------------------------------------------------

  predicate Has(s: System, t: TraceId, st: Status) {
    t in s.rows && s.rows[t].status == st
  }

  // UpdateContractTraceStatus: unconditional, and nothing when the row is missing.
  function Write(s: System, t: TraceId, st: Status): System {
    if t in s.rows then s.(rows := s.rows[t := s.rows[t].(status := st)]) else s
  }

  // UpdateContractTraceStatusCAS.
  function Cas(s: System, t: TraceId, from: Status, to: Status): System {
    if Has(s, t, from) then Write(s, t, to) else s
  }

  function Insert(s: System, t: TraceId, key: KeyId, trusted: bool, ok: bool): System {
    if ok && t !in s.rows then s.(rows := s.rows[t := Row(key, trusted, Capturing)]) else s
  }

  function Put(s: System, tid: Tid, j: Job): System {
    s.(jobs := s.jobs[tid := j])
  }

  function End(s: System, tid: Tid): System {
    s.(jobs := s.jobs - {tid})
  }

  function ResetRow(r: Row): Row {
    if r.status == Capturing || r.status == Open || r.status == Reducing then r.(status := Lost) else r
  }

  // ---------------------------------------------------------------------------
  // Steps of a job
  // ---------------------------------------------------------------------------

  // CommitIntactShapesAndSeal: shapes and status in one transaction.
  function CommitStep(s: System, tid: Tid, cid: CapId, dbOk: bool): System
    requires cid in s.caps
  {
    var t := s.caps[cid].trace;
    if dbOk && Has(s, t, Capturing) then
      Put(Write(s, t, if s.caps[cid].slot.golden then Queued else Open), tid, Committed(cid))
    else Put(s, tid, Failing(cid))
  }

  function ReleaseStep(s: System, tid: Tid, j: Job): System
    requires j.Ending? || j.Marked?
    requires j.cid in s.caps
  {
    var c := s.caps[j.cid];
    var s1 := s.(slots := CaptureSlots.Released(s.slots, c.trace, c.slot, j.Ending? && j.err));
    if j.Ending? then Put(s1, tid, j.(slot := false))
    else if c.slot.golden then Put(s1, tid, Enqueueing(c.trace))
    else Put(s1, tid, Unslotted(j.cid, j.held))
  }

  // The compare-and-set that admits one switcher half, and the trust it is processed with.
  function Admit(s: System, tid: Tid, t: TraceId, key: KeyId, keyTrusted: bool): System {
    if Has(s, t, Open) then
      var trusted := s.rows[t].trusted && keyTrusted;
      Put(s.(rows := s.rows[t := s.rows[t].(status := Reducing, trusted := trusted)]), tid, Processing(t, key, trusted))
    else End(s, tid)
  }

  function CountStep(s: System, tid: Tid, t: TraceId, key: KeyId, trusted: bool): System {
    if trusted then Put(s, tid, Counted(t))
    else if QueueFits(s.slots, key) then Put(s.(slots := WithQueued(s.slots, key)), tid, Counted(t))
    else Put(s, tid, Dropping(t))
  }

  // Seal and ReleaseOnPanic.
  function RelayStep(s: System, step: Step, tid: Tid, j: Job): System {
    match j
    case Sealing(cid, clean) =>
      if clean && step.Commit? && cid in s.caps then CommitStep(s, tid, cid, step.dbOk)
      else if !clean && step.MarkFailed? && cid in s.caps then MarkStep(s, tid, cid, Ending(cid, true, true, true))
      else s
    case Failing(cid) =>
      if step.MarkFailed? && cid in s.caps then MarkStep(s, tid, cid, Ending(cid, true, false, false)) else s
    case Committed(cid) =>
      if step.MarkSealed? && cid in s.caps then
        Put(s.(caps := s.caps[cid := s.caps[cid].(capturing := false, held := false)]), tid, Marked(cid, s.caps[cid].held))
      else s
    case Ending(cid, slot, _, aborted) =>
      if cid !in s.caps then s
      else if slot && step.ReleaseSlot? then ReleaseStep(s, tid, j)
      else if !slot && step.WriteEnd? then End(Write(s, s.caps[cid].trace, if aborted then Aborted else Failed), tid)
      else s
    case Marked(cid, _) => if step.ReleaseSlot? && cid in s.caps then ReleaseStep(s, tid, j) else s
    case Unslotted(cid, held) =>
      if !step.AfterRelease? then s
      else if held && cid in s.caps then Admit(s, tid, s.caps[cid].trace, s.caps[cid].slot.key, step.keyTrusted)
      else End(s, tid)
    case _ => s
  }

  // SubmitHalf. The check for a half already stored is left to the compare-and-set.
  function SubmitStep(s: System, step: Step, tid: Tid, j: Job): System {
    match j
    case Submitting(t, key) =>
      if step.FindCapture? then
        Put(s, tid, Found(t, key, if t in s.slots.active then Some(s.slots.active[t].cid) else None))
      else s
    case Found(t, key, cap) =>
      if !step.HoldOrPass? then s
      else if cap.Some? && cap.value in s.caps && s.caps[cap.value].held then End(s, tid)
      else if cap.Some? && cap.value in s.caps && s.caps[cap.value].capturing then
        End(s.(caps := s.caps[cap.value := s.caps[cap.value].(held := true)]), tid)
      else Put(s, tid, Trying(t, key))
    case Trying(t, key) => if step.TrySubmit? then Admit(s, tid, t, key, step.keyTrusted) else s
    case _ => s
  }

  // processSwitcherHalf, the channel and the consumer.
  function ProcessStep(s: System, step: Step, tid: Tid, j: Job): System {
    match j
    case Processing(t, key, trusted) =>
      if step.StoreShapes? then Put(s.(processed := s.processed + [t]), tid, Shaped(t, key, trusted)) else s
    case Shaped(t, key, trusted) => if step.CountQueue? then CountStep(s, tid, t, key, trusted) else s
    case Dropping(t) => if step.WriteDropped? then End(Write(s, t, Dropped), tid) else s
    case Counted(t) =>
      if !step.ToQueued? then s
      else if Has(s, t, Reducing) then Put(Write(s, t, Queued), tid, Enqueueing(t))
      else End(s, tid)
    case Enqueueing(t) =>
      if !step.Enqueue? then s
      else if step.full then End(Cas(s, t, Queued, Dropped), tid)
      else Put(s, tid, InQueue(t))
    case InQueue(t) =>
      if !step.Take? then s
      else if Has(s, t, Queued) then Put(s, tid, Consuming(t, s.rows[t].key, s.rows[t].trusted))
      else End(s, tid)
    case Consuming(t, key, trusted) =>
      if step.Finish? then Put(Write(s, t, if step.ok then Finished else Failed), tid, Consumed(key, trusted)) else s
    case Consumed(key, trusted) =>
      if step.ReleaseQueue? then End(s.(slots := QueueReleased(s.slots, key, trusted)), tid) else s
    case _ => s
  }

  predicate IsRelay(j: Job) {
    j.Sealing? || j.Failing? || j.Ending? || j.Committed? || j.Marked? || j.Unslotted?
  }

  predicate IsSubmit(j: Job) {
    j.Submitting? || j.Found? || j.Trying?
  }

  function JobStep(s: System, step: Step, tid: Tid): System
    requires tid in s.jobs
  {
    var j := s.jobs[tid];
    if IsRelay(j) then RelayStep(s, step, tid, j)
    else if IsSubmit(j) then SubmitStep(s, step, tid, j)
    else ProcessStep(s, step, tid, j)
  }

  // A step of one job, if it still runs.
  function StepOf(s: System, step: Step, tid: Tid): System {
    if tid in s.jobs then JobStep(s, step, tid) else s
  }

  function MarkStep(s: System, tid: Tid, cid: CapId, j: Job): System {
    if cid in s.caps then Put(s.(caps := s.caps[cid := s.caps[cid].(capturing := false)]), tid, j) else s
  }

  // ---------------------------------------------------------------------------
  // One step of the system
  // ---------------------------------------------------------------------------

  function WithCap(s: System, cid: CapId, trace: TraceId, slot: Slot): System {
    s.(caps := s.caps[cid := Cap(trace, slot, false, true, false)])
  }

  // The check that the trace id is new runs before the manager's lock, so its answer may be stale
  // here: the claim goes on whatever the store holds by now, and a failed insert is ignored.
  function ClaimTracedStep(s: System, cid: CapId, trace: TraceId, key: KeyId, trusted: bool, insertOk: bool): System {
    if cid in s.caps || !TracedFits(s.slots, trace, key, trusted) then s
    else
      var s1 := WithCap(s.(slots := WithTraced(s.slots, trace, cid, key, trusted)), cid, trace, Slot(cid, key, trusted, false, ""));
      Insert(s1, trace, key, trusted, insertOk)
  }

  // A golden trace id is random, so it is new.
  function ClaimGoldenStep(s: System, step: Step): System
    requires step.ClaimGolden?
  {
    if step.cid in s.caps || step.trace in s.slots.active || step.trace in s.rows ||
       !GoldenFits(s.slots, step.sampleKey, step.toolDay, step.version) then s
    else
      var s1 := s.(slots := WithGolden(s.slots, step.trace, step.cid, step.key, step.sampleKey, step.toolDay, step.version));
      var s2 := WithCap(s1, step.cid, step.trace, Slot(step.cid, step.key, true, true, step.sampleKey));
      Insert(s2, step.trace, step.key, true, step.insertOk)
  }

  function SealStep(s: System, tid: Tid, cid: CapId, j: Job, held: bool): System
    requires cid in s.caps
  {
    if s.caps[cid].sealed then s
    else Put(s.(caps := s.caps[cid := s.caps[cid].(sealed := true, held := held)]), tid, j)
  }

  // Startup after the process ended: every goroutine is gone, and the queued traces are fed again.
  function RestartStep(s: System, recovered: map<Tid, TraceId>): System {
    System(map t | t in s.rows :: ResetRow(s.rows[t]), map[], NoSlots,
           map tid | tid in recovered :: InQueue(recovered[tid]), s.processed)
  }

  ghost predicate RecoversQueued(s: System, recovered: map<Tid, TraceId>) {
    && (forall tid :: tid in recovered ==> Has(s, recovered[tid], Queued))
    && (forall a, b :: a in recovered && b in recovered && recovered[a] == recovered[b] ==> a == b)
  }

  ghost function Next(s: System, step: Step): System {
    match step
    case ClaimTraced(cid, trace, key, trusted, insertOk) => ClaimTracedStep(s, cid, trace, key, trusted, insertOk)
    case ClaimGolden(_, _, _, _, _, _, _) => ClaimGoldenStep(s, step)
    case Seal(tid, cid, clean) =>
      if tid in s.jobs || cid !in s.caps then s else SealStep(s, tid, cid, Sealing(cid, clean), s.caps[cid].held)
    case Panic(tid, cid) =>
      if tid in s.jobs || cid !in s.caps then s else SealStep(s, tid, cid, Ending(cid, true, true, false), false)
    case Submit(tid, trace, key) =>
      if tid in s.jobs || trace !in s.rows || s.rows[trace].key != key then s else Put(s, tid, Submitting(trace, key))
    case Expire(trace) => Cas(s, trace, Open, Expired)
    case Revoke(key) =>
      s.(rows := map t | t in s.rows ::
        if s.rows[t].key == key && s.rows[t].status == Open then s.rows[t].(status := Revoked) else s.rows[t])
    case Restart(recovered) => if RecoversQueued(s, recovered) then RestartStep(s, recovered) else s
    case _ => if step.tid in s.jobs then JobStep(s, step, step.tid) else s
  }

  ghost function Run(s: System, steps: seq<Step>): System
    decreases |steps|
  {
    if steps == [] then s else Run(Next(s, steps[0]), steps[1..])
  }

  // ---------------------------------------------------------------------------
  // Slots: every capture gives its slot back exactly once
  // ---------------------------------------------------------------------------

  // The capture a job will still give the slot back for.
  function SlotHeldBy(j: Job): Option<CapId> {
    match j
    case Sealing(cid, _) => Some(cid)
    case Failing(cid) => Some(cid)
    case Ending(cid, slot, _, _) => if slot then Some(cid) else None
    case Committed(cid) => Some(cid)
    case Marked(cid, _) => Some(cid)
    case _ => None
  }

  ghost predicate CapsOwn(s: System) {
    && (forall cid :: cid in s.caps ==> s.caps[cid].slot.cid == cid && (!s.caps[cid].sealed ==> HasSlot(s, cid)))
    && (forall t :: t in s.slots.active ==>
          s.slots.active[t].cid in s.caps && s.caps[s.slots.active[t].cid].trace == t &&
          s.caps[s.slots.active[t].cid].slot == s.slots.active[t])
  }

  predicate JobOwns(s: System, j: Job) {
    var cid := SlotHeldBy(j);
    cid.Some? ==> cid.value in s.caps && s.caps[cid.value].sealed && HasSlot(s, cid.value)
  }

  ghost predicate JobsOwn(s: System) {
    && (forall tid :: tid in s.jobs ==> JobOwns(s, s.jobs[tid]))
    && (forall a, b :: a in s.jobs && b in s.jobs && SlotHeldBy(s.jobs[a]).Some? && SlotHeldBy(s.jobs[a]) == SlotHeldBy(s.jobs[b])
          ==> a == b)
  }

  predicate HasSlot(s: System, cid: CapId)
    requires cid in s.caps
  {
    s.caps[cid].trace in s.slots.active && s.slots.active[s.caps[cid].trace] == s.caps[cid].slot
  }

  ghost predicate HasReleaser(s: System, cid: CapId) {
    exists tid :: tid in s.jobs && SlotHeldBy(s.jobs[tid]) == Some(cid)
  }

  // A slot that is taken is never lost: its capture is not sealed, or a job still gives it back.
  ghost predicate NoSlotLost(s: System) {
    forall cid :: cid in s.caps && s.caps[cid].sealed && HasSlot(s, cid) ==> HasReleaser(s, cid)
  }

  ghost predicate OwnersOk(s: System) {
    CapsOwn(s) && JobsOwn(s) && NoSlotLost(s)
  }

  predicate SameCaps(s: System, t: System) {
    && s.caps.Keys == t.caps.Keys
    && (forall cid :: cid in s.caps ==>
          s.caps[cid].trace == t.caps[cid].trace && s.caps[cid].slot == t.caps[cid].slot && s.caps[cid].sealed == t.caps[cid].sealed)
  }

  // A step that moves one job without touching the slot it answers for.
  lemma JobMoveKeepsOwners(s: System, t: System, tid: Tid)
    requires OwnersOk(s) && JobMoved(s, t, tid)
    ensures OwnersOk(t)
  {
    assert forall cid :: cid in s.caps ==> HasSlot(s, cid) == HasSlot(t, cid);
    forall cid | cid in t.caps && t.caps[cid].sealed && HasSlot(t, cid) ensures HasReleaser(t, cid) {
      assert HasReleaser(s, cid);
      var o :| o in s.jobs && SlotHeldBy(s.jobs[o]) == Some(cid);
      assert o in t.jobs && SlotHeldBy(t.jobs[o]) == Some(cid);
    }
    forall o | o in t.jobs ensures JobOwns(t, t.jobs[o]) {
      if SlotHeldBy(t.jobs[o]).Some? { assert o in s.jobs && JobOwns(s, s.jobs[o]); }
    }
  }

  lemma ClaimKeepsOwners(s: System, t: System, cid: CapId, trace: TraceId, slot: Slot)
    requires OwnersOk(s)
    requires cid !in s.caps && trace !in s.slots.active && slot.cid == cid
    requires t.caps == s.caps[cid := Cap(trace, slot, false, true, false)] && t.jobs == s.jobs
    requires t.slots.active == s.slots.active[trace := slot]
    ensures OwnersOk(t)
  {
    forall o | o in t.caps && t.caps[o].sealed && HasSlot(t, o) ensures HasReleaser(t, o) {
      assert HasSlot(s, o) && HasReleaser(s, o);
    }
  }

  lemma SealKeepsOwners(s: System, tid: Tid, cid: CapId, j: Job, held: bool)
    requires OwnersOk(s) && tid !in s.jobs && cid in s.caps && SlotHeldBy(j) == Some(cid)
    ensures OwnersOk(SealStep(s, tid, cid, j, held))
  {
    var t := SealStep(s, tid, cid, j, held);
    if !s.caps[cid].sealed {
      assert t.jobs[tid] == j && t.jobs == s.jobs[tid := j];
      var c := s.caps[cid].(sealed := true, held := held);
      assert t.caps == s.caps[cid := c] && t.slots == s.slots;
      hide SealStep;
      assert CapsOwn(t);
      SealKeepsJobs(s, t, tid, cid);
      SealKeepsReleasers(s, t, tid, cid);
    }
  }

  lemma SealKeepsJobs(s: System, t: System, tid: Tid, cid: CapId)
    requires CapsOwn(s) && JobsOwn(s) && tid !in s.jobs && cid in s.caps && !s.caps[cid].sealed
    requires t.slots == s.slots && tid in t.jobs && t.jobs == s.jobs[tid := t.jobs[tid]] && SlotHeldBy(t.jobs[tid]) == Some(cid)
    requires cid in t.caps && t.caps == s.caps[cid := s.caps[cid].(sealed := true, held := t.caps[cid].held)]
    ensures JobsOwn(t)
  {
    hide SlotHeldBy;
    forall o | o in t.jobs ensures JobOwns(t, t.jobs[o]) && (o != tid ==> SlotHeldBy(t.jobs[o]) != Some(cid)) {
      if o != tid { assert t.jobs[o] == s.jobs[o] && JobOwns(s, s.jobs[o]); }
    }
  }

  lemma SealKeepsReleasers(s: System, t: System, tid: Tid, cid: CapId)
    requires NoSlotLost(s) && tid !in s.jobs && cid in s.caps
    requires t.slots == s.slots && tid in t.jobs && t.jobs == s.jobs[tid := t.jobs[tid]] && SlotHeldBy(t.jobs[tid]) == Some(cid)
    requires cid in t.caps && t.caps == s.caps[cid := t.caps[cid]]
    ensures NoSlotLost(t)
  {
    forall o | o in t.caps && t.caps[o].sealed && HasSlot(t, o) ensures HasReleaser(t, o) {
      if o != cid {
        assert HasSlot(s, o) && HasReleaser(s, o);
        var r :| r in s.jobs && SlotHeldBy(s.jobs[r]) == Some(o);
        assert r in t.jobs && SlotHeldBy(t.jobs[r]) == Some(o);
      }
    }
  }

  lemma ReleaseIs(s: System, tid: Tid)
    requires tid in s.jobs && (s.jobs[tid].Marked? || (s.jobs[tid].Ending? && s.jobs[tid].slot)) && s.jobs[tid].cid in s.caps
    ensures var t := ReleaseStep(s, tid, s.jobs[tid]);
      && t.caps == s.caps && t.slots.active == s.slots.active - {s.caps[s.jobs[tid].cid].trace}
      && tid in t.jobs && t.jobs == s.jobs[tid := t.jobs[tid]] && SlotHeldBy(t.jobs[tid]) == None
  {
    hide CaptureSlots.Released;
  }

  lemma ReleaseKeepsOwners(s: System, tid: Tid)
    requires OwnersOk(s) && tid in s.jobs && (s.jobs[tid].Marked? || (s.jobs[tid].Ending? && s.jobs[tid].slot))
    ensures s.jobs[tid].cid in s.caps && OwnersOk(ReleaseStep(s, tid, s.jobs[tid]))
  {
    var cid := s.jobs[tid].cid;
    assert JobOwns(s, s.jobs[tid]) && SlotHeldBy(s.jobs[tid]) == Some(cid);
    ReleaseIs(s, tid);
    hide ReleaseStep;
    var t := ReleaseStep(s, tid, s.jobs[tid]);
    forall o | o in t.jobs ensures JobOwns(t, t.jobs[o]) {
      if o != tid { assert t.jobs[o] == s.jobs[o] && JobOwns(s, s.jobs[o]); }
    }
    forall o | o in t.caps && t.caps[o].sealed && HasSlot(t, o) ensures HasReleaser(t, o) {
      assert HasSlot(s, o) && HasReleaser(s, o);
      var r :| r in s.jobs && SlotHeldBy(s.jobs[r]) == Some(o);
      assert r in t.jobs && SlotHeldBy(t.jobs[r]) == Some(o);
    }
  }

  // One job moved, and the slot it answers for is the same.
  ghost predicate JobMoved(s: System, t: System, tid: Tid) {
    && SameCaps(s, t) && t.slots.active == s.slots.active
    && (forall o :: o != tid ==> (o in t.jobs <==> o in s.jobs) && (o in s.jobs ==> t.jobs[o] == s.jobs[o]))
    && (if tid in t.jobs then SlotHeldBy(t.jobs[tid]) else None) == (if tid in s.jobs then SlotHeldBy(s.jobs[tid]) else None)
  }

  predicate GivesBack(step: Step, j: Job) {
    step.ReleaseSlot? && (j.Marked? || (j.Ending? && j.slot))
  }

  predicate JobsSetAt(s: System, t: System, tid: Tid) {
    t.jobs == s.jobs || t.jobs == s.jobs - {tid} || (tid in t.jobs && t.jobs == s.jobs[tid := t.jobs[tid]])
  }

  // One job set or ended; the slot it answers for is the same.
  predicate OnlyJob(s: System, t: System, tid: Tid) {
    && JobsSetAt(s, t, tid) && t.slots.active == s.slots.active
    && (if tid in t.jobs then SlotHeldBy(t.jobs[tid]) else None) == (if tid in s.jobs then SlotHeldBy(s.jobs[tid]) else None)
  }

  lemma OnlyJobMoves(s: System, t: System, tid: Tid)
    requires OnlyJob(s, t, tid) && SameCaps(s, t)
    ensures JobMoved(s, t, tid)
  {
    hide SameCaps, SlotHeldBy;
  }

  lemma SealingMoves(s: System, step: Step, tid: Tid)
    requires tid in s.jobs && (s.jobs[tid].Sealing? || s.jobs[tid].Failing? || s.jobs[tid].Committed?)
    ensures OnlyJob(s, RelayStep(s, step, tid, s.jobs[tid]), tid)
    ensures SameCaps(s, RelayStep(s, step, tid, s.jobs[tid]))
  {
  }

  lemma EndingMoves(s: System, step: Step, tid: Tid)
    requires tid in s.jobs && (s.jobs[tid].Ending? || s.jobs[tid].Marked? || s.jobs[tid].Unslotted?)
    requires !GivesBack(step, s.jobs[tid])
    ensures OnlyJob(s, RelayStep(s, step, tid, s.jobs[tid]), tid)
  {
  }

  lemma RelaySameCaps(s: System, step: Step, tid: Tid)
    requires tid in s.jobs && IsRelay(s.jobs[tid])
    ensures SameCaps(s, RelayStep(s, step, tid, s.jobs[tid]))
  {
    var j := s.jobs[tid];
    if j.Sealing? || j.Failing? || j.Committed? {
      SealingMoves(s, step, tid);
    } else {
      assert RelayStep(s, step, tid, j).caps == s.caps;
    }
  }

  lemma RelayMoves(s: System, step: Step, tid: Tid)
    requires tid in s.jobs && IsRelay(s.jobs[tid]) && !GivesBack(step, s.jobs[tid])
    ensures JobMoved(s, RelayStep(s, step, tid, s.jobs[tid]), tid)
  {
    hide RelayStep, JobMoved, OnlyJob, SameCaps;
    RelaySameCaps(s, step, tid);
    var j := s.jobs[tid];
    if j.Sealing? || j.Failing? || j.Committed? {
      SealingMoves(s, step, tid);
    } else {
      EndingMoves(s, step, tid);
    }
    OnlyJobMoves(s, RelayStep(s, step, tid, j), tid);
  }

  lemma SubmitMoves(s: System, step: Step, tid: Tid)
    requires tid in s.jobs && IsSubmit(s.jobs[tid])
    ensures JobMoved(s, SubmitStep(s, step, tid, s.jobs[tid]), tid)
  {
  }

  // A job that answers for no slot is set or ended.
  predicate SlotlessMove(s: System, t: System, tid: Tid) {
    && t.caps == s.caps && t.slots.active == s.slots.active && JobsSetAt(s, t, tid)
    && (tid in t.jobs && t.jobs != s.jobs ==> SlotHeldBy(t.jobs[tid]) == None)
  }

  lemma HalfMoves(s: System, step: Step, tid: Tid)
    requires tid in s.jobs
    requires var j := s.jobs[tid]; j.Processing? || j.Shaped? || j.Dropping? || j.Counted?
    ensures SlotlessMove(s, ProcessStep(s, step, tid, s.jobs[tid]), tid)
  {
  }

  lemma QueueMoves(s: System, step: Step, tid: Tid)
    requires tid in s.jobs
    requires var j := s.jobs[tid]; j.Enqueueing? || j.InQueue? || j.Consuming? || j.Consumed?
    ensures SlotlessMove(s, ProcessStep(s, step, tid, s.jobs[tid]), tid)
  {
  }

  lemma ProcessMoves(s: System, step: Step, tid: Tid)
    requires tid in s.jobs && !IsRelay(s.jobs[tid]) && !IsSubmit(s.jobs[tid])
    ensures JobMoved(s, ProcessStep(s, step, tid, s.jobs[tid]), tid)
  {
    hide JobMoved, ProcessStep;
    var j := s.jobs[tid];
    if j.Processing? || j.Shaped? || j.Dropping? || j.Counted? {
      HalfMoves(s, step, tid);
    } else {
      QueueMoves(s, step, tid);
    }
    EndMoves(s, ProcessStep(s, step, tid, j), tid);
  }

  lemma EndMoves(s: System, t: System, tid: Tid)
    requires tid in s.jobs && SlotHeldBy(s.jobs[tid]) == None
    requires t.caps == s.caps && t.slots.active == s.slots.active
    requires JobsSetAt(s, t, tid) && (tid in t.jobs && t.jobs != s.jobs ==> SlotHeldBy(t.jobs[tid]) == None)
    ensures JobMoved(s, t, tid)
  {
  }

  lemma JobStepKeepsOwners(s: System, step: Step, tid: Tid)
    requires OwnersOk(s) && tid in s.jobs
    ensures OwnersOk(JobStep(s, step, tid))
  {
    var j := s.jobs[tid];
    if GivesBack(step, j) {
      ReleaseKeepsOwners(s, tid);
    } else {
      if IsRelay(j) { RelayMoves(s, step, tid); }
      else if IsSubmit(j) { SubmitMoves(s, step, tid); }
      else { ProcessMoves(s, step, tid); }
      JobMoveKeepsOwners(s, JobStep(s, step, tid), tid);
    }
  }

  lemma ClaimStepKeepsOwners(s: System, step: Step)
    requires OwnersOk(s) && (step.ClaimTraced? || step.ClaimGolden?)
    ensures OwnersOk(Next(s, step))
  {
    hide OwnersOk;
    var t := Next(s, step);
    if t != s {
      var golden := step.ClaimGolden?;
      var slot := Slot(step.cid, step.key, golden || step.trusted, golden, if golden then step.sampleKey else "");
      ClaimKeepsOwners(s, t, step.cid, step.trace, slot);
    }
  }

  lemma SealStepKeepsOwners(s: System, step: Step)
    requires OwnersOk(s) && (step.Seal? || step.Panic?)
    ensures OwnersOk(Next(s, step))
  {
    if step.tid !in s.jobs && step.cid in s.caps {
      if step.Seal? {
        SealKeepsOwners(s, step.tid, step.cid, Sealing(step.cid, step.clean), s.caps[step.cid].held);
      } else {
        SealKeepsOwners(s, step.tid, step.cid, Ending(step.cid, true, true, false), false);
      }
    }
  }

  lemma StoreStepKeepsOwners(s: System, step: Step)
    requires OwnersOk(s) && (step.Submit? || step.Expire? || step.Revoke?)
    ensures OwnersOk(Next(s, step))
  {
    hide OwnersOk;
    JobMoveKeepsOwners(s, Next(s, step), if step.Submit? then step.tid else 0);
  }

  lemma RestartKeepsOwners(s: System, recovered: map<Tid, TraceId>)
    ensures OwnersOk(RestartStep(s, recovered))
  {
    var t := RestartStep(s, recovered);
    assert forall tid :: tid in t.jobs ==> SlotHeldBy(t.jobs[tid]) == None;
  }

  predicate IsJobStep(step: Step) {
    !step.ClaimTraced? && !step.ClaimGolden? && !step.Seal? && !step.Panic? && !step.Submit? &&
    !step.Expire? && !step.Revoke? && !step.Restart?
  }

  lemma NextIsJobStep(s: System, step: Step)
    requires IsJobStep(step)
    ensures Next(s, step) == if step.tid in s.jobs then JobStep(s, step, step.tid) else s
  {
    hide JobStep;
  }

  lemma JobIsRelay(s: System, step: Step)
    requires IsJobStep(step) && step.tid in s.jobs && IsRelay(s.jobs[step.tid])
    ensures JobStep(s, step, step.tid) == RelayStep(s, step, step.tid, s.jobs[step.tid])
  {
  }

  lemma NextIsRestart(s: System, step: Step)
    requires step.Restart?
    ensures Next(s, step) == s || Next(s, step) == RestartStep(s, step.recovered)
  {
  }

  lemma NextKeepsOwners(s: System, step: Step)
    requires OwnersOk(s)
    ensures OwnersOk(Next(s, step))
  {
    hide Next, JobStep, OwnersOk;
    if step.ClaimTraced? || step.ClaimGolden? {
      ClaimStepKeepsOwners(s, step);
    } else if step.Seal? || step.Panic? {
      SealStepKeepsOwners(s, step);
    } else if step.Submit? || step.Expire? || step.Revoke? {
      StoreStepKeepsOwners(s, step);
    } else if step.Restart? {
      NextIsRestart(s, step);
      RestartKeepsOwners(s, step.recovered);
    } else {
      NextIsJobStep(s, step);
      if step.tid in s.jobs { JobStepKeepsOwners(s, step, step.tid); }
    }
  }

  // The counters change only in the manager's critical sections.
  lemma JobStepKeepsCounters(s: System, step: Step, tid: Tid)
    requires OwnersOk(s) && SlotsOk(s.slots) && tid in s.jobs
    ensures SlotsOk(JobStep(s, step, tid).slots)
  {
    var j := s.jobs[tid];
    if GivesBack(step, j) {
      assert JobOwns(s, j);
      ReleaseKeepsSlots(s.slots, s.caps[j.cid].trace, j.Ending? && j.err);
    } else if IsRelay(j) || IsSubmit(j) {
      RelayKeepsCounters(s, step, tid);
    } else {
      if j.Shaped? && QueueFits(s.slots, j.key) { QueueCountKeepsSlots(s.slots, j.key); }
      if j.Consumed? { QueueReleaseKeepsSlots(s.slots, j.key, j.trusted); }
      ProcessSlots(s, step, tid);
    }
  }

  lemma RelayKeepsCounters(s: System, step: Step, tid: Tid)
    requires tid in s.jobs && !GivesBack(step, s.jobs[tid]) && (IsRelay(s.jobs[tid]) || IsSubmit(s.jobs[tid]))
    ensures JobStep(s, step, tid).slots == s.slots
  {
  }

  lemma ProcessSlots(s: System, step: Step, tid: Tid)
    requires tid in s.jobs && !IsRelay(s.jobs[tid]) && !IsSubmit(s.jobs[tid])
    ensures var j, t := s.jobs[tid], JobStep(s, step, tid).slots;
      || t == s.slots
      || (j.Shaped? && QueueFits(s.slots, j.key) && t == WithQueued(s.slots, j.key))
      || (j.Consumed? && t == QueueReleased(s.slots, j.key, j.trusted))
  {
  }

  lemma NextKeepsCounters(s: System, step: Step)
    requires OwnersOk(s) && SlotsOk(s.slots)
    ensures SlotsOk(Next(s, step).slots)
  {
    hide JobStep, SlotsOk, OwnersOk;
    if IsJobStep(step) {
      NextIsJobStep(s, step);
      if step.tid in s.jobs { JobStepKeepsCounters(s, step, step.tid); }
    } else if Next(s, step).slots != s.slots {
      if step.ClaimTraced? {
        TracedKeepsSlots(s.slots, step.trace, step.cid, step.key, step.trusted);
      } else if step.ClaimGolden? {
        GoldenKeepsSlots(s.slots, step.trace, step.cid, step.key, step.sampleKey, step.toolDay, step.version);
      } else {
        NoSlotsOk();
      }
    }
  }

  lemma QueueCountKeepsSlots(s: Slots, key: KeyId)
    requires SlotsOk(s) && QueueFits(s, key)
    ensures SlotsOk(WithQueued(s, key))
  {
  }

  lemma QueueReleaseKeepsSlots(s: Slots, key: KeyId, trusted: bool)
    requires SlotsOk(s)
    ensures SlotsOk(QueueReleased(s, key, trusted))
  {
  }

  // Main result on slots: in every reachable state of every run the counters equal the captures that
  // hold a slot, no cap is exceeded, and exactly one job gives the slot of a sealed capture back.
  lemma {:induction false} EveryRunKeepsSlots(s: System, steps: seq<Step>)
    requires OwnersOk(s) && SlotsOk(s.slots)
    ensures OwnersOk(Run(s, steps)) && SlotsOk(Run(s, steps).slots)
    decreases |steps|
  {
    hide Next, SlotsOk, OwnersOk;
    if steps != [] {
      NextKeepsOwners(s, steps[0]);
      NextKeepsCounters(s, steps[0]);
      EveryRunKeepsSlots(Next(s, steps[0]), steps[1..]);
    }
  }
}
