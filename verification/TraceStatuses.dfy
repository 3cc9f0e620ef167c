/**
 The statuses of Contract Lab traces. Some of their order holds whatever happens;
 the rest holds for every trace whose claims insert its row, and what breaks it
 otherwise is a status written without a look at the row.
 */
module TraceStatuses {
  import opened Options
  import opened CaptureSlots
  import opened TraceLifecycle

  // ---------------------------------------------------------------------------
  // What holds in every run
  // ---------------------------------------------------------------------------

  // How far a trace has come: no row, capturing, open, past open.
  function Phase(s: System, x: TraceId): nat {
    if x !in s.rows then 0
    else if s.rows[x].status == Capturing then 1
    else if s.rows[x].status == Open then 2
    else 3
  }

  // A row comes in as capturing, is opened from capturing, and its switcher half is
  // admitted from open; nothing leads back.
  predicate MovesOn(s: System, t: System, x: TraceId) {
    && Phase(s, x) <= Phase(t, x)
    && (Phase(s, x) == 0 ==> Phase(t, x) <= 1)
    && (Has(t, x, Open) ==> Has(s, x, Open) || Has(s, x, Capturing))
    && (Has(t, x, Reducing) ==> Has(s, x, Reducing) || Has(s, x, Open))
  }

  lemma RelayMovesOn(s: System, step: Step, tid: Tid, x: TraceId)
    requires tid in s.jobs && IsRelay(s.jobs[tid])
    ensures MovesOn(s, RelayStep(s, step, tid, s.jobs[tid]), x)
  {
  }

  lemma HalfMovesOn(s: System, step: Step, tid: Tid, x: TraceId)
    requires tid in s.jobs && !IsRelay(s.jobs[tid])
    ensures MovesOn(s, JobStep(s, step, tid), x)
  {
  }

  lemma ClaimMovesOn(s: System, step: Step, x: TraceId)
    requires step.ClaimTraced? || step.ClaimGolden?
    ensures MovesOn(s, Next(s, step), x)
  {
    hide CaptureSlots.WithTraced, CaptureSlots.WithGolden, CaptureSlots.TracedFits, CaptureSlots.GoldenFits;
  }

  lemma RestartMovesOn(s: System, step: Step, x: TraceId)
    requires step.Restart?
    ensures MovesOn(s, Next(s, step), x)
  {
    NextIsRestart(s, step);
    hide Next;
  }

  lemma OtherMovesOn(s: System, step: Step, x: TraceId)
    requires step.Seal? || step.Panic? || step.Submit? || step.Expire? || step.Revoke?
    ensures MovesOn(s, Next(s, step), x)
  {
  }

  lemma NextMovesOn(s: System, step: Step, x: TraceId)
    ensures MovesOn(s, Next(s, step), x)
  {
    assert MovesOn(s, s, x);
    hide MovesOn, RelayStep, SubmitStep, ProcessStep;
    if IsJobStep(step) {
      NextIsJobStep(s, step);
      if step.tid in s.jobs {
        if IsRelay(s.jobs[step.tid]) { RelayMovesOn(s, step, step.tid, x); } else { HalfMovesOn(s, step, step.tid, x); }
      }
    } else if step.ClaimTraced? || step.ClaimGolden? {
      ClaimMovesOn(s, step, x);
    } else if step.Restart? {
      RestartMovesOn(s, step, x);
    } else {
      OtherMovesOn(s, step, x);
    }
  }

  // Main result: in every run whatever, claims without a row included, a trace that is past
  // capturing is never capturing again, and one that is past open never open again.
  lemma {:induction false} EveryRunMovesOn(s: System, steps: seq<Step>, x: TraceId)
    ensures Phase(s, x) <= Phase(Run(s, steps), x)
    decreases |steps|
  {
    hide Next, Phase;
    if steps != [] {
      NextMovesOn(s, steps[0], x);
      EveryRunMovesOn(Next(s, steps[0]), steps[1..], x);
    }
  }

  // ---------------------------------------------------------------------------
  // A switcher half is processed at most once
  // ---------------------------------------------------------------------------

  predicate Processes(s: System, tid: Tid, x: TraceId) {
    tid in s.jobs && s.jobs[tid].Processing? && s.jobs[tid].trace == x
  }

  // A half was processed, or is about to be, only for a trace past open, and by one job.
  ghost predicate ProcessedOnce(s: System) {
    && (forall i, j :: 0 <= i < j < |s.processed| ==> s.processed[i] != s.processed[j])
    && (forall x :: x in s.processed ==> Phase(s, x) == 3)
    && (forall tid, x :: Processes(s, tid, x) ==> Phase(s, x) == 3 && x !in s.processed)
    && (forall a, b, x :: Processes(s, a, x) && Processes(s, b, x) ==> a == b)
  }

  // A job starts processing a half only by winning its trace from open, and stores it in its next step.
  ghost predicate ProcessingMove(s: System, t: System, tid: Tid) {
    && (forall o :: o != tid ==> (o in t.jobs <==> o in s.jobs) && (o in s.jobs ==> t.jobs[o] == s.jobs[o]))
    && (t.processed == s.processed || (Processes(s, tid, TraceAt(s, tid)) && t.processed == s.processed + [TraceAt(s, tid)]
                                       && !Processes(t, tid, TraceAt(s, tid))))
    && (forall x :: Processes(t, tid, x) && !Processes(s, tid, x) ==> Phase(s, x) == 2 && Phase(t, x) == 3)
  }

  function TraceAt(s: System, tid: Tid): TraceId {
    if tid in s.jobs && s.jobs[tid].Processing? then s.jobs[tid].trace else ""
  }

  lemma RelayProcesses(s: System, step: Step, tid: Tid)
    requires tid in s.jobs && IsRelay(s.jobs[tid])
    ensures ProcessingMove(s, RelayStep(s, step, tid, s.jobs[tid]), tid)
  {
  }

  lemma SubmitProcesses(s: System, step: Step, tid: Tid)
    requires tid in s.jobs && IsSubmit(s.jobs[tid])
    ensures ProcessingMove(s, SubmitStep(s, step, tid, s.jobs[tid]), tid)
  {
  }

  lemma HalfProcesses(s: System, step: Step, tid: Tid)
    requires tid in s.jobs
    requires var j := s.jobs[tid]; j.Processing? || j.Shaped? || j.Dropping? || j.Counted?
    ensures ProcessingMove(s, ProcessStep(s, step, tid, s.jobs[tid]), tid)
  {
    hide CaptureSlots.WithQueued, CaptureSlots.QueueFits;
  }

  lemma QueueProcesses(s: System, step: Step, tid: Tid)
    requires tid in s.jobs
    requires var j := s.jobs[tid]; j.Enqueueing? || j.InQueue? || j.Consuming? || j.Consumed?
    ensures ProcessingMove(s, ProcessStep(s, step, tid, s.jobs[tid]), tid)
  {
    hide CaptureSlots.QueueReleased;
  }

  lemma ProcessingMoveKeepsOnce(s: System, t: System, tid: Tid)
    requires ProcessedOnce(s) && ProcessingMove(s, t, tid) && forall x :: Phase(s, x) <= Phase(t, x) <= 3
    ensures ProcessedOnce(t)
  {
    hide Phase;
    assert t.processed != s.processed ==> Processes(s, tid, TraceAt(s, tid));
    forall o, x | Processes(t, o, x) ensures Phase(t, x) == 3 && x !in t.processed {
      if o != tid { assert Processes(s, o, x); }
    }
    forall a, b, x | Processes(t, a, x) && Processes(t, b, x) ensures a == b {
      if a != tid { assert Processes(s, a, x); }
      if b != tid { assert Processes(s, b, x); }
    }
  }

  // A step of no job starts and stores none.
  lemma OtherStepProcesses(s: System, step: Step)
    requires !IsJobStep(step)
    ensures var t := Next(s, step); t.processed == s.processed && forall tid, x :: Processes(t, tid, x) ==> Processes(s, tid, x)
  {
    if step.Restart? {
      NextIsRestart(s, step);
    }
  }

  lemma NextKeepsProcessed(s: System, step: Step)
    requires ProcessedOnce(s)
    ensures ProcessedOnce(Next(s, step))
  {
    hide Next, JobStep, RelayStep, ProcessingMove, Phase;
    var t := Next(s, step);
    forall x ensures Phase(s, x) <= Phase(t, x) <= 3 {
      NextMovesOn(s, step, x);
      PhaseLimit(t, x);
    }
    if IsJobStep(step) {
      NextIsJobStep(s, step);
      if step.tid in s.jobs {
        JobProcesses(s, step, step.tid);
        ProcessingMoveKeepsOnce(s, t, step.tid);
      }
    } else {
      OtherStepProcesses(s, step);
    }
  }

  lemma PhaseLimit(s: System, x: TraceId)
    ensures Phase(s, x) <= 3
  {
  }

  lemma JobProcesses(s: System, step: Step, tid: Tid)
    requires tid in s.jobs
    ensures ProcessingMove(s, JobStep(s, step, tid), tid)
  {
    var j := s.jobs[tid];
    hide ProcessingMove;
    if IsRelay(s.jobs[tid]) { RelayProcesses(s, step, tid); }
    else if IsSubmit(s.jobs[tid]) { SubmitProcesses(s, step, tid); }
    else if j.Processing? || j.Shaped? || j.Dropping? || j.Counted? { HalfProcesses(s, step, tid); }
    else { QueueProcesses(s, step, tid); }
  }

  // Main result: in every run whatever, each trace's switcher half is processed at most once.
  lemma {:induction false} HalvesAreProcessedOnce(s: System, steps: seq<Step>)
    requires ProcessedOnce(s)
    ensures ProcessedOnce(Run(s, steps))
    decreases |steps|
  {
    hide Next, ProcessedOnce;
    if steps != [] {
      NextKeepsProcessed(s, steps[0]);
      HalvesAreProcessedOnce(Next(s, steps[0]), steps[1..]);
    }
  }

  // ---------------------------------------------------------------------------
  // The life of one trace
  // ---------------------------------------------------------------------------

  predicate Edge(a: Status, b: Status) {
    match a
    case Capturing => b == Open || b == Queued || b == Aborted || b == Failed || b == Lost
    case Open => b == Reducing || b == Expired || b == Revoked || b == Lost
    case Reducing => b == Queued || b == Dropped || b == Lost
    case Queued => b == Finished || b == Failed || b == Dropped
    case _ => false
  }

  // A step leaves the trace's row alone or moves it along an edge; a new row is capturing.
  predicate Forward(s: System, t: System, x: TraceId) {
    && (x in s.rows ==> x in t.rows && (t.rows[x].status == s.rows[x].status || Edge(s.rows[x].status, t.rows[x].status)))
    && (x in t.rows && x !in s.rows ==> t.rows[x].status == Capturing)
  }

  // The trace a job works on.
  function TraceOf(caps: map<CapId, Cap>, j: Job): Option<TraceId> {
    if IsRelay(j) then (if j.cid in caps then Some(caps[j.cid].trace) else None)
    else if j.Consumed? then None
    else Some(j.trace)
  }

  // The status a job alone may move its trace out of.
  function StageOf(caps: map<CapId, Cap>, j: Job): Option<Status> {
    match j
    case Sealing(_, _) => Some(Capturing)
    case Failing(_) => Some(Capturing)
    case Ending(_, _, _, _) => Some(Capturing)
    case Committed(cid) => if cid in caps && caps[cid].slot.golden then Some(Queued) else None
    case Marked(cid, _) => if cid in caps && caps[cid].slot.golden then Some(Queued) else None
    case Processing(_, _, _) => Some(Reducing)
    case Shaped(_, _, _) => Some(Reducing)
    case Dropping(_) => Some(Reducing)
    case Counted(_) => Some(Reducing)
    case Enqueueing(_) => Some(Queued)
    case InQueue(_) => Some(Queued)
    case Consuming(_, _, _) => Some(Queued)
    case _ => None
  }

  predicate Holds(caps: map<CapId, Cap>, j: Job, x: TraceId) {
    TraceOf(caps, j) == Some(x) && StageOf(caps, j).Some?
  }

  // Of the jobs that work on x at most one holds it, and the row has that job's status.
  ghost predicate JobsHold(s: System, x: TraceId) {
    && (forall tid :: tid in s.jobs && Holds(s.caps, s.jobs[tid], x) ==> Has(s, x, StageOf(s.caps, s.jobs[tid]).value))
    && (forall a, b :: a in s.jobs && b in s.jobs && Holds(s.caps, s.jobs[a], x) && Holds(s.caps, s.jobs[b], x) ==> a == b)
  }

  // At most one capture is of x; while it is not sealed x is capturing and no job holds it.
  ghost predicate CapsHold(s: System, x: TraceId) {
    && (forall cid :: cid in s.caps && s.caps[cid].trace == x ==> x in s.rows)
    && (forall cid :: cid in s.caps && s.caps[cid].trace == x && !s.caps[cid].sealed ==>
          Has(s, x, Capturing) && forall tid :: tid in s.jobs ==> !Holds(s.caps, s.jobs[tid], x))
    && (forall a, b :: a in s.caps && b in s.caps && s.caps[a].trace == x && s.caps[b].trace == x ==> a == b)
  }

  // What a step of one job does to x: nothing, or one move of a trace it holds or wins from open.
  ghost predicate JobForward(s: System, t: System, tid: Tid, x: TraceId)
    requires tid in s.jobs
  {
    var j := s.jobs[tid];
    && SameCaps(s, t) && JobsSetAt(s, t, tid)
    && (x in t.rows <==> x in s.rows)
    && (x in s.rows ==> t.rows[x].status == s.rows[x].status || OneMove(s, t, j, x))
    && (tid in t.jobs && Holds(t.caps, t.jobs[tid], x) ==>
          && Has(t, x, StageOf(t.caps, t.jobs[tid]).value)
          && (Holds(s.caps, j, x) || (Has(s, x, Open) && Has(t, x, Reducing))))
  }

  predicate OneMove(s: System, t: System, j: Job, x: TraceId) {
    && x in s.rows && x in t.rows
    && Edge(s.rows[x].status, t.rows[x].status) && (Holds(s.caps, j, x) || s.rows[x].status == Open)
  }

  // The row of x has the status of the job that holds it.
  predicate RowReady(s: System, j: Job, x: TraceId) {
    x in s.rows && (Holds(s.caps, j, x) ==> Has(s, x, StageOf(s.caps, j).value))
  }

  lemma SealingForward(s: System, step: Step, tid: Tid, x: TraceId)
    requires tid in s.jobs && s.jobs[tid].Sealing?
    requires TraceOf(s.caps, s.jobs[tid]) == Some(x) ==> RowReady(s, s.jobs[tid], x)
    ensures JobForward(s, RelayStep(s, step, tid, s.jobs[tid]), tid, x)
  {
    RelaySameCaps(s, step, tid);
    hide SameCaps;
  }

  lemma SealedForward(s: System, step: Step, tid: Tid, x: TraceId)
    requires tid in s.jobs && (s.jobs[tid].Failing? || s.jobs[tid].Committed?)
    requires TraceOf(s.caps, s.jobs[tid]) == Some(x) ==> RowReady(s, s.jobs[tid], x)
    ensures JobForward(s, RelayStep(s, step, tid, s.jobs[tid]), tid, x)
  {
    RelaySameCaps(s, step, tid);
    hide SameCaps;
  }

  lemma EndingForward(s: System, step: Step, tid: Tid, x: TraceId)
    requires tid in s.jobs && (s.jobs[tid].Ending? || s.jobs[tid].Marked? || s.jobs[tid].Unslotted?)
    requires TraceOf(s.caps, s.jobs[tid]) == Some(x) ==> RowReady(s, s.jobs[tid], x)
    ensures JobForward(s, RelayStep(s, step, tid, s.jobs[tid]), tid, x)
  {
    RelaySameCaps(s, step, tid);
    hide SameCaps, CaptureSlots.Released;
  }

  lemma SubmitForward(s: System, step: Step, tid: Tid, x: TraceId)
    requires tid in s.jobs && IsSubmit(s.jobs[tid])
    ensures JobForward(s, SubmitStep(s, step, tid, s.jobs[tid]), tid, x)
  {
  }

  lemma HalfForward(s: System, step: Step, tid: Tid, x: TraceId)
    requires tid in s.jobs
    requires var j := s.jobs[tid]; j.Processing? || j.Shaped? || j.Dropping? || j.Counted?
    requires TraceOf(s.caps, s.jobs[tid]) == Some(x) ==> RowReady(s, s.jobs[tid], x)
    ensures JobForward(s, ProcessStep(s, step, tid, s.jobs[tid]), tid, x)
  {
    hide CaptureSlots.WithQueued, CaptureSlots.QueueFits;
  }

  lemma QueueForward(s: System, step: Step, tid: Tid, x: TraceId)
    requires tid in s.jobs
    requires var j := s.jobs[tid]; j.Enqueueing? || j.InQueue? || j.Consuming? || j.Consumed?
    requires TraceOf(s.caps, s.jobs[tid]) == Some(x) ==> RowReady(s, s.jobs[tid], x)
    ensures JobForward(s, ProcessStep(s, step, tid, s.jobs[tid]), tid, x)
  {
    hide CaptureSlots.QueueReleased;
  }

  lemma JobStepForward(s: System, step: Step, tid: Tid, x: TraceId)
    requires JobsHold(s, x) && CapsHold(s, x) && tid in s.jobs
    ensures JobForward(s, JobStep(s, step, tid), tid, x)
  {
    var j := s.jobs[tid];
    hide JobForward, RelayStep, SubmitStep, ProcessStep;
    if j.Sealing? { SealingForward(s, step, tid, x); }
    else if j.Failing? || j.Committed? { SealedForward(s, step, tid, x); }
    else if j.Ending? || j.Marked? || j.Unslotted? { EndingForward(s, step, tid, x); }
    else if IsSubmit(j) { SubmitForward(s, step, tid, x); }
    else if j.Processing? || j.Shaped? || j.Dropping? || j.Counted? { HalfForward(s, step, tid, x); }
    else { QueueForward(s, step, tid, x); }
  }

  lemma SameCapsHold(s: System, t: System, j: Job, x: TraceId)
    requires SameCaps(s, t)
    ensures Holds(s.caps, j, x) == Holds(t.caps, j, x) && StageOf(s.caps, j) == StageOf(t.caps, j)
  {
  }

  lemma JobForwardKeepsJobs(s: System, t: System, tid: Tid, x: TraceId)
    requires JobsHold(s, x) && tid in s.jobs && JobForward(s, t, tid, x)
    ensures JobsHold(t, x)
  {
    forall o | o in t.jobs
      ensures Holds(s.caps, t.jobs[o], x) == Holds(t.caps, t.jobs[o], x)
      ensures StageOf(s.caps, t.jobs[o]) == StageOf(t.caps, t.jobs[o])
    {
      SameCapsHold(s, t, t.jobs[o], x);
    }
    assert forall o :: o in t.jobs && o != tid ==> o in s.jobs && t.jobs[o] == s.jobs[o];
    hide Holds, StageOf, SameCaps, JobsSetAt;
    forall o | o in t.jobs && Holds(t.caps, t.jobs[o], x) ensures Has(t, x, StageOf(t.caps, t.jobs[o]).value) {
      if o != tid { HeldRow(s, o, x); }
    }
    forall a, b | a in t.jobs && b in t.jobs && Holds(t.caps, t.jobs[a], x) && Holds(t.caps, t.jobs[b], x) ensures a == b {
      if a != tid { HeldRow(s, a, x); }
      if b != tid { HeldRow(s, b, x); }
    }
  }

  lemma HeldRow(s: System, tid: Tid, x: TraceId)
    requires JobsHold(s, x) && tid in s.jobs && Holds(s.caps, s.jobs[tid], x)
    ensures StageOf(s.caps, s.jobs[tid]).Some? && Has(s, x, StageOf(s.caps, s.jobs[tid]).value)
    ensures StageOf(s.caps, s.jobs[tid]).value != Open
  {
  }

  lemma JobForwardKeepsCaps(s: System, t: System, tid: Tid, x: TraceId)
    requires JobsHold(s, x) && CapsHold(s, x) && tid in s.jobs && JobForward(s, t, tid, x)
    ensures CapsHold(t, x) && Forward(s, t, x)
  {
    forall o | o in t.jobs ensures Holds(s.caps, t.jobs[o], x) == Holds(t.caps, t.jobs[o], x) {
      SameCapsHold(s, t, t.jobs[o], x);
    }
    hide Holds, StageOf;
    forall cid | cid in t.caps && t.caps[cid].trace == x && !t.caps[cid].sealed
      ensures Has(t, x, Capturing) && forall o :: o in t.jobs ==> !Holds(t.caps, t.jobs[o], x)
    {
      assert cid in s.caps && s.caps[cid].trace == x && !s.caps[cid].sealed;
      assert Has(s, x, Capturing) && !Holds(s.caps, s.jobs[tid], x);
    }
  }

  // A claim of x that goes on inserts its row.
  ghost predicate Inserts(s: System, step: Step, x: TraceId) {
    (step.ClaimTraced? || step.ClaimGolden?) && step.trace == x && Next(s, step) != s ==> step.insertOk && x !in s.rows
  }

  lemma ClaimKeepsLife(s: System, step: Step, x: TraceId)
    requires JobsHold(s, x) && CapsHold(s, x) && Inserts(s, step, x) && (step.ClaimTraced? || step.ClaimGolden?)
    requires forall tid :: tid in s.jobs && IsRelay(s.jobs[tid]) ==> s.jobs[tid].cid in s.caps
    ensures var t := Next(s, step); JobsHold(t, x) && CapsHold(t, x) && Forward(s, t, x)
  {
    var t := Next(s, step);
    if t != s {
      assert step.cid !in s.caps && step.cid in t.caps && t.jobs == s.jobs;
      assert t.caps == s.caps[step.cid := t.caps[step.cid]] && t.caps[step.cid].trace == step.trace;
      assert t.rows == s.rows || (step.trace !in s.rows && step.trace in t.rows && t.rows == s.rows[step.trace := t.rows[step.trace]]
                                  && Has(t, step.trace, Capturing));
      assert step.trace == x ==> x !in s.rows && x in t.rows;
      hide Next;
      ClaimedKeepsLife(s, t, step.cid, step.trace, x);
    }
  }

  lemma ClaimedKeepsLife(s: System, t: System, cid: CapId, y: TraceId, x: TraceId)
    requires JobsHold(s, x) && CapsHold(s, x) && cid !in s.caps && t.jobs == s.jobs
    requires forall tid :: tid in s.jobs && IsRelay(s.jobs[tid]) ==> s.jobs[tid].cid in s.caps
    requires cid in t.caps && t.caps == s.caps[cid := t.caps[cid]] && t.caps[cid].trace == y
    requires t.rows == s.rows || (y !in s.rows && y in t.rows && t.rows == s.rows[y := t.rows[y]] && Has(t, y, Capturing))
    requires y == x ==> x !in s.rows && x in t.rows
    ensures JobsHold(t, x) && CapsHold(t, x) && Forward(s, t, x)
  {
    forall tid | tid in s.jobs
      ensures Holds(t.caps, t.jobs[tid], x) == Holds(s.caps, s.jobs[tid], x)
      ensures StageOf(t.caps, t.jobs[tid]) == StageOf(s.caps, s.jobs[tid])
    {
    }
    hide Holds, StageOf;
  }

  lemma SealKeepsLife(s: System, tid: Tid, cid: CapId, j: Job, held: bool, x: TraceId)
    requires JobsHold(s, x) && CapsHold(s, x) && tid !in s.jobs && cid in s.caps
    requires IsRelay(j) && j.cid == cid && StageOf(s.caps, j) == Some(Capturing)
    ensures var t := SealStep(s, tid, cid, j, held); JobsHold(t, x) && CapsHold(t, x) && Forward(s, t, x)
  {
    var t := SealStep(s, tid, cid, j, held);
    if !s.caps[cid].sealed {
      forall k ensures Holds(t.caps, k, x) == Holds(s.caps, k, x) && StageOf(t.caps, k) == StageOf(s.caps, k) {
      }
      assert Holds(s.caps, j, x) <==> s.caps[cid].trace == x;
      hide Holds, StageOf;
      forall o | o in s.jobs ensures o != tid && t.jobs[o] == s.jobs[o] {
      }
    }
  }

  // No job holds an open trace, so what moves traces out of open disturbs none.
  lemma OpenMovesKeepLife(s: System, t: System, x: TraceId)
    requires JobsHold(s, x) && CapsHold(s, x) && t.caps == s.caps
    requires t.jobs == s.jobs || (exists tid :: tid !in s.jobs && tid in t.jobs && t.jobs[tid].Submitting? && t.jobs == s.jobs[tid := t.jobs[tid]])
    requires x in s.rows <==> x in t.rows
    requires x in s.rows ==> t.rows[x] == s.rows[x] || (s.rows[x].status == Open && Edge(Open, t.rows[x].status))
    ensures JobsHold(t, x) && CapsHold(t, x) && Forward(s, t, x)
  {
    forall tid | tid in t.jobs && Holds(t.caps, t.jobs[tid], x) ensures tid in s.jobs && t.jobs[tid] == s.jobs[tid] {
    }
  }

  lemma StoreStepKeepsLife(s: System, step: Step, x: TraceId)
    requires JobsHold(s, x) && CapsHold(s, x) && (step.Submit? || step.Expire? || step.Revoke?)
    ensures var t := Next(s, step); JobsHold(t, x) && CapsHold(t, x) && Forward(s, t, x)
  {
    hide JobsHold, CapsHold, Forward;
    var t := Next(s, step);
    if t.jobs != s.jobs { assert t.jobs[step.tid].Submitting?; }
    OpenMovesKeepLife(s, t, x);
  }

  // Jobs that are all of the queue, each of a queued trace of its own.
  lemma QueueHolds(t: System, x: TraceId)
    requires t.caps == map[]
    requires forall tid :: tid in t.jobs ==> t.jobs[tid].InQueue? && Has(t, t.jobs[tid].trace, Queued)
    requires forall a, b :: a in t.jobs && b in t.jobs && t.jobs[a].trace == t.jobs[b].trace ==> a == b
    ensures JobsHold(t, x) && CapsHold(t, x)
  {
    forall tid | tid in t.jobs && Holds(t.caps, t.jobs[tid], x)
      ensures t.jobs[tid].trace == x && StageOf(t.caps, t.jobs[tid]) == Some(Queued)
    {
    }
    hide Holds, StageOf, Has;
  }

  lemma RestartForward(s: System, recovered: map<Tid, TraceId>, x: TraceId)
    ensures var t := RestartStep(s, recovered); Forward(s, t, x) && (Has(s, x, Queued) ==> Has(t, x, Queued))
  {
  }

  lemma RestartKeepsLife(s: System, recovered: map<Tid, TraceId>, x: TraceId)
    requires RecoversQueued(s, recovered)
    ensures var t := RestartStep(s, recovered); JobsHold(t, x) && CapsHold(t, x) && Forward(s, t, x)
  {
    var t := RestartStep(s, recovered);
    assert t.caps == map[] && t.jobs == map tid | tid in recovered :: InQueue(recovered[tid]);
    RestartForward(s, recovered, x);
    hide RestartStep, JobsHold, CapsHold, Forward, Has;
    forall tid | tid in t.jobs ensures t.jobs[tid].InQueue? && Has(t, t.jobs[tid].trace, Queued) {
      RestartForward(s, recovered, recovered[tid]);
      assert Has(s, recovered[tid], Queued);
    }
    QueueHolds(t, x);
  }

  lemma SealStepKeepsLife(s: System, step: Step, x: TraceId)
    requires JobsHold(s, x) && CapsHold(s, x) && (step.Seal? || step.Panic?)
    ensures var t := Next(s, step); JobsHold(t, x) && CapsHold(t, x) && Forward(s, t, x)
  {
    assert Forward(s, s, x);
    hide JobsHold, CapsHold, Forward, SealStep;
    if step.tid !in s.jobs && step.cid in s.caps {
      if step.Seal? { SealKeepsLife(s, step.tid, step.cid, Sealing(step.cid, step.clean), s.caps[step.cid].held, x); }
      else { SealKeepsLife(s, step.tid, step.cid, Ending(step.cid, true, true, false), false, x); }
    }
  }

  // Every relay works on a capture the process knows.
  ghost predicate RelaysKnown(s: System) {
    forall tid :: tid in s.jobs && IsRelay(s.jobs[tid]) ==> s.jobs[tid].cid in s.caps
  }

  // A relay goes on with its capture, and no other job becomes one.
  predicate RelayGoesOn(s: System, t: System, tid: Tid)
    requires tid in s.jobs
  {
    && s.caps.Keys == t.caps.Keys && JobsSetAt(s, t, tid)
    && (tid in t.jobs && IsRelay(t.jobs[tid]) ==> IsRelay(s.jobs[tid]) && t.jobs[tid].cid == s.jobs[tid].cid)
  }

  lemma SealingGoesOn(s: System, step: Step, tid: Tid)
    requires tid in s.jobs && (s.jobs[tid].Sealing? || s.jobs[tid].Failing? || s.jobs[tid].Committed?)
    ensures RelayGoesOn(s, RelayStep(s, step, tid, s.jobs[tid]), tid)
  {
  }

  lemma EndingGoesOn(s: System, step: Step, tid: Tid)
    requires tid in s.jobs && (s.jobs[tid].Ending? || s.jobs[tid].Marked? || s.jobs[tid].Unslotted?)
    ensures RelayGoesOn(s, RelayStep(s, step, tid, s.jobs[tid]), tid)
  {
    hide CaptureSlots.Released;
  }

  lemma SubmitGoesOn(s: System, step: Step, tid: Tid)
    requires tid in s.jobs && IsSubmit(s.jobs[tid])
    ensures RelayGoesOn(s, SubmitStep(s, step, tid, s.jobs[tid]), tid)
  {
  }

  lemma HalfGoesOn(s: System, step: Step, tid: Tid)
    requires tid in s.jobs && !IsRelay(s.jobs[tid]) && !IsSubmit(s.jobs[tid])
    ensures RelayGoesOn(s, ProcessStep(s, step, tid, s.jobs[tid]), tid)
  {
    hide CaptureSlots.WithQueued, CaptureSlots.QueueReleased, CaptureSlots.QueueFits;
  }

  lemma JobGoesOn(s: System, step: Step, tid: Tid)
    requires tid in s.jobs
    ensures RelayGoesOn(s, JobStep(s, step, tid), tid)
  {
    var j := s.jobs[tid];
    hide RelayGoesOn, RelayStep, SubmitStep, ProcessStep;
    if j.Sealing? || j.Failing? || j.Committed? { SealingGoesOn(s, step, tid); }
    else if IsRelay(j) { EndingGoesOn(s, step, tid); }
    else if IsSubmit(j) { SubmitGoesOn(s, step, tid); }
    else { HalfGoesOn(s, step, tid); }
  }

  lemma NextKeepsRelays(s: System, step: Step)
    requires RelaysKnown(s)
    ensures RelaysKnown(Next(s, step))
  {
    if IsJobStep(step) {
      NextIsJobStep(s, step);
      hide Next, JobStep;
      if step.tid in s.jobs { JobGoesOn(s, step, step.tid); }
    } else {
      if step.Restart? { NextIsRestart(s, step); }
      hide CaptureSlots.WithTraced, CaptureSlots.WithGolden, CaptureSlots.TracedFits, CaptureSlots.GoldenFits;
    }
  }

  // What a run keeps of one trace.
  ghost predicate LifeOk(s: System, x: TraceId) {
    RelaysKnown(s) && JobsHold(s, x) && CapsHold(s, x)
  }

  lemma NextKeepsLife(s: System, step: Step, x: TraceId)
    requires LifeOk(s, x) && Inserts(s, step, x)
    ensures var t := Next(s, step); LifeOk(t, x) && Forward(s, t, x)
  {
    var t := Next(s, step);
    NextKeepsRelays(s, step);
    if step.ClaimTraced? || step.ClaimGolden? {
      ClaimKeepsLife(s, step, x);
    } else if step.Seal? || step.Panic? {
      SealStepKeepsLife(s, step, x);
    } else if step.Submit? || step.Expire? || step.Revoke? {
      StoreStepKeepsLife(s, step, x);
    } else if step.Restart? {
      NextIsRestart(s, step);
      if t != s { RestartKeepsLife(s, step.recovered, x); }
    } else {
      hide JobsHold, CapsHold, Forward, JobForward, JobStep, RelaysKnown;
      NextIsJobStep(s, step);
      StaysForward(s, x);
      if step.tid in s.jobs {
        JobStepForward(s, step, step.tid, x);
        JobForwardKeepsJobs(s, t, step.tid, x);
        JobForwardKeepsCaps(s, t, step.tid, x);
      }
    }
  }

  lemma StaysForward(s: System, x: TraceId)
    ensures Forward(s, s, x)
  {
  }

  // ---------------------------------------------------------------------------
  // The moves no job makes
  // ---------------------------------------------------------------------------

  // A claim that fits takes a slot, and its row, when it is new and inserted, is capturing with the claimer's key
  // and trust; a golden sample is trusted, and its trace new. Any other claim changes nothing.
  lemma TracedClaimIs(s: System, cid: CapId, x: TraceId, key: KeyId, trusted: bool, insertOk: bool)
    ensures var t := Next(s, ClaimTraced(cid, x, key, trusted, insertOk));
      if cid in s.caps || !TracedFits(s.slots, x, key, trusted) then t == s
      else
        && t.rows == (if insertOk && x !in s.rows then s.rows[x := Row(key, trusted, Capturing)] else s.rows)
        && t.caps == s.caps[cid := Cap(x, Slot(cid, key, trusted, false, ""), false, true, false)]
        && x in t.slots.active && t.slots.active[x].cid == cid && t.jobs == s.jobs
  {
  }

  lemma GoldenClaimIs(s: System, cid: CapId, x: TraceId, key: KeyId, sampleKey: string, toolDay: string, version: string, insertOk: bool)
    ensures var t := Next(s, ClaimGolden(cid, x, key, sampleKey, toolDay, version, insertOk));
      if cid in s.caps || x in s.rows || x in s.slots.active || !GoldenFits(s.slots, sampleKey, toolDay, version) then t == s
      else
        && t.rows == (if insertOk then s.rows[x := Row(key, true, Capturing)] else s.rows)
        && t.caps == s.caps[cid := Cap(x, Slot(cid, key, true, true, sampleKey), false, true, false)]
        && x in t.slots.active && t.slots.active[x].cid == cid && t.jobs == s.jobs
  {
    hide CaptureSlots.GoldenFits;
  }

  // Only the key that opened a trace may upload to it.
  lemma UploadBeginsExactlyWhen(s: System, tid: Tid, x: TraceId, key: KeyId)
    requires tid !in s.jobs
    ensures var t := Next(s, Submit(tid, x, key));
      if x in s.rows && s.rows[x].key == key then t == s.(jobs := s.jobs[tid := Submitting(x, key)]) else t == s
  {
  }

  // A timer expires a trace that is open.
  lemma ExpireIs(s: System, x: TraceId)
    ensures Next(s, Expire(x)) == if Has(s, x, Open) then s.(rows := s.rows[x := s.rows[x].(status := Expired)]) else s
  {
  }

  // Revoking a key revokes its open traces, and no other.
  lemma RevokeIs(s: System, key: KeyId, y: TraceId)
    requires y in s.rows
    ensures var t := Next(s, Revoke(key));
      && t.rows.Keys == s.rows.Keys && t.jobs == s.jobs && t.caps == s.caps
      && t.rows[y] == if s.rows[y].key == key && s.rows[y].status == Open then s.rows[y].(status := Revoked) else s.rows[y]
  {
  }

  // A restart loses every trace that was on its way to the queue, and feeds the recovered ones to it.
  lemma RestartIs(s: System, recovered: map<Tid, TraceId>, y: TraceId)
    requires y in s.rows
    ensures var t := RestartStep(s, recovered);
      && t.rows.Keys == s.rows.Keys && t.caps == map[] && t.slots == NoSlots && t.jobs.Keys == recovered.Keys
      && t.rows[y] == if s.rows[y].status in {Capturing, Open, Reducing} then s.rows[y].(status := Lost) else s.rows[y]
  {
  }

  // A queued trace that the full channel does not take is dropped; one whose status changed meanwhile is not.
  lemma FullChannelDrops(s: System, tid: Tid, x: TraceId)
    requires tid in s.jobs && s.jobs[tid] == Enqueueing(x)
    ensures var t := Next(s, Enqueue(tid, true));
      && t.jobs == s.jobs - {tid} && t.slots == s.slots
      && t.rows == if Has(s, x, Queued) then s.rows[x := s.rows[x].(status := Dropped)] else s.rows
    ensures Next(s, Enqueue(tid, false)) == s.(jobs := s.jobs[tid := InQueue(x)])
  {
  }

  // ---------------------------------------------------------------------------
  // Main results on the order of statuses
  // ---------------------------------------------------------------------------

  // Every claim of x in the run that goes on inserts the row of x.
  ghost predicate ClaimsInsert(s: System, steps: seq<Step>, x: TraceId)
    decreases |steps|
  {
    steps == [] || (Inserts(s, steps[0], x) && ClaimsInsert(Next(s, steps[0]), steps[1..], x))
  }

  function Rank(st: Status): nat {
    match st
    case Capturing => 0
    case Open => 1
    case Reducing => 2
    case Queued => 3
    case _ => 4
  }

  // In every interleaving in which the claims of x insert its row, whatever becomes of other claims,
  // the status of x only moves forward, and a terminal status is never left.
  lemma {:induction false} StatusesMoveForward(s: System, steps: seq<Step>, x: TraceId)
    requires LifeOk(s, x) && ClaimsInsert(s, steps, x) && x in s.rows
    ensures var t := Run(s, steps);
      && x in t.rows
      && (t.rows[x].status == s.rows[x].status || Rank(s.rows[x].status) < Rank(t.rows[x].status))
      && (Terminal(s.rows[x].status) ==> t.rows[x].status == s.rows[x].status)
    decreases |steps|
  {
    hide LifeOk, Next;
    if steps != [] {
      NextKeepsLife(s, steps[0], x);
      StatusesMoveForward(Next(s, steps[0]), steps[1..], x);
    }
  }

  lemma BootedIsOk(rows: map<TraceId, Row>, x: TraceId)
    ensures var s := Booted(rows); OwnersOk(s) && SlotsOk(s.slots) && LifeOk(s, x) && ProcessedOnce(s)
  {
    NoSlotsOk();
    hide SlotsOk;
  }

  // A status is written without a look at the row, and the row is not where the writer left it.
  predicate Misplaced(s: System, step: Step, x: TraceId) {
    && IsJobStep(step) && step.tid in s.jobs && x in s.rows
    && var st := s.rows[x].status;
       match s.jobs[step.tid]
       case Ending(cid, slot, _, aborted) =>
         && step.WriteEnd? && !slot && cid in s.caps && s.caps[cid].trace == x
         && st != Capturing && (if aborted then st != Aborted else st != Queued && st != Failed)
       case Dropping(y) => step.WriteDropped? && y == x && st != Reducing && st != Queued && st != Dropped
       case Consuming(y, _, _) =>
         && step.Finish? && y == x && st != Queued
         && (if step.ok then st != Finished else st != Capturing && st != Failed)
       case _ => false
  }

  lemma RelayForwardExactlyWhen(s: System, step: Step, x: TraceId)
    requires IsJobStep(step) && step.tid in s.jobs && IsRelay(s.jobs[step.tid])
    ensures Forward(s, RelayStep(s, step, step.tid, s.jobs[step.tid]), x) <==> !Misplaced(s, step, x)
  {
    hide CaptureSlots.Released;
  }

  lemma HalfForwardExactlyWhen(s: System, step: Step, x: TraceId)
    requires IsJobStep(step) && step.tid in s.jobs && !IsRelay(s.jobs[step.tid])
    ensures Forward(s, JobStep(s, step, step.tid), x) <==> !Misplaced(s, step, x)
  {
    hide CaptureSlots.WithQueued, CaptureSlots.QueueReleased, CaptureSlots.QueueFits;
  }

  lemma OtherStepForward(s: System, step: Step, x: TraceId)
    requires !IsJobStep(step)
    ensures Forward(s, Next(s, step), x)
  {
    if step.Restart? { NextIsRestart(s, step); }
    hide CaptureSlots.WithTraced, CaptureSlots.WithGolden, CaptureSlots.TracedFits, CaptureSlots.GoldenFits;
  }

  // In any state whatever, a step takes x off the order exactly when it is such a write.
  lemma ForwardExactlyWhen(s: System, step: Step, x: TraceId)
    ensures Forward(s, Next(s, step), x) <==> !Misplaced(s, step, x)
  {
    hide Misplaced, Forward, RelayStep, JobStep;
    if IsJobStep(step) {
      NextIsJobStep(s, step);
      if step.tid !in s.jobs {
        StaysForward(s, x);
        NoJobNoWrite(s, step, x);
      } else if IsRelay(s.jobs[step.tid]) {
        JobIsRelay(s, step);
        RelayForwardExactlyWhen(s, step, x);
      } else {
        HalfForwardExactlyWhen(s, step, x);
      }
    } else {
      OtherStepForward(s, step, x);
      NoJobNoWrite(s, step, x);
    }
  }

  lemma NoJobNoWrite(s: System, step: Step, x: TraceId)
    requires IsJobStep(step) ==> step.tid !in s.jobs
    ensures !Misplaced(s, step, x)
  {
  }

  ghost predicate AllForward(s: System, steps: seq<Step>, x: TraceId)
    decreases |steps|
  {
    steps == [] || (Forward(s, Next(s, steps[0]), x) && AllForward(Next(s, steps[0]), steps[1..], x))
  }

  ghost predicate NoneMisplaced(s: System, steps: seq<Step>, x: TraceId)
    decreases |steps|
  {
    steps == [] || (!Misplaced(s, steps[0], x) && NoneMisplaced(Next(s, steps[0]), steps[1..], x))
  }

  // Main result: which runs keep the order of x at every step, failed inserts included.
  lemma {:induction false} OrderKeptExactlyWhen(s: System, steps: seq<Step>, x: TraceId)
    ensures AllForward(s, steps, x) <==> NoneMisplaced(s, steps, x)
    decreases |steps|
  {
    hide Misplaced, Forward, Next;
    if steps != [] {
      ForwardExactlyWhen(s, steps[0], x);
      OrderKeptExactlyWhen(Next(s, steps[0]), steps[1..], x);
    }
  }

  // A run in which the claims of x insert its row makes no such write, so the two results agree.
  lemma {:induction false} InsertedRunsKeepTheOrder(s: System, steps: seq<Step>, x: TraceId)
    requires LifeOk(s, x) && ClaimsInsert(s, steps, x)
    ensures NoneMisplaced(s, steps, x) && AllForward(s, steps, x)
    decreases |steps|
  {
    hide LifeOk, Misplaced, Forward, Next;
    if steps != [] {
      NextKeepsLife(s, steps[0], x);
      ForwardExactlyWhen(s, steps[0], x);
      InsertedRunsKeepTheOrder(Next(s, steps[0]), steps[1..], x);
    }
  }

  // A claim whose id was looked up before its row came to exist goes on without a row of its own. Sealed
  // with no other actor, an inserted trace ends open; any other has its status overwritten, a terminal
  // one too.
  function ClaimAndSeal(s: System, cid: CapId, tid: Tid, x: TraceId, key: KeyId, trusted: bool, insertOk: bool): System {
    SealAlone(ClaimTracedStep(s, cid, x, key, trusted, insertOk), cid, tid)
  }

  function SealAlone(s: System, cid: CapId, tid: Tid): System {
    if tid in s.jobs || cid !in s.caps then s
    else
      var s1 := StepOf(SealStep(s, tid, cid, Sealing(cid, true), s.caps[cid].held), Commit(tid, true), tid);
      StepOf(StepOf(StepOf(s1, MarkFailed(tid), tid), ReleaseSlot(tid), tid), WriteEnd(tid), tid)
  }

  // Main result on a lone claim: what it leaves of the row of x, in every case. The order of x is
  // kept exactly when x has no row, or has one the final write does not take off the edges.
  lemma StaleClaimOverwrites(s: System, cid: CapId, tid: Tid, x: TraceId, key: KeyId, trusted: bool, insertOk: bool)
    requires cid !in s.caps && tid !in s.jobs && TracedFits(s.slots, x, key, trusted)
    ensures var t := ClaimAndSeal(s, cid, tid, x, key, trusted, insertOk);
      && (x !in s.rows && insertOk ==> Has(t, x, Open))
      && (x !in s.rows && !insertOk ==> t.rows == s.rows)
      && (x in s.rows ==> t.rows == s.rows[x := s.rows[x].(status := if s.rows[x].status == Capturing then Open else Failed)])
    ensures var t := ClaimAndSeal(s, cid, tid, x, key, trusted, insertOk);
      (forall y :: y in s.rows ==> y in t.rows && (t.rows[y].status == s.rows[y].status || Edge(s.rows[y].status, t.rows[y].status)))
      <==> (x in s.rows ==> s.rows[x].status in {Capturing, Queued, Failed})
  {
    LoneClaimRows(s, cid, tid, x, key, trusted, insertOk);
    hide ClaimAndSeal, CaptureSlots.TracedFits;
    OverwriteKeepsOrder(s.rows, ClaimAndSeal(s, cid, tid, x, key, trusted, insertOk).rows, x);
  }

  lemma OverwriteKeepsOrder(rows: map<TraceId, Row>, after: map<TraceId, Row>, x: TraceId)
    requires if x in rows then after == rows[x := rows[x].(status := if rows[x].status == Capturing then Open else Failed)]
      else forall y :: y in rows ==> y in after && after[y] == rows[y]
    ensures (forall y :: y in rows ==> y in after && (after[y].status == rows[y].status || Edge(rows[y].status, after[y].status)))
      <==> (x in rows ==> rows[x].status in {Capturing, Queued, Failed})
  {
    if x in rows && rows[x].status !in {Capturing, Queued, Failed} {
      assert !Edge(rows[x].status, after[x].status);
    }
  }

  lemma LoneClaimRows(s: System, cid: CapId, tid: Tid, x: TraceId, key: KeyId, trusted: bool, insertOk: bool)
    requires cid !in s.caps && tid !in s.jobs && TracedFits(s.slots, x, key, trusted)
    ensures ClaimAndSeal(s, cid, tid, x, key, trusted, insertOk).rows ==
      if x in s.rows then s.rows[x := s.rows[x].(status := if s.rows[x].status == Capturing then Open else Failed)]
      else if insertOk then s.rows[x := Row(key, trusted, Open)]
      else s.rows
  {
    hide CaptureSlots.TracedFits, CaptureSlots.WithTraced, RelayStep, StepOf;
    var s0 := ClaimTracedStep(s, cid, x, key, trusted, insertOk);
    var c := Cap(x, Slot(cid, key, trusted, false, ""), false, true, false);
    assert s0.caps[cid] == c && s0.jobs == s.jobs;
    assert s0.rows == if insertOk && x !in s.rows then s.rows[x := Row(key, trusted, Capturing)] else s.rows;
    var s1 := SealStep(s0, tid, cid, Sealing(cid, true), false);
    assert s1.caps[cid] == c.(sealed := true) && s1.jobs[tid] == Sealing(cid, true) && s1.rows == s0.rows;
    SealedAlone(s1, cid, tid, x);
  }

  lemma SealedAlone(s: System, cid: CapId, tid: Tid, x: TraceId)
    requires cid in s.caps && s.caps[cid].trace == x && !s.caps[cid].slot.golden
    requires tid in s.jobs && s.jobs[tid] == Sealing(cid, true)
    ensures var s1 := StepOf(s, Commit(tid, true), tid);
      var t := StepOf(StepOf(StepOf(s1, MarkFailed(tid), tid), ReleaseSlot(tid), tid), WriteEnd(tid), tid);
      && (Has(s, x, Capturing) ==> t.rows == s.rows[x := s.rows[x].(status := Open)])
      && (x in s.rows && s.rows[x].status != Capturing ==> t.rows == s.rows[x := s.rows[x].(status := Failed)])
      && (x !in s.rows ==> t.rows == s.rows)
  {
    var s1 := StepOf(s, Commit(tid, true), tid);
    if Has(s, x, Capturing) {
      assert s1.jobs[tid] == Committed(cid) && s1.rows == s.rows[x := s.rows[x].(status := Open)];
      CommittedAlone(s1, cid, tid);
    } else {
      assert s1.jobs[tid] == Failing(cid) && s1.rows == s.rows && s1.caps == s.caps;
      FailedAlone(s1, cid, tid, x);
    }
  }

  lemma CommittedAlone(s: System, cid: CapId, tid: Tid)
    requires tid in s.jobs && s.jobs[tid] == Committed(cid)
    ensures StepOf(s, MarkFailed(tid), tid) == s && StepOf(s, ReleaseSlot(tid), tid) == s && StepOf(s, WriteEnd(tid), tid) == s
  {
  }

  lemma FailedAlone(s: System, cid: CapId, tid: Tid, x: TraceId)
    requires cid in s.caps && s.caps[cid].trace == x && tid in s.jobs && s.jobs[tid] == Failing(cid)
    requires !Has(s, x, Capturing)
    ensures StepOf(StepOf(StepOf(s, MarkFailed(tid), tid), ReleaseSlot(tid), tid), WriteEnd(tid), tid).rows ==
      if x in s.rows then s.rows[x := s.rows[x].(status := Failed)] else s.rows
  {
    hide CaptureSlots.Released;
    var s2 := StepOf(s, MarkFailed(tid), tid);
    assert s2.jobs[tid] == Ending(cid, true, false, false) && s2.caps[cid].trace == x && s2.rows == s.rows;
    var s3 := StepOf(s2, ReleaseSlot(tid), tid);
    assert s3.jobs[tid] == Ending(cid, false, false, false) && s3.caps == s2.caps && s3.rows == s.rows;
  }

  lemma FourSteps(s: System, a: Step, b: Step, c: Step, d: Step, rest: seq<Step>)
    ensures Run(s, [a, b, c, d] + rest) == Run(Next(Next(Next(Next(s, a), b), c), d), rest)
  {
    hide Next;
    var steps := [a, b, c, d] + rest;
    assert steps[1..] == [b, c, d] + rest && steps[1..][1..] == [c, d] + rest;
    assert ([c, d] + rest)[1..] == [d] + rest && ([d] + rest)[1..] == rest;
    assert Run(s, steps) == Run(Next(Next(s, a), b), [c, d] + rest);
  }

  // A first claim whose insert fails gives its slot back and still has its end to write.
  lemma FirstClaimFails(x: TraceId, key: KeyId)
    ensures var s := Next(Next(Next(Next(Booted(map[]),
        ClaimTraced(1, x, key, true, false)), Seal(1, 1, true)), Commit(1, true)), MarkFailed(1));
      Next(s, ReleaseSlot(1)) ==
      System(map[], map[1 := Cap(x, Slot(1, key, true, false, ""), true, false, false)], NoSlots,
             map[1 := Ending(1, false, false, false)], [])
  {
    var slot := Slot(1, key, true, false, "");
    SlotComesBack(x, key);
    hide CaptureSlots.TracedFits, CaptureSlots.WithTraced, CaptureSlots.Released;
    var s1 := Next(Booted(map[]), ClaimTraced(1, x, key, true, false));
    var slots := WithTraced(NoSlots, x, 1, key, true);
    assert s1 == System(map[], map[1 := Cap(x, slot, false, true, false)], slots, map[], []);
    var s2 := Next(s1, Seal(1, 1, true));
    assert s2 == System(map[], map[1 := Cap(x, slot, true, true, false)], slots, map[1 := Sealing(1, true)], []);
    var s3 := Next(s2, Commit(1, true));
    assert s3 == s2.(jobs := map[1 := Failing(1)]);
    var s4 := Next(s3, MarkFailed(1));
    assert s4 == System(map[], map[1 := Cap(x, slot, true, false, false)], slots, map[1 := Ending(1, true, false, false)], []);
    hide RelayStep;
    assert Next(s4, ReleaseSlot(1)) == ReleaseStep(s4, 1, s4.jobs[1]) by { ReleaseIsNext(s4, 1); }
  }

  lemma ReleaseIsNext(s: System, tid: Tid)
    requires tid in s.jobs && s.jobs[tid].Ending? && s.jobs[tid].slot && s.jobs[tid].cid in s.caps
    ensures Next(s, ReleaseSlot(tid)) == ReleaseStep(s, tid, s.jobs[tid])
  {
  }

  lemma SlotComesBack(x: TraceId, key: KeyId)
    ensures TracedFits(NoSlots, x, key, true)
    ensures CaptureSlots.Released(WithTraced(NoSlots, x, 1, key, true), x, Slot(1, key, true, false, ""), false) == NoSlots
  {
  }

  // A second claim of x opens it while the first one's end is still to be written.
  lemma SecondClaimOpens(s: System, x: TraceId, key: KeyId)
    requires s == System(map[], map[1 := Cap(x, Slot(1, key, true, false, ""), true, false, false)], NoSlots,
                         map[1 := Ending(1, false, false, false)], [])
    ensures var t := Next(Next(Next(s, ClaimTraced(2, x, key, true, true)), Seal(2, 2, true)), Commit(2, true));
      && Has(t, x, Open) && 1 in t.jobs && t.jobs[1] == Ending(1, false, false, false)
      && 1 in t.caps && t.caps[1] == s.caps[1]
  {
    var slots := WithTraced(NoSlots, x, 2, key, true);
    var cap := Cap(x, Slot(2, key, true, false, ""), false, true, false);
    var s1 := Next(s, ClaimTraced(2, x, key, true, true));
    assert s1 == System(map[x := Row(key, true, Capturing)], s.caps[2 := cap], slots, s.jobs, []);
    var s2 := Next(s1, Seal(2, 2, true));
    assert s2 == s1.(caps := s1.caps[2 := cap.(sealed := true)], jobs := s1.jobs[2 := Sealing(2, true)]);
  }

  // A run that breaks the order of x: the insert of a first claim fails; its end is still to be
  // written when a second claim of x has inserted the row and opened it.
  lemma FailedInsertBreaksTheOrder(x: TraceId, key: KeyId)
    ensures var before := Run(Booted(map[]), [
        ClaimTraced(1, x, key, true, false), Seal(1, 1, true), Commit(1, true), MarkFailed(1),
        ReleaseSlot(1), ClaimTraced(2, x, key, true, true), Seal(2, 2, true), Commit(2, true)]);
      Has(before, x, Open) && Misplaced(before, WriteEnd(1), x) && Has(Next(before, WriteEnd(1)), x, Failed)
  {
    var s := Booted(map[]);
    var a, b, c, d := ClaimTraced(1, x, key, true, false), Seal(1, 1, true), Commit(1, true), MarkFailed(1);
    var e, f, g, h := ReleaseSlot(1), ClaimTraced(2, x, key, true, true), Seal(2, 2, true), Commit(2, true);
    FourSteps(s, a, b, c, d, [e, f, g, h]);
    assert [a, b, c, d] + [e, f, g, h] == [a, b, c, d, e, f, g, h];
    FirstClaimFails(x, key);
    var s4 := Next(Next(Next(Next(s, a), b), c), d);
    FourSteps(s4, e, f, g, h, []);
    assert [e, f, g, h] + [] == [e, f, g, h];
    SecondClaimOpens(Next(s4, e), x, key);
    var before := Next(Next(Next(Next(s4, e), f), g), h);
    EndIsWritten(before, x);
  }

  lemma EndIsWritten(s: System, x: TraceId)
    requires Has(s, x, Open) && 1 in s.jobs && s.jobs[1] == Ending(1, false, false, false)
    requires 1 in s.caps && s.caps[1].trace == x
    ensures Misplaced(s, WriteEnd(1), x) && Has(Next(s, WriteEnd(1)), x, Failed)
  {
  }
}
