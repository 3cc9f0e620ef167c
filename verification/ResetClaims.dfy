/**
 The reset-claim protocol: a claim spends a scarce credit and its outcome may stay
 unknown. A step is one critical section, or one call out of the process, of the
 handler; steps of different claims interleave.
 */
module ResetClaims {
  import opened Options
  import opened ResetTables

  // ---------------------------------------------------------------------------
  // Interleaved claims
  // ---------------------------------------------------------------------------

  type Tid = nat

  // Where a claim stands in the handler; the connection lock is held throughout.
  datatype Stage = Locked | Checked | HasRead | Ready | Sent | Leaving

  datatype Claim = Claim(
    conn: ConnId, resetId: string, requestId: string,
    now: int,                      // the instant sampled just after the lock
    stage: Stage,
    prior: Option<UnknownEntry>,   // the unknown entry the check found
    row: Option<Row>)              // the targeted row of the fresh read

  // What the history of a run records.
  datatype Event =
    | EvRead(conn: ConnId, resetId: string, row: Option<Row>)
    | EvSend(conn: ConnId, resetId: string, requestId: string, at: int)
    | EvUnknown(conn: ConnId, resetId: string, requestId: string, at: int)
    | EvDone(conn: ConnId, resetId: string, requestId: string, outcome: Outcome, left: int, at: int)

  datatype System = System(
    clock: int,
    tables: Tables,
    locks: set<ConnId>,
    claims: map<Tid, Claim>,
    history: seq<Event>)

  const Start := System(0, Tables(map[], map[], map[]), {}, map[], [])

  datatype Step =
    | Tick(elapsed: nat)
    | TryLock(tid: Tid, conn: ConnId, resetId: string, requestId: string)
    | Check(tid: Tid)
    | FreshRead(tid: Tid, ok: bool, row: Option<Row>)
    | Settle(tid: Tid)
    | Send(tid: Tid, tokenOk: bool)
    | Record(tid: Tid, outcome: Outcome)
    | Unlock(tid: Tid)

  predicate At(s: System, tid: Tid, stage: Stage) {
    tid in s.claims && s.claims[tid].stage == stage
  }

  function Move(s: System, tid: Tid, stage: Stage): System
    requires tid in s.claims
  {
    s.(claims := s.claims[tid := s.claims[tid].(stage := stage)])
  }

  function Log(s: System, e: Event): System {
    s.(history := s.history + [e])
  }

  function CheckStep(s: System, tid: Tid): System
    requires At(s, tid, Locked)
  {
    var c := s.claims[tid];
    var v := CheckVerdict(s.tables, Key(c.conn, c.resetId), Key(c.conn, c.requestId), c.requestId, c.now);
    var s1 := s.(tables := s.tables.(done := Unexpired(s.tables.done, c.now)));
    if v.Proceed? then Move(s1.(claims := s1.claims[tid := c.(prior := v.prior)]), tid, Checked)
    else Move(s1, tid, Leaving)
  }

  function ReadStep(s: System, tid: Tid, ok: bool, row: Option<Row>): System
    requires At(s, tid, Checked)
  {
    if !ok then Move(s, tid, Leaving)
    else
      var c := s.claims[tid].(row := row, stage := HasRead);
      Log(s.(claims := s.claims[tid := c]), EvRead(c.conn, c.resetId, row))
  }

  // Either the likely-spent rule settles a retry, or the hold table is checked.
  function SettleStep(s: System, tid: Tid): System
    requires At(s, tid, HasRead)
  {
    var c := s.claims[tid];
    var resetKey := Key(c.conn, c.resetId);
    if IsLikelySpent(c.prior, c.row) then
      var t := AfterRecord(s.tables, resetKey, Key(c.conn, c.requestId), c.requestId, 0, LikelySpent, s.clock);
      Log(Move(s.(tables := t), tid, Leaving), EvDone(c.conn, c.resetId, c.requestId, LikelySpent, 0, s.clock))
    else
      var s1 := s.(tables := AfterHoldCheck(s.tables, resetKey, c.row, s.clock));
      if HoldBlocks(s.tables, resetKey, c.row, s.clock) || c.row.None? || !c.row.value.usable then Move(s1, tid, Leaving)
      else Move(s1, tid, Ready)
  }

  function SendStep(s: System, tid: Tid, tokenOk: bool): System
    requires At(s, tid, Ready)
  {
    var c := s.claims[tid];
    if tokenOk then Log(Move(s, tid, Sent), EvSend(c.conn, c.resetId, c.requestId, s.clock))
    else Move(s, tid, Leaving)
  }

  function RecordStep(s: System, tid: Tid, o: Outcome): System
    requires At(s, tid, Sent)
  {
    var c := s.claims[tid];
    var left := if c.row.Some? then c.row.value.left else 0;
    var t := AfterRecord(s.tables, Key(c.conn, c.resetId), Key(c.conn, c.requestId), c.requestId, left, o, s.clock);
    var s1 := Move(s.(tables := t), tid, Leaving);
    if Settles(o) then Log(s1, EvDone(c.conn, c.resetId, c.requestId, o, left, s.clock))
    else if o == Unknown then Log(s1, EvUnknown(c.conn, c.resetId, c.requestId, s.clock))
    else s1
  }

  // One step; a step that is not enabled changes nothing.
  function Next(s: System, step: Step): System {
    match step
    case Tick(d) => s.(clock := s.clock + d)
    case TryLock(tid, conn, resetId, requestId) =>
      if tid in s.claims || conn in s.locks then s
      else s.(locks := s.locks + {conn},
              claims := s.claims[tid := Claim(conn, resetId, requestId, s.clock, Locked, None, None)])
    case Check(tid) => if At(s, tid, Locked) then CheckStep(s, tid) else s
    case FreshRead(tid, ok, row) => if At(s, tid, Checked) then ReadStep(s, tid, ok, row) else s
    case Settle(tid) => if At(s, tid, HasRead) then SettleStep(s, tid) else s
    case Send(tid, tokenOk) => if At(s, tid, Ready) then SendStep(s, tid, tokenOk) else s
    case Record(tid, o) => if At(s, tid, Sent) && o != LikelySpent then RecordStep(s, tid, o) else s
    case Unlock(tid) =>
      if At(s, tid, Leaving) then
        s.(locks := s.locks - {s.claims[tid].conn}, claims := s.claims - {tid})
      else s
  }

  function Run(s: System, steps: seq<Step>): System
    decreases |steps|
  {
    if steps == [] then s else Run(Next(s, steps[0]), steps[1..])
  }

  // ---------------------------------------------------------------------------
  // What every run keeps
  // ---------------------------------------------------------------------------

  // A claim is past the check and has not settled: its view of the tables is current.
  predicate Active(c: Claim) {
    c.stage == Checked || c.stage == HasRead || c.stage == Ready || c.stage == Sent
  }

  ghost predicate LocksHeld(s: System) {
    && (forall tid :: tid in s.claims ==> s.claims[tid].conn in s.locks && s.claims[tid].now <= s.clock)
    && (forall a, b :: a in s.claims && b in s.claims && s.claims[a].conn == s.claims[b].conn ==> a == b)
  }

  // What the check, and for a claim about to send the hold check, established.
  predicate ViewOf(t: Tables, c: Claim) {
    var resetKey := Key(c.conn, c.resetId);
    && Key(c.conn, c.requestId) !in t.done
    && (resetKey in t.unknown ==>
        && c.prior == Some(t.unknown[resetKey])
        && t.unknown[resetKey].requestId == c.requestId
        && t.unknown[resetKey].at + CLAIM_WAIT <= c.now)
    && (resetKey !in t.unknown ==> c.prior.None?)
    && (c.stage == Ready ==> resetKey !in t.hold)
  }

  ghost predicate ViewsCurrent(s: System) {
    forall tid :: tid in s.claims && Active(s.claims[tid]) ==> ViewOf(s.tables, s.claims[tid])
  }

  ghost predicate SettledIn(h: seq<Event>, i: int, j: int, conn: ConnId, resetId: string, requestId: string) {
    exists k :: i < k < j && k < |h| && 0 <= k && h[k].EvDone? &&
      h[k].conn == conn && h[k].resetId == resetId && h[k].requestId == requestId
  }

  ghost predicate LowerReadIn(h: seq<Event>, i: int, j: int, conn: ConnId, resetId: string, left: int) {
    exists k :: i < k < j && k < |h| && 0 <= k && h[k].EvRead? &&
      h[k].conn == conn && h[k].resetId == resetId && h[k].row.Some? && h[k].row.value.left < left
  }

  ghost predicate IsReset(e: Event, conn: ConnId, resetId: string) {
    e.EvDone? && e.outcome == Reset && e.conn == conn && e.resetId == resetId
  }

  ghost predicate NoResetIn(h: seq<Event>, i: int, j: int, conn: ConnId, resetId: string) {
    forall k :: i < k < j && k < |h| && 0 <= k ==> !IsReset(h[k], conn, resetId)
  }

  // An unknown outcome stays in the table until its id is settled.
  ghost predicate UnknownTracked(s: System, i: nat)
    requires i < |s.history|
  {
    var e := s.history[i];
    e.EvUnknown? ==>
      && e.at <= s.clock
      && (|| SettledIn(s.history, i, |s.history|, e.conn, e.resetId, e.requestId)
          || (var k := Key(e.conn, e.resetId);
              k in s.tables.unknown && s.tables.unknown[k].requestId == e.requestId && s.tables.unknown[k].at >= e.at))
  }

  ghost predicate DoneTracked(s: System, i: nat)
    requires i < |s.history|
  {
    var e := s.history[i];
    e.EvDone? ==>
      && e.at <= s.clock
      && (|| s.clock - e.at > DONE_TTL
          || (var k := Key(e.conn, e.requestId); k in s.tables.done && s.tables.done[k].at >= e.at))
  }

  ghost predicate HoldTracked(s: System, i: nat)
    requires i < |s.history|
  {
    var e := s.history[i];
    e.EvDone? && e.outcome == Reset && NoResetIn(s.history, i, |s.history|, e.conn, e.resetId) ==>
      || s.clock - e.at >= CLAIM_WAIT
      || LowerReadIn(s.history, i, |s.history|, e.conn, e.resetId, e.left)
      || (var k := Key(e.conn, e.resetId); k in s.tables.hold && s.tables.hold[k] == HoldEntry(e.left, e.at))
  }

  ghost predicate LastEventOf(h: seq<Event>, k: int, e: Event) {
    0 <= k < |h| && h[k] == e && forall m :: k < m < |h| ==> h[m].conn != e.conn
  }

  // The row a claim read is the last event of its connection.
  ghost predicate ReadLogged(s: System) {
    forall tid :: tid in s.claims && s.claims[tid].stage == HasRead ==>
      var c := s.claims[tid];
      exists k :: LastEventOf(s.history, k, EvRead(c.conn, c.resetId, c.row))
  }

  ghost predicate Tracked(s: System) {
    forall i: nat :: i < |s.history| ==> UnknownTracked(s, i) && DoneTracked(s, i) && HoldTracked(s, i)
  }

  // ---------------------------------------------------------------------------
  // The safety of a history: what the protocol is for
  // ---------------------------------------------------------------------------

  // A send after an unknown outcome repeats its id at least 60 s later, or the id settled in between.
  ghost predicate RetrySafe(h: seq<Event>, i: nat, j: nat)
    requires i < j < |h|
  {
    h[i].EvUnknown? && h[j].EvSend? && h[i].conn == h[j].conn && h[i].resetId == h[j].resetId ==>
      || SettledIn(h, i, j, h[i].conn, h[i].resetId, h[i].requestId)
      || (h[j].requestId == h[i].requestId && h[j].at >= h[i].at + CLAIM_WAIT)
  }

  // A settled id is not sent again within 15 minutes.
  ghost predicate DoneSafe(h: seq<Event>, i: nat, j: nat)
    requires i < j < |h|
  {
    h[i].EvDone? && h[j].EvSend? && h[i].conn == h[j].conn && h[i].requestId == h[j].requestId ==>
      h[j].at - h[i].at > DONE_TTL
  }

  // After a reset, the same reset is sent again only after 60 s, or once a fresh read showed fewer left.
  ghost predicate HoldSafe(h: seq<Event>, i: nat, j: nat)
    requires i < j < |h|
  {
    h[i].EvDone? && h[i].outcome == Reset && h[j].EvSend? && h[i].conn == h[j].conn && h[i].resetId == h[j].resetId &&
    NoResetIn(h, i, j, h[i].conn, h[i].resetId) ==>
      || h[j].at - h[i].at >= CLAIM_WAIT
      || LowerReadIn(h, i, j, h[i].conn, h[i].resetId, h[i].left)
  }

  ghost predicate Safe(h: seq<Event>) {
    forall i: nat, j: nat :: i < j < |h| ==> RetrySafe(h, i, j) && DoneSafe(h, i, j) && HoldSafe(h, i, j)
  }

  ghost predicate Inv(s: System) {
    LocksHeld(s) && ViewsCurrent(s) && ReadLogged(s) && Tracked(s) && Safe(s.history)
  }

  lemma NextKeepsLocks(s: System, step: Step)
    requires LocksHeld(s)
    ensures LocksHeld(Next(s, step))
  {
  }

  lemma RecordFrames(t: Tables, conn: ConnId, resetId: string, requestId: string, left: int, o: Outcome, now: int, c: Claim)
    requires ViewOf(t, c) && c.conn != conn
    ensures ViewOf(AfterRecord(t, Key(conn, resetId), Key(conn, requestId), requestId, left, o, now), c)
  {
    forall id1, id2 ensures Key(conn, id1) != Key(c.conn, id2) {
      if Key(conn, id1) == Key(c.conn, id2) { KeyInjective(conn, id1, c.conn, id2); }
    }
  }

  // The claims but one are as they were, and on other connections.
  predicate OthersKept(s: System, t: System, tid: Tid) {
    && tid in s.claims
    && forall o :: o in t.claims && o != tid ==>
        o in s.claims && t.claims[o] == s.claims[o] && s.claims[o].conn != s.claims[tid].conn
  }

  lemma CheckKeepsViews(s: System, tid: Tid)
    requires LocksHeld(s) && ViewsCurrent(s) && At(s, tid, Locked)
    ensures ViewsCurrent(CheckStep(s, tid))
  {
  }

  lemma RecordKeepsViews(s: System, t: System, tid: Tid, left: int, o: Outcome)
    requires ViewsCurrent(s) && OthersKept(s, t, tid) && (tid in t.claims ==> !Active(t.claims[tid]))
    requires var c := s.claims[tid];
      t.tables == AfterRecord(s.tables, Key(c.conn, c.resetId), Key(c.conn, c.requestId), c.requestId, left, o, s.clock)
    ensures ViewsCurrent(t)
  {
    hide Key, AfterRecord, ViewOf;
    var c := s.claims[tid];
    forall x | x in t.claims && Active(t.claims[x]) ensures ViewOf(t.tables, t.claims[x]) {
      assert x != tid && ViewOf(s.tables, s.claims[x]);
      RecordFrames(s.tables, c.conn, c.resetId, c.requestId, left, o, s.clock, s.claims[x]);
    }
  }

  lemma SettleKeepsViews(s: System, tid: Tid)
    requires LocksHeld(s) && ViewsCurrent(s) && At(s, tid, HasRead)
    ensures ViewsCurrent(SettleStep(s, tid))
  {
    var c := s.claims[tid];
    if IsLikelySpent(c.prior, c.row) {
      RecordKeepsViews(s, SettleStep(s, tid), tid, 0, LikelySpent);
    } else {
      assert ViewOf(s.tables, c);
    }
  }

  // Steps that leave the tables alone.
  lemma SameTablesKeepViews(s: System, step: Step)
    requires LocksHeld(s) && ViewsCurrent(s) && !step.Check? && !step.Settle? && !step.Record?
    ensures ViewsCurrent(Next(s, step))
  {
  }

  lemma NextKeepsViews(s: System, step: Step)
    requires LocksHeld(s) && ViewsCurrent(s)
    ensures ViewsCurrent(Next(s, step))
  {
    match step
    case Check(tid) => if At(s, tid, Locked) { CheckKeepsViews(s, tid); }
    case Settle(tid) => if At(s, tid, HasRead) { SettleKeepsViews(s, tid); }
    case Record(tid, o) =>
      if At(s, tid, Sent) && o != LikelySpent {
        var c := s.claims[tid];
        RecordKeepsViews(s, RecordStep(s, tid, o), tid, if c.row.Some? then c.row.value.left else 0, o);
      }
    case _ => SameTablesKeepViews(s, step);
  }

  lemma NextKeepsReads(s: System, step: Step)
    requires LocksHeld(s) && ReadLogged(s)
    ensures ReadLogged(Next(s, step))
  {
    var t := Next(s, step);
    forall tid | tid in t.claims && t.claims[tid].stage == HasRead
      ensures var c := t.claims[tid]; exists k :: LastEventOf(t.history, k, EvRead(c.conn, c.resetId, c.row))
    {
      var c := t.claims[tid];
      if tid in s.claims && s.claims[tid].stage == HasRead {
        var k :| LastEventOf(s.history, k, EvRead(c.conn, c.resetId, c.row));
        assert LastEventOf(t.history, k, EvRead(c.conn, c.resetId, c.row));
      } else {
        assert LastEventOf(t.history, |s.history|, EvRead(c.conn, c.resetId, c.row));
      }
    }
  }

  lemma NextExtendsHistory(s: System, step: Step)
    ensures var h, h' := s.history, Next(s, step).history;
            h' == h || (|h'| == |h| + 1 && h' == h + [h'[|h|]])
  {
  }

  lemma SettledStays(h: seq<Event>, e: Event, i: int, conn: ConnId, resetId: string, requestId: string)
    requires SettledIn(h, i, |h|, conn, resetId, requestId)
    ensures SettledIn(h + [e], i, |h|, conn, resetId, requestId)
    ensures SettledIn(h + [e], i, |h| + 1, conn, resetId, requestId)
  {
    var k :| i < k < |h| && 0 <= k && h[k].EvDone? && h[k].conn == conn && h[k].resetId == resetId && h[k].requestId == requestId;
    assert (h + [e])[k] == h[k];
  }

  lemma LowerReadStays(h: seq<Event>, e: Event, i: int, conn: ConnId, resetId: string, left: int)
    requires LowerReadIn(h, i, |h|, conn, resetId, left)
    ensures LowerReadIn(h + [e], i, |h|, conn, resetId, left)
    ensures LowerReadIn(h + [e], i, |h| + 1, conn, resetId, left)
  {
    var k :| i < k < |h| && 0 <= k && h[k].EvRead? && h[k].conn == conn && h[k].resetId == resetId &&
      h[k].row.Some? && h[k].row.value.left < left;
    assert (h + [e])[k] == h[k];
  }

  lemma NextTracksUnknown(s: System, step: Step, i: nat)
    requires LocksHeld(s) && ViewsCurrent(s) && i < |s.history| && UnknownTracked(s, i)
    ensures UnknownTracked(Next(s, step), i)
  {
    var t := Next(s, step);
    NextExtendsHistory(s, step);
    var e := s.history[i];
    if e.EvUnknown? {
      if SettledIn(s.history, i, |s.history|, e.conn, e.resetId, e.requestId) {
        if t.history != s.history {
          SettledStays(s.history, t.history[|s.history|], i, e.conn, e.resetId, e.requestId);
        }
      } else if step.Settle? || step.Record? {
        if step.tid in s.claims {
          var c := s.claims[step.tid];
          if Key(c.conn, c.resetId) == Key(e.conn, e.resetId) {
            KeyInjective(c.conn, c.resetId, e.conn, e.resetId);
          }
        }
      }
    }
  }

  lemma NextTracksDone(s: System, step: Step, i: nat)
    requires LocksHeld(s) && i < |s.history| && DoneTracked(s, i)
    ensures DoneTracked(Next(s, step), i)
  {
  }

  lemma NextTracksHold(s: System, step: Step, i: nat)
    requires LocksHeld(s) && ReadLogged(s) && i < |s.history| && DoneTracked(s, i) && HoldTracked(s, i)
    ensures HoldTracked(Next(s, step), i)
  {
    var t := Next(s, step);
    NextExtendsHistory(s, step);
    var e := s.history[i];
    if e.EvDone? && e.outcome == Reset && NoResetIn(t.history, i, |t.history|, e.conn, e.resetId) {
      assert NoResetIn(s.history, i, |s.history|, e.conn, e.resetId) by {
        forall k | i < k < |s.history| ensures !IsReset(s.history[k], e.conn, e.resetId) {
          assert t.history[k] == s.history[k];
        }
      }
      if LowerReadIn(s.history, i, |s.history|, e.conn, e.resetId, e.left) {
        if t.history != s.history {
          LowerReadStays(s.history, t.history[|s.history|], i, e.conn, e.resetId, e.left);
        }
      } else if step.Settle? || step.Record? {
        if step.tid in s.claims {
          var c := s.claims[step.tid];
          if Key(c.conn, c.resetId) == Key(e.conn, e.resetId) {
            KeyInjective(c.conn, c.resetId, e.conn, e.resetId);
            if c.stage == HasRead {
              var k :| LastEventOf(s.history, k, EvRead(c.conn, c.resetId, c.row));
              assert i <= k;
            }
            if t.history != s.history {
              assert t.history[|s.history|].conn == c.conn;
            }
          }
        }
      }
    }
  }

  lemma NextTracks(s: System, step: Step)
    requires LocksHeld(s) && ViewsCurrent(s) && ReadLogged(s) && Tracked(s)
    ensures Tracked(Next(s, step))
  {
    var t := Next(s, step);
    NextExtendsHistory(s, step);
    forall i: nat | i < |t.history| ensures UnknownTracked(t, i) && DoneTracked(t, i) && HoldTracked(t, i) {
      if i < |s.history| {
        NextTracksUnknown(s, step, i);
        NextTracksDone(s, step, i);
        NextTracksHold(s, step, i);
      }
    }
  }

  lemma NextKeepsSafe(s: System, step: Step)
    requires Inv(s)
    ensures Safe(Next(s, step).history)
  {
    var t := Next(s, step);
    var h, n := t.history, |s.history|;
    NextExtendsHistory(s, step);
    forall i: nat, j: nat | i < j < |h| ensures RetrySafe(h, i, j) && DoneSafe(h, i, j) && HoldSafe(h, i, j) {
      if j < n {
        assert RetrySafe(s.history, i, j) && DoneSafe(s.history, i, j) && HoldSafe(s.history, i, j);
        PrefixSafe(s.history, h, i, j);
      } else if h[j].EvSend? {
        SendSafe(s, step, i);
      }
    }
  }

  // Safety of two events depends only on the events up to the later one.
  lemma PrefixSafe(h: seq<Event>, g: seq<Event>, i: nat, j: nat)
    requires i < j < |h| && h <= g
    requires RetrySafe(h, i, j) && DoneSafe(h, i, j) && HoldSafe(h, i, j)
    ensures RetrySafe(g, i, j) && DoneSafe(g, i, j) && HoldSafe(g, i, j)
  {
    var e := h[i];
    assert forall k | 0 <= k < |h| :: g[k] == h[k];
    if e.EvDone? {
      if NoResetIn(g, i, j, e.conn, e.resetId) {
        assert NoResetIn(h, i, j, e.conn, e.resetId);
      }
      if LowerReadIn(h, i, j, e.conn, e.resetId, e.left) {
        assert LowerReadIn(g, i, j, e.conn, e.resetId, e.left);
      }
    }
    if e.EvUnknown? && SettledIn(h, i, j, e.conn, e.resetId, e.requestId) {
      assert SettledIn(g, i, j, e.conn, e.resetId, e.requestId);
    }
  }

  // The one step that sends: its claim's view of the tables covers every earlier event.
  lemma SendSafe(s: System, step: Step, i: nat)
    requires Inv(s) && i < |s.history|
    requires |Next(s, step).history| == |s.history| + 1 && Next(s, step).history[|s.history|].EvSend?
    ensures var h := Next(s, step).history;
            RetrySafe(h, i, |s.history|) && DoneSafe(h, i, |s.history|) && HoldSafe(h, i, |s.history|)
  {
    var t := Next(s, step);
    var h, n := t.history, |s.history|;
    var c := s.claims[step.tid];
    var e := s.history[i];
    assert h == s.history + [EvSend(c.conn, c.resetId, c.requestId, s.clock)];
    assert ViewOf(s.tables, c) && UnknownTracked(s, i) && DoneTracked(s, i) && HoldTracked(s, i);
    assert h[i] == e;
    if e.EvUnknown? && SettledIn(s.history, i, n, e.conn, e.resetId, e.requestId) {
      SettledStays(s.history, h[n], i, e.conn, e.resetId, e.requestId);
    }
    if e.EvDone? && NoResetIn(h, i, n, e.conn, e.resetId) {
      assert NoResetIn(s.history, i, n, e.conn, e.resetId) by {
        assert forall k | 0 <= k < n :: h[k] == s.history[k];
      }
      if LowerReadIn(s.history, i, n, e.conn, e.resetId, e.left) {
        LowerReadStays(s.history, h[n], i, e.conn, e.resetId, e.left);
      }
    }
  }

  lemma {:induction false} RunKeepsInv(s: System, steps: seq<Step>)
    requires Inv(s)
    ensures Inv(Run(s, steps))
    decreases |steps|
  {
    if steps != [] {
      NextKeepsLocks(s, steps[0]);
      NextKeepsViews(s, steps[0]);
      NextKeepsReads(s, steps[0]);
      NextTracks(s, steps[0]);
      NextKeepsSafe(s, steps[0]);
      RunKeepsInv(Next(s, steps[0]), steps[1..]);
    }
  }

  // Main result: the history of every run of interleaved claims is safe.
  lemma EveryRunIsSafe(steps: seq<Step>)
    ensures Safe(Run(Start, steps).history)
  {
    RunKeepsInv(Start, steps);
  }

  // At most one claim of a connection is in flight, in every reachable state.
  lemma OneClaimPerConnection(steps: seq<Step>, a: Tid, b: Tid)
    requires a in Run(Start, steps).claims && b in Run(Start, steps).claims
    requires Run(Start, steps).claims[a].conn == Run(Start, steps).claims[b].conn
    ensures a == b
  {
    RunKeepsInv(Start, steps);
  }

  lemma LoneCheck(s: System, tid: Tid, conn: ConnId, resetId: string, requestId: string)
    requires tid !in s.claims && conn !in s.locks
    ensures
      var t := Next(Next(s, TryLock(tid, conn, resetId, requestId)), Check(tid));
      var resetKey, reqKey := Key(conn, resetId), Key(conn, requestId);
      && t.history == s.history && t.clock == s.clock
      && t.tables.unknown == s.tables.unknown && t.tables.hold == s.tables.hold
      && tid in t.claims && (t.claims[tid].stage == Checked || t.claims[tid].stage == Leaving)
      && (t.claims[tid].stage == Checked <==>
            && (reqKey in s.tables.done ==> s.clock - s.tables.done[reqKey].at > DONE_TTL)
            && (resetKey in s.tables.unknown ==>
                  s.tables.unknown[resetKey].requestId == requestId && s.clock - s.tables.unknown[resetKey].at >= CLAIM_WAIT))
      && (t.claims[tid].stage == Checked ==>
            t.claims[tid] == Claim(conn, resetId, requestId, s.clock, Checked,
              if resetKey in s.tables.unknown then Some(s.tables.unknown[resetKey]) else None, None))
  {
  }

  // The converse of safety: a claim that meets no other is sent exactly when its id has not settled in
  // the last 15 minutes, no other id is pending, a retry is due and not likely spent, the hold is over,
  // and the fresh row is usable.
  lemma LoneClaimSendsExactlyWhen(s: System, tid: Tid, conn: ConnId, resetId: string, requestId: string, row: Option<Row>)
    requires tid !in s.claims && conn !in s.locks
    ensures
      var s1 := Next(Next(s, TryLock(tid, conn, resetId, requestId)), Check(tid));
      var s2 := Next(Next(Next(s1, FreshRead(tid, true, row)), Settle(tid)), Send(tid, true));
      var resetKey, reqKey := Key(conn, resetId), Key(conn, requestId);
      s2.history == s.history + [EvRead(conn, resetId, row), EvSend(conn, resetId, requestId, s.clock)] <==>
        && (reqKey in s.tables.done ==> s.clock - s.tables.done[reqKey].at > DONE_TTL)
        && (resetKey in s.tables.unknown ==>
              var ue := s.tables.unknown[resetKey];
              && ue.requestId == requestId
              && s.clock - ue.at >= CLAIM_WAIT
              && (row.Some? && row.value.left < ue.left ==> row.value.weekly && !row.value.hasNextAt))
        && (resetKey in s.tables.hold ==>
              || s.clock - s.tables.hold[resetKey].at >= CLAIM_WAIT
              || (row.Some? && row.value.left < s.tables.hold[resetKey].left))
        && row.Some? && row.value.usable
  {
    LoneCheck(s, tid, conn, resetId, requestId);
    var s1 := Next(Next(s, TryLock(tid, conn, resetId, requestId)), Check(tid));
    if s1.claims[tid].stage == Checked {
      LoneSettle(s1, tid, row);
    } else {
      assert Next(Next(Next(s1, FreshRead(tid, true, row)), Settle(tid)), Send(tid, true)) == s1;
      assert |s1.history| == |s.history|;
    }
  }

  lemma LoneSettle(s: System, tid: Tid, row: Option<Row>)
    requires At(s, tid, Checked)
    ensures
      var c := s.claims[tid];
      var t := Next(Next(Next(s, FreshRead(tid, true, row)), Settle(tid)), Send(tid, true));
      t.history == s.history + [EvRead(c.conn, c.resetId, row), EvSend(c.conn, c.resetId, c.requestId, s.clock)] <==>
        && !IsLikelySpent(c.prior, row)
        && !HoldBlocks(s.tables, Key(c.conn, c.resetId), row, s.clock)
        && row.Some? && row.value.usable
  {
    var c := s.claims[tid];
    var s1 := Next(s, FreshRead(tid, true, row));
    var s2 := Next(s1, Settle(tid));
    var soFar := s.history + [EvRead(c.conn, c.resetId, row)];
    assert s1.history == soFar;
    if At(s2, tid, Ready) {
      assert s2.history == soFar;
      assert soFar + [EvSend(c.conn, c.resetId, c.requestId, s.clock)] ==
        s.history + [EvRead(c.conn, c.resetId, row), EvSend(c.conn, c.resetId, c.requestId, s.clock)];
    } else {
      assert Next(s2, Send(tid, true)) == s2;
      if |s2.history| == |s.history| + 2 {
        assert s2.history[|s.history| + 1].EvDone?;
      }
    }
  }
}
