/**
 What the tables of the reset-claim protocol remember, said of the history of a run
 alone: the pending unknown outcome of a reset with what its claim read, and the
 ids that settled. From it, when a retry is sent and when it settles as spent.
 */
module ResetHistory {
  import opened Options
  import opened ResetTables
  import opened ResetClaims

  // ---------------------------------------------------------------------------
  // What a history says
  // ---------------------------------------------------------------------------

  // The last read made for a connection.
  function LastRead(h: seq<Event>, conn: ConnId): Option<Event> {
    if h == [] then None
    else
      var e := h[|h| - 1];
      if e.EvRead? && e.conn == conn then Some(e) else LastRead(h[..|h| - 1], conn)
  }

  // The last event of a connection.
  function LastOf(h: seq<Event>, conn: ConnId): Option<Event> {
    if h == [] then None
    else if h[|h| - 1].conn == conn then Some(h[|h| - 1])
    else LastOf(h[..|h| - 1], conn)
  }

  // What that read showed left.
  function LeftRead(h: seq<Event>, conn: ConnId): int {
    var e := LastRead(h, conn);
    if e.Some? && e.value.EvRead? && e.value.row.Some? then e.value.row.value.left else 0
  }

  predicate Concerns(e: Event, conn: ConnId, resetId: string) {
    (e.EvUnknown? || e.EvDone?) && e.conn == conn && e.resetId == resetId
  }

  // The unknown outcome of a reset that nothing settled or replaced.
  function Pending(h: seq<Event>, conn: ConnId, resetId: string): Option<UnknownEntry> {
    if h == [] then None
    else
      var rest, e := h[..|h| - 1], h[|h| - 1];
      if !Concerns(e, conn, resetId) then Pending(rest, conn, resetId)
      else if e.EvUnknown? then Some(UnknownEntry(e.requestId, e.at, LeftRead(rest, conn)))
      else None
  }

  // How an id settled last.
  function Settled(h: seq<Event>, conn: ConnId, requestId: string): Option<DoneEntry> {
    if h == [] then None
    else
      var e := h[|h| - 1];
      if e.EvDone? && e.conn == conn && e.requestId == requestId then Some(DoneEntry(e.outcome, e.at))
      else Settled(h[..|h| - 1], conn, requestId)
  }

  // The last reset made, with what was left when its claim read.
  function LastReset(h: seq<Event>, conn: ConnId, resetId: string): Option<HoldEntry> {
    if h == [] then None
    else
      var rest, e := h[..|h| - 1], h[|h| - 1];
      if e.EvDone? && e.outcome == Reset && e.conn == conn && e.resetId == resetId
      then Some(HoldEntry(LeftRead(rest, conn), e.at))
      else LastReset(rest, conn, resetId)
  }

  // The fresh read shows that the credit is gone: no row, or fewer left than there were.
  predicate ShowsSpent(left: int, row: Option<Row>) {
    row.None? || (row.value.left < left && (!row.value.weekly || row.value.hasNextAt))
  }

  predicate LastReadAt(h: seq<Event>, n: nat, k: nat, conn: ConnId) {
    && k < n <= |h| && h[k].EvRead? && h[k].conn == conn
    && forall m :: k < m < n ==> !(h[m].EvRead? && h[m].conn == conn)
  }

  lemma {:induction false} LastReadIs(h: seq<Event>, n: nat, conn: ConnId) returns (k: nat)
    requires n <= |h| && LastRead(h[..n], conn).Some?
    ensures LastReadAt(h, n, k, conn) && LastRead(h[..n], conn) == Some(h[k])
  {
    assert h[..n][..n - 1] == h[..n - 1];
    if h[n - 1].EvRead? && h[n - 1].conn == conn {
      k := n - 1;
    } else {
      k := LastReadIs(h, n - 1, conn);
    }
  }

  // A pending outcome is the last event that concerns its reset.
  lemma {:induction false} PendingIs(h: seq<Event>, i: nat, n: nat, conn: ConnId, resetId: string)
    requires i < n <= |h| && h[i].EvUnknown? && Concerns(h[i], conn, resetId)
    requires forall m :: i < m < n ==> !Concerns(h[m], conn, resetId)
    ensures Pending(h[..n], conn, resetId) == Some(UnknownEntry(h[i].requestId, h[i].at, LeftRead(h[..i], conn)))
    decreases n
  {
    assert h[..n][..n - 1] == h[..n - 1];
    if i < n - 1 {
      PendingIs(h, i, n - 1, conn, resetId);
    }
  }

  // ---------------------------------------------------------------------------
  // The tables are what the history says
  // ---------------------------------------------------------------------------

  predicate PastRead(c: Claim) {
    c.stage == HasRead || c.stage == Ready || c.stage == Sent
  }

  // A claim's row is the last one read for its connection, and nothing but its own
  // request is sent after it; that only with a usable row that shows no spent retry.
  ghost predicate ReadsRecalled(s: System) {
    forall tid :: tid in s.claims && PastRead(s.claims[tid]) ==> Recalled(s, s.claims[tid])
  }

  predicate Recalled(s: System, c: Claim) {
    var own := EvRead(c.conn, c.resetId, c.row);
    && LastRead(s.history, c.conn) == Some(own)
    && (if c.stage == Sent then LastOf(s.history, c.conn).Some? && IsSendOf(LastOf(s.history, c.conn).value, c.resetId, c.requestId, s.clock)
        else LastOf(s.history, c.conn) == Some(own))
    && (c.stage != HasRead ==> c.row.Some? && c.row.value.usable && (c.prior.Some? ==> !ShowsSpent(c.prior.value.left, c.row)))
  }

  predicate IsSendOf(e: Event, resetId: string, requestId: string, now: int) {
    e.EvSend? && e.resetId == resetId && e.requestId == requestId && e.at <= now
  }

  ghost predicate UnknownIsPending(s: System) {
    forall conn: ConnId, resetId: string ::
      Pending(s.history, conn, resetId) == Lookup(s.tables.unknown, Key(conn, resetId))
  }

  function Lookup<T>(m: map<string, T>, k: string): Option<T> {
    if k in m then Some(m[k]) else None
  }

  ghost predicate DoneIsSettled(s: System) {
    forall conn: ConnId, requestId: string :: DoneAgrees(s, conn, requestId)
  }

  // An entry is how the id settled; only those older than 15 minutes are forgotten.
  predicate DoneAgrees(s: System, conn: ConnId, requestId: string) {
    var d, k := Settled(s.history, conn, requestId), Key(conn, requestId);
    && (k in s.tables.done ==> d == Some(s.tables.done[k]))
    && (d.Some? && s.clock - d.value.at <= DONE_TTL ==> k in s.tables.done)
  }

  ghost predicate HoldIsReset(s: System) {
    forall conn: ConnId, resetId: string ::
      var k := Key(conn, resetId); k in s.tables.hold ==> LastReset(s.history, conn, resetId) == Some(s.tables.hold[k])
  }

  ghost predicate Mirrors(s: System) {
    ReadsRecalled(s) && UnknownIsPending(s) && DoneIsSettled(s) && HoldIsReset(s)
  }

  lemma ReadMore(h: seq<Event>, e: Event, conn: ConnId)
    ensures LastRead(h + [e], conn) == if e.EvRead? && e.conn == conn then Some(e) else LastRead(h, conn)
    ensures LastOf(h + [e], conn) == if e.conn == conn then Some(e) else LastOf(h, conn)
  {
    assert (h + [e])[..|h|] == h;
  }

  lemma EventsMore(h: seq<Event>, e: Event, conn: ConnId, id: string)
    ensures Pending(h + [e], conn, id) ==
      if !Concerns(e, conn, id) then Pending(h, conn, id)
      else if e.EvUnknown? then Some(UnknownEntry(e.requestId, e.at, LeftRead(h, conn))) else None
    ensures Settled(h + [e], conn, id) ==
      if e.EvDone? && e.conn == conn && e.requestId == id then Some(DoneEntry(e.outcome, e.at)) else Settled(h, conn, id)
    ensures LastReset(h + [e], conn, id) ==
      if e.EvDone? && e.outcome == Reset && e.conn == conn && e.resetId == id then Some(HoldEntry(LeftRead(h, conn), e.at))
      else LastReset(h, conn, id)
  {
    assert (h + [e])[..|h|] == h;
  }

  lemma RecallStays(s: System, t: System, c: Claim)
    requires Recalled(s, c) && s.clock <= t.clock
    requires t.history == s.history || exists e: Event :: e.conn != c.conn && t.history == s.history + [e]
    ensures Recalled(t, c)
  {
    if t.history != s.history {
      var e: Event :| e.conn != c.conn && t.history == s.history + [e];
      ReadMore(s.history, e, c.conn);
    }
  }

  // The claim a step moves.
  lemma MovedRecalls(s: System, step: Step)
    requires ReadsRecalled(s) && !step.Tick? && !step.TryLock? && step.tid in s.claims
    ensures var t := Next(s, step);
      step.tid in t.claims && PastRead(t.claims[step.tid]) ==> Recalled(t, t.claims[step.tid])
  {
    hide Key, AfterRecord, AfterHoldCheck, HoldBlocks, CheckVerdict, LastRead, LastOf;
    var t := Next(s, step);
    if t.history != s.history {
      NextExtendsHistory(s, step);
      ReadMore(s.history, t.history[|s.history|], s.claims[step.tid].conn);
    }
  }

  lemma OneMoves(s: System, step: Step)
    ensures s.clock <= Next(s, step).clock
    ensures var t := Next(s, step); forall o :: o in t.claims && PastRead(t.claims[o]) ==>
      o in s.claims && (step.Tick? || step.TryLock? || step.tid != o ==> t.claims[o] == s.claims[o])
  {
    hide Key, AfterRecord, AfterHoldCheck, HoldBlocks, CheckVerdict, IsLikelySpent;
  }

  lemma OneLogs(s: System, step: Step)
    requires LocksHeld(s)
    ensures var t := Next(s, step); t.history != s.history ==>
      && !step.Tick? && !step.TryLock? && |t.history| == |s.history| + 1 && t.history == s.history + [t.history[|s.history|]]
      && forall o :: o in s.claims && o != step.tid ==> t.history[|s.history|].conn != s.claims[o].conn
  {
    hide Key, AfterRecord, AfterHoldCheck, HoldBlocks, CheckVerdict, IsLikelySpent;
  }

  lemma NextRecallsReads(s: System, step: Step)
    requires LocksHeld(s) && ReadsRecalled(s)
    ensures ReadsRecalled(Next(s, step))
  {
    var t := Next(s, step);
    OneMoves(s, step);
    OneLogs(s, step);
    hide Next, Recalled;
    forall tid | tid in t.claims && PastRead(t.claims[tid]) ensures Recalled(t, t.claims[tid]) {
      if step.Tick? || step.TryLock? || step.tid != tid {
        RecallStays(s, t, s.claims[tid]);
      } else {
        MovedRecalls(s, step);
      }
    }
  }

  // Keys of different connections or ids differ.
  lemma KeysDiffer(conn: ConnId, id: string)
    ensures forall c: ConnId, i: string :: Key(c, i) == Key(conn, id) ==> c == conn && i == id
  {
    forall c: ConnId, i: string | Key(c, i) == Key(conn, id) ensures c == conn && i == id {
      KeyInjective(c, i, conn, id);
    }
  }

  // A step that writes the tables as an outcome of one claim, and logs it.
  lemma RecordMirrors(s: System, t: System, c: Claim, left: int, o: Outcome, e: Event)
    requires Mirrors(s) && t.clock == s.clock && t.history == s.history + [e]
    requires t.tables == AfterRecord(s.tables, Key(c.conn, c.resetId), Key(c.conn, c.requestId), c.requestId, left, o, s.clock)
    requires o != Failed && e == if Settles(o) then EvDone(c.conn, c.resetId, c.requestId, o, left, s.clock)
                                else EvUnknown(c.conn, c.resetId, c.requestId, s.clock)
    requires o == Reset || o == Unknown ==> left == LeftRead(s.history, c.conn)
    ensures UnknownIsPending(t) && DoneIsSettled(t) && HoldIsReset(t)
  {
    KeysDiffer(c.conn, c.resetId);
    KeysDiffer(c.conn, c.requestId);
    hide Key, LastRead, LeftRead, Pending, Settled, LastReset;
    forall conn: ConnId, id: string
      ensures Pending(t.history, conn, id) == Lookup(t.tables.unknown, Key(conn, id)) && DoneAgrees(t, conn, id)
      ensures Key(conn, id) in t.tables.hold ==> LastReset(t.history, conn, id) == Some(t.tables.hold[Key(conn, id)])
    {
      EventsMore(s.history, e, conn, id);
      assert DoneAgrees(s, conn, id);
    }
  }

  // A step that settles nothing: entries of the hold table may go, and settled ones that are old.
  lemma QuietMirrors(s: System, t: System)
    requires Mirrors(s) && s.clock <= t.clock && t.tables.unknown == s.tables.unknown
    requires t.history == s.history || exists e: Event :: !e.EvUnknown? && !e.EvDone? && t.history == s.history + [e]
    requires forall k :: k in t.tables.hold ==> k in s.tables.hold && t.tables.hold[k] == s.tables.hold[k]
    requires forall k :: k in t.tables.done ==> k in s.tables.done && t.tables.done[k] == s.tables.done[k]
    requires forall k :: k in s.tables.done && k !in t.tables.done ==> t.clock - s.tables.done[k].at > DONE_TTL
    ensures UnknownIsPending(t) && DoneIsSettled(t) && HoldIsReset(t)
  {
    hide Key, LastRead, LeftRead, Pending, Settled, LastReset;
    forall conn: ConnId, id: string
      ensures Pending(t.history, conn, id) == Lookup(t.tables.unknown, Key(conn, id)) && DoneAgrees(t, conn, id)
      ensures Key(conn, id) in t.tables.hold ==> LastReset(t.history, conn, id) == Some(t.tables.hold[Key(conn, id)])
    {
      if t.history != s.history {
        var e: Event :| !e.EvUnknown? && !e.EvDone? && t.history == s.history + [e];
        EventsMore(s.history, e, conn, id);
      }
      assert DoneAgrees(s, conn, id);
    }
  }

  lemma NextMirrors(s: System, step: Step)
    requires LocksHeld(s) && Mirrors(s)
    ensures Mirrors(Next(s, step))
  {
    NextRecallsReads(s, step);
    var t := Next(s, step);
    match step
    case Settle(tid) =>
      if At(s, tid, HasRead) && IsLikelySpent(s.claims[tid].prior, s.claims[tid].row) {
        var c := s.claims[tid];
        RecordMirrors(s, t, c, 0, LikelySpent, EvDone(c.conn, c.resetId, c.requestId, LikelySpent, 0, s.clock));
      } else {
        QuietMirrors(s, t);
      }
    case Record(tid, o) =>
      if At(s, tid, Sent) && o != LikelySpent && o != Failed {
        var c := s.claims[tid];
        assert Recalled(s, c);
        var left := if c.row.Some? then c.row.value.left else 0;
        RecordMirrors(s, t, c, left, o, t.history[|s.history|]);
      } else {
        QuietMirrors(s, t);
      }
    case _ => OtherMirrors(s, step);
  }

  lemma OtherMirrors(s: System, step: Step)
    requires LocksHeld(s) && Mirrors(s) && !step.Settle? && !step.Record?
    ensures var t := Next(s, step); UnknownIsPending(t) && DoneIsSettled(t) && HoldIsReset(t)
  {
    hide Mirrors, UnknownIsPending, DoneIsSettled, HoldIsReset, Key, LastRead;
    QuietMirrors(s, Next(s, step));
  }

  // ---------------------------------------------------------------------------
  // Every event has its reason in the history before it
  // ---------------------------------------------------------------------------

  // A request is sent right after its claim's read, with a usable row; a retry repeats the pending
  // id, is due, and the row does not show that the credit was spent; a settled id is sent again only
  // after 15 minutes.
  ghost predicate SendRight(h: seq<Event>, j: nat)
    requires j < |h| && h[j].EvSend?
  {
    var e, before := h[j], h[..j];
    var own, p, d := LastOf(before, e.conn), Pending(before, e.conn, e.resetId), Settled(before, e.conn, e.requestId);
    && LastRead(before, e.conn) == own && IsReadOf(own, e.resetId)
    && own.value.row.Some? && own.value.row.value.usable
    && (p.Some? ==> p.value.requestId == e.requestId && e.at >= p.value.at + CLAIM_WAIT && !ShowsSpent(p.value.left, own.value.row))
    && (d.Some? ==> e.at - d.value.at > DONE_TTL)
  }

  predicate IsReadOf(e: Option<Event>, resetId: string) {
    e.Some? && e.value.EvRead? && e.value.resetId == resetId
  }

  // An outcome is that of the request sent last; one not sent at all is a pending
  // one whose read showed it spent. What a reset leaves is what its claim read.
  ghost predicate OutcomeRight(h: seq<Event>, j: nat)
    requires j < |h| && (h[j].EvUnknown? || h[j].EvDone?)
  {
    var e, before := h[j], h[..j];
    var last, read, p := LastOf(before, e.conn), LastRead(before, e.conn), Pending(before, e.conn, e.resetId);
    && IsReadOf(read, e.resetId)
    && if e.EvDone? && e.outcome == LikelySpent
       then last == read && p.Some? && p.value.requestId == e.requestId && ShowsSpent(p.value.left, read.value.row)
       else
         && last.Some? && IsSendOf(last.value, e.resetId, e.requestId, e.at) && read.value.row.Some?
         && (e.EvDone? ==> e.left == read.value.row.value.left)
  }

  ghost predicate Right(h: seq<Event>, j: nat)
    requires j < |h|
  {
    if h[j].EvSend? then SendRight(h, j) else if h[j].EvRead? then true else OutcomeRight(h, j)
  }

  ghost predicate AllRight(h: seq<Event>) {
    forall j: nat :: j < |h| ==> Right(h, j)
  }

  lemma RightStays(h: seq<Event>, e: Event, j: nat)
    requires j < |h| && Right(h, j)
    ensures Right(h + [e], j)
  {
    assert (h + [e])[..j] == h[..j];
  }

  lemma SendIsRight(s: System, tid: Tid)
    requires Inv(s) && Mirrors(s) && At(s, tid, Ready)
    ensures var h := s.history + [EvSend(s.claims[tid].conn, s.claims[tid].resetId, s.claims[tid].requestId, s.clock)];
      SendRight(h, |s.history|)
  {
    var c := s.claims[tid];
    assert ViewOf(s.tables, c) && Recalled(s, c) && c.now <= s.clock;
    hide Key, LastRead, LastOf, Pending, Settled;
    assert DoneAgrees(s, c.conn, c.requestId);
    assert Pending(s.history, c.conn, c.resetId) == Lookup(s.tables.unknown, Key(c.conn, c.resetId));
    assert (s.history + [EvSend(c.conn, c.resetId, c.requestId, s.clock)])[..|s.history|] == s.history;
  }

  lemma SettleIsRight(s: System, tid: Tid)
    requires Inv(s) && Mirrors(s) && At(s, tid, HasRead) && IsLikelySpent(s.claims[tid].prior, s.claims[tid].row)
    ensures OutcomeRight(SettleStep(s, tid).history, |s.history|)
  {
    var t, c := SettleStep(s, tid), s.claims[tid];
    assert t.history[..|s.history|] == s.history;
    assert ViewOf(s.tables, c) && Recalled(s, c);
    hide Key, LastRead, LastOf, Pending, Settled;
    assert Pending(s.history, c.conn, c.resetId) == Lookup(s.tables.unknown, Key(c.conn, c.resetId));
  }

  lemma RecordIsRight(s: System, tid: Tid, o: Outcome)
    requires Inv(s) && Mirrors(s) && At(s, tid, Sent) && o != LikelySpent && o != Failed
    ensures OutcomeRight(RecordStep(s, tid, o).history, |s.history|)
  {
    var t, c := RecordStep(s, tid, o), s.claims[tid];
    assert t.history[..|s.history|] == s.history;
    assert Recalled(s, c);
    hide Key, LastRead, LastOf, Pending, Settled, Inv, Mirrors;
  }

  lemma NewIsRight(s: System, step: Step)
    requires Inv(s) && Mirrors(s)
    requires |Next(s, step).history| == |s.history| + 1
    ensures Right(Next(s, step).history, |s.history|)
  {
    if step.Send? {
      SendIsRight(s, step.tid);
    } else if step.Settle? {
      SettleIsRight(s, step.tid);
    } else if step.Record? {
      RecordIsRight(s, step.tid, step.outcome);
    }
    hide SendRight, OutcomeRight;
  }

  lemma {:induction false} RunIsRight(s: System, steps: seq<Step>)
    requires Inv(s) && Mirrors(s) && AllRight(s.history)
    ensures var t := Run(s, steps); Inv(t) && Mirrors(t) && AllRight(t.history)
    decreases |steps|
  {
    if steps != [] {
      var t := Next(s, steps[0]);
      RunKeepsInv(s, steps[..1]);
      assert Run(s, steps[..1]) == t;
      NextMirrors(s, steps[0]);
      NextExtendsHistory(s, steps[0]);
      hide Inv, Mirrors, Right;
      forall j: nat | j < |t.history| ensures Right(t.history, j) {
        if j < |s.history| {
          if t.history != s.history { RightStays(s.history, t.history[|s.history|], j); }
        } else {
          NewIsRight(s, steps[0]);
        }
      }
      RunIsRight(t, steps[1..]);
    }
  }

  // Main result: in every run of interleaved claims the tables are what the history says, and
  // every request sent and every outcome recorded has its reason in the history before it.
  lemma EveryEventIsRight(steps: seq<Step>)
    ensures var s := Run(Start, steps); Inv(s) && Mirrors(s) && AllRight(s.history)
  {
    RunIsRight(Start, steps);
  }

  // ---------------------------------------------------------------------------
  // Retries, said of the events alone
  // ---------------------------------------------------------------------------

  // Event i is an unknown outcome, event j a request for the same reset, and nothing between settles it
  // or is unknown again.
  predicate NextTry(h: seq<Event>, i: nat, j: nat) {
    && i < j < |h| && h[i].EvUnknown? && h[j].EvSend? && h[i].conn == h[j].conn && h[i].resetId == h[j].resetId
    && forall m :: i < m < j ==> !Concerns(h[m], h[i].conn, h[i].resetId)
  }

  predicate ReadBefore(h: seq<Event>, n: nat, k: nat, conn: ConnId, resetId: string) {
    LastReadAt(h, n, k, conn) && h[k].resetId == resetId && h[k].row.Some?
  }

  lemma OutcomeRead(h: seq<Event>, i: nat) returns (a: nat)
    requires i < |h| && h[i].EvUnknown? && OutcomeRight(h, i)
    ensures ReadBefore(h, i, a, h[i].conn, h[i].resetId) && LeftRead(h[..i], h[i].conn) == h[a].row.value.left
  {
    a := LastReadIs(h, i, h[i].conn);
  }

  lemma {:induction false} LastOfIs(h: seq<Event>, n: nat, conn: ConnId) returns (k: nat)
    requires n <= |h| && LastOf(h[..n], conn).Some?
    ensures k < n && h[k].conn == conn && LastOf(h[..n], conn) == Some(h[k])
    ensures forall m :: k < m < n ==> h[m].conn != conn
  {
    assert h[..n][..n - 1] == h[..n - 1];
    if h[n - 1].conn == conn {
      k := n - 1;
    } else {
      k := LastOfIs(h, n - 1, conn);
    }
  }

  // The read a request is sent upon comes after any earlier event of its connection that is no read.
  lemma ReadIsLate(h: seq<Event>, i: nat, j: nat) returns (b: nat)
    requires i < j < |h| && h[j].EvSend? && SendRight(h, j) && !h[i].EvRead? && h[i].conn == h[j].conn
    ensures i < b && ReadBefore(h, j, b, h[j].conn, h[j].resetId) && LastRead(h[..j], h[j].conn) == Some(h[b])
  {
    b := LastReadIs(h, j, h[j].conn);
    var k := LastOfIs(h, j, h[j].conn);
    assert k >= i;
  }

  // What a request after an unknown outcome repeats, and what was read in between.
  predicate Repeats(h: seq<Event>, i: nat, j: nat, a: nat, b: nat)
    requires i < j < |h| && h[i].EvUnknown? && h[j].EvSend?
  {
    && h[j].requestId == h[i].requestId && h[j].at >= h[i].at + CLAIM_WAIT
    && ReadBefore(h, i, a, h[i].conn, h[i].resetId) && i < b && ReadBefore(h, j, b, h[i].conn, h[i].resetId)
    && (h[b].row.value.left >= h[a].row.value.left || (h[b].row.value.weekly && !h[b].row.value.hasNextAt))
  }

  lemma NextTryRepeats(h: seq<Event>, i: nat, j: nat) returns (a: nat, b: nat)
    requires AllRight(h) && NextTry(h, i, j)
    ensures Repeats(h, i, j, a, b)
  {
    assert Right(h, i) && Right(h, j);
    a := OutcomeRead(h, i);
    PendingIs(h, i, j, h[i].conn, h[i].resetId);
    b := ReadIsLate(h, i, j);
  }

  // Main result: after an unknown outcome whose claim had read L left, the next request for the reset, if nothing
  // settled it, carries the same id, comes 60 s later, and its read showed no fewer than L, or a weekly row without
  // a next time.
  lemma RetryReadsNoFewer(steps: seq<Step>, i: nat, j: nat) returns (a: nat, b: nat)
    requires NextTry(Run(Start, steps).history, i, j)
    ensures Repeats(Run(Start, steps).history, i, j, a, b)
  {
    EveryEventIsRight(steps);
    a, b := NextTryRepeats(Run(Start, steps).history, i, j);
  }

  // Event j is a request for the reset of the unknown outcome i, and nothing between settles it.
  predicate LaterTry(h: seq<Event>, i: nat, j: nat) {
    && i < j < |h| && h[i].EvUnknown? && h[j].EvSend? && h[i].conn == h[j].conn && h[i].resetId == h[j].resetId
    && forall m :: i < m < j && Concerns(h[m], h[i].conn, h[i].resetId) ==> h[m].EvUnknown?
  }

  lemma {:induction false} LastUnknown(h: seq<Event>, i: nat, j: nat, n: nat) returns (m: nat)
    requires LaterTry(h, i, j) && i < n <= j
    requires forall x :: n <= x < j ==> !Concerns(h[x], h[i].conn, h[i].resetId)
    ensures i <= m < j && NextTry(h, m, j) && h[m].conn == h[i].conn && h[m].resetId == h[i].resetId
  {
    if n == i + 1 || Concerns(h[n - 1], h[i].conn, h[i].resetId) {
      m := n - 1;
    } else {
      m := LastUnknown(h, i, j, n - 1);
    }
  }

  ghost predicate NeverWeekly(h: seq<Event>, conn: ConnId, resetId: string) {
    forall m :: 0 <= m < |h| && h[m].EvRead? && h[m].conn == conn && h[m].resetId == resetId && h[m].row.Some? ==> !h[m].row.value.weekly
  }

  lemma {:induction false} TriesRepeat(h: seq<Event>, i: nat, j: nat) returns (a: nat, b: nat)
    requires AllRight(h) && LaterTry(h, i, j) && NeverWeekly(h, h[i].conn, h[i].resetId)
    ensures Repeats(h, i, j, a, b)
    decreases j
  {
    var m := LastUnknown(h, i, j, j);
    var c;
    c, b := NextTryRepeats(h, m, j);
    a := c;
    if m != i {
      assert Right(h, m);
      var k := LastOfIs(h, m, h[i].conn);
      assert k > i && h[k].EvSend? && h[k].requestId == h[m].requestId;
      var d;
      a, d := TriesRepeat(h, i, k);
      assert LastReadAt(h, k, c, h[i].conn) && c == d;
    }
  }

  // Main result: of a reset that is not weekly, no request at all is sent after an unknown outcome and before it
  // settles unless its read showed no fewer left than the read before that outcome.
  lemma RetriesReadNoFewer(steps: seq<Step>, i: nat, j: nat) returns (a: nat, b: nat)
    requires var h := Run(Start, steps).history; LaterTry(h, i, j) && NeverWeekly(h, h[i].conn, h[i].resetId)
    ensures Repeats(Run(Start, steps).history, i, j, a, b)
  {
    EveryEventIsRight(steps);
    a, b := TriesRepeat(Run(Start, steps).history, i, j);
  }

  // And the other way: a claim that has read settles its reset as spent, and sends nothing, exactly when an
  // unknown outcome is pending and the row shows fewer left than its claim had read.
  lemma RetrySettlesExactlyWhen(steps: seq<Step>, tid: Tid)
    requires At(Run(Start, steps), tid, HasRead)
    ensures var s := Run(Start, steps); var c := s.claims[tid]; var t := Next(s, Settle(tid));
      var p := Pending(s.history, c.conn, c.resetId);
      && (p.Some? && ShowsSpent(p.value.left, c.row) ==>
            && t.history == s.history + [EvDone(c.conn, c.resetId, c.requestId, LikelySpent, 0, s.clock)] && At(t, tid, Leaving)
            && p.value.requestId == c.requestId && Pending(t.history, c.conn, c.resetId) == None)
      && (!(p.Some? && ShowsSpent(p.value.left, c.row)) ==> t.history == s.history)
      && LastRead(s.history, c.conn) == Some(EvRead(c.conn, c.resetId, c.row))
  {
    EveryEventIsRight(steps);
    var s := Run(Start, steps);
    var c := s.claims[tid];
    assert ViewOf(s.tables, c) && Recalled(s, c);
    hide Key, LastRead, LastOf, Run, Pending, Settled;
    assert Pending(s.history, c.conn, c.resetId) == Lookup(s.tables.unknown, Key(c.conn, c.resetId));
    EventsMore(s.history, EvDone(c.conn, c.resetId, c.requestId, LikelySpent, 0, s.clock), c.conn, c.resetId);
  }

  // The hold table as the check for it leaves it: at most the last reset, and only if its time is not over.
  // With the tables as the history says, a lone claim is sent exactly when the history allows it.
  lemma LoneClaimByHistory(steps: seq<Step>, tid: Tid, conn: ConnId, resetId: string, requestId: string, row: Option<Row>)
    requires var s := Run(Start, steps); tid !in s.claims && conn !in s.locks
    ensures
      var s := Run(Start, steps);
      var s1 := Next(Next(s, TryLock(tid, conn, resetId, requestId)), Check(tid));
      var s2 := Next(Next(Next(s1, FreshRead(tid, true, row)), Settle(tid)), Send(tid, true));
      var p, d := Pending(s.history, conn, resetId), Settled(s.history, conn, requestId);
      var held := Lookup(s.tables.hold, Key(conn, resetId));
      && (held.Some? ==> held == LastReset(s.history, conn, resetId))
      && (s2.history == s.history + [EvRead(conn, resetId, row), EvSend(conn, resetId, requestId, s.clock)] <==>
            && (d.Some? ==> s.clock - d.value.at > DONE_TTL)
            && (p.Some? ==> p.value.requestId == requestId && s.clock - p.value.at >= CLAIM_WAIT && !ShowsSpent(p.value.left, row))
            && (held.Some? ==> s.clock - held.value.at >= CLAIM_WAIT || (row.Some? && row.value.left < held.value.left))
            && row.Some? && row.value.usable)
  {
    EveryEventIsRight(steps);
    var s := Run(Start, steps);
    LoneClaimSendsExactlyWhen(s, tid, conn, resetId, requestId, row);
    hide Key, LastRead, LastOf, Run, Pending, Settled, LastReset, Next;
    assert DoneAgrees(s, conn, requestId);
    assert Pending(s.history, conn, resetId) == Lookup(s.tables.unknown, Key(conn, resetId));
  }

  // A claim that meets no other and ends unknown, from a state with at most its own unknown outcome pending.
  function Round(s: System, conn: ConnId, resetId: string, id: string, row: Row): System {
    var s1 := Next(Next(s, TryLock(0, conn, resetId, id)), Check(0));
    var s2 := Next(Next(Next(s1, FreshRead(0, true, Some(row))), Settle(0)), Send(0, true));
    Next(Next(Next(s2, Record(0, Unknown)), Unlock(0)), Tick(CLAIM_WAIT))
  }

  function Quiet(now: int, unknown: map<string, UnknownEntry>, h: seq<Event>): System {
    System(now, Tables(unknown, map[], map[]), {}, map[], h)
  }

  lemma RoundBegins(now: int, unknown: map<string, UnknownEntry>, h: seq<Event>, conn: ConnId, resetId: string, id: string)
    requires unknown.Keys <= {Key(conn, resetId)}
    requires Key(conn, resetId) in unknown ==>
      var u := unknown[Key(conn, resetId)]; u.requestId == id && now - u.at >= CLAIM_WAIT
    ensures Next(Next(Quiet(now, unknown, h), TryLock(0, conn, resetId, id)), Check(0)) ==
      System(now, Tables(unknown, map[], map[]), {conn},
             map[0 := Claim(conn, resetId, id, now, Checked, Lookup(unknown, Key(conn, resetId)), None)], h)
  {
    hide Key;
  }

  lemma RoundSends(s: System, c: Claim, row: Row)
    requires s.claims == map[0 := c] && c.stage == Checked && c.row.None? && s.tables.hold == map[] && row.usable
    requires c.prior.Some? ==> !ShowsSpent(c.prior.value.left, Some(row))
    ensures Next(Next(Next(s, FreshRead(0, true, Some(row))), Settle(0)), Send(0, true)) ==
      s.(claims := map[0 := c.(row := Some(row), stage := Sent)],
         history := s.history + [EvRead(c.conn, c.resetId, Some(row)), EvSend(c.conn, c.resetId, c.requestId, s.clock)])
  {
    hide Key;
    var s2 := Next(s, FreshRead(0, true, Some(row)));
    var c2 := c.(row := Some(row), stage := HasRead);
    assert s2.claims == map[0 := c2] && s2.tables == s.tables;
    var s3 := Next(s2, Settle(0));
    assert s3 == s2.(claims := map[0 := c2.(stage := Ready)]);
  }

  lemma RoundEnds(s: System, c: Claim, row: Row)
    requires s.claims == map[0 := c] && s.locks == {c.conn} && c.stage == Sent && c.row == Some(row)
    requires s.tables.unknown.Keys <= {Key(c.conn, c.resetId)} && s.tables.hold == map[] && s.tables.done == map[]
    ensures Next(Next(Next(s, Record(0, Unknown)), Unlock(0)), Tick(CLAIM_WAIT)) ==
      Quiet(s.clock + CLAIM_WAIT, map[Key(c.conn, c.resetId) := UnknownEntry(c.requestId, s.clock, row.left)],
            s.history + [EvUnknown(c.conn, c.resetId, c.requestId, s.clock)])
  {
    var k := Key(c.conn, c.resetId);
    hide Key;
    var t := Next(s, Record(0, Unknown));
    assert t.tables.unknown == map[k := UnknownEntry(c.requestId, s.clock, row.left)];
    assert t.claims == map[0 := c.(stage := Leaving)];
  }

  lemma RoundIs(now: int, unknown: map<string, UnknownEntry>, h: seq<Event>, conn: ConnId, resetId: string, id: string, row: Row)
    requires row.usable && unknown.Keys <= {Key(conn, resetId)}
    requires Key(conn, resetId) in unknown ==>
      var u := unknown[Key(conn, resetId)]; u.requestId == id && now - u.at >= CLAIM_WAIT && !ShowsSpent(u.left, Some(row))
    ensures Round(Quiet(now, unknown, h), conn, resetId, id, row) ==
      Quiet(now + CLAIM_WAIT, map[Key(conn, resetId) := UnknownEntry(id, now, row.left)],
            h + [EvRead(conn, resetId, Some(row)), EvSend(conn, resetId, id, now), EvUnknown(conn, resetId, id, now)])
  {
    hide Key, Next;
    var s := Quiet(now, unknown, h);
    RoundBegins(now, unknown, h, conn, resetId, id);
    var s1 := Next(Next(s, TryLock(0, conn, resetId, id)), Check(0));
    RoundSends(s1, s1.claims[0], row);
    var s2 := Next(Next(Next(s1, FreshRead(0, true, Some(row))), Settle(0)), Send(0, true));
    RoundEnds(s2, s2.claims[0], row);
  }

  // A weekly reset may be asked for again after a read of fewer left: two reads without a next time take
  // the left that is remembered down, and a third is compared with the second alone.
  lemma WeeklyRetryReadsFewer(conn: ConnId, resetId: string, id: string)
    ensures var s := Round(Round(Round(Start, conn, resetId, id, Row(true, 3, false, true)),
                                 conn, resetId, id, Row(true, 1, false, true)),
                           conn, resetId, id, Row(true, 2, true, true));
      && LaterTry(s.history, 2, 7)
      && s.history[0] == EvRead(conn, resetId, Some(Row(true, 3, false, true)))
      && s.history[6] == EvRead(conn, resetId, Some(Row(true, 2, true, true)))
  {
    RoundIs(0, map[], [], conn, resetId, id, Row(true, 3, false, true));
    var s1 := Round(Start, conn, resetId, id, Row(true, 3, false, true));
    RoundIs(s1.clock, s1.tables.unknown, s1.history, conn, resetId, id, Row(true, 1, false, true));
    hide Round;
    var s2 := Round(s1, conn, resetId, id, Row(true, 1, false, true));
    RoundIs(s2.clock, s2.tables.unknown, s2.history, conn, resetId, id, Row(true, 2, true, true));
  }
}
