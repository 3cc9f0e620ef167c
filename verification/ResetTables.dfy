/**
 The three tables of the reset-claim protocol: retries of unknown outcomes, holds
 after a reset, and settled request ids, as the handler reads and updates them.
 A retry keeps the request id that an unknown outcome belongs to; a hold keeps
 what was left when a reset was made; a settled id is kept with the time, and is
 forgotten when it is old.
 */
module ResetTables {
  import opened Options

  // Instants and durations are in nanoseconds.
  const SECOND: int := 1_000_000_000
  const CLAIM_WAIT: int := 60 * SECOND
  const DONE_TTL: int := 15 * 60 * SECOND

  // Connection ids are hexadecimal, so no id holds the separator of a table key.
  type ConnId = s: string | ':' !in s witness ""

  function Key(conn: ConnId, id: string): string {
    conn + ":" + id
  }

  lemma KeyInjective(c1: ConnId, id1: string, c2: ConnId, id2: string)
    requires Key(c1, id1) == Key(c2, id2)
    ensures c1 == c2 && id1 == id2
  {
    var k := Key(c1, id1);
    assert k[|c1|] == ':' && k[|c2|] == ':';
    assert forall i | 0 <= i < |c1| :: k[i] == c1[i];
    assert forall i | 0 <= i < |c2| :: k[i] == c2[i];
    assert c1 == k[..|c1|] && c2 == k[..|c2|];
    assert id1 == k[|c1| + 1..] && id2 == k[|c2| + 1..];
  }

  datatype UnknownEntry = UnknownEntry(requestId: string, at: int, left: int)
  datatype HoldEntry = HoldEntry(left: int, at: int)
  datatype DoneEntry = DoneEntry(outcome: Outcome, at: int)

  // What the claimer, or the likely-spent rule, concluded.
  datatype Outcome = Reset | Spent | NotNeeded | NotAllowed | LikelySpent | Unknown | Failed

  // The row of the fresh quota read that the claim targets.
  datatype Row = Row(weekly: bool, left: int, hasNextAt: bool, usable: bool)

  datatype Tables = Tables(
    unknown: map<string, UnknownEntry>,
    hold: map<string, HoldEntry>,
    done: map<string, DoneEntry>)

  datatype Verdict = Proceed(prior: Option<UnknownEntry>) | AlreadyDone | UnknownPending(requestId: string)

  // ---------------------------------------------------------------------------
  // The critical sections, as functions of the tables
  // ---------------------------------------------------------------------------

  function Unexpired(done: map<string, DoneEntry>, now: int): map<string, DoneEntry> {
    map k | k in done && now - done[k].at <= DONE_TTL :: done[k]
  }

  function CheckVerdict(t: Tables, resetKey: string, reqKey: string, requestId: string, now: int): Verdict {
    if reqKey in Unexpired(t.done, now) then AlreadyDone
    else if resetKey !in t.unknown then Proceed(None)
    else
      var ue := t.unknown[resetKey];
      if ue.requestId != requestId || now - ue.at < CLAIM_WAIT then UnknownPending(ue.requestId)
      else Proceed(Some(ue))
  }

  predicate IsLikelySpent(prior: Option<UnknownEntry>, row: Option<Row>) {
    prior.Some? && (
      row.None? ||
      (row.value.left < prior.value.left && (!row.value.weekly || row.value.hasNextAt)))
  }

  predicate HoldBlocks(t: Tables, resetKey: string, row: Option<Row>, now: int) {
    resetKey in t.hold &&
    !(row.Some? && row.value.left < t.hold[resetKey].left) &&
    now - t.hold[resetKey].at < CLAIM_WAIT
  }

  function AfterHoldCheck(t: Tables, resetKey: string, row: Option<Row>, now: int): Tables {
    if HoldBlocks(t, resetKey, row, now) then t else t.(hold := t.hold - {resetKey})
  }

  predicate Settles(o: Outcome) {
    o != Unknown && o != Failed
  }

  function AfterRecord(t: Tables, resetKey: string, reqKey: string, requestId: string,
                       left: int, o: Outcome, now: int): Tables
  {
    if Settles(o) then
      Tables(t.unknown - {resetKey},
             if o == Reset then t.hold[resetKey := HoldEntry(left, now)] else t.hold,
             t.done[reqKey := DoneEntry(o, now)])
    else if o == Unknown then t.(unknown := t.unknown[resetKey := UnknownEntry(requestId, now, left)])
    else t
  }

  // ---------------------------------------------------------------------------
  // The tables the process keeps, updated in place under their mutex
  // ---------------------------------------------------------------------------

  class ClaimTables {
    var unknown: map<string, UnknownEntry>
    var hold: map<string, HoldEntry>
    var done: map<string, DoneEntry>

    constructor ()
      ensures Value() == Tables(map[], map[], map[])
    {
      unknown, hold, done := map[], map[], map[];
    }

    function Value(): Tables
      reads this
    {
      Tables(unknown, hold, done)
    }

    method DropExpired(now: int)
      modifies this`done
      ensures done == Unexpired(old(done), now)
    {
      var todo := done.Keys;
      while todo != {}
        invariant todo <= done.Keys
        invariant forall k :: k in done ==> k in old(done) && done[k] == old(done)[k]
        invariant forall k :: k in old(done) && (k in todo || now - old(done)[k].at <= DONE_TTL) ==> k in done
        invariant forall k :: k in done && k !in todo ==> now - done[k].at <= DONE_TTL
        decreases |todo|
      {
        var k :| k in todo;
        todo := todo - {k};
        if now - done[k].at > DONE_TTL {
          done := done - {k};
        }
      }
    }

    method Check(resetKey: string, reqKey: string, requestId: string, now: int) returns (v: Verdict)
      modifies this`done
      ensures Value() == old(Value()).(done := Unexpired(old(done), now))
      ensures v == CheckVerdict(old(Value()), resetKey, reqKey, requestId, now)
    {
      DropExpired(now);
      if reqKey in done {
        return AlreadyDone;
      }
      if resetKey in unknown {
        var ue := unknown[resetKey];
        if ue.requestId != requestId {
          return UnknownPending(ue.requestId);
        }
        if now - ue.at < CLAIM_WAIT {
          return UnknownPending(ue.requestId);
        }
        return Proceed(Some(ue));
      }
      return Proceed(None);
    }

    method CheckHold(resetKey: string, row: Option<Row>, now: int) returns (blocked: bool)
      modifies this`hold
      ensures Value() == AfterHoldCheck(old(Value()), resetKey, row, now)
      ensures blocked == HoldBlocks(old(Value()), resetKey, row, now)
    {
      blocked := false;
      if resetKey in hold {
        var he := hold[resetKey];
        if row.Some? && row.value.left < he.left {
          hold := hold - {resetKey};
        } else if now - he.at < CLAIM_WAIT {
          blocked := true;
        } else {
          hold := hold - {resetKey};
        }
      }
    }

    method Record(resetKey: string, reqKey: string, requestId: string, left: int, o: Outcome, now: int)
      modifies this
      ensures Value() == AfterRecord(old(Value()), resetKey, reqKey, requestId, left, o, now)
    {
      match o {
        case Reset =>
          unknown := unknown - {resetKey};
          done := done[reqKey := DoneEntry(Reset, now)];
          hold := hold[resetKey := HoldEntry(left, now)];
        case Unknown =>
          unknown := unknown[resetKey := UnknownEntry(requestId, now, left)];
        case Failed =>
        case _ =>
          unknown := unknown - {resetKey};
          done := done[reqKey := DoneEntry(o, now)];
      }
    }
  }
}
