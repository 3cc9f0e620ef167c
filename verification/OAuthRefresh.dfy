// OAuth token refresh of one connection, with refresh-token rotation and a store whose writes
// may fail. Callers of `secretFor` and `forceRefresh` interleave; a per-connection lock serializes
// exchanges, and a token whose write failed is kept in memory as an override of the stored row.
module OAuthRefresh {
  import opened Options

  const SECOND: int := 1_000_000_000
  const REFRESH_MARGIN: int := 60 * SECOND

  // The row on file. An expiry that is empty or does not parse is None.
  datatype Creds = Creds(access: string, refresh: string, expires: Option<int>)
  datatype Override = Override(access: string, refresh: string, expires: Option<int>)

  // What a successful exchange answers; newRefresh is "" when the provider does not rotate.
  datatype Grant = Grant(access: string, newRefresh: string, expires: int)

  predicate ValidGrant(g: Grant) {
    g.access != ""
  }

  // Expiries are written with a resolution of one second, rounded down.
  function ToSecond(t: int): int {
    t / SECOND * SECOND
  }

  predicate NeedsRefresh(expires: Option<int>, now: int) {
    expires.Some? && now + REFRESH_MARGIN > expires.value
  }

  function WithOverride(c: Creds, ov: Option<Override>): Creds {
    if ov.Some? && ov.value.access != "" then
      Creds(c.access, if ov.value.refresh != "" then ov.value.refresh else c.refresh, ov.value.expires)
    else c
  }

  // The secret callers are given; readOk is whether the store answers.
  function CurrentSecret(row: Creds, ov: Option<Override>, readOk: bool): string {
    if ov.Some? && ov.value.access != "" then ov.value.access
    else if readOk then row.access
    else ""
  }

  function EffectiveRefresh(sent: string, g: Grant): string {
    if g.newRefresh == "" then sent else g.newRefresh
  }

  // UpdateAfterRefresh: an empty new refresh token keeps the one on file.
  function Written(row: Creds, g: Grant): Creds {
    if g.newRefresh == "" then row.(access := g.access, expires := Some(ToSecond(g.expires)))
    else Creds(g.access, g.newRefresh, Some(ToSecond(g.expires)))
  }

  function OverrideFor(sent: string, g: Grant): Override {
    Override(g.access, EffectiveRefresh(sent, g), Some(ToSecond(g.expires)))
  }

  // ---------------------------------------------------------------------------
  // The rows and overrides of every connection, updated in place
  // ---------------------------------------------------------------------------

  class OAuthCreds {
    var access: string
    var refreshToken: string
    var expiresAt: Option<int>

    constructor (row: Creds)
      ensures Value() == row
    {
      access, refreshToken, expiresAt := row.access, row.refresh, row.expires;
    }

    function Value(): Creds
      reads this
    {
      Creds(access, refreshToken, expiresAt)
    }
  }

  class Api {
    var rows: map<string, Creds>
    var overrides: map<string, Override>

    constructor (rows: map<string, Creds>)
      ensures this.rows == rows && overrides == map[]
    {
      this.rows, overrides := rows, map[];
    }

    function OverrideOf(id: string): Option<Override>
      reads this
    {
      if id in overrides then Some(overrides[id]) else None
    }

    method ApplyOverride(creds: OAuthCreds, id: string)
      modifies creds
      ensures creds.Value() == WithOverride(old(creds.Value()), OverrideOf(id))
    {
      if id in overrides && overrides[id].access != "" {
        creds.expiresAt := overrides[id].expires;
        if overrides[id].refresh != "" {
          creds.refreshToken := overrides[id].refresh;
        }
      }
    }

    // The store write of an exchange and the override it leaves.
    method SaveGrant(id: string, sent: string, g: Grant, writeOk: bool)
      requires id in rows
      modifies this
      ensures rows == if writeOk then old(rows)[id := Written(old(rows)[id], g)] else old(rows)
      ensures overrides == if writeOk then old(overrides) - {id} else old(overrides)[id := OverrideFor(sent, g)]
    {
      var effective := g.newRefresh;
      if effective == "" {
        effective := sent;
      }
      var expires := ToSecond(g.expires);
      if !writeOk {
        overrides := overrides[id := Override(g.access, effective, Some(expires))];
      } else {
        if g.newRefresh == "" {
          rows := rows[id := Creds(g.access, rows[id].refresh, Some(expires))];
        } else {
          rows := rows[id := Creds(g.access, g.newRefresh, Some(expires))];
        }
        overrides := overrides - {id};
      }
    }

    // secretFor under the lock: returns the secret, and what was sent to the token endpoint.
    method SecretForLocked(id: string, rereadOk: bool, secretOk: bool, now: int, answer: Option<Grant>, writeOk: bool)
      returns (secret: string, sent: Option<string>)
      requires id in rows
      modifies this
      ensures forall o :: o in old(rows) && o != id ==> o in rows && rows[o] == old(rows)[o]
      ensures var creds := WithOverride(old(rows)[id], old(OverrideOf(id)));
        && (sent.Some? <==> rereadOk && NeedsRefresh(creds.expires, now))
        && (sent.Some? ==> sent.value == creds.refresh)
        && (sent.None? || answer.None? ==>
              && rows == old(rows) && overrides == old(overrides)
              && secret == CurrentSecret(rows[id], OverrideOf(id), secretOk))
        && (sent.Some? && answer.Some? ==>
              && secret == answer.value.access
              && id in rows
              && rows[id] == (if writeOk then Written(old(rows)[id], answer.value) else old(rows)[id])
              && OverrideOf(id) == (if writeOk then None else Some(OverrideFor(creds.refresh, answer.value))))
    {
      var current := CurrentSecret(rows[id], OverrideOf(id), secretOk);
      if !rereadOk {
        return current, None;
      }
      var creds := new OAuthCreds(rows[id]);
      ApplyOverride(creds, id);
      if !NeedsRefresh(creds.expiresAt, now) {
        return current, None;
      }
      sent := Some(creds.refreshToken);
      match answer {
        case None => secret := current;
        case Some(g) =>
          SaveGrant(id, creds.refreshToken, g, writeOk);
          secret := g.access;
      }
    }
  }

  // ---------------------------------------------------------------------------
  // Interleaved callers
  // ---------------------------------------------------------------------------

  type Tid = nat

  datatype Stage =
    | Peeked                        // creds read from the store, without the lock
    | Sampling                      // forceRefresh: found no override, has not read the store yet
    | Waiting                       // for the lock
    | Held
    | Reread                        // creds read again, under the lock
    | Decided                       // creds hold the override; the exchange comes next
    | Exchanged(grant: Grant)
    | Saved(grant: Grant, ok: bool) // the store write returned
    | Leaving

  datatype Caller = Caller(
    force: bool, stage: Stage, creds: Creds,
    met: string,        // forceRefresh: the secret sampled before the lock
    seen: string,       // forceRefresh: the secret read under the lock
    checkedAt: int)

  // What the provider issued last. Its refresh token is the one it accepts.
  datatype Issued = Issued(access: string, refresh: string, expires: Option<int>)

  function After(issued: Issued, g: Grant): Issued {
    Issued(g.access, EffectiveRefresh(issued.refresh, g), Some(ToSecond(g.expires)))
  }

  // One exchange, with what the provider had issued last when it was sent.
  datatype Exchange = Exchange(force: bool, sent: string, met: string, seen: string, checkedAt: int, issued: Issued, answer: Option<Grant>)

  datatype System = System(
    clock: int, row: Creds, override: Option<Override>,
    holder: Option<Tid>, callers: map<Tid, Caller>,
    issued: Issued, history: seq<Exchange>)

  datatype Step =
    | Tick(elapsed: nat)
    | SecretFor(tid: Tid)
    | ForceRefresh(tid: Tid)
    | Sample(tid: Tid, readOk: bool)
    | Peek(tid: Tid)
    | Acquire(tid: Tid)
    | ReadAgain(tid: Tid, secretOk: bool, readOk: bool)
    | Decide(tid: Tid)
    | Send(tid: Tid, answer: Option<Grant>)
    | Save(tid: Tid, ok: bool)
    | Publish(tid: Tid)
    | Unlock(tid: Tid)

  function Put(s: System, tid: Tid, c: Caller): System {
    s.(callers := s.callers[tid := c])
  }

  function Drop(s: System, tid: Tid): System {
    s.(callers := s.callers - {tid})
  }

  function Next(s: System, step: Step): System {
    match step
    case Tick(d) => s.(clock := s.clock + d)
    case SecretFor(tid) =>
      if tid in s.callers then s else Put(s, tid, Caller(false, Peeked, s.row, "", "", 0))
    case ForceRefresh(tid) =>
      if tid in s.callers then s
      else if s.override.Some? && s.override.value.access != "" then
        Put(s, tid, Caller(true, Waiting, s.row, s.override.value.access, "", 0))
      else Put(s, tid, Caller(true, Sampling, s.row, "", "", 0))
    case Sample(tid, readOk) =>
      if tid in s.callers && s.callers[tid].stage == Sampling then
        Put(s, tid, s.callers[tid].(met := if readOk then s.row.access else "", stage := Waiting))
      else s
    case Peek(tid) =>
      if tid in s.callers && s.callers[tid].stage == Peeked then
        if NeedsRefresh(WithOverride(s.callers[tid].creds, s.override).expires, s.clock) then
          Put(s, tid, s.callers[tid].(stage := Waiting))
        else Drop(s, tid)
      else s
    case Acquire(tid) =>
      if tid in s.callers && s.callers[tid].stage == Waiting && s.holder.None? then
        Put(s.(holder := Some(tid)), tid, s.callers[tid].(stage := Held))
      else s
    case ReadAgain(tid, secretOk, readOk) =>
      if tid in s.callers && s.callers[tid].stage == Held then ReadAgainStep(s, tid, secretOk, readOk) else s
    case Decide(tid) =>
      if tid in s.callers && s.callers[tid].stage == Reread then DecideStep(s, tid) else s
    case Send(tid, answer) =>
      if tid in s.callers && s.callers[tid].stage == Decided && (answer.Some? ==> ValidGrant(answer.value))
      then SendStep(s, tid, answer) else s
    case Save(tid, ok) =>
      if tid in s.callers && s.callers[tid].stage.Exchanged? then
        var g := s.callers[tid].stage.grant;
        Put(s.(row := if ok then Written(s.row, g) else s.row), tid, s.callers[tid].(stage := Saved(g, ok)))
      else s
    case Publish(tid) =>
      if tid in s.callers && s.callers[tid].stage.Saved? then
        var c := s.callers[tid];
        Put(s.(override := if c.stage.ok then None else Some(OverrideFor(c.creds.refresh, c.stage.grant))),
            tid, c.(stage := Leaving))
      else s
    case Unlock(tid) =>
      if tid in s.callers && s.callers[tid].stage == Leaving then Drop(s.(holder := None), tid) else s
  }

  // forceRefresh first compares the secret under the lock with the one it met.
  function ReadAgainStep(s: System, tid: Tid, secretOk: bool, readOk: bool): System
    requires tid in s.callers
  {
    var c := s.callers[tid];
    var seen := CurrentSecret(s.row, s.override, secretOk);
    if (c.force && seen != "" && seen != c.met) || !readOk then Put(s, tid, c.(stage := Leaving))
    else Put(s, tid, c.(creds := s.row, seen := seen, stage := Reread))
  }

  function DecideStep(s: System, tid: Tid): System
    requires tid in s.callers
  {
    var c := s.callers[tid];
    var creds := WithOverride(c.creds, s.override);
    if !c.force && !NeedsRefresh(creds.expires, s.clock) then Put(s, tid, c.(stage := Leaving))
    else Put(s, tid, c.(creds := creds, checkedAt := s.clock, stage := Decided))
  }

  function SendStep(s: System, tid: Tid, answer: Option<Grant>): System
    requires tid in s.callers
  {
    var c := s.callers[tid];
    var s1 := s.(history := s.history + [Exchange(c.force, c.creds.refresh, c.met, c.seen, c.checkedAt, s.issued, answer)]);
    match answer
    case None => Put(s1, tid, c.(stage := Leaving))
    case Some(g) =>
      Put(s1.(issued := After(s.issued, g)), tid, c.(stage := Exchanged(g)))
  }

  function Run(s: System, steps: seq<Step>): System
    decreases |steps|
  {
    if steps == [] then s else Run(Next(s, steps[0]), steps[1..])
  }

  function Start(row: Creds): System {
    System(0, row, None, None, map[], Issued(row.access, row.refresh, row.expires), [])
  }

  // ---------------------------------------------------------------------------
  // What each exchange must satisfy
  // ---------------------------------------------------------------------------

  // It sends the refresh token issued last; secretFor sends it only for a token that is due, and
  // forceRefresh only when the secret it met before waiting is still the newest one.
  predicate ExchangeOk(e: Exchange) {
    && e.sent == e.issued.refresh
    && (!e.force ==> NeedsRefresh(e.issued.expires, e.checkedAt))
    && (e.force && e.seen != "" ==> e.seen == e.met == e.issued.access)
  }

  predicate AllOk(h: seq<Exchange>) {
    forall e :: e in h ==> ExchangeOk(e)
  }

  // The one step that loses a rotated token: the write succeeds, the provider returned no new refresh
  // token, and the store does not hold the one the exchange sent (an earlier write of it had failed).
  predicate Strands(s: System, step: Step) {
    && step.Save? && step.ok && step.tid in s.callers
    && s.callers[step.tid].stage.Exchanged?
    && s.callers[step.tid].stage.grant.newRefresh == ""
    && s.row.refresh != s.callers[step.tid].creds.refresh
  }

  ghost predicate NeverStrands(s: System, steps: seq<Step>)
    decreases |steps|
  {
    steps == [] || (!Strands(s, steps[0]) && NeverStrands(Next(s, steps[0]), steps[1..]))
  }

  // ---------------------------------------------------------------------------
  // The invariant
  // ---------------------------------------------------------------------------

  predicate InLock(stage: Stage) {
    stage != Peeked && stage != Sampling && stage != Waiting
  }

  ghost predicate LockOk(s: System) {
    && (forall tid :: tid in s.callers && InLock(s.callers[tid].stage) ==> s.holder == Some(tid))
    && (s.holder.Some? ==> s.holder.value in s.callers && InLock(s.callers[s.holder.value].stage))
  }

  // Store and override together hold what the provider issued last.
  predicate Agrees(row: Creds, ov: Option<Override>, issued: Issued) {
    && WithOverride(row, ov).refresh == issued.refresh
    && WithOverride(row, ov).expires == issued.expires
    && CurrentSecret(row, ov, true) == issued.access
  }

  predicate HolderOk(s: System, c: Caller) {
    match c.stage
    case Reread => Agrees(s.row, s.override, s.issued) && c.creds == s.row && SeenOk(s, c)
    case Decided =>
      && Agrees(s.row, s.override, s.issued)
      && c.creds == WithOverride(s.row, s.override)
      && (!c.force ==> NeedsRefresh(c.creds.expires, c.checkedAt))
      && SeenOk(s, c)
    case Exchanged(g) =>
      && ValidGrant(g)
      && c.creds == WithOverride(s.row, s.override)
      && s.issued == Issued(g.access, EffectiveRefresh(c.creds.refresh, g), Some(ToSecond(g.expires)))
    case Saved(g, ok) =>
      && ValidGrant(g)
      && Agrees(s.row, if ok then None else Some(OverrideFor(c.creds.refresh, g)), s.issued)
    case _ => Agrees(s.row, s.override, s.issued)
  }

  predicate SeenOk(s: System, c: Caller) {
    c.force && c.seen != "" ==> c.seen == c.met == s.issued.access
  }

  ghost predicate Inv(s: System) {
    LockOk(s) && HolderInv(s) && AllOk(s.history)
  }

  lemma NextKeepsLock(s: System, step: Step)
    requires LockOk(s)
    ensures LockOk(Next(s, step))
  {
  }

  ghost predicate HolderInv(s: System) {
    match s.holder
    case None => Agrees(s.row, s.override, s.issued)
    case Some(t) => t in s.callers && HolderOk(s, s.callers[t])
  }

  lemma LockedStepKeepsHolder(s: System, step: Step)
    requires LockOk(s) && HolderInv(s) && !Strands(s, step)
    requires step.ReadAgain? || step.Decide? || step.Send?
    requires s.holder == Some(step.tid)
    ensures HolderInv(Next(s, step))
  {
    match step
    case ReadAgain(_, _, _) =>
    case Decide(_) =>
    case Send(_, _) =>
  }

  lemma WriteKeepsHolder(s: System, step: Step)
    requires LockOk(s) && HolderInv(s) && !Strands(s, step)
    requires step.Save? || step.Publish? || step.Unlock?
    requires s.holder == Some(step.tid)
    ensures HolderInv(Next(s, step))
  {
    match step
    case Save(_, _) =>
    case Publish(_) =>
    case Unlock(_) =>
  }

  // A caller that does not hold the lock changes only its own record.
  lemma UnlockedStepKeepsHolder(s: System, step: Step)
    requires LockOk(s) && HolderInv(s)
    requires step.Tick? || s.holder != Some(step.tid)
    ensures HolderInv(Next(s, step))
  {
    var t := Next(s, step);
    assert t.row == s.row && t.override == s.override && t.issued == s.issued;
    if s.holder.Some? {
      assert t.holder == s.holder && t.callers[s.holder.value] == s.callers[s.holder.value];
    }
  }

  lemma NextKeepsHolder(s: System, step: Step)
    requires LockOk(s) && HolderInv(s) && !Strands(s, step)
    ensures HolderInv(Next(s, step))
  {
    if step.Tick? || s.holder != Some(step.tid) {
      UnlockedStepKeepsHolder(s, step);
    } else if step.ReadAgain? || step.Decide? || step.Send? {
      LockedStepKeepsHolder(s, step);
    } else if step.Save? || step.Publish? || step.Unlock? {
      WriteKeepsHolder(s, step);
    } else {
      assert Next(s, step) == s;
    }
  }

  lemma NextKeepsHistory(s: System, step: Step)
    requires Inv(s)
    ensures AllOk(Next(s, step).history)
  {
  }

  lemma NextKeepsInv(s: System, step: Step)
    requires Inv(s) && !Strands(s, step)
    ensures Inv(Next(s, step))
  {
    NextKeepsLock(s, step);
    NextKeepsHolder(s, step);
    NextKeepsHistory(s, step);
  }

  // Main result: in every interleaving with any pattern of failed writes in which no write strands a
  // token, every exchange is right.
  lemma {:induction false} EveryExchangeIsRight(s: System, steps: seq<Step>)
    requires Inv(s) && NeverStrands(s, steps)
    ensures Inv(Run(s, steps)) && AllOk(Run(s, steps).history)
    decreases |steps|
  {
    if steps != [] {
      NextKeepsInv(s, steps[0]);
      EveryExchangeIsRight(Next(s, steps[0]), steps[1..]);
    }
  }

  lemma StartIsInv(row: Creds)
    ensures Inv(Start(row))
  {
  }

  // What the history says was issued last after its first n exchanges.
  function IssuedAfter(first: Issued, h: seq<Exchange>, n: nat): Issued
    requires n <= |h|
  {
    if n == 0 then first
    else if h[n - 1].answer.Some? then After(IssuedAfter(first, h, n - 1), h[n - 1].answer.value)
    else IssuedAfter(first, h, n - 1)
  }

  ghost predicate Chained(first: Issued, s: System) {
    && s.issued == IssuedAfter(first, s.history, |s.history|)
    && (forall k :: 0 <= k < |s.history| ==> s.history[k].issued == IssuedAfter(first, s.history, k))
  }

  lemma {:induction false} IssuedAfterPrefix(first: Issued, h: seq<Exchange>, e: Exchange, n: nat)
    requires n <= |h|
    ensures IssuedAfter(first, h + [e], n) == IssuedAfter(first, h, n)
  {
    if n > 0 { IssuedAfterPrefix(first, h, e, n - 1); }
  }

  lemma ChainExtends(first: Issued, s: System, t: System, e: Exchange)
    requires Chained(first, s) && t.history == s.history + [e] && e.issued == s.issued
    requires t.issued == if e.answer.Some? then After(s.issued, e.answer.value) else s.issued
    ensures Chained(first, t)
  {
    forall n: nat | n <= |s.history| ensures IssuedAfter(first, t.history, n) == IssuedAfter(first, s.history, n) {
      IssuedAfterPrefix(first, s.history, e, n);
    }
    assert t.history[|s.history|] == e;
    forall k | 0 <= k < |t.history| ensures t.history[k].issued == IssuedAfter(first, t.history, k) {
      if k < |s.history| { assert t.history[k] == s.history[k]; }
    }
  }

  lemma NextKeepsChained(first: Issued, s: System, step: Step)
    requires Chained(first, s)
    ensures Chained(first, Next(s, step))
  {
    var t := Next(s, step);
    if !(t.history == s.history && t.issued == s.issued) {
      var e: Exchange :| t.history == s.history + [e] && e.issued == s.issued &&
        t.issued == if e.answer.Some? then After(s.issued, e.answer.value) else s.issued;
      ChainExtends(first, s, t, e);
    }
  }

  lemma {:induction false} RunIsChained(first: Issued, s: System, steps: seq<Step>)
    requires Chained(first, s)
    ensures Chained(first, Run(s, steps))
    decreases |steps|
  {
    if steps != [] {
      NextKeepsChained(first, s, steps[0]);
      RunIsChained(first, Next(s, steps[0]), steps[1..]);
    }
  }

  lemma {:induction false} FailuresIssueNothing(first: Issued, h: seq<Exchange>, i: nat, j: nat)
    requires i < j <= |h| && forall k :: i < k < j ==> h[k].answer.None?
    ensures IssuedAfter(first, h, j) == IssuedAfter(first, h, i + 1)
  {
    if i + 1 < j { FailuresIssueNothing(first, h, i, j - 1); }
  }

  // Callers of secretFor that wait on one expired token cause one successful exchange: the next one
  // starts only once the token the last success brought is itself within a minute of its expiry.
  lemma OneExchangePerToken(row: Creds, steps: seq<Step>, i: nat, j: nat)
    requires NeverStrands(Start(row), steps)
    requires i < j < |Run(Start(row), steps).history|
    requires var h := Run(Start(row), steps).history;
      h[i].answer.Some? && !h[j].force && forall k :: i < k < j ==> h[k].answer.None?
    ensures var h := Run(Start(row), steps).history;
      h[j].checkedAt + REFRESH_MARGIN > ToSecond(h[i].answer.value.expires)
  {
    var first := Start(row).issued;
    var h := Run(Start(row), steps).history;
    EveryExchangeIsRight(Start(row), steps);
    RunIsChained(first, Start(row), steps);
    FailuresIssueNothing(first, h, i, j);
    assert ExchangeOk(h[j]) by { assert h[j] in h; }
  }

  // ---------------------------------------------------------------------------
  // When a token is renewed, and what callers are given
  // ---------------------------------------------------------------------------

  // The token issued last is due: its expiry is known and less than 60 s away.
  predicate DueWithin(issued: Issued, now: int) {
    issued.expires.Some? && issued.expires.value - now < 60 * SECOND
  }

  // In every reachable state, a caller of secretFor that has read again under the lock goes on to an exchange
  // exactly when the newest token is due; forceRefresh always does.
  lemma DecidesExactlyWhen(row: Creds, steps: seq<Step>, tid: Tid)
    requires NeverStrands(Start(row), steps)
    requires var s := Run(Start(row), steps); tid in s.callers && s.callers[tid].stage == Reread
    ensures var s := Run(Start(row), steps); var t := Next(s, Decide(tid));
      && tid in t.callers && t.history == s.history
      && t.callers[tid].stage == (if s.callers[tid].force || DueWithin(s.issued, s.clock) then Decided else Leaving)
  {
    StartIsInv(row);
    EveryExchangeIsRight(Start(row), steps);
    hide Run;
  }

  // Under the lock a caller goes on exactly when the row can be read again and, for forceRefresh, the secret that
  // can be read is still the one it met before it waited.
  lemma GoesOnExactlyWhen(s: System, tid: Tid, secretOk: bool, readOk: bool)
    requires tid in s.callers && s.callers[tid].stage == Held
    ensures var t, c := Next(s, ReadAgain(tid, secretOk, readOk)), s.callers[tid];
      var ov := if s.override.Some? then s.override.value.access else "";
      var seen := if ov != "" then ov else if secretOk then s.row.access else "";
      && tid in t.callers && t.history == s.history
      && t.callers[tid].stage == if readOk && (c.force && seen != "" ==> seen == c.met) then Reread else Leaving
  {
  }

  function Rank(stage: Stage): nat {
    match stage
    case Peeked => 0
    case Sampling => 0
    case Waiting => 1
    case Held => 2
    case Reread => 3
    case Decided => 4
    case Exchanged(_) => 5
    case Saved(_, _) => 6
    case Leaving => 7
  }

  // A caller only moves on, and an exchange, failed or not, moves it past the point where it could make another:
  // each call makes at most one.
  lemma CallerMovesOn(s: System, step: Step, tid: Tid)
    requires tid in s.callers
    ensures var t := Next(s, step);
      && (tid in t.callers ==> Rank(s.callers[tid].stage) <= Rank(t.callers[tid].stage) && t.callers[tid].force == s.callers[tid].force)
      && (!step.Tick? && step.tid == tid && t.history != s.history ==>
            s.callers[tid].stage == Decided && tid in t.callers && Rank(t.callers[tid].stage) > Rank(Decided))
      && (!step.Tick? && step.tid == tid && t != s && tid in t.callers ==> Rank(s.callers[tid].stage) < Rank(t.callers[tid].stage))
  {
  }

  // What callers are given between two exchanges is the token issued last.
  lemma SecretIsNewest(row: Creds, steps: seq<Step>)
    requires NeverStrands(Start(row), steps)
    ensures var s := Run(Start(row), steps);
      (forall tid :: tid in s.callers ==> !s.callers[tid].stage.Exchanged? && !s.callers[tid].stage.Saved?) ==>
        CurrentSecret(s.row, s.override, true) == s.issued.access
  {
    StartIsInv(row);
    EveryExchangeIsRight(Start(row), steps);
    hide Run;
  }

  // A secretFor that meets no other caller.
  function Looked(s: System, tid: Tid): System {
    Next(Next(Next(s, SecretFor(tid)), Peek(tid)), Acquire(tid))
  }

  // Main result: alone, secretFor renews the token exactly when it is due, and otherwise changes nothing; the
  // token it brings is stored, or kept in memory when the write fails.
  lemma LoneSecretForExactlyWhen(s: System, tid: Tid, g: Grant, saveOk: bool)
    requires Inv(s) && s.holder.None? && s.callers == map[] && ValidGrant(g)
    ensures var t := Closed(Answered(Looked(s, tid), tid, g), tid, saveOk);
      if DueWithin(s.issued, s.clock)
      then t == System(s.clock, if saveOk then Written(s.row, g) else s.row, if saveOk then None else Some(OverrideFor(s.issued.refresh, g)),
                       None, map[], After(s.issued, g),
                       s.history + [Exchange(false, s.issued.refresh, "", CurrentSecret(s.row, s.override, true), s.clock, s.issued, Some(g))])
      else t == s
  {
    LookedEffect(s, tid);
    var s1 := Looked(s, tid);
    if DueWithin(s.issued, s.clock) {
      var s2 := Answered(s1, tid, g);
      ClosedEffect(s2, tid, s2.callers[tid], saveOk);
    } else {
      AbsentChangesNothing(s, tid, g, saveOk);
    }
  }

  lemma LookedEffect(s: System, tid: Tid)
    requires Inv(s) && s.holder.None? && s.callers == map[]
    ensures Looked(s, tid) ==
      if DueWithin(s.issued, s.clock) then s.(holder := Some(tid), callers := map[tid := Caller(false, Held, s.row, "", "", 0)]) else s
  {
    assert map[tid := Caller(false, Peeked, s.row, "", "", 0)] - {tid} == map[];
  }

  lemma AbsentChangesNothing(s: System, tid: Tid, g: Grant, saveOk: bool)
    requires tid !in s.callers
    ensures Closed(Answered(s, tid, g), tid, saveOk) == s
  {
  }

  // ---------------------------------------------------------------------------
  // Exactly when a write loses the token
  // ---------------------------------------------------------------------------

  // Store and override agree with the provider after the write exactly when the write does not strand.
  lemma WriteAgreesExactlyWhen(s: System, tid: Tid, ok: bool)
    requires Inv(s) && tid in s.callers && s.callers[tid].stage.Exchanged?
    ensures var t := Next(Next(s, Save(tid, ok)), Publish(tid));
      Agrees(t.row, t.override, t.issued) <==> !Strands(s, Save(tid, ok))
  {
  }

  ghost predicate AnswersAll(steps: seq<Step>, rotates: bool) {
    forall st :: st in steps && st.Send? && st.answer.Some? ==> (st.answer.value.newRefresh != "") == rotates
  }

  // Every grant at hand rotates, or the one refresh token is everywhere.
  ghost predicate Uniform(s: System, rotates: bool, kept: string) {
    if rotates then
      forall tid :: tid in s.callers && s.callers[tid].stage.Exchanged? ==> s.callers[tid].stage.grant.newRefresh != ""
    else
      && s.row.refresh == kept
      && (s.override.Some? ==> s.override.value.refresh == kept)
      && (forall tid :: tid in s.callers ==>
            && s.callers[tid].creds.refresh == kept
            && (s.callers[tid].stage.Exchanged? || s.callers[tid].stage.Saved? ==> s.callers[tid].stage.grant.newRefresh == ""))
  }

  lemma NextKeepsUniform(s: System, step: Step, rotates: bool, kept: string)
    requires Uniform(s, rotates, kept)
    requires step.Send? && step.answer.Some? ==> (step.answer.value.newRefresh != "") == rotates
    ensures !Strands(s, step) && Uniform(Next(s, step), rotates, kept)
  {
    if rotates {
      var t := Next(s, step);
      forall tid | tid in t.callers && t.callers[tid].stage.Exchanged? ensures t.callers[tid].stage.grant.newRefresh != "" {
        if tid in s.callers && s.callers[tid].stage.Exchanged? {}
      }
    } else if step.Send? || step.Save? || step.Publish? || step.Unlock? {
      NextKeepsOneToken(s, step, kept);
    } else {
    }
  }

  lemma NextKeepsOneToken(s: System, step: Step, kept: string)
    requires Uniform(s, false, kept)
    requires step.Send? || step.Save? || step.Publish? || step.Unlock?
    requires step.Send? && step.answer.Some? ==> step.answer.value.newRefresh == ""
    ensures Uniform(Next(s, step), false, kept)
  {
    match step
    case Send(_, _) =>
    case Save(_, _) =>
    case Publish(_) =>
    case Unlock(_) =>
  }

  // A provider that rotates on every exchange never meets the losing write, nor does one that never rotates.
  lemma {:induction false} UniformProviderNeverStrands(s: System, steps: seq<Step>, rotates: bool, kept: string)
    requires AnswersAll(steps, rotates) && Uniform(s, rotates, kept)
    ensures NeverStrands(s, steps)
    decreases |steps|
  {
    if steps != [] {
      assert steps[0] in steps;
      assert forall st :: st in steps[1..] ==> st in steps;
      NextKeepsUniform(s, steps[0], rotates, kept);
      UniformProviderNeverStrands(Next(s, steps[0]), steps[1..], rotates, kept);
    }
  }

  lemma EveryUniformRunIsRight(row: Creds, steps: seq<Step>, rotates: bool)
    requires AnswersAll(steps, rotates)
    ensures AllOk(Run(Start(row), steps).history)
  {
    StartIsInv(row);
    UniformProviderNeverStrands(Start(row), steps, rotates, row.refresh);
    EveryExchangeIsRight(Start(row), steps);
  }

  // One forceRefresh that meets no other caller, start to end.
  function Opened(s: System, tid: Tid): System {
    Next(Next(Next(s, ForceRefresh(tid)), Sample(tid, true)), Acquire(tid))
  }

  function Answered(s: System, tid: Tid, g: Grant): System {
    Next(Next(Next(s, ReadAgain(tid, true, true)), Decide(tid)), Send(tid, Some(g)))
  }

  function Closed(s: System, tid: Tid, saveOk: bool): System {
    Next(Next(Next(s, Save(tid, saveOk)), Publish(tid)), Unlock(tid))
  }

  function Round(s: System, tid: Tid, g: Grant, saveOk: bool): System {
    Closed(Answered(Opened(s, tid), tid, g), tid, saveOk)
  }

  lemma OpenedEffect(s: System, tid: Tid)
    requires s.holder.None? && s.callers == map[]
    ensures Opened(s, tid) == s.(holder := Some(tid),
      callers := map[tid := Caller(true, Held, s.row, CurrentSecret(s.row, s.override, true), "", 0)])
  {
  }

  lemma ClosedEffect(s: System, tid: Tid, c: Caller, saveOk: bool)
    requires s.callers == map[tid := c] && c.stage.Exchanged?
    ensures var g := c.stage.grant;
      Closed(s, tid, saveOk) == s.(
        row := if saveOk then Written(s.row, g) else s.row,
        override := if saveOk then None else Some(OverrideFor(c.creds.refresh, g)),
        holder := None, callers := map[])
  {
    var g := c.stage.grant;
    var s1 := Next(s, Save(tid, saveOk));
    assert s1 == s.(row := if saveOk then Written(s.row, g) else s.row, callers := map[tid := c.(stage := Saved(g, saveOk))]);
    var s2 := Next(s1, Publish(tid));
    assert s2 == s1.(override := if saveOk then None else Some(OverrideFor(c.creds.refresh, g)),
                     callers := map[tid := c.(stage := Leaving)]);
    assert s2.callers - {tid} == map[];
  }

  lemma RoundEffect(s: System, tid: Tid, g: Grant, saveOk: bool)
    requires s.holder.None? && s.callers == map[] && ValidGrant(g)
    ensures var sent := WithOverride(s.row, s.override).refresh;
      var met := CurrentSecret(s.row, s.override, true);
      Round(s, tid, g, saveOk) == System(
        s.clock,
        if saveOk then Written(s.row, g) else s.row,
        if saveOk then None else Some(OverrideFor(sent, g)),
        None, map[],
        After(s.issued, g),
        s.history + [Exchange(true, sent, met, met, s.clock, s.issued, Some(g))])
  {
    OpenedEffect(s, tid);
    var s1 := Opened(s, tid);
    var s2 := Answered(s1, tid, g);
    ClosedEffect(s2, tid, s2.callers[tid], saveOk);
  }

  // A provider that rotates once and then does not: the first write fails, the second succeeds, and
  // the third exchange sends the token the provider has already replaced.
  lemma MixedProviderLosesTheToken()
    ensures var s1 := Round(Start(Creds("a0", "r0", None)), 0, Grant("a1", "r1", 0), false);
      var s3 := Round(Round(s1, 0, Grant("a2", "", 0), true), 0, Grant("a3", "", 0), true);
      |s3.history| == 3 && s3.history[2].sent == "r0" && s3.history[2].issued.refresh == "r1" && !AllOk(s3.history)
  {
    var s := Start(Creds("a0", "r0", None));
    RoundEffect(s, 0, Grant("a1", "r1", 0), false);
    var s1 := Round(s, 0, Grant("a1", "r1", 0), false);
    RoundEffect(s1, 0, Grant("a2", "", 0), true);
    var s2 := Round(s1, 0, Grant("a2", "", 0), true);
    RoundEffect(s2, 0, Grant("a3", "", 0), true);
    var s3 := Round(s2, 0, Grant("a3", "", 0), true);
    assert s3.history[2] in s3.history;
  }
}
