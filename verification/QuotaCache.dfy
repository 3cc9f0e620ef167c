/**
 The quota cache: overlapping fetches are numbered when they begin, a high-water mark per account
 decides which result may be stored or joined, and an invalidation raises the mark. Each step is
 one critical section; fetches run between them.
 */
module QuotaCache {
  import opened Options

  const SECOND: int := 1_000_000_000
  const QUOTA_TTL: int := 60 * SECOND

  type Id = string

  // What a fetch brought. num is the number it took when it began.
  datatype Read = Read(num: nat, fetchedAt: int, payload: string)

  datatype Cache = Cache(num: nat, m: map<Id, Read>, highWater: map<Id, nat>, flights: map<Id, nat>)

  // How the first critical section of quotaFor answers.
  datatype Answer = Hit(read: Read) | Join(flight: nat) | Fly(num: nat) | Direct(num: nat)

  function Mark(c: Cache, id: Id): nat {
    if id in c.highWater then c.highWater[id] else 0
  }

  predicate IsHit(c: Cache, id: Id, now: int) {
    id in c.m && now - c.m[id].fetchedAt < QUOTA_TTL
  }

  predicate CanJoin(c: Cache, id: Id) {
    id in c.flights && c.flights[id] > Mark(c, id)
  }

  function AnswerOf(c: Cache, id: Id, refresh: bool, now: int): Answer {
    if refresh then Direct(c.num + 1)
    else if IsHit(c, id, now) then Hit(c.m[id])
    else if CanJoin(c, id) then Join(c.flights[id])
    else Fly(c.num + 1)
  }

  function AfterAsk(c: Cache, id: Id, a: Answer): Cache {
    match a
    case Hit(_) => c
    case Join(_) => c
    case Fly(num) => c.(num := num, flights := c.flights[id := num])
    case Direct(num) => c.(num := num)
  }

  // The numbering rule: a result is stored only above the mark, and raises it.
  function Stored(c: Cache, id: Id, r: Read): Cache {
    if r.num > Mark(c, id) then c.(highWater := c.highWater[id := r.num], m := c.m[id := r]) else c
  }

  function Landed(c: Cache, id: Id, r: Read): Cache {
    var c1 := Stored(c, id, r);
    if id in c1.flights && c1.flights[id] == r.num then c1.(flights := c1.flights - {id}) else c1
  }

  function Invalidated(c: Cache, id: Id): Cache {
    c.(num := c.num + 1, m := c.m - {id}, highWater := c.highWater[id := c.num + 1])
  }

  // The cache the process keeps, updated in place under its mutex.
  class SharedCache {
    var num: nat
    var m: map<Id, Read>
    var highWater: map<Id, nat>
    var flights: map<Id, nat>

    constructor ()
      ensures Value() == Cache(0, map[], map[], map[])
    {
      num, m, highWater, flights := 0, map[], map[], map[];
    }

    function Value(): Cache
      reads this
    {
      Cache(num, m, highWater, flights)
    }

    method TakeNumber() returns (s: nat)
      modifies this`num
      ensures Value() == old(Value()).(num := s) && s == old(num) + 1
    {
      num := num + 1;
      s := num;
    }

    method Ask(id: Id, refresh: bool, now: int) returns (a: Answer)
      modifies this
      ensures a == AnswerOf(old(Value()), id, refresh, now)
      ensures Value() == AfterAsk(old(Value()), id, a)
    {
      if id in m && !refresh {
        if now - m[id].fetchedAt < QUOTA_TTL {
          return Hit(m[id]);
        }
      }
      var hw := if id in highWater then highWater[id] else 0;
      if !refresh && id in flights && flights[id] > hw {
        return Join(flights[id]);
      }
      var s := TakeNumber();
      if refresh {
        return Direct(s);
      }
      flights := flights[id := s];
      return Fly(s);
    }

    method Store(id: Id, r: Read)
      modifies this`m, this`highWater
      ensures Value() == Stored(old(Value()), id, r)
    {
      if r.num > (if id in highWater then highWater[id] else 0) {
        highWater := highWater[id := r.num];
        m := m[id := r];
      }
    }

    method Land(id: Id, r: Read)
      modifies this
      ensures Value() == Landed(old(Value()), id, r)
    {
      Store(id, r);
      if id in flights && flights[id] == r.num {
        flights := flights - {id};
      }
    }

    method Invalidate(id: Id)
      modifies this
      ensures Value() == Invalidated(old(Value()), id)
    {
      m := m - {id};
      var s := TakeNumber();
      highWater := highWater[id := s];
    }
  }

  // ---------------------------------------------------------------------------
  // Interleaved callers, flights and invalidations
  // ---------------------------------------------------------------------------

  type Tid = nat

  datatype Flight = Running(id: Id) | Closed(id: Id, res: Read)

  datatype Call =
    | Waiting(id: Id, flight: nat, since: nat)
    | Fetching(id: Id, num: nat, since: nat, quiet: bool)  // a refresh, or (quiet) freshQuota
    | Starting(id: Id, since: nat)                        // freshQuota before it takes its number

  // A read handed to a caller; joined is the flight it waited for, 0 for none.
  datatype Return = Return(id: Id, since: nat, joined: nat, read: Read)

  // lastCut records, per account, the number its last invalidation took.
  datatype System = System(
    clock: int, cache: Cache, flights: map<nat, Flight>, calls: map<Tid, Call>,
    lastCut: map<Id, nat>, handed: seq<Return>)

  datatype Step =
    | Tick(elapsed: nat)
    | Ask(tid: Tid, id: Id, refresh: bool)
    | FlightLands(num: nat, fetchedAt: int, payload: string)
    | Wake(tid: Tid)
    | Cancel(tid: Tid)
    | FreshCall(tid: Tid, id: Id)
    | FreshStarts(tid: Tid)
    | FetchEnds(tid: Tid, ok: bool, fetchedAt: int, payload: string)
    | Invalidate(id: Id)

  function Cut(s: System, id: Id): nat {
    if id in s.lastCut then s.lastCut[id] else 0
  }

  function AskStep(s: System, tid: Tid, id: Id, refresh: bool): System {
    var a := AnswerOf(s.cache, id, refresh, s.clock);
    var s1 := s.(cache := AfterAsk(s.cache, id, a));
    match a
    case Hit(r) => s1.(handed := s.handed + [Return(id, Cut(s, id), 0, r)])
    case Join(f) => s1.(calls := s.calls[tid := Waiting(id, f, Cut(s, id))])
    case Fly(f) => s1.(flights := s.flights[f := Running(id)], calls := s.calls[tid := Waiting(id, f, Cut(s, id))])
    case Direct(q) => s1.(calls := s.calls[tid := Fetching(id, q, Cut(s, id), false)])
  }

  function WakeStep(s: System, tid: Tid): System
    requires tid in s.calls && s.calls[tid].Waiting?
  {
    var c := s.calls[tid];
    if c.flight in s.flights && s.flights[c.flight].Closed? then
      var r := if c.id in s.cache.m then s.cache.m[c.id] else s.flights[c.flight].res;
      s.(calls := s.calls - {tid}, handed := s.handed + [Return(c.id, c.since, c.flight, r)])
    else s
  }

  // A failed freshQuota stores nothing; a failed refresh stores its error like any answer.
  function FetchEndsStep(s: System, tid: Tid, ok: bool, fetchedAt: int, payload: string): System
    requires tid in s.calls && s.calls[tid].Fetching?
  {
    var c := s.calls[tid];
    var r := Read(c.num, fetchedAt, payload);
    if c.quiet && !ok then s.(calls := s.calls - {tid})
    else s.(cache := Stored(s.cache, c.id, r), calls := s.calls - {tid},
            handed := s.handed + [Return(c.id, c.since, 0, r)])
  }

  function Next(s: System, step: Step): System {
    match step
    case Tick(d) => s.(clock := s.clock + d)
    case Ask(tid, id, refresh) => if tid in s.calls then s else AskStep(s, tid, id, refresh)
    case FlightLands(num, fetchedAt, payload) =>
      if num in s.flights && s.flights[num].Running? then
        var f := s.flights[num];
        var r := Read(num, fetchedAt, payload);
        s.(cache := Landed(s.cache, f.id, r), flights := s.flights[num := Closed(f.id, r)])
      else s
    case Wake(tid) => if tid in s.calls && s.calls[tid].Waiting? then WakeStep(s, tid) else s
    case Cancel(tid) => if tid in s.calls && s.calls[tid].Waiting? then s.(calls := s.calls - {tid}) else s
    case FreshCall(tid, id) => if tid in s.calls then s else s.(calls := s.calls[tid := Starting(id, Cut(s, id))])
    case FreshStarts(tid) =>
      if tid in s.calls && s.calls[tid].Starting? then
        var c := s.calls[tid];
        s.(cache := s.cache.(num := s.cache.num + 1),
           calls := s.calls[tid := Fetching(c.id, s.cache.num + 1, c.since, true)])
      else s
    case FetchEnds(tid, ok, fetchedAt, payload) =>
      if tid in s.calls && s.calls[tid].Fetching? then FetchEndsStep(s, tid, ok, fetchedAt, payload) else s
    case Invalidate(id) =>
      s.(cache := Invalidated(s.cache, id), lastCut := s.lastCut[id := s.cache.num + 1])
  }

  function Run(s: System, steps: seq<Step>): System
    decreases |steps|
  {
    if steps == [] then s else Run(Next(s, steps[0]), steps[1..])
  }

  const Start := System(0, Cache(0, map[], map[], map[]), map[], map[], map[], [])

  // ---------------------------------------------------------------------------
  // What every run keeps
  // ---------------------------------------------------------------------------

  // A cached read is the one at the mark, and began after the account's last invalidation.
  ghost predicate CacheOk(s: System) {
    && (forall id :: id in s.cache.m ==> s.cache.m[id].num == Mark(s.cache, id) > Cut(s, id))
    && (forall id :: id in s.cache.highWater ==> s.cache.highWater[id] <= s.cache.num)
    && (forall id :: id in s.lastCut ==> s.lastCut[id] <= Mark(s.cache, id))
  }

  // The only running flight above an account's mark is the registered one.
  ghost predicate FlightsOk(s: System) {
    && (forall f :: f in s.flights ==> 0 < f <= s.cache.num)
    && (forall f :: f in s.flights && s.flights[f].Running? && f > Mark(s.cache, s.flights[f].id) ==>
          s.flights[f].id in s.cache.flights && s.cache.flights[s.flights[f].id] == f)
    && (forall f :: f in s.flights && s.flights[f].Closed? ==>
          s.flights[f].res.num == f <= Mark(s.cache, s.flights[f].id))
    && (forall id :: id in s.cache.flights ==>
          s.cache.flights[id] in s.flights && s.flights[s.cache.flights[id]] == Running(id))
  }

  predicate CallOk(s: System, c: Call) {
    match c
    case Waiting(id, f, since) => since < f && f in s.flights && s.flights[f].id == id
    case Fetching(_, num, since, _) => since < num <= s.cache.num
    case Starting(_, since) => since <= s.cache.num
  }

  ghost predicate CallsOk(s: System) {
    forall tid :: tid in s.calls ==> CallOk(s, s.calls[tid])
  }

  // A caller gets a read begun after the last invalidation before its call, and no older than the
  // flight it joined.
  predicate ReturnOk(r: Return) {
    r.since < r.read.num && r.joined <= r.read.num
  }

  ghost predicate Inv(s: System) {
    CacheOk(s) && FlightsOk(s) && CallsOk(s) && forall r :: r in s.handed ==> ReturnOk(r)
  }

  lemma MarkOnlyRises(s: System, step: Step, id: Id)
    requires CacheOk(s)
    ensures Mark(s.cache, id) <= Mark(Next(s, step).cache, id)
  {
  }

  lemma StoredKeepsCache(s: System, t: System, id: Id, r: Read)
    requires CacheOk(s) && r.num <= s.cache.num
    requires t.cache == Stored(s.cache, id, r) && t.lastCut == s.lastCut
    ensures CacheOk(t)
  {
  }

  lemma SameEntriesKeepCache(s: System, t: System)
    requires CacheOk(s) && t.cache.m == s.cache.m && t.cache.highWater == s.cache.highWater
    requires t.cache.num >= s.cache.num && t.lastCut == s.lastCut
    ensures CacheOk(t)
  {
  }

  lemma InvalidateKeepsCache(s: System, id: Id)
    requires CacheOk(s)
    ensures CacheOk(Next(s, Invalidate(id)))
  {
  }

  lemma FetchKeepsCache(s: System, step: Step)
    requires CacheOk(s) && CallsOk(s) && FlightsOk(s)
    requires step.FlightLands? || step.FetchEnds?
    ensures CacheOk(Next(s, step))
  {
    var t := Next(s, step);
    match step
    case FlightLands(num, fetchedAt, payload) =>
      if num in s.flights && s.flights[num].Running? {
        var r := Read(num, fetchedAt, payload);
        StoredKeepsCache(s, s.(cache := Stored(s.cache, s.flights[num].id, r)), s.flights[num].id, r);
      }
    case FetchEnds(tid, ok, fetchedAt, payload) =>
      if tid in s.calls && s.calls[tid].Fetching? && !(s.calls[tid].quiet && !ok) {
        StoredKeepsCache(s, t, s.calls[tid].id, Read(s.calls[tid].num, fetchedAt, payload));
      }
  }

  lemma NextKeepsCache(s: System, step: Step)
    requires Inv(s)
    ensures CacheOk(Next(s, step))
  {
    if step.FlightLands? || step.FetchEnds? {
      FetchKeepsCache(s, step);
    } else if step.Invalidate? {
      InvalidateKeepsCache(s, step.id);
    } else {
      SameEntriesKeepCache(s, Next(s, step));
    }
  }

  lemma LandingKeepsFlights(s: System, num: nat, fetchedAt: int, payload: string)
    requires Inv(s) && num in s.flights && s.flights[num].Running?
    ensures FlightsOk(Next(s, FlightLands(num, fetchedAt, payload)))
  {
    var id := s.flights[num].id;
    var r := Read(num, fetchedAt, payload);
    var t := Next(s, FlightLands(num, fetchedAt, payload));
    assert t.flights == s.flights[num := Closed(id, r)];
    assert forall o :: Mark(t.cache, o) >= Mark(s.cache, o) by {
      forall o ensures Mark(t.cache, o) >= Mark(s.cache, o) { MarkOnlyRises(s, FlightLands(num, fetchedAt, payload), o); }
    }
  }

  // The same flights, and marks that only rise.
  lemma FlightsStay(s: System, t: System)
    requires FlightsOk(s) && t.flights == s.flights && t.cache.flights == s.cache.flights && t.cache.num >= s.cache.num
    requires forall id :: Mark(t.cache, id) >= Mark(s.cache, id)
    ensures FlightsOk(t)
  {
    hide Mark;
  }

  lemma FlyKeepsFlights(s: System, tid: Tid, id: Id, refresh: bool)
    requires CacheOk(s) && FlightsOk(s) && AnswerOf(s.cache, id, refresh, s.clock).Fly?
    ensures FlightsOk(AskStep(s, tid, id, refresh))
  {
    FlyIs(s.cache, id, refresh, s.clock);
    var f := AnswerOf(s.cache, id, refresh, s.clock).num;
    var t := AskStep(s, tid, id, refresh);
    assert forall o :: Mark(t.cache, o) == Mark(s.cache, o);
    hide Mark, AnswerOf, AfterAsk;
    assert t.flights == s.flights[f := Running(id)] && t.cache.flights == s.cache.flights[id := f];
  }

  lemma FlyIs(c: Cache, id: Id, refresh: bool, now: int)
    requires AnswerOf(c, id, refresh, now).Fly?
    ensures AnswerOf(c, id, refresh, now) == Fly(c.num + 1)
    ensures AfterAsk(c, id, Fly(c.num + 1)) == c.(num := c.num + 1, flights := c.flights[id := c.num + 1])
    ensures !(id in c.flights && c.flights[id] > Mark(c, id))
  {
  }

  lemma NextKeepsFlights(s: System, step: Step)
    requires Inv(s)
    ensures FlightsOk(Next(s, step))
  {
    hide FlightsOk, CacheOk, CallsOk, Mark;
    forall id ensures Mark(Next(s, step).cache, id) >= Mark(s.cache, id) {
      MarkOnlyRises(s, step, id);
    }
    match step
    case FlightLands(num, fetchedAt, payload) =>
      if num in s.flights && s.flights[num].Running? { LandingKeepsFlights(s, num, fetchedAt, payload); }
      else { FlightsStay(s, Next(s, step)); }
    case Ask(tid, id, refresh) =>
      if tid !in s.calls && AnswerOf(s.cache, id, refresh, s.clock).Fly? { FlyKeepsFlights(s, tid, id, refresh); }
      else { FlightsStay(s, Next(s, step)); }
    case _ => FlightsStay(s, Next(s, step));
  }

  // Flights once begun stay known, and numbers only rise.
  lemma CallStays(s: System, t: System, c: Call)
    requires CallOk(s, c) && t.cache.num >= s.cache.num
    requires forall f :: f in s.flights ==> f in t.flights && t.flights[f].id == s.flights[f].id
    ensures CallOk(t, c)
  {
  }

  lemma CutsAreOld(s: System, id: Id)
    requires CacheOk(s)
    ensures Cut(s, id) <= Mark(s.cache, id) <= s.cache.num
  {
  }

  lemma NextGrows(s: System, step: Step)
    requires FlightsOk(s)
    ensures Next(s, step).cache.num >= s.cache.num
    ensures forall f :: f in s.flights ==> f in Next(s, step).flights && Next(s, step).flights[f].id == s.flights[f].id
  {
    if step.Ask? && AnswerOf(s.cache, step.id, step.refresh, s.clock).Fly? {
      FlyIs(s.cache, step.id, step.refresh, s.clock);
    }
  }

  lemma AskedCallOk(s: System, tid: Tid, id: Id, refresh: bool)
    requires CacheOk(s) && FlightsOk(s)
    ensures var t := AskStep(s, tid, id, refresh);
      t.calls == s.calls || (tid in t.calls && t.calls == s.calls[tid := t.calls[tid]] && CallOk(t, t.calls[tid]))
  {
    CutsAreOld(s, id);
    hide CacheOk;
  }

  lemma StartedCallOk(s: System, step: Step)
    requires CacheOk(s) && CallsOk(s) && (step.FreshCall? || step.FreshStarts?)
    ensures var t := Next(s, step);
      t.calls == s.calls || (step.tid in t.calls && t.calls == s.calls[step.tid := t.calls[step.tid]] && CallOk(t, t.calls[step.tid]))
  {
    if step.FreshCall? {
      CutsAreOld(s, step.id);
    }
    hide CacheOk;
  }

  lemma OtherCallsEnd(s: System, step: Step)
    requires !step.Ask? && !step.FreshCall? && !step.FreshStarts?
    ensures forall tid :: tid in Next(s, step).calls ==> tid in s.calls && Next(s, step).calls[tid] == s.calls[tid]
  {
  }

  lemma NextKeepsCalls(s: System, step: Step)
    requires Inv(s)
    ensures CallsOk(Next(s, step))
  {
    var t := Next(s, step);
    NextGrows(s, step);
    match step
    case Ask(tid, id, refresh) =>
      if tid !in s.calls { AskedCallOk(s, tid, id, refresh); }
    case FreshCall(_, _) => StartedCallOk(s, step);
    case FreshStarts(_) => StartedCallOk(s, step);
    case _ => OtherCallsEnd(s, step);
    hide FlightsOk, CacheOk, CallOk, Next;
    forall tid | tid in t.calls ensures CallOk(t, t.calls[tid]) {
      if tid in s.calls && t.calls[tid] == s.calls[tid] {
        CallStays(s, t, s.calls[tid]);
      }
    }
  }

  lemma NextKeepsReturns(s: System, step: Step)
    requires Inv(s)
    ensures forall r :: r in Next(s, step).handed ==> ReturnOk(r)
  {
  }

  lemma {:induction false} EveryRunKeepsInv(s: System, steps: seq<Step>)
    requires Inv(s)
    ensures Inv(Run(s, steps))
    decreases |steps|
  {
    if steps != [] {
      NextKeepsCache(s, steps[0]);
      NextKeepsFlights(s, steps[0]);
      NextKeepsCalls(s, steps[0]);
      NextKeepsReturns(s, steps[0]);
      EveryRunKeepsInv(Next(s, steps[0]), steps[1..]);
    }
  }

  // ---------------------------------------------------------------------------
  // Main results, for every run of interleaved calls, flights and invalidations
  // ---------------------------------------------------------------------------

  lemma CachedReadIsAtTheMark(steps: seq<Step>, id: Id)
    ensures var s := Run(Start, steps);
      id in s.cache.m ==> s.cache.m[id].num == Mark(s.cache, id) && s.cache.m[id].num > Cut(s, id)
  {
    EveryRunKeepsInv(Start, steps);
  }

  lemma OneFlightAboveTheMark(steps: seq<Step>, f: nat, g: nat)
    requires var s := Run(Start, steps);
      && f in s.flights && g in s.flights && s.flights[f].Running? && s.flights[g].Running?
      && s.flights[f].id == s.flights[g].id
      && f > Mark(s.cache, s.flights[f].id) && g > Mark(s.cache, s.flights[g].id)
    ensures f == g
  {
    EveryRunKeepsInv(Start, steps);
  }

  // Whatever way a caller gets its read, the fetch behind it began after the last invalidation that
  // precedes the call, and not before the flight the caller joined.
  lemma NoStaleReadIsHanded(steps: seq<Step>, k: nat)
    requires k < |Run(Start, steps).handed|
    ensures ReturnOk(Run(Start, steps).handed[k])
  {
    EveryRunKeepsInv(Start, steps);
  }

  // A flight closes once: landing it again changes nothing, and every call that waits on it can wake.
  lemma ClosedFlightStays(s: System, step: Step, f: nat)
    requires f in s.flights && s.flights[f].Closed? && FlightsOk(s)
    ensures f in Next(s, step).flights && Next(s, step).flights[f] == s.flights[f]
    ensures forall tid :: tid in s.calls && s.calls[tid].Waiting? && s.calls[tid].flight == f ==>
      var t := Next(s, Wake(tid));
      tid !in t.calls && |t.handed| == |s.handed| + 1 && t.handed[|s.handed|].joined == f
  {
  }

  // A call made while a flight above the mark runs joins it: no second fetch starts.
  lemma SingleFlight(s: System, tid: Tid, id: Id, f: nat)
    requires Inv(s) && tid !in s.calls
    requires f in s.flights && s.flights[f] == Running(id) && f > Mark(s.cache, id)
    ensures var t := Next(s, Ask(tid, id, false));
      t.cache == s.cache && t.flights == s.flights &&
      (IsHit(s.cache, id, s.clock) || t.calls == s.calls[tid := Waiting(id, f, Cut(s, id))])
  {
  }

  // A call is answered from the cache exactly when it is no refresh and the entry was fetched less than 60 s ago;
  // it joins a flight exactly when a running one above the mark is registered; else it fetches.
  lemma AskExactlyWhen(s: System, tid: Tid, id: Id, refresh: bool)
    requires tid !in s.calls
    ensures var t := Next(s, Ask(tid, id, refresh));
      var hit := !refresh && id in s.cache.m && s.clock - s.cache.m[id].fetchedAt < 60 * SECOND;
      var joins := !refresh && !hit && id in s.cache.flights && s.cache.flights[id] > Mark(s.cache, id);
      && (hit <==> t.handed != s.handed)
      && (hit ==> t == s.(handed := s.handed + [Return(id, Cut(s, id), 0, s.cache.m[id])]))
      && (joins ==> t == s.(calls := s.calls[tid := Waiting(id, s.cache.flights[id], Cut(s, id))]))
      && (t.cache.num == s.cache.num + 1 <==> !hit && !joins)
      && (!hit && !joins ==> tid in t.calls && (t.calls[tid].Fetching? <==> refresh) && (t.flights != s.flights ==> !refresh))
  {
    var t := Next(s, Ask(tid, id, refresh));
    if t.handed != s.handed { assert |t.handed| == |s.handed| + 1; }
    if !refresh && IsHit(s.cache, id, s.clock) { assert t.handed[|s.handed|] == Return(id, Cut(s, id), 0, s.cache.m[id]); }
  }

  // A call that fetches for itself ends with its own read, stored by the numbering rule; a failed freshQuota ends
  // with nothing.
  lemma FetchEndsExactly(s: System, tid: Tid, ok: bool, fetchedAt: int, payload: string)
    requires tid in s.calls && s.calls[tid].Fetching?
    ensures var t, c := Next(s, FetchEnds(tid, ok, fetchedAt, payload)), s.calls[tid];
      var r := Read(c.num, fetchedAt, payload);
      && t.calls == s.calls - {tid}
      && (if c.quiet && !ok then t.handed == s.handed && t.cache == s.cache
          else
            && t.handed == s.handed + [Return(c.id, c.since, 0, r)]
            && (if c.num > Mark(s.cache, c.id) then c.id in t.cache.m && t.cache.m[c.id] == r && Mark(t.cache, c.id) == c.num
                else t.cache == s.cache))
  {
  }

  // A freshQuota takes its number only when its fetch begins, and keeps the cut its call began with.
  lemma FreshBegins(s: System, tid: Tid, id: Id)
    requires tid !in s.calls
    ensures var t := Next(s, FreshCall(tid, id));
      t == s.(calls := s.calls[tid := Starting(id, Cut(s, id))])
    ensures var t := Next(Next(s, FreshCall(tid, id)), FreshStarts(tid));
      && t.cache == s.cache.(num := s.cache.num + 1) && t.handed == s.handed && t.flights == s.flights
      && t.calls == s.calls[tid := Fetching(id, s.cache.num + 1, Cut(s, id), true)]
  {
  }

  // A call that waits ends, once its flight is closed, with the entry of its account if there is one, and else
  // with what the flight brought; one that is cancelled ends with nothing.
  lemma WakeExactly(s: System, tid: Tid)
    requires tid in s.calls && s.calls[tid].Waiting?
    ensures var t, c := Next(s, Wake(tid)), s.calls[tid];
      if c.flight in s.flights && s.flights[c.flight].Closed?
      then
        && t.calls == s.calls - {tid} && t.cache == s.cache
        && t.handed == s.handed + [Return(c.id, c.since, c.flight, if c.id in s.cache.m then s.cache.m[c.id] else s.flights[c.flight].res)]
      else t == s
    ensures Next(s, Cancel(tid)) == s.(calls := s.calls - {tid})
  {
  }

  // ---------------------------------------------------------------------------
  // Every read is what a fetch of its account brought
  // ---------------------------------------------------------------------------

  // What a step's fetch brings. A failed freshQuota brings nothing.
  function Brought(s: System, step: Step): set<(Id, Read)> {
    match step
    case FlightLands(num, fetchedAt, payload) =>
      if num in s.flights && s.flights[num].Running? then {(s.flights[num].id, Read(num, fetchedAt, payload))} else {}
    case FetchEnds(tid, ok, fetchedAt, payload) =>
      if tid in s.calls && s.calls[tid].Fetching? && (ok || !s.calls[tid].quiet)
      then {(s.calls[tid].id, Read(s.calls[tid].num, fetchedAt, payload))} else {}
    case _ => {}
  }

  function BroughtBy(s: System, steps: seq<Step>): set<(Id, Read)>
    decreases |steps|
  {
    if steps == [] then {} else Brought(s, steps[0]) + BroughtBy(Next(s, steps[0]), steps[1..])
  }

  // Entries, results of flights and reads handed out are among the reads brought.
  ghost predicate FromFetches(s: System, got: set<(Id, Read)>) {
    && (forall id :: id in s.cache.m ==> (id, s.cache.m[id]) in got)
    && (forall f :: f in s.flights && s.flights[f].Closed? ==> (s.flights[f].id, s.flights[f].res) in got)
    && (forall r :: r in s.handed ==> (r.id, r.read) in got)
  }

  lemma NextFromFetches(s: System, step: Step, got: set<(Id, Read)>)
    requires FromFetches(s, got) && CallsOk(s)
    ensures FromFetches(Next(s, step), got + Brought(s, step))
  {
  }

  lemma {:induction false} RunFromFetches(s: System, steps: seq<Step>, got: set<(Id, Read)>)
    requires Inv(s) && FromFetches(s, got)
    ensures FromFetches(Run(s, steps), got + BroughtBy(s, steps))
    decreases |steps|
  {
    if steps == [] {
      assert got + {} == got;
    } else {
      NextFromFetches(s, steps[0], got);
      EveryRunKeepsInv(s, steps[..1]);
      assert Run(s, steps[..1]) == Next(s, steps[0]);
      hide Inv, FromFetches, Next, Brought;
      var t := Next(s, steps[0]);
      RunFromFetches(t, steps[1..], got + Brought(s, steps[0]));
      assert got + Brought(s, steps[0]) + BroughtBy(t, steps[1..]) == got + BroughtBy(s, steps);
    }
  }

  // Main result: whatever a caller is handed, a fetch of its account brought it in this run, unchanged.
  lemma EveryReadWasFetched(steps: seq<Step>, k: nat)
    requires k < |Run(Start, steps).handed|
    ensures var r := Run(Start, steps).handed[k]; (r.id, r.read) in BroughtBy(Start, steps)
  {
    RunFromFetches(Start, steps, {});
    assert Run(Start, steps).handed[k] in Run(Start, steps).handed;
  }
}
