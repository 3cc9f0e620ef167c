/**
 Which account a request tries first, and which after it: turns by rotation, a
 session's own account before them, standby accounts behind all others, and
 accounts whose quota is spent left out.
 */
module Scheduler {
  import opened Options

  datatype Conn = Conn(id: string, provider: string, standby: bool)

  // The place of a rotation: the account, and how many requests it served in a row.
  datatype Cursor = Cursor(i: nat, used: nat)

  datatype Mode = RoundRobin | Fallback

  datatype Rotation = Rotation(mode: Mode, sticky: nat, order: seq<string>)

  // ---------------------------------------------------------------------------
  // Turns
  // ---------------------------------------------------------------------------

  function Turn(c: Cursor, n: nat): (i: nat)
    requires n > 0
    ensures i < n
  {
    c.i % n
  }

  function Moved(c: Cursor, n: nat, sticky: nat): Cursor
    requires n > 0
  {
    if c.used + 1 >= sticky then Cursor((Turn(c, n) + 1) % n, 0) else Cursor(Turn(c, n), c.used + 1)
  }

  const Fresh := Cursor(0, 0)

  // The cursor after k requests.
  function After(k: nat, n: nat, sticky: nat): Cursor
    requires n > 0
  {
    if k == 0 then Fresh else Moved(After(k - 1, n, sticky), n, sticky)
  }

  // Main result: the k-th turn of a fresh cursor is account k / sticky, round and round.
  lemma {:induction false} TurnIs(k: nat, n: nat, sticky: nat)
    requires n > 0 && sticky > 0
    ensures After(k, n, sticky) == Cursor((k / sticky) % n, k % sticky)
    ensures Turn(After(k, n, sticky), n) == (k / sticky) % n
  {
    if k == 0 {
      QuotientIs(0, sticky, 0, 0);
      QuotientIs(0, n, 0, 0);
    } else {
      TurnIs(k - 1, n, sticky);
      NextQuotient(k - 1, sticky);
      TurnStep((k - 1) / sticky, (k - 1) % sticky, n, sticky);
      hide Moved;
    }
    ModOfSum(k / sticky, n);
  }

  lemma TurnStep(q: nat, r: nat, n: nat, sticky: nat)
    requires n > 0 && r < sticky
    ensures Moved(Cursor(q % n, r), n, sticky) == if r + 1 >= sticky then Cursor((q + 1) % n, 0) else Cursor(q % n, r + 1)
  {
    ModOfSum(q, n);
  }

  lemma MulGe(x: int, d: int)
    requires x >= 1 && d >= 0
    ensures x * d >= d
  {
  }

  lemma SameParts(d: nat, q: int, r: int, q': int, r': int)
    requires 0 <= r < d && 0 <= r' < d && q * d + r == q' * d + r'
    ensures q == q' && r == r'
  {
    if q > q' {
      MulGe(q - q', d);
    } else if q < q' {
      MulGe(q' - q, d);
    }
  }

  lemma QuotientIs(k: nat, d: nat, q: nat, r: nat)
    requires d > 0 && k == q * d + r && r < d
    ensures k / d == q && k % d == r
  {
    SameParts(d, q, r, k / d, k % d);
  }

  lemma NextQuotient(k: nat, d: nat)
    requires d > 0
    ensures if k % d + 1 >= d then (k + 1) / d == k / d + 1 && (k + 1) % d == 0
            else (k + 1) / d == k / d && (k + 1) % d == k % d + 1
  {
    var q, r := k / d, k % d;
    if r + 1 >= d {
      QuotientIs(k + 1, d, q + 1, 0);
    } else {
      QuotientIs(k + 1, d, q, r + 1);
    }
  }

  lemma ModOfSum(q: nat, n: nat)
    requires n > 0
    ensures (q % n) % n == q % n && (q % n + 1) % n == (q + 1) % n
  {
    QuotientIs(q % n, n, 0, q % n);
    NextQuotient(q, n);
    if q % n + 1 >= n {
      assert q % n + 1 == n;
      QuotientIs(n, n, 1, 0);
    } else {
      QuotientIs(q % n + 1, n, 0, q % n + 1);
    }
  }

  // How many of the requests from..to account a gets.
  function Served(from: nat, upto: nat, a: nat, n: nat, sticky: nat): nat
    requires n > 0 && from <= upto
    decreases upto
  {
    if from == upto then 0
    else Served(from, upto - 1, a, n, sticky) + if Turn(After(upto - 1, n, sticky), n) == a then 1 else 0
  }

  // Main result: any full cycle, wherever it begins, gives every account exactly
  // sticky requests.
  lemma {:induction false} CycleIsFair(from: nat, a: nat, n: nat, sticky: nat)
    requires n > 0 && sticky > 0 && a < n
    ensures Served(from, from + n * sticky, a, n, sticky) == sticky
    decreases from
  {
    hide Served, After, Turn;
    if from == 0 {
      FirstCycles(n, a, n, sticky);
    } else {
      CycleIsFair(from - 1, a, n, sticky);
      SameTurnNextCycle(from - 1, n, sticky);
      ShiftServed(from - 1, n * sticky, a, n, sticky);
    }
  }

  lemma ShiftServed(from: nat, len: nat, a: nat, n: nat, sticky: nat)
    requires n > 0 && Turn(After(from + len, n, sticky), n) == Turn(After(from, n, sticky), n)
    ensures Served(from + 1, from + 1 + len, a, n, sticky) == Served(from, from + len, a, n, sticky)
  {
    hide After, Turn;
    ServedFromFront(from, from + len + 1, a, n, sticky);
  }

  lemma {:induction false} ServedFromFront(from: nat, upto: nat, a: nat, n: nat, sticky: nat)
    requires n > 0 && from < upto
    ensures Served(from, upto, a, n, sticky) ==
      (if Turn(After(from, n, sticky), n) == a then 1 else 0) + Served(from + 1, upto, a, n, sticky)
    decreases upto
  {
    if from + 1 < upto {
      ServedFromFront(from, upto - 1, a, n, sticky);
    }
  }

  lemma SameTurnNextCycle(k: nat, n: nat, sticky: nat)
    requires n > 0 && sticky > 0
    ensures Turn(After(k + n * sticky, n, sticky), n) == Turn(After(k, n, sticky), n)
  {
    hide After, Turn;
    TurnIs(k, n, sticky);
    TurnIs(k + n * sticky, n, sticky);
    AddMultiple(k, n, sticky);
    AddMultiple(k / sticky, 1, n);
  }

  lemma AddMultiple(k: nat, m: nat, d: nat)
    requires d > 0
    ensures (k + m * d) / d == k / d + m && (k + m * d) % d == k % d
  {
    QuotientIs(k + m * d, d, k / d + m, k % d);
  }

  // The first b accounts' worth of requests from a fresh cursor.
  lemma {:induction false} FirstCycles(b: nat, a: nat, n: nat, sticky: nat)
    requires b <= n && a < n && sticky > 0
    ensures 0 <= b * sticky && Served(0, b * sticky, a, n, sticky) == if a < b then sticky else 0
    decreases b
  {
    if b > 0 {
      FirstCycles(b - 1, a, n, sticky);
      assert b * sticky == (b - 1) * sticky + sticky;
      OneTurn(b - 1, sticky, a, n, sticky);
    }
  }

  lemma {:induction false} OneTurn(b: nat, m: nat, a: nat, n: nat, sticky: nat)
    requires b < n && a < n && m <= sticky && sticky > 0
    ensures 0 <= b * sticky
    ensures Served(0, b * sticky + m, a, n, sticky) == Served(0, b * sticky, a, n, sticky) + if a == b then m else 0
    decreases m
  {
    assert b * sticky >= 0;
    if m > 0 {
      OneTurn(b, m - 1, a, n, sticky);
      var k := b * sticky + m - 1;
      TurnIs(k, n, sticky);
      QuotientIs(k, sticky, b, m - 1);
      QuotientIs(b, n, 0, b);
    }
  }

  // ---------------------------------------------------------------------------
  // Lists of accounts
  // ---------------------------------------------------------------------------

  function Only(conns: seq<Conn>, standby: bool): seq<Conn> {
    if conns == [] then []
    else
      var rest, c := Only(conns[..|conns| - 1], standby), conns[|conns| - 1];
      if c.standby == standby then rest + [c] else rest
  }

  // From start on, then round to it.
  function From<T>(list: seq<T>, start: nat): seq<T>
    requires start <= |list|
  {
    list[start..] + list[..start]
  }

  predicate StandbyLast(tries: seq<Conn>) {
    forall i, j :: 0 <= i < j < |tries| && tries[i].standby ==> tries[j].standby
  }

  lemma {:induction false} OnlyIs(conns: seq<Conn>, standby: bool)
    ensures forall c <- Only(conns, standby) :: c.standby == standby && c in conns
    ensures (forall c <- conns :: c.standby == standby) ==> Only(conns, standby) == conns
  {
    if conns != [] {
      var rest := conns[..|conns| - 1];
      OnlyIs(rest, standby);
      assert forall c <- rest :: c in conns;
      assert conns == rest + [conns[|conns| - 1]];
    }
  }

  lemma {:induction false} OnlyBoth(conns: seq<Conn>)
    ensures multiset(Only(conns, false)) + multiset(Only(conns, true)) == multiset(conns)
  {
    if conns != [] {
      var rest := conns[..|conns| - 1];
      OnlyBoth(rest);
      assert conns == rest + [conns[|conns| - 1]];
    }
  }

  lemma FromIsAll<T>(list: seq<T>, start: nat)
    requires start <= |list|
    ensures multiset(From(list, start)) == multiset(list) && |From(list, start)| == |list|
    ensures forall i :: 0 <= i < |list| ==> From(list, start)[i] == list[(start + i) % |list|]
  {
    assert list == list[..start] + list[start..];
    forall i | 0 <= i < |list| ensures From(list, start)[i] == list[(start + i) % |list|] {
      if start + i < |list| {
        QuotientIs(start + i, |list|, 0, start + i);
      } else {
        QuotientIs(start + i, |list|, 1, start + i - |list|);
      }
    }
  }

  // ---------------------------------------------------------------------------
  // The order of priority
  // ---------------------------------------------------------------------------

  // The place an order names last; none for an account it does not name.
  function Place(order: seq<string>, id: string): (p: Option<nat>)
    ensures p.Some? ==> p.value < |order| && order[p.value] == id
    ensures p.None? <==> id !in order
    ensures p.Some? ==> forall k :: p.value < k < |order| ==> order[k] != id
  {
    if order == [] then None
    else if order[|order| - 1] == id then Some(|order| - 1)
    else Place(order[..|order| - 1], id)
  }

  predicate Before(order: seq<string>, a: Conn, b: Conn) {
    var p, q := Place(order, a.id), Place(order, b.id);
    if p.Some? && q.Some? then p.value < q.value else p.Some? && q.None?
  }

  // The new account goes behind all that it does not come before.
  function Insert(order: seq<string>, sorted: seq<Conn>, c: Conn): seq<Conn> {
    if sorted == [] || !Before(order, c, sorted[|sorted| - 1]) then sorted + [c]
    else Insert(order, sorted[..|sorted| - 1], c) + [sorted[|sorted| - 1]]
  }

  function Ordered(order: seq<string>, conns: seq<Conn>): seq<Conn> {
    if conns == [] then [] else Insert(order, Ordered(order, conns[..|conns| - 1]), conns[|conns| - 1])
  }

  predicate SortedBy(order: seq<string>, conns: seq<Conn>) {
    forall i, j :: 0 <= i < j < |conns| ==> !Before(order, conns[j], conns[i])
  }

  // The accounts of one place in the order.
  function AtPlace(order: seq<string>, conns: seq<Conn>, p: Option<nat>): seq<Conn> {
    if conns == [] then []
    else
      var rest, c := AtPlace(order, conns[..|conns| - 1], p), conns[|conns| - 1];
      if Place(order, c.id) == p then rest + [c] else rest
  }

  lemma {:induction false} InsertHolds(order: seq<string>, sorted: seq<Conn>, c: Conn)
    ensures multiset(Insert(order, sorted, c)) == multiset(sorted) + multiset{c}
    ensures |Insert(order, sorted, c)| == |sorted| + 1
    ensures forall x <- Insert(order, sorted, c) :: x == c || x in sorted
  {
    hide Before;
    if sorted != [] && Before(order, c, sorted[|sorted| - 1]) {
      var rest, last := sorted[..|sorted| - 1], sorted[|sorted| - 1];
      InsertHolds(order, rest, c);
      assert sorted == rest + [last];
    }
  }

  lemma {:induction false} InsertSorts(order: seq<string>, sorted: seq<Conn>, c: Conn)
    requires SortedBy(order, sorted)
    ensures SortedBy(order, Insert(order, sorted, c))
  {
    hide Before;
    if sorted != [] && Before(order, c, sorted[|sorted| - 1]) {
      var rest, last := sorted[..|sorted| - 1], sorted[|sorted| - 1];
      InsertSorts(order, rest, c);
      InsertHolds(order, rest, c);
      NotBeforeThrough(order, last, c, c);
      var r := Insert(order, rest, c);
      forall x | x in r ensures !Before(order, last, x) {
        if x != c {
          var k :| 0 <= k < |rest| && rest[k] == x;
          assert sorted[k] == x;
        }
      }
      SortedMore(order, r, last);
    } else if sorted != [] {
      forall x | x in sorted ensures !Before(order, c, x) {
        var k :| 0 <= k < |sorted| && sorted[k] == x;
        if k < |sorted| - 1 {
          NotBeforeThrough(order, c, sorted[|sorted| - 1], x);
        }
      }
      SortedMore(order, sorted, c);
    }
  }

  lemma SortedMore(order: seq<string>, sorted: seq<Conn>, c: Conn)
    requires SortedBy(order, sorted) && forall x <- sorted :: !Before(order, c, x)
    ensures SortedBy(order, sorted + [c])
  {
    hide Before;
  }

  lemma NotBeforeThrough(order: seq<string>, a: Conn, b: Conn, c: Conn)
    ensures Before(order, b, a) ==> !Before(order, a, b)
    ensures !Before(order, a, b) && !Before(order, b, c) ==> !Before(order, a, c)
  {
  }

  lemma {:induction false} InsertKeepsPlaces(order: seq<string>, sorted: seq<Conn>, c: Conn, p: Option<nat>)
    ensures AtPlace(order, Insert(order, sorted, c), p) ==
      AtPlace(order, sorted, p) + if Place(order, c.id) == p then [c] else []
  {
    hide Place;
    if sorted == [] || !Before(order, c, sorted[|sorted| - 1]) {
      assert (sorted + [c])[..|sorted|] == sorted;
    } else {
      var rest, last := sorted[..|sorted| - 1], sorted[|sorted| - 1];
      InsertKeepsPlaces(order, rest, c, p);
      var r := Insert(order, rest, c);
      assert (r + [last])[..|r|] == r;
    }
  }

  lemma SortedNothing(order: seq<string>)
    ensures SortedBy(order, [])
  {
  }

  // Main result: the order is a stable sort: the same accounts, by place, and
  // those of one place (all that are not named, say) as they came.
  lemma {:induction false} OrderedIs(order: seq<string>, conns: seq<Conn>, p: Option<nat>)
    ensures multiset(Ordered(order, conns)) == multiset(conns) && |Ordered(order, conns)| == |conns|
    ensures SortedBy(order, Ordered(order, conns))
    ensures AtPlace(order, Ordered(order, conns), p) == AtPlace(order, conns, p)
  {
    hide Insert, SortedBy, Place;
    SortedNothing(order);
    if conns != [] {
      var rest, c := conns[..|conns| - 1], conns[|conns| - 1];
      OrderedIs(order, rest, p);
      InsertHolds(order, Ordered(order, rest), c);
      InsertSorts(order, Ordered(order, rest), c);
      InsertKeepsPlaces(order, Ordered(order, rest), c, p);
      assert conns == rest + [c];
    }
  }

  // So an account the order names stands before those it names later and those it does not name.
  lemma NamedFirst(order: seq<string>, conns: seq<Conn>, i: nat, j: nat)
    requires i < j < |conns|
    ensures |Ordered(order, conns)| == |conns|
    ensures var p, q := Place(order, Ordered(order, conns)[i].id), Place(order, Ordered(order, conns)[j].id);
      q.Some? ==> p.Some? && p.value <= q.value
  {
    OrderedIs(order, conns, None);
    hide Place, Ordered;
    assert !Before(order, Ordered(order, conns)[j], Ordered(order, conns)[i]);
  }

  // ---------------------------------------------------------------------------
  // The order of the tries
  // ---------------------------------------------------------------------------

  // The normal accounts from turn i on, then the standby ones; with standby
  // accounts alone, as they are.
  function Line(targets: seq<Conn>, i: nat): seq<Conn>
    requires i <= |Only(targets, false)|
  {
    From(Only(targets, false), i) + Only(targets, true)
  }

  // Main result: the first tries name every account once, no standby before a normal one.
  lemma LineIsRight(targets: seq<Conn>, i: nat)
    requires i <= |Only(targets, false)|
    ensures multiset(Line(targets, i)) == multiset(targets) && StandbyLast(Line(targets, i))
  {
    var normal, standby := Only(targets, false), Only(targets, true);
    OnlyIs(targets, false);
    OnlyIs(targets, true);
    OnlyBoth(targets);
    FromIsAll(normal, i);
    hide Only, From, StandbyLast;
    forall c | c in From(normal, i) ensures !c.standby {
      assert c in multiset(From(normal, i)) && c in multiset(normal);
    }
    NormalsFirst(From(normal, i), standby);
  }

  lemma NoStandby(targets: seq<Conn>)
    requires Only(targets, true) == []
    ensures Only(targets, false) == targets
  {
    OnlyBoth(targets);
    forall c | c in targets ensures !c.standby {
      assert c in multiset(targets);
      OnlyIs(targets, false);
    }
    OnlyIs(targets, false);
  }

  lemma OnlyMore(conns: seq<Conn>, c: Conn, standby: bool)
    ensures Only(conns + [c], standby) == if c.standby == standby then Only(conns, standby) + [c] else Only(conns, standby)
  {
    assert (conns + [c])[..|conns|] == conns;
  }

  // Whose turn it is: a cursor's, or always the first.
  datatype Picker = First | ByCursor(key: string, sticky: nat)

  // What a request asks of the cursors: a pick among n normal accounts.
  datatype Ask = Ask(picker: Picker, n: nat)

  function CursorAt(next: map<string, Cursor>, key: string): Cursor {
    if key in next then next[key] else Fresh
  }

  function Picked(next: map<string, Cursor>, ask: Ask): (i: nat)
    ensures if ask.n > 0 then i < ask.n else i == 0
  {
    if ask.n == 0 || ask.picker.First? then 0 else Turn(CursorAt(next, ask.picker.key), ask.n)
  }

  // The cursor moves only when a normal account takes its turn.
  function Turned(next: map<string, Cursor>, ask: Ask): map<string, Cursor> {
    match ask.picker
    case First => next
    case ByCursor(key, sticky) => if ask.n == 0 then next else next[key := Moved(CursorAt(next, key), ask.n, sticky)]
  }

  function AfterAll(next: map<string, Cursor>, asks: seq<Ask>): map<string, Cursor> {
    if asks == [] then next else Turned(AfterAll(next, asks[..|asks| - 1]), asks[|asks| - 1])
  }

  predicate Of(ask: Ask, key: string) {
    ask.picker.ByCursor? && ask.picker.key == key
  }

  function Asked(asks: seq<Ask>, key: string): nat {
    if asks == [] then 0 else Asked(asks[..|asks| - 1], key) + if Of(asks[|asks| - 1], key) then 1 else 0
  }

  // How many of the asks of one cursor normal account a gets.
  function Gets(next: map<string, Cursor>, asks: seq<Ask>, key: string, a: nat): nat {
    if asks == [] then 0
    else
      var before, ask := asks[..|asks| - 1], asks[|asks| - 1];
      Gets(next, before, key, a) + if Of(ask, key) && Picked(AfterAll(next, before), ask) == a then 1 else 0
  }

  // The accounts and the setting of a cursor stay as they are.
  predicate Steady(asks: seq<Ask>, key: string, n: nat, sticky: nat) {
    forall ask <- asks :: Of(ask, key) ==> ask.n == n && ask.picker.sticky == sticky
  }

  // Requests on other models and providers between them do not matter: a cursor counts its own.
  lemma {:induction false} CursorCounts(next: map<string, Cursor>, asks: seq<Ask>, key: string, k: nat, n: nat, sticky: nat, a: nat)
    requires n > 0 && Steady(asks, key, n, sticky) && CursorAt(next, key) == After(k, n, sticky)
    ensures CursorAt(AfterAll(next, asks), key) == After(k + Asked(asks, key), n, sticky)
    ensures Gets(next, asks, key, a) == Served(k, k + Asked(asks, key), a, n, sticky)
  {
    if asks != [] {
      var before, ask := asks[..|asks| - 1], asks[|asks| - 1];
      assert forall x <- before :: x in asks;
      CursorCounts(next, before, key, k, n, sticky, a);
      hide Moved, Turn;
      if Of(ask, key) {
        assert ask in asks;
        assert Asked(asks, key) == Asked(before, key) + 1;
      }
    }
  }

  // Main result: which account the next request begins with, after any sequence of requests.
  lemma NextPickIs(next: map<string, Cursor>, asks: seq<Ask>, key: string, n: nat, sticky: nat)
    requires n > 0 && sticky > 0 && Steady(asks, key, n, sticky) && key !in next
    ensures Picked(AfterAll(next, asks), Ask(ByCursor(key, sticky), n)) == (Asked(asks, key) / sticky) % n
  {
    CursorCounts(next, asks, key, 0, n, sticky, 0);
    TurnIs(Asked(asks, key), n, sticky);
    hide Turn, After;
  }

  // Main result: over any n * sticky requests to a provider or a pool, from any turn on and among
  // whatever other requests, each of its n normal accounts is the first try of exactly sticky.
  lemma RequestsAreFair(next: map<string, Cursor>, asks: seq<Ask>, key: string, k: nat, n: nat, sticky: nat, a: nat)
    requires n > 0 && sticky > 0 && Steady(asks, key, n, sticky) && CursorAt(next, key) == After(k, n, sticky)
    requires Asked(asks, key) == n * sticky && a < n
    ensures Gets(next, asks, key, a) == sticky
  {
    CursorCounts(next, asks, key, k, n, sticky, a);
    CycleIsFair(k, a, n, sticky);
  }

  class Rotations {
    var next: map<string, Cursor>

    constructor ()
      ensures next == map[]
    {
      next := map[];
    }

    method Advance(key: string, n: nat, sticky: nat) returns (i: nat)
      requires n > 0
      modifies this
      ensures i == Picked(old(next), Ask(ByCursor(key, sticky), n))
      ensures next == Turned(old(next), Ask(ByCursor(key, sticky), n))
    {
      var c := CursorAt(next, key);
      c := c.(i := c.i % n);
      i := c.i;
      c := c.(used := c.used + 1);
      if c.used >= sticky {
        c := Cursor((c.i + 1) % n, 0);
      }
      next := next[key := c];
    }

    method Pick(p: Picker, n: nat) returns (i: nat)
      requires n > 0
      modifies this
      ensures i == Picked(old(next), Ask(p, n)) && next == Turned(old(next), Ask(p, n))
    {
      match p
      case First => i := 0;
      case ByCursor(key, sticky) => i := Advance(key, n, sticky);
    }

    method WithStandbyLast(targets: seq<Conn>, p: Picker) returns (list: seq<Conn>, start: nat)
      requires |targets| > 0
      modifies this
      ensures start < |list|
      ensures var ask := Ask(p, |Only(targets, false)|);
        From(list, start) == Line(targets, Picked(old(next), ask)) && next == Turned(old(next), ask)
    {
      var normal, standby := [], [];
      for i := 0 to |targets|
        invariant normal == Only(targets[..i], false) && standby == Only(targets[..i], true)
        invariant next == old(next)
      {
        assert targets[..i + 1] == targets[..i] + [targets[i]];
        OnlyMore(targets[..i], targets[i], false);
        OnlyMore(targets[..i], targets[i], true);
        if targets[i].standby {
          standby := standby + [targets[i]];
        } else {
          normal := normal + [targets[i]];
        }
      }
      assert targets[..|targets|] == targets;
      if |standby| == 0 {
        NoStandby(targets);
        start := Pick(p, |targets|);
        list := targets;
        return;
      }
      list := [];
      if |normal| > 0 {
        var i := Pick(p, |normal|);
        list := normal[i..] + normal[..i];
      }
      list, start := list + standby, 0;
      assert From(list, 0) == list;
    }

    // One provider's accounts follow its rotation; a pool of several turns on every request.
    method StartFor(model: string, targets: seq<Conn>, rotations: string -> Rotation) returns (list: seq<Conn>, start: nat)
      requires |targets| > 0
      modifies this
      ensures start < |list|
      ensures multiset(From(list, start)) == multiset(targets) && StandbyLast(From(list, start))
      ensures var ask := AskFor(model, targets, rotations);
        From(list, start) == Line(OrderFor(targets, rotations), Picked(old(next), ask)) && next == Turned(old(next), ask)
      ensures var ask := AskFor(model, targets, rotations);
        ask.n > 0 ==> From(list, start)[0] == Only(OrderFor(targets, rotations), false)[Picked(old(next), ask)]
    {
      hide Only, Ordered, Line, StandbyLast, Picked, Turned, From;
      var prov := targets[0].provider;
      var pool := false;
      for k := 1 to |targets|
        invariant pool <==> exists j :: 1 <= j < k && targets[j].provider != prov
      {
        if targets[k].provider != prov {
          pool := true;
        }
      }
      assert pool <==> !OneProvider(targets);
      var ordered := OrderFor(targets, rotations);
      OrderedIs(rotations(prov).order, targets, None);
      LineIsRight(ordered, Picked(next, AskFor(model, targets, rotations)));
      LineBegins(ordered, Picked(next, AskFor(model, targets, rotations)));
      if pool {
        list, start := WithStandbyLast(targets, ByCursor("m:" + model, 1));
        return;
      }
      var rot := rotations(prov);
      if rot.mode == Fallback {
        list, start := WithStandbyLast(Ordered(rot.order, targets), First);
      } else {
        list, start := WithStandbyLast(Ordered(rot.order, targets), ByCursor("p:" + prov, rot.sticky));
      }
    }
  }

  predicate OneProvider(targets: seq<Conn>) {
    forall j :: 1 <= j < |targets| ==> targets[j].provider == targets[0].provider
  }

  // A pool is a list with accounts of two providers.
  lemma PoolExactlyWhen(targets: seq<Conn>)
    ensures OneProvider(targets) <==> forall c <- targets, d <- targets :: c.provider == d.provider
  {
    if forall c <- targets, d <- targets :: c.provider == d.provider {
      forall j | 1 <= j < |targets| ensures targets[j].provider == targets[0].provider {
        assert targets[j] in targets && targets[0] in targets;
      }
    }
  }

  function OrderFor(targets: seq<Conn>, rotations: string -> Rotation): seq<Conn>
    requires |targets| > 0
  {
    if OneProvider(targets) then Ordered(rotations(targets[0].provider).order, targets) else targets
  }

  function PickerFor(model: string, targets: seq<Conn>, rotations: string -> Rotation): Picker
    requires |targets| > 0
  {
    var rot := rotations(targets[0].provider);
    if !OneProvider(targets) then ByCursor("m:" + model, 1)
    else if rot.mode == Fallback then First
    else ByCursor("p:" + targets[0].provider, rot.sticky)
  }

  function AskFor(model: string, targets: seq<Conn>, rotations: string -> Rotation): Ask
    requires |targets| > 0
  {
    Ask(PickerFor(model, targets, rotations), |Only(OrderFor(targets, rotations), false)|)
  }

  // ---------------------------------------------------------------------------
  // Whose turn it is over many requests, said of the requests alone
  // ---------------------------------------------------------------------------

  datatype Call = Call(model: string, targets: seq<Conn>, rotations: string -> Rotation)

  // The accounts of a provider that take turns, in its order of priority.
  function Normals(c: Call): seq<Conn>
    requires c.targets != []
  {
    Only(Ordered(c.rotations(c.targets[0].provider).order, c.targets), false)
  }

  function SettingOf(c: Call): Rotation
    requires c.targets != []
  {
    c.rotations(c.targets[0].provider)
  }

  predicate ByProvider(c: Call, prov: string) {
    c.targets != [] && OneProvider(c.targets) && c.targets[0].provider == prov
  }

  predicate ByPool(c: Call, model: string) {
    c.targets != [] && !OneProvider(c.targets) && c.model == model
  }

  function ProviderCalls(calls: seq<Call>, prov: string): nat {
    if calls == [] then 0 else ProviderCalls(calls[..|calls| - 1], prov) + if ByProvider(calls[|calls| - 1], prov) then 1 else 0
  }

  function PoolCalls(calls: seq<Call>, model: string): nat {
    if calls == [] then 0 else PoolCalls(calls[..|calls| - 1], model) + if ByPool(calls[|calls| - 1], model) then 1 else 0
  }

  // The provider takes turns, and its setting and the number of its normal accounts stay as they are.
  predicate SteadyProvider(calls: seq<Call>, prov: string, n: nat, sticky: nat) {
    forall i :: 0 <= i < |calls| && ByProvider(calls[i], prov) ==>
      SettingOf(calls[i]).mode == RoundRobin && SettingOf(calls[i]).sticky == sticky && |Normals(calls[i])| == n
  }

  predicate SteadyPool(calls: seq<Call>, model: string, n: nat) {
    forall i :: 0 <= i < |calls| && ByPool(calls[i], model) ==> |Only(calls[i].targets, false)| == n
  }

  // The account the last of some calls begins with. One provider: in rotation the normal account (calls before
  // it) / sticky, round and round; as a fallback always the first. A pool: the next one on every call for its
  // model. Without a normal account the first standby.
  predicate FirstRight(calls: seq<Call>, first: Conn)
    requires calls != [] && calls[|calls| - 1].targets != []
  {
    var before, c := calls[..|calls| - 1], calls[|calls| - 1];
    if OneProvider(c.targets) then
      var prov, normals, setting := c.targets[0].provider, Normals(c), SettingOf(c);
      if normals == [] then [first] <= Ordered(setting.order, c.targets)
      else if setting.mode == Fallback then first == normals[0]
      else setting.sticky > 0 && SteadyProvider(before, prov, |normals|, setting.sticky) ==>
        first == normals[(ProviderCalls(before, prov) / setting.sticky) % |normals|]
    else
      var normals := Only(c.targets, false);
      if normals == [] then first == c.targets[0]
      else SteadyPool(before, c.model, |normals|) ==> first == normals[PoolCalls(before, c.model) % |normals|]
  }

  function AskOf(c: Call): Ask {
    if c.targets == [] then Ask(First, 0) else AskFor(c.model, c.targets, c.rotations)
  }

  function Asks(calls: seq<Call>): seq<Ask> {
    seq(|calls|, i requires 0 <= i < |calls| => AskOf(calls[i]))
  }

  lemma AsksMore(calls: seq<Call>, c: Call)
    ensures Asks(calls + [c]) == Asks(calls) + [AskOf(c)]
    ensures (Asks(calls) + [AskOf(c)])[..|calls|] == Asks(calls)
  {
    hide AskOf;
  }

  // The cursors' keys tell providers and models apart.
  lemma AskIsOf(c: Call, name: string)
    ensures Of(AskOf(c), "p:" + name) <==> ByProvider(c, name) && SettingOf(c).mode == RoundRobin
    ensures Of(AskOf(c), "m:" + name) <==> ByPool(c, name)
    ensures ByProvider(c, name) ==> AskOf(c).n == |Normals(c)| && (SettingOf(c).mode == RoundRobin ==> AskOf(c).picker.sticky == SettingOf(c).sticky)
    ensures ByPool(c, name) ==> AskOf(c).n == |Only(c.targets, false)| && AskOf(c).picker.sticky == 1
  {
    hide Only, Ordered;
    if c.targets != [] {
      var prov := c.targets[0].provider;
      assert ("p:" + prov)[0] == 'p' && ("m:" + c.model)[0] == 'm' && ("p:" + name)[0] == 'p' && ("m:" + name)[0] == 'm';
      assert ("p:" + prov)[2..] == prov && ("m:" + c.model)[2..] == c.model && ("p:" + name)[2..] == name && ("m:" + name)[2..] == name;
    }
  }

  lemma {:induction false} ProviderAsks(calls: seq<Call>, prov: string, n: nat, sticky: nat)
    requires SteadyProvider(calls, prov, n, sticky)
    ensures Asked(Asks(calls), "p:" + prov) == ProviderCalls(calls, prov) && Steady(Asks(calls), "p:" + prov, n, sticky)
  {
    hide AskOf, ByProvider;
    if calls != [] {
      var before, c := calls[..|calls| - 1], calls[|calls| - 1];
      assert calls == before + [c];
      ProviderAsks(before, prov, n, sticky);
      AsksMore(before, c);
      AskIsOf(c, prov);
    }
  }

  lemma {:induction false} PoolAsks(calls: seq<Call>, model: string, n: nat)
    requires SteadyPool(calls, model, n)
    ensures Asked(Asks(calls), "m:" + model) == PoolCalls(calls, model) && Steady(Asks(calls), "m:" + model, n, 1)
  {
    hide AskOf, ByPool;
    if calls != [] {
      var before, c := calls[..|calls| - 1], calls[|calls| - 1];
      assert calls == before + [c];
      PoolAsks(before, model, n);
      AsksMore(before, c);
      AskIsOf(c, model);
      assert c in calls;
    }
  }

  lemma StandbyAlone(targets: seq<Conn>)
    requires Only(targets, false) == []
    ensures Only(targets, true) == targets
  {
    OnlyBoth(targets);
    OnlyIs(targets, true);
    hide Only;
    forall c | c in targets ensures c.standby {
      assert c in multiset(targets);
      assert c in multiset(Only(targets, true));
    }
  }

  lemma LineBegins(targets: seq<Conn>, i: nat)
    requires targets != [] && i <= |Only(targets, false)|
    ensures Line(targets, i) != []
    ensures Only(targets, false) == [] ==> Line(targets, i)[0] == targets[0]
    ensures i < |Only(targets, false)| ==> Line(targets, i)[0] == Only(targets, false)[i]
  {
    hide Only;
    if Only(targets, false) == [] {
      StandbyAlone(targets);
    }
  }

  // Main result: the line a call gets from cursors that began fresh begins with the right account.
  lemma LineFirst(calls: seq<Call>)
    requires calls != [] && calls[|calls| - 1].targets != []
    ensures var before, c := calls[..|calls| - 1], calls[|calls| - 1];
      var i := Picked(AfterAll(map[], Asks(before)), AskOf(c));
      && i <= |Only(OrderFor(c.targets, c.rotations), false)| && Line(OrderFor(c.targets, c.rotations), i) != []
      && FirstRight(calls, Line(OrderFor(c.targets, c.rotations), i)[0])
  {
    var before, c := calls[..|calls| - 1], calls[|calls| - 1];
    var next := AfterAll(map[], Asks(before));
    var ordered, setting := OrderFor(c.targets, c.rotations), SettingOf(c);
    OrderedIs(setting.order, c.targets, None);
    LineBegins(ordered, Picked(next, AskOf(c)));
    hide Only, Ordered, Line, AfterAll, Asks, Picked, ProviderCalls, PoolCalls, SteadyProvider, SteadyPool;
    var n := AskOf(c).n;
    if n > 0 && OneProvider(c.targets) && setting.mode == RoundRobin {
      var prov := c.targets[0].provider;
      if setting.sticky > 0 && SteadyProvider(before, prov, n, setting.sticky) {
        ProviderAsks(before, prov, n, setting.sticky);
        NextPickIs(map[], Asks(before), "p:" + prov, n, setting.sticky);
      }
    } else if n > 0 && !OneProvider(c.targets) {
      if SteadyPool(before, c.model, n) {
        PoolAsks(before, c.model, n);
        NextPickIs(map[], Asks(before), "m:" + c.model, n, 1);
      }
    } else if n > 0 {
      FirstPicked(next, n);
    }
  }

  lemma FirstPicked(next: map<string, Cursor>, n: nat)
    ensures Picked(next, Ask(First, n)) == 0
  {
  }

  ghost predicate AllFirst(calls: seq<Call>, firsts: seq<Conn>)
    requires forall i :: 0 <= i < |calls| ==> calls[i].targets != []
    decreases |calls|
  {
    && |firsts| == |calls|
    && (calls != [] ==> FirstRight(calls, firsts[|calls| - 1]) && AllFirst(calls[..|calls| - 1], firsts[..|calls| - 1]))
  }

  // A sequence of calls of startFor, on cursors that begin fresh.
  method StartAll(calls: seq<Call>) returns (firsts: seq<Conn>)
    requires forall i :: 0 <= i < |calls| ==> calls[i].targets != []
    ensures AllFirst(calls, firsts)
  {
    hide FirstRight, AfterAll, Asks;
    NoAsks();
    var turns := new Rotations();
    firsts := [];
    for k := 0 to |calls|
      invariant turns.next == AfterAll(map[], Asks(calls[..k])) && AllFirst(calls[..k], firsts)
    {
      assert calls[..k + 1] == calls[..k] + [calls[k]];
      var first := StartNext(calls[..k], calls[k], turns);
      assert (firsts + [first])[..k] == firsts;
      firsts := firsts + [first];
    }
    assert calls[..|calls|] == calls;
  }

  lemma NoAsks()
    ensures AfterAll(map[], Asks([])) == map[]
  {
  }

  method StartNext(ghost before: seq<Call>, c: Call, turns: Rotations) returns (first: Conn)
    requires c.targets != [] && turns.next == AfterAll(map[], Asks(before))
    modifies turns
    ensures turns.next == AfterAll(map[], Asks(before + [c])) && FirstRight(before + [c], first)
  {
    hide FirstRight, Only, Ordered, Line, OrderFor, PickerFor, Picked, Turned, StandbyLast;
    assert (before + [c])[..|before|] == before;
    var list, start := turns.StartFor(c.model, c.targets, c.rotations);
    AsksMore(before, c);
    LineFirst(before + [c]);
    first := From(list, start)[0];
  }

  // ---------------------------------------------------------------------------
  // A session's account first
  // ---------------------------------------------------------------------------

  predicate Distinct(conns: seq<Conn>) {
    forall i, j :: 0 <= i < j < |conns| ==> conns[i].id != conns[j].id
  }

  function Without(conns: seq<Conn>, id: string): seq<Conn> {
    if conns == [] then []
    else
      var rest, c := Without(conns[..|conns| - 1], id), conns[|conns| - 1];
      if c.id == id then rest else rest + [c]
  }

  lemma {:induction false} WithoutIs(conns: seq<Conn>, home: Conn)
    requires Distinct(conns) && home in conns
    ensures multiset(Without(conns, home.id)) + multiset{home} == multiset(conns)
    decreases |conns|
  {
    var rest, c := conns[..|conns| - 1], conns[|conns| - 1];
    assert conns == rest + [c];
    if c.id == home.id {
      var k :| 0 <= k < |conns| && conns[k] == home;
      assert k == |conns| - 1;
      WithoutNobody(rest, home.id);
    } else {
      WithoutIs(rest, home);
    }
  }

  lemma {:induction false} WithoutNobody(conns: seq<Conn>, id: string)
    requires forall i :: 0 <= i < |conns| ==> conns[i].id != id
    ensures Without(conns, id) == conns
  {
    if conns != [] {
      WithoutNobody(conns[..|conns| - 1], id);
    }
  }

  // The session's account, then the others by rotation, standby accounts last.
  function SessionLine(home: Conn, ordered: seq<Conn>): seq<Conn> {
    [home] + Only(Without(ordered, home.id), false) + Only(Without(ordered, home.id), true)
  }

  lemma DistinctStays(a: seq<Conn>, b: seq<Conn>)
    requires Distinct(a) && multiset(a) == multiset(b)
    ensures Distinct(b)
  {
    forall i, j | 0 <= i < j < |b| ensures b[i].id != b[j].id {
      assert b[i] in multiset(a) && b[j] in multiset(a);
      var k :| 0 <= k < |a| && a[k] == b[i];
      var l :| 0 <= l < |a| && a[l] == b[j];
      if k == l {
        TwiceIn(b, i, j);
        OnceIn(a, k);
      }
    }
  }

  lemma TwiceIn(b: seq<Conn>, i: nat, j: nat)
    requires i < j < |b| && b[i] == b[j]
    ensures multiset(b)[b[i]] >= 2
  {
    assert b == b[..i] + [b[i]] + b[i + 1..j] + [b[j]] + b[j + 1..];
  }

  lemma OnceIn(a: seq<Conn>, k: nat)
    requires Distinct(a) && k < |a|
    ensures multiset(a)[a[k]] == 1
  {
    assert a == a[..k] + [a[k]] + a[k + 1..];
    assert a[k] !in a[..k] && a[k] !in a[k + 1..];
  }

  lemma SessionLineIsRight(home: Conn, targets: seq<Conn>, ordered: seq<Conn>)
    requires Distinct(targets) && home in targets && multiset(ordered) == multiset(targets)
    requires home.standby ==> Only(Without(ordered, home.id), false) == []
    ensures multiset(SessionLine(home, ordered)) == multiset(targets) && StandbyLast(SessionLine(home, ordered))
  {
    hide Only, Without, StandbyLast, Distinct;
    DistinctStays(targets, ordered);
    assert home in multiset(ordered);
    WithoutIs(ordered, home);
    var others := Without(ordered, home.id);
    var normal, standby := Only(others, false), Only(others, true);
    OnlyBoth(others);
    assert multiset([home] + normal + standby) == multiset{home} + (multiset(normal) + multiset(standby));
    HomeFirst(home, others);
  }

  lemma HomeFirst(home: Conn, others: seq<Conn>)
    requires home.standby ==> Only(others, false) == []
    ensures StandbyLast([home] + Only(others, false) + Only(others, true))
  {
    var normal, standby := Only(others, false), Only(others, true);
    OnlyIs(others, false);
    OnlyIs(others, true);
    hide Only, StandbyLast;
    if home.standby {
      assert [home] + normal + standby == [] + ([home] + standby);
      NormalsFirst([], [home] + standby);
    } else {
      NormalsFirst([home] + normal, standby);
    }
  }

  lemma NormalsFirst(normal: seq<Conn>, standby: seq<Conn>)
    requires (forall c <- normal :: !c.standby) && forall c <- standby :: c.standby
    ensures StandbyLast(normal + standby)
  {
    forall k | 0 <= k < |normal| ensures !(normal + standby)[k].standby {
      assert normal[k] in normal;
    }
  }

  // The session's account is there, and is no standby unless all are.
  predicate SessionDecides(id: string, targets: seq<Conn>) {
    id != "" && exists home <- targets :: home.id == id && (home.standby ==> forall c <- targets :: c.standby)
  }

  // The loops of sessionOrder: None lets the rotation decide.
  method SessionOrder(id: string, targets: seq<Conn>, rotations: string -> Rotation) returns (list: Option<seq<Conn>>)
    requires |targets| > 0 && Distinct(targets)
    ensures list.Some? ==> multiset(list.value) == multiset(targets) && StandbyLast(list.value)
    ensures list.Some? ==> exists home ::
      home in targets && home.id == id && list.value == SessionLine(home, Ordered(rotations(targets[0].provider).order, targets))
    ensures list.Some? <==> SessionDecides(id, targets)
  {
    var home: Option<Conn> := None;
    for i := 0 to |targets|
      invariant home.None? <==> forall k :: 0 <= k < i ==> targets[k].id != id
      invariant home.Some? ==> home.value in targets && home.value.id == id
    {
      if targets[i].id == id {
        home := Some(targets[i]);
      }
    }
    if id == "" || home.None? {
      return None;
    }
    var ordered := Ordered(rotations(targets[0].provider).order, targets);
    OrderedIs(rotations(targets[0].provider).order, targets, None);
    var normal, standby := Split2(ordered, id);
    NormalLeft(targets, ordered, home.value);
    OneHome(targets, home.value);
    if home.value.standby && |normal| > 0 {
      return None;
    }
    SessionLineIsRight(home.value, targets, ordered);
    list := Some([home.value] + normal + standby);
  }

  lemma OneHome(targets: seq<Conn>, home: Conn)
    requires Distinct(targets) && home in targets
    ensures forall c <- targets :: c.id == home.id ==> c == home
  {
    var k :| 0 <= k < |targets| && targets[k] == home;
    forall c | c in targets && c.id == home.id ensures c == home {
      var l :| 0 <= l < |targets| && targets[l] == c;
      assert l == k;
    }
  }

  method Split2(ordered: seq<Conn>, id: string) returns (normal: seq<Conn>, standby: seq<Conn>)
    ensures normal == Only(Without(ordered, id), false) && standby == Only(Without(ordered, id), true)
  {
    normal, standby := [], [];
    for i := 0 to |ordered|
      invariant normal == Only(Without(ordered[..i], id), false) && standby == Only(Without(ordered[..i], id), true)
    {
      assert ordered[..i + 1][..i] == ordered[..i];
      var c := ordered[i];
      OnlyMore(Without(ordered[..i], id), c, false);
      OnlyMore(Without(ordered[..i], id), c, true);
      if c.id != id {
        if c.standby {
          standby := standby + [c];
        } else {
          normal := normal + [c];
        }
      }
    }
    assert ordered[..|ordered|] == ordered;
  }

  // A standby home gives way exactly when there is a normal account.
  lemma NormalLeft(targets: seq<Conn>, ordered: seq<Conn>, home: Conn)
    requires Distinct(targets) && home in targets && multiset(ordered) == multiset(targets)
    ensures home.standby ==> (Only(Without(ordered, home.id), false) != [] <==> exists c <- targets :: !c.standby)
  {
    DistinctStays(targets, ordered);
    assert home in multiset(ordered);
    WithoutIs(ordered, home);
    var others := Without(ordered, home.id);
    SomeNormal(others);
    hide Only, Without, Distinct;
    forall c | c in targets ensures c in others || c == home {
      assert c in multiset(targets) && c in multiset(others) + multiset{home};
    }
    forall c | c in others ensures c in targets {
      assert c in multiset(others) && c in multiset(targets);
    }
  }

  lemma SomeNormal(conns: seq<Conn>)
    ensures Only(conns, false) != [] <==> exists c <- conns :: !c.standby
  {
    OnlyIs(conns, false);
    OnlyIs(conns, true);
    OnlyBoth(conns);
    hide Only;
    forall c | c in conns && !c.standby ensures Only(conns, false) != [] {
      assert c in multiset(Only(conns, false)) + multiset(Only(conns, true));
    }
    if Only(conns, false) != [] {
      assert Only(conns, false)[0] in Only(conns, false);
    }
  }

  // ---------------------------------------------------------------------------
  // Attempts
  // ---------------------------------------------------------------------------

  // A try of a request; the model "" is the request's own.
  datatype Attempt = Attempt(conn: Conn, model: string)

  // What the provider of an account makes of the model: None leaves it, else the
  // variant picked, and the default variant ("" for none).
  type Variants = Conn -> Option<(string, string)>

  function FirstTry(c: Conn, variants: Variants): Attempt {
    Attempt(c, if variants(c).Some? then variants(c).value.0 else "")
  }

  predicate HasSecond(c: Conn, variants: Variants) {
    variants(c).Some? && variants(c).value.1 != "" && variants(c).value.1 != variants(c).value.0
  }

  function FirstTries(conns: seq<Conn>, variants: Variants): seq<Attempt> {
    seq(|conns|, i requires 0 <= i < |conns| => FirstTry(conns[i], variants))
  }

  function SecondTries(conns: seq<Conn>, variants: Variants): seq<Attempt> {
    if conns == [] then []
    else
      var rest, c := SecondTries(conns[..|conns| - 1], variants), conns[|conns| - 1];
      if HasSecond(c, variants) then rest + [Attempt(c, variants(c).value.1)] else rest
  }

  // The first try of an account is on the variant picked for it, or on the request's own model.
  lemma FirstTriesAre(conns: seq<Conn>, variants: Variants, i: nat)
    requires i < |conns|
    ensures |FirstTries(conns, variants)| == |conns| && FirstTries(conns, variants)[i].conn == conns[i]
    ensures match variants(conns[i])
      case None => FirstTries(conns, variants)[i].model == ""
      case Some(v) => FirstTries(conns, variants)[i].model == v.0
  {
  }

  // A second try is made exactly of an account whose default variant is another one than was picked, on that one.
  lemma {:induction false} SecondTriesAre(conns: seq<Conn>, variants: Variants, at: Attempt)
    ensures at in SecondTries(conns, variants) <==>
      && at.conn in conns && variants(at.conn).Some?
      && variants(at.conn).value.1 == at.model && at.model != "" && at.model != variants(at.conn).value.0
    ensures StandbyLast(conns) ==> StandbyTriedLast(SecondTries(conns, variants))
  {
    if conns != [] {
      var rest, c := conns[..|conns| - 1], conns[|conns| - 1];
      SecondTriesAre(rest, variants, at);
      assert conns == rest + [c];
      forall x | x in SecondTries(rest, variants) ensures x.conn in rest {
        SecondTriesAre(rest, variants, x);
      }
      forall x | x in rest && StandbyLast(conns) && x.standby ensures c.standby {
        var k :| 0 <= k < |rest| && rest[k] == x;
        assert conns[k] == x;
      }
    }
  }

  // Every account once from start on, then those with another variant to try.
  method AttemptsFor(targets: seq<Conn>, start: nat, variants: Variants) returns (attempts: seq<Attempt>)
    requires start < |targets|
    ensures attempts == FirstTries(From(targets, start), variants) + SecondTries(From(targets, start), variants)
  {
    var out, fallback := [], [];
    ghost var conns := From(targets, start);
    FromIsAll(targets, start);
    for i := 0 to |targets|
      invariant out == FirstTries(conns[..i], variants) && fallback == SecondTries(conns[..i], variants)
    {
      assert conns[..i + 1][..i] == conns[..i];
      var c := targets[(start + i) % |targets|];
      assert c == conns[i];
      if variants(c).None? {
        out := out + [Attempt(c, "")];
      } else {
        var (picked, def) := variants(c).value;
        out := out + [Attempt(c, picked)];
        if def != "" && def != picked {
          fallback := fallback + [Attempt(c, def)];
        }
      }
    }
    assert conns[..|targets|] == conns;
    attempts := out + fallback;
  }

  function Unspent(attempts: seq<Attempt>, model: string, spent: (string, string) -> bool): seq<Attempt> {
    if attempts == [] then []
    else
      var rest, at := Unspent(attempts[..|attempts| - 1], model, spent), attempts[|attempts| - 1];
      if spent(at.conn.id, if at.model != "" then at.model else model) then rest else rest + [at]
  }

  // With every account spent it keeps them all.
  method SkipSpent(attempts: seq<Attempt>, model: string, spent: (string, string) -> bool) returns (kept: seq<Attempt>)
    ensures kept == (if Unspent(attempts, model, spent) == [] then attempts else Unspent(attempts, model, spent))
  {
    kept := [];
    for i := 0 to |attempts|
      invariant kept == Unspent(attempts[..i], model, spent)
    {
      assert attempts[..i + 1][..i] == attempts[..i];
      var at := attempts[i];
      var m := if at.model != "" then at.model else model;
      if !spent(at.conn.id, m) {
        kept := kept + [at];
      }
    }
    assert attempts[..|attempts|] == attempts;
    if |kept| == 0 {
      kept := attempts;
    }
  }

  lemma {:induction false} UnspentIs(attempts: seq<Attempt>, model: string, spent: (string, string) -> bool)
    ensures forall at <- Unspent(attempts, model, spent) ::
      at in attempts && !spent(at.conn.id, if at.model != "" then at.model else model)
    ensures forall at <- attempts ::
      spent(at.conn.id, if at.model != "" then at.model else model) || at in Unspent(attempts, model, spent)
  {
    if attempts != [] {
      UnspentIs(attempts[..|attempts| - 1], model, spent);
      assert attempts == attempts[..|attempts| - 1] + [attempts[|attempts| - 1]];
    }
  }

  predicate StandbyTriedLast(attempts: seq<Attempt>) {
    forall i, j :: 0 <= i < j < |attempts| && attempts[i].conn.standby ==> attempts[j].conn.standby
  }

  // Leaving spent accounts out moves no standby before a normal account.
  lemma {:induction false} UnspentKeepsOrder(attempts: seq<Attempt>, model: string, spent: (string, string) -> bool)
    requires StandbyTriedLast(attempts)
    ensures StandbyTriedLast(Unspent(attempts, model, spent))
  {
    if attempts != [] {
      var rest, at := attempts[..|attempts| - 1], attempts[|attempts| - 1];
      UnspentKeepsOrder(rest, model, spent);
      UnspentIs(rest, model, spent);
      forall x | x in Unspent(rest, model, spent) && x.conn.standby ensures at.conn.standby {
        var k :| 0 <= k < |rest| && rest[k] == x;
        assert attempts[k] == x;
      }
    }
  }

  lemma {:induction false} UnspentOfBoth(first: seq<Attempt>, second: seq<Attempt>, model: string, spent: (string, string) -> bool)
    ensures Unspent(first + second, model, spent) == Unspent(first, model, spent) + Unspent(second, model, spent)
  {
    if second == [] {
      assert first + second == first;
    } else {
      var rest, at := second[..|second| - 1], second[|second| - 1];
      UnspentOfBoth(first, rest, model, spent);
      assert (first + second)[..|first + second| - 1] == first + rest;
    }
  }

  // Main result: of first tries with the standby accounts last and any second tries behind them, the
  // spent ones go from each part by themselves, and the first tries left keep the standby accounts last.
  lemma UnspentKeepsParts(first: seq<Attempt>, second: seq<Attempt>, model: string, spent: (string, string) -> bool)
    requires StandbyTriedLast(first)
    ensures Unspent(first + second, model, spent) == Unspent(first, model, spent) + Unspent(second, model, spent)
    ensures StandbyTriedLast(Unspent(first, model, spent))
  {
    UnspentOfBoth(first, second, model, spent);
    UnspentKeepsOrder(first, model, spent);
  }

  // The attempts made of the first and second tries; with no model in the request none is left out.
  predicate Made(attempts: seq<Attempt>, first: seq<Attempt>, second: seq<Attempt>, model: string, spent: (string, string) -> bool) {
    var f, s := Unspent(first, model, spent), Unspent(second, model, spent);
    if model == "" || f + s == [] then attempts == first + second else attempts == f + s && StandbyTriedLast(f)
  }

  // Main result: whoever decides, session or rotation, the first tries of a request
  // name every account exactly once, no standby before a normal account; only then
  // come the second tries, on the default variant; spent ones are left out of both
  // unless all are. A session that decides leaves the cursors alone; otherwise the
  // request takes its turn.
  method Schedule(id: string, model: string, upstream: string, targets: seq<Conn>, rotations: string -> Rotation, turns: Rotations,
                  variants: Variants, spent: (string, string) -> bool)
    returns (attempts: seq<Attempt>, ghost conns: seq<Conn>)
    requires |targets| > 0 && Distinct(targets)
    modifies turns
    ensures multiset(conns) == multiset(targets) && StandbyLast(conns)
    ensures |FirstTries(conns, variants)| == |targets| && StandbyTriedLast(FirstTries(conns, variants))
    ensures Made(attempts, FirstTries(conns, variants), SecondTries(conns, variants), upstream, spent)
    ensures SessionDecides(id, targets) ==> turns.next == old(turns.next) && exists home ::
      home in targets && home.id == id && conns == SessionLine(home, Ordered(rotations(targets[0].provider).order, targets))
    ensures !SessionDecides(id, targets) ==>
      var ask := AskFor(model, targets, rotations);
      conns == Line(OrderFor(targets, rotations), Picked(old(turns.next), ask)) && turns.next == Turned(old(turns.next), ask)
  {
    hide Ordered, Only, Without, StandbyLast, StandbyTriedLast, SecondTries, Line, OrderFor, PickerFor, Picked, Turned, SessionDecides, Unspent;
    var session := SessionOrder(id, targets, rotations);
    var list, start := targets, 0;
    if session.Some? {
      list := session.value;
      assert From(list, 0) == list;
      assert |multiset(list)| == |multiset(targets)|;
    } else {
      list, start := turns.StartFor(model, targets, rotations);
    }
    conns := From(list, start);
    assert |multiset(conns)| == |multiset(targets)|;
    attempts := AttemptsFor(list, start, variants);
    TriesKeepOrder(conns, variants);
    UnspentKeepsParts(FirstTries(conns, variants), SecondTries(conns, variants), upstream, spent);
    if upstream != "" {
      attempts := SkipSpent(attempts, upstream, spent);
    }
  }

  // The requests that no session decides are the ones that take turns.
  datatype Request = Request(id: string, call: Call, upstream: string, variants: Variants, spent: (string, string) -> bool)

  function Turning(reqs: seq<Request>): seq<Call> {
    if reqs == [] then []
    else
      var before, r := Turning(reqs[..|reqs| - 1]), reqs[|reqs| - 1];
      if SessionDecides(r.id, r.call.targets) then before else before + [r.call]
  }

  // A request that a session decides begins with the session's account; any other with the account whose turn
  // it is, by the requests before it that took turns.
  predicate BeginsRight(reqs: seq<Request>, conns: seq<Conn>)
    requires reqs != [] && reqs[|reqs| - 1].call.targets != []
  {
    var r := reqs[|reqs| - 1];
    conns != [] &&
    if SessionDecides(r.id, r.call.targets) then conns[0].id == r.id
    else TurningEnds(reqs); FirstRight(Turning(reqs), conns[0])
  }

  lemma TurningEnds(reqs: seq<Request>)
    requires reqs != [] && !SessionDecides(reqs[|reqs| - 1].id, reqs[|reqs| - 1].call.targets)
    ensures Turning(reqs) == Turning(reqs[..|reqs| - 1]) + [reqs[|reqs| - 1].call]
  {
  }

  predicate TriesRight(r: Request, tries: seq<Attempt>, line: seq<Conn>) {
    Made(tries, FirstTries(line, r.variants), SecondTries(line, r.variants), r.upstream, r.spent)
  }

  method ScheduleNext(ghost before: seq<Request>, r: Request, turns: Rotations)
    returns (attempts: seq<Attempt>, ghost conns: seq<Conn>)
    requires r.call.targets != [] && Distinct(r.call.targets)
    requires turns.next == AfterAll(map[], Asks(Turning(before)))
    modifies turns
    ensures turns.next == AfterAll(map[], Asks(Turning(before + [r])))
    ensures BeginsRight(before + [r], conns) && TriesRight(r, attempts, conns)
  {
    hide FirstRight, Made, Only, Ordered, OrderFor, PickerFor, Picked, Turned, StandbyLast, FirstTries, SecondTries, SessionDecides, Distinct;
    ghost var reqs := before + [r];
    assert reqs[..|before|] == before;
    attempts, conns := Schedule(r.id, r.call.model, r.upstream, r.call.targets, r.call.rotations, turns, r.variants, r.spent);
    if !SessionDecides(r.id, r.call.targets) {
      hide Line;
      AsksMore(Turning(before), r.call);
      assert Turning(reqs) == Turning(before) + [r.call];
      LineFirst(Turning(reqs));
    }
  }

  ghost predicate AllBegin(reqs: seq<Request>, tries: seq<seq<Attempt>>, lines: seq<seq<Conn>>)
    requires forall i :: 0 <= i < |reqs| ==> reqs[i].call.targets != []
    decreases |reqs|
  {
    var n := |reqs|;
    && |tries| == |lines| == n
    && (n > 0 ==>
          && BeginsRight(reqs, lines[n - 1]) && TriesRight(reqs[n - 1], tries[n - 1], lines[n - 1])
          && AllBegin(reqs[..n - 1], tries[..n - 1], lines[..n - 1]))
  }

  // Main result: over any sequence of requests on cursors that begin fresh, each begins with the right account.
  method ScheduleAll(reqs: seq<Request>) returns (tries: seq<seq<Attempt>>, ghost lines: seq<seq<Conn>>)
    requires forall i :: 0 <= i < |reqs| ==> reqs[i].call.targets != [] && Distinct(reqs[i].call.targets)
    ensures AllBegin(reqs, tries, lines)
  {
    hide BeginsRight, TriesRight, Distinct, AfterAll, Asks;
    NoAsks();
    var turns := new Rotations();
    tries, lines := [], [];
    for k := 0 to |reqs|
      invariant turns.next == AfterAll(map[], Asks(Turning(reqs[..k]))) && AllBegin(reqs[..k], tries, lines)
    {
      assert reqs[..k + 1] == reqs[..k] + [reqs[k]];
      var attempts, conns := ScheduleNext(reqs[..k], reqs[k], turns);
      assert (tries + [attempts])[..k] == tries && (lines + [conns])[..k] == lines;
      tries, lines := tries + [attempts], lines + [conns];
    }
    assert reqs[..|reqs|] == reqs;
  }

  lemma TriesKeepOrder(conns: seq<Conn>, variants: Variants)
    ensures |FirstTries(conns, variants)| == |conns|
    ensures StandbyLast(conns) ==> StandbyTriedLast(FirstTries(conns, variants))
  {
  }

  // ---------------------------------------------------------------------------
  // The sessions' memory
  // ---------------------------------------------------------------------------

  datatype Entry = Entry(conn: string, seen: nat)

  const TTL: nat := 3_600_000_000_000   // one hour, in nanoseconds
  const MAX: nat := 20000

  function Live(m: map<string, Entry>, now: nat): map<string, Entry> {
    map k | k in m && now - m[k].seen <= TTL :: m[k]
  }

  function NewerThan(m: map<string, Entry>, time: nat): map<string, Entry> {
    map k | k in m && m[k].seen > time :: m[k]
  }

  predicate OldestIn(m: map<string, Entry>, oldest: nat) {
    (exists k <- m :: m[k].seen == oldest) && forall k <- m :: oldest <= m[k].seen
  }

  // All sessions of the last hour if they leave room, else those of the newer half of their time.
  ghost predicate Pruned(before: map<string, Entry>, after: map<string, Entry>, now: nat) {
    var live := Live(before, now);
    if |live| < MAX then after == live
    else exists oldest: nat :: OldestIn(live, oldest) && oldest <= now && after == NewerThan(live, oldest + (now - oldest) / 2)
  }

  // Pruning has one result, and keeps no session while one that answered later goes.
  lemma PrunedIs(before: map<string, Entry>, after: map<string, Entry>, other: map<string, Entry>, now: nat)
    requires Pruned(before, after, now)
    ensures Pruned(before, other, now) ==> other == after
    ensures forall k, l :: k in after && l in before && before[l].seen >= before[k].seen ==> l in after
  {
    var live := Live(before, now);
    if |live| >= MAX {
      forall a, b | OldestIn(live, a) && OldestIn(live, b) ensures a == b {
        var k, l :| k in live && l in live && live[k].seen == a && live[l].seen == b;
      }
    }
  }

  class Affinity {
    var m: map<string, Entry>
    ghost var clock: nat

    // Nothing lies in the future, and the map is bounded.
    ghost predicate Valid()
      reads this
    {
      |m| <= MAX && forall k <- m :: m[k].seen <= clock
    }

    constructor ()
      ensures Valid() && m == map[] && clock == 0
    {
      m, clock := map[], 0;
    }

    // The session's account, if it answered within the hour.
    method Get(key: string, now: nat) returns (conn: string)
      requires Valid() && clock <= now
      modifies this
      ensures Valid() && clock == now
      ensures conn == if key in old(m) && now - old(m)[key].seen <= TTL then old(m)[key].conn else ""
      ensures m == if key in old(m) && now - old(m)[key].seen > TTL then old(m) - {key} else old(m)
    {
      clock := now;
      if key !in m {
        return "";
      }
      if now - m[key].seen > TTL {
        m := m - {key};
        return "";
      }
      return m[key].conn;
    }

    method Set(key: string, conn: string, now: nat)
      requires Valid() && clock <= now
      modifies this
      ensures Valid() && clock == now
      ensures key in m && m[key] == Entry(conn, now)
      ensures key in old(m) || |old(m)| < MAX ==> m == old(m)[key := Entry(conn, now)]
      ensures key !in old(m) && |old(m)| == MAX ==> Pruned(old(m), m - {key}, now)
    {
      clock := now;
      if key !in m && |m| >= MAX {
        Prune(now);
      }
      ghost var kept := m;
      m := m[key := Entry(conn, now)];
      assert key !in old(m) ==> m - {key} == kept;
    }

    // Drops what expired, and the older half if that is not enough.
    method Prune(now: nat)
      requires clock == now && forall k <- m :: m[k].seen <= now
      requires |m| <= MAX
      modifies this`m
      ensures |m| < MAX
      ensures Pruned(old(m), m, now)
      ensures m.Keys <= old(m).Keys && forall k <- m :: m[k] == old(m)[k]
    {
      var left, oldest := m, now;
      var todo := m.Keys;
      while todo != {}
        invariant todo <= m.Keys
        invariant forall k :: k in left <==> k in m && (k in todo || now - m[k].seen <= TTL)
        invariant forall k <- left :: left[k] == m[k]
        invariant oldest <= now && forall k <- left :: k in todo || oldest <= left[k].seen
        invariant oldest == now || exists k <- left :: k !in todo && left[k].seen == oldest
        invariant m == old(m) && |left| <= |m|
        decreases todo
      {
        var k :| k in todo;
        todo := todo - {k};
        if now - m[k].seen > TTL {
          left := left - {k};
        } else if m[k].seen < oldest {
          oldest := m[k].seen;
        }
      }
      assert left == Live(m, now);
      if |left| >= MAX {
        assert OldestIn(left, oldest);
        var mid := oldest + (now - oldest) / 2;
        var keep := NewerThan(left, mid);
        ghost var gone :| gone in left && left[gone].seen <= mid;
        StrictlyFewer(left, keep, gone);
        left := keep;
      }
      m := left;
    }
  }

  lemma StrictlyFewer(m: map<string, Entry>, n: map<string, Entry>, k: string)
    requires n.Keys <= m.Keys && k in m && k !in n
    ensures |n| < |m|
  {
    SubsetSize(n.Keys + {k}, m.Keys);
  }

  lemma {:induction false} SubsetSize(a: set<string>, b: set<string>)
    requires a <= b
    ensures |a| <= |b|
  {
    if a != {} {
      var x :| x in a;
      SubsetSize(a - {x}, b - {x});
    }
  }
}
