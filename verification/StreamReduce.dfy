/**
 The fold of a stream's events into records: text that came in pieces becomes one
 leaf, and the leaves of all other events are kept up to a cap.
 */
module StreamReduce {
  import opened Options
  import opened ShapeReduce

  // One event: its name, the leaves of its body, and the text at each path of the body.
  datatype Event = Event(name: string, leaves: seq<Leaf>, texts: map<string, string>)

  // A record of an event, or the place kept for all delta events of one name.
  datatype Rec = Rec(event: string, leaves: seq<Leaf>, delta: bool)

  const MAX_RECORD := 5000

  // ---------------------------------------------------------------------------
  // Delta events
  // ---------------------------------------------------------------------------

  predicate DeltaLeaf(l: Leaf) {
    && l.typ == "string" && l.enum == ""
    && (Contains(l.path, "delta") || Contains(l.path, "content") || Contains(l.path, "text") || Contains(l.path, "arguments"))
  }

  predicate IsDelta(ev: Event) {
    (Contains(ev.name, "delta") || ev.name == "") && exists l <- ev.leaves :: DeltaLeaf(l)
  }

  function TextAt(ev: Event, path: string): string {
    if path in ev.texts then ev.texts[path] else ""
  }

  // The text of a path in the first n leaves of one event.
  function TextIn(ev: Event, n: nat, path: string): string
    requires n <= |ev.leaves|
  {
    if n == 0 then ""
    else if DeltaLeaf(ev.leaves[n - 1]) && ev.leaves[n - 1].path == path then TextIn(ev, n - 1, path) + TextAt(ev, path)
    else TextIn(ev, n - 1, path)
  }

  function CountIn(ev: Event, n: nat, path: string): nat
    requires n <= |ev.leaves|
  {
    if n == 0 then 0
    else CountIn(ev, n - 1, path) + if DeltaLeaf(ev.leaves[n - 1]) && ev.leaves[n - 1].path == path then 1 else 0
  }

  // All pieces of the text at a path, in order, and how many there are.
  function DeltaText(evs: seq<Event>, path: string): string {
    if evs == [] then ""
    else
      var ev := evs[|evs| - 1];
      DeltaText(evs[..|evs| - 1], path) + if IsDelta(ev) then TextIn(ev, |ev.leaves|, path) else ""
  }

  function DeltaCount(evs: seq<Event>, path: string): nat {
    if evs == [] then 0
    else
      var ev := evs[|evs| - 1];
      DeltaCount(evs[..|evs| - 1], path) + if IsDelta(ev) then CountIn(ev, |ev.leaves|, path) else 0
  }

  // The paths in the order they first brought text, each with the event that did.
  type Owners = seq<(string, string)>

  predicate Owned(owners: Owners, path: string) {
    exists o <- owners :: o.0 == path
  }

  predicate Owns(owners: Owners, name: string) {
    exists o <- owners :: o.1 == name
  }

  function OwnersIn(owners: Owners, ev: Event, n: nat): Owners
    requires n <= |ev.leaves|
  {
    if n == 0 then owners
    else
      var before, l := OwnersIn(owners, ev, n - 1), ev.leaves[n - 1];
      if DeltaLeaf(l) && !Owned(before, l.path) then before + [(l.path, ev.name)] else before
  }

  function FirstSeen(evs: seq<Event>): Owners {
    if evs == [] then []
    else
      var ev, before := evs[|evs| - 1], FirstSeen(evs[..|evs| - 1]);
      if IsDelta(ev) then OwnersIn(before, ev, |ev.leaves|) else before
  }

  // The other leaves of the delta events of one name, each path once.
  function OthersIn(others: seq<Leaf>, ev: Event, n: nat): seq<Leaf>
    requires n <= |ev.leaves|
  {
    if n == 0 then others
    else
      var before, l := OthersIn(others, ev, n - 1), ev.leaves[n - 1];
      if !DeltaLeaf(l) && forall o <- before :: o.path != l.path then before + [l] else before
  }

  function Others(evs: seq<Event>, name: string): seq<Leaf> {
    if evs == [] then []
    else
      var ev, before := evs[|evs| - 1], Others(evs[..|evs| - 1], name);
      if IsDelta(ev) && ev.name == name then OthersIn(before, ev, |ev.leaves|) else before
  }

  // One leaf for all the text of a path.
  function Summary(evs: seq<Event>, path: string, hash: string -> string): Leaf {
    Leaf(path, "string", |DeltaText(evs, path)|, hash(DeltaText(evs, path)), "", DeltaCount(evs, path))
  }

  function Summaries(evs: seq<Event>, owners: Owners, name: string, hash: string -> string): seq<Leaf> {
    if owners == [] then []
    else
      var o, before := owners[|owners| - 1], Summaries(evs, owners[..|owners| - 1], name, hash);
      if o.1 == name then before + [Summary(evs, o.0, hash)] else before
  }

  // ---------------------------------------------------------------------------
  // What the delta events come to, said of the events alone
  // ---------------------------------------------------------------------------

  // A text that comes in pieces: a string that shows no value, at a path that speaks of one.
  predicate IsPiece(l: Leaf) {
    l.typ == "string" && l.enum == "" && exists word <- ["delta", "content", "text", "arguments"] :: Contains(l.path, word)
  }

  lemma DeltaLeafIs(l: Leaf)
    ensures DeltaLeaf(l) <==> IsPiece(l)
  {
    forall word ensures word in ["delta", "content", "text", "arguments"] <==>
      word == "delta" || word == "content" || word == "text" || word == "arguments"
    {
    }
    hide Contains;
  }

  // A delta event is one of no name, or with "delta" in its name, that brings a piece.
  lemma DeltaEventIs(ev: Event)
    ensures IsDelta(ev) <==> (ev.name == "" || Contains(ev.name, "delta")) && exists l <- ev.leaves :: IsPiece(l)
  {
    forall l ensures DeltaLeaf(l) <==> IsPiece(l) { DeltaLeafIs(l); }
    hide DeltaLeaf, IsPiece, Contains;
  }

  ghost predicate PieceAt(ev: Event, n: nat, path: string) {
    n < |ev.leaves| && IsPiece(ev.leaves[n]) && ev.leaves[n].path == path
  }

  // The text of an event at a path is there once for each of its leaves at that path.
  lemma {:induction false} TextInIs(ev: Event, n: nat, path: string)
    requires n < |ev.leaves|
    ensures TextIn(ev, 0, path) == "" && CountIn(ev, 0, path) == 0
    ensures PieceAt(ev, n, path) ==>
      && TextIn(ev, n + 1, path) == TextIn(ev, n, path) + (if path in ev.texts then ev.texts[path] else "")
      && CountIn(ev, n + 1, path) == CountIn(ev, n, path) + 1
    ensures !PieceAt(ev, n, path) ==>
      TextIn(ev, n + 1, path) == TextIn(ev, n, path) && CountIn(ev, n + 1, path) == CountIn(ev, n, path)
  {
    DeltaLeafIs(ev.leaves[n]);
    hide DeltaLeaf, IsPiece;
  }

  // The pieces of a stream are those of its events, one after another; other events bring none.
  lemma {:induction false} TextsBoth(a: seq<Event>, b: seq<Event>, ev: Event, path: string)
    ensures DeltaText([], path) == "" && DeltaCount([], path) == 0
    ensures DeltaText([ev], path) == (if IsDelta(ev) then TextIn(ev, |ev.leaves|, path) else "")
    ensures DeltaCount([ev], path) == (if IsDelta(ev) then CountIn(ev, |ev.leaves|, path) else 0)
    ensures DeltaText(a + b, path) == DeltaText(a, path) + DeltaText(b, path)
    ensures DeltaCount(a + b, path) == DeltaCount(a, path) + DeltaCount(b, path)
    decreases |b|
  {
    hide IsDelta;
    assert [ev][..0] == [];
    if b == [] {
      assert a + b == a;
    } else {
      assert (a + b)[..|a + b| - 1] == a + b[..|b| - 1];
      TextsBoth(a, b[..|b| - 1], ev, path);
    }
  }

  // The event brings a piece at the path.
  ghost predicate Brings(ev: Event, path: string) {
    IsDelta(ev) && exists l <- ev.leaves :: IsPiece(l) && l.path == path
  }

  lemma {:induction false} OwnersInIs(owners: Owners, ev: Event, n: nat, path: string, name: string)
    requires n <= |ev.leaves|
    ensures (path, name) in OwnersIn(owners, ev, n) <==>
      || (path, name) in owners
      || (name == ev.name && !Owned(owners, path) && exists k :: 0 <= k < n && PieceAt(ev, k, path))
    ensures Owned(OwnersIn(owners, ev, n), path) <==> Owned(owners, path) || exists k :: 0 <= k < n && PieceAt(ev, k, path)
  {
    hide DeltaLeaf, IsPiece;
    if n > 0 {
      OwnersInIs(owners, ev, n - 1, path, name);
      var l, before := ev.leaves[n - 1], OwnersIn(owners, ev, n - 1);
      DeltaLeafIs(l);
      OwnedMore(before, (l.path, ev.name), path);
      hide Owned;
      assert PieceAt(ev, n - 1, path) <==> DeltaLeaf(l) && l.path == path;
    }
  }

  lemma OwnedMore(owners: Owners, o: (string, string), path: string)
    ensures Owned(owners + [o], path) <==> Owned(owners, path) || o.0 == path
  {
    assert o in owners + [o];
    assert forall x <- owners :: x in owners + [o];
  }

  // Main result on owners: a path belongs to the event that first brought a piece at it, and to no other.
  lemma {:induction false} OwnerIsFirst(evs: seq<Event>, path: string, name: string)
    ensures (path, name) in FirstSeen(evs) <==>
      exists i :: 0 <= i < |evs| && evs[i].name == name && Brings(evs[i], path) && forall k :: 0 <= k < i ==> !Brings(evs[k], path)
    ensures Owned(FirstSeen(evs), path) <==> exists i :: 0 <= i < |evs| && Brings(evs[i], path)
  {
    hide IsPiece, IsDelta, Owned;
    if evs == [] {
      NoOwner(path);
    } else {
      var ev, before := evs[|evs| - 1], evs[..|evs| - 1];
      OwnerIsFirst(before, path, name);
      OwnersInIs(FirstSeen(before), ev, |ev.leaves|, path, name);
      BringsAt(ev, path);
      assert forall k :: 0 <= k < |before| ==> before[k] == evs[k];
    }
  }

  lemma NoOwner(path: string)
    ensures !Owned([], path)
  {
  }

  lemma BringsAt(ev: Event, path: string)
    ensures Brings(ev, path) <==> IsDelta(ev) && exists k :: 0 <= k < |ev.leaves| && PieceAt(ev, k, path)
  {
    hide IsPiece, IsDelta;
    if l :| l in ev.leaves && IsPiece(l) && l.path == path {
      var k :| 0 <= k < |ev.leaves| && ev.leaves[k] == l;
      assert PieceAt(ev, k, path);
    }
  }

  // A leaf of a delta event that is no piece, at a path.
  ghost predicate OtherAt(ev: Event, name: string, n: nat, path: string) {
    IsDelta(ev) && ev.name == name && n < |ev.leaves| && !IsPiece(ev.leaves[n]) && ev.leaves[n].path == path
  }

  ghost predicate HasPath(leaves: seq<Leaf>, path: string) {
    exists l <- leaves :: l.path == path
  }

  lemma {:induction false} OthersInIs(others: seq<Leaf>, ev: Event, n: nat, l: Leaf)
    requires n <= |ev.leaves|
    ensures others <= OthersIn(others, ev, n)
    ensures HasPath(OthersIn(others, ev, n), l.path) <==>
      HasPath(others, l.path) || exists k :: 0 <= k < n && !IsPiece(ev.leaves[k]) && ev.leaves[k].path == l.path
    ensures l in OthersIn(others, ev, n) ==> l in others || (exists k :: 0 <= k < n && !IsPiece(ev.leaves[k]) && ev.leaves[k] == l)
  {
    hide DeltaLeaf, IsPiece;
    if n > 0 {
      OthersInIs(others, ev, n - 1, l);
      var x, before := ev.leaves[n - 1], OthersIn(others, ev, n - 1);
      DeltaLeafIs(x);
      if !DeltaLeaf(x) && forall o <- before :: o.path != x.path {
        assert x in before + [x] && forall y <- before :: y in before + [x];
      } else if !DeltaLeaf(x) {
        assert HasPath(before, x.path);
      }
    }
  }

  // Of the other leaves of the delta events of a name, one is kept for each path: the first, and in their order.
  lemma {:induction false} OthersAre(evs: seq<Event>, name: string, l: Leaf)
    ensures HasPath(Others(evs, name), l.path) <==> exists i, k :: 0 <= i < |evs| && 0 <= k && OtherAt(evs[i], name, k, l.path)
    ensures l in Others(evs, name) ==> exists i, k :: 0 <= i < |evs| && 0 <= k && OtherAt(evs[i], name, k, l.path) && evs[i].leaves[k] == l
    ensures evs != [] ==> Others(evs[..|evs| - 1], name) <= Others(evs, name)
  {
    hide IsPiece, IsDelta;
    if evs != [] {
      var n := |evs| - 1;
      var ev, before := evs[n], evs[..n];
      OthersAre(before, name, l);
      assert forall i :: 0 <= i < n ==> before[i] == evs[i];
      if IsDelta(ev) && ev.name == name {
        OthersInIs(Others(before, name), ev, |ev.leaves|, l);
        forall k | 0 <= k < |ev.leaves| && !IsPiece(ev.leaves[k]) && ev.leaves[k].path == l.path ensures OtherAt(evs[n], name, k, l.path) {
        }
      }
    }
  }

  // One leaf stands for each path a name owns: a string, with the length and the hash of its whole text.
  lemma {:induction false} SummariesAre(evs: seq<Event>, owners: Owners, name: string, hash: string -> string, l: Leaf)
    ensures l in Summaries(evs, owners, name, hash) <==>
      exists o <- owners :: o.1 == name && l == Leaf(o.0, "string", |DeltaText(evs, o.0)|, hash(DeltaText(evs, o.0)), "", DeltaCount(evs, o.0))
  {
    if owners != [] {
      var before, o := owners[..|owners| - 1], owners[|owners| - 1];
      SummariesAre(evs, before, name, hash, l);
      assert owners == before + [o];
    }
  }

  // ---------------------------------------------------------------------------
  // All other events
  // ---------------------------------------------------------------------------

  function Plain(evs: seq<Event>): seq<Leaf> {
    if evs == [] then []
    else
      var ev := evs[|evs| - 1];
      Plain(evs[..|evs| - 1]) + if IsDelta(ev) then [] else ev.leaves
  }

  function PlainOf(records: seq<Rec>): seq<Leaf> {
    if records == [] then []
    else
      var r := records[|records| - 1];
      PlainOf(records[..|records| - 1]) + if r.delta then [] else r.leaves
  }

  predicate CutLeaf(l: Leaf) {
    l.typ == "cut" || (|l.path| >= 5 && l.path[|l.path| - 5..] == "{cut}")
  }

  lemma CutLeafIs(l: Leaf)
    ensures CutLeaf(l) <==> l.typ == "cut" || exists base: string :: l.path == base + "{cut}"
  {
    if |l.path| >= 5 && l.path[|l.path| - 5..] == "{cut}" {
      assert l.path == l.path[..|l.path| - 5] + "{cut}";
    }
    forall base: string | l.path == base + "{cut}" ensures l.path[|l.path| - 5..] == "{cut}" {
    }
  }

  predicate HasCut(leaves: seq<Leaf>) {
    exists l <- leaves :: CutLeaf(l)
  }

  predicate SeenDelta(evs: seq<Event>, name: string) {
    exists ev <- evs :: IsDelta(ev) && ev.name == name
  }

  // The record last begun: a plain event's, or the place for a name first met.
  function LastBegun(evs: seq<Event>): Option<Rec> {
    if evs == [] then None
    else
      var ev, before := evs[|evs| - 1], evs[..|evs| - 1];
      if !IsDelta(ev) then Some(Rec(ev.name, ev.leaves, false))
      else if SeenDelta(before, ev.name) then LastBegun(before)
      else Some(Rec(ev.name, [], true))
  }

  // A mark put on the record last begun does not come among the plain leaves: the
  // record is a place kept for delta events, or it has a cut of its own.
  predicate LastTakesNoMark(evs: seq<Event>) {
    var r := LastBegun(evs);
    r.None? || r.value.delta || HasCut(r.value.leaves)
  }

  // Event k is where the cap is passed.
  predicate PassesAt(evs: seq<Event>, k: nat) {
    k < |evs| && |Plain(evs[..k])| <= MAX_RECORD < |Plain(evs[..k + 1])|
  }

  // No mark comes among the plain leaves: the cap is reached exactly at the end of an
  // event, and the record before the next one takes none.
  predicate Unmarked(evs: seq<Event>) {
    exists k :: 0 <= k < |evs| && PassesAt(evs, k) && |Plain(evs[..k])| == MAX_RECORD && LastTakesNoMark(evs[..k])
  }

  // What the records show of the plain events.
  function Shown(evs: seq<Event>): seq<Leaf> {
    if |Plain(evs)| <= MAX_RECORD then Plain(evs)
    else Plain(evs)[..MAX_RECORD] + if Unmarked(evs) then [] else [RootCut]
  }

  lemma {:induction false} PlainGrows(evs: seq<Event>, a: nat, b: nat)
    requires a <= b <= |evs|
    ensures Plain(evs[..a]) <= Plain(evs[..b])
    decreases b
  {
    if a < b {
      assert evs[..b][..b - 1] == evs[..b - 1];
      PlainGrows(evs, a, b - 1);
    }
  }

  lemma PassesOnce(evs: seq<Event>, a: nat, b: nat)
    requires PassesAt(evs, a) && PassesAt(evs, b)
    ensures a == b
  {
    if a < b {
      PlainGrows(evs, a + 1, b);
    } else if b < a {
      PlainGrows(evs, b + 1, a);
    }
  }

  // What is shown once it is known where the cap is passed.
  lemma ShownWhen(evs: seq<Event>, k: nat)
    requires PassesAt(evs, k)
    ensures |Plain(evs)| > MAX_RECORD && |Plain(evs[..k + 1])| > MAX_RECORD
    ensures Plain(evs)[..MAX_RECORD] == Plain(evs[..k + 1])[..MAX_RECORD]
    ensures Unmarked(evs) <==> |Plain(evs[..k])| == MAX_RECORD && LastTakesNoMark(evs[..k])
  {
    PlainGrows(evs, k + 1, |evs|);
    assert evs[..|evs|] == evs;
    forall j: nat | PassesAt(evs, j) ensures j == k {
      PassesOnce(evs, j, k);
    }
  }

  // ---------------------------------------------------------------------------
  // The text of the delta events
  // ---------------------------------------------------------------------------

  function SoFar(texts: map<string, string>, path: string): string {
    if path in texts then texts[path] else ""
  }

  function Count(counts: map<string, nat>, path: string): nat {
    if path in counts then counts[path] else 0
  }

  function Listed(others: map<string, seq<Leaf>>, name: string): seq<Leaf> {
    if name in others then others[name] else []
  }

  lemma OwnedAfter(owners: Owners, o: (string, string), path: string)
    ensures Owned(owners + [o], path) <==> Owned(owners, path) || o.0 == path
  {
    if Owned(owners, path) {
      var x :| x in owners && x.0 == path;
      assert x in owners + [o];
    }
    if o.0 == path {
      assert o in owners + [o];
    }
  }

  // The first j leaves of an event are added to what is known of those before it.
  ghost predicate OwnersUpTo(texts: map<string, string>, owners: Owners, evs: seq<Event>, ev: Event, j: nat) {
    && j <= |ev.leaves| && owners == OwnersIn(FirstSeen(evs), ev, j)
    && forall p: string :: p in texts <==> Owned(owners, p)
  }

  ghost predicate TextsUpTo(texts: map<string, string>, evs: seq<Event>, ev: Event, j: nat) {
    j <= |ev.leaves| && forall p: string :: SoFar(texts, p) == DeltaText(evs, p) + TextIn(ev, j, p)
  }

  ghost predicate CountsUpTo(counts: map<string, nat>, evs: seq<Event>, ev: Event, j: nat) {
    j <= |ev.leaves| && forall p: string :: Count(counts, p) == DeltaCount(evs, p) + CountIn(ev, j, p)
  }

  lemma OwnersNext(texts: map<string, string>, owners: Owners, evs: seq<Event>, ev: Event, j: nat, text: string)
    requires OwnersUpTo(texts, owners, evs, ev, j) && j < |ev.leaves|
    ensures var l := ev.leaves[j];
      if DeltaLeaf(l)
      then OwnersUpTo(texts[l.path := text], if l.path in texts then owners else owners + [(l.path, ev.name)], evs, ev, j + 1)
      else OwnersUpTo(texts, owners, evs, ev, j + 1)
  {
    hide Owned, FirstSeen, DeltaLeaf;
    var l := ev.leaves[j];
    forall p: string ensures Owned(owners + [(l.path, ev.name)], p) <==> Owned(owners, p) || p == l.path {
      OwnedAfter(owners, (l.path, ev.name), p);
    }
  }

  lemma TextsNext(texts: map<string, string>, evs: seq<Event>, ev: Event, j: nat)
    requires TextsUpTo(texts, evs, ev, j) && j < |ev.leaves|
    ensures var l := ev.leaves[j];
      TextsUpTo(if DeltaLeaf(l) then texts[l.path := SoFar(texts, l.path) + TextAt(ev, l.path)] else texts, evs, ev, j + 1)
  {
    hide DeltaText, TextAt, DeltaLeaf;
    var l := ev.leaves[j];
    var next := if DeltaLeaf(l) then texts[l.path := SoFar(texts, l.path) + TextAt(ev, l.path)] else texts;
    forall p: string ensures SoFar(next, p) == DeltaText(evs, p) + TextIn(ev, j + 1, p) {
      assert SoFar(texts, p) == DeltaText(evs, p) + TextIn(ev, j, p);
      assert (DeltaText(evs, p) + TextIn(ev, j, p)) + TextAt(ev, p) == DeltaText(evs, p) + (TextIn(ev, j, p) + TextAt(ev, p));
    }
  }

  lemma CountsNext(counts: map<string, nat>, evs: seq<Event>, ev: Event, j: nat)
    requires CountsUpTo(counts, evs, ev, j) && j < |ev.leaves|
    ensures var l := ev.leaves[j];
      CountsUpTo(if DeltaLeaf(l) then counts[l.path := Count(counts, l.path) + 1] else counts, evs, ev, j + 1)
  {
    hide DeltaCount, DeltaLeaf;
  }

  // What is known of a stream's start.
  ghost predicate KnownOf(texts: map<string, string>, counts: map<string, nat>, owners: Owners, evs: seq<Event>) {
    && owners == FirstSeen(evs)
    && (forall p: string :: p in texts <==> Owned(owners, p))
    && (forall p: string :: SoFar(texts, p) == DeltaText(evs, p))
    && (forall p: string :: Count(counts, p) == DeltaCount(evs, p))
  }

  lemma KnownBegins(texts: map<string, string>, counts: map<string, nat>, owners: Owners, evs: seq<Event>, ev: Event)
    requires KnownOf(texts, counts, owners, evs)
    ensures OwnersUpTo(texts, owners, evs, ev, 0) && TextsUpTo(texts, evs, ev, 0) && CountsUpTo(counts, evs, ev, 0)
  {
    hide Owned, FirstSeen, SoFar, DeltaText, DeltaCount, Count;
    forall p: string ensures SoFar(texts, p) == DeltaText(evs, p) + TextIn(ev, 0, p) {
      assert DeltaText(evs, p) + "" == DeltaText(evs, p);
    }
  }

  lemma KnownGrows(texts: map<string, string>, counts: map<string, nat>, owners: Owners, evs: seq<Event>, ev: Event)
    requires IsDelta(ev) && OwnersUpTo(texts, owners, evs, ev, |ev.leaves|)
    requires TextsUpTo(texts, evs, ev, |ev.leaves|) && CountsUpTo(counts, evs, ev, |ev.leaves|)
    ensures KnownOf(texts, counts, owners, evs + [ev])
  {
    hide Owned, SoFar, Count, IsDelta, TextIn, CountIn, OwnersIn;
    assert (evs + [ev])[..|evs|] == evs;
  }

  // An event without delta leaves brings none.
  lemma KnownStays(texts: map<string, string>, counts: map<string, nat>, owners: Owners, evs: seq<Event>, ev: Event)
    requires !IsDelta(ev) && KnownOf(texts, counts, owners, evs)
    ensures KnownOf(texts, counts, owners, evs + [ev])
  {
    hide Owned, SoFar, Count, IsDelta, TextIn, CountIn, OwnersIn;
    assert (evs + [ev])[..|evs|] == evs;
    assert forall p: string :: DeltaText(evs, p) + "" == DeltaText(evs, p);
  }

  ghost predicate OthersOf(others: map<string, seq<Leaf>>, evs: seq<Event>) {
    forall name: string :: Listed(others, name) == Others(evs, name)
  }

  lemma OthersGrow(others: map<string, seq<Leaf>>, evs: seq<Event>, ev: Event)
    requires OthersOf(others, evs)
    ensures OthersOf(if IsDelta(ev) then others[ev.name := OthersIn(Others(evs, ev.name), ev, |ev.leaves|)] else others, evs + [ev])
  {
    hide IsDelta, OthersIn;
    assert (evs + [ev])[..|evs|] == evs;
    var now := if IsDelta(ev) then others[ev.name := OthersIn(Others(evs, ev.name), ev, |ev.leaves|)] else others;
    forall name: string ensures Listed(now, name) == Others(evs + [ev], name) {
    }
  }

  class Deltas {
    var texts: map<string, string>
    var counts: map<string, nat>
    var owners: Owners
    var others: map<string, seq<Leaf>>
    ghost var evs: seq<Event>

    ghost predicate Valid()
      reads this
    {
      KnownOf(texts, counts, owners, evs) && OthersOf(others, evs)
    }

    constructor ()
      ensures Valid() && evs == []
    {
      texts, counts, owners, others, evs := map[], map[], [], map[], [];
    }

    ghost method Pass(ev: Event)
      requires Valid() && !IsDelta(ev)
      modifies this`evs
      ensures Valid() && evs == old(evs) + [ev]
    {
      KnownStays(texts, counts, owners, evs, ev);
      OthersGrow(others, evs, ev);
      evs := evs + [ev];
    }

    // The two loops over the leaves of a delta event.
    method Add(ev: Event)
      requires Valid() && IsDelta(ev)
      modifies this
      ensures Valid() && evs == old(evs) + [ev]
    {
      hide KnownOf, OthersOf, OwnersUpTo, TextsUpTo, CountsUpTo, IsDelta;
      AddTexts(ev);
      OthersGrow(others, evs, ev);
      var mine := OthersWith(ev);
      others := others[ev.name := mine];
      KnownGrows(texts, counts, owners, evs, ev);
      evs := evs + [ev];
    }

    method AddTexts(ev: Event)
      requires KnownOf(texts, counts, owners, evs)
      modifies this`texts, this`counts, this`owners
      ensures OwnersUpTo(texts, owners, evs, ev, |ev.leaves|)
      ensures TextsUpTo(texts, evs, ev, |ev.leaves|) && CountsUpTo(counts, evs, ev, |ev.leaves|)
    {
      hide DeltaLeaf, OwnersUpTo, TextsUpTo, CountsUpTo;
      KnownBegins(texts, counts, owners, evs, ev);
      for j := 0 to |ev.leaves|
        invariant OwnersUpTo(texts, owners, evs, ev, j)
        invariant TextsUpTo(texts, evs, ev, j) && CountsUpTo(counts, evs, ev, j)
      {
        var l := ev.leaves[j];
        OwnersNext(texts, owners, evs, ev, j, SoFar(texts, l.path) + TextAt(ev, l.path));
        TextsNext(texts, evs, ev, j);
        CountsNext(counts, evs, ev, j);
        if DeltaLeaf(l) {
          if l.path !in texts {
            owners := owners + [(l.path, ev.name)];
          }
          texts := texts[l.path := SoFar(texts, l.path) + TextAt(ev, l.path)];
          counts := counts[l.path := Count(counts, l.path) + 1];
        }
      }
    }

    method OthersWith(ev: Event) returns (mine: seq<Leaf>)
      requires OthersOf(others, evs)
      ensures mine == OthersIn(Others(evs, ev.name), ev, |ev.leaves|)
    {
      mine := Listed(others, ev.name);
      for j := 0 to |ev.leaves|
        invariant mine == OthersIn(Others(evs, ev.name), ev, j)
      {
        var l := ev.leaves[j];
        if !DeltaLeaf(l) && forall o <- mine :: o.path != l.path {
          mine := mine + [l];
        }
      }
    }

    // The leaves of all delta events of a name that owns a path.
    method Combined(name: string, hash: string -> string) returns (leaves: seq<Leaf>)
      requires Valid()
      ensures leaves == Others(evs, name) + Summaries(evs, FirstSeen(evs), name, hash)
    {
      hide Others, FirstSeen, DeltaText, DeltaCount, Owned;
      leaves := Listed(others, name);
      for i := 0 to |owners|
        invariant leaves == Others(evs, name) + Summaries(evs, owners[..i], name, hash)
      {
        assert owners[..i + 1][..i] == owners[..i];
        var o := owners[i];
        if o.1 == name {
          leaves := leaves + [Leaf(o.0, "string", |SoFar(texts, o.0)|, hash(SoFar(texts, o.0)), "", Count(counts, o.0))];
        }
      }
      assert owners[..|owners|] == owners;
    }
  }

  // ---------------------------------------------------------------------------
  // The records
  // ---------------------------------------------------------------------------

  // One place for all delta events of a name.
  ghost predicate PlacesOf(records: seq<Rec>, index: map<string, nat>, evs: seq<Event>) {
    && (forall name: string :: name in index <==> SeenDelta(evs, name))
    && (forall name <- index :: index[name] < |records| && records[index[name]].delta && records[index[name]].event == name)
    && (forall i :: 0 <= i < |records| && records[i].delta ==>
          records[i].event in index && index[records[i].event] == i && records[i].leaves == [])
  }

  predicate LastBlocked(records: seq<Rec>) {
    records == [] || records[|records| - 1].delta || HasCut(records[|records| - 1].leaves)
  }

  // Nothing was dropped so far.
  predicate AllKept(records: seq<Rec>, total: nat, evs: seq<Event>) {
    && total == |Plain(evs)| <= MAX_RECORD && PlainOf(records) == Plain(evs)
    && (records == [] <==> LastBegun(evs).None?)
    && (records != [] ==> LastBegun(evs) == Some(records[|records| - 1]))
  }

  predicate SameKind(a: Rec, b: Rec) {
    a.event == b.event && a.delta == b.delta
  }

  // An event was cut in its middle, and is marked.
  ghost predicate CutInside(records: seq<Rec>, total: nat, evs: seq<Event>) {
    && total == MAX_RECORD + 1 && |Plain(evs)| > MAX_RECORD
    && PlainOf(records) == Plain(evs)[..MAX_RECORD] + [RootCut] && LastBlocked(records)
    && records != [] && LastBegun(evs).Some? && SameKind(LastBegun(evs).value, records[|records| - 1])
    && exists k :: 0 <= k < |evs| && PassesAt(evs, k) && |Plain(evs[..k])| < MAX_RECORD
  }

  lemma SeenGrows(evs: seq<Event>, ev: Event, name: string)
    ensures SeenDelta(evs + [ev], name) <==> SeenDelta(evs, name) || (IsDelta(ev) && ev.name == name)
  {
    hide IsDelta;
    if SeenDelta(evs, name) {
      var e :| e in evs && IsDelta(e) && e.name == name;
      assert e in evs + [ev];
    }
    if IsDelta(ev) && ev.name == name {
      assert ev in evs + [ev];
    }
  }

  lemma PlacesGrow(records: seq<Rec>, index: map<string, nat>, evs: seq<Event>, ev: Event, r: Rec)
    requires PlacesOf(records, index, evs)
    requires if IsDelta(ev) then r == Rec(ev.name, [], true) else !r.delta
    ensures if IsDelta(ev)
      then (if ev.name in index then PlacesOf(records, index, evs + [ev])
            else PlacesOf(records + [r], index[ev.name := |records|], evs + [ev]))
      else PlacesOf(records + [r], index, evs + [ev])
  {
    hide IsDelta, SeenDelta;
    forall name: string ensures SeenDelta(evs + [ev], name) <==> SeenDelta(evs, name) || (IsDelta(ev) && ev.name == name) {
      SeenGrows(evs, ev, name);
    }
  }

  lemma KeptGrows(records: seq<Rec>, index: map<string, nat>, total: nat, evs: seq<Event>, ev: Event, r: Rec)
    requires PlacesOf(records, index, evs) && AllKept(records, total, evs)
    requires if IsDelta(ev) then r == Rec(ev.name, [], true) else r == Rec(ev.name, ev.leaves, false) && total + |ev.leaves| <= MAX_RECORD
    ensures if IsDelta(ev)
      then (if ev.name in index then AllKept(records, total, evs + [ev]) else AllKept(records + [r], total, evs + [ev]))
      else AllKept(records + [r], total + |ev.leaves|, evs + [ev])
  {
    hide IsDelta, SeenDelta, HasCut;
    assert (evs + [ev])[..|evs|] == evs && (records + [r])[..|records|] == records;
    assert Plain(evs) + [] == Plain(evs);
  }

  lemma CutGrows(records: seq<Rec>, total: nat, evs: seq<Event>, ev: Event)
    requires CutInside(records, total, evs) && IsDelta(ev)
    ensures CutInside(if SeenDelta(evs, ev.name) then records else records + [Rec(ev.name, [], true)], total, evs + [ev])
  {
    hide IsDelta;
    assert (evs + [ev])[..|evs|] == evs;
    assert (records + [Rec(ev.name, [], true)])[..|records|] == records;
    assert Plain(evs) + [] == Plain(evs) && PlainOf(records) + [] == PlainOf(records);
    var k :| 0 <= k < |evs| && PassesAt(evs, k) && |Plain(evs[..k])| < MAX_RECORD;
    assert (evs + [ev])[..k] == evs[..k] && (evs + [ev])[..k + 1] == evs[..k + 1];
    assert PassesAt(evs + [ev], k);
  }

  lemma CutBegins(records: seq<Rec>, total: nat, evs: seq<Event>, ev: Event)
    requires AllKept(records, total, evs) && !IsDelta(ev) && total < MAX_RECORD < total + |ev.leaves|
    ensures CutInside(records + [Rec(ev.name, ev.leaves[..MAX_RECORD - total] + [RootCut], false)], MAX_RECORD + 1, evs + [ev])
  {
    var r := Rec(ev.name, ev.leaves[..MAX_RECORD - total] + [RootCut], false);
    assert HasCut(r.leaves) by { assert RootCut in r.leaves && CutLeaf(RootCut); }
    hide IsDelta, HasCut, SeenDelta;
    assert (evs + [ev])[..|evs|] == evs && (evs + [ev])[..|evs| + 1] == evs + [ev];
    assert LastBegun(evs + [ev]) == Some(Rec(ev.name, ev.leaves, false));
    hide LastBegun;
    assert (records + [r])[..|records|] == records;
    assert PassesAt(evs + [ev], |evs|);
    assert (Plain(evs) + ev.leaves)[..MAX_RECORD] == Plain(evs) + ev.leaves[..MAX_RECORD - total];
  }

  // The mark on the last record, if it takes one.
  function MarkLast(records: seq<Rec>): seq<Rec> {
    if records == [] || HasCut(records[|records| - 1].leaves) then records
    else
      var r := records[|records| - 1];
      records[..|records| - 1] + [r.(leaves := r.leaves + [RootCut])]
  }

  // Stopping at an event that finds the record full.
  lemma StopShows(records: seq<Rec>, total: nat, evs: seq<Event>, i: nat)
    requires i < |evs| && !IsDelta(evs[i]) && total + |evs[i].leaves| > MAX_RECORD && total >= MAX_RECORD
    requires AllKept(records, total, evs[..i]) || CutInside(records, total, evs[..i])
    ensures PlainOf(MarkLast(records)) == Shown(evs) && |Plain(evs[..i + 1])| > MAX_RECORD
  {
    hide IsDelta, HasCut;
    assert evs[..i + 1][..i] == evs[..i];
    if AllKept(records, total, evs[..i]) {
      assert PassesAt(evs, i);
      ShownWhen(evs, i);
      assert Plain(evs[..i + 1])[..MAX_RECORD] == Plain(evs[..i]);
      assert Plain(evs[..i]) + [] == Plain(evs[..i]);
    } else {
      EndShows(records, total, evs, i);
      assert PlainOf(records) + [] == PlainOf(records);
    }
  }

  // The event that was cut in its middle is the one that passes the cap.
  lemma CutInsideAt(records: seq<Rec>, total: nat, evs: seq<Event>, i: nat) returns (j: nat)
    requires i <= |evs| && CutInside(records, total, evs[..i])
    ensures j < i && PassesAt(evs, j) && |Plain(evs[..j])| < MAX_RECORD
    ensures forall k: nat :: PassesAt(evs, k) ==> k == j
  {
    hide HasCut, LastBegun;
    j :| 0 <= j < i && PassesAt(evs[..i], j) && |Plain(evs[..i][..j])| < MAX_RECORD;
    assert evs[..i][..j] == evs[..j] && evs[..i][..j + 1] == evs[..j + 1];
    forall k: nat | PassesAt(evs, k) ensures k == j {
      PassesOnce(evs, k, j);
    }
  }

  lemma EndShows(records: seq<Rec>, total: nat, evs: seq<Event>, i: nat)
    requires i <= |evs| && CutInside(records, total, evs[..i])
    ensures PlainOf(records) == Shown(evs)
  {
    var j := CutInsideAt(records, total, evs, i);
    ShownWhen(evs, j);
    PlainGrows(evs, j + 1, i);
    hide Plain, PlainOf, LastBegun, PassesAt, Unmarked;
  }

  lemma {:induction false} PlainOfSame(a: seq<Rec>, b: seq<Rec>)
    requires |a| == |b|
    requires forall i :: 0 <= i < |a| ==> a[i].delta == b[i].delta && (!a[i].delta ==> a[i].leaves == b[i].leaves)
    ensures PlainOf(a) == PlainOf(b)
  {
    if a != [] {
      PlainOfSame(a[..|a| - 1], b[..|b| - 1]);
    }
  }

  // The place that is marked when reading stops at event read.
  function MarkedPlace(evs: seq<Event>, read: nat): Option<string>
    requires read <= |evs|
  {
    var last := LastBegun(evs[..read]);
    if read < |evs| && last.Some? && last.value.delta then Some(last.value.event) else None
  }

  // A place holds what the delta events of its name come to, if they own a path. If
  // they own none it stays as it was: empty, or marked.
  ghost predicate DeltaRecord(r: Rec, evs: seq<Event>, marked: Option<string>, hash: string -> string) {
    if Owns(FirstSeen(evs), r.event)
    then r.leaves == Others(evs, r.event) + Summaries(evs, FirstSeen(evs), r.event, hash)
    else r.leaves == if marked == Some(r.event) then [RootCut] else []
  }

  // Reading stops at event read: where the cap is passed if it is reached exactly there,
  // else at the next plain event that comes when it is passed, or at the end.
  predicate StopsAt(evs: seq<Event>, read: nat) {
    && read <= |evs| && (read < |evs| ==> |Plain(evs[..read + 1])| > MAX_RECORD)
    && forall k :: 0 <= k < |evs| && PassesAt(evs, k) && |Plain(evs[..k])| == MAX_RECORD ==> read == k
  }

  // What the reduction of a stream promises of its records.
  ghost predicate Reduced(records: seq<Rec>, evs: seq<Event>, read: nat, hash: string -> string) {
    && StopsAt(evs, read)
    && PlainOf(records) == Shown(evs)
    && (forall r <- records :: r.delta ==> DeltaRecord(r, evs[..read], MarkedPlace(evs, read), hash))
    && (forall name: string :: SeenDelta(evs[..read], name) ==> exists r <- records :: r.delta && r.event == name)
  }

  predicate CutShown(records: seq<Rec>) {
    exists r <- records :: RootCut in r.leaves
  }

  // A mark on the record last begun is not seen: it would be overwritten, or it is not
  // written because the record has a cut of its own.
  predicate LastHidesMark(evs: seq<Event>) {
    var r := LastBegun(evs);
    r.Some? && if r.value.delta then Owns(FirstSeen(evs), r.value.event) else HasCut(r.value.leaves)
  }

  // The stream was cut at event k, and no record says so: the cap is reached exactly
  // at the end of an event, the mark is not seen, and no event shown was cut at its own root.
  predicate SilentAt(evs: seq<Event>, k: nat)
    requires k <= |evs|
  {
    var read := evs[..k];
    && |Plain(read)| == MAX_RECORD && RootCut !in Plain(read) && LastHidesMark(read)
    && forall o <- FirstSeen(read) :: RootCut !in Others(read, o.1)
  }

  predicate Silent(evs: seq<Event>) {
    exists k :: 0 <= k < |evs| && PassesAt(evs, k) && SilentAt(evs, k)
  }

  // Main result: the plain leaves up to the cap, one leaf for each text that came in
  // pieces, and a cut at the root in some record of a stream that lost leaves, unless
  // the stream is a silent one.
  method ReduceStream(evs: seq<Event>, hash: string -> string) returns (records: seq<Rec>, ghost read: nat)
    ensures Reduced(records, evs, read, hash)
    ensures |Plain(evs)| > MAX_RECORD ==> (CutShown(records) <==> !Silent(evs))
  {
    hide Silent, CutShown;
    var deltas := new Deltas();
    records, read := FoldRecords(evs, deltas);
    records := Combine(records, deltas, MarkedPlace(evs, read), hash);
    if |Plain(evs)| > MAX_RECORD {
      CutShownExactlyWhen(records, evs, read, hash);
    }
  }

  // The cap of a stream that lost leaves is passed somewhere.
  lemma {:induction false} PassesSomewhere(evs: seq<Event>, n: nat) returns (k: nat)
    requires n <= |evs| && |Plain(evs[..n])| > MAX_RECORD
    ensures PassesAt(evs, k)
  {
    if |Plain(evs[..n - 1])| <= MAX_RECORD {
      k := n - 1;
    } else {
      k := PassesSomewhere(evs, n - 1);
    }
  }

  lemma {:induction false} PlainIn(records: seq<Rec>, l: Leaf)
    ensures l in PlainOf(records) <==> exists r <- records :: !r.delta && l in r.leaves
  {
    if records != [] {
      var rest, last := records[..|records| - 1], records[|records| - 1];
      PlainIn(rest, l);
      assert records == rest + [last];
    }
  }

  lemma {:induction false} OthersSeen(evs: seq<Event>, name: string)
    ensures Others(evs, name) != [] ==> SeenDelta(evs, name)
  {
    hide OthersIn, IsDelta;
    if evs != [] {
      OthersSeen(evs[..|evs| - 1], name);
      SeenGrows(evs[..|evs| - 1], evs[|evs| - 1], name);
      assert evs == evs[..|evs| - 1] + [evs[|evs| - 1]];
    }
  }

  lemma {:induction false} LastPlaceSeen(evs: seq<Event>)
    ensures LastBegun(evs).Some? && LastBegun(evs).value.delta ==> SeenDelta(evs, LastBegun(evs).value.event)
  {
    hide IsDelta;
    if evs != [] {
      var before, ev := evs[..|evs| - 1], evs[|evs| - 1];
      LastPlaceSeen(before);
      assert evs == before + [ev];
      if LastBegun(evs).Some? {
        SeenGrows(before, ev, LastBegun(evs).value.event);
      }
    }
  }

  lemma {:induction false} SummariesUncut(evs: seq<Event>, owners: Owners, name: string, hash: string -> string)
    ensures RootCut !in Summaries(evs, owners, name, hash)
  {
    if owners != [] {
      SummariesUncut(evs, owners[..|owners| - 1], name, hash);
    }
  }

  // When some record of a stream that lost leaves shows a cut at its root.
  lemma CutShownExactlyWhen(records: seq<Rec>, evs: seq<Event>, read: nat, hash: string -> string)
    requires Reduced(records, evs, read, hash) && |Plain(evs)| > MAX_RECORD
    ensures CutShown(records) <==> !Silent(evs)
  {
    assert evs[..|evs|] == evs;
    var k := PassesSomewhere(evs, |evs|);
    ShownWhen(evs, k);
    SilentOnce(evs, k);
    PlainIn(records, RootCut);
    if |Plain(evs[..k])| < MAX_RECORD {
      assert RootCut in Shown(evs);
    } else {
      assert read == k;
      PlainGrows(evs, k, k + 1);
      assert Plain(evs)[..MAX_RECORD] == Plain(evs[..k]);
      ExactCut(records, evs, k, hash);
    }
  }

  lemma SilentOnce(evs: seq<Event>, k: nat)
    requires PassesAt(evs, k)
    ensures Silent(evs) <==> SilentAt(evs, k)
  {
    hide SilentAt;
    forall j: nat | PassesAt(evs, j) ensures j == k {
      PassesOnce(evs, j, k);
    }
  }

  // The cap is reached exactly at the end of event k.
  lemma ExactCut(records: seq<Rec>, evs: seq<Event>, k: nat, hash: string -> string)
    requires Reduced(records, evs, k, hash) && k < |evs| && |Plain(evs[..k])| == MAX_RECORD
    requires Shown(evs) == Plain(evs[..k]) + if LastTakesNoMark(evs[..k]) then [] else [RootCut]
    ensures CutShown(records) <==> !SilentAt(evs, k)
  {
    PlainIn(records, RootCut);
    var read := evs[..k];
    if SilentAt(evs, k) {
      forall r | r in records ensures RootCut !in r.leaves {
        if r.delta {
          PlaceUncut(r, evs, k, hash);
        }
      }
    } else if RootCut !in Plain(read) && LastTakesNoMark(read) {
      LastPlaceSeen(read);
      if o :| o in FirstSeen(read) && RootCut in Others(read, o.1) {
        OthersSeen(read, o.1);
        var r :| r in records && r.delta && r.event == o.1;
        assert Owns(FirstSeen(read), o.1);
      } else if LastBegun(read).Some? {
        var r :| r in records && r.delta && r.event == LastBegun(read).value.event;
        assert r.leaves == [RootCut];
      } else {
        NothingBegun(read);
      }
    }
  }

  lemma PlaceUncut(r: Rec, evs: seq<Event>, k: nat, hash: string -> string)
    requires k < |evs| && SilentAt(evs, k) && DeltaRecord(r, evs[..k], MarkedPlace(evs, k), hash)
    ensures RootCut !in r.leaves
  {
    var read := evs[..k];
    if Owns(FirstSeen(read), r.event) {
      var o :| o in FirstSeen(read) && o.1 == r.event;
      SummariesUncut(read, FirstSeen(read), r.event, hash);
    }
  }

  lemma {:induction false} NothingBegun(evs: seq<Event>)
    ensures LastBegun(evs).None? ==> Plain(evs) == []
  {
    if evs != [] {
      var before, ev := evs[..|evs| - 1], evs[|evs| - 1];
      NothingBegun(before);
      assert Plain(before) + [] == Plain(before);
    }
  }

  ghost predicate Placed(records: seq<Rec>, evs: seq<Event>, marked: Option<string>) {
    && (forall r <- records :: r.delta ==> r.leaves == if marked == Some(r.event) then [RootCut] else [])
    && (forall name: string :: SeenDelta(evs, name) ==> exists r <- records :: r.delta && r.event == name)
  }

  lemma PlacesArePlaced(records: seq<Rec>, index: map<string, nat>, evs: seq<Event>)
    requires PlacesOf(records, index, evs)
    ensures Placed(records, evs, None)
    ensures records != [] ==>
      var last := records[|records| - 1]; Placed(MarkLast(records), evs, if last.delta then Some(last.event) else None)
  {
    hide SeenDelta;
    forall name: string | SeenDelta(evs, name)
      ensures exists r <- records :: r.delta && r.event == name
      ensures exists r <- MarkLast(records) :: r.delta && r.event == name
    {
      assert records[index[name]] in records;
      assert MarkLast(records)[index[name]] in MarkLast(records);
    }
    if records != [] {
      var marked, last := MarkLast(records), records[|records| - 1];
      forall i | 0 <= i < |marked| && marked[i].delta
        ensures marked[i].leaves == if last.delta && marked[i].event == last.event then [RootCut] else []
      {
        assert records[i].delta && marked[i].event == records[i].event;
      }
    }
  }

  method FoldRecords(evs: seq<Event>, deltas: Deltas) returns (records: seq<Rec>, ghost read: nat)
    requires deltas.Valid() && deltas.evs == []
    modifies deltas
    ensures StopsAt(evs, read)
    ensures deltas.Valid() && deltas.evs == evs[..read]
    ensures PlainOf(records) == Shown(evs) && Placed(records, evs[..read], MarkedPlace(evs, read))
  {
    assert PlacesOf([], map[], []) && AllKept([], 0, []);
    hide IsDelta, PlacesOf, AllKept, CutInside, Placed, HasCut, PlainOf, StopsAt, MarkedPlace;
    records := [];
    var index: map<string, nat>, total: nat := map[], 0;
    for i := 0 to |evs|
      invariant deltas.Valid() && deltas.evs == evs[..i]
      invariant PlacesOf(records, index, evs[..i])
      invariant AllKept(records, total, evs[..i]) || CutInside(records, total, evs[..i])
    {
      var ev := evs[i];
      assert evs[..i + 1] == evs[..i] + [ev];
      if IsDelta(ev) {
        DeltaKeeps(records, index, total, evs[..i], ev);
        if ev.name !in index {
          index := index[ev.name := |records|];
          records := records + [Rec(ev.name, [], true)];
        }
        deltas.Add(ev);
        continue;
      }
      if total + |ev.leaves| > MAX_RECORD && total >= MAX_RECORD {
        StopShows(records, total, evs, i);
        StopPlaces(records, index, total, evs, i);
        return MarkLast(records), i;
      }
      PlainKeeps(records, index, total, evs[..i], ev);
      var leaves := ev.leaves;
      if total + |leaves| > MAX_RECORD {
        leaves := leaves[..MAX_RECORD - total] + [RootCut];
      }
      total := total + |leaves|;
      records := records + [Rec(ev.name, leaves, false)];
      deltas.Pass(ev);
    }
    read := |evs|;
    assert evs[..|evs|] == evs;
    EndPlaces(records, index, total, evs);
  }

  // What is left when the loop stops at event i, or comes to the end.
  lemma StopPlaces(records: seq<Rec>, index: map<string, nat>, total: nat, evs: seq<Event>, i: nat)
    requires i < |evs| && !IsDelta(evs[i]) && total + |evs[i].leaves| > MAX_RECORD && total >= MAX_RECORD
    requires PlacesOf(records, index, evs[..i])
    requires AllKept(records, total, evs[..i]) || CutInside(records, total, evs[..i])
    ensures Placed(MarkLast(records), evs[..i], MarkedPlace(evs, i)) && StopsAt(evs, i)
  {
    hide IsDelta, HasCut, Placed;
    assert evs[..i + 1][..i] == evs[..i];
    PlacesArePlaced(records, index, evs[..i]);
    if AllKept(records, total, evs[..i]) {
      assert records != [] && PassesAt(evs, i);
      forall k: nat | PassesAt(evs, k) ensures k == i {
        PassesOnce(evs, k, i);
      }
    } else {
      var j := CutInsideAt(records, total, evs, i);
    }
  }

  lemma EndPlaces(records: seq<Rec>, index: map<string, nat>, total: nat, evs: seq<Event>)
    requires PlacesOf(records, index, evs) && (AllKept(records, total, evs) || CutInside(records, total, evs))
    ensures Placed(records, evs, MarkedPlace(evs, |evs|)) && StopsAt(evs, |evs|) && PlainOf(records) == Shown(evs)
  {
    hide IsDelta, HasCut;
    assert evs[..|evs|] == evs;
    PlacesArePlaced(records, index, evs);
    if AllKept(records, total, evs) {
      forall k: nat | k < |evs| ensures !PassesAt(evs, k) {
        PlainGrows(evs, k + 1, |evs|);
      }
    } else {
      EndShows(records, total, evs, |evs|);
      var j := CutInsideAt(records, total, evs, |evs|);
    }
  }

  lemma DeltaKeeps(records: seq<Rec>, index: map<string, nat>, total: nat, evs: seq<Event>, ev: Event)
    requires PlacesOf(records, index, evs) && IsDelta(ev)
    requires AllKept(records, total, evs) || CutInside(records, total, evs)
    ensures var more := if ev.name in index then records else records + [Rec(ev.name, [], true)];
      && PlacesOf(more, if ev.name in index then index else index[ev.name := |records|], evs + [ev])
      && (AllKept(more, total, evs + [ev]) || CutInside(more, total, evs + [ev]))
  {
    assert ev.name in index <==> SeenDelta(evs, ev.name);
    hide PlacesOf, AllKept, CutInside, IsDelta, SeenDelta;
    var r := Rec(ev.name, [], true);
    PlacesGrow(records, index, evs, ev, r);
    if AllKept(records, total, evs) {
      KeptGrows(records, index, total, evs, ev, r);
    } else {
      CutGrows(records, total, evs, ev);
    }
  }

  lemma PlainKeeps(records: seq<Rec>, index: map<string, nat>, total: nat, evs: seq<Event>, ev: Event)
    requires PlacesOf(records, index, evs) && !IsDelta(ev)
    requires AllKept(records, total, evs) || CutInside(records, total, evs)
    requires total + |ev.leaves| <= MAX_RECORD || total < MAX_RECORD
    ensures var leaves := if total + |ev.leaves| <= MAX_RECORD then ev.leaves else ev.leaves[..MAX_RECORD - total] + [RootCut];
      var more := records + [Rec(ev.name, leaves, false)];
      && PlacesOf(more, index, evs + [ev])
      && (AllKept(more, total + |leaves|, evs + [ev]) || CutInside(more, total + |leaves|, evs + [ev]))
  {
    CutIsOver(records, total, evs);
    hide PlacesOf, AllKept, CutInside, IsDelta;
    var leaves := if total + |ev.leaves| <= MAX_RECORD then ev.leaves else ev.leaves[..MAX_RECORD - total] + [RootCut];
    var r := Rec(ev.name, leaves, false);
    PlacesGrow(records, index, evs, ev, r);
    if total + |ev.leaves| <= MAX_RECORD {
      KeptGrows(records, index, total, evs, ev, r);
    } else {
      CutBegins(records, total, evs, ev);
    }
  }

  lemma CutIsOver(records: seq<Rec>, total: nat, evs: seq<Event>)
    ensures CutInside(records, total, evs) ==> total > MAX_RECORD
  {
  }

  // At the end, the text of the delta events goes to the places kept for it.
  method Combine(records: seq<Rec>, deltas: Deltas, ghost marked: Option<string>, hash: string -> string)
    returns (out: seq<Rec>)
    requires deltas.Valid() && Placed(records, deltas.evs, marked)
    ensures PlainOf(out) == PlainOf(records)
    ensures forall r <- out :: r.delta ==> DeltaRecord(r, deltas.evs, marked, hash)
    ensures forall name: string :: SeenDelta(deltas.evs, name) ==> exists r <- out :: r.delta && r.event == name
  {
    hide SeenDelta, Owns, Others, Summaries, FirstSeen;
    out := records;
    for i := 0 to |records|
      invariant |out| == |records| && out[i..] == records[i..]
      invariant forall k :: 0 <= k < |out| ==> SamePlace(out[k], records[k])
      invariant forall k :: 0 <= k < i && out[k].delta ==> DeltaRecord(out[k], deltas.evs, marked, hash)
    {
      var r := records[i];
      if r.delta && Owns(deltas.owners, r.event) {
        var leaves := deltas.Combined(r.event, hash);
        out := out[i := r.(leaves := leaves)];
      }
      assert out[i + 1..] == records[i + 1..];
    }
    PlainOfSame(out, records);
    forall name: string | SeenDelta(deltas.evs, name) ensures exists r <- out :: r.delta && r.event == name {
      var r :| r in records && r.delta && r.event == name;
      var k :| 0 <= k < |records| && records[k] == r;
      assert SamePlace(out[k], r) && out[k] in out;
    }
  }

  predicate SamePlace(a: Rec, b: Rec) {
    SameKind(a, b) && (!a.delta ==> a.leaves == b.leaves)
  }

  // A silent stream: plain events that come to 5000 leaves exactly, the first delta event
  // of a name, which brings the first text of a path, and one plain leaf more.
  lemma DroppedButUnmarked(pre: seq<Event>, text: Event, more: Event)
    requires |Plain(pre)| == MAX_RECORD && RootCut !in Plain(pre)
    requires forall ev <- pre :: !IsDelta(ev)
    requires IsDelta(text) && RootCut !in text.leaves && !IsDelta(more) && more.leaves != []
    ensures var evs := pre + [text, more];
      |Plain(evs)| > MAX_RECORD && Silent(evs)
  {
    hide IsDelta;
    var evs, n := pre + [text, more], |pre|;
    var read := evs[..n + 1];
    assert read[..n] == pre && evs[..n + 2] == evs && evs[..n + 2][..n + 1] == read;
    assert Plain(read) == Plain(pre) + [] == Plain(pre) && Plain(evs) == Plain(read) + more.leaves;
    assert PassesAt(evs, n + 1);
    NoDeltaBefore(pre, text.name);
    assert LastBegun(read) == Some(Rec(text.name, [], true));
    FirstTextOwns(text);
    var o := OwnersIn([], text, |text.leaves|);
    assert FirstSeen(read) == o;
    forall name: string ensures RootCut !in Others(read, name) {
      OthersFrom(text, |text.leaves|);
    }
    assert SilentAt(evs, n + 1);
  }

  lemma {:induction false} NoDeltaBefore(pre: seq<Event>, name: string)
    requires forall ev <- pre :: !IsDelta(ev)
    ensures FirstSeen(pre) == [] && Others(pre, name) == [] && !SeenDelta(pre, name)
    ensures forall other: string :: Others(pre, other) == []
  {
    hide IsDelta;
    if pre != [] {
      NoDeltaBefore(pre[..|pre| - 1], name);
      assert pre[|pre| - 1] in pre;
    }
  }

  lemma {:induction false} OthersFrom(ev: Event, n: nat)
    requires n <= |ev.leaves| && RootCut !in ev.leaves
    ensures RootCut !in OthersIn([], ev, n)
  {
    if n > 0 {
      OthersFrom(ev, n - 1);
    }
  }

  // A delta event that comes first owns the paths of its text.
  lemma FirstTextOwns(ev: Event)
    requires IsDelta(ev)
    ensures Owns(OwnersIn([], ev, |ev.leaves|), ev.name)
  {
    var l :| l in ev.leaves && DeltaLeaf(l);
    var i :| 0 <= i < |ev.leaves| && ev.leaves[i] == l;
    SomeoneOwns(ev, i + 1, |ev.leaves|);
  }

  lemma {:induction false} SomeoneOwns(ev: Event, i: nat, n: nat)
    requires 0 < i <= n <= |ev.leaves| && DeltaLeaf(ev.leaves[i - 1])
    ensures OwnersIn([], ev, n) != [] && forall o <- OwnersIn([], ev, n) :: o.1 == ev.name
    ensures Owns(OwnersIn([], ev, n), ev.name)
    decreases n
  {
    hide DeltaLeaf;
    OwnNames(ev, n);
    if n > i {
      SomeoneOwns(ev, i, n - 1);
    }
    assert OwnersIn([], ev, n)[0] in OwnersIn([], ev, n);
  }

  lemma {:induction false} OwnNames(ev: Event, n: nat)
    requires n <= |ev.leaves|
    ensures forall o <- OwnersIn([], ev, n) :: o.1 == ev.name
  {
    if n > 0 {
      OwnNames(ev, n - 1);
    }
  }

  // Such a stream, each event within what one event may hold.
  lemma SilentStream() returns (evs: seq<Event>)
    ensures forall ev <- evs :: |ev.leaves| <= MAX_LEAVES
    ensures |Plain(evs)| > MAX_RECORD && Silent(evs)
  {
    var leaf := Bare("index", "number");
    var full := Event("message_start", seq(1250, _ => leaf), map[]);
    var text := Event("", [Leaf("text", "string", 2, "", "", 0)], map["text" := "hi"]);
    hide IsDelta, DeltaLeaf, Silent, SilentAt, Contains;
    TextIsDelta(text);
    evs := SilentAround(full, text);
  }

  lemma SilentAround(full: Event, text: Event) returns (evs: seq<Event>)
    requires |full.leaves| == 1250 && forall l <- full.leaves :: l.typ == "number"
    requires |text.leaves| == 1 && RootCut !in text.leaves && IsDelta(text)
    ensures evs == [full, full, full, full] + [text, full] && |Plain(evs)| > MAX_RECORD && Silent(evs)
  {
    hide IsDelta, DeltaLeaf, Silent, SilentAt, Contains;
    NumbersAreNoDelta(full);
    PlainFour(full);
    var pre := [full, full, full, full];
    assert forall ev <- pre :: ev == full;
    evs := pre + [text, full];
    DroppedButUnmarked(pre, text, full);
  }

  lemma TextIsDelta(ev: Event)
    requires ev.name == "" && ev.leaves == [Leaf("text", "string", 2, "", "", 0)]
    ensures IsDelta(ev)
  {
    var l := ev.leaves[0];
    assert Contains(l.path, "text");
    assert DeltaLeaf(l) && l in ev.leaves;
  }

  lemma NumbersAreNoDelta(ev: Event)
    requires forall l <- ev.leaves :: l.typ == "number"
    ensures !IsDelta(ev)
  {
    hide Contains;
  }

  lemma PlainFour(ev: Event)
    requires !IsDelta(ev)
    ensures Plain([ev, ev, ev, ev]) == ev.leaves + ev.leaves + ev.leaves + ev.leaves
  {
    hide IsDelta;
    assert [ev, ev, ev, ev][..3] == [ev, ev, ev] && [ev, ev, ev][..2] == [ev, ev] && [ev, ev][..1] == [ev] && [ev][..0] == [];
    assert Plain([ev]) == [] + ev.leaves == ev.leaves;
    assert Plain([ev, ev]) == ev.leaves + ev.leaves;
    assert Plain([ev, ev, ev]) == ev.leaves + ev.leaves + ev.leaves;
  }
}
