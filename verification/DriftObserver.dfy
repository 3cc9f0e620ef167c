/**
 The drift observer: it learns the field paths of each document kind, decides
 when a field was added, removed or came back, and writes what it learned to the
 database from time to time. A failed write is retried.
 */
module DriftObserver {
  import opened Options

  const LEARN: int := 3
  const GONE_AFTER: int := 20
  const GONE_MIN_SEEN: int := 20

  type Path = string

  // A set of JSON type names; "null" is the empty set.
  type Types = set<string>

  // A row of shape_fields.
  datatype Field = Field(typ: Types, seen: int, firstObs: int, lastObs: int, gone: bool, lastAt: string, legacy: bool)

  datatype Tracked = Tracked(field: Field, dirty: bool)

  // What is known of one key.
  datatype Shape = Shape(obs: int, fields: map<Path, Tracked>, dirty: bool)

  const Unseen := Shape(0, map[], false)

  datatype Change =
    | Added(path: Path, newType: Types)
    | Removed(path: Path, oldType: Types)
    | Returned(path: Path, newType: Types)
    | Retyped(path: Path, oldType: Types, newType: Types)

  // The paths of a document in the order they are visited; a map yields them in any order, once each.
  type Doc = seq<(Path, Types)>

  ghost predicate Distinct(doc: Doc) {
    forall i, j :: 0 <= i < j < |doc| ==> doc[i].0 != doc[j].0
  }

  ghost predicate InDoc(doc: Doc, p: Path) {
    exists i :: 0 <= i < |doc| && doc[i].0 == p
  }

  // ---------------------------------------------------------------------------
  // One observation
  // ---------------------------------------------------------------------------

  function Begun(k: Shape): Shape {
    k.(obs := k.obs + 1, dirty := true)
  }

  // The legacy entry a new path takes over, if any.
  function TakenOver(k: Shape, p: Path, legacyPath: Path -> Path): Option<Field> {
    var lp := legacyPath(p);
    if p !in k.fields && lp != p && lp in k.fields && k.fields[lp].field.legacy then Some(k.fields[lp].field) else None
  }

  function SeenField(k: Shape, p: Path, t: Types, now: string, legacyPath: Path -> Path): Field {
    if p in k.fields then
      var f := k.fields[p].field;
      f.(typ := f.typ + t, seen := f.seen + 1, lastObs := k.obs, lastAt := now, gone := false)
    else
      match TakenOver(k, p, legacyPath)
      case Some(lf) => Field(lf.typ + t, lf.seen + 1, lf.firstObs, k.obs, false, now, false)
      case None => Field(t, 1, k.obs, k.obs, false, now, false)
  }

  function FieldChanges(k: Shape, p: Path, t: Types, legacyPath: Path -> Path): seq<Change> {
    if p in k.fields then
      var f := k.fields[p].field;
      (if f.gone then [Returned(p, t)] else []) +
      (if t - f.typ != {} && f.typ != {} then [Retyped(p, f.typ, f.typ + t)] else [])
    else if TakenOver(k, p, legacyPath).Some? then []
    else [Added(p, t)]
  }

  function See(k: Shape, p: Path, t: Types, now: string, legacyPath: Path -> Path): Shape {
    k.(fields := k.fields[p := Tracked(SeenField(k, p, t, now, legacyPath), true)])
  }

  function SeeAll(k: Shape, doc: Doc, now: string, legacyPath: Path -> Path): Shape {
    if doc == [] then k
    else
      var n := |doc| - 1;
      See(SeeAll(k, doc[..n], now, legacyPath), doc[n].0, doc[n].1, now, legacyPath)
  }

  function DocChanges(k: Shape, doc: Doc, now: string, legacyPath: Path -> Path): seq<Change> {
    if doc == [] then []
    else
      var n := |doc| - 1;
      DocChanges(k, doc[..n], now, legacyPath) +
      FieldChanges(SeeAll(k, doc[..n], now, legacyPath), doc[n].0, doc[n].1, legacyPath)
  }

  // seen / span >= 0.9. The quotient of two counters below 10^15 rounds to 0.9 only when it is 0.9.
  predicate MostlySeen(seen: int, span: int) {
    span == 0 || (span > 0 && 10 * seen >= 9 * span)
  }

  predicate IsRemoved(obs: int, f: Field) {
    && !f.legacy && !f.gone
    && obs - f.lastObs >= GONE_AFTER
    && f.seen >= GONE_MIN_SEEN
    && MostlySeen(f.seen, f.lastObs - f.firstObs + 1)
  }

  function Swept(k: Shape): Shape {
    k.(fields := map p | p in k.fields ::
      if IsRemoved(k.obs, k.fields[p].field) then Tracked(k.fields[p].field.(gone := true), true) else k.fields[p])
  }

  function Observed(k: Shape, doc: Doc, now: string, legacyPath: Path -> Path): Shape {
    Swept(SeeAll(Begun(k), doc, now, legacyPath))
  }

  predicate Learning(k: Shape, quiet: bool) {
    quiet || Begun(k).obs <= LEARN
  }

  // The first three documents of a key, and those that only seed it, report nothing.
  lemma LearnsFirst(k: Shape, quiet: bool)
    ensures Learning(k, quiet) <==> quiet || k.obs < 3
  {
  }

  // ---------------------------------------------------------------------------
  // Only the topmost of nested changes are recorded
  // ---------------------------------------------------------------------------

  function LastDot(p: Path): int
    ensures -1 <= LastDot(p) < |p|
  {
    if p == "" then -1 else if p[|p| - 1] == '.' then |p| - 1 else LastDot(p[..|p| - 1])
  }

  function Parent(p: Path): (q: Path)
    ensures p != "" ==> |q| < |p|
  {
    if |p| >= 2 && p[|p| - 2..] == "[]" then p[..|p| - 2]
    else if LastDot(p) > 0 then p[..LastDot(p)]
    else ""
  }

  lemma {:induction false} LastDotIs(p: Path)
    ensures LastDot(p) == -1 <==> '.' !in p
    ensures LastDot(p) >= 0 ==> p[LastDot(p)] == '.' && '.' !in p[LastDot(p) + 1..]
  {
    if p != "" && p[|p| - 1] != '.' {
      LastDotIs(p[..|p| - 1]);
      assert p == p[..|p| - 1] + [p[|p| - 1]];
      if LastDot(p) >= 0 {
        assert p[LastDot(p) + 1..] == p[..|p| - 1][LastDot(p) + 1..] + [p[|p| - 1]];
      }
    }
  }

  lemma {:induction false} LastDotBefore(p: Path, seg: string)
    requires '.' !in seg
    ensures LastDot(p + "." + seg) == |p|
    decreases |seg|
  {
    if seg != "" {
      var q := p + "." + seg;
      assert seg == seg[..|seg| - 1] + [seg[|seg| - 1]];
      assert seg[|seg| - 1] in seg && q[|q| - 1] == seg[|seg| - 1];
      assert q[..|q| - 1] == p + "." + seg[..|seg| - 1];
      LastDotBefore(p, seg[..|seg| - 1]);
    }
  }

  // One level up: an item's list, or what stands before the last dot; a path of one segment has nothing above it.
  lemma ParentIs(q: Path, p: Path)
    requires q != ""
    ensures Parent(p) == q <==>
      if |p| >= 2 && p[|p| - 2..] == "[]" then p == q + "[]" else exists seg: string :: '.' !in seg && p == q + "." + seg
  {
    if |p| >= 2 && p[|p| - 2..] == "[]" {
      assert p == p[..|p| - 2] + "[]";
    } else {
      LastDotIs(p);
      hide LastDot;
      var d := LastDot(p);
      if d > 0 {
        assert p == p[..d] + "." + p[d + 1..];
      }
      forall seg: string | '.' !in seg && p == q + "." + seg ensures Parent(p) == q {
        LastDotBefore(q, seg);
      }
    }
  }

  // So many levels up.
  function Up(p: Path, n: nat): Path
    decreases n
  {
    if n == 0 then p else Up(Parent(p), n - 1)
  }

  predicate IsAncestor(a: Path, p: Path)
    decreases |p|
  {
    p != "" && Parent(p) != "" && (Parent(p) == a || IsAncestor(a, Parent(p)))
  }

  lemma {:induction false} UpFromRoot(n: nat)
    ensures Up("", n) == ""
  {
    assert Parent("") == "";
    if n > 0 {
      UpFromRoot(n - 1);
    }
  }

  lemma UpStep(p: Path, n: nat)
    ensures Up(p, n + 1) == Up(Parent(p), n)
  {
  }

  lemma {:induction false} AncestorIsUp(a: Path, p: Path) returns (n: nat)
    requires IsAncestor(a, p)
    ensures a != "" && n > 0 && Up(p, n) == a
    decreases |p|
  {
    if Parent(p) == a {
      n := 1;
      UpStep(p, 0);
    } else {
      n := AncestorIsUp(a, Parent(p));
      UpStep(p, n);
      n := n + 1;
    }
  }

  lemma {:induction false} UpIsAncestor(a: Path, p: Path, n: nat)
    requires a != "" && n > 0 && Up(p, n) == a
    ensures IsAncestor(a, p)
    decreases n
  {
    UpStep(p, n - 1);
    if p == "" || Parent(p) == "" {
      assert Parent("") == "";
      UpFromRoot(n - 1);
    } else if n > 1 {
      UpIsAncestor(a, Parent(p), n - 1);
    }
  }

  // The ancestors are the paths some levels up.
  lemma AncestorIs(a: Path, p: Path)
    ensures IsAncestor(a, p) <==> a != "" && exists n: nat :: n > 0 && Up(p, n) == a
  {
    if IsAncestor(a, p) {
      var n := AncestorIsUp(a, p);
    }
    if n: nat :| a != "" && n > 0 && Up(p, n) == a {
      UpIsAncestor(a, p, n);
    }
  }

  ghost predicate Whole(cs: seq<Change>, c: Change, a: Path) {
    exists i :: 0 <= i < |cs| && cs[i].path == a && ((c.Added? && cs[i].Added?) || (c.Removed? && cs[i].Removed?))
  }

  ghost predicate Covered(cs: seq<Change>, c: Change) {
    exists a :: IsAncestor(a, c.path) && Whole(cs, c, a)
  }

  ghost function Uncovered(all: seq<Change>, cs: seq<Change>): seq<Change> {
    if cs == [] then []
    else
      var n := |cs| - 1;
      Uncovered(all, cs[..n]) + (if Covered(all, cs[n]) then [] else [cs[n]])
  }

  // They are the changes that are not covered, each as often and in the order it stood.
  lemma {:induction false} UncoveredIs(all: seq<Change>, cs: seq<Change>, more: seq<Change>, c: Change)
    ensures Uncovered(all, cs + more) == Uncovered(all, cs) + Uncovered(all, more)
    ensures Uncovered(all, []) == [] && Uncovered(all, [c]) == if Covered(all, c) then [] else [c]
    decreases |more|
  {
    hide Covered;
    assert [c][..0] == [];
    if more == [] {
      assert cs + more == cs;
    } else {
      var n := |more| - 1;
      assert (cs + more)[..|cs + more| - 1] == cs + more[..n];
      UncoveredIs(all, cs, more[..n], c);
    }
  }

  // The changes that no ancestor changed the same way covers, in their order.
  method Topmost(cs: seq<Change>) returns (kept: seq<Change>)
    ensures kept == Uncovered(cs, cs)
  {
    var added, removed: set<Path> := {}, {};
    for i := 0 to |cs|
      invariant forall a :: a in added <==> exists k :: 0 <= k < i && cs[k].path == a && cs[k].Added?
      invariant forall a :: a in removed <==> exists k :: 0 <= k < i && cs[k].path == a && cs[k].Removed?
    {
      if cs[i].Added? {
        added := added + {cs[i].path};
      } else if cs[i].Removed? {
        removed := removed + {cs[i].path};
      }
    }
    kept := [];
    for i := 0 to |cs|
      invariant kept == Uncovered(cs, cs[..i])
    {
      var c := cs[i];
      var whole := if c.Added? then added else if c.Removed? then removed else {};
      assert forall a :: a in whole <==> Whole(cs, c, a);
      var skip := IsCovered(cs, c, whole);
      assert cs[..i + 1][..i] == cs[..i];
      if !skip {
        kept := kept + [c];
      }
    }
    assert cs[..|cs|] == cs;
  }

  method IsCovered(cs: seq<Change>, c: Change, whole: set<Path>) returns (covered: bool)
    requires forall a :: a in whole <==> Whole(cs, c, a)
    ensures covered <==> Covered(cs, c)
  {
    var p := Parent(c.path);
    while p != ""
      invariant p != "" ==> c.path != "" && IsAncestor(p, c.path)
      invariant forall a :: IsAncestor(a, c.path) && a in whole ==> p != "" && (a == p || IsAncestor(a, p))
      decreases |p|
    {
      if p in whole {
        return true;
      }
      if Parent(p) != "" {
        AncestorsChain(Parent(p), p, c.path);
      }
      p := Parent(p);
    }
    return false;
  }

  lemma {:induction false} AncestorsChain(a: Path, p: Path, q: Path)
    requires IsAncestor(p, q) && a == Parent(p) && a != ""
    ensures IsAncestor(a, q)
    decreases |q|
  {
    if Parent(q) != p {
      AncestorsChain(a, p, Parent(q));
    } else {
      assert p != "";
      assert IsAncestor(a, p);
    }
  }

  // ---------------------------------------------------------------------------
  // The observer, whose records and counters change in place
  // ---------------------------------------------------------------------------

  function ShapeOf(keys: map<string, Shape>, name: string): Shape {
    if name in keys then keys[name] else Unseen
  }

  class Observer {
    var keys: map<string, Shape>

    constructor ()
      ensures keys == map[]
    {
      keys := map[];
    }

    // One document, before topmost. The removals come in the order the fields are visited in.
    method Observe(name: string, doc: Doc, now: string, quiet: bool, legacyPath: Path -> Path)
      returns (changes: seq<Change>, removals: seq<Change>)
      modifies this
      ensures var k := ShapeOf(old(keys), name);
        && keys == old(keys)[name := Observed(k, doc, now, legacyPath)]
        && (Learning(k, quiet) ==> changes == removals == [])
        && (!Learning(k, quiet) ==>
              && changes == DocChanges(Begun(k), doc, now, legacyPath)
              && forall c :: c in removals <==>
                   var m := SeeAll(Begun(k), doc, now, legacyPath);
                   c.Removed? && c.path in m.fields && IsRemoved(m.obs, m.fields[c.path].field) && c.oldType == m.fields[c.path].field.typ)
    {
      changes, removals := [], [];
      var k := if name in keys then keys[name] else Unseen;
      k := k.(obs := k.obs + 1, dirty := true);
      var learning := quiet || k.obs <= LEARN;
      ghost var k0 := k;
      for i := 0 to |doc|
        invariant keys == old(keys) && k == SeeAll(k0, doc[..i], now, legacyPath) && k.obs == k0.obs
        invariant changes == if learning then [] else DocChanges(k0, doc[..i], now, legacyPath)
      {
        var (p, t) := doc[i];
        assert doc[..i + 1][..i] == doc[..i];
        if !learning {
          changes := changes + FieldChanges(k, p, t, legacyPath);
        }
        k := SeeOne(k, p, t, now, legacyPath);
      }
      assert doc[..|doc|] == doc;
      k, removals := Sweep(k, learning);
      keys := keys[name := k];
    }

    // The first section of a flush: what is marked, key by key, and the marks cleared.
    method Collect() returns (counts: map<string, int>, rows: map<string, map<Path, Field>>)
      modifies this
      ensures keys == Cleaned(old(keys))
      ensures counts == DirtyCounts(old(keys))
      ensures rows == map n | n in old(keys) :: DirtyRows(old(keys)[n])
    {
      counts := CollectCounts(keys);
      keys, rows := CollectRows(keys);
    }

    static method CollectCounts(keys: map<string, Shape>) returns (counts: map<string, int>)
      ensures counts == DirtyCounts(keys)
    {
      counts := map[];
      var todo := keys.Keys;
      while todo != {}
        invariant todo <= keys.Keys
        invariant forall n :: n in counts <==> n in keys && n !in todo && keys[n].dirty
        invariant forall n :: n in counts ==> counts[n] == keys[n].obs
        decreases |todo|
      {
        var n :| n in todo;
        todo := todo - {n};
        if keys[n].dirty {
          counts := counts[n := keys[n].obs];
        }
      }
    }

    static method CollectRows(was: map<string, Shape>) returns (keys: map<string, Shape>, rows: map<string, map<Path, Field>>)
      ensures keys == Cleaned(was)
      ensures rows == map n | n in was :: DirtyRows(was[n])
    {
      hide CleanShape, DirtyRows;
      keys, rows := was, map[];
      var todo := was.Keys;
      while todo != {}
        invariant todo <= keys.Keys == was.Keys
        invariant forall n :: n in was ==> keys[n] == if n in todo then was[n] else CleanShape(was[n])
        invariant rows.Keys == was.Keys - todo
        invariant forall n :: n in rows ==> rows[n] == DirtyRows(was[n])
        decreases |todo|
      {
        var n :| n in todo;
        todo := todo - {n};
        var clean, marked := CollectShape(was[n]);
        rows := rows[n := marked];
        keys := keys[n := clean];
      }
    }

    static method CollectShape(k: Shape) returns (clean: Shape, marked: map<Path, Field>)
      ensures clean == CleanShape(k) && marked == DirtyRows(k)
    {
      var fields := k.fields;
      marked := map[];
      var todo := fields.Keys;
      while todo != {}
        invariant todo <= fields.Keys == k.fields.Keys
        invariant forall p :: p in fields ==> fields[p] == if p in todo then k.fields[p] else Tracked(k.fields[p].field, false)
        invariant forall p :: p in marked <==> p in k.fields && p !in todo && k.fields[p].dirty
        invariant forall p :: p in marked ==> marked[p] == k.fields[p].field
        decreases |todo|
      {
        var p :| p in todo;
        todo := todo - {p};
        if fields[p].dirty {
          marked := marked[p := fields[p].field];
          fields := fields[p := Tracked(fields[p].field, false)];
        }
      }
      clean := Shape(k.obs, fields, false);
    }

    // The last section of a flush whose write failed: the marks are put back.
    method Restore(counts: set<string>, fields: set<FieldKey>)
      modifies this
      ensures keys == Redirtied(old(keys), counts, fields)
    {
      var todo := keys.Keys;
      ghost var was := keys;
      while todo != {}
        invariant todo <= keys.Keys == was.Keys
        invariant forall n :: n in was ==> keys[n] == if n in todo then was[n] else Redirtied(was, counts, fields)[n]
        decreases |todo|
      {
        var n :| n in todo;
        todo := todo - {n};
        var k := keys[n];
        keys := keys[n := Shape(k.obs,
          map p | p in k.fields :: Tracked(k.fields[p].field, k.fields[p].dirty || (n, p) in fields),
          k.dirty || n in counts)];
      }
    }

    method SeeOne(k: Shape, p: Path, t: Types, now: string, legacyPath: Path -> Path) returns (r: Shape)
      ensures r == See(k, p, t, now, legacyPath)
    {
      if p !in k.fields {
        var lp := legacyPath(p);
        if lp != p && lp in k.fields && k.fields[lp].field.legacy {
          var lf := k.fields[lp].field;
          return k.(fields := k.fields[p := Tracked(Field(lf.typ + t, lf.seen + 1, lf.firstObs, k.obs, false, now, false), true)]);
        }
        return k.(fields := k.fields[p := Tracked(Field(t, 1, k.obs, k.obs, false, now, false), true)]);
      }
      var f := k.fields[p].field;
      if f.gone {
        f := f.(gone := false);
      }
      if !(t <= f.typ) {
        f := f.(typ := f.typ + t);
      }
      f := f.(seen := f.seen + 1, lastObs := k.obs, lastAt := now);
      assert f.typ == k.fields[p].field.typ + t;
      r := k.(fields := k.fields[p := Tracked(f, true)]);
    }

    method Sweep(k: Shape, learning: bool) returns (r: Shape, removals: seq<Change>)
      ensures r == Swept(k)
      ensures learning ==> removals == []
      ensures !learning ==> forall c :: c in removals <==>
        c.Removed? && c.path in k.fields && IsRemoved(k.obs, k.fields[c.path].field) && c.oldType == k.fields[c.path].field.typ
    {
      removals := [];
      var fields := k.fields;
      var todo := k.fields.Keys;
      while todo != {}
        invariant todo <= k.fields.Keys == fields.Keys
        invariant forall p :: p in todo ==> fields[p] == k.fields[p]
        invariant forall p :: p in k.fields && p !in todo ==> fields[p] == Swept(k).fields[p]
        invariant learning ==> removals == []
        invariant !learning ==> forall c :: c in removals <==>
          c.Removed? && c.path in k.fields && c.path !in todo && IsRemoved(k.obs, k.fields[c.path].field) && c.oldType == k.fields[c.path].field.typ
        decreases |todo|
      {
        var p :| p in todo;
        todo := todo - {p};
        var f := fields[p].field;
        if !(f.legacy || f.gone || k.obs - f.lastObs < GONE_AFTER || f.seen < GONE_MIN_SEEN) {
          var span := f.lastObs - f.firstObs + 1;
          if MostlySeen(f.seen, span) {
            fields := fields[p := Tracked(f.(gone := true), true)];
            if !learning {
              removals := removals + [Removed(p, f.typ)];
            }
          }
        }
      }
      r := k.(fields := fields);
    }
  }

  // ---------------------------------------------------------------------------
  // What one observation does to each path
  // ---------------------------------------------------------------------------

  lemma InDocSplit(doc: Doc, p: Path)
    requires doc != []
    ensures var n := |doc| - 1;
      && (InDoc(doc, p) <==> InDoc(doc[..n], p) || doc[n].0 == p)
      && (Distinct(doc) ==> !InDoc(doc[..n], doc[n].0) && Distinct(doc[..n]))
  {
    var n := |doc| - 1;
    assert forall i :: 0 <= i < n ==> doc[..n][i] == doc[i];
    if InDoc(doc, p) && doc[n].0 != p {
      var i :| 0 <= i < |doc| && doc[i].0 == p;
      assert doc[..n][i].0 == p;
    }
    if InDoc(doc[..n], p) {
      var i :| 0 <= i < n && doc[..n][i].0 == p;
      assert doc[i].0 == p;
    }
    assert doc[n].0 == p ==> InDoc(doc, p);
  }

  lemma {:induction false} SeeAllAt(k: Shape, doc: Doc, now: string, legacyPath: Path -> Path, p: Path)
    requires Distinct(doc)
    ensures var m := SeeAll(k, doc, now, legacyPath);
      && m.obs == k.obs && m.dirty == k.dirty
      && (p in k.fields || InDoc(doc, p) <==> p in m.fields)
      && (!InDoc(doc, p) && p in k.fields ==> m.fields[p] == k.fields[p])
      && (InDoc(doc, p) ==> m.fields[p].dirty && m.fields[p].field.lastObs == k.obs && !m.fields[p].field.gone)
      && (InDoc(doc, p) && p in k.fields ==>
            && m.fields[p].field.firstObs == k.fields[p].field.firstObs
            && m.fields[p].field.seen == k.fields[p].field.seen + 1
            && k.fields[p].field.typ <= m.fields[p].field.typ)
  {
    if doc != [] {
      var n := |doc| - 1;
      SeeAllAt(k, doc[..n], now, legacyPath, p);
      InDocSplit(doc, p);
    }
  }

  // The recorded types of a path only grow, its first observation stays, and no path is forgotten.
  lemma PathsOnlyGrow(k: Shape, doc: Doc, now: string, legacyPath: Path -> Path, p: Path)
    requires Distinct(doc) && p in k.fields
    ensures var m := Observed(k, doc, now, legacyPath);
      && p in m.fields
      && k.fields[p].field.typ <= m.fields[p].field.typ
      && m.fields[p].field.firstObs == k.fields[p].field.firstObs
      && (m.fields[p].dirty || m.fields[p] == k.fields[p])
  {
    SeeAllAt(Begun(k), doc, now, legacyPath, p);
  }

  // ---------------------------------------------------------------------------
  // What one document reports and leaves, path by path
  // ---------------------------------------------------------------------------

  // A new path takes over what was learned under its old name.
  predicate HasOldName(k: Shape, p: Path, legacyPath: Path -> Path) {
    legacyPath(p) != p && legacyPath(p) in k.fields && k.fields[legacyPath(p)].field.legacy
  }

  // A path not met before is added, unless it was known by an old name; one that was gone returns; one met
  // with a type not in its set, which was not only null, changed its type.
  predicate IsChange(k: Shape, p: Path, t: Types, legacyPath: Path -> Path, c: Change) {
    c.path == p &&
    match c
    case Added(_, now) => now == t && p !in k.fields && !HasOldName(k, p, legacyPath)
    case Returned(_, now) => now == t && p in k.fields && k.fields[p].field.gone
    case Retyped(_, was, now) => p in k.fields && was == k.fields[p].field.typ != {} && !(t <= was) && now == was + t
    case Removed(_, _) => false
  }

  lemma {:induction false} LegacyStays(k: Shape, doc: Doc, now: string, legacyPath: Path -> Path, p: Path)
    ensures var m := SeeAll(k, doc, now, legacyPath);
      p in m.fields && m.fields[p].field.legacy <==> p in k.fields && k.fields[p].field.legacy
  {
    if doc != [] {
      LegacyStays(k, doc[..|doc| - 1], now, legacyPath, p);
      LegacyStays(k, doc[..|doc| - 1], now, legacyPath, doc[|doc| - 1].0);
    }
  }

  // Main result: what one document reports is exactly this, path by path, in whatever order the paths are met.
  lemma {:induction false} ReportedExactlyWhen(k: Shape, doc: Doc, now: string, legacyPath: Path -> Path, c: Change)
    requires Distinct(doc)
    ensures c in DocChanges(k, doc, now, legacyPath) <==>
      exists i :: 0 <= i < |doc| && IsChange(k, doc[i].0, doc[i].1, legacyPath, c)
  {
    if doc != [] {
      var n := |doc| - 1;
      var m := SeeAll(k, doc[..n], now, legacyPath);
      var (p, t) := doc[n];
      ReportedExactlyWhen(k, doc[..n], now, legacyPath, c);
      assert forall i :: 0 <= i < n ==> doc[..n][i] == doc[i];
      InDocSplit(doc, p);
      SeeAllAt(k, doc[..n], now, legacyPath, p);
      LegacyStays(k, doc[..n], now, legacyPath, legacyPath(p));
      FieldReports(k, m, p, t, legacyPath, c);
      hide SeeAll, FieldChanges, IsChange;
      assert DocChanges(k, doc, now, legacyPath) == DocChanges(k, doc[..n], now, legacyPath) + FieldChanges(m, p, t, legacyPath);
      if IsChange(k, p, t, legacyPath, c) { assert IsChange(k, doc[n].0, doc[n].1, legacyPath, c); }
    }
  }

  lemma FieldReports(k: Shape, m: Shape, p: Path, t: Types, legacyPath: Path -> Path, c: Change)
    requires (p in m.fields <==> p in k.fields) && (p in k.fields ==> m.fields[p] == k.fields[p])
    requires var lp := legacyPath(p);
      lp in m.fields && m.fields[lp].field.legacy <==> lp in k.fields && k.fields[lp].field.legacy
    ensures c in FieldChanges(m, p, t, legacyPath) <==> IsChange(k, p, t, legacyPath, c)
  {
    if p in k.fields {
      var typ := k.fields[p].field.typ;
      forall x | x in t && x !in typ ensures t - typ != {} {
        assert x in t - typ;
      }
    }
  }

  // What the field of a path holds after the document: its types and those of its old name, one more sight, this
  // observation as the last; a path not in the document is gone only when it was seen at least GONE_MIN_SEEN
  // times, in nine of ten observations of its span, and not in the last GONE_AFTER.
  lemma FieldAfter(k: Shape, doc: Doc, now: string, legacyPath: Path -> Path, i: nat)
    requires Distinct(doc) && i < |doc|
    ensures var m := Observed(k, doc, now, legacyPath); var (p, t) := doc[i];
      p in m.fields && m.fields[p].dirty &&
      var f := m.fields[p].field;
      && t <= f.typ && f.lastObs == k.obs + 1 && f.lastAt == now && !f.gone
      && (p in k.fields ==>
            var was := k.fields[p].field;
            f.typ == was.typ + t && f.seen == was.seen + 1 && f.firstObs == was.firstObs && f.legacy == was.legacy)
      && (p !in k.fields && !HasOldName(k, p, legacyPath) ==>
            f.typ == t && f.seen == 1 && f.firstObs == k.obs + 1 && !f.legacy)
      && (p !in k.fields && HasOldName(k, p, legacyPath) ==>
            var met := SeeAll(Begun(k), doc[..i], now, legacyPath).fields;
            legacyPath(p) in met &&
            var was := met[legacyPath(p)].field;
            f.typ == was.typ + t && f.seen == was.seen + 1 && f.firstObs == was.firstObs && !f.legacy)
  {
    var b := Begun(k);
    var (p, t) := doc[i];
    var was := SeeAll(b, doc[..i], now, legacyPath);
    FieldSeen(b, doc, now, legacyPath, i);
    NotYetMet(doc, i);
    SeeAllAt(b, doc[..i], now, legacyPath, p);
    SeeAllAt(b, doc, now, legacyPath, p);
    LegacyStays(b, doc[..i], now, legacyPath, legacyPath(p));
    hide SeeAll, Distinct, InDoc;
    assert Swept(SeeAll(b, doc, now, legacyPath)).fields[p] == SeeAll(b, doc, now, legacyPath).fields[p];
  }

  lemma NotYetMet(doc: Doc, i: nat)
    requires Distinct(doc) && i < |doc|
    ensures Distinct(doc[..i]) && !InDoc(doc[..i], doc[i].0) && InDoc(doc, doc[i].0)
  {
  }

  lemma {:induction false} FieldSeen(k: Shape, doc: Doc, now: string, legacyPath: Path -> Path, i: nat)
    requires Distinct(doc) && i < |doc|
    ensures var m := SeeAll(k, doc, now, legacyPath); var (p, t) := doc[i];
      p in m.fields && m.fields[p] == Tracked(SeenField(SeeAll(k, doc[..i], now, legacyPath), p, t, now, legacyPath), true)
  {
    var n := |doc| - 1;
    if i < n {
      FieldSeen(k, doc[..n], now, legacyPath, i);
      assert doc[..n][..i] == doc[..i] && doc[..n][i] == doc[i];
    }
  }

  lemma GoneAfter(k: Shape, doc: Doc, now: string, legacyPath: Path -> Path, p: Path)
    requires Distinct(doc) && p in k.fields && !InDoc(doc, p)
    ensures var m := Observed(k, doc, now, legacyPath); var f := k.fields[p].field;
      && p in m.fields && m.fields[p].field == f.(gone := m.fields[p].field.gone)
      && var span := f.lastObs - f.firstObs + 1;
         m.fields[p].field.gone <==>
           f.gone || (!f.legacy && k.obs + 1 - f.lastObs >= 20 && f.seen >= 20 && (span == 0 || (span > 0 && f.seen * 10 >= span * 9)))
  {
    SeeAllAt(Begun(k), doc, now, legacyPath, p);
  }

  // ---------------------------------------------------------------------------
  // Removals and returns of a path alternate
  // ---------------------------------------------------------------------------

  datatype Observation = Observation(doc: Doc, now: string)

  ghost predicate AllDistinct(os: seq<Observation>) {
    forall i :: 0 <= i < |os| ==> Distinct(os[i].doc)
  }

  function RunKey(k: Shape, os: seq<Observation>, legacyPath: Path -> Path): Shape {
    if os == [] then k
    else
      var n := |os| - 1;
      Observed(RunKey(k, os[..n], legacyPath), os[n].doc, os[n].now, legacyPath)
  }

  // How often a path is reported returned among some changes.
  function Returns(cs: seq<Change>, p: Path): nat {
    if cs == [] then 0
    else Returns(cs[..|cs| - 1], p) + if cs[|cs| - 1].Returned? && cs[|cs| - 1].path == p then 1 else 0
  }

  // What one observation reports about a path: false for returned, true for removed.
  function Reports(k: Shape, o: Observation, legacyPath: Path -> Path, p: Path): seq<bool> {
    if Learning(k, false) then []
    else
      var m := SeeAll(Begun(k), o.doc, o.now, legacyPath);
      seq(Returns(DocChanges(Begun(k), o.doc, o.now, legacyPath), p), _ => false) +
      (if p in m.fields && IsRemoved(m.obs, m.fields[p].field) then [true] else [])
  }

  function ReportsOf(k: Shape, os: seq<Observation>, legacyPath: Path -> Path, p: Path): seq<bool> {
    if os == [] then []
    else
      var n := |os| - 1;
      ReportsOf(k, os[..n], legacyPath, p) + Reports(RunKey(k, os[..n], legacyPath), os[n], legacyPath, p)
  }

  lemma {:induction false} ReturnsAppend(a: seq<Change>, b: seq<Change>, p: Path)
    ensures Returns(a + b, p) == Returns(a, p) + Returns(b, p)
  {
    if b == [] {
      assert a + b == a;
    } else {
      var n := |b| - 1;
      assert (a + b)[..|a + b| - 1] == a + b[..n];
      ReturnsAppend(a, b[..n], p);
    }
  }

  lemma {:induction false} DocReturns(k: Shape, doc: Doc, now: string, legacyPath: Path -> Path, p: Path)
    requires Distinct(doc)
    ensures Returns(DocChanges(k, doc, now, legacyPath), p) ==
      if InDoc(doc, p) && p in k.fields && k.fields[p].field.gone then 1 else 0
  {
    if doc != [] {
      var n := |doc| - 1;
      var m := SeeAll(k, doc[..n], now, legacyPath);
      DocReturns(k, doc[..n], now, legacyPath, p);
      SeeAllAt(k, doc[..n], now, legacyPath, p);
      SeeAllAt(k, doc, now, legacyPath, p);
      var last := FieldChanges(m, doc[n].0, doc[n].1, legacyPath);
      ReturnsAppend(DocChanges(k, doc[..n], now, legacyPath), last, p);
      LastReturns(m, doc[n].0, doc[n].1, legacyPath, p);
      InDocSplit(doc, p);
    }
  }

  lemma LastReturns(m: Shape, q: Path, t: Types, legacyPath: Path -> Path, p: Path)
    ensures Returns(FieldChanges(m, q, t, legacyPath), p) == if p == q && q in m.fields && m.fields[q].field.gone then 1 else 0
  {
    if q in m.fields {
      var f := m.fields[q].field;
      var first := if f.gone then [Returned(q, t)] else [];
      var second := if t - f.typ != {} && f.typ != {} then [Retyped(q, f.typ, f.typ + t)] else [];
      ReturnsAppend(first, second, p);
      if second != [] { assert second[..0] == []; }
      if first != [] { assert first[..0] == []; }
    }
  }

  ghost predicate Ordered(k: Shape) {
    k.obs >= 0 && forall p :: p in k.fields ==> 1 <= k.fields[p].field.firstObs <= k.fields[p].field.lastObs <= k.obs
  }

  lemma {:induction false} SeeAllOrdered(k: Shape, doc: Doc, now: string, legacyPath: Path -> Path)
    requires Ordered(k) && k.obs >= 1
    ensures Ordered(SeeAll(k, doc, now, legacyPath)) && SeeAll(k, doc, now, legacyPath).obs == k.obs
  {
    if doc != [] { SeeAllOrdered(k, doc[..|doc| - 1], now, legacyPath); }
  }

  ghost predicate GoneLate(k: Shape, p: Path) {
    p in k.fields && k.fields[p].field.gone ==> k.obs > LEARN
  }

  predicate IsGone(k: Shape, p: Path) {
    p in k.fields && k.fields[p].field.gone
  }

  lemma OneReport(k: Shape, o: Observation, legacyPath: Path -> Path, p: Path)
    requires Distinct(o.doc) && Ordered(k) && GoneLate(k, p)
    ensures var m := Observed(k, o.doc, o.now, legacyPath);
      && GoneLate(m, p) && Ordered(m)
      && Reports(k, o, legacyPath, p) ==
           (if IsGone(k, p) && !IsGone(m, p) then [false] else if !IsGone(k, p) && IsGone(m, p) then [true] else [])
  {
    SeeAllOrdered(Begun(k), o.doc, o.now, legacyPath);
    SeeAllAt(Begun(k), o.doc, o.now, legacyPath, p);
    DocReturns(Begun(k), o.doc, o.now, legacyPath, p);
  }

  predicate Alternates(r: seq<bool>) {
    forall i :: 0 <= i < |r| ==> r[i] == (i % 2 == 0)
  }

  lemma OneMoreReport(r: seq<bool>, last: seq<bool>, before: bool, after: bool)
    requires Alternates(r) && (before <==> |r| % 2 == 1)
    requires last == if before && !after then [false] else if !before && after then [true] else []
    ensures Alternates(r + last) && (after <==> |r + last| % 2 == 1)
  {
    if last == [] { assert r + last == r; }
  }

  // Main result: what a key never seeded reports about a path is removed, returned, removed, and so on;
  // the path is gone exactly while the last report is a removal.
  lemma {:induction false} ReportsAlternate(os: seq<Observation>, legacyPath: Path -> Path, p: Path)
    requires AllDistinct(os)
    ensures var r, k := ReportsOf(Unseen, os, legacyPath, p), RunKey(Unseen, os, legacyPath);
      && Alternates(r)
      && (IsGone(k, p) <==> |r| % 2 == 1)
      && Ordered(k) && GoneLate(k, p)
  {
    if os != [] {
      var n := |os| - 1;
      assert AllDistinct(os[..n]);
      ReportsAlternate(os[..n], legacyPath, p);
      var k := RunKey(Unseen, os[..n], legacyPath);
      OneReport(k, os[n], legacyPath, p);
      hide Reports, Observed, Alternates;
      var r := ReportsOf(Unseen, os[..n], legacyPath, p);
      var last := Reports(k, os[n], legacyPath, p);
      assert ReportsOf(Unseen, os, legacyPath, p) == r + last;
      OneMoreReport(r, last, IsGone(k, p), IsGone(RunKey(Unseen, os, legacyPath), p));
    }
  }

  // ---------------------------------------------------------------------------
  // How often a path was seen
  // ---------------------------------------------------------------------------

  // The paths of a document that take over a legacy entry.
  ghost function Takeovers(k: Shape, doc: Doc, now: string, legacyPath: Path -> Path): set<Path> {
    if doc == [] then {}
    else
      var n := |doc| - 1;
      Takeovers(k, doc[..n], now, legacyPath) +
      (if TakenOver(SeeAll(k, doc[..n], now, legacyPath), doc[n].0, legacyPath).Some? then {doc[n].0} else {})
  }

  // A path is counted at most once per observation of its span, and once more if it took an entry over:
  // a takeover can count the observation it happens in a second time.
  ghost predicate Bounded(k: Shape, took: set<Path>) {
    && took <= k.fields.Keys
    && forall p :: p in k.fields ==>
         var f := k.fields[p].field;
         && f.firstObs <= f.lastObs <= k.obs
         && f.seen <= f.lastObs - f.firstObs + (if p in took then 2 else 1)
         && (f.legacy ==> p !in took)
  }

  lemma {:induction false} SeeAllBounded(k: Shape, doc: Doc, now: string, legacyPath: Path -> Path, took: set<Path>)
    requires Distinct(doc) && Bounded(k, took)
    requires forall p :: p in k.fields ==> k.fields[p].field.lastObs < k.obs
    ensures Bounded(SeeAll(k, doc, now, legacyPath), took + Takeovers(k, doc, now, legacyPath))
  {
    if doc != [] {
      var n := |doc| - 1;
      InDocSplit(doc, doc[n].0);
      SeeAllBounded(k, doc[..n], now, legacyPath, took);
      SeeAllAt(k, doc[..n], now, legacyPath, doc[n].0);
    }
  }

  lemma SeenIsBounded(k: Shape, o: Observation, legacyPath: Path -> Path, took: set<Path>)
    requires Distinct(o.doc) && Bounded(k, took)
    ensures Bounded(Observed(k, o.doc, o.now, legacyPath), took + Takeovers(Begun(k), o.doc, o.now, legacyPath))
  {
    SeeAllBounded(Begun(k), o.doc, o.now, legacyPath, took);
  }

  // The paths that take a legacy entry over in a run from k.
  ghost function TookOver(k: Shape, os: seq<Observation>, legacyPath: Path -> Path): set<Path> {
    if os == [] then {}
    else
      var n := |os| - 1;
      TookOver(k, os[..n], legacyPath)
      + Takeovers(Begun(RunKey(k, os[..n], legacyPath)), os[n].doc, os[n].now, legacyPath)
  }

  // Main result: the bound holds after every run of observations, from any shape that meets it.
  lemma {:induction false} EveryRunIsBounded(k: Shape, took: set<Path>, os: seq<Observation>, legacyPath: Path -> Path)
    requires AllDistinct(os) && Bounded(k, took)
    ensures Bounded(RunKey(k, os, legacyPath), took + TookOver(k, os, legacyPath))
  {
    if os == [] {
      assert took + {} == took;
    } else {
      var n := |os| - 1;
      assert AllDistinct(os[..n]);
      EveryRunIsBounded(k, took, os[..n], legacyPath);
      var before := took + TookOver(k, os[..n], legacyPath);
      SeenIsBounded(RunKey(k, os[..n], legacyPath), os[n], legacyPath, before);
      var more := Takeovers(Begun(RunKey(k, os[..n], legacyPath)), os[n].doc, os[n].now, legacyPath);
      assert before + more == took + TookOver(k, os, legacyPath);
    }
  }

  // The second extra count is real: a document that holds the old name and the new one, met in
  // this order, is counted twice for the new one.
  lemma TakeoverCountsTwice(k: Shape, p: Path, lp: Path, t: Types, now: string, legacyPath: Path -> Path)
    requires lp != p && legacyPath(p) == lp && p !in k.fields && lp in k.fields
    requires var f := k.fields[lp].field;
      f.legacy && f.lastObs == k.obs && f.firstObs <= f.lastObs && f.seen == f.lastObs - f.firstObs + 1
    ensures var m := Observed(k, [(lp, t), (p, t)], now, legacyPath);
      && Takeovers(Begun(k), [(lp, t), (p, t)], now, legacyPath) == {p}
      && p in m.fields && m.fields[p].field.seen == m.fields[p].field.lastObs - m.fields[p].field.firstObs + 2
  {
    var b := Begun(k);
    var one, both := [(lp, t)], [(lp, t), (p, t)];
    assert one[..|one| - 1] == [] && both[..|both| - 1] == one;
    assert SeeAll(b, [], now, legacyPath) == b;
    var k1 := SeeAll(b, one, now, legacyPath);
    assert k1 == See(b, lp, t, now, legacyPath);
    assert SeeAll(b, both, now, legacyPath) == See(k1, p, t, now, legacyPath);
    assert Takeovers(b, one, now, legacyPath) == {};
  }

  // ---------------------------------------------------------------------------
  // Memory and database
  // ---------------------------------------------------------------------------

  type FieldKey = (string, Path)

  datatype Db = Db(counts: map<string, int>, fields: map<FieldKey, Field>)

  // The upsert of a field keeps the first observation a row already has.
  function Upsert(db: Db, fk: FieldKey, f: Field): Field {
    if fk in db.fields then f.(firstObs := db.fields[fk].firstObs) else f
  }

  // SaveShapes: one transaction.
  function Saved(db: Db, counts: map<string, int>, fields: map<FieldKey, Field>): Db {
    Db(db.counts + counts, db.fields + map fk | fk in fields :: Upsert(db, fk, fields[fk]))
  }

  function FieldKeys(keys: map<string, Shape>): set<FieldKey> {
    set n, p | n in keys && p in keys[n].fields :: (n, p)
  }

  // newObserver: every field has a count, because both are written in one transaction.
  function Loaded(db: Db): map<string, Shape> {
    map n | n in db.counts.Keys + (set fk | fk in db.fields :: fk.0) ::
      Shape(if n in db.counts then db.counts[n] else 0,
            map p | p in (set fk | fk in db.fields && fk.0 == n :: fk.1) :: Tracked(db.fields[(n, p)], false),
            false)
  }

  function DirtyCounts(keys: map<string, Shape>): map<string, int> {
    map n | n in keys && keys[n].dirty :: keys[n].obs
  }

  function DirtyRows(k: Shape): map<Path, Field> {
    map p | p in k.fields && k.fields[p].dirty :: k.fields[p].field
  }

  function DirtyFields(keys: map<string, Shape>): map<FieldKey, Field> {
    map fk | fk in FieldKeys(keys) && keys[fk.0].fields[fk.1].dirty :: keys[fk.0].fields[fk.1].field
  }

  function CleanShape(k: Shape): Shape {
    Shape(k.obs, map p | p in k.fields :: Tracked(k.fields[p].field, false), false)
  }

  function Cleaned(keys: map<string, Shape>): map<string, Shape> {
    map n | n in keys :: CleanShape(keys[n])
  }

  // The marks a failed write puts back.
  function Redirtied(keys: map<string, Shape>, counts: set<string>, fields: set<FieldKey>): map<string, Shape> {
    map n | n in keys ::
      Shape(keys[n].obs,
            map p | p in keys[n].fields ::
              Tracked(keys[n].fields[p].field, keys[n].fields[p].dirty || (n, p) in fields),
            keys[n].dirty || n in counts)
  }

  datatype Phase =
    | Idle
    | Writing(counts: map<string, int>, fields: map<FieldKey, Field>)
    | Restoring(failedCounts: set<string>, failedFields: set<FieldKey>)

  datatype System = System(keys: map<string, Shape>, db: Db, phase: Phase)

  datatype Step =
    | Observe(name: string, doc: Doc, now: string, legacyPath: Path -> Path)
    | Collect
    | Write(ok: bool)
    | Restore

  // Flush in three sections; observations come between them. Flushes do not overlap.
  function Next(s: System, step: Step): System {
    match step
    case Observe(name, doc, now, legacyPath) =>
      s.(keys := s.keys[name := Observed(ShapeOf(s.keys, name), doc, now, legacyPath)])
    case Collect =>
      if !s.phase.Idle? then s
      else
        var counts, fields := DirtyCounts(s.keys), DirtyFields(s.keys);
        if counts == map[] && fields == map[] then s
        else System(Cleaned(s.keys), s.db, Writing(counts, fields))
    case Write(ok) =>
      if !s.phase.Writing? then s
      else if ok then s.(db := Saved(s.db, s.phase.counts, s.phase.fields), phase := Idle)
      else s.(phase := Restoring(s.phase.counts.Keys, s.phase.fields.Keys))
    case Restore =>
      if !s.phase.Restoring? then s
      else s.(keys := Redirtied(s.keys, s.phase.failedCounts, s.phase.failedFields), phase := Idle)
  }

  // A count is on file as it is, or marked, or in the batch being written as it is, or about to be marked.
  ghost predicate CountSafe(s: System, n: string)
    requires n in s.keys
  {
    || s.keys[n].dirty
    || (n in s.db.counts && s.db.counts[n] == s.keys[n].obs && !(s.phase.Writing? && n in s.phase.counts))
    || (s.phase.Writing? && n in s.phase.counts && s.phase.counts[n] == s.keys[n].obs)
    || (s.phase.Restoring? && n in s.phase.failedCounts)
  }

  ghost predicate FieldSafe(s: System, n: string, p: Path)
    requires n in s.keys && p in s.keys[n].fields
  {
    var m, fk := s.keys[n].fields[p], (n, p);
    || m.dirty
    || (fk in s.db.fields && s.db.fields[fk] == m.field && !(s.phase.Writing? && fk in s.phase.fields))
    || (s.phase.Writing? && fk in s.phase.fields && s.phase.fields[fk] == m.field)
    || (s.phase.Restoring? && fk in s.phase.failedFields)
  }

  // The database, and the batch, hold only paths the memory knows, with their first observation.
  ghost predicate Known(s: System) {
    && (forall n :: n in s.db.counts ==> n in s.keys)
    && (forall fk :: fk in s.db.fields ==> InMemory(s.keys, fk, s.db.fields[fk]))
    && (s.phase.Writing? ==> forall n :: n in s.phase.counts ==> n in s.keys)
    && (s.phase.Writing? ==> forall fk :: fk in s.phase.fields ==> InMemory(s.keys, fk, s.phase.fields[fk]))
  }

  predicate InMemory(keys: map<string, Shape>, fk: FieldKey, f: Field) {
    fk.0 in keys && fk.1 in keys[fk.0].fields && keys[fk.0].fields[fk.1].field.firstObs == f.firstObs
  }

  ghost predicate NothingLost(s: System) {
    && Known(s)
    && (forall n :: n in s.keys ==> CountSafe(s, n))
    && (forall n, p :: n in s.keys && p in s.keys[n].fields ==> FieldSafe(s, n, p))
  }

  predicate DistinctStep(step: Step) {
    step.Observe? ==> forall i, j :: 0 <= i < j < |step.doc| ==> step.doc[i].0 != step.doc[j].0
  }

  // A flush that fails, with nothing observed in between, leaves everything as it was, marks included.
  lemma FailedFlushChangesNothing(s: System)
    requires s.phase.Idle?
    ensures Next(Next(Next(s, Collect), Write(false)), Restore) == s
  {
    if DirtyCounts(s.keys) != map[] || DirtyFields(s.keys) != map[] {
      MarksComeBack(s.keys);
    }
  }

  lemma MarksComeBack(keys: map<string, Shape>)
    ensures Redirtied(Cleaned(keys), DirtyCounts(keys).Keys, DirtyFields(keys).Keys) == keys
  {
    var counts, fields := DirtyCounts(keys).Keys, DirtyFields(keys).Keys;
    forall n | n in keys
      ensures n in counts <==> keys[n].dirty
      ensures forall p :: p in keys[n].fields ==> ((n, p) in fields <==> keys[n].fields[p].dirty)
    {
      MarkedFields(keys, n);
    }
    hide DirtyCounts, DirtyFields;
    var back := Redirtied(Cleaned(keys), counts, fields);
    forall n | n in keys ensures back[n] == keys[n] {
      assert back[n].fields == keys[n].fields;
    }
  }

  lemma MarkedFields(keys: map<string, Shape>, n: string)
    requires n in keys
    ensures forall p :: p in keys[n].fields ==> ((n, p) in DirtyFields(keys) <==> keys[n].fields[p].dirty)
  {
  }

  // What an observation leaves of the other entries: it marks all it changes.
  lemma ObserveMarks(s: System, name: string, doc: Doc, now: string, legacyPath: Path -> Path)
    requires Distinct(doc)
    ensures var t := Next(s, Observe(name, doc, now, legacyPath));
      && (forall n :: n in s.keys ==> n in t.keys && (t.keys[n].dirty || t.keys[n] == s.keys[n]))
      && (forall n :: n in t.keys ==> n in s.keys || n == name)
      && (forall n, p :: n in s.keys && p in s.keys[n].fields ==>
            && n in t.keys && p in t.keys[n].fields
            && t.keys[n].fields[p].field.firstObs == s.keys[n].fields[p].field.firstObs
            && (t.keys[n].fields[p].dirty || t.keys[n].fields[p] == s.keys[n].fields[p]))
      && (forall n, p :: n in t.keys && p in t.keys[n].fields ==>
            t.keys[n].fields[p].dirty || (n in s.keys && p in s.keys[n].fields && t.keys[n].fields[p] == s.keys[n].fields[p]))
      && name in t.keys && t.keys[name].dirty
  {
    var k := ShapeOf(s.keys, name);
    var m := Observed(k, doc, now, legacyPath);
    forall p { SeeAllAt(Begun(k), doc, now, legacyPath, p); }
  }

  lemma ObserveLosesNothing(s: System, name: string, doc: Doc, now: string, legacyPath: Path -> Path)
    requires NothingLost(s) && Distinct(doc)
    ensures NothingLost(Next(s, Observe(name, doc, now, legacyPath)))
  {
    var t := Next(s, Observe(name, doc, now, legacyPath));
    ObserveMarks(s, name, doc, now, legacyPath);
    assert t.db == s.db && t.phase == s.phase;
    hide Observed;
    assert Known(t);
    forall n | n in t.keys ensures CountSafe(t, n) {
      if n in s.keys { assert CountSafe(s, n); }
    }
    forall n, p | n in t.keys && p in t.keys[n].fields ensures FieldSafe(t, n, p) {
      if n in s.keys && p in s.keys[n].fields { assert FieldSafe(s, n, p); }
    }
  }

  lemma CollectLosesNothing(s: System)
    requires NothingLost(s)
    ensures NothingLost(Next(s, Collect))
  {
    var t := Next(s, Collect);
    if t != s {
      forall n | n in t.keys ensures CountSafe(t, n) {
        assert CountSafe(s, n);
      }
      forall n, p | n in t.keys && p in t.keys[n].fields ensures FieldSafe(t, n, p) {
        assert FieldSafe(s, n, p);
        assert (n, p) in FieldKeys(s.keys);
      }
      assert Known(t);
    }
  }

  lemma WriteLosesNothing(s: System, ok: bool)
    requires NothingLost(s)
    ensures NothingLost(Next(s, Write(ok)))
  {
    var t := Next(s, Write(ok));
    if t != s {
      forall n | n in t.keys ensures CountSafe(t, n) {
        assert CountSafe(s, n);
      }
      forall n, p | n in t.keys && p in t.keys[n].fields ensures FieldSafe(t, n, p) {
        assert FieldSafe(s, n, p);
        if (n, p) in s.db.fields { assert InMemory(s.keys, (n, p), s.db.fields[(n, p)]); }
        if (n, p) in s.phase.fields { assert InMemory(s.keys, (n, p), s.phase.fields[(n, p)]); }
      }
      assert Known(t);
    }
  }

  lemma RestoreLosesNothing(s: System)
    requires NothingLost(s)
    ensures NothingLost(Next(s, Restore))
  {
    var t := Next(s, Restore);
    if t != s {
      forall n | n in t.keys ensures CountSafe(t, n) {
        assert CountSafe(s, n);
      }
      forall n, p | n in t.keys && p in t.keys[n].fields ensures FieldSafe(t, n, p) {
        assert FieldSafe(s, n, p);
      }
    }
  }

  function Run(s: System, steps: seq<Step>): System
    decreases |steps|
  {
    if steps == [] then s else Run(Next(s, steps[0]), steps[1..])
  }

  // Main result: over every run of observations and flushes, with any writes failing, whatever differs
  // from the database is marked, in the batch being written, or about to be marked again.
  lemma {:induction false} NothingIsEverLost(s: System, steps: seq<Step>)
    requires NothingLost(s) && forall i :: 0 <= i < |steps| ==> DistinctStep(steps[i])
    ensures NothingLost(Run(s, steps))
    decreases |steps|
  {
    if steps != [] {
      match steps[0] {
        case Observe(name, doc, now, legacyPath) =>
          assert DistinctStep(steps[0]);
          ObserveLosesNothing(s, name, doc, now, legacyPath);
        case Collect => CollectLosesNothing(s);
        case Write(ok) => WriteLosesNothing(s, ok);
        case Restore => RestoreLosesNothing(s);
      }
      assert forall i :: 0 <= i < |steps[1..]| ==> DistinctStep(steps[1..][i]);
      NothingIsEverLost(Next(s, steps[0]), steps[1..]);
    }
  }

  predicate IsClean(s: System) {
    && s.phase.Idle?
    && forall n :: n in s.keys ==> !s.keys[n].dirty && forall p :: p in s.keys[n].fields ==> !s.keys[n].fields[p].dirty
  }

  // With nothing marked and no write under way, a new observer rebuilds exactly what is in memory.
  lemma CleanReloads(s: System)
    requires NothingLost(s) && IsClean(s)
    ensures Loaded(s.db) == s.keys
  {
    var l := Loaded(s.db);
    forall n | n in s.keys ensures n in l && l[n] == s.keys[n] {
      assert CountSafe(s, n);
      forall p | p in s.keys[n].fields ensures (n, p) in s.db.fields && s.db.fields[(n, p)] == s.keys[n].fields[p].field {
        assert FieldSafe(s, n, p);
      }
      forall p | p in l[n].fields ensures p in s.keys[n].fields {
        assert InMemory(s.keys, (n, p), s.db.fields[(n, p)]);
      }
      assert l[n].fields == s.keys[n].fields;
    }
  }

  // A flush that succeeds, with no observation until it ends, leaves a state a new observer rebuilds.
  lemma FlushThenReload(s: System)
    requires NothingLost(s) && s.phase.Idle?
    ensures var t := Next(Next(s, Collect), Write(true));
      Loaded(t.db) == t.keys && t.keys == Cleaned(s.keys)
  {
    var c := Next(s, Collect);
    var t := Next(c, Write(true));
    CollectLosesNothing(s);
    WriteLosesNothing(c, true);
    if c == s {
      assert forall n :: n in s.keys ==> n !in DirtyCounts(s.keys);
      forall n, p | n in s.keys && p in s.keys[n].fields ensures !s.keys[n].fields[p].dirty {
        assert (n, p) in FieldKeys(s.keys) && (n, p) !in DirtyFields(s.keys);
      }
      forall n | n in s.keys ensures Cleaned(s.keys)[n] == s.keys[n] {
        assert Cleaned(s.keys)[n].fields == s.keys[n].fields;
      }
      assert Cleaned(s.keys) == s.keys;
    }
    CleanReloads(t);
  }

  // An observer that loaded the database, in which every field has its key's count, starts safe.
  lemma LoadedIsSafe(db: Db)
    requires forall fk :: fk in db.fields ==> fk.0 in db.counts
    ensures NothingLost(System(Loaded(db), db, Idle))
  {
    var s := System(Loaded(db), db, Idle);
    forall fk | fk in db.fields ensures InMemory(s.keys, fk, db.fields[fk]) {
    }
    forall n | n in s.keys ensures CountSafe(s, n) {
    }
    forall n, p | n in s.keys && p in s.keys[n].fields ensures FieldSafe(s, n, p) {
    }
  }

  // A loaded key whose rows meet the bound keeps it in every run; legacy rows come from here alone.
  lemma LoadedRunIsBounded(db: Db, name: string, took: set<Path>, os: seq<Observation>, legacyPath: Path -> Path)
    requires name in db.counts && AllDistinct(os)
    requires forall p :: p in took ==> (name, p) in db.fields
    requires forall p: Path | (name, p) in db.fields ::
      var f := db.fields[(name, p)];
      && f.firstObs <= f.lastObs <= db.counts[name]
      && f.seen <= f.lastObs - f.firstObs + (if p in took then 2 else 1) && (f.legacy ==> p !in took)
    ensures name in Loaded(db)
    ensures var k := Loaded(db)[name]; Bounded(RunKey(k, os, legacyPath), took + TookOver(k, os, legacyPath))
  {
    var k := Loaded(db)[name];
    forall p ensures p in k.fields <==> (name, p) in db.fields {
    }
    EveryRunIsBounded(k, took, os, legacyPath);
  }

  // One whose load failed starts empty, and is safe exactly when the database has no row.
  lemma EmptyIsSafeExactlyWhen(db: Db)
    ensures NothingLost(System(map[], db, Idle)) <==> db.counts == map[] && db.fields == map[]
  {
    var s := System(map[], db, Idle);
    if Known(s) {
      assert forall n :: n in db.counts ==> n in s.keys;
      assert forall fk :: fk in db.fields ==> fk.0 in s.keys;
      assert db.counts.Keys == {} && db.fields.Keys == {};
    }
  }

  // The upsert is why: a field observed anew writes over a row but not over its first observation.
  lemma UpsertAgreesExactlyWhen(db: Db, fk: FieldKey, f: Field)
    ensures Saved(db, map[], map[fk := f]).fields[fk] == f <==>
      (fk in db.fields ==> db.fields[fk].firstObs == f.firstObs)
  {
  }
}
