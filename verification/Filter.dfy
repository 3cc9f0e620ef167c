/**
 The blacklist engine: rules that delete subtrees of a JSON body by path, or a key at every
 depth of each tool's schema. A rule is a cursor that walks down with the tree, so what it
 deletes depends on the place alone: rules commute, and applying them again changes nothing.
 */
module Filter {
  import opened Options

  datatype Json = Leaf(text: string) | Arr(items: seq<Json>) | Obj(fields: map<string, Json>)

  datatype Step = Key(k: string) | Item(i: nat)

  datatype Rule = FieldRule(path: seq<string>) | SchemaRule(key: string) | HeaderRule(name: string)

  // Where a rule is in the tree: what is left of a path, or which part of a
  // request a schema rule has come to.
  datatype Cursor =
    | Nowhere
    | AtPath(rest: seq<string>)
    | Root(key: string)
    | Body(key: string)
    | Tools(key: string)
    | Tool(key: string)
    | Func(key: string)
    | Decls(key: string)
    | Decl(key: string)
    | Schema(key: string)
    | Props(key: string)

  // ---------------------------------------------------------------------------
  // The walk
  // ---------------------------------------------------------------------------

  function Next(c: Cursor, s: Step): Cursor {
    match c
    case Nowhere => Nowhere
    case AtPath(rest) =>
      if |rest| <= 1 then Nowhere
      else if rest[0] == "*" || s == Key(rest[0]) then AtPath(rest[1..])
      else Nowhere
    case Root(key) => if s == Key("tools") then Tools(key) else if s == Key("request") then Body(key) else Nowhere
    case Body(key) => if s == Key("tools") then Tools(key) else Nowhere
    case Tools(key) => if s.Item? then Tool(key) else Nowhere
    case Tool(key) =>
      if s == Key("input_schema") || s == Key("parameters") then Schema(key)
      else if s == Key("function") then Func(key)
      else if s == Key("functionDeclarations") then Decls(key)
      else Nowhere
    case Func(key) => if s == Key("parameters") then Schema(key) else Nowhere
    case Decls(key) => if s.Item? then Decl(key) else Nowhere
    case Decl(key) => if s == Key("parameters") || s == Key("parametersJsonSchema") then Schema(key) else Nowhere
    case Schema(key) => if s == Key("properties") then Props(key) else Schema(key)
    case Props(key) => Schema(key)
  }

  predicate Deletes(c: Cursor, k: string) {
    match c
    case AtPath(rest) => |rest| == 1 && (rest[0] == "*" || rest[0] == k)
    case Schema(key) => k == key
    case _ => false
  }

  predicate Dels(cs: set<Cursor>, k: string) {
    exists c <- cs :: Deletes(c, k)
  }

  function NextAll(cs: set<Cursor>, s: Step): set<Cursor> {
    set c <- cs :: Next(c, s)
  }

  // What the rules leave of a tree, all of them at once.
  function Prune(t: Json, cs: set<Cursor>): Json {
    match t
    case Leaf(_) => t
    case Arr(items) => Arr(seq(|items|, i requires 0 <= i < |items| => Prune(items[i], NextAll(cs, Item(i)))))
    case Obj(fields) => Obj(map k | k in fields && !Dels(cs, k) :: Prune(fields[k], NextAll(cs, Key(k))))
  }

  lemma NextOfOne(c: Cursor, s: Step)
    ensures NextAll({c}, s) == {Next(c, s)}
  {
  }

  lemma DelsOfOne(c: Cursor, k: string)
    ensures Dels({c}, k) == Deletes(c, k)
  {
    if Deletes(c, k) {
      assert c in {c};
    }
  }

  lemma NextOfUnion(a: set<Cursor>, b: set<Cursor>, s: Step)
    ensures NextAll(a + b, s) == NextAll(a, s) + NextAll(b, s)
  {
  }

  // Main result: one set of rules after another is both at once.
  lemma {:induction false} PruneTwice(t: Json, a: set<Cursor>, b: set<Cursor>)
    ensures Prune(Prune(t, a), b) == Prune(t, a + b)
  {
    match t
    case Leaf(_) =>
    case Arr(items) =>
      forall i | 0 <= i < |items|
        ensures Prune(Prune(items[i], NextAll(a, Item(i))), NextAll(b, Item(i))) == Prune(items[i], NextAll(a + b, Item(i)))
      {
        NextOfUnion(a, b, Item(i));
        PruneTwice(items[i], NextAll(a, Item(i)), NextAll(b, Item(i)));
      }
    case Obj(fields) =>
      forall k | k in fields
        ensures Prune(Prune(fields[k], NextAll(a, Key(k))), NextAll(b, Key(k))) == Prune(fields[k], NextAll(a + b, Key(k)))
        ensures Dels(a + b, k) == (Dels(a, k) || Dels(b, k))
      {
        NextOfUnion(a, b, Key(k));
        PruneTwice(fields[k], NextAll(a, Key(k)), NextAll(b, Key(k)));
      }
  }

  lemma {:induction false} PruneCommutes(t: Json, a: set<Cursor>, b: set<Cursor>)
    ensures Prune(Prune(t, a), b) == Prune(Prune(t, b), a)
    ensures Prune(Prune(t, a), a) == Prune(t, a)
  {
    PruneTwice(t, a, b);
    PruneTwice(t, b, a);
    PruneTwice(t, a, a);
    assert a + b == b + a && a + a == a;
  }

  lemma {:induction false} PruneNowhere(t: Json, cs: set<Cursor>)
    requires cs <= {Nowhere, AtPath([])}
    ensures Prune(t, cs) == t
  {
    match t
    case Leaf(_) =>
    case Arr(items) =>
      forall i | 0 <= i < |items| ensures Prune(items[i], NextAll(cs, Item(i))) == items[i] {
        PruneNowhere(items[i], NextAll(cs, Item(i)));
      }
    case Obj(fields) =>
      forall k | k in fields ensures Prune(fields[k], NextAll(cs, Key(k))) == fields[k] && !Dels(cs, k) {
        PruneNowhere(fields[k], NextAll(cs, Key(k)));
      }
  }

  // ---------------------------------------------------------------------------
  // What is kept, said place by place
  // ---------------------------------------------------------------------------

  type Place = seq<Step>

  function At(t: Json, p: Place): Option<Json>
    decreases |p|
  {
    if p == [] then Some(t)
    else match p[0]
      case Key(k) => if t.Obj? && k in t.fields then At(t.fields[k], p[1..]) else None
      case Item(i) => if t.Arr? && i < |t.items| then At(t.items[i], p[1..]) else None
  }

  // A key on the way to p is deleted.
  predicate Hits(cs: set<Cursor>, p: Place)
    decreases |p|
  {
    p != [] && ((p[0].Key? && Dels(cs, p[0].k)) || Hits(NextAll(cs, p[0]), p[1..]))
  }

  function After(cs: set<Cursor>, p: Place): set<Cursor>
    decreases |p|
  {
    if p == [] then cs else After(NextAll(cs, p[0]), p[1..])
  }

  // Main result: exactly the places with a deleted key on the way are gone.
  lemma {:induction false} PruneKeepsExactly(t: Json, cs: set<Cursor>, p: Place)
    ensures At(Prune(t, cs), p) ==
      if At(t, p).None? || Hits(cs, p) then None else Some(Prune(At(t, p).value, After(cs, p)))
    decreases |p|
  {
    if p != [] {
      match p[0]
      case Key(k) =>
        if t.Obj? && k in t.fields {
          PruneKeepsExactly(t.fields[k], NextAll(cs, p[0]), p[1..]);
        }
      case Item(i) =>
        if t.Arr? && i < |t.items| {
          PruneKeepsExactly(t.items[i], NextAll(cs, p[0]), p[1..]);
        }
    }
  }

  // A path pattern names a place: "*" stands for any key or item, but not for a last item.
  predicate Matches(path: seq<string>, p: Place) {
    && |p| == |path| && |p| > 0 && p[|p| - 1].Key?
    && forall i :: 0 <= i < |p| ==> path[i] == "*" || p[i] == Key(path[i])
  }

  // A field rule deletes exactly the places its pattern names, and what is under them.
  lemma {:induction false} FieldHits(path: seq<string>, p: Place)
    ensures Hits({AtPath(path)}, p) <==> exists n :: 0 <= n <= |p| && Matches(path, p[..n])
    decreases |p|
  {
    if p != [] && path != [] {
      var c := AtPath(path);
      NextOfOne(c, p[0]);
      if |path| == 1 {
        NowhereHits(p[1..]);
        assert Hits({c}, p) ==> Matches(path, p[..1]);
        forall n | 0 <= n <= |p| && Matches(path, p[..n]) ensures Hits({c}, p) {
          assert n == 1;
          assert p[..n][0] == p[0];
          assert c in {c} && Deletes(c, p[0].k);
        }
      } else if path[0] == "*" || p[0] == Key(path[0]) {
        FieldHits(path[1..], p[1..]);
        forall n | 0 <= n <= |p| && Matches(path, p[..n])
          ensures exists m :: 0 <= m <= |p[1..]| && Matches(path[1..], p[1..][..m])
        {
          assert p[1..][..n - 1] == p[..n][1..];
          assert Matches(path[1..], p[1..][..n - 1]);
        }
        forall m | 0 <= m <= |p[1..]| && Matches(path[1..], p[1..][..m])
          ensures exists n :: 0 <= n <= |p| && Matches(path, p[..n])
        {
          assert p[..m + 1] == [p[0]] + p[1..][..m];
          assert Matches(path, p[..m + 1]);
        }
      } else {
        NowhereHits(p[1..]);
        forall n | 0 < n <= |p| ensures !Matches(path, p[..n]) {
          assert p[..n][0] == p[0];
        }
      }
    } else if path == [] {
      EmptyPathHits(p);
    }
  }

  lemma {:induction false} NowhereHits(p: Place)
    ensures !Hits({Nowhere}, p)
    decreases |p|
  {
    if p != [] {
      NextOfOne(Nowhere, p[0]);
      NowhereHits(p[1..]);
    }
  }

  lemma EmptyPathHits(p: Place)
    ensures !Hits({AtPath([])}, p)
  {
    if p != [] {
      NextOfOne(AtPath([]), p[0]);
      NowhereHits(p[1..]);
    }
  }

  // The last step of a place inside a schema is the name of a parameter: it
  // stands under a "properties" that is not such a name itself.
  predicate IsName(p: Place)
    decreases |p|
  {
    && |p| >= 2 && p[|p| - 1].Key?
    && p[|p| - 2] == Key("properties") && !IsName(p[..|p| - 1])
  }

  // Where a cursor comes to along p.
  function Along(c: Cursor, p: Place): Cursor {
    if p == [] then c else Next(Along(c, p[..|p| - 1]), p[|p| - 1])
  }

  lemma {:induction false} AlongBoth(c: Cursor, p: Place, q: Place)
    ensures Along(c, p + q) == Along(Along(c, p), q)
    decreases |q|
  {
    if q == [] {
      assert p + q == p;
    } else {
      assert (p + q)[..|p + q| - 1] == p + q[..|q| - 1];
      AlongBoth(c, p, q[..|q| - 1]);
    }
  }

  predicate DeletedAt(c: Cursor, p: Place, n: nat)
    requires n < |p|
  {
    p[n].Key? && Deletes(Along(c, p[..n]), p[n].k)
  }

  lemma {:induction false} HitsAlong(c: Cursor, p: Place)
    ensures Hits({c}, p) <==> exists n :: 0 <= n < |p| && DeletedAt(c, p, n)
    decreases |p|
  {
    if p != [] {
      var rest := p[1..];
      NextOfOne(c, p[0]);
      HitsAlong(Next(c, p[0]), rest);
      forall n | 0 < n < |p| ensures DeletedAt(c, p, n) == DeletedAt(Next(c, p[0]), rest, n - 1) {
        assert p[..n] == [p[0]] + rest[..n - 1];
        AlongBoth(c, [p[0]], rest[..n - 1]);
        assert [p[0]][..0] == [];
      }
      assert p[..0] == [];
      assert (p[0].Key? && Dels({c}, p[0].k)) == DeletedAt(c, p, 0) by {
        if p[0].Key? {
          DelsOfOne(c, p[0].k);
        }
      }
      forall n | 0 <= n < |rest| && DeletedAt(Next(c, p[0]), rest, n) ensures exists m :: 0 <= m < |p| && DeletedAt(c, p, m) {
        assert DeletedAt(c, p, n + 1);
      }
    }
  }

  // Inside a schema only the alternation of "properties" and names matters.
  lemma {:induction false} AlongSchema(key: string, p: Place)
    ensures Along(Schema(key), p) ==
      if p != [] && p[|p| - 1] == Key("properties") && !IsName(p) then Props(key) else Schema(key)
    decreases |p|
  {
    if p != [] {
      AlongSchema(key, p[..|p| - 1]);
    }
  }

  lemma SchemaDeletes(key: string, p: Place, n: nat)
    requires n < |p|
    ensures DeletedAt(Schema(key), p, n) <==> p[n] == Key(key) && !IsName(p[..n + 1])
  {
    AlongSchema(key, p[..n]);
    assert p[..n + 1][..n] == p[..n];
  }

  // A place inside one request body where a tool keeps a schema.
  predicate SchemaInBody(b: Place) {
    && |b| >= 3 && b[0] == Key("tools") && b[1].Item?
    && (|| (|b| == 3 && (b[2] == Key("input_schema") || b[2] == Key("parameters")))
        || (|b| == 4 && b[2] == Key("function") && b[3] == Key("parameters"))
        || (|b| == 5 && b[2] == Key("functionDeclarations") && b[3].Item?
            && (b[4] == Key("parameters") || b[4] == Key("parametersJsonSchema"))))
  }

  // The body may be inside an envelope, under "request".
  predicate SchemaPlace(p: Place) {
    SchemaInBody(if p != [] && p[0] == Key("request") then p[1..] else p)
  }

  lemma AlongToSchema(key: string, p: Place)
    requires SchemaPlace(p)
    ensures Along(Root(key), p) == Schema(key)
  {
    var b := if p[0] == Key("request") then p[1..] else p;
    var c := if p[0] == Key("request") then Body(key) else Root(key);
    AlongInBody(c, key, b);
    if p[0] == Key("request") {
      assert p == [p[0]] + b;
      AlongBoth(Root(key), [p[0]], b);
      assert [p[0]][..0] == [];
    }
  }

  lemma AlongInBody(c: Cursor, key: string, b: Place)
    requires SchemaInBody(b) && (c == Root(key) || c == Body(key))
    ensures Along(c, b) == Schema(key)
  {
    assert b[..1][..0] == [] && b[..2][..1] == b[..1] && b[..3][..2] == b[..2];
    assert Along(c, b[..1]) == Tools(key);
    assert Along(c, b[..2]) == Tool(key);
    if |b| == 3 {
      assert b[..3] == b;
    } else if |b| == 4 {
      assert b[..4] == b && b[..4][..3] == b[..3];
      assert Along(c, b[..3]) == Func(key);
    } else {
      assert b[..5] == b && b[..5][..4] == b[..4] && b[..4][..3] == b[..3];
      assert Along(c, b[..3]) == Decls(key);
      assert Along(c, b[..4]) == Decl(key);
    }
  }

  // What the way to a cursor of a schema rule looks like.
  predicate WayTo(c: Cursor, p: Place) {
    var b := if p != [] && p[0] == Key("request") then p[1..] else p;
    match c
    case Root(_) => p == []
    case Body(_) => p == [Key("request")]
    case Tools(_) => |b| == 1 && b[0] == Key("tools")
    case Tool(_) => |b| == 2 && b[0] == Key("tools") && b[1].Item?
    case Func(_) => |b| == 3 && b[0] == Key("tools") && b[1].Item? && b[2] == Key("function")
    case Decls(_) => |b| == 3 && b[0] == Key("tools") && b[1].Item? && b[2] == Key("functionDeclarations")
    case Decl(_) => |b| == 4 && b[0] == Key("tools") && b[1].Item? && b[2] == Key("functionDeclarations") && b[3].Item?
    case Schema(_) => exists m :: 0 <= m <= |p| && SchemaPlace(p[..m])
    case Props(_) => exists m :: 0 <= m <= |p| && SchemaPlace(p[..m])
    case _ => true
  }

  lemma SchemaReached(was: Cursor, q: Place, s: Step)
    requires WayTo(was, q) && Next(was, s).Schema? && (was.Tool? || was.Func? || was.Decl?)
    ensures SchemaPlace(q + [s])
  {
    if q[0] == Key("request") {
      assert (q + [s])[1..] == q[1..] + [s];
    }
  }

  lemma {:induction false} AlongRoot(key: string, p: Place)
    ensures var c := Along(Root(key), p); c.AtPath? == false && (c != Nowhere ==> c.key == key && WayTo(c, p))
    decreases |p|
  {
    if p != [] {
      var q, s := p[..|p| - 1], p[|p| - 1];
      AlongRoot(key, q);
      var was := Along(Root(key), q);
      var c := Along(Root(key), p);
      if was.Schema? || was.Props? {
        var m :| 0 <= m <= |q| && SchemaPlace(q[..m]);
        assert q[..m] == p[..m];
      } else if c.Schema? {
        assert p[..|p|] == p && p == q + [s];
        SchemaReached(was, q, s);
      } else if c != Nowhere {
        assert p == q + [s];
        WayGoesOn(was, q, s);
      }
    }
  }

  lemma WayGoesOn(was: Cursor, q: Place, s: Step)
    requires WayTo(was, q) && !was.Schema? && !was.Props? && !was.AtPath?
    requires Next(was, s) != Nowhere && !Next(was, s).Schema?
    ensures WayTo(Next(was, s), q + [s])
  {
    if q != [] && q[0] == Key("request") {
      assert (q + [s])[1..] == q[1..] + [s];
    }
  }

  // A schema rule deletes its key at exactly these places, and what is under them:
  // inside a tool's schema, where the key is not the name of a parameter.
  lemma SchemaRuleHits(key: string, p: Place)
    ensures Hits({Root(key)}, p) <==>
      exists m, n :: 0 <= m <= n < |p| && SchemaPlace(p[..m]) && p[n] == Key(key) && !IsName(p[m..n + 1])
  {
    HitsAlong(Root(key), p);
    forall n | 0 <= n < |p| && DeletedAt(Root(key), p, n)
      ensures exists m :: 0 <= m <= n && SchemaPlace(p[..m]) && p[n] == Key(key) && !IsName(p[m..n + 1])
    {
      AlongRoot(key, p[..n]);
      var m :| 0 <= m <= n && SchemaPlace(p[..n][..m]);
      assert p[..n][..m] == p[..m];
      DeletedInside(key, p, m, n);
    }
    forall m, n | 0 <= m <= n < |p| && SchemaPlace(p[..m]) && p[n] == Key(key) && !IsName(p[m..n + 1])
      ensures DeletedAt(Root(key), p, n)
    {
      DeletedInside(key, p, m, n);
    }
  }

  lemma SliceOfDrop(p: Place, m: nat, n: nat)
    requires m <= n <= |p|
    ensures p[m..][..n - m] == p[m..n]
  {
  }

  lemma DeletedInside(key: string, p: Place, m: nat, n: nat)
    requires m <= n < |p| && SchemaPlace(p[..m])
    ensures DeletedAt(Root(key), p, n) <==> p[n] == Key(key) && !IsName(p[m..n + 1])
  {
    AlongToSchema(key, p[..m]);
    hide SchemaPlace, IsName, Along;
    assert p[..n] == p[..m] + p[m..n];
    AlongBoth(Root(key), p[..m], p[m..n]);
    SliceOfDrop(p, m, n);
    SliceOfDrop(p, m, n + 1);
    SchemaDeletes(key, p[m..], n - m);
  }

  // ---------------------------------------------------------------------------
  // The operations, branch by branch
  // ---------------------------------------------------------------------------

  function One(t: Json, c: Cursor): Json {
    Prune(t, {c})
  }

  // What one cursor leaves of an object and of a list, one child at a time.
  lemma OneOfObj(f: map<string, Json>, c: Cursor)
    ensures One(Obj(f), c).Obj?
    ensures One(Obj(f), c) == Obj(map k | k in f && !Deletes(c, k) :: One(f[k], Next(c, Key(k))))
  {
    hide Deletes, Next, Dels, NextAll;
    forall k | k in f ensures Dels({c}, k) == Deletes(c, k) && NextAll({c}, Key(k)) == {Next(c, Key(k))} {
      DelsOfOne(c, k);
      NextOfOne(c, Key(k));
    }
    var w := Prune(Obj(f), {c});
    assert w.fields == map k | k in f && !Deletes(c, k) :: One(f[k], Next(c, Key(k)));
  }

  lemma OneOfArr(items: seq<Json>, c: Cursor, d: Cursor)
    requires forall i :: 0 <= i < |items| ==> Next(c, Item(i)) == d
    ensures One(Arr(items), c) == Arr(seq(|items|, i requires 0 <= i < |items| => One(items[i], d)))
  {
    forall i: nat | i < |items| ensures NextAll({c}, Item(i)) == {d} {
      NextOfOne(c, Item(i));
    }
  }

  lemma OneOfNothing(t: Json)
    ensures One(t, Nowhere) == t && One(t, AtPath([])) == t
  {
    PruneNowhere(t, {Nowhere});
    PruneNowhere(t, {AtPath([])});
  }

  method DropPath(v: Json, path: seq<string>) returns (w: Json, changed: bool)
    ensures w == One(v, AtPath(path)) && changed == (w != v)
    decreases |path|, 0
  {
    if |path| == 0 {
      OneOfNothing(v);
      return v, false;
    }
    var seg, rest := path[0], path[1..];
    match v
    case Obj(n) =>
      OneOfObj(n, AtPath(path));
      if |rest| == 0 {
        if seg == "*" {
          return Obj(map[]), n.Keys != {};
        }
        LastKeyGoes(n, seg);
        assert path == [seg];
        return Obj(n - {seg}), seg in n;
      }
      OtherKeysStay(n, path);
      if seg == "*" {
        w, changed := DropUnderKeys(n, rest);
        return;
      }
      if seg !in n {
        return v, false;
      }
      var c, ch := DropPath(n[seg], rest);
      return Obj(n[seg := c]), ch;
    case Arr(n) =>
      if seg != "*" || |rest| == 0 {
        OneOfArr(n, AtPath(path), Nowhere);
        forall t | t in n ensures One(t, Nowhere) == t {
          OneOfNothing(t);
        }
        return v, false;
      }
      OneOfArr(n, AtPath(path), AtPath(rest));
      w, changed := DropUnderItems(n, rest);
    case Leaf(_) =>
      return v, false;
  }

  lemma LastKeyGoes(n: map<string, Json>, seg: string)
    requires seg != "*"
    ensures One(Obj(n), AtPath([seg])) == Obj(n - {seg})
    ensures n - {seg} != n <==> seg in n
  {
    OneOfObj(n, AtPath([seg]));
    forall t | t in n.Values ensures One(t, Nowhere) == t {
      OneOfNothing(t);
    }
  }

  lemma OtherKeysStay(n: map<string, Json>, path: seq<string>)
    requires |path| > 1
    ensures forall k <- n ::
      && !Deletes(AtPath(path), k)
      && One(n[k], Next(AtPath(path), Key(k))) == if path[0] == "*" || path[0] == k then One(n[k], AtPath(path[1..])) else n[k]
  {
    forall t | t in n.Values ensures One(t, Nowhere) == t {
      OneOfNothing(t);
    }
  }

  // A walk through an object halfway: what is left to do is as it was, the rest is as wanted.
  predicate Halfway(f: map<string, Json>, n: map<string, Json>, todo: set<string>, want: map<string, Json>) {
    && todo <= f.Keys == n.Keys == want.Keys
    && forall k <- f :: n[k] == if k in todo then f[k] else want[k]
  }

  lemma HalfwayGoesOn(f: map<string, Json>, n: map<string, Json>, todo: set<string>, want: map<string, Json>, k: string)
    requires Halfway(f, n, todo, want) && k in todo
    ensures k in f && k in want && Halfway(f, n[k := want[k]], todo - {k}, want)
    ensures n[k := want[k]] != f <==> n != f || want[k] != f[k]
  {
    assert n == n[k := want[k]][k := n[k]];
  }

  lemma HalfwayEnds(f: map<string, Json>, n: map<string, Json>, want: map<string, Json>)
    requires Halfway(f, n, {}, want)
    ensures n == want
  {
  }

  // The same for a list.
  predicate UpTo(f: seq<Json>, n: seq<Json>, i: nat, want: seq<Json>) {
    && i <= |f| == |n| == |want|
    && forall j :: 0 <= j < |f| ==> n[j] == if j < i then want[j] else f[j]
  }

  lemma UpToNext(f: seq<Json>, n: seq<Json>, i: nat, want: seq<Json>)
    requires UpTo(f, n, i, want) && i < |f|
    ensures n[i] == f[i] && UpTo(f, n[i := want[i]], i + 1, want)
    ensures n[i := want[i]] != f <==> n != f || want[i] != f[i]
  {
    assert n == n[i := want[i]][i := n[i]];
  }

  method DropUnderKeys(n: map<string, Json>, rest: seq<string>) returns (w: Json, changed: bool)
    ensures w == Obj(map k | k in n :: One(n[k], AtPath(rest))) && changed == (w != Obj(n))
    decreases |rest|, 1
  {
    var m, todo := n, n.Keys;
    ghost var want := map k | k in n :: One(n[k], AtPath(rest));
    assert Halfway(n, n, n.Keys, want);
    hide One, Halfway;
    changed := false;
    while todo != {}
      invariant Halfway(n, m, todo, want)
      invariant changed == (m != n)
      decreases todo
    {
      var k :| k in todo;
      HalfwayGoesOn(n, m, todo, want, k);
      var c, ch := DropPath(n[k], rest);
      m := m[k := c];
      changed := ch || changed;
      todo := todo - {k};
    }
    HalfwayEnds(n, m, want);
    w := Obj(m);
  }

  method DropUnderItems(n: seq<Json>, rest: seq<string>) returns (w: Json, changed: bool)
    ensures w == Arr(seq(|n|, i requires 0 <= i < |n| => One(n[i], AtPath(rest)))) && changed == (w != Arr(n))
    decreases |rest|, 1
  {
    hide One;
    var m := n;
    ghost var want := seq(|n|, i requires 0 <= i < |n| => One(n[i], AtPath(rest)));
    changed := false;
    for i := 0 to |n|
      invariant UpTo(n, m, i, want)
      invariant changed == (m != n)
    {
      UpToNext(n, m, i, want);
      var c, ch := DropPath(n[i], rest);
      m := m[i := c];
      changed := ch || changed;
    }
    w := Arr(m);
  }

  // A key at every depth of one schema.
  method DropKey(v: Json, key: string) returns (w: Json, changed: bool)
    ensures w == One(v, Schema(key)) && changed == (w != v)
    decreases v, 1
  {
    match v
    case Obj(f) =>
      w, changed := DropKeyInObj(f, key);
    case Arr(items) =>
      hide One, Next;
      var n := items;
      ghost var want := seq(|items|, i requires 0 <= i < |items| => One(items[i], Schema(key)));
      changed := false;
      for i := 0 to |items|
        invariant UpTo(items, n, i, want)
        invariant changed == (n != items)
      {
        UpToNext(items, n, i, want);
        var c, ch := DropKey(items[i], key);
        n := n[i := c];
        changed := ch || changed;
      }
      SchemaOfArr(items, key);
      w := Arr(n);
    case Leaf(_) =>
      return v, false;
  }

  lemma SchemaOfArr(items: seq<Json>, key: string)
    ensures One(Arr(items), Schema(key)) == Arr(seq(|items|, i requires 0 <= i < |items| => One(items[i], Schema(key))))
  {
    OneOfArr(items, Schema(key), Schema(key));
  }

  // What becomes of the fields that a schema rule does not delete.
  function SchemaFields(f: map<string, Json>, key: string): map<string, Json> {
    map k | k in f && k != key :: One(f[k], Next(Schema(key), Key(k)))
  }

  lemma SchemaOfObj(f: map<string, Json>, key: string)
    ensures One(Obj(f), Schema(key)) == Obj(SchemaFields(f, key))
  {
    OneOfObj(f, Schema(key));
  }

  method DropKeyInObj(f: map<string, Json>, key: string) returns (w: Json, changed: bool)
    ensures w == One(Obj(f), Schema(key)) && changed == (w != Obj(f))
    decreases Obj(f), 0
  {
    var kept := f - {key};
    var n, todo := kept, kept.Keys;
    ghost var want := SchemaFields(f, key);
    assert Halfway(kept, kept, kept.Keys, want);
    hide One, Next, Halfway;
    changed := key in f;
    while todo != {}
      invariant Halfway(kept, n, todo, want)
      invariant changed == (key in f || n != kept)
      decreases todo
    {
      var k :| k in todo;
      HalfwayGoesOn(kept, n, todo, want, k);
      var c, ch := DropUnder(f, k, key);
      n := n[k := c];
      changed := ch || changed;
      todo := todo - {k};
    }
    HalfwayEnds(kept, n, want);
    SchemaOfObj(f, key);
    WithoutKey(f, key, n);
    w := Obj(n);
  }

  lemma WithoutKey(f: map<string, Json>, key: string, n: map<string, Json>)
    requires key !in n
    ensures n != f <==> key in f || n != f - {key}
  {
    if key !in f {
      assert f - {key} == f;
    }
  }

  // The child of an object: under "properties" the names are kept.
  method DropUnder(f: map<string, Json>, k: string, key: string) returns (w: Json, changed: bool)
    requires k in f
    ensures w == One(f[k], Next(Schema(key), Key(k))) && changed == (w != f[k])
    decreases Obj(f), -1
  {
    hide One;
    if k == "properties" && f[k].Obj? {
      var props := f[k].fields;
      var n, todo := props, props.Keys;
      ghost var want := map p | p in props :: One(props[p], Schema(key));
      changed := false;
      assert Halfway(props, props, props.Keys, want);
      hide Halfway;
      while todo != {}
        invariant Halfway(props, n, todo, want)
        invariant changed == (n != props)
        decreases todo
      {
        var p :| p in todo;
        HalfwayGoesOn(props, n, todo, want, p);
        var c, ch := DropKey(props[p], key);
        n := n[p := c];
        changed := ch || changed;
        todo := todo - {p};
      }
      HalfwayEnds(props, n, want);
      PropsOfObj(props, key);
      w := Obj(n);
    } else {
      w, changed := DropKey(f[k], key);
      if k == "properties" {
        PropsOfList(f[k], key);
      }
    }
  }

  lemma PropsOfObj(props: map<string, Json>, key: string)
    ensures One(Obj(props), Props(key)) == Obj(map p | p in props :: One(props[p], Schema(key)))
  {
    OneOfObj(props, Props(key));
  }

  lemma PropsOfList(v: Json, key: string)
    requires !v.Obj?
    ensures One(v, Props(key)) == One(v, Schema(key))
  {
    if v.Arr? {
      OneOfArr(v.items, Props(key), Schema(key));
      OneOfArr(v.items, Schema(key), Schema(key));
    }
  }

  // A schema rule deletes nothing on its way to a schema.
  predicate OnTheWay(c: Cursor) {
    !c.AtPath? && !c.Schema? && !c.Props?
  }

  lemma OnTheWayObj(f: map<string, Json>, c: Cursor)
    requires OnTheWay(c)
    ensures One(Obj(f), c) == Obj(map k | k in f :: One(f[k], Next(c, Key(k))))
    ensures forall k <- f :: Next(c, Key(k)) == Nowhere ==> One(f[k], Next(c, Key(k))) == f[k]
  {
    OneOfObj(f, c);
    forall t | t in f.Values ensures One(t, Nowhere) == t {
      OneOfNothing(t);
    }
  }

  // Where the tree has another form than the way asks for, nothing is found.
  lemma WrongForm(t: Json, c: Cursor)
    requires OnTheWay(c) && if c.Tools? || c.Decls? then !t.Arr? else !t.Obj?
    ensures One(t, c) == t
  {
    if t.Arr? {
      OneOfArr(t.items, c, Nowhere);
      forall v | v in t.items ensures One(v, Nowhere) == v {
        OneOfNothing(v);
      }
    } else if t.Obj? {
      OnTheWayObj(t.fields, c);
    }
  }

  // One field of an object cleaned, if it is there.
  function Put(f: map<string, Json>, k: string, c: Cursor): map<string, Json> {
    if k in f then f[k := One(f[k], c)] else f
  }

  lemma PutAt(f: map<string, Json>, k: string, c: Cursor)
    ensures Put(f, k, c).Keys == f.Keys
    ensures forall j <- f :: Put(f, k, c)[j] == if j == k then One(f[j], c) else f[j]
  {
  }

  lemma PutTwo(f: map<string, Json>, k1: string, c1: Cursor, k2: string, c2: Cursor)
    requires k1 != k2
    ensures var g := Put(f, k1, c1); var h := Put(g, k2, c2); h == f <==> g == f && h == g
  {
    hide One;
    var g := Put(f, k1, c1);
    var h := Put(g, k2, c2);
    if h == f && k1 in f {
      assert h[k1] == g[k1];
    }
  }

  function PutAll(f: map<string, Json>, c: Cursor, ks: seq<string>): map<string, Json> {
    if ks == [] then f else PutAll(Put(f, ks[0], Next(c, Key(ks[0]))), c, ks[1..])
  }

  predicate Distinct(ks: seq<string>) {
    forall i, j :: 0 <= i < j < |ks| ==> ks[i] != ks[j]
  }

  lemma {:induction false} PutAllAt(f: map<string, Json>, c: Cursor, ks: seq<string>)
    requires Distinct(ks)
    ensures PutAll(f, c, ks).Keys == f.Keys
    ensures forall k <- f :: PutAll(f, c, ks)[k] == if k in ks then One(f[k], Next(c, Key(k))) else f[k]
    decreases |ks|
  {
    hide One, Next, Put;
    if ks != [] {
      PutAt(f, ks[0], Next(c, Key(ks[0])));
      PutAllAt(Put(f, ks[0], Next(c, Key(ks[0]))), c, ks[1..]);
    }
  }

  lemma ByPuts(f: map<string, Json>, c: Cursor, ks: seq<string>)
    requires OnTheWay(c) && Distinct(ks)
    requires forall k :: k !in ks ==> Next(c, Key(k)) == Nowhere
    ensures One(Obj(f), c) == Obj(PutAll(f, c, ks))
  {
    hide One, Next, PutAll;
    PutAllAt(f, c, ks);
    OnTheWayObj(f, c);
  }

  lemma PutAllTwo(f: map<string, Json>, c: Cursor, k1: string, k2: string, more: seq<string>)
    ensures forall g :: PutAll(g, c, []) == g
    ensures PutAll(f, c, [k1, k2] + more) ==
      PutAll(Put(Put(f, k1, Next(c, Key(k1))), k2, Next(c, Key(k2))), c, more)
  {
    hide Next, Put;
    var ks := [k1, k2] + more;
    assert ks[1..][0] == k2 && ks[1..][1..] == more;
  }

  lemma DeclByPuts(f: map<string, Json>, key: string)
    ensures One(Obj(f), Decl(key)) == Obj(Put(Put(f, "parameters", Schema(key)), "parametersJsonSchema", Schema(key)))
  {
    hide One, Put;
    var ks := ["parameters", "parametersJsonSchema"];
    ByPuts(f, Decl(key), ks);
    PutAllTwo(f, Decl(key), "parameters", "parametersJsonSchema", []);
    assert ks + [] == ks;
  }

  lemma ToolByPuts(f: map<string, Json>, key: string)
    ensures var g := Put(Put(f, "input_schema", Schema(key)), "parameters", Schema(key));
      var h := Put(Put(g, "function", Func(key)), "functionDeclarations", Decls(key));
      && One(Obj(f), Tool(key)) == Obj(h)
      && (h == f <==> g == f && h == g)
  {
    hide One, Put, PutAll;
    var ks, last := ["input_schema", "parameters"], ["function", "functionDeclarations"];
    var g := Put(Put(f, "input_schema", Schema(key)), "parameters", Schema(key));
    ByPuts(f, Tool(key), ks + last);
    PutAllTwo(f, Tool(key), "input_schema", "parameters", last);
    PutAllTwo(f, Tool(key), "input_schema", "parameters", []);
    PutAllTwo(g, Tool(key), "function", "functionDeclarations", []);
    assert ks + [] == ks && last + [] == last;
    LaterPutsStay(f, Tool(key), ks, last);
  }

  // Puts at other keys cannot undo a change.
  lemma LaterPutsStay(f: map<string, Json>, c: Cursor, ks: seq<string>, more: seq<string>)
    requires Distinct(ks + more)
    ensures PutAll(PutAll(f, c, ks), c, more) == f ==> PutAll(f, c, ks) == f
  {
    hide One, Next, PutAll;
    var all := ks + more;
    assert ks == all[..|ks|] && more == all[|ks|..];
    forall i, j | 0 <= i < j < |more| ensures more[i] != more[j] {
      assert all[|ks| + i] == more[i] && all[|ks| + j] == more[j];
    }
    forall k | k in ks ensures k !in more {
      var i :| 0 <= i < |ks| && ks[i] == k;
      forall j | 0 <= j < |more| ensures more[j] != k {
        assert all[i] == ks[i] && all[|ks| + j] == more[j];
      }
    }
    PutAllAt(f, c, ks);
    PutAllAt(PutAll(f, c, ks), c, more);
  }

  lemma RootByPuts(f: map<string, Json>, key: string)
    ensures One(Obj(f), Root(key)) == Obj(Put(Put(f, "tools", Tools(key)), "request", Body(key)))
    ensures One(Obj(f), Body(key)) == Obj(Put(f, "tools", Tools(key)))
  {
    hide One, Put;
    var ks := ["tools", "request"];
    ByPuts(f, Root(key), ks);
    PutAllTwo(f, Root(key), "tools", "request", []);
    assert ks + [] == ks;
    ByPuts(f, Body(key), ["tools"]);
  }

  method DropAt(f: map<string, Json>, k: string, key: string) returns (g: map<string, Json>, changed: bool)
    ensures g == Put(f, k, Schema(key)) && changed == (g != f)
  {
    g, changed := f, false;
    if k in f {
      var c, ch := DropKey(f[k], key);
      g, changed := f[k := c], ch;
    }
  }

  method CleanDecl(t: Json, key: string) returns (w: Json, changed: bool)
    ensures w == One(t, Decl(key)) && changed == (w != t)
  {
    hide One, Put;
    if !t.Obj? {
      WrongForm(t, Decl(key));
      return t, false;
    }
    var g, a := DropAt(t.fields, "parameters", key);
    var h, b := DropAt(g, "parametersJsonSchema", key);
    DeclByPuts(t.fields, key);
    PutTwo(t.fields, "parameters", Schema(key), "parametersJsonSchema", Schema(key));
    return Obj(h), a || b;
  }

  method CleanDecls(t: Json, key: string) returns (w: Json, changed: bool)
    ensures w == One(t, Decls(key)) && changed == (w != t)
  {
    if !t.Arr? {
      WrongForm(t, Decls(key));
      return t, false;
    }
    OneOfArr(t.items, Decls(key), Decl(key));
    var n := t.items;
    ghost var want := seq(|n|, i requires 0 <= i < |n| => One(t.items[i], Decl(key)));
    changed := false;
    for i := 0 to |n|
      invariant UpTo(t.items, n, i, want)
      invariant changed == (n != t.items)
    {
      UpToNext(t.items, n, i, want);
      var c, ch := CleanDecl(n[i], key);
      n := n[i := c];
      changed := ch || changed;
    }
    w := Arr(n);
  }

  method CleanFunc(t: Json, key: string) returns (w: Json, changed: bool)
    ensures w == One(t, Func(key)) && changed == (w != t)
  {
    if !t.Obj? {
      WrongForm(t, Func(key));
      return t, false;
    }
    OnTheWayObj(t.fields, Func(key));
    var g, a := DropAt(t.fields, "parameters", key);
    return Obj(g), a;
  }

  method CleanTool(t: Json, key: string) returns (w: Json, changed: bool)
    ensures w == One(t, Tool(key)) && changed == (w != t)
  {
    hide One, Put;
    if !t.Obj? {
      WrongForm(t, Tool(key));
      return t, false;
    }
    var f, a := DropAt(t.fields, "input_schema", key);
    var g, b := DropAt(f, "parameters", key);
    var h, c := CleanTail(g, key);
    ToolByPuts(t.fields, key);
    PutTwo(t.fields, "input_schema", Schema(key), "parameters", Schema(key));
    return Obj(h), a || b || c;
  }

  method CleanTail(g: map<string, Json>, key: string) returns (h: map<string, Json>, changed: bool)
    ensures h == Put(Put(g, "function", Func(key)), "functionDeclarations", Decls(key)) && changed == (h != g)
  {
    hide One;
    PutTwo(g, "function", Func(key), "functionDeclarations", Decls(key));
    h, changed := g, false;
    if "function" in h {
      var c, ch := CleanFunc(h["function"], key);
      h, changed := h["function" := c], ch;
    }
    if "functionDeclarations" in h {
      var c, ch := CleanDecls(h["functionDeclarations"], key);
      h, changed := h["functionDeclarations" := c], ch || changed;
    }
  }

  method CleanTools(t: Json, key: string) returns (w: Json, changed: bool)
    ensures w == One(t, Tools(key)) && changed == (w != t)
  {
    if !t.Arr? {
      WrongForm(t, Tools(key));
      return t, false;
    }
    OneOfArr(t.items, Tools(key), Tool(key));
    var n := t.items;
    ghost var want := seq(|n|, i requires 0 <= i < |n| => One(t.items[i], Tool(key)));
    changed := false;
    for i := 0 to |n|
      invariant UpTo(t.items, n, i, want)
      invariant changed == (n != t.items)
    {
      UpToNext(t.items, n, i, want);
      var c, ch := CleanTool(n[i], key);
      n := n[i := c];
      changed := ch || changed;
    }
    w := Arr(n);
  }

  method CleanBody(f: map<string, Json>, key: string) returns (g: map<string, Json>, changed: bool)
    ensures Obj(g) == One(Obj(f), Body(key)) && g == Put(f, "tools", Tools(key)) && changed == (g != f)
  {
    hide One;
    RootByPuts(f, key);
    g, changed := f, false;
    if "tools" in f {
      var c, ch := CleanTools(f["tools"], key);
      g, changed := f["tools" := c], ch;
    }
  }

  // A schema rule: the request, then the one inside Antigravity's envelope.
  method DropSchemas(f: map<string, Json>, key: string) returns (g: map<string, Json>, changed: bool)
    ensures Obj(g) == One(Obj(f), Root(key)) && changed == (g != f)
  {
    hide One;
    RootByPuts(f, key);
    PutTwo(f, "tools", Tools(key), "request", Body(key));
    g, changed := CleanBody(f, key);
    if "request" in g {
      if g["request"].Obj? {
        var r, ch := CleanBody(g["request"].fields, key);
        g, changed := g["request" := Obj(r)], ch || changed;
      } else {
        WrongForm(g["request"], Body(key));
      }
    }
  }

  // ---------------------------------------------------------------------------
  // The schemas a rule is for
  // ---------------------------------------------------------------------------

  function Field(t: Json, k: string): Option<Json> {
    if t.Obj? && k in t.fields then Some(t.fields[k]) else None
  }

  function Items(t: Option<Json>): seq<Json> {
    if t.Some? && t.value.Arr? then t.value.items else []
  }

  function Listed(t: Option<Json>): seq<Json> {
    if t.Some? then [t.value] else []
  }

  function DeclSchemas(t: Json): seq<Json> {
    Listed(Field(t, "parameters")) + Listed(Field(t, "parametersJsonSchema"))
  }

  function AllDeclSchemas(items: seq<Json>): seq<Json> {
    if items == [] then [] else DeclSchemas(items[0]) + AllDeclSchemas(items[1..])
  }

  function FuncSchemas(t: Json): seq<Json> {
    if Field(t, "function").Some? then Listed(Field(Field(t, "function").value, "parameters")) else []
  }

  function SchemasOfTool(t: Json): seq<Json> {
    Listed(Field(t, "input_schema")) + Listed(Field(t, "parameters"))
    + FuncSchemas(t)
    + AllDeclSchemas(Items(Field(t, "functionDeclarations")))
  }

  function SchemasOfTools(items: seq<Json>): seq<Json> {
    if items == [] then [] else SchemasOfTool(items[0]) + SchemasOfTools(items[1..])
  }

  function ToolSchemas(t: Json): seq<Json> {
    SchemasOfTools(Items(Field(t, "tools")))
    + (if Field(t, "request").Some? then SchemasOfTools(Items(Field(Field(t, "request").value, "tools"))) else [])
  }

  function Cleaned(schemas: seq<Json>, key: string): seq<Json> {
    seq(|schemas|, i requires 0 <= i < |schemas| => One(schemas[i], Schema(key)))
  }

  lemma CleanedBoth(a: seq<Json>, b: seq<Json>, key: string)
    ensures Cleaned(a + b, key) == Cleaned(a, key) + Cleaned(b, key)
  {
  }

  lemma FieldOfOne(t: Json, c: Cursor, k: string)
    requires OnTheWay(c)
    ensures Field(One(t, c), k) == if Field(t, k).None? then None else Some(One(t.fields[k], Next(c, Key(k))))
  {
    hide Next;
    if t.Obj? {
      OnTheWayObj(t.fields, c);
    }
  }

  lemma ItemsOfOne(t: Json, c: Cursor, d: Cursor)
    requires forall i :: Next(c, Item(i)) == d
    ensures One(t, c).Arr? == t.Arr?
    ensures t.Arr? ==> One(t, c).items == seq(|t.items|, i requires 0 <= i < |t.items| => One(t.items[i], d))
  {
    if t.Arr? {
      OneOfArr(t.items, c, d);
    }
  }

  lemma DeclCleaned(t: Json, key: string)
    ensures DeclSchemas(One(t, Decl(key))) == Cleaned(DeclSchemas(t), key)
  {
    FieldOfOne(t, Decl(key), "parameters");
    FieldOfOne(t, Decl(key), "parametersJsonSchema");
    CleanedBoth(Listed(Field(t, "parameters")), Listed(Field(t, "parametersJsonSchema")), key);
  }

  lemma {:induction false} DeclsCleaned(a: seq<Json>, b: seq<Json>, key: string)
    requires |a| == |b| && forall i :: 0 <= i < |a| ==> b[i] == One(a[i], Decl(key))
    ensures AllDeclSchemas(b) == Cleaned(AllDeclSchemas(a), key)
  {
    if a != [] {
      DeclCleaned(a[0], key);
      DeclsCleaned(a[1..], b[1..], key);
      CleanedBoth(DeclSchemas(a[0]), AllDeclSchemas(a[1..]), key);
    }
  }

  lemma ToolCleaned(t: Json, key: string)
    ensures SchemasOfTool(One(t, Tool(key))) == Cleaned(SchemasOfTool(t), key)
  {
    hide One, Next, Field, DeclSchemas, AllDeclSchemas;
    var a, b := Listed(Field(t, "input_schema")), Listed(Field(t, "parameters"));
    var c, d := FuncSchemas(t), AllDeclSchemas(Items(Field(t, "functionDeclarations")));
    OwnSchemasCleaned(t, key);
    FuncSchemasCleaned(t, key);
    DeclSchemasCleaned(t, key);
    CleanedBoth(a, b, key);
    CleanedBoth(a + b, c, key);
    CleanedBoth(a + b + c, d, key);
  }

  lemma OwnSchemasCleaned(t: Json, key: string)
    ensures Listed(Field(One(t, Tool(key)), "input_schema")) == Cleaned(Listed(Field(t, "input_schema")), key)
    ensures Listed(Field(One(t, Tool(key)), "parameters")) == Cleaned(Listed(Field(t, "parameters")), key)
  {
    hide One;
    FieldOfOne(t, Tool(key), "input_schema");
    FieldOfOne(t, Tool(key), "parameters");
  }

  lemma FuncSchemasCleaned(t: Json, key: string)
    ensures FuncSchemas(One(t, Tool(key))) == Cleaned(FuncSchemas(t), key)
  {
    hide One;
    FieldOfOne(t, Tool(key), "function");
    if Field(t, "function").Some? {
      FieldOfOne(t.fields["function"], Func(key), "parameters");
    }
  }

  lemma DeclSchemasCleaned(t: Json, key: string)
    ensures AllDeclSchemas(Items(Field(One(t, Tool(key)), "functionDeclarations")))
      == Cleaned(AllDeclSchemas(Items(Field(t, "functionDeclarations"))), key)
  {
    hide One, DeclSchemas, AllDeclSchemas;
    FieldOfOne(t, Tool(key), "functionDeclarations");
    if Field(t, "functionDeclarations").Some? {
      var d := t.fields["functionDeclarations"];
      ItemsOfOne(d, Decls(key), Decl(key));
      DeclsCleaned(Items(Some(d)), Items(Some(One(d, Decls(key)))), key);
    } else {
      DeclsCleaned([], [], key);
    }
  }

  lemma {:induction false} ToolsCleaned(a: seq<Json>, b: seq<Json>, key: string)
    requires |a| == |b| && forall i :: 0 <= i < |a| ==> b[i] == One(a[i], Tool(key))
    ensures SchemasOfTools(b) == Cleaned(SchemasOfTools(a), key)
  {
    if a != [] {
      ToolCleaned(a[0], key);
      ToolsCleaned(a[1..], b[1..], key);
      CleanedBoth(SchemasOfTool(a[0]), SchemasOfTools(a[1..]), key);
    }
  }

  lemma BodyCleaned(t: Json, c: Cursor, key: string)
    requires c == Root(key) || c == Body(key)
    ensures SchemasOfTools(Items(Field(One(t, c), "tools"))) == Cleaned(SchemasOfTools(Items(Field(t, "tools"))), key)
  {
    FieldOfOne(t, c, "tools");
    if Field(t, "tools").Some? {
      var d := t.fields["tools"];
      ItemsOfOne(d, Tools(key), Tool(key));
      ToolsCleaned(Items(Some(d)), Items(Some(One(d, Tools(key)))), key);
    }
  }

  // Main result: after a schema rule the request has the same tool schemas as
  // before, each of them cleaned of the key.
  lemma SchemaRuleCleans(t: Json, key: string)
    ensures ToolSchemas(One(t, Root(key))) == Cleaned(ToolSchemas(t), key)
    ensures forall s <- ToolSchemas(One(t, Root(key))) :: CleanOf(s, key)
  {
    SchemasCleaned(t, key);
    hide ToolSchemas, One, CleanOf;
    forall s | s in Cleaned(ToolSchemas(t), key) ensures CleanOf(s, key) {
      var i :| 0 <= i < |ToolSchemas(t)| && s == One(ToolSchemas(t)[i], Schema(key));
      CleanOfKey(ToolSchemas(t)[i], key);
    }
  }

  lemma SchemasCleaned(t: Json, key: string)
    ensures ToolSchemas(One(t, Root(key))) == Cleaned(ToolSchemas(t), key)
  {
    BodyCleaned(t, Root(key), key);
    FieldOfOne(t, Root(key), "request");
    hide One, SchemasOfTools;
    var a := SchemasOfTools(Items(Field(t, "tools")));
    if Field(t, "request").Some? {
      var r := t.fields["request"];
      BodyCleaned(r, Body(key), key);
      CleanedBoth(a, SchemasOfTools(Items(Field(r, "tools"))), key);
    } else {
      assert a + [] == a;
      assert Cleaned(a, key) + [] == Cleaned(a, key);
    }
  }

  // The key stands nowhere in the schema but as the name of a parameter.
  ghost predicate CleanOf(s: Json, key: string) {
    forall p: Place :: p != [] && p[|p| - 1] == Key(key) && At(s, p).Some? ==> IsName(p)
  }

  lemma CleanOfKey(s: Json, key: string)
    ensures CleanOf(One(s, Schema(key)), key)
    ensures forall p: Place :: (forall n :: 0 <= n < |p| && p[n] == Key(key) ==> IsName(p[..n + 1])) ==>
      (At(One(s, Schema(key)), p).Some? <==> At(s, p).Some?)
  {
    forall p: Place | p != [] && p[|p| - 1] == Key(key) && At(One(s, Schema(key)), p).Some? ensures IsName(p) {
      PruneKeepsExactly(s, {Schema(key)}, p);
      HitsAlong(Schema(key), p);
      SchemaDeletes(key, p, |p| - 1);
      assert p[..|p|] == p;
    }
    forall p: Place | forall n :: 0 <= n < |p| && p[n] == Key(key) ==> IsName(p[..n + 1])
      ensures At(One(s, Schema(key)), p).Some? <==> At(s, p).Some?
    {
      PruneKeepsExactly(s, {Schema(key)}, p);
      HitsAlong(Schema(key), p);
      forall n | 0 <= n < |p| ensures !DeletedAt(Schema(key), p, n) {
        SchemaDeletes(key, p, n);
      }
    }
  }

  // ---------------------------------------------------------------------------
  // All rules of a request
  // ---------------------------------------------------------------------------

  function CursorOf(r: Rule): (c: Cursor) {
    match r
    case FieldRule(path) => AtPath(path)
    case SchemaRule(key) => Root(key)
    case HeaderRule(_) => Nowhere
  }

  function BodyRules(rules: seq<Rule>): set<Cursor> {
    set r <- rules | !r.HeaderRule? :: CursorOf(r)
  }

  method ApplyRule(f: map<string, Json>, r: Rule) returns (g: map<string, Json>, changed: bool)
    requires !r.HeaderRule?
    ensures Obj(g) == One(Obj(f), CursorOf(r)) && changed == (g != f)
  {
    match r
    case FieldRule(path) =>
      var w, ch := DropPath(Obj(f), path);
      assert w.Obj?;
      g, changed := w.fields, ch;
    case SchemaRule(key) =>
      g, changed := DropSchemas(f, key);
  }

  // What a rule removes, said of places: a field rule those its pattern names, a schema rule its key inside
  // the schema of a tool where it is no parameter's name; each with what is under it. A header rule none.
  predicate Removes(r: Rule, p: Place) {
    match r
    case FieldRule(path) => exists n :: 0 <= n <= |p| && Matches(path, p[..n])
    case SchemaRule(key) => exists m, n :: 0 <= m <= n < |p| && SchemaPlace(p[..m]) && p[n] == Key(key) && !IsName(p[m..n + 1])
    case HeaderRule(_) => false
  }

  predicate Removed(rules: seq<Rule>, p: Place) {
    exists r <- rules :: Removes(r, p)
  }

  // At a place the trees have the same leaf, lists of one length, or two objects.
  predicate SameNode(a: Json, b: Json) {
    if a.Leaf? then a == b else if a.Arr? then b.Arr? && |a.items| == |b.items| else b.Obj?
  }

  // A place of the tree is gone exactly when a rule removes it, and is otherwise as it was.
  ghost predicate PlaceRight(t: Json, u: Json, rules: seq<Rule>, p: Place) {
    if At(t, p).None? || Removed(rules, p) then At(u, p).None?
    else At(u, p).Some? && SameNode(At(t, p).value, At(u, p).value)
  }

  ghost predicate LeavesTheRest(t: Json, u: Json, rules: seq<Rule>) {
    forall p: Place :: PlaceRight(t, u, rules, p)
  }

  lemma {:induction false} HitsEach(cs: set<Cursor>, p: Place)
    ensures Hits(cs, p) <==> exists c <- cs :: Hits({c}, p)
    decreases |p|
  {
    if p != [] {
      var next := NextAll(cs, p[0]);
      HitsEach(next, p[1..]);
      forall c | c in cs ensures Hits({c}, p) <==> (p[0].Key? && Deletes(c, p[0].k)) || Hits({Next(c, p[0])}, p[1..]) {
        NextOfOne(c, p[0]);
        if p[0].Key? { DelsOfOne(c, p[0].k); }
      }
      if Hits(next, p[1..]) {
        var d :| d in next && Hits({d}, p[1..]);
        var c :| c in cs && Next(c, p[0]) == d;
        assert Hits({c}, p);
      }
    }
  }

  lemma RulesHit(rules: seq<Rule>, p: Place)
    ensures Hits(BodyRules(rules), p) <==> Removed(rules, p)
  {
    HitsEach(BodyRules(rules), p);
    hide Hits, IsName, SchemaPlace, Matches;
    forall r | r in rules ensures !r.HeaderRule? ==> (Hits({CursorOf(r)}, p) <==> Removes(r, p)) {
      match r
      case FieldRule(path) => FieldHits(path, p);
      case SchemaRule(key) => SchemaRuleHits(key, p);
      case HeaderRule(_) =>
    }
    if r :| r in rules && Removes(r, p) {
      assert CursorOf(r) in BodyRules(rules);
    }
  }

  lemma PruneLeavesTheRest(t: Json, rules: seq<Rule>)
    ensures LeavesTheRest(t, Prune(t, BodyRules(rules)), rules)
  {
    forall p: Place ensures PlaceRight(t, Prune(t, BodyRules(rules)), rules, p) {
      PruneKeepsExactly(t, BodyRules(rules), p);
      RulesHit(rules, p);
      hide Hits, Removed, BodyRules;
    }
  }

  predicate Alike(u: Json, v: Json, p: Place) {
    && (At(u, p).Some? <==> At(v, p).Some?)
    && (At(u, p).Some? ==> SameNode(At(u, p).value, At(v, p).value))
  }

  lemma KeyThere(t: Json, k: string)
    ensures At(t, [Key(k)]).Some? <==> t.Obj? && k in t.fields
  {
    assert [Key(k)][1..] == [];
  }

  // A tree is known by its places.
  lemma {:induction false} SamePlaces(u: Json, v: Json)
    requires forall p: Place :: Alike(u, v, p)
    ensures u == v
  {
    assert Alike(u, v, []);
    match u
    case Leaf(_) =>
    case Arr(items) =>
      forall i | 0 <= i < |items| ensures items[i] == v.items[i] {
        forall q: Place ensures Alike(items[i], v.items[i], q) {
          assert Alike(u, v, [Item(i)] + q) && ([Item(i)] + q)[1..] == q;
        }
        SamePlaces(items[i], v.items[i]);
      }
    case Obj(fields) =>
      forall k ensures k in fields <==> k in v.fields {
        assert Alike(u, v, [Key(k)]);
        KeyThere(u, k);
        KeyThere(v, k);
      }
      forall k | k in fields ensures fields[k] == v.fields[k] {
        forall q: Place ensures Alike(fields[k], v.fields[k], q) {
          assert Alike(u, v, [Key(k)] + q) && ([Key(k)] + q)[1..] == q;
        }
        SamePlaces(fields[k], v.fields[k]);
      }
  }

  // So there is one tree that lacks what the rules remove and nothing else.
  lemma OneTreeIsLeft(t: Json, u: Json, v: Json, rules: seq<Rule>)
    requires LeavesTheRest(t, u, rules) && LeavesTheRest(t, v, rules)
    ensures u == v
  {
    forall p: Place ensures Alike(u, v, p) {
      assert PlaceRight(t, u, rules, p) && PlaceRight(t, v, rules, p);
    }
    SamePlaces(u, v);
  }

  // Rules never bring anything back.
  lemma UnchangedThroughout(t: Json, a: set<Cursor>, b: set<Cursor>)
    requires a <= b && Prune(t, b) == t
    ensures Prune(t, a) == t
  {
    PruneTwice(t, b, a);
    assert b + a == b;
  }

  // Main result: the tree Apply encodes is the tree pruned of what all body rules
  // delete, whatever their order and number; changed says that it differs.
  method ApplyTree(f: map<string, Json>, rules: seq<Rule>) returns (g: map<string, Json>, changed: bool)
    ensures LeavesTheRest(Obj(f), Obj(g), rules)
    ensures Obj(g) == Prune(Obj(f), BodyRules(rules))
    ensures changed <==> g != f
    ensures changed <==> exists p: Place :: At(Obj(f), p).Some? && Removed(rules, p)
  {
    g, changed := f, false;
    PruneNowhere(Obj(f), {});
    assert BodyRules(rules[..0]) == {};
    for i := 0 to |rules|
      invariant Obj(g) == Prune(Obj(f), BodyRules(rules[..i]))
      invariant changed <==> g != f
    {
      ghost var a, b := BodyRules(rules[..i]), BodyRules(rules[..i + 1]);
      assert rules[..i + 1] == rules[..i] + [rules[i]];
      if !rules[i].HeaderRule? {
        ghost var was := g;
        var h, ch := ApplyRule(g, rules[i]);
        PruneTwice(Obj(f), a, {CursorOf(rules[i])});
        assert b == a + {CursorOf(rules[i])};
        g, changed := h, ch || changed;
        if Obj(g) == Obj(f) {
          UnchangedThroughout(Obj(f), a, b);
        }
      } else {
        assert b == a;
      }
    }
    assert rules[..|rules|] == rules;
    PruneLeavesTheRest(Obj(f), rules);
    ChangedExactlyWhen(Obj(f), Obj(g), rules);
  }

  lemma ChangedExactlyWhen(t: Json, u: Json, rules: seq<Rule>)
    requires LeavesTheRest(t, u, rules)
    ensures u != t <==> exists p: Place :: At(t, p).Some? && Removed(rules, p)
  {
    hide Removed;
    if forall p: Place :: At(t, p).Some? ==> !Removed(rules, p) {
      forall p: Place ensures Alike(t, u, p) {
        assert PlaceRight(t, u, rules, p);
      }
      SamePlaces(t, u);
    } else {
      var p: Place :| At(t, p).Some? && Removed(rules, p);
      assert PlaceRight(t, u, rules, p);
    }
  }

  // Any order of the rules, repeated or not, gives the same tree.
  lemma OrderDoesNotMatter(t: Json, r1: seq<Rule>, r2: seq<Rule>)
    requires forall r: Rule :: r in r1 <==> r in r2
    ensures Prune(t, BodyRules(r1)) == Prune(t, BodyRules(r2))
    ensures Prune(Prune(t, BodyRules(r1)), BodyRules(r2)) == Prune(t, BodyRules(r1))
  {
    assert BodyRules(r1) == BodyRules(r2);
    PruneCommutes(t, BodyRules(r1), BodyRules(r1));
  }

  // On the bytes: decode and encode stand for the JSON library, and may fail.
  method Apply(body: string, rules: seq<Rule>, decode: string -> Option<Json>, encode: Json -> Option<string>)
    returns (out: string, changed: bool)
    ensures !changed ==> out == body
    ensures changed <==>
      && decode(body).Some? && decode(body).value.Obj?
      && Prune(decode(body).value, BodyRules(rules)) != decode(body).value
      && encode(Prune(decode(body).value, BodyRules(rules))).Some?
    ensures changed ==> encode(Prune(decode(body).value, BodyRules(rules))) == Some(out)
    ensures changed ==> exists u :: LeavesTheRest(decode(body).value, u, rules) && encode(u) == Some(out)
  {
    var d := decode(body);
    if d.None? || !d.value.Obj? {
      return body, false;
    }
    var g, ch := ApplyTree(d.value.fields, rules);
    if !ch {
      return body, false;
    }
    var e := encode(Obj(g));
    if e.None? {
      return body, false;
    }
    return e.value, true;
  }

  // What Apply sends is sent as it is by a second Apply.
  method ApplyTwice(body: string, rules: seq<Rule>, decode: string -> Option<Json>, encode: Json -> Option<string>)
    returns (out: string, again: bool)
    requires forall t :: encode(t).Some? ==> decode(encode(t).value) == Some(t)
    ensures !again
  {
    var first, ch := Apply(body, rules, decode, encode);
    out, again := Apply(first, rules, decode, encode);
    if decode(body).Some? {
      PruneCommutes(decode(body).value, BodyRules(rules), BodyRules(rules));
    }
  }
}
