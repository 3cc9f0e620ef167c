/**
 Which leaves a shape has, said place by place of the document: a place is a list of
 steps down from its root, and each leaf stands at one, with a path, a kind and a
 masking that depend on the keys on the way to it alone.
 */
module ShapePlaces {
  import opened Options
  import opened Text
  import opened ShapeReduce

  // A step down: a field or an item by number, or into the JSON a string holds.
  datatype Turn = Field(i: nat) | Item(i: nat) | Text

  type Place = seq<Turn>

  // ---------------------------------------------------------------------------
  // What is at a place
  // ---------------------------------------------------------------------------

  function Child(env: Env, v: Json, t: Turn, inJson: bool): Option<Json> {
    match t
    case Field(i) => if v.Obj? && i < |v.fields| then Some(v.fields[i].1) else None
    case Item(i) => if v.Arr? && i < |v.items| then Some(v.items[i]) else None
    case Text =>
      if !v.Str? || inJson then None
      else
        var s := env.trim(v.s);
        if |s| >= 2 && ((s[0] == '{' && s[|s| - 1] == '}') || (s[0] == '[' && s[|s| - 1] == ']')) then env.parse(s) else None
  }

  // JSON is looked for in strings once only on a way.
  function Node(env: Env, v: Json, p: Place): Option<Json> {
    if p == [] then Some(v)
    else
      var q := p[..|p| - 1];
      var w := Node(env, v, q);
      if w.None? then None else Child(env, w.value, p[|p| - 1], Text in q)
  }

  // The key of the last field on the way.
  function KeyAbove(env: Env, v: Json, p: Place): string {
    if p == [] then ""
    else
      var q, t := p[..|p| - 1], p[|p| - 1];
      var w := Node(env, v, q);
      if t.Field? && w.Some? && w.value.Obj? && t.i < |w.value.fields| then w.value.fields[t.i].0 else KeyAbove(env, v, q)
  }

  // The way goes through a field of an object that stands under a key for a user's data.
  predicate InUserData(env: Env, v: Json, p: Place) {
    exists n :: 0 <= n < |p| && p[n].Field? && KeyAbove(env, v, p[..n]) in env.dataParents
  }

  // Where an object stands whose keys are names of the format, and a key that looks like one.
  predicate ShowsKey(env: Env, v: Json, q: Place, path: string, width: nat, k: string) {
    && width <= 96 && KeyAbove(env, v, q) !in env.dynamicParents && KeyAbove(env, v, q) !in env.dataParents
    && !InUserData(env, v, q) && Text !in q && !Contains(path, "content[].input")
    && 1 <= |k| <= 64 && (forall c <- k :: 'a' <= c <= 'z' || 'A' <= c <= 'Z' || '0' <= c <= '9' || c in "_$-")
    && !env.idLike(k)
  }

  // Keys with dots between them, a star for a key not shown, brackets for an item.
  function PathTo(env: Env, v: Json, p: Place): string {
    if p == [] then ""
    else
      var q, t := p[..|p| - 1], p[|p| - 1];
      var path := PathTo(env, v, q);
      match t
      case Item(_) => path + "[]"
      case Text => path + "#json"
      case Field(i) =>
        var w := Node(env, v, q);
        if w.None? || !w.value.Obj? || i >= |w.value.fields| then path
        else
          var k := w.value.fields[i].0;
          var seg := if ShowsKey(env, v, q, path, |w.value.fields|, k) then k else "{*}";
          if path == "" then seg else path + "." + seg
  }

  // The name a string stands under: behind the last dot of its path, or the key above it, without brackets.
  predicate NameBy(path: string, key: string, name: string, tail: string, brackets: string) {
    && (name == "" || name[|name| - 1] !in "[]")
    && tail == name + brackets && (forall c <- brackets :: c in "[]")
    && if '.' in path then '.' !in tail && EndsWith(path, "." + tail) else tail == key
  }

  ghost predicate NameIs(path: string, key: string, name: string) {
    exists tail: string, brackets: string :: NameBy(path, key, name, tail, brackets)
  }

  // What a value at a place that is not gone into comes to.
  ghost predicate IsLeafOf(env: Env, v: Json, p: Place, w: Json, l: Leaf) {
    var path := PathTo(env, v, p);
    if |p| > 12 then l == Leaf(if path == "" then "{cut}" else path + ".{cut}", "cut", 0, "", "", 0)
    else
      match w
      case Obj(fields) => fields == [] && l == Leaf(path, "object", 0, "", "", 0)
      case Arr(items) => items == [] && l == Leaf(path, "array", 0, "", "", 0)
      case Num(_) => l == Leaf(path, "number", 0, "", "", 0)
      case Bool(_) => l == Leaf(path, "boolean", 0, "", "", 0)
      case Null => l == Leaf(path, "null", 0, "", "", 0)
      case Str(s) =>
        && Child(env, w, Text, Text in p).None?
        && var shown := Text !in p && !InUserData(env, v, p) && !Contains(path, "content[].input") && env.enumValue(s)
                        && exists name :: NameIs(path, KeyAbove(env, v, p), name) && name in env.enumNames;
           l == if shown then Leaf(path, "string", 0, "", s, 0) else Leaf(path, "string", |s|, env.hash(s), "", 0)
  }

  // A leaf stands at a place at most thirteen steps down.
  ghost predicate Stands(env: Env, v: Json, p: Place, l: Leaf) {
    |p| <= 13 && Node(env, v, p).Some? && IsLeafOf(env, v, p, Node(env, v, p).value, l)
  }

  // ---------------------------------------------------------------------------
  // The walk knows its place
  // ---------------------------------------------------------------------------

  function Here(env: Env, v: Json, p: Place): At {
    At(PathTo(env, v, p), KeyAbove(env, v, p), Text in p, InUserData(env, v, p), |p|)
  }

  lemma CharsAre(k: string)
    ensures ValidSegment(k) <==>
      1 <= |k| <= 64 && forall c <- k :: 'a' <= c <= 'z' || 'A' <= c <= 'Z' || '0' <= c <= '9' || c in "_$-"
  {
    assert forall c: char :: c in "_$-" <==> c == '_' || c == '$' || c == '-';
  }

  lemma SegmentIs(env: Env, v: Json, q: Place, width: nat, k: string)
    ensures Segment(env, k, width, Here(env, v, q)) ==
      if ShowsKey(env, v, q, PathTo(env, v, q), width, k) then k else "{*}"
  {
    CharsAre(k);
    hide ValidSegment, Contains, KeyAbove, InUserData, PathTo;
  }

  lemma DataBelow(env: Env, v: Json, q: Place, t: Turn)
    ensures InUserData(env, v, q + [t]) <==> InUserData(env, v, q) || (t.Field? && KeyAbove(env, v, q) in env.dataParents)
  {
    var p := q + [t];
    assert p[..|q|] == q;
    forall n | 0 <= n < |q| ensures p[..n] == q[..n] && p[n] == q[n] {
    }
    hide KeyAbove;
  }

  lemma HereField(env: Env, v: Json, q: Place, i: nat)
    requires Node(env, v, q).Some? && Node(env, v, q).value.Obj? && i < |Node(env, v, q).value.fields|
    ensures var w := Node(env, v, q).value;
      && Node(env, v, q + [Field(i)]) == Some(w.fields[i].1)
      && Here(env, v, q + [Field(i)]) == InField(env, w.fields[i].0, |w.fields|, Here(env, v, q))
  {
    var p := q + [Field(i)];
    assert p[..|p| - 1] == q && p[|p| - 1] == Field(i);
    DataBelow(env, v, q, Field(i));
    SegmentIs(env, v, q, |Node(env, v, q).value.fields|, Node(env, v, q).value.fields[i].0);
    hide InUserData, ShowsKey, Segment;
  }

  lemma HereItem(env: Env, v: Json, q: Place, i: nat)
    requires Node(env, v, q).Some? && Node(env, v, q).value.Arr? && i < |Node(env, v, q).value.items|
    ensures Node(env, v, q + [Item(i)]) == Some(Node(env, v, q).value.items[i])
    ensures Here(env, v, q + [Item(i)]) == InItem(Here(env, v, q))
  {
    var p := q + [Item(i)];
    assert p[..|p| - 1] == q && p[|p| - 1] == Item(i);
    DataBelow(env, v, q, Item(i));
    hide InUserData;
  }

  lemma HereText(env: Env, v: Json, q: Place)
    requires Node(env, v, q).Some? && Child(env, Node(env, v, q).value, Text, Text in q).Some?
    ensures Node(env, v, q + [Text]) == Child(env, Node(env, v, q).value, Text, Text in q)
    ensures Here(env, v, q + [Text]) == InString(Here(env, v, q))
    ensures Inside(env, Node(env, v, q).value.s, Here(env, v, q)) == Child(env, Node(env, v, q).value, Text, Text in q)
  {
    var p := q + [Text];
    assert p[..|p| - 1] == q && p[|p| - 1] == Text;
    DataBelow(env, v, q, Text);
    hide InUserData;
  }

  // ---------------------------------------------------------------------------
  // The name a string stands under
  // ---------------------------------------------------------------------------

  lemma {:induction false} TrimIs(t: string) returns (brackets: string)
    ensures t == TrimBrackets(t) + brackets && forall c <- brackets :: c in "[]"
    ensures TrimBrackets(t) == "" || TrimBrackets(t)[|TrimBrackets(t)| - 1] !in "[]"
  {
    if t != "" && (t[|t| - 1] == '[' || t[|t| - 1] == ']') {
      var b := TrimIs(t[..|t| - 1]);
      brackets := b + [t[|t| - 1]];
    } else {
      brackets := "";
    }
  }

  lemma {:induction false} TrimOnly(name: string, brackets: string)
    requires name == "" || name[|name| - 1] !in "[]"
    requires forall c <- brackets :: c in "[]"
    ensures TrimBrackets(name + brackets) == name
    decreases |brackets|
  {
    var t := name + brackets;
    if brackets == "" {
      assert t == name;
    } else {
      var last := brackets[|brackets| - 1];
      assert last in brackets && t[|t| - 1] == last;
      assert t[..|t| - 1] == name + brackets[..|brackets| - 1];
      TrimOnly(name, brackets[..|brackets| - 1]);
    }
  }

  lemma {:induction false} JoinEnds(parts: seq<string>)
    requires |parts| >= 1
    ensures |parts| > 1 ==> EndsWith(Join(parts, '.'), "." + parts[|parts| - 1]) && '.' in Join(parts, '.')
  {
    if |parts| > 1 {
      JoinEnds(parts[1..]);
      var rest := Join(parts[1..], '.');
      var j := parts[0] + ['.'] + rest;
      assert j[|parts[0]|] == '.';
      if |parts| == 2 {
        assert j[|parts[0]|..] == "." + parts[1];
      } else {
        var tail := "." + parts[|parts| - 1];
        assert j[|j| - |tail|..] == rest[|rest| - |tail|..];
      }
    }
  }

  lemma LongerTail(path: string, a: string, b: string)
    requires EndsWith(path, "." + a) && EndsWith(path, "." + b) && |a| < |b|
    ensures '.' in b
  {
    var x, y := "." + a, "." + b;
    assert x == path[|path| - |x|..] && y == path[|path| - |y|..];
    assert y[|b| - |a|] == path[|path| - |x|] == x[0];
    assert b[|b| - |a| - 1] == y[|b| - |a|];
  }

  lemma OneTail(path: string, a: string, b: string)
    requires '.' !in a && '.' !in b && EndsWith(path, "." + a) && EndsWith(path, "." + b)
    ensures a == b
  {
    if |a| < |b| {
      LongerTail(path, a, b);
    } else if |b| < |a| {
      LongerTail(path, b, a);
    } else {
      var x, y := "." + a, "." + b;
      assert x == y && x[1..] == a && y[1..] == b;
    }
  }

  // What is behind the last dot, or the key.
  lemma TailOf(c: At) returns (tail: string)
    ensures if '.' in c.path then '.' !in tail && EndsWith(c.path, "." + tail) else tail == c.parentKey
    ensures LastSegment(c) == TrimBrackets(tail)
  {
    var segs := Split(c.path, '.');
    var last := segs[|segs| - 1];
    assert last in segs;
    JoinEnds(segs);
    if |segs| == 1 { assert Join(segs, '.') == last; }
    tail := if '.' in c.path then last else c.parentKey;
  }

  lemma NameIsLast(c: At, name: string)
    ensures NameIs(c.path, c.parentKey, name) <==> name == LastSegment(c)
  {
    var t := TailOf(c);
    var b := TrimIs(t);
    hide EndsWith, TrimBrackets, LastSegment;
    forall tail: string, brackets: string | NameBy(c.path, c.parentKey, name, tail, brackets) ensures name == LastSegment(c) {
      if '.' in c.path { OneTail(c.path, tail, t); }
      TrimOnly(name, brackets);
    }
    if name == LastSegment(c) {
      assert NameBy(c.path, c.parentKey, name, t, b);
    }
  }

  // ---------------------------------------------------------------------------
  // Main result: the leaves are those that stand at places
  // ---------------------------------------------------------------------------

  lemma StringStands(env: Env, v: Json, p: Place, s: string)
    requires Node(env, v, p) == Some(Str(s)) && |p| <= 12 && Child(env, Str(s), Text, Text in p).None?
    ensures forall l :: Stands(env, v, p, l) <==> l == StringLeaf(env, s, Here(env, v, p))
    ensures Inside(env, s, Here(env, v, p)).None?
  {
    var c := Here(env, v, p);
    NameIsLast(c, LastSegment(c));
    forall name ensures NameIs(c.path, c.parentKey, name) <==> name == LastSegment(c) { NameIsLast(c, name); }
    hide NameIs, LastSegment, Contains, InUserData, PathTo, KeyAbove, Node;
  }

  // A place below another begins with one of its children.
  lemma {:induction false} ChildOnWay(env: Env, v: Json, p: Place, q: Place)
    requires p < q && Node(env, v, q).Some?
    ensures Node(env, v, p).Some? && Node(env, v, p + [q[|p|]]).Some?
    ensures Child(env, Node(env, v, p).value, q[|p|], Text in p).Some?
    decreases |q|
  {
    var r := q[..|q| - 1];
    if |r| == |p| {
      assert r == p && q == p + [q[|p|]];
    } else {
      ChildOnWay(env, v, p, r);
      assert r[|p|] == q[|p|];
    }
  }

  ghost predicate Below(env: Env, v: Json, p: Place, l: Leaf) {
    exists q: Place :: p <= q && Stands(env, v, q, l)
  }

  // A leaf below a place stands at it or below one of its children.
  lemma BelowSplits(env: Env, v: Json, p: Place, l: Leaf)
    requires Node(env, v, p).Some?
    ensures Below(env, v, p, l) <==>
      || Stands(env, v, p, l)
      || exists t: Turn :: Child(env, Node(env, v, p).value, t, Text in p).Some? && Below(env, v, p + [t], l)
  {
    hide Stands, Node, Child;
    forall q: Place | p <= q && Stands(env, v, q, l) && p != q
      ensures exists t: Turn :: Child(env, Node(env, v, p).value, t, Text in p).Some? && Below(env, v, p + [t], l)
    {
      StandsThere(env, v, q, l);
      ChildOnWay(env, v, p, q);
      assert p + [q[|p|]] <= q;
      assert Below(env, v, p + [q[|p|]], l);
    }
    forall t: Turn | Below(env, v, p + [t], l) ensures Below(env, v, p, l) {
      var q: Place :| p + [t] <= q && Stands(env, v, q, l);
      assert p <= q;
    }
    if Stands(env, v, p, l) {
      assert p <= p;
    }
  }

  lemma StandsThere(env: Env, v: Json, q: Place, l: Leaf)
    requires Stands(env, v, q, l)
    ensures Node(env, v, q).Some? && |q| <= 13
  {
  }

  // What stands below a place, for each kind of value there.
  lemma BelowObj(env: Env, v: Json, p: Place, l: Leaf)
    requires Node(env, v, p).Some? && Node(env, v, p).value.Obj? && |p| <= 12
    ensures var fields := Node(env, v, p).value.fields;
      Below(env, v, p, l) <==>
      if fields == [] then l == Bare(PathTo(env, v, p), "object")
      else exists j: nat :: j < |fields| && Below(env, v, p + [Field(j)], l)
  {
    BelowSplits(env, v, p, l);
    var w := Node(env, v, p).value;
    assert forall t: Turn :: Child(env, w, t, Text in p).Some? ==> t.Field? && t.i < |w.fields|;
    assert forall j: nat :: j < |w.fields| ==> Child(env, w, Field(j), Text in p).Some?;
    assert Stands(env, v, p, l) <==> w.fields == [] && l == Bare(PathTo(env, v, p), "object");
    hide Below, Node, PathTo, Child, Stands;
  }

  lemma BelowArr(env: Env, v: Json, p: Place, l: Leaf)
    requires Node(env, v, p).Some? && Node(env, v, p).value.Arr? && |p| <= 12
    ensures var items := Node(env, v, p).value.items;
      Below(env, v, p, l) <==>
      if items == [] then l == Bare(PathTo(env, v, p), "array")
      else exists j: nat :: j < |items| && Below(env, v, p + [Item(j)], l)
  {
    BelowSplits(env, v, p, l);
    var w := Node(env, v, p).value;
    assert forall t: Turn :: Child(env, w, t, Text in p).Some? ==> t.Item? && t.i < |w.items|;
    assert forall j: nat :: j < |w.items| ==> Child(env, w, Item(j), Text in p).Some?;
    assert Stands(env, v, p, l) <==> w.items == [] && l == Bare(PathTo(env, v, p), "array");
    hide Below, Node, PathTo, Child, Stands;
  }

  lemma BelowStr(env: Env, v: Json, p: Place, l: Leaf)
    requires Node(env, v, p).Some? && Node(env, v, p).value.Str? && |p| <= 12
    ensures var w := Node(env, v, p).value;
      Below(env, v, p, l) <==>
      if Child(env, w, Text, Text in p).Some? then Below(env, v, p + [Text], l) else l == StringLeaf(env, w.s, Here(env, v, p))
  {
    BelowSplits(env, v, p, l);
    var w := Node(env, v, p).value;
    assert forall t: Turn :: Child(env, w, t, Text in p).Some? ==> t == Text;
    if Child(env, w, Text, Text in p).None? {
      StringStands(env, v, p, w.s);
    } else {
      assert !Stands(env, v, p, l);
    }
    hide Below, Node, PathTo, Child, Stands, Here, StringLeaf;
  }

  lemma BelowPlain(env: Env, v: Json, p: Place, l: Leaf)
    requires Node(env, v, p).Some? && |p| <= 12
    requires var w := Node(env, v, p).value; w.Null? || w.Bool? || w.Num?
    ensures Below(env, v, p, l) <==> l in Leaves(env, Node(env, v, p).value, Here(env, v, p))
  {
    BelowSplits(env, v, p, l);
    assert forall t: Turn :: Child(env, Node(env, v, p).value, t, Text in p).None?;
  }

  // The walk's own unfolding.
  lemma WalkUnfolds(env: Env, w: Json, c: At)
    requires c.depth <= 12
    ensures w.Obj? ==> Leaves(env, w, c) == if w.fields == [] then [Bare(c.path, "object")] else FieldLeaves(env, w, 0, c)
    ensures w.Arr? ==> Leaves(env, w, c) == if w.items == [] then [Bare(c.path, "array")] else ItemLeaves(env, w, 0, c)
    ensures w.Str? && Inside(env, w.s, c).Some? ==> Leaves(env, w, c) == Leaves(env, Inside(env, w.s, c).value, InString(c))
    ensures w.Str? && Inside(env, w.s, c).None? ==> Leaves(env, w, c) == [StringLeaf(env, w.s, c)]
  {
  }

  lemma {:induction false} LeavesStand(env: Env, v: Json, p: Place, l: Leaf)
    requires Node(env, v, p).Some? && |p| <= 13
    ensures l in Leaves(env, Node(env, v, p).value, Here(env, v, p)) <==> Below(env, v, p, l)
    decreases if Text in p then 0 else 1, Node(env, v, p).value, Width(Node(env, v, p).value) + 1
  {
    var w, c := Node(env, v, p).value, Here(env, v, p);
    if |p| == 13 {
      DeepestStands(env, v, p, l);
    } else {
      WalkUnfolds(env, w, c);
      hide Leaves, FieldLeaves, ItemLeaves, Below, Node, PathTo, KeyAbove, InUserData, StringLeaf;
      match w
      case Obj(fields) =>
        BelowObj(env, v, p, l);
        FieldsStand(env, v, p, 0, l);
      case Arr(items) =>
        BelowArr(env, v, p, l);
        ItemsStand(env, v, p, 0, l);
      case Str(s) =>
        BelowStr(env, v, p, l);
        if Child(env, w, Text, Text in p).Some? {
          HereText(env, v, p);
          LeavesStand(env, v, p + [Text], l);
        } else {
          StringStands(env, v, p, s);
        }
      case _ => BelowPlain(env, v, p, l);
    }
  }

  lemma DeepestStands(env: Env, v: Json, p: Place, l: Leaf)
    requires Node(env, v, p).Some? && |p| == 13
    ensures l in Leaves(env, Node(env, v, p).value, Here(env, v, p)) <==> Below(env, v, p, l)
  {
    var path := PathTo(env, v, p);
    assert path + "." + "{cut}" == path + ".{cut}";
    assert Stands(env, v, p, l) <==> l == Bare(JoinPath(path, "{cut}"), "cut");
    hide PathTo, KeyAbove, InUserData, Node, IsLeafOf;
    forall q: Place | p <= q && Stands(env, v, q, l) ensures q == p {
      StandsThere(env, v, q, l);
    }
    if Stands(env, v, p, l) { assert p <= p; }
  }

  lemma {:induction false} FieldsStand(env: Env, v: Json, p: Place, i: nat, l: Leaf)
    requires Node(env, v, p).Some? && Node(env, v, p).value.Obj? && i <= |Node(env, v, p).value.fields| && |p| <= 12
    ensures l in FieldLeaves(env, Node(env, v, p).value, i, Here(env, v, p)) <==>
      exists j: nat :: i <= j < |Node(env, v, p).value.fields| && Below(env, v, p + [Field(j)], l)
    decreases if Text in p then 0 else 1, Node(env, v, p).value, Width(Node(env, v, p).value) - i
  {
    hide Leaves, Below, Node, PathTo, KeyAbove, InUserData;
    if i < |Node(env, v, p).value.fields| {
      HereField(env, v, p, i);
      LeavesStand(env, v, p + [Field(i)], l);
      FieldsStand(env, v, p, i + 1, l);
    }
  }

  lemma {:induction false} ItemsStand(env: Env, v: Json, p: Place, i: nat, l: Leaf)
    requires Node(env, v, p).Some? && Node(env, v, p).value.Arr? && i <= |Node(env, v, p).value.items| && |p| <= 12
    ensures l in ItemLeaves(env, Node(env, v, p).value, i, Here(env, v, p)) <==>
      exists j: nat :: i <= j < |Node(env, v, p).value.items| && Below(env, v, p + [Item(j)], l)
    decreases if Text in p then 0 else 1, Node(env, v, p).value, Width(Node(env, v, p).value) - i
  {
    hide Leaves, Below, Node, PathTo, KeyAbove, InUserData;
    if i < |Node(env, v, p).value.items| {
      HereItem(env, v, p, i);
      LeavesStand(env, v, p + [Item(i)], l);
      ItemsStand(env, v, p, i + 1, l);
    }
  }

  // Main result: the walk of a document without the cap writes exactly the leaves that stand at its places.
  lemma EveryLeafHasAPlace(env: Env, v: Json, l: Leaf)
    ensures l in Leaves(env, v, Root) <==> exists p: Place :: Stands(env, v, p, l)
  {
    assert Here(env, v, []) == Root;
    LeavesStand(env, v, [], l);
  }
}
