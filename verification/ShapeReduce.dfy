/**
 The reduction of a body to its shape: a walk of the JSON tree that writes one
 leaf a field, with a cap on the leaves and a limit on the depth, and the fold of
 a stream's events into one record. A shape that was cut must say so, or a diff
 takes it for complete.
 */
module ShapeReduce {
  import opened Options
  import opened Text

  // An object is a list of its fields in the order the walk meets them.
  datatype Json =
    | Null
    | Bool(b: bool)
    | Num(n: string)
    | Str(s: string)
    | Arr(items: seq<Json>)
    | Obj(fields: seq<(string, Json)>)

  datatype Leaf = Leaf(path: string, typ: string, len: nat, hash: string, enum: string, deltas: nat)

  // The tables and the patterns the walk asks, and the JSON inside a string.
  datatype Env = Env(
    dataParents: set<string>, dynamicParents: set<string>, enumNames: set<string>,
    idLike: string -> bool, enumValue: string -> bool, trim: string -> string,
    hash: string -> string, parse: string -> Option<Json>)

  // Where the walk is.
  datatype At = At(path: string, parentKey: string, underJson: bool, underData: bool, depth: nat)

  const MAX_DEPTH := 12
  const MAX_LEAVES := 1500
  const WIDE := 96

  // ---------------------------------------------------------------------------
  // Paths
  // ---------------------------------------------------------------------------

  function JoinPath(path: string, seg: string): (p: string)
    ensures path != "" || seg != "" ==> p != ""
  {
    if path == "" then seg else path + "." + seg
  }

  predicate Contains(s: string, sub: string) {
    sub <= s || (s != "" && Contains(s[1..], sub))
  }

  predicate StandsAt(s: string, sub: string, i: nat) {
    i + |sub| <= |s| && s[i..i + |sub|] == sub
  }

  lemma {:induction false} ContainsIs(s: string, sub: string)
    ensures Contains(s, sub) <==> exists i: nat :: StandsAt(s, sub, i)
  {
    if sub <= s {
      assert StandsAt(s, sub, 0);
    } else if s != "" {
      ContainsIs(s[1..], sub);
      forall i: nat ensures StandsAt(s, sub, i + 1) == StandsAt(s[1..], sub, i) {
        if i + 1 + |sub| <= |s| { assert s[1..][i..i + |sub|] == s[i + 1..i + 1 + |sub|]; }
      }
      if i: nat :| StandsAt(s, sub, i) {
        assert i > 0 && StandsAt(s[1..], sub, i - 1);
      }
      if i: nat :| StandsAt(s[1..], sub, i) {
        assert StandsAt(s, sub, i + 1);
      }
    }
  }

  predicate SegmentChar(c: char) {
    'A' <= c <= 'Z' || 'a' <= c <= 'z' || '0' <= c <= '9' || c == '_' || c == '$' || c == '-'
  }

  predicate ValidSegment(k: string) {
    1 <= |k| <= 64 && forall c <- k :: SegmentChar(c)
  }

  function TrimBrackets(s: string): string {
    if s != "" && (s[|s| - 1] == '[' || s[|s| - 1] == ']') then TrimBrackets(s[..|s| - 1]) else s
  }

  function LastSegment(c: At): string {
    var segs := Split(c.path, '.');
    TrimBrackets(if '.' in c.path then segs[|segs| - 1] else c.parentKey)
  }

  // A key is kept only where keys are names of the format.
  function Segment(env: Env, k: string, width: nat, c: At): (seg: string)
    ensures seg == k || seg == "{*}"
    ensures seg != ""
  {
    if width > WIDE || c.parentKey in env.dynamicParents || c.underData || c.parentKey in env.dataParents || c.underJson
      || Contains(c.path, "content[].input") || !ValidSegment(k) || env.idLike(k)
    then "{*}" else k
  }

  function InField(env: Env, k: string, width: nat, c: At): At {
    At(JoinPath(c.path, Segment(env, k, width, c)), k, c.underJson,
       c.underData || c.parentKey in env.dataParents, c.depth + 1)
  }

  function InItem(c: At): At {
    c.(path := c.path + "[]", depth := c.depth + 1)
  }

  function InString(c: At): At {
    c.(path := c.path + "#json", underJson := true, depth := c.depth + 1)
  }

  // ---------------------------------------------------------------------------
  // The walk without the cap
  // ---------------------------------------------------------------------------

  function Bare(path: string, typ: string): Leaf {
    Leaf(path, typ, 0, "", "", 0)
  }

  predicate Braced(t: string) {
    |t| >= 2 && ((t[0] == '{' && t[|t| - 1] == '}') || (t[0] == '[' && t[|t| - 1] == ']'))
  }

  // The JSON inside a string, looked for once only.
  function Inside(env: Env, s: string, c: At): Option<Json> {
    if !c.underJson && Braced(env.trim(s)) then env.parse(env.trim(s)) else None
  }

  function StringLeaf(env: Env, s: string, c: At): Leaf {
    var isEnum := !c.underJson && !c.underData && !Contains(c.path, "content[].input")
                  && LastSegment(c) in env.enumNames && env.enumValue(s);
    if isEnum then Leaf(c.path, "string", 0, "", s, 0)
    else Leaf(c.path, "string", |s|, env.hash(s), "", 0)
  }

  function Width(v: Json): nat {
    match v
    case Arr(items) => |items|
    case Obj(fields) => |fields|
    case _ => 0
  }

  function Leaves(env: Env, v: Json, c: At): (ls: seq<Leaf>)
    ensures |ls| >= 1
    decreases if c.underJson then 0 else 1, v, Width(v) + 1
  {
    if c.depth > MAX_DEPTH then [Bare(JoinPath(c.path, "{cut}"), "cut")]
    else
      match v
      case Obj(fields) => if fields == [] then [Bare(c.path, "object")] else FieldLeaves(env, v, 0, c)
      case Arr(items) => if items == [] then [Bare(c.path, "array")] else ItemLeaves(env, v, 0, c)
      case Str(s) =>
        if Inside(env, s, c).Some? then Leaves(env, Inside(env, s, c).value, InString(c)) else [StringLeaf(env, s, c)]
      case Num(_) => [Bare(c.path, "number")]
      case Bool(_) => [Bare(c.path, "boolean")]
      case Null => [Bare(c.path, "null")]
  }

  function FieldLeaves(env: Env, v: Json, i: nat, c: At): (ls: seq<Leaf>)
    requires v.Obj? && i <= |v.fields|
    ensures i < |v.fields| ==> |ls| >= 1
    decreases if c.underJson then 0 else 1, v, Width(v) - i
  {
    if i == |v.fields| then []
    else
      var (k, child) := v.fields[i];
      Leaves(env, child, InField(env, k, |v.fields|, c)) + FieldLeaves(env, v, i + 1, c)
  }

  function ItemLeaves(env: Env, v: Json, i: nat, c: At): (ls: seq<Leaf>)
    requires v.Arr? && i <= |v.items|
    ensures i < |v.items| ==> |ls| >= 1
    decreases if c.underJson then 0 else 1, v, Width(v) - i
  {
    if i == |v.items| then []
    else Leaves(env, v.items[i], InItem(c)) + ItemLeaves(env, v, i + 1, c)
  }

  // ---------------------------------------------------------------------------
  // The capped walk
  // ---------------------------------------------------------------------------

  const RootCut := Leaf("{cut}", "cut", 0, "", "", 0)

  // The first leaves, and one mark at the root if any was dropped.
  function Capped(all: seq<Leaf>): seq<Leaf> {
    if |all| <= MAX_LEAVES then all else all[..MAX_LEAVES] + [RootCut]
  }

  lemma CappedGrows(all: seq<Leaf>, more: seq<Leaf>)
    ensures |all| < MAX_LEAVES && |more| == 1 ==> Capped(all + more) == Capped(all) + more
    ensures |all| == MAX_LEAVES && more != [] ==> Capped(all + more) == Capped(all) + [RootCut]
    ensures |all| > MAX_LEAVES ==> Capped(all + more) == Capped(all)
    ensures |Capped(all)| == if |all| <= MAX_LEAVES then |all| else MAX_LEAVES + 1
  {
    if |all| >= MAX_LEAVES {
      assert (all + more)[..MAX_LEAVES] == all[..MAX_LEAVES];
    }
  }

  class Buffer {
    var leaves: seq<Leaf>

    constructor ()
      ensures leaves == []
    {
      leaves := [];
    }

    // The walk as the source does it, into a shared list; all is what it would
    // have written without the cap.
    method Walk(env: Env, v: Json, c: At, ghost all: seq<Leaf>)
      requires leaves == Capped(all)
      modifies this
      ensures leaves == Capped(all + Leaves(env, v, c))
      decreases if c.underJson then 0 else 1, v, Width(v) + 1
    {
      hide Capped, Contains, LastSegment, Segment;
      CappedGrows(all, Leaves(env, v, c));
      if |leaves| >= MAX_LEAVES {
        if |leaves| == MAX_LEAVES {
          leaves := leaves + [RootCut];
        }
        return;
      }
      if c.depth > MAX_DEPTH {
        leaves := leaves + [Bare(JoinPath(c.path, "{cut}"), "cut")];
        return;
      }
      match v
      case Obj(fields) =>
        if |fields| == 0 {
          leaves := leaves + [Bare(c.path, "object")];
        } else {
          WalkFields(env, v, c, all);
        }
      case Arr(items) =>
        if |items| == 0 {
          leaves := leaves + [Bare(c.path, "array")];
        } else {
          WalkItems(env, v, c, all);
        }
      case Str(s) =>
        var inside := Inside(env, s, c);
        if inside.Some? {
          Walk(env, inside.value, InString(c), all);
        } else {
          leaves := leaves + [StringLeaf(env, s, c)];
        }
      case Num(_) => leaves := leaves + [Bare(c.path, "number")];
      case Bool(_) => leaves := leaves + [Bare(c.path, "boolean")];
      case Null => leaves := leaves + [Bare(c.path, "null")];
    }

    method WalkFields(env: Env, v: Json, c: At, ghost all: seq<Leaf>)
      requires v.Obj? && leaves == Capped(all)
      modifies this
      ensures leaves == Capped(all + FieldLeaves(env, v, 0, c))
      decreases if c.underJson then 0 else 1, v, Width(v)
    {
      hide Capped, Leaves;
      ghost var done := all;
      for i := 0 to |v.fields|
        invariant leaves == Capped(done)
        invariant done + FieldLeaves(env, v, i, c) == all + FieldLeaves(env, v, 0, c)
      {
        var (k, child) := v.fields[i];
        var d := InField(env, k, |v.fields|, c);
        Walk(env, child, d, done);
        done := done + Leaves(env, child, d);
      }
      assert done + [] == done;
    }

    method WalkItems(env: Env, v: Json, c: At, ghost all: seq<Leaf>)
      requires v.Arr? && leaves == Capped(all)
      modifies this
      ensures leaves == Capped(all + ItemLeaves(env, v, 0, c))
      decreases if c.underJson then 0 else 1, v, Width(v)
    {
      hide Capped, Leaves;
      ghost var done := all;
      for i := 0 to |v.items|
        invariant leaves == Capped(done)
        invariant done + ItemLeaves(env, v, i, c) == all + ItemLeaves(env, v, 0, c)
      {
        Walk(env, v.items[i], InItem(c), done);
        done := done + Leaves(env, v.items[i], InItem(c));
      }
      assert done + [] == done;
    }
  }

  const Root := At("", "", false, false, 0)

  // Main result: the capped walk gives what the uncapped one gives, cut at the cap.
  method ReduceJson(env: Env, v: Json) returns (leaves: seq<Leaf>)
    ensures leaves == Capped(Leaves(env, v, Root))
  {
    var buffer := new Buffer();
    assert Capped([]) == [];
    buffer.Walk(env, v, Root, []);
    assert [] + Leaves(env, v, Root) == Leaves(env, v, Root);
    leaves := buffer.leaves;
  }

  // A cut for depth names a field below the root, so it is no mark of the cap.
  lemma {:induction false} NoRootCut(env: Env, v: Json, c: At)
    requires c.depth > 0 ==> c.path != ""
    ensures RootCut !in Leaves(env, v, c)
    decreases if c.underJson then 0 else 1, v
  {
    if c.depth <= MAX_DEPTH {
      match v
      case Obj(fields) =>
        forall i | 0 <= i < |fields| ensures RootCut !in Leaves(env, fields[i].1, InField(env, fields[i].0, |fields|, c)) {
          NoRootCut(env, fields[i].1, InField(env, fields[i].0, |fields|, c));
        }
        NotInFields(env, v, 0, c);
      case Arr(items) =>
        forall i | 0 <= i < |items| ensures RootCut !in Leaves(env, items[i], InItem(c)) {
          NoRootCut(env, items[i], InItem(c));
        }
        NotInItems(env, v, 0, c);
      case Str(s) =>
        if Inside(env, s, c).Some? {
          NoRootCut(env, Inside(env, s, c).value, InString(c));
        }
      case _ =>
    } else {
      assert |JoinPath(c.path, "{cut}")| > |"{cut}"|;
    }
  }

  lemma {:induction false} NotInFields(env: Env, v: Json, i: nat, c: At)
    requires v.Obj? && i <= |v.fields|
    requires forall k :: 0 <= k < |v.fields| ==> RootCut !in Leaves(env, v.fields[k].1, InField(env, v.fields[k].0, |v.fields|, c))
    ensures RootCut !in FieldLeaves(env, v, i, c)
    decreases |v.fields| - i
  {
    if i < |v.fields| {
      NotInFields(env, v, i + 1, c);
    }
  }

  lemma {:induction false} NotInItems(env: Env, v: Json, i: nat, c: At)
    requires v.Arr? && i <= |v.items|
    requires forall k :: 0 <= k < |v.items| ==> RootCut !in Leaves(env, v.items[k], InItem(c))
    ensures RootCut !in ItemLeaves(env, v, i, c)
    decreases |v.items| - i
  {
    if i < |v.items| {
      NotInItems(env, v, i + 1, c);
    }
  }

  // Main result: the mark is there, once and last, exactly when a leaf was dropped.
  lemma CutExactlyWhenDropped(env: Env, v: Json)
    ensures var all, got := Leaves(env, v, Root), Capped(Leaves(env, v, Root));
      && (RootCut in got <==> |all| > MAX_LEAVES)
      && (|all| <= MAX_LEAVES ==> got == all)
      && (|all| > MAX_LEAVES ==> |got| == MAX_LEAVES + 1 && got[..MAX_LEAVES] == all[..MAX_LEAVES]
                                 && got[MAX_LEAVES] == RootCut && RootCut !in got[..MAX_LEAVES])
  {
    NoRootCut(env, v, Root);
  }

  // ---------------------------------------------------------------------------
  // What a shape does not show
  // ---------------------------------------------------------------------------

  predicate EndsWith(p: string, piece: string) {
    |p| >= |piece| && p[|p| - |piece|..] == piece
  }

  // p goes on from base by pieces that name no key.
  predicate MaskedFrom(base: string, p: string)
    decreases |p|
  {
    || p == base
    || (EndsWith(p, ".{*}") && MaskedFrom(base, p[..|p| - 4]))
    || (EndsWith(p, "[]") && MaskedFrom(base, p[..|p| - 2]))
    || (EndsWith(p, "#json") && MaskedFrom(base, p[..|p| - 5]))
    || (EndsWith(p, ".{cut}") && MaskedFrom(base, p[..|p| - 6]))
  }

  lemma {:induction false} MaskedOn(a: string, b: string, c: string)
    requires MaskedFrom(a, b) && MaskedFrom(b, c)
    ensures MaskedFrom(a, c)
    decreases |c|
  {
    if c != b {
      if EndsWith(c, ".{*}") && MaskedFrom(b, c[..|c| - 4]) {
        MaskedOn(a, b, c[..|c| - 4]);
      } else if EndsWith(c, "[]") && MaskedFrom(b, c[..|c| - 2]) {
        MaskedOn(a, b, c[..|c| - 2]);
      } else if EndsWith(c, "#json") && MaskedFrom(b, c[..|c| - 5]) {
        MaskedOn(a, b, c[..|c| - 5]);
      } else {
        MaskedOn(a, b, c[..|c| - 6]);
      }
    }
  }

  lemma MaskedPieces(p: string)
    ensures MaskedFrom(p, p)
    ensures MaskedFrom(p, p + ".{*}") && MaskedFrom(p, p + "[]") && MaskedFrom(p, p + "#json") && MaskedFrom(p, p + ".{cut}")
  {
    assert (p + ".{*}")[..|p|] == p && (p + "[]")[..|p|] == p && (p + "#json")[..|p|] == p && (p + ".{cut}")[..|p|] == p;
  }

  // Inside a user's data, or inside JSON in a string.
  predicate Private(c: At) {
    (c.underJson || c.underData) && c.path != ""
  }

  predicate Hides(c: At, l: Leaf) {
    MaskedFrom(c.path, l.path) && l.enum == ""
  }

  lemma HidesOn(c: At, d: At, ls: seq<Leaf>)
    requires MaskedFrom(c.path, d.path) && forall l <- ls :: Hides(d, l)
    ensures forall l <- ls :: Hides(c, l)
  {
    forall l | l in ls ensures Hides(c, l) {
      MaskedOn(c.path, d.path, l.path);
    }
  }

  // Main result: below a user's data no leaf shows a key or a value, at any depth.
  lemma {:induction false} PrivateIsHidden(env: Env, v: Json, c: At)
    requires Private(c)
    ensures forall l <- Leaves(env, v, c) :: Hides(c, l)
    decreases if c.underJson then 0 else 1, v, Width(v) + 1
  {
    hide MaskedFrom, Contains, LastSegment;
    MaskedPieces(c.path);
    assert c.path + "." + "{cut}" == c.path + ".{cut}";
    if c.depth <= MAX_DEPTH {
      match v
      case Obj(fields) => if fields != [] { FieldsAreHidden(env, v, 0, c); }
      case Arr(items) => if items != [] { ItemsAreHidden(env, v, 0, c); }
      case Str(s) =>
        if Inside(env, s, c).Some? {
          PrivateIsHidden(env, Inside(env, s, c).value, InString(c));
          HidesOn(c, InString(c), Leaves(env, Inside(env, s, c).value, InString(c)));
        }
      case _ =>
    }
  }

  lemma {:induction false} FieldsAreHidden(env: Env, v: Json, i: nat, c: At)
    requires Private(c) && v.Obj? && i <= |v.fields|
    ensures forall l <- FieldLeaves(env, v, i, c) :: Hides(c, l)
    decreases if c.underJson then 0 else 1, v, Width(v) - i
  {
    hide MaskedFrom, Hides, Leaves;
    if i < |v.fields| {
      var (k, child) := v.fields[i];
      var d := InField(env, k, |v.fields|, c);
      FieldIsMasked(env, k, |v.fields|, c);
      PrivateIsHidden(env, child, d);
      HidesOn(c, d, Leaves(env, child, d));
      FieldsAreHidden(env, v, i + 1, c);
    }
  }

  lemma FieldIsMasked(env: Env, k: string, width: nat, c: At)
    requires Private(c)
    ensures Private(InField(env, k, width, c)) && MaskedFrom(c.path, InField(env, k, width, c).path)
  {
    hide MaskedFrom;
    MaskedPieces(c.path);
    assert Segment(env, k, width, c) == "{*}";
    assert c.path + "." + "{*}" == c.path + ".{*}";
  }

  lemma {:induction false} ItemsAreHidden(env: Env, v: Json, i: nat, c: At)
    requires Private(c) && v.Arr? && i <= |v.items|
    ensures forall l <- ItemLeaves(env, v, i, c) :: Hides(c, l)
    decreases if c.underJson then 0 else 1, v, Width(v) - i
  {
    hide MaskedFrom, Hides, Leaves;
    if i < |v.items| {
      MaskedPieces(c.path);
      PrivateIsHidden(env, v.items[i], InItem(c));
      HidesOn(c, InItem(c), Leaves(env, v.items[i], InItem(c)));
      ItemsAreHidden(env, v, i + 1, c);
    }
  }
}
