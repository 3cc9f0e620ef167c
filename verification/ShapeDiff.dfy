/**
 The diff of two shape records: which input leaves have a counterpart in the
 output. Five rules run one after another, from the strictest, and each leaf is
 matched at most once.
 */
module ShapeDiff {
  import opened Text

  // ---------------------------------------------------------------------------
  // Paths with one renamed segment
  // ---------------------------------------------------------------------------

  type Path = seq<string>

  // a and b share a start P and an end S; between them a has x and b has M.
  predicate OneRename(a: Path, b: Path, P: Path, x: string, M: Path, S: Path) {
    && a == P + [x] + S && b == P + M + S
    && 1 <= |M| <= 2 && x != M[0] && x != M[|M| - 1]
    && |S| >= 1 && (|P| >= 1 || |S| >= 2)
  }

  ghost predicate Renamed(a: Path, b: Path) {
    exists P, x, M, S :: OneRename(a, b, P, x, M, S)
  }

  predicate SameAt(a: Path, b: Path, i: nat) {
    i < |a| && i < |b| && a[i] == b[i]
  }

  predicate SameFromEnd(a: Path, b: Path, i: nat) {
    i < |a| && i < |b| && a[|a| - 1 - i] == b[|b| - 1 - i]
  }

  // p and s are where the greedy loops may stop.
  predicate Greedy(a: Path, b: Path, p: nat, s: nat) {
    && (forall i :: 0 <= i < p ==> SameAt(a, b, i)) && !SameAt(a, b, p)
    && (forall i :: 0 <= i < s ==> SameFromEnd(a, b, i))
    && p <= |a| && p <= |b| && s <= |a| - p && s <= |b| - p
    && (s < |a| - p && s < |b| - p ==> !SameFromEnd(a, b, s))
  }

  // The two paths agree up to x and M, and again behind them, and no further.
  lemma OneRenameParts(a: Path, b: Path, P: Path, x: string, M: Path, S: Path)
    requires OneRename(a, b, P, x, M, S)
    ensures |a| == |P| + 1 + |S| && |b| == |P| + |M| + |S|
    ensures forall i :: 0 <= i < |P| ==> SameAt(a, b, i)
    ensures !SameAt(a, b, |P|)
    ensures forall i :: 0 <= i < |S| ==> SameFromEnd(a, b, i)
    ensures !SameFromEnd(a, b, |S|)
  {
    forall i | 0 <= i < |S| ensures SameFromEnd(a, b, i) {
      assert a[|a| - 1 - i] == S[|S| - 1 - i];
      assert b[|b| - 1 - i] == S[|S| - 1 - i];
    }
    assert b[|b| - 1 - |S|] == M[|M| - 1];
  }

  lemma OneRenameSlices(a: Path, b: Path, P: Path, x: string, M: Path, S: Path)
    requires OneRename(a, b, P, x, M, S)
    ensures P == a[..|P|] && x == a[|P|] && S == a[|P| + 1..] && M == b[|P|..|b| - |S|]
    ensures |a| == |P| + 1 + |S| && 1 <= |M| <= 2 && |S| >= 1 && (|P| >= 1 || |S| >= 2)
  {
  }

  // The parts are determined by the two paths.
  lemma OneRenameIsUnique(a: Path, b: Path, P: Path, x: string, M: Path, S: Path, P': Path, x': string, M': Path, S': Path)
    requires OneRename(a, b, P, x, M, S) && OneRename(a, b, P', x', M', S')
    ensures P == P' && x == x' && M == M' && S == S'
  {
    hide OneRename, SameAt, SameFromEnd;
    OneRenameParts(a, b, P, x, M, S);
    OneRenameParts(a, b, P', x', M', S');
    OneRenameSlices(a, b, P, x, M, S);
    OneRenameSlices(a, b, P', x', M', S');
  }

  // Where greedy loops stop, if there is a decomposition.
  lemma GreedyFinds(a: Path, b: Path, P: Path, x: string, M: Path, S: Path, p: nat, s: nat)
    requires OneRename(a, b, P, x, M, S) && Greedy(a, b, p, s)
    ensures p == |P| && s == |S| && |a| == p + 1 + s && 1 <= |b| - p - s <= 2 && s >= 1 && (p >= 1 || s >= 2)
  {
    hide OneRename, SameAt, SameFromEnd;
    OneRenameParts(a, b, P, x, M, S);
    OneRenameSlices(a, b, P, x, M, S);
  }

  lemma CommonSlices(a: Path, b: Path, p: nat, s: nat)
    requires Greedy(a, b, p, s)
    ensures a[..p] == b[..p] && a[|a| - s..] == b[|b| - s..]
  {
    forall i | 0 <= i < p ensures a[..p][i] == b[..p][i] {
      assert SameAt(a, b, i);
    }
    var x, y := a[|a| - s..], b[|b| - s..];
    forall i | 0 <= i < s ensures x[i] == y[i] {
      assert SameFromEnd(a, b, s - 1 - i);
    }
  }

  // And if they stop with one segment against one or two, there is one.
  lemma GreedyFound(a: Path, b: Path, p: nat, s: nat)
    requires Greedy(a, b, p, s)
    requires s >= 1 && (p >= 1 || s >= 2) && |a| - p - s == 1 && 1 <= |b| - p - s <= 2
    ensures Renamed(a, b)
  {
    CommonSlices(a, b, p, s);
    var x, M := a[p], b[p..|b| - s];
    assert x != M[0] by { assert !SameAt(a, b, p); }
    assert x != M[|M| - 1] by { assert !SameFromEnd(a, b, s); }
    hide SameAt, SameFromEnd, Greedy;
    assert a == a[..p] + [x] + a[|a| - s..];
    assert b == a[..p] + M + a[|a| - s..];
    assert OneRename(a, b, a[..p], x, M, a[|a| - s..]);
  }

  // As long a common start as there is, then as long a common end as is left.
  method CommonEnds(a: Path, b: Path) returns (p: nat, s: nat)
    ensures Greedy(a, b, p, s)
  {
    p := 0;
    while p < |a| && p < |b| && a[p] == b[p]
      invariant p <= |a| && p <= |b| && forall i :: 0 <= i < p ==> SameAt(a, b, i)
    {
      p := p + 1;
    }
    s := 0;
    while s < |a| - p && s < |b| - p && a[|a| - 1 - s] == b[|b| - 1 - s]
      invariant s <= |a| - p && s <= |b| - p
      invariant forall i :: 0 <= i < s ==> SameFromEnd(a, b, i)
    {
      s := s + 1;
    }
  }

  method RenamedSegment(input: string, output: string) returns (yes: bool)
    ensures yes <==> Renamed(Split(input, '.'), Split(output, '.'))
  {
    hide OneRename, Renamed, Split, Join;
    var a, b := Split(input, '.'), Split(output, '.');
    var p, s := CommonEnds(a, b);
    var midIn, midOut := |a| - p - s, |b| - p - s;
    yes := s >= 1 && (p >= 1 || s >= 2) && midIn == 1 && midOut >= 1 && midOut <= 2;
    GreedyDecides(a, b, p, s);
  }

  lemma GreedyDecides(a: Path, b: Path, p: nat, s: nat)
    requires Greedy(a, b, p, s)
    ensures Renamed(a, b) <==> s >= 1 && (p >= 1 || s >= 2) && |a| - p - s == 1 && 1 <= |b| - p - s <= 2
  {
    hide OneRename, Greedy;
    if Renamed(a, b) {
      var P, x, M, S :| OneRename(a, b, P, x, M, S);
      GreedyFinds(a, b, P, x, M, S, p, s);
    }
    if s >= 1 && (p >= 1 || s >= 2) && |a| - p - s == 1 && 1 <= |b| - p - s <= 2 {
      GreedyFound(a, b, p, s);
    }
  }

  // ---------------------------------------------------------------------------
  // Cut fields
  // ---------------------------------------------------------------------------

  // The output was cut at this field or above it, under its name or one renamed segment.
  ghost predicate CutAtSegments(segs: Path, cut: string) {
    || cut == ""
    || exists k :: 1 <= k <= |segs| && (segs[..k] == Split(cut, '.') || Renamed(segs[..k], Split(cut, '.')))
  }

  ghost predicate CutAnywhere(path: string, cuts: seq<string>) {
    exists c <- cuts :: CutAtSegments(Split(path, '.'), c)
  }

  // The loop compares joined strings; on whole segments that is the same.
  method CutAt(path: string, cuts: seq<string>) returns (yes: bool)
    ensures yes <==> CutAnywhere(path, cuts)
  {
    var segs := Split(path, '.');
    for i := 0 to |cuts|
      invariant forall c <- cuts[..i] :: !CutAtSegments(segs, c)
    {
      var c := cuts[i];
      if c == "" {
        assert CutAtSegments(segs, c) && c in cuts;
        return true;
      }
      for k := 1 to |segs| + 1
        invariant forall n :: 1 <= n < k ==> segs[..n] != Split(c, '.') && !Renamed(segs[..n], Split(c, '.'))
      {
        var prefix := Join(segs[..k], '.');
        forall p | p in segs[..k] ensures '.' !in p {
          assert p in segs;
        }
        SplitJoin(segs[..k], '.');
        var renamed := RenamedSegment(prefix, c);
        if prefix == c || renamed {
          assert CutAtSegments(segs, c) && c in cuts;
          return true;
        }
      }
      assert cuts[..i + 1] == cuts[..i] + [c];
    }
    assert cuts[..|cuts|] == cuts;
    return false;
  }

  // ---------------------------------------------------------------------------
  // The five rules
  // ---------------------------------------------------------------------------

  datatype Leaf = Leaf(path: string, typ: string, len: int, hash: string, enum: string)

  const RULES := 5

  // A null output never stands for a value, and an enum must match its enum.
  predicate SameValue(a: Leaf, b: Leaf) {
    && (b.typ == "null" ==> a.typ == "null")
    && a.enum == b.enum
  }

  ghost predicate Rule(k: nat, maps: map<string, string>, a: Leaf, b: Leaf) {
    match k
    case 0 => b.path == a.path && SameValue(a, b)
    case 1 => a.path in maps && b.path == maps[a.path] && SameValue(a, b)
    case 2 => a.len >= 8 && a.hash != "" && b.len >= 8 && b.hash == a.hash
    case 3 => a.typ == b.typ && SameValue(a, b) && Renamed(Split(a.path, '.'), Split(b.path, '.'))
    case 4 => a.enum != "" && b.enum == a.enum
    case _ => false
  }

  method Fits(k: nat, maps: map<string, string>, a: Leaf, b: Leaf) returns (yes: bool)
    ensures yes <==> Rule(k, maps, a, b)
  {
    match k
    case 0 => return b.path == a.path && SameValue(a, b);
    case 1 => return a.path in maps && b.path == maps[a.path] && SameValue(a, b);
    case 2 => return a.len >= 8 && a.hash != "" && b.len >= 8 && b.hash == a.hash;
    case 3 =>
      var renamed := RenamedSegment(a.path, b.path);
      return a.typ == b.typ && SameValue(a, b) && renamed;
    case 4 => return a.enum != "" && b.enum == a.enum;
    case _ => return false;
  }

  // ---------------------------------------------------------------------------
  // Matchings
  // ---------------------------------------------------------------------------

  // Which output an input got, which input an output went to, and in which pass.
  datatype Matching = Matching(to: map<nat, nat>, src: map<nat, nat>, pass: map<nat, nat>)

  // The problem: the leaves on both sides, and the approved mappings.
  datatype Sides = Sides(ins: seq<Leaf>, outs: seq<Leaf>, maps: map<string, string>)

  ghost predicate Fit(d: Sides, k: nat, i: nat, j: nat)
    requires i < |d.ins| && j < |d.outs|
  {
    Rule(k, d.maps, d.ins[i], d.outs[j])
  }

  predicate OneToOne(d: Sides, m: Matching) {
    && m.pass.Keys == m.to.Keys
    && (forall i <- m.to :: i < |d.ins| && m.to[i] in m.src && m.src[m.to[i]] == i)
    && (forall j <- m.src :: j < |d.outs| && m.src[j] in m.to && m.to[m.src[j]] == j)
  }

  ghost predicate Sound(d: Sides, m: Matching)
    requires OneToOne(d, m)
  {
    forall i <- m.to :: m.pass[i] < RULES && Fit(d, m.pass[i], i, m.to[i])
  }

  // Input i2 got its output before the turn of input i in pass k.
  predicate Before(m: Matching, i2: nat, k: nat, i: nat)
    requires i2 in m.pass
  {
    m.pass[i2] < k || (m.pass[i2] == k && i2 < i)
  }

  predicate TakenBefore(d: Sides, m: Matching, j: nat, k: nat, i: nat)
    requires OneToOne(d, m)
  {
    j in m.src && Before(m, m.src[j], k, i)
  }

  // An input takes the first output its rule allows that is free at its turn.
  ghost predicate FirstFree(d: Sides, m: Matching)
    requires OneToOne(d, m)
  {
    forall i, j | i in m.to && 0 <= j < m.to[i] && Fit(d, m.pass[i], i, j) :: TakenBefore(d, m, j, m.pass[i], i)
  }

  // After its turn in pass k, an input has an output, or every output the rule
  // allows it was taken before that turn.
  ghost predicate TurnOver(d: Sides, m: Matching, k: nat, i: nat)
    requires OneToOne(d, m) && i < |d.ins|
  {
    (i in m.to && m.pass[i] <= k) || forall j: nat | j < |d.outs| && Fit(d, k, i, j) :: TakenBefore(d, m, j, k, i)
  }

  ghost predicate Proper(d: Sides, m: Matching) {
    OneToOne(d, m) && Sound(d, m) && FirstFree(d, m)
  }

  // Everything up to the turn of input n in pass k is over, nothing later was done.
  ghost predicate UpToTurn(d: Sides, m: Matching, k: nat, n: nat)
    requires OneToOne(d, m)
  {
    && (forall i <- m.to :: Before(m, i, k, n))
    && (forall r: nat, i: nat | i < |d.ins| && (r < k || (r == k && i < n)) :: TurnOver(d, m, r, i))
  }

  ghost predicate Complete(d: Sides, m: Matching) {
    && Proper(d, m)
    && forall r: nat, i: nat | r < RULES && i < |d.ins| :: TurnOver(d, m, r, i)
  }

  function Add(m: Matching, i: nat, j: nat, k: nat): Matching {
    Matching(m.to[i := j], m.src[j := i], m.pass[i := k])
  }

  // Main result: nothing that is left over on both sides fits by any rule.
  lemma NothingFitsIsLeft(d: Sides, m: Matching, i: nat, j: nat, r: nat)
    requires Complete(d, m)
    requires i < |d.ins| && i !in m.to && j < |d.outs| && j !in m.src
    ensures !Rule(r, d.maps, d.ins[i], d.outs[j])
  {
    if r < RULES {
      assert TurnOver(d, m, r, i);
      assert Fit(d, r, i, j) == Rule(r, d.maps, d.ins[i], d.outs[j]);
    }
  }

  // Main result: an input matched by a rule, or by none, had every output of a
  // stricter rule taken by then, in a pass no later than that rule.
  lemma StricterRulesFirst(d: Sides, m: Matching, i: nat, r: nat, j: nat)
    requires Complete(d, m)
    requires i < |d.ins| && r < RULES && (i in m.to ==> r < m.pass[i])
    requires j < |d.outs| && Rule(r, d.maps, d.ins[i], d.outs[j])
    ensures j in m.src && m.src[j] != i && m.pass[m.src[j]] <= r
  {
    assert TurnOver(d, m, r, i);
    assert Fit(d, r, i, j);
  }

  // Main result: these properties leave one matching only.
  lemma OnlyOneMatching(d: Sides, m: Matching, m': Matching)
    requires Complete(d, m) && Complete(d, m')
    ensures m == m'
  {
    forall i: nat, k: nat ensures SameTurn(m, m', k, i) {
      SameAtTurn(d, m, m', k, i);
    }
    forall i ensures i in m.to <==> i in m'.to {
      if i in m.to {
        assert SameTurn(m, m', m.pass[i], i);
      }
      if i in m'.to {
        assert SameTurn(m, m', m'.pass[i], i);
      }
    }
    forall i | i in m.to ensures m.to[i] == m'.to[i] && m.pass[i] == m'.pass[i] {
      assert SameTurn(m, m', m.pass[i], i);
    }
    assert m.to == m'.to && m.pass == m'.pass;
    forall j ensures j in m.src <==> j in m'.src {
      assert j in m.src ==> m'.to[m.src[j]] == j;
      assert j in m'.src ==> m.to[m'.src[j]] == j;
    }
    forall j | j in m.src ensures m.src[j] == m'.src[j] {
      assert m'.to[m.src[j]] == j;
    }
    assert m.src == m'.src;
  }

  // In pass k, at the turn of input i, both matchings did the same.
  predicate SameTurn(m: Matching, m': Matching, k: nat, i: nat) {
    && ((i in m.to && i in m.pass && m.pass[i] == k) <==> (i in m'.to && i in m'.pass && m'.pass[i] == k))
    && (i in m.to && i in m.pass && m.pass[i] == k ==> m.to[i] == m'.to[i])
  }

  ghost predicate SameUntil(m: Matching, m': Matching, k: nat, i: nat) {
    forall r: nat, n: nat | r < k || (r == k && n < i) :: SameTurn(m, m', r, n)
  }

  lemma {:induction false} SameAtTurn(d: Sides, m: Matching, m': Matching, k: nat, i: nat)
    requires Complete(d, m) && Complete(d, m')
    ensures SameTurn(m, m', k, i)
    decreases k, i
  {
    CompleteIsOneToOne(d, m);
    CompleteIsOneToOne(d, m');
    hide Complete;
    forall r: nat, n: nat | r < k || (r == k && n < i) ensures SameTurn(m, m', r, n) && SameTurn(m', m, r, n) {
      SameAtTurn(d, m, m', r, n);
    }
    if i in m.to && i in m.pass && m.pass[i] == k {
      SameStep(d, m, m', k, i);
    }
    if i in m'.to && i in m'.pass && m'.pass[i] == k {
      SameStep(d, m', m, k, i);
    }
  }

  lemma CompleteIsOneToOne(d: Sides, m: Matching)
    requires Complete(d, m)
    ensures OneToOne(d, m)
  {
  }

  // What was taken before a turn is the same in both.
  lemma TakenAlike(d: Sides, m: Matching, m': Matching, k: nat, i: nat, j: nat)
    requires OneToOne(d, m) && OneToOne(d, m') && SameUntil(m, m', k, i)
    ensures TakenBefore(d, m, j, k, i) == TakenBefore(d, m', j, k, i)
  {
    if TakenBefore(d, m, j, k, i) {
      assert SameTurn(m, m', m.pass[m.src[j]], m.src[j]);
    }
    if TakenBefore(d, m', j, k, i) {
      assert SameTurn(m, m', m'.pass[m'.src[j]], m'.src[j]);
    }
  }

  lemma SameStep(d: Sides, m: Matching, m': Matching, k: nat, i: nat)
    requires Complete(d, m) && Complete(d, m') && SameUntil(m, m', k, i)
    requires i in m.to && m.pass[i] == k
    ensures i in m'.to && m'.pass[i] == k && m'.to[i] == m.to[i]
  {
    var j := m.to[i];
    assert Fit(d, k, i, j);
    assert TurnOver(d, m', k, i);
    TakenAlike(d, m, m', k, i, j);
    if k > 0 {
      var r := if i in m'.to && m'.pass[i] < k then m'.pass[i] else 0;
      assert SameTurn(m, m', r, i);
    }
    assert i in m'.to && m'.pass[i] == k;
    TakenAlike(d, m, m', k, i, m'.to[i]);
    assert Fit(d, k, i, m'.to[i]);
  }

  // ---------------------------------------------------------------------------
  // The passes
  // ---------------------------------------------------------------------------

  // The marks the loops keep say who is matched.
  predicate Marks(d: Sides, m: Matching, inMatched: seq<bool>, outMatched: seq<bool>) {
    && |inMatched| == |d.ins| && |outMatched| == |d.outs|
    && (forall i :: 0 <= i < |inMatched| ==> (inMatched[i] <==> i in m.to))
    && (forall j :: 0 <= j < |outMatched| ==> (outMatched[j] <==> j in m.src))
  }

  // Adding a pair to a matching; what was taken before stays taken.
  predicate Addable(d: Sides, m: Matching, k: nat, i: nat, j: nat) {
    OneToOne(d, m) && k < RULES && i < |d.ins| && i !in m.to && j < |d.outs| && j !in m.src
  }

  lemma AddStays(d: Sides, m: Matching, k: nat, i: nat, j: nat)
    requires Addable(d, m, k, i, j)
    ensures OneToOne(d, Add(m, i, j, k))
    ensures forall j2: nat, r: nat, n: nat :: TakenBefore(d, m, j2, r, n) ==> TakenBefore(d, Add(m, i, j, k), j2, r, n)
  {
  }

  lemma AddKeepsTurns(d: Sides, m: Matching, k: nat, i: nat, j: nat)
    requires Addable(d, m, k, i, j) && UpToTurn(d, m, k, i)
    ensures OneToOne(d, Add(m, i, j, k)) && UpToTurn(d, Add(m, i, j, k), k, i + 1)
  {
    hide Fit, TakenBefore;
    AddStays(d, m, k, i, j);
    var a := Add(m, i, j, k);
    forall r: nat, n: nat | n < |d.ins| && (r < k || (r == k && n < i + 1)) ensures TurnOver(d, a, r, n) {
      if r < k || n < i {
        assert TurnOver(d, m, r, n);
      }
    }
  }

  lemma AddKeeps(d: Sides, m: Matching, k: nat, i: nat, j: nat)
    requires Proper(d, m) && UpToTurn(d, m, k, i) && Addable(d, m, k, i, j) && Fit(d, k, i, j)
    requires forall j2: nat | j2 < j && Fit(d, k, i, j2) :: j2 in m.src
    ensures Proper(d, Add(m, i, j, k)) && UpToTurn(d, Add(m, i, j, k), k, i + 1)
  {
    AddKeepsTurns(d, m, k, i, j);
    forall j2: nat | j2 < j && Fit(d, k, i, j2) ensures TakenBefore(d, m, j2, k, i) {
    }
  }

  lemma MarksAdd(d: Sides, m: Matching, ins: seq<bool>, outs: seq<bool>, k: nat, i: nat, j: nat)
    requires Addable(d, m, k, i, j) && Marks(d, m, ins, outs)
    ensures Marks(d, Add(m, i, j, k), ins[i := true], outs[j := true])
  {
  }

  lemma SkipKeeps(d: Sides, m: Matching, k: nat, i: nat)
    requires Proper(d, m) && UpToTurn(d, m, k, i) && i < |d.ins|
    requires i in m.to || forall j: nat | j < |d.outs| && Fit(d, k, i, j) :: j in m.src
    ensures UpToTurn(d, m, k, i + 1)
  {
    assert TurnOver(d, m, k, i);
  }

  lemma NextPass(d: Sides, m: Matching, k: nat)
    requires OneToOne(d, m) && UpToTurn(d, m, k, |d.ins|)
    ensures UpToTurn(d, m, k + 1, 0)
  {
  }

  // One rule, over every input in order; each takes the first free output it fits.
  method Pass(d: Sides, k: nat, inMatched: array<bool>, outMatched: array<bool>, ghost m0: Matching)
    returns (ghost m: Matching)
    requires inMatched != outMatched && k < RULES
    requires Proper(d, m0) && UpToTurn(d, m0, k, 0) && Marks(d, m0, inMatched[..], outMatched[..])
    modifies inMatched, outMatched
    ensures Proper(d, m) && UpToTurn(d, m, k + 1, 0) && Marks(d, m, inMatched[..], outMatched[..])
  {
    hide Fit, UpToTurn, Sound, FirstFree;
    m := m0;
    for i := 0 to |d.ins|
      invariant Proper(d, m) && UpToTurn(d, m, k, i) && Marks(d, m, inMatched[..], outMatched[..])
    {
      if inMatched[..][i] {
        SkipKeeps(d, m, k, i);
        continue;
      }
      var j := 0;
      var found := false;
      while j < |d.outs|
        invariant j <= |d.outs| && !found && Marks(d, m, inMatched[..], outMatched[..])
        invariant forall j2: nat | j2 < j && Fit(d, k, i, j2) :: j2 in m.src
      {
        FitIsRule(d, k, i, j);
        if !outMatched[..][j] {
          found := Fits(k, d.maps, d.ins[i], d.outs[j]);
          if found {
            break;
          }
        }
        j := j + 1;
      }
      if found {
        AddKeeps(d, m, k, i, j);
        MarksAdd(d, m, inMatched[..], outMatched[..], k, i, j);
        ghost var ins, outs := inMatched[..], outMatched[..];
        m := Add(m, i, j, k);
        inMatched[i], outMatched[j] := true, true;
        assert inMatched[..] == ins[i := true] && outMatched[..] == outs[j := true];
      } else {
        SkipKeeps(d, m, k, i);
      }
    }
    NextPass(d, m, k);
  }

  lemma FitIsRule(d: Sides, k: nat, i: nat, j: nat)
    requires i < |d.ins| && j < |d.outs|
    ensures Fit(d, k, i, j) == Rule(k, d.maps, d.ins[i], d.outs[j])
  {
  }

  // All passes: the marks are those of the one complete matching.
  method Match(d: Sides) returns (inMatched: array<bool>, outMatched: array<bool>, ghost m: Matching)
    ensures fresh(inMatched) && fresh(outMatched)
    ensures Complete(d, m) && Marks(d, m, inMatched[..], outMatched[..])
  {
    assert Proper(d, Matching(map[], map[], map[])) && UpToTurn(d, Matching(map[], map[], map[]), 0, 0);
    hide UpToTurn, Sound, FirstFree;
    inMatched, outMatched := new bool[|d.ins|](_ => false), new bool[|d.outs|](_ => false);
    m := Matching(map[], map[], map[]);
    for k := 0 to RULES
      invariant Proper(d, m) && UpToTurn(d, m, k, 0) && Marks(d, m, inMatched[..], outMatched[..])
    {
      m := Pass(d, k, inMatched, outMatched, m);
    }
    AllPassesOver(d, m);
  }

  lemma AllPassesOver(d: Sides, m: Matching)
    requires Proper(d, m) && UpToTurn(d, m, RULES, 0)
    ensures Complete(d, m)
  {
  }

  // Main result: a record against itself loses nothing. Every leaf finds itself in the first pass.
  lemma {:induction false} SameRecordMatchesItself(d: Sides, m: Matching, i: nat)
    requires Complete(d, m) && d.ins == d.outs && i < |d.ins|
    ensures i in m.to && m.to[i] == i && m.pass[i] == 0
  {
    forall n: nat | n < i ensures n in m.to && m.to[n] == n && m.src[n] == n {
      SameRecordMatchesItself(d, m, n);
    }
    assert TurnOver(d, m, 0, i);
    assert Fit(d, 0, i, i);
    assert i in m.to && m.src[m.to[i]] == i;
  }

  // ---------------------------------------------------------------------------
  // The diff
  // ---------------------------------------------------------------------------

  datatype Record = Record(leaves: seq<Leaf>)

  datatype Mapping = Mapping(inPath: string, outPath: string)

  // The last mapping of a path counts.
  function MapOf(mappings: seq<Mapping>): map<string, string> {
    if mappings == [] then map[]
    else
      var last := mappings[|mappings| - 1];
      MapOf(mappings[..|mappings| - 1])[last.inPath := last.outPath]
  }

  const STATIC_NOISE := ["id", "created", "system_fingerprint", "date", "x-request-id"]

  function NoiseOf(noise: seq<string>, lower: string -> string): set<string> {
    set n <- STATIC_NOISE + noise :: lower(n)
  }

  const CANDIDATES := 200
  const RENAME_OPTIONS := 20

  function AllLeaves(records: seq<Record>): seq<Leaf> {
    if records == [] then [] else records[0].leaves + AllLeaves(records[1..])
  }

  function TrimSuffix(s: string, suffix: string): (t: string)
    ensures s == t || s == t + suffix
  {
    if |s| >= |suffix| && s[|s| - |suffix|..] == suffix then s[..|s| - |suffix|] else s
  }

  function LastSegment(path: string): string {
    var segs := Split(path, '.');
    TrimSuffix(segs[|segs| - 1], "[]")
  }

  predicate Compared(a: Leaf, noise: set<string>, lower: string -> string) {
    a.typ != "cut" && a.typ != "invalid" && lower(LastSegment(a.path)) !in noise
  }

  function Inputs(leaves: seq<Leaf>, noise: set<string>, lower: string -> string): seq<Leaf> {
    if leaves == [] then []
    else
      var a, rest := leaves[|leaves| - 1], Inputs(leaves[..|leaves| - 1], noise, lower);
      if Compared(a, noise, lower) then rest + [a] else rest
  }

  function Outputs(leaves: seq<Leaf>): seq<Leaf> {
    if leaves == [] then []
    else
      var b, rest := leaves[|leaves| - 1], Outputs(leaves[..|leaves| - 1]);
      if b.typ == "cut" then rest else rest + [b]
  }

  function Cuts(leaves: seq<Leaf>): seq<string> {
    if leaves == [] then []
    else
      var b, rest := leaves[|leaves| - 1], Cuts(leaves[..|leaves| - 1]);
      if b.typ == "cut" then rest + [TrimSuffix(TrimSuffix(b.path, "{cut}"), ".")] else rest
  }

  // Its absence proves something.
  ghost predicate Telling(a: Leaf, cuts: seq<string>) {
    a.typ != "array" && a.typ != "object" && a.typ != "null" && !CutAnywhere(a.path, cuts)
  }

  // The first n inputs that got no output and whose absence proves something, in order.
  ghost function Lost(d: Sides, m: Matching, cuts: seq<string>, n: nat): seq<Leaf>
    requires n <= |d.ins|
  {
    if n == 0 then []
    else if n - 1 in m.to || !Telling(d.ins[n - 1], cuts) then Lost(d, m, cuts, n - 1)
    else Lost(d, m, cuts, n - 1) + [d.ins[n - 1]]
  }

  function Spare(d: Sides, m: Matching, n: nat): seq<string>
    requires n <= |d.outs|
  {
    if n == 0 then []
    else if n - 1 in m.src || d.outs[n - 1].path == "" || d.outs[n - 1].typ == "invalid" then Spare(d, m, n - 1)
    else Spare(d, m, n - 1) + [d.outs[n - 1].path]
  }

  function First<T>(s: seq<T>, n: nat): seq<T> {
    if |s| <= n then s else s[..n]
  }

  function SidesOf(input: seq<Record>, output: seq<Record>, mappings: seq<Mapping>, noise: seq<string>, lower: string -> string): Sides {
    Sides(Inputs(AllLeaves(input), NoiseOf(noise, lower), lower), Outputs(AllLeaves(output)), MapOf(mappings))
  }

  // ---------------------------------------------------------------------------
  // What the flattened records and lists hold
  // ---------------------------------------------------------------------------

  // A path is mapped exactly when a mapping names it, to where the last such mapping says.
  lemma {:induction false} MapIs(mappings: seq<Mapping>, path: string)
    ensures path in MapOf(mappings) <==> exists m <- mappings :: m.inPath == path
    ensures forall i :: 0 <= i < |mappings| && mappings[i].inPath == path && (forall k :: i < k < |mappings| ==> mappings[k].inPath != path) ==>
      path in MapOf(mappings) && MapOf(mappings)[path] == mappings[i].outPath
  {
    if mappings != [] {
      var rest := mappings[..|mappings| - 1];
      MapIs(rest, path);
      assert mappings == rest + [mappings[|mappings| - 1]];
    }
  }

  lemma NoiseIs(noise: seq<string>, lower: string -> string, x: string)
    ensures x in NoiseOf(noise, lower) <==>
      || (exists n <- noise :: lower(n) == x)
      || x in {lower("id"), lower("created"), lower("system_fingerprint"), lower("date"), lower("x-request-id")}
  {
    forall n ensures n in STATIC_NOISE + noise <==>
      n in noise || n == "id" || n == "created" || n == "system_fingerprint" || n == "date" || n == "x-request-id"
    {
    }
  }

  // Leaves are flattened record by record, in order.
  lemma {:induction false} AllLeavesBoth(a: seq<Record>, b: seq<Record>, r: Record)
    ensures AllLeaves([]) == [] && AllLeaves([r]) == r.leaves && AllLeaves(a + b) == AllLeaves(a) + AllLeaves(b)
  {
    assert [r][1..] == [] && r.leaves + [] == r.leaves;
    if a == [] {
      assert a + b == b;
    } else {
      assert (a + b)[1..] == a[1..] + b;
      AllLeavesBoth(a[1..], b, r);
    }
  }

  // The last segment is what stands behind the last dot, without one pair of brackets at its end.
  lemma LastSegmentIs(path: string, before: string, tail: string)
    requires '.' !in tail && (path == tail || path == before + "." + tail)
    requires |tail| < 2 || tail[|tail| - 2..] != "[]"
    ensures LastSegment(path) == tail && LastSegment(path + "[]") == tail
  {
    LastOfSplit(path, before, tail);
    var longer := tail + "[]";
    assert path + "[]" == longer || path + "[]" == before + "." + longer;
    LastOfSplit(path + "[]", before, longer);
    hide Split;
    assert longer[|longer| - 2..] == "[]" && longer[..|longer| - 2] == tail;
  }

  lemma LastOfSplit(path: string, before: string, tail: string)
    requires '.' !in tail && (path == tail || path == before + "." + tail)
    ensures var segs := Split(path, '.'); segs[|segs| - 1] == tail
  {
    if path == tail {
      SplitJoin([tail], '.');
    } else {
      var segs := Split(before, '.');
      forall p | p in segs + [tail] ensures '.' !in p {
      }
      JoinMore(segs, tail);
      SplitJoin(segs + [tail], '.');
    }
  }

  lemma {:induction false} JoinMore(parts: seq<string>, tail: string)
    requires |parts| >= 1
    ensures Join(parts + [tail], '.') == Join(parts, '.') + "." + tail
  {
    assert (parts + [tail])[1..] == parts[1..] + [tail];
    if |parts| > 1 {
      JoinMore(parts[1..], tail);
      assert parts[0] + ['.'] + (Join(parts[1..], '.') + "." + tail) == parts[0] + ['.'] + Join(parts[1..], '.') + "." + tail;
    } else {
      assert parts[1..] + [tail] == [tail];
    }
  }

  // Of the input, what is neither a cut nor invalid nor named like noise is compared, in order.
  lemma {:induction false} InputsBoth(a: seq<Leaf>, b: seq<Leaf>, l: Leaf, noise: set<string>, lower: string -> string)
    ensures Inputs([], noise, lower) == []
    ensures Inputs([l], noise, lower) ==
      if l.typ == "cut" || l.typ == "invalid" || lower(LastSegment(l.path)) in noise then [] else [l]
    ensures Inputs(a + b, noise, lower) == Inputs(a, noise, lower) + Inputs(b, noise, lower)
    decreases |b|
  {
    assert [l][..0] == [];
    if b == [] {
      assert a + b == a;
    } else {
      assert (a + b)[..|a + b| - 1] == a + b[..|b| - 1];
      InputsBoth(a, b[..|b| - 1], l, noise, lower);
    }
  }

  // Of the output, cuts are set apart: a cut below a path stands for that path, one at the root for "".
  lemma {:induction false} OutputsBoth(a: seq<Leaf>, b: seq<Leaf>, l: Leaf)
    ensures Outputs([]) == [] && Cuts([]) == []
    ensures Outputs([l]) == (if l.typ == "cut" then [] else [l]) && |Cuts([l])| == (if l.typ == "cut" then 1 else 0)
    ensures Outputs(a + b) == Outputs(a) + Outputs(b) && Cuts(a + b) == Cuts(a) + Cuts(b)
    decreases |b|
  {
    assert [l][..0] == [];
    if b == [] {
      assert a + b == a;
    } else {
      assert (a + b)[..|a + b| - 1] == a + b[..|b| - 1];
      OutputsBoth(a, b[..|b| - 1], l);
    }
  }

  lemma CutParentIs(l: Leaf, base: string)
    requires l.typ == "cut"
    ensures l.path == "{cut}" ==> Cuts([l]) == [""]
    ensures l.path == base + ".{cut}" ==> Cuts([l]) == [base]
  {
    assert [l][..0] == [];
    if l.path == base + ".{cut}" {
      assert l.path[|l.path| - 5..] == "{cut}" && l.path[..|l.path| - 5] == base + ".";
      assert (base + ".")[|base|..] == "." && (base + ".")[..|base|] == base;
    }
    if l.path == "{cut}" {
      assert l.path[0..] == "{cut}" && l.path[..0] == "";
    }
  }

  // A leaf is lost exactly when its input got no output, it is no container and no null, and the output was not
  // cut at it or above it; a path is an option exactly when its output was taken by no input and names something.
  lemma {:induction false} LostExactlyWhen(d: Sides, m: Matching, cuts: seq<string>, n: nat, a: Leaf)
    requires n <= |d.ins|
    ensures a in Lost(d, m, cuts, n) <==>
      && (exists i :: 0 <= i < n && d.ins[i] == a && i !in m.to)
      && a.typ !in {"array", "object", "null"} && !CutAnywhere(a.path, cuts)
    ensures n > 0 ==> Lost(d, m, cuts, n - 1) <= Lost(d, m, cuts, n) && |Lost(d, m, cuts, n)| <= |Lost(d, m, cuts, n - 1)| + 1
  {
    hide CutAnywhere;
    if n > 0 {
      LostExactlyWhen(d, m, cuts, n - 1, a);
    }
  }

  lemma {:induction false} SpareExactlyWhen(d: Sides, m: Matching, n: nat, path: string)
    requires n <= |d.outs|
    ensures path in Spare(d, m, n) <==>
      path != "" && exists j :: 0 <= j < n && d.outs[j].path == path && j !in m.src && d.outs[j].typ != "invalid"
    ensures n > 0 ==> Spare(d, m, n - 1) <= Spare(d, m, n) && |Spare(d, m, n)| <= |Spare(d, m, n - 1)| + 1
  {
    if n > 0 {
      SpareExactlyWhen(d, m, n - 1, path);
    }
  }

  lemma FirstIs<T>(s: seq<T>, n: nat)
    ensures First(s, n) <= s && |First(s, n)| == if |s| < n then |s| else n
  {
  }

  // Main result: the candidates are the first lost leaves of the one complete matching.
  method Diff(input: seq<Record>, output: seq<Record>, mappings: seq<Mapping>, noise: seq<string>, lower: string -> string)
    returns (candidates: seq<Leaf>, options: seq<string>, ghost m: Matching)
    ensures Complete(SidesOf(input, output, mappings, noise, lower), m)
    ensures var d := SidesOf(input, output, mappings, noise, lower);
      forall n | Complete(d, n) ::
        && candidates == First(Lost(d, n, Cuts(AllLeaves(output)), |d.ins|), CANDIDATES)
        && options == First(Spare(d, n, |d.outs|), RENAME_OPTIONS)
  {
    hide Complete, Inputs, Outputs, Cuts, AllLeaves, CutAnywhere;
    var d := SidesOf(input, output, mappings, noise, lower);
    var cuts := Cuts(AllLeaves(output));
    var inMatched, outMatched;
    inMatched, outMatched, m := Match(d);
    candidates := [];
    for i := 0 to |d.ins|
      invariant Marks(d, m, inMatched[..], outMatched[..])
      invariant candidates == First(Lost(d, m, cuts, i), CANDIDATES)
    {
      var a := d.ins[i];
      assert inMatched[..][i] == (i in m.to);
      if inMatched[i] || a.typ == "array" || a.typ == "object" || a.typ == "null" {
        continue;
      }
      var cut := CutAt(a.path, cuts);
      if cut {
        continue;
      }
      if |candidates| < CANDIDATES {
        candidates := candidates + [a];
      }
    }
    options := [];
    for j := 0 to |d.outs|
      invariant Marks(d, m, inMatched[..], outMatched[..])
      invariant options == First(Spare(d, m, j), RENAME_OPTIONS)
      invariant |options| < RENAME_OPTIONS
    {
      assert outMatched[..][j] == (j in m.src);
      if !outMatched[j] && d.outs[j].path != "" && d.outs[j].typ != "invalid" {
        options := options + [d.outs[j].path];
        if |options| >= RENAME_OPTIONS {
          SpareGrows(d, m, j + 1, |d.outs|);
          break;
        }
      }
    }
    forall n | Complete(d, n) ensures n == m {
      OnlyOneMatching(d, n, m);
    }
  }

  lemma {:induction false} SpareGrows(d: Sides, m: Matching, a: nat, b: nat)
    requires a <= b <= |d.outs|
    ensures Spare(d, m, a) <= Spare(d, m, b)
    decreases b
  {
    if a < b {
      SpareGrows(d, m, a, b - 1);
    }
  }

  // A leaf reported lost has no output left that any rule would give it, and
  // every output a rule allows it was taken by another leaf in an earlier or the same pass.
  lemma {:induction false} LostMeans(d: Sides, m: Matching, cuts: seq<string>, n: nat, a: Leaf)
    requires Complete(d, m) && n <= |d.ins| && a in Lost(d, m, cuts, n)
    ensures exists i: nat :: i < n && d.ins[i] == a && i !in m.to
    ensures !CutAnywhere(a.path, cuts)
    ensures forall r: nat, j: nat :: r < RULES && j < |d.outs| && Rule(r, d.maps, a, d.outs[j]) ==>
      j in m.src && m.src[j] in m.pass && m.pass[m.src[j]] <= r
  {
    CompleteIsOneToOne(d, m);
    hide Complete, Rule, CutAnywhere;
    if n - 1 !in m.to && Telling(d.ins[n - 1], cuts) && a == d.ins[n - 1] {
      forall r: nat, j: nat | r < RULES && j < |d.outs| && Rule(r, d.maps, a, d.outs[j])
        ensures j in m.src && m.src[j] in m.pass && m.pass[m.src[j]] <= r
      {
        StricterRulesFirst(d, m, n - 1, r, j);
      }
    } else {
      LostMeans(d, m, cuts, n - 1, a);
    }
  }

  // A record cut at its root proves nothing lost.
  lemma {:induction false} RootCutLosesNothing(d: Sides, m: Matching, cuts: seq<string>, n: nat)
    requires n <= |d.ins| && "" in cuts
    ensures Lost(d, m, cuts, n) == []
  {
    if n > 0 {
      assert CutAtSegments(Split(d.ins[n - 1].path, '.'), "");
      RootCutLosesNothing(d, m, cuts, n - 1);
    }
  }
}
