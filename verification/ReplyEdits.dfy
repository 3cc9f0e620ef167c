/**
 What a reply is edited to, byte by byte: tool names are put back, the first model
 field is given the caller's model, and usage nobody asked for is dropped.
 */
module ReplyEdits {
  import opened Options
  import opened EventStream

  const QUOTE: byte := 34
  const BACKSLASH: byte := 92

  // "model" and "usage", in quotes.
  const MODEL: seq<byte> := [QUOTE, 109, 111, 100, 101, 108, QUOTE]
  const USAGE: seq<byte> := [QUOTE, 117, 115, 97, 103, 101, QUOTE]

  // ---------------------------------------------------------------------------
  // Replacing a text
  // ---------------------------------------------------------------------------

  predicate Occurs(b: seq<byte>, text: seq<byte>, k: nat) {
    k + |text| <= |b| && b[k..k + |text|] == text
  }

  predicate Within(b: seq<byte>, text: seq<byte>) {
    exists k: nat :: k <= |b| && Occurs(b, text, k)
  }

  function ReplaceAll(b: seq<byte>, old_: seq<byte>, new_: seq<byte>): seq<byte> {
    if old_ == [] || |b| < |old_| then b
    else if b[..|old_|] == old_ then new_ + ReplaceAll(b[|old_|..], old_, new_)
    else [b[0]] + ReplaceAll(b[1..], old_, new_)
  }

  function Joined(pieces: seq<seq<byte>>, sep: seq<byte>): seq<byte>
    requires pieces != []
  {
    if |pieces| == 1 then pieces[0] else pieces[0] + sep + Joined(pieces[1..], sep)
  }

  ghost predicate NotIn(piece: seq<byte>, text: seq<byte>) {
    forall k: nat :: k <= |piece| ==> !Occurs(piece, text, k)
  }

  // Behind the piece the text occurs for the first time.
  ghost predicate FirstBehind(piece: seq<byte>, text: seq<byte>) {
    forall k: nat :: k < |piece| ==> !Occurs(piece + text, text, k)
  }

  // The text comes behind each piece but the last, and before that not at all.
  ghost predicate CutBy(pieces: seq<seq<byte>>, text: seq<byte>)
    requires pieces != []
  {
    (forall i :: 0 <= i < |pieces| - 1 ==> FirstBehind(pieces[i], text)) && NotIn(pieces[|pieces| - 1], text)
  }

  // Replacing puts the new text where the pieces met, and leaves the pieces as they are.
  lemma {:induction false} ReplaceAllIs(b: seq<byte>, old_: seq<byte>, new_: seq<byte>) returns (pieces: seq<seq<byte>>)
    requires old_ != []
    ensures pieces != [] && CutBy(pieces, old_)
    ensures b == Joined(pieces, old_) && ReplaceAll(b, old_, new_) == Joined(pieces, new_)
    decreases |b|
  {
    hide CutBy;
    if |b| < |old_| {
      pieces := [b];
      OnePiece(b, old_);
    } else if b[..|old_|] == old_ {
      var rest := ReplaceAllIs(b[|old_|..], old_, new_);
      pieces := [[]] + rest;
      PiecesMore(rest, old_);
      JoinedMore(rest, old_);
      JoinedMore(rest, new_);
      assert b == old_ + b[|old_|..];
    } else {
      var rest := ReplaceAllIs(b[1..], old_, new_);
      pieces := [[b[0]] + rest[0]] + rest[1..];
      FirstLonger(b, rest, old_);
      JoinedFirst(b[0], rest, old_);
      JoinedFirst(b[0], rest, new_);
      assert b == [b[0]] + b[1..];
    }
  }

  lemma OnePiece(b: seq<byte>, text: seq<byte>)
    requires |b| < |text|
    ensures CutBy([b], text)
  {
  }

  lemma PiecesMore(rest: seq<seq<byte>>, text: seq<byte>)
    requires rest != [] && CutBy(rest, text)
    ensures CutBy([[]] + rest, text)
  {
    hide NotIn;
  }

  lemma JoinedMore(rest: seq<seq<byte>>, sep: seq<byte>)
    requires rest != []
    ensures Joined([[]] + rest, sep) == sep + Joined(rest, sep)
  {
    assert ([[]] + rest)[1..] == rest;
    assert [] + sep == sep;
  }

  lemma JoinedFirst(first: byte, rest: seq<seq<byte>>, sep: seq<byte>)
    requires rest != []
    ensures Joined([[first] + rest[0]] + rest[1..], sep) == [first] + Joined(rest, sep)
  {
    var pieces := [[first] + rest[0]] + rest[1..];
    assert pieces[1..] == rest[1..];
    if |rest| > 1 {
      assert [first] + rest[0] + sep + Joined(rest[1..], sep) == [first] + (rest[0] + sep + Joined(rest[1..], sep));
    }
  }

  lemma LongerOccurs(first: byte, b: seq<byte>, text: seq<byte>, k: nat)
    requires text != []
    ensures Occurs([first] + b, text, k) <==>
      if k == 0 then |b| + 1 >= |text| && ([first] + b)[..|text|] == text else Occurs(b, text, k - 1)
  {
    if 0 < k && k + |text| <= |b| + 1 {
      assert ([first] + b)[k..k + |text|] == b[k - 1..k - 1 + |text|];
    }
  }

  lemma FirstLonger(b: seq<byte>, rest: seq<seq<byte>>, text: seq<byte>)
    requires text != [] && |b| >= |text| && b[..|text|] != text
    requires rest != [] && CutBy(rest, text) && b[1..] == Joined(rest, text)
    ensures CutBy([[b[0]] + rest[0]] + rest[1..], text)
  {
    hide FirstBehind, NotIn;
    if |rest| > 1 {
      assert [b[0]] + (rest[0] + text) <= b;
      BehindLonger(b, rest[0], text);
      hide Joined, CutBy;
      CutMore([b[0]] + rest[0], rest, text);
    } else {
      OneLonger(b, rest[0], text);
      hide Joined, CutBy;
      assert [[b[0]] + rest[0]] + rest[1..] == [[b[0]] + rest[0]];
    }
  }

  lemma OneLonger(b: seq<byte>, piece: seq<byte>, text: seq<byte>)
    requires text != [] && |b| >= |text| && b[..|text|] != text && b[1..] == piece && NotIn(piece, text)
    ensures CutBy([[b[0]] + piece], text)
  {
    assert [b[0]] + piece == b;
    NotInLonger(b, text);
    hide NotIn;
  }

  lemma CutMore(first: seq<byte>, rest: seq<seq<byte>>, text: seq<byte>)
    requires |rest| > 1 && CutBy(rest, text) && FirstBehind(first, text)
    ensures CutBy([first] + rest[1..], text)
  {
    hide FirstBehind, NotIn;
    var pieces := [first] + rest[1..];
    assert forall i :: 0 < i < |rest| ==> pieces[i] == rest[i];
  }

  lemma BehindLonger(b: seq<byte>, piece: seq<byte>, text: seq<byte>)
    requires text != [] && |b| >= |text| && b[..|text|] != text
    requires FirstBehind(piece, text) && [b[0]] + (piece + text) <= b
    ensures FirstBehind([b[0]] + piece, text)
  {
    assert [b[0]] + piece + text == [b[0]] + (piece + text);
    forall k: nat | k < |piece| + 1 ensures !Occurs([b[0]] + piece + text, text, k) {
      LongerOccurs(b[0], piece + text, text, k);
    }
  }

  lemma NotInLonger(b: seq<byte>, text: seq<byte>)
    requires text != [] && |b| >= |text| && b[..|text|] != text && NotIn(b[1..], text)
    ensures NotIn(b, text)
  {
    assert b == [b[0]] + b[1..];
    forall k: nat | k <= |b| ensures !Occurs(b, text, k) {
      LongerOccurs(b[0], b[1..], text, k);
    }
  }

  function RenameAll(b: seq<byte>, names: seq<(seq<byte>, seq<byte>)>): seq<byte>
    decreases |names|
  {
    if names == [] then b else RenameAll(ReplaceAll(b, names[0].0, names[0].1), names[1..])
  }

  // The names are replaced one after another.
  lemma {:induction false} RenameAllIs(b: seq<byte>, names: seq<(seq<byte>, seq<byte>)>, more: seq<(seq<byte>, seq<byte>)>, n: (seq<byte>, seq<byte>))
    ensures RenameAll(b, []) == b && RenameAll(b, [n]) == ReplaceAll(b, n.0, n.1)
    ensures RenameAll(b, names + more) == RenameAll(RenameAll(b, names), more)
    decreases |names|
  {
    assert [n][1..] == [];
    if names == [] {
      assert names + more == more;
    } else {
      assert (names + more)[1..] == names[1..] + more;
      RenameAllIs(ReplaceAll(b, names[0].0, names[0].1), names[1..], more, n);
    }
  }

  // ---------------------------------------------------------------------------
  // The first model field: "model", a colon, and a string
  // ---------------------------------------------------------------------------

  predicate Space(b: byte) {
    b == 9 || b == 10 || b == 12 || b == 13 || b == 32
  }

  function SkipSpace(b: seq<byte>, i: nat): (j: nat)
    requires i <= |b|
    ensures i <= j <= |b| && (j < |b| ==> !Space(b[j])) && forall k :: i <= k < j ==> Space(b[k])
    decreases |b| - i
  {
    if i < |b| && Space(b[i]) then SkipSpace(b, i + 1) else i
  }

  // Where a string whose text begins at i ends, behind its closing quote.
  function StringEnd(b: seq<byte>, i: nat): (e: Option<nat>)
    requires i <= |b|
    ensures e.Some? ==> i < e.value <= |b|
    decreases |b| - i
  {
    if i == |b| then None
    else if b[i] == QUOTE then Some(i + 1)
    else if b[i] != BACKSLASH then StringEnd(b, i + 1)
    else if i + 1 < |b| && b[i + 1] != LF then StringEnd(b, i + 2)
    else None
  }

  predicate IsString(b: seq<byte>) {
    |b| >= 2 && b[0] == QUOTE && StringEnd(b, 1) == Some(|b|)
  }

  predicate KeyAt(b: seq<byte>, i: nat) {
    && i + 7 <= |b|
    && b[i] == QUOTE && b[i + 1] == 109 && b[i + 2] == 111 && b[i + 3] == 100 && b[i + 4] == 101 && b[i + 5] == 108 && b[i + 6] == QUOTE
  }

  lemma KeyIsModel(b: seq<byte>, i: nat)
    ensures KeyAt(b, i) <==> Occurs(b, MODEL, i)
  {
    if i + 7 <= |b| {
      assert b[i..i + 7] == [b[i], b[i + 1], b[i + 2], b[i + 3], b[i + 4], b[i + 5], b[i + 6]];
    }
  }

  function ModelEnd(b: seq<byte>, i: nat): (e: Option<nat>)
    ensures e.Some? ==> i + 7 < e.value <= |b|
  {
    if !KeyAt(b, i) then None
    else
      var j := SkipSpace(b, i + 7);
      if j == |b| || b[j] != COLON then None
      else
        var k := SkipSpace(b, j + 1);
        if k == |b| || b[k] != QUOTE then None else StringEnd(b, k + 1)
  }

  // What may stand between the quotes of a string: any byte but a quote or a backslash, and a backslash with any
  // byte but a line feed behind it.
  predicate StringBody(t: seq<byte>) {
    if t == [] then true
    else if t[0] == BACKSLASH then |t| >= 2 && t[1] != LF && StringBody(t[2..])
    else t[0] != QUOTE && StringBody(t[1..])
  }

  lemma {:induction false} StringEndIs(b: seq<byte>, i: nat, e: nat)
    requires i < e <= |b|
    ensures StringEnd(b, i) == Some(e) <==> b[e - 1] == QUOTE && StringBody(b[i..e - 1])
    decreases e - i
  {
    var t := b[i..e - 1];
    if i == e - 1 {
      assert t == [];
    } else {
      assert t[0] == b[i] && t[1..] == b[i + 1..e - 1];
      if b[i] == BACKSLASH && i + 2 < e {
        assert |t| >= 2 ==> t[1] == b[i + 1] && t[2..] == b[i + 2..e - 1];
        if b[i + 1] != LF { StringEndIs(b, i + 2, e); }
      } else if b[i] != BACKSLASH && b[i] != QUOTE {
        StringEndIs(b, i + 1, e);
      }
    }
  }

  predicate AllSpace(b: seq<byte>, i: nat, j: nat) {
    i <= j <= |b| && forall k :: i <= k < j ==> b[k] in {9, 10, 12, 13, 32}
  }

  // "model" in quotes, a colon at j with white space around it, and a string from k to e.
  predicate FieldAt(b: seq<byte>, i: nat, j: nat, k: nat, e: nat) {
    && Occurs(b, MODEL, i) && AllSpace(b, i + |MODEL|, j) && j + 1 <= k && AllSpace(b, j + 1, k) && k + 1 < e <= |b|
    && b[j] == COLON && b[k] == QUOTE && b[e - 1] == QUOTE && StringBody(b[k + 1..e - 1])
  }

  // The model field, said of the bytes.
  lemma ModelEndIs(b: seq<byte>, i: nat, e: nat)
    ensures ModelEnd(b, i) == Some(e) <==> exists j: nat, k: nat :: FieldAt(b, i, j, k, e)
  {
    hide ModelEnd, FieldAt;
    if ModelEnd(b, i) == Some(e) {
      var j, k := FieldThere(b, i, e);
    }
    forall j: nat, k: nat | FieldAt(b, i, j, k, e) ensures ModelEnd(b, i) == Some(e) {
      FieldFound(b, i, j, k, e);
    }
  }

  lemma FieldThere(b: seq<byte>, i: nat, e: nat) returns (j: nat, k: nat)
    requires ModelEnd(b, i) == Some(e)
    ensures FieldAt(b, i, j, k, e)
  {
    KeyIsModel(b, i);
    j := SkipSpace(b, i + 7);
    k := SkipSpace(b, j + 1);
    StringEndIs(b, k + 1, e);
    assert AllSpace(b, i + 7, j) && AllSpace(b, j + 1, k);
    hide Occurs, KeyAt, StringEnd, StringBody, SkipSpace;
  }

  lemma FieldFound(b: seq<byte>, i: nat, j: nat, k: nat, e: nat)
    requires FieldAt(b, i, j, k, e)
    ensures ModelEnd(b, i) == Some(e)
  {
    KeyIsModel(b, i);
    SkipTo(b, i + 7, j);
    SkipTo(b, j + 1, k);
    StringEndIs(b, k + 1, e);
    hide Occurs, KeyAt, StringEnd, StringBody, SkipSpace, AllSpace;
  }

  lemma {:induction false} SkipTo(b: seq<byte>, i: nat, j: nat)
    requires AllSpace(b, i, j) && j < |b| && !Space(b[j])
    ensures SkipSpace(b, i) == j
    decreases j - i
  {
    if i < j { SkipTo(b, i + 1, j); }
  }

  function ModelFrom(b: seq<byte>, i: nat): (m: Option<(nat, nat)>)
    requires i <= |b|
    ensures m.Some? ==> i <= m.value.0 < m.value.1 <= |b| && ModelEnd(b, m.value.0) == Some(m.value.1)
    ensures forall k :: i <= k < (if m.Some? then m.value.0 else |b|) ==> ModelEnd(b, k).None?
    decreases |b| - i
  {
    if i == |b| then None
    else if ModelEnd(b, i).Some? then Some((i, ModelEnd(b, i).value))
    else ModelFrom(b, i + 1)
  }

  lemma {:induction false} ModelFromIs(b: seq<byte>, i: nat, m: nat, e: nat)
    requires i <= m < |b| && ModelEnd(b, m) == Some(e) && forall k :: i <= k < m ==> ModelEnd(b, k).None?
    ensures ModelFrom(b, i) == Some((m, e))
    decreases m - i
  {
    hide ModelEnd;
    if i < m {
      ModelFromIs(b, i + 1, m, e);
    }
  }

  // A string that closes in a text closes there when more follows, and wherever the text stands.
  lemma {:induction false} StringEndIn(b: seq<byte>, at: nat, text: seq<byte>, i: nat)
    requires at + |text| <= |b| && b[at..at + |text|] == text && i <= |text| && StringEnd(text, i).Some?
    ensures StringEnd(b, at + i) == Some(at + StringEnd(text, i).value)
    decreases |text| - i
  {
    assert i < |text| && b[at + i] == text[i];
    if text[i] != QUOTE {
      if text[i] != BACKSLASH {
        StringEndIn(b, at, text, i + 1);
      } else {
        assert b[at + i + 1] == text[i + 1];
        StringEndIn(b, at, text, i + 2);
      }
    }
  }

  // Two texts that are alike up to and with a "model" in quotes.
  predicate AlikeTo(b: seq<byte>, c: seq<byte>, i: nat) {
    KeyAt(b, i) && KeyAt(c, i) && forall k :: 0 <= k < i + 7 ==> b[k] == c[k]
  }

  // The letters between the quotes close no string and escape nothing; a string open before them ends with them.
  lemma {:induction false} SameStringEnd(b: seq<byte>, c: seq<byte>, i: nat, p: nat)
    requires AlikeTo(b, c, i) && p < i + 7
    ensures StringEnd(b, p) == StringEnd(c, p)
    decreases i + 7 - p
  {
    if b[p] == BACKSLASH {
      assert p < i;
      if b[p + 1] != LF { SameStringEnd(b, c, i, p + 2); }
    } else if b[p] != QUOTE {
      SameStringEnd(b, c, i, p + 1);
    }
  }

  lemma {:induction false} SameSkip(b: seq<byte>, c: seq<byte>, i: nat, p: nat)
    requires AlikeTo(b, c, i) && p <= i
    ensures SkipSpace(b, p) == SkipSpace(c, p) <= i
    decreases i - p
  {
    if p < i && Space(b[p]) {
      SameSkip(b, c, i, p + 1);
    }
  }

  lemma SameModelEnd(b: seq<byte>, c: seq<byte>, i: nat, k: nat)
    requires AlikeTo(b, c, i) && k < i
    ensures ModelEnd(b, k) == ModelEnd(c, k)
  {
    if KeyAt(b, k) {
      assert KeyAt(c, k);
      if k + 7 <= i {
        SameSkip(b, c, i, k + 7);
        var j := SkipSpace(b, k + 7);
        if b[j] == COLON {
          SameSkip(b, c, i, j + 1);
          var q := SkipSpace(b, j + 1);
          if b[q] == QUOTE { SameStringEnd(b, c, i, q + 1); }
        }
      } else {
        assert k + 6 == i;
        assert SkipSpace(b, k + 7) == k + 7 && SkipSpace(c, k + 7) == k + 7;
      }
    }
  }

  // ---------------------------------------------------------------------------
  // The edits
  // ---------------------------------------------------------------------------

  // What the caller is shown instead: tool names, the model, and whether usage it
  // did not ask for is dropped.
  datatype Edits = Edits(names: seq<(seq<byte>, seq<byte>)>, model: Option<seq<byte>>, dropUsage: bool)

  // What depends on JSON or on the pattern for a null usage.
  datatype Patterns = Patterns(usageOnly: seq<byte> -> bool, withoutNull: Edit)

  function Field(model: seq<byte>): (f: seq<byte>)
    ensures |f| == |model| + 8
  {
    MODEL + [COLON] + model
  }

  function PutModel(b: seq<byte>, model: seq<byte>): seq<byte> {
    var m := ModelFrom(b, 0);
    if m.None? then b else b[..m.value.0] + Field(model) + b[m.value.1..]
  }

  function SetModel(e: Edits, b: seq<byte>): seq<byte> {
    var c := RenameAll(b, e.names);
    if e.model.None? then c else PutModel(c, e.model.value)
  }

  // One frame; nothing is left of a chunk that carries usage alone.
  function Frame(e: Edits, p: Patterns, f: seq<byte>): seq<byte> {
    if e.dropUsage && Within(f, USAGE) then
      if p.usageOnly(f) then [] else SetModel(e, p.withoutNull(f))
    else SetModel(e, f)
  }

  // A frame is dropped when usage is not asked for and it carries nothing else; a null usage is taken out first;
  // any other frame has its names and its model replaced, and nothing else.
  lemma FrameIs(e: Edits, p: Patterns, f: seq<byte>)
    ensures e.dropUsage && Within(f, USAGE) && p.usageOnly(f) ==> Frame(e, p, f) == []
    ensures !e.dropUsage || !Within(f, USAGE) ==> Frame(e, p, f) == SetModel(e, f)
    ensures e.dropUsage && Within(f, USAGE) && !p.usageOnly(f) ==> Frame(e, p, f) == SetModel(e, p.withoutNull(f))
    ensures e.model.None? ==> SetModel(e, f) == RenameAll(f, e.names)
    ensures Within(f, USAGE) <==> exists k: nat :: Occurs(f, USAGE, k)
  {
  }

  predicate NothingToEdit(e: Edits) {
    e.model.None? && !e.dropUsage && e.names == []
  }

  // Between i and j the bytes of b were replaced.
  predicate Replaced(b: seq<byte>, out: seq<byte>, i: nat, j: nat, by_: seq<byte>) {
    && i <= j <= |b| && i + |by_| <= |out|
    && out[..i] == b[..i] && out[i..i + |by_|] == by_ && out[i + |by_|..] == b[j..]
  }

  // Main result: with a model given, the first model field of what comes out is the caller's, in the place of
  // the first one of what went in, and the bytes around it are as they were.
  lemma ModelIsPut(b: seq<byte>, model: seq<byte>)
    requires IsString(model)
    ensures var m, out := ModelFrom(b, 0), PutModel(b, model);
      if m.None? then out == b
      else ModelFrom(out, 0) == Some((m.value.0, m.value.0 + |Field(model)|)) && Replaced(b, out, m.value.0, m.value.1, Field(model))
  {
    hide ModelFrom, ModelEnd, IsString, PutModel, Replaced, Field;
    var m := ModelFrom(b, 0);
    if m.None? {
      PutNothing(b, model);
    } else {
      PutThere(b, model, m.value.0, m.value.1);
    }
  }

  lemma PutThere(b: seq<byte>, model: seq<byte>, i: nat, j: nat)
    requires IsString(model) && ModelFrom(b, 0) == Some((i, j))
    ensures ModelFrom(PutModel(b, model), 0) == Some((i, i + |Field(model)|))
    ensures Replaced(b, PutModel(b, model), i, j, Field(model))
  {
    hide ModelFrom, ModelEnd, KeyAt, StringEnd, IsString, PutModel, AlikeTo, Replaced, Field;
    PutBytes(b, model, i, j);
    FieldEnds(b, PutModel(b, model), i, j, model);
    NoEarlierModel(b, PutModel(b, model), i);
    ModelFromIs(PutModel(b, model), 0, i, i + |Field(model)|);
  }

  lemma NoEarlierModel(b: seq<byte>, out: seq<byte>, i: nat)
    requires AlikeTo(b, out, i) && forall k :: 0 <= k < i ==> ModelEnd(b, k).None?
    ensures forall k :: 0 <= k < i ==> ModelEnd(out, k).None?
  {
    hide ModelEnd;
    forall k | 0 <= k < i ensures ModelEnd(out, k).None? {
      SameModelEnd(b, out, i, k);
    }
  }

  lemma PutNothing(b: seq<byte>, model: seq<byte>)
    requires ModelFrom(b, 0).None?
    ensures PutModel(b, model) == b
  {
  }

  lemma ThreeParts(a: seq<byte>, b: seq<byte>, c: seq<byte>)
    ensures var out := a + b + c; var e := |a| + |b|;
      && out[..|a|] == a && out[e..] == c && out[|a|..e] == b
      && (forall k :: 0 <= k < |a| ==> out[k] == a[k]) && forall k :: |a| <= k < e ==> out[k] == b[k - |a|]
  {
  }

  lemma PutParts(b: seq<byte>, model: seq<byte>, i: nat, j: nat)
    requires ModelFrom(b, 0) == Some((i, j))
    ensures i <= j <= |b| && PutModel(b, model) == b[..i] + Field(model) + b[j..] && KeyAt(b, i) && Field(model)[..7] == MODEL
  {
  }

  lemma PutBytes(b: seq<byte>, model: seq<byte>, i: nat, j: nat)
    requires ModelFrom(b, 0) == Some((i, j))
    ensures j <= |b| && Replaced(b, PutModel(b, model), i, j, Field(model)) && AlikeTo(b, PutModel(b, model), i)
  {
    hide ModelFrom, ModelEnd, PutModel, KeyAt, AlikeTo, Field;
    PutParts(b, model, i, j);
    var out := b[..i] + Field(model) + b[j..];
    PartsReplaced(b, i, j, Field(model));
    hide Replaced;
    ThreeParts(b[..i], Field(model), b[j..]);
    PutKey(b, Field(model), i, out);
  }

  lemma PartsReplaced(b: seq<byte>, i: nat, j: nat, by_: seq<byte>)
    requires i <= j <= |b|
    ensures Replaced(b, b[..i] + by_ + b[j..], i, j, by_)
  {
    ThreeParts(b[..i], by_, b[j..]);
  }

  lemma PutKey(b: seq<byte>, key: seq<byte>, i: nat, out: seq<byte>)
    requires KeyAt(b, i) && |key| >= 8 && key[..7] == MODEL && i + |key| <= |out|
    requires (forall k :: 0 <= k < i ==> out[k] == b[k]) && forall k :: i <= k < i + |key| ==> out[k] == key[k - i]
    ensures AlikeTo(b, out, i)
  {
    forall k | 0 <= k < 7 ensures out[i + k] == MODEL[k] {
      assert key[k] == key[..7][k];
    }
    assert out[i] == MODEL[0] && out[i + 1] == MODEL[1] && out[i + 2] == MODEL[2] && out[i + 3] == MODEL[3];
    assert out[i + 4] == MODEL[4] && out[i + 5] == MODEL[5] && out[i + 6] == MODEL[6];
  }

  lemma FieldEnds(b: seq<byte>, out: seq<byte>, i: nat, j: nat, model: seq<byte>)
    requires IsString(model) && AlikeTo(b, out, i) && Replaced(b, out, i, j, Field(model))
    ensures ModelEnd(out, i) == Some(i + 8 + |model|)
  {
    var field := Field(model);
    assert out[i + 7] == out[i..i + |field|][7] && out[i + 8] == out[i..i + |field|][8];
    assert out[i + 8..i + 8 + |model|] == out[i..i + |field|][8..] == model;
    hide Replaced;
    assert KeyAt(out, i);
    hide AlikeTo, Field;
    assert SkipSpace(out, i + 7) == i + 7 && SkipSpace(out, i + 8) == i + 8;
    StringEndIn(out, i + 8, model, 1);
  }

  // So no frame shows another model first, one that names none still names none, and setting it again changes nothing.
  lemma FrameShowsModel(e: Edits, p: Patterns, f: seq<byte>)
    requires e.model.Some? && IsString(e.model.value)
    ensures var out := Frame(e, p, f); var m := ModelFrom(out, 0);
      && (m.Some? ==> out[m.value.0..m.value.1] == MODEL + [COLON] + e.model.value)
      && PutModel(out, e.model.value) == out
    ensures var g := if e.dropUsage && Within(f, USAGE) then p.withoutNull(f) else f;
      Frame(e, p, f) != [] ==> (ModelFrom(Frame(e, p, f), 0).None? <==> ModelFrom(RenameAll(g, e.names), 0).None?)
  {
    var g := if e.dropUsage && Within(f, USAGE) then p.withoutNull(f) else f;
    assert Frame(e, p, f) == [] || Frame(e, p, f) == PutModel(RenameAll(g, e.names), e.model.value);
    assert ModelFrom([], 0).None? && PutModel([], e.model.value) == [];
    hide Frame, PutModel, ModelFrom, RenameAll;
    ModelIsPut(RenameAll(g, e.names), e.model.value);
    PutTwice(RenameAll(g, e.names), e.model.value);
  }

  lemma PutTwice(b: seq<byte>, model: seq<byte>)
    requires IsString(model)
    ensures PutModel(PutModel(b, model), model) == PutModel(b, model)
  {
    ModelIsPut(b, model);
    hide ModelFrom, ModelEnd, Field, IsString;
    var out := PutModel(b, model);
    if ModelFrom(b, 0).Some? {
      var (i, e) := ModelFrom(out, 0).value;
      assert out == out[..i] + out[i..e] + out[e..];
    }
  }

  // A whole reply through newReplyEditor, in any chunks.
  method EditReply(chunks: seq<seq<byte>>, encoded: bool, eventStream: bool, e: Edits, p: Patterns)
    returns (written: seq<byte>)
    ensures written == Edited(
      Concat(chunks), if encoded then Off else if eventStream then Stream else Whole,
      f => Frame(e, p, f), b => SetModel(e, b))
  {
    var frame: Edit := f => Frame(e, p, f);
    var setModel: Edit := b => SetModel(e, b);
    if NothingToEdit(e) {
      NothingEdited(Concat(chunks), if encoded then Off else if eventStream then Stream else Whole, frame, setModel);
      return Concat(chunks);
    }
    written := EditInChunks(chunks, encoded, eventStream, frame, setModel);
  }
}
