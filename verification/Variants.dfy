/**
 One model listed once per thinking level: the ids are folded into their base,
 and a request gets the level nearest to the effort it asks for. The groups and
 the choice are computed by walking maps in no fixed order, so what they give must
 not depend on it: an id determines its base and level, and of the levels a model
 has exactly one is nearest.
 */
module Variants {
  import opened Options

  const LEVELS := ["extra-low", "tiered", "medium", "high", "low"]

  // The levels that can be compared.
  function Rank(level: string): Option<nat> {
    if level == "extra-low" then Some(0)
    else if level == "low" then Some(1)
    else if level == "medium" then Some(2)
    else if level == "high" then Some(3)
    else None
  }

  // The ids of one base by level ("" is the base itself), and the default level.
  datatype Group = Group(ids: map<string, string>, def: string)

  // ---------------------------------------------------------------------------
  // Ids
  // ---------------------------------------------------------------------------

  predicate EndsWith(id: string, level: string) {
    |id| > |level| + 1 && id[|id| - |level| - 1..] == "-" + level
  }

  function SplitFrom(id: string, levels: seq<string>): (string, string) {
    if levels == [] then (id, "")
    else if EndsWith(id, levels[0]) then (id[..|id| - |levels[0]| - 1], levels[0])
    else SplitFrom(id, levels[1..])
  }

  // An id without its level; the first suffix that fits counts.
  function SplitVariant(id: string): (string, string) {
    SplitFrom(id, LEVELS)
  }

  function JoinVariant(base: string, level: string): string {
    if level == "" then base else base + "-" + level
  }

  // Base and level name one id.
  lemma SplitJoins(id: string)
    ensures JoinVariant(SplitVariant(id).0, SplitVariant(id).1) == id
    ensures SplitVariant(id).1 == "" || SplitVariant(id).1 in LEVELS
  {
    SplitFromJoins(id, LEVELS);
  }

  lemma {:induction false} SplitFromJoins(id: string, levels: seq<string>)
    requires "" !in levels
    ensures var (base, level) := SplitFrom(id, levels); JoinVariant(base, level) == id && (level == "" || level in levels)
  {
    if levels != [] {
      if EndsWith(id, levels[0]) {
        var n := |id| - |levels[0]| - 1;
        assert id == id[..n] + id[n..];
        assert id[..n] + ("-" + levels[0]) == id[..n] + "-" + levels[0];
        assert levels[0] != "";
      } else {
        SplitFromJoins(id, levels[1..]);
      }
    }
  }

  // The five levels, one after another.
  lemma SplitIs(id: string)
    ensures SplitVariant(id) ==
      if EndsWith(id, "extra-low") then (id[..|id| - 10], "extra-low")
      else if EndsWith(id, "tiered") then (id[..|id| - 7], "tiered")
      else if EndsWith(id, "medium") then (id[..|id| - 7], "medium")
      else if EndsWith(id, "high") then (id[..|id| - 5], "high")
      else if EndsWith(id, "low") then (id[..|id| - 4], "low")
      else (id, "")
  {
    var low := ["low"];
    var high := ["high"] + low;
    var medium := ["medium"] + high;
    var tiered := ["tiered"] + medium;
    assert LEVELS == ["extra-low"] + tiered && low == ["low"] + [];
    SplitStep(id, "extra-low", tiered);
    SplitStep(id, "tiered", medium);
    SplitStep(id, "medium", high);
    SplitStep(id, "high", low);
    SplitStep(id, "low", []);
    hide SplitFrom;
  }

  lemma SplitStep(id: string, level: string, rest: seq<string>)
    ensures SplitFrom(id, [level] + rest) ==
      if EndsWith(id, level) then (id[..|id| - |level| - 1], level) else SplitFrom(id, rest)
    ensures SplitFrom(id, []) == (id, "")
  {
    assert ([level] + rest)[1..] == rest;
  }

  // An id has a level exactly when one of the five stands behind a dash at its end, with something before it.
  lemma HasLevelExactlyWhen(id: string)
    ensures SplitVariant(id).1 != "" <==>
      exists base, level :: base != "" && level in {"extra-low", "tiered", "medium", "high", "low"} && id == base + "-" + level
  {
    SplitJoins(id);
    SplitIs(id);
    hide SplitVariant;
    var (b, l) := SplitVariant(id);
    if l != "" {
      assert b != "" && id == b + "-" + l;
    }
    forall base, level | base != "" && level in {"extra-low", "tiered", "medium", "high", "low"} && id == base + "-" + level
      ensures l != ""
    {
      JoinEnds(base, level);
    }
  }

  lemma JoinEnds(base: string, level: string)
    requires base != ""
    ensures EndsWith(base + "-" + level, level) && (base + "-" + level)[..|base|] == base
  {
    var id := base + "-" + level;
    assert id == base + ("-" + level);
    assert id[|base|..] == "-" + level;
  }

  // Splitting undoes joining, with one exception: "low" behind a base that ends in "-extra" is read as "extra-low".
  lemma SplitUndoesJoin(base: string, level: string)
    requires base != "" && level in {"extra-low", "tiered", "medium", "high", "low"}
    ensures SplitVariant(base + "-" + level) == (base, level) <==> !(level == "low" && EndsWith(base, "extra"))
  {
    var id := base + "-" + level;
    JoinEnds(base, level);
    LastOfEach(id, base, level);
    SplitIs(id);
    if level == "low" {
      ExtraBefore(id, base);
    }
    hide SplitVariant, EndsWith;
    assert |id| == |base| + 1 + |level|;
  }

  lemma LastOfEach(id: string, base: string, level: string)
    requires id == base + "-" + level && level in {"extra-low", "tiered", "medium", "high", "low"}
    ensures level != "tiered" ==> !EndsWith(id, "tiered")
    ensures level != "medium" ==> !EndsWith(id, "medium")
    ensures level != "high" ==> !EndsWith(id, "high")
    ensures level != "low" && level != "extra-low" ==> !EndsWith(id, "low") && !EndsWith(id, "extra-low")
  {
    var n := |id|;
    assert id[n - 1] == level[|level| - 1];
    forall l: string | l != "" && EndsWith(id, l) ensures id[n - 1] == l[|l| - 1] {
      assert id[n - 1] == id[n - |l| - 1..][|l|] == ("-" + l)[|l|];
    }
  }

  lemma ExtraBefore(id: string, base: string)
    requires base != "" && id == base + "-" + "low"
    ensures EndsWith(id, "extra-low") <==> EndsWith(base, "extra")
  {
    var n := |id|;
    var tail := "-" + "extra-low";
    assert |base| == n - 4 && tail[..6] == "-extra" && tail == "-extra" + "-low";
    if EndsWith(id, "extra-low") {
      assert base[|base| - 6..] == id[n - 10..][..6];
    }
    if EndsWith(base, "extra") {
      assert id[n - 10..] == base[|base| - 6..] + "-low";
    }
  }

  // ---------------------------------------------------------------------------
  // Groups
  // ---------------------------------------------------------------------------

  // Every listed id stands in the group of its base, and nothing else does.
  predicate Holds(groups: map<string, Group>, ids: seq<string>) {
    && (forall id <- ids :: SplitVariant(id).0 in groups && SplitVariant(id).1 in groups[SplitVariant(id).0].ids)
    && (forall base <- groups :: groups[base].ids != map[])
    && (forall base <- groups, level <- groups[base].ids ::
          groups[base].ids[level] in ids && SplitVariant(groups[base].ids[level]) == (base, level))
  }

  // The id without a level, else the one the tools use without one, else the highest level.
  predicate DefaultOf(g: Group) {
    if "" in g.ids && g.ids[""] != "" then g.def == ""
    else if "tiered" in g.ids && g.ids["tiered"] != "" then g.def == "tiered"
    else if exists l <- g.ids :: Rank(l).Some? then
      && g.def in g.ids && Rank(g.def).Some?
      && forall l <- g.ids :: Rank(l).Some? ==> Rank(l).value <= Rank(g.def).value
    else g.def == ""
  }

  // Levels as ids have them: none, or a level of an id that is not empty.
  predicate Listed(g: Group) {
    g.ids != map[] && forall level <- g.ids :: level == "" || (level in LEVELS && g.ids[level] != "")
  }

  lemma RanksDiffer(a: string, b: string)
    ensures Rank(a).Some? && Rank(a) == Rank(b) ==> a == b
  {
  }

  // A group has one default, whatever order its levels are met in.
  lemma OneDefault(g: Group, h: Group)
    requires g.ids == h.ids && DefaultOf(g) && DefaultOf(h)
    ensures g.def == h.def
  {
    RanksDiffer(g.def, h.def);
    hide Rank;
  }

  // A plain model, nothing folded.
  predicate IsPlain(g: Group) {
    |g.ids| == 1 && g.def == ""
  }

  lemma HoldsMore(groups: map<string, Group>, ids: seq<string>, id: string)
    requires Holds(groups, ids)
    ensures var (base, level) := SplitVariant(id);
      var g := if base in groups then groups[base] else Group(map[], "");
      Holds(groups[base := Group(g.ids[level := id], g.def)], ids + [id])
  {
    hide SplitVariant;
    var (base, level) := SplitVariant(id);
    var g := if base in groups then groups[base] else Group(map[], "");
    var more := groups[base := Group(g.ids[level := id], g.def)];
    forall x | x in ids + [id] ensures SplitVariant(x).0 in more && SplitVariant(x).1 in more[SplitVariant(x).0].ids {
    }
    assert level in more[base].ids;
    forall b | b in more ensures more[b].ids != map[] {
    }
    forall b, l | b in more && l in more[b].ids
      ensures more[b].ids[l] in ids + [id] && SplitVariant(more[b].ids[l]) == (b, l)
    {
    }
  }

  // The best level of a group, by the loop over its levels.
  method Highest(g: Group) returns (def: string)
    ensures if exists l <- g.ids :: Rank(l).Some?
      then def in g.ids && Rank(def).Some? && forall l <- g.ids :: Rank(l).Some? ==> Rank(l).value <= Rank(def).value
      else def == g.def
  {
    def := g.def;
    var best: int := -1;
    var todo := g.ids.Keys;
    while todo != {}
      invariant todo <= g.ids.Keys && best >= -1
      invariant forall l :: l in g.ids && l !in todo && Rank(l).Some? ==> Rank(l).value <= best
      invariant best >= 0 ==> def in g.ids && Rank(def) == Some(best)
      invariant best < 0 ==> def == g.def
      decreases todo
    {
      var l :| l in todo;
      todo := todo - {l};
      var r := Rank(l);
      if r.Some? && r.value > best {
        best, def := r.value, l;
      }
    }
  }

  // The ids folded, a default chosen for each group, and plain models left out.
  method GroupVariants(ids: seq<string>) returns (bases: set<string>, groups: map<string, Group>, ghost all: map<string, Group>)
    ensures bases == set id <- ids :: SplitVariant(id).0
    ensures forall base <- groups :: base in all && !IsPlain(groups[base]) && DefaultOf(groups[base])
    ensures Holds(all, ids) && all.Keys == bases
    ensures forall base <- groups :: groups[base].ids == all[base].ids
    ensures forall base <- all :: base !in groups <==> all[base].ids.Keys == {""}
  {
    hide SplitVariant, DefaultOf, Holds, Listed, IsPlain;
    var found;
    bases, found := Fold(ids);
    all := found;
    BasesAre(all, ids);
    AllListed(all, ids);
    groups := Defaults(found);
  }

  // The first loop: no defaults yet.
  method Fold(ids: seq<string>) returns (bases: set<string>, found: map<string, Group>)
    ensures Holds(found, ids) && found.Keys == bases && forall base <- found :: found[base].def == ""
  {
    assert Holds(map[], []);
    hide SplitVariant, Holds;
    found, bases := map[], {};
    for i := 0 to |ids|
      invariant Holds(found, ids[..i]) && found.Keys == bases
      invariant forall base <- found :: found[base].def == ""
    {
      HoldsMore(found, ids[..i], ids[i]);
      assert ids[..i + 1] == ids[..i] + [ids[i]];
      var (base, level) := SplitVariant(ids[i]);
      var g := if base in found then found[base] else Group(map[], "");
      found := found[base := Group(g.ids[level := ids[i]], g.def)];
      bases := bases + {base};
    }
    assert ids[..|ids|] == ids;
  }

  lemma BasesAre(all: map<string, Group>, ids: seq<string>)
    requires Holds(all, ids)
    ensures all.Keys == set id <- ids :: SplitVariant(id).0
  {
    hide SplitVariant;
    forall base | base in all ensures exists id <- ids :: SplitVariant(id).0 == base {
      var level :| level in all[base].ids;
      assert all[base].ids[level] in ids;
    }
  }

  lemma AllListed(all: map<string, Group>, ids: seq<string>)
    requires Holds(all, ids)
    ensures forall base <- all :: Listed(all[base])
  {
    hide SplitVariant;
    forall base, level | base in all && level in all[base].ids ensures level == "" || (level in LEVELS && all[base].ids[level] != "") {
      SplitJoins(all[base].ids[level]);
    }
  }

  lemma PlainExactlyWhen(g: Group)
    requires Listed(g) && DefaultOf(g)
    ensures IsPlain(g) <==> g.ids.Keys == {""}
  {
    assert |g.ids| == |g.ids.Keys|;
    if |g.ids| == 1 {
      var level :| level in g.ids;
      assert |g.ids.Keys - {level}| == 0;
      assert g.ids.Keys == {level};
    }
  }

  method Defaults(all: map<string, Group>) returns (groups: map<string, Group>)
    requires forall base <- all :: all[base].def == "" && Listed(all[base])
    ensures forall base <- groups :: base in all && groups[base].ids == all[base].ids && !IsPlain(groups[base]) && DefaultOf(groups[base])
    ensures forall base <- all :: base !in groups <==> all[base].ids.Keys == {""}
  {
    groups := map[];
    var todo := all.Keys;
    while todo != {}
      invariant todo <= all.Keys
      invariant forall base <- groups :: base in all && groups[base].ids == all[base].ids && !IsPlain(groups[base]) && DefaultOf(groups[base])
      invariant forall base <- all :: base in groups <==> base !in todo && all[base].ids.Keys != {""}
      decreases todo
    {
      var base :| base in todo;
      todo := todo - {base};
      var g := all[base];
      var def := "";
      if "" in g.ids && g.ids[""] != "" {
        def := "";
      } else if "tiered" in g.ids && g.ids["tiered"] != "" {
        def := "tiered";
      } else {
        def := Highest(g);
      }
      g := g.(def := def);
      PlainExactlyWhen(g);
      if !(|g.ids| == 1 && g.def == "") {
        groups := groups[base := g];
      }
    }
  }

  // The listed model an upstream id belongs to.
  function VariantBase(groups: map<string, Group>, model: string): string {
    var (base, level) := SplitVariant(model);
    if level != "" && base in groups && level in groups[base].ids && groups[base].ids[level] == model then base else model
  }

  // The model of an id is its base exactly when the id stands in the base's group under a level, else itself.
  lemma VariantBaseIs(groups: map<string, Group>, model: string)
    ensures var (base, level) := SplitVariant(model);
      VariantBase(groups, model) ==
      if level != "" && base in groups && level in groups[base].ids && groups[base].ids[level] == model then base else model
    ensures VariantBase(groups, model) != model ==> exists level :: level in LEVELS && model == VariantBase(groups, model) + "-" + level
  {
    SplitJoins(model);
  }

  // Main result: whatever id of a group a request was given, it is counted to the group's model.
  lemma PickedBelongs(all: map<string, Group>, groups: map<string, Group>, ids: seq<string>, base: string, level: string)
    requires Holds(all, ids)
    requires forall b <- groups :: b in all && groups[b].ids == all[b].ids
    requires base in groups && level in groups[base].ids
    ensures VariantBase(groups, groups[base].ids[level]) == base
  {
    SplitJoins(groups[base].ids[level]);
  }

  // ---------------------------------------------------------------------------
  // Picking a level
  // ---------------------------------------------------------------------------

  function Distance(a: nat, b: nat): nat {
    if a < b then b - a else a - b
  }

  // Four levels are in order, at equal distances; "tiered" and any other text are not.
  lemma RanksAre(level: string)
    ensures Rank(level).Some? <==> level in {"extra-low", "low", "medium", "high"}
    ensures Rank("extra-low") == Some(0) && Rank("low") == Some(1) && Rank("medium") == Some(2) && Rank("high") == Some(3)
  {
  }

  // Level a is nearer to the wanted rank than b; of two as near, the higher one is.
  predicate Nearer(a: nat, b: nat, want: nat) {
    Distance(a, want) < Distance(b, want) || (Distance(a, want) == Distance(b, want) && a > b)
  }

  predicate Nearest(g: Group, want: nat, l: string) {
    && l in g.ids && Rank(l).Some?
    && forall k <- g.ids :: Rank(k).Some? && k != l ==> Nearer(Rank(l).value, Rank(k).value, want)
  }

  lemma OneNearest(g: Group, want: nat, a: string, b: string)
    requires Nearest(g, want, a) && Nearest(g, want, b)
    ensures a == b
  {
  }

  function Effort(effort: string): string {
    if effort == "minimal" then "extra-low" else if effort == "xhigh" || effort == "max" then "high" else effort
  }

  predicate NoEffort(effort: string) {
    effort == "" || effort == "none" || effort == "auto" || effort == "default"
  }

  function IdOf(g: Group, level: string): string {
    if level in g.ids then g.ids[level] else ""
  }

  // Main result: the level asked for if the model has it, else the one nearest
  // level it has, whatever order the levels are met in, else the default.
  method Pick(g: Group, effort: string) returns (id: string)
    ensures var none := effort in {"", "none", "auto", "default"};
      var asked := if effort == "minimal" then "extra-low" else if effort in {"xhigh", "max"} then "high" else effort;
      var default_ := if g.def in g.ids then g.ids[g.def] else "";
      && (none ==> id == default_)
      && (!none && asked in g.ids ==> id == g.ids[asked])
      && (!none && asked !in g.ids ==>
            if Rank(asked).Some? && exists l <- g.ids :: Rank(l).Some?
            then exists l <- g.ids :: Nearest(g, Rank(asked).value, l) && id == g.ids[l]
            else id == default_)
  {
    if NoEffort(effort) {
      return IdOf(g, g.def);
    }
    var e := Effort(effort);
    if e in g.ids {
      return g.ids[e];
    }
    if Rank(e).None? {
      return IdOf(g, g.def);
    }
    var best := NearestLevel(g, Rank(e).value);
    if best.None? {
      return IdOf(g, g.def);
    }
    return g.ids[best.value];
  }

  method NearestLevel(g: Group, want: nat) returns (best: Option<string>)
    requires want <= 3
    ensures best.None? <==> forall l <- g.ids :: Rank(l).None?
    ensures best.Some? ==> Nearest(g, want, best.value)
  {
    best := None;
    var todo := g.ids.Keys;
    while todo != {}
      invariant todo <= g.ids.Keys
      invariant best.None? ==> forall l <- g.ids :: l in todo || Rank(l).None?
      invariant best.Some? ==> best.value in g.ids && best.value !in todo && Rank(best.value).Some?
      invariant best.Some? ==> forall k <- g.ids ::
        k !in todo && Rank(k).Some? && k != best.value ==> Nearer(Rank(best.value).value, Rank(k).value, want)
      decreases todo
    {
      var l :| l in todo;
      todo := todo - {l};
      var r := Rank(l);
      if r.Some? {
        if best.None? {
          best := Some(l);
        } else {
          RanksDiffer(best.value, l);
          if Nearer(r.value, Rank(best.value).value, want) {
            best := Some(l);
          }
        }
      }
    }
  }
}
