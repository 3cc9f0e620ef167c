/**
 The life of one finding: a field that went missing, fixed in a version, and
 reopened only by a newer one. Several handlers look the finding up and write it
 later, so a step here is one read or one write of the store.
 */
module Findings {
  import opened Options
  import opened Text
  import opened Versions

  datatype Status = Open | Fixed | Wontfix | Expired

  datatype Finding = Finding(status: Status, fixedIn: string)

  // What a handler of a lost candidate of a key read: None when the lookup missed or failed.
  datatype Lost = Lost(version: string, key: string, seen: Option<Finding>, who: Option<string>)

  // What a resolver read, and the version it will write; listed are the versions it took it from.
  datatype Resolve = Resolve(seen: Status, target: Status, who: string, fixedIn: string, listed: seq<string>)

  // The row of the finding, who changed its status last, and the versions of
  // the stored trusted traces. atFix are those listed for the latest fix.
  datatype State = State(
    row: Option<Finding>, lastWho: Option<string>, versions: seq<string>,
    atFix: seq<string>, losts: map<nat, Lost>, resolves: map<nat, Resolve>)

  // ---------------------------------------------------------------------------
  // The greatest version
  // ---------------------------------------------------------------------------

  // No version of the list is newer.
  ghost predicate Covers(fixedIn: string, listed: seq<string>) {
    forall v <- listed :: fixedIn != "" && !Older(fixedIn, v)
  }

  ghost function Greatest(listed: seq<string>): string {
    if listed == [] then ""
    else
      var g, v := Greatest(listed[..|listed| - 1]), listed[|listed| - 1];
      if g == "" || Older(g, v) then v else g
  }

  lemma {:induction false} GreatestCovers(listed: seq<string>)
    requires "" !in listed
    ensures Covers(Greatest(listed), listed)
    ensures listed == [] ==> Greatest(listed) == ""
    ensures listed != [] ==> Greatest(listed) in listed
  {
    if listed != [] {
      var rest, v := listed[..|listed| - 1], listed[|listed| - 1];
      GreatestCovers(rest);
      AgeOrder(v, v, v);
      forall w | w in listed ensures !Older(Greatest(listed), w) && Greatest(listed) != "" {
        if w != v {
          assert w in rest;
          AgeOrder(Greatest(rest), v, w);
        }
      }
    }
  }

  // The loop of ResolveFinding.
  method FoldGreatest(listed: seq<string>) returns (g: string)
    ensures g == Greatest(listed)
  {
    hide Older, SameAge;
    g := "";
    for i := 0 to |listed|
      invariant g == Greatest(listed[..i])
    {
      assert listed[..i + 1][..i] == listed[..i];
      var r := CompareVersions(listed[i], g);
      AgeOrder(listed[i], g, g);
      if g == "" || r > 0 {
        g := listed[i];
      }
    }
    assert listed[..|listed|] == listed;
  }

  // ---------------------------------------------------------------------------
  // Writes
  // ---------------------------------------------------------------------------

  // The conditional update of the status; an empty fixedIn keeps the old one.
  function Cas(row: Option<Finding>, was: Status, now: Status, fixedIn: string): Option<Finding> {
    if row.Some? && row.value.status == was
    then Some(Finding(now, if fixedIn != "" then fixedIn else row.value.fixedIn))
    else row
  }

  // The insert of a finding no lookup found. On a conflict it reopens a fixed one.
  function Upsert(row: Option<Finding>): Option<Finding> {
    if row.None? then Some(Finding(Open, ""))
    else if row.value.status == Fixed then Some(row.value.(status := Open))
    else row
  }

  ghost predicate Newer(version: string, fixedIn: string) {
    version != "" && fixedIn != "" && Older(fixedIn, version)
  }

  function Prefixed(s: string, p: string): bool {
    p <= s
  }

  // A wontfix of the session, the master token or the review is final.
  predicate Final(who: Option<string>) {
    who.Some? && (Prefixed(who.value, "session") || Prefixed(who.value, "master") || Prefixed(who.value, "review:"))
  }

  // The status update a handler tries, if any.
  ghost function Tries(l: Lost): Option<Status>
    requires l.seen.Some?
  {
    match l.seen.value.status
    case Fixed => if Newer(l.version, l.seen.value.fixedIn) then Some(Fixed) else None
    case Wontfix => if !Final(l.who) && Newer(l.version, l.seen.value.fixedIn) then Some(Wontfix) else None
    case Expired => Some(Expired)
    case Open => None
  }

  ghost function AfterLost(row: Option<Finding>, l: Lost, ok: bool): Option<Finding> {
    if !ok then row
    else if l.seen.None? then Upsert(row)
    else if Tries(l).Some? then Cas(row, Tries(l).value, Open, "")
    else row
  }

  // Who is the last author then: of a new finding the key, of a status update the system; a conflict writes none.
  ghost function WhoAfterLost(row: Option<Finding>, lastWho: Option<string>, l: Lost, ok: bool): Option<string> {
    if !ok then lastWho
    else if l.seen.None? then if row.None? then Some(l.key) else lastWho
    else if Tries(l).Some? && row.Some? && row.value.status == Tries(l).value then Some("system")
    else lastWho
  }

  // The rows of one finding in the store, written by one statement at a time.
  class Row {
    var row: Option<Finding>
    var lastWho: Option<string>

    constructor ()
      ensures row == None && lastWho == None
    {
      row, lastWho := None, None;
    }

    method UpdateStatus(was: Status, now: Status, who: string, fixedIn: string, works: bool) returns (ok: bool)
      modifies this
      ensures ok <==> works && old(row).Some? && old(row).value.status == was
      ensures row == if works then Cas(old(row), was, now, fixedIn) else old(row)
      ensures lastWho == if ok then Some(who) else old(lastWho)
    {
      ok := works && row.Some? && row.value.status == was;
      if ok {
        row := Some(Finding(now, if fixedIn != "" then fixedIn else row.value.fixedIn));
        lastWho := Some(who);
      }
    }

    method Insert(who: string, works: bool)
      modifies this
      ensures row == if works then Upsert(old(row)) else old(row)
      ensures lastWho == if works && old(row).None? then Some(who) else old(lastWho)
    {
      if works {
        if row.None? {
          row, lastWho := Some(Finding(Open, "")), Some(who);
        } else if row.value.status == Fixed {
          row := Some(row.value.(status := Open));
        }
      }
    }

    // HandleLostCandidate after its lookups.
    method HandleLost(l: Lost, works: bool)
      modifies this
      ensures row == AfterLost(old(row), l, works) && lastWho == WhoAfterLost(old(row), old(lastWho), l, works)
    {
      hide Older;
      if l.seen.None? {
        Insert(l.key, works);
        return;
      }
      var f := l.seen.value;
      var newer := false;
      if l.version != "" && f.fixedIn != "" {
        var r := CompareVersions(l.version, f.fixedIn);
        newer := r > 0;
      }
      match f.status
      case Fixed =>
        if newer {
          var ok := UpdateStatus(Fixed, Open, "system", "", works);
        }
      case Wontfix =>
        if !Final(l.who) && newer {
          var ok := UpdateStatus(Wontfix, Open, "system", "", works);
        }
      case Expired =>
        var ok := UpdateStatus(Expired, Open, "system", "", works);
      case Open =>
    }

    // ResolveFinding after its lookups; false is a conflict.
    method ResolveTo(r: Resolve, works: bool) returns (ok: bool)
      requires r.target == Fixed || r.target == Wontfix
      modifies this
      ensures row == if works && r.seen != r.target then Cas(old(row), r.seen, r.target, Greatest(r.listed)) else old(row)
      ensures ok <==> works && r.seen != r.target && old(row).Some? && old(row).value.status == r.seen
    {
      if r.seen == r.target {
        return false;
      }
      var fixedIn := FoldGreatest(r.listed);
      ok := UpdateStatus(r.seen, r.target, r.who, fixedIn, works);
    }
  }

  // ---------------------------------------------------------------------------
  // Runs
  // ---------------------------------------------------------------------------

  datatype Step =
    | Record(version: string)
    | Prune(kept: seq<string>)
    | Expire
    | LookForResolve(id: nat, target: Status, who: string)
    | WriteResolve(id: nat, ok: bool)
    | LookForLost(id: nat, version: string, key: string, hit: bool, histRead: bool)
    | WriteLost(id: nat, ok: bool)

  ghost function Next(s: State, step: Step): State {
    match step
    case Record(v) => if v == "" then s else s.(versions := s.versions + [v])
    case Prune(kept) => if forall v <- kept :: v in s.versions then s.(versions := kept) else s
    case Expire =>
      if s.row.Some? && s.row.value.status == Open
      then s.(row := Some(s.row.value.(status := Expired)), lastWho := Some("system")) else s
    case LookForResolve(id, target, who) =>
      if s.row.None? || s.row.value.status == target || (target != Fixed && target != Wontfix) then s
      else s.(resolves := s.resolves[id := Resolve(s.row.value.status, target, who, Greatest(s.versions), s.versions)])
    case WriteResolve(id, ok) =>
      if id !in s.resolves then s
      else
        var r := s.resolves[id];
        var t := s.(resolves := s.resolves - {id});
        if ok && s.row.Some? && s.row.value.status == r.seen
        then t.(row := Cas(s.row, r.seen, r.target, r.fixedIn), lastWho := Some(r.who),
                atFix := if r.target == Fixed then r.listed else s.atFix)
        else t
    case LookForLost(id, version, key, hit, histRead) =>
      s.(losts := s.losts[id := Lost(version, key, if hit then s.row else None, if histRead then s.lastWho else None)])
    case WriteLost(id, ok) =>
      if id !in s.losts then s
      else s.(losts := s.losts - {id}, row := AfterLost(s.row, s.losts[id], ok),
              lastWho := WhoAfterLost(s.row, s.lastWho, s.losts[id], ok))
  }

  ghost function Run(s: State, steps: seq<Step>): State
    decreases |steps|
  {
    if steps == [] then s else Run(Next(s, steps[0]), steps[1..])
  }

  const Nothing := State(None, None, [], [], map[], map[])

  predicate IsFixed(s: State) {
    s.row.Some? && s.row.value.status == Fixed
  }

  // The version a fix carries is newer than none of those listed for it.
  ghost predicate Inv(s: State) {
    && "" !in s.versions
    && (IsFixed(s) ==> Covers(s.row.value.fixedIn, s.atFix))
    && (forall id <- s.resolves :: Covers(s.resolves[id].fixedIn, s.resolves[id].listed))
  }

  lemma NextKeepsInv(s: State, step: Step)
    requires Inv(s)
    ensures Inv(Next(s, step))
  {
    hide Older, Greatest;
    if step.LookForResolve? {
      GreatestCovers(s.versions);
    }
  }

  lemma {:induction false} RunKeepsInv(s: State, steps: seq<Step>)
    requires Inv(s)
    ensures Inv(Run(s, steps))
    decreases |steps|
  {
    if steps != [] {
      NextKeepsInv(s, steps[0]);
      RunKeepsInv(Next(s, steps[0]), steps[1..]);
    }
  }

  // What one write of a handler does to the row, whatever it had read: it creates one it missed, and opens a
  // fixed, wontfix or expired one under these conditions; nothing else changes, the version of the fix least.
  lemma LostOutcome(s: State, id: nat, ok: bool)
    requires id in s.losts
    ensures var t, l := Next(s, WriteLost(id, ok)), s.losts[id];
      if s.row.None? then
        && t.row == (if ok && l.seen.None? then Some(Finding(Open, "")) else None)
        && t.lastWho == (if ok && l.seen.None? then Some(l.key) else s.lastWho)
      else
        var f := s.row.value;
        var reopens := ok &&
          match f.status
          case Fixed => l.seen.None? || (l.seen.value.status == Fixed && Newer(l.version, l.seen.value.fixedIn))
          case Wontfix =>
            && l.seen.Some? && l.seen.value.status == Wontfix && Newer(l.version, l.seen.value.fixedIn)
            && !(l.who.Some? && ("session" <= l.who.value || "master" <= l.who.value || "review:" <= l.who.value))
          case Expired => l.seen.Some? && l.seen.value.status == Expired
          case Open => false;
        && t.row == (if reopens then Some(Finding(Open, f.fixedIn)) else s.row)
        && t.lastWho == (if reopens && l.seen.Some? then Some("system") else s.lastWho)
    ensures id !in Next(s, WriteLost(id, ok)).losts
    ensures Next(s, WriteLost(id, ok)).atFix == s.atFix && Next(s, WriteLost(id, ok)).versions == s.versions
  {
    hide Older;
  }

  // What a handler has looked up: the row and its last author as they are, if they could be read; and expiry,
  // which only an open finding meets, is the system's.
  lemma LooksAre(s: State, id: nat, version: string, key: string, hit: bool, histRead: bool)
    ensures var t := Next(s, LookForLost(id, version, key, hit, histRead));
      && t.row == s.row && t.lastWho == s.lastWho && id in t.losts
      && t.losts[id] == Lost(version, key, if hit then s.row else None, if histRead then s.lastWho else None)
    ensures var t := Next(s, Expire);
      if s.row.Some? && s.row.value.status == Open
      then t.row == Some(Finding(Expired, s.row.value.fixedIn)) && t.lastWho == Some("system")
      else t.row == s.row && t.lastWho == s.lastWho
  {
  }

  // What one write of a resolver does: the status it decided on, if the one it read is still there; the greatest
  // version listed then, or the old one if none was.
  lemma ResolveOutcome(s: State, id: nat, ok: bool)
    requires id in s.resolves && s.row.Some?
    ensures var t, r, f := Next(s, WriteResolve(id, ok)), s.resolves[id], s.row.value;
      if ok && f.status == r.seen
      then t.row == Some(Finding(r.target, if r.fixedIn == "" then f.fixedIn else r.fixedIn)) && t.lastWho == Some(r.who)
           && (r.target == Fixed ==> t.atFix == r.listed)
      else t.row == s.row && t.lastWho == s.lastWho && t.atFix == s.atFix
  {
  }

  // What one write of a handler does to a fixed finding: it reopens it exactly when
  // the lookup had missed, or had read an older fix than the trace's version.
  lemma ReopensExactlyWhen(s: State, id: nat, ok: bool)
    requires IsFixed(s) && id in s.losts
    ensures !IsFixed(Next(s, WriteLost(id, ok))) <==>
      ok && (s.losts[id].seen.None?
             || (s.losts[id].seen.value.status == Fixed && Newer(s.losts[id].version, s.losts[id].seen.value.fixedIn)))
  {
    hide Older;
  }

  // Main result: in every run, a version listed for the fix in force reopens it
  // exactly when the handler had missed the row, or had read another fix that was older.
  lemma ListedVersionReopensExactlyWhen(steps: seq<Step>, id: nat)
    requires var s := Run(Nothing, steps); IsFixed(s) && id in s.losts && s.losts[id].version in s.atFix
    ensures var s := Run(Nothing, steps); var l := s.losts[id];
      !IsFixed(Next(s, WriteLost(id, true))) <==>
      l.seen.None? || (l.seen.value.status == Fixed && l.seen.value.fixedIn != s.row.value.fixedIn
                       && Newer(l.version, l.seen.value.fixedIn))
  {
    hide Older;
    RunKeepsInv(Nothing, steps);
    ReopensExactlyWhen(Run(Nothing, steps), id, true);
  }

  // A handler that wrote what it looked up before anything else changed the row.
  predicate Fresh(s: State, id: nat) {
    id in s.losts ==> s.losts[id].seen == s.row
  }

  // A step of a run in which only versions listed for the fix are handled, each
  // without another write between its lookup and its own, and nobody resolves.
  predicate Quiet(s: State, step: Step) {
    match step
    case WriteLost(id, _) => Fresh(s, id) && (id in s.losts ==> s.losts[id].version in s.atFix)
    case WriteResolve(_, _) => false
    case _ => true
  }

  ghost predicate AllQuiet(s: State, steps: seq<Step>)
    decreases |steps|
  {
    steps == [] || (Quiet(s, steps[0]) && AllQuiet(Next(s, steps[0]), steps[1..]))
  }

  // Main result: whatever is listed by the time of the fix cannot undo it in such a run.
  lemma {:induction false} StaysFixed(s: State, steps: seq<Step>)
    requires Inv(s) && IsFixed(s) && AllQuiet(s, steps)
    ensures IsFixed(Run(s, steps)) && Run(s, steps).row == s.row
    decreases |steps|
  {
    hide Older, Greatest;
    if steps != [] {
      NextKeepsInv(s, steps[0]);
      StaysFixed(Next(s, steps[0]), steps[1..]);
    }
  }

  // A final wontfix is not reopened by a handler that could read its history.
  lemma FinalWontfixStays(s: State, id: nat, ok: bool)
    requires s.row.Some? && s.row.value.status == Wontfix
    requires id in s.losts && s.losts[id].seen == s.row && Final(s.losts[id].who)
    ensures Next(s, WriteLost(id, ok)).row == s.row
  {
  }

  // ---------------------------------------------------------------------------
  // The two ways it fails
  // ---------------------------------------------------------------------------

  // Two handlers miss the same new finding; the second write comes after the fix.
  lemma MissedLookupReopens()
    ensures var before := Run(Nothing, [
        Record("2"), LookForLost(1, "2", "k", true, true), LookForLost(2, "2", "k", true, true), WriteLost(1, true),
        LookForResolve(3, Fixed, "session"), WriteResolve(3, true)]);
      && IsFixed(before) && before.row.value.fixedIn == "2" && "2" in before.atFix
      && 2 in before.losts && before.losts[2].version == "2"
      && !IsFixed(Next(before, WriteLost(2, true)))
  {
    hide Older, Covers;
    var s1 := Next(Nothing, Record("2"));
    assert s1 == State(None, None, ["2"], [], map[], map[]);
    var s3 := Next(Next(s1, LookForLost(1, "2", "k", true, true)), LookForLost(2, "2", "k", true, true));
    var s4 := Next(s3, WriteLost(1, true));
    assert s4.row == Some(Finding(Open, ""));
    assert Greatest(["2"]) == "2";
    var s5 := Next(s4, LookForResolve(3, Fixed, "session"));
    var s6 := Next(s5, WriteResolve(3, true));
    Steps6(Nothing, Record("2"), LookForLost(1, "2", "k", true, true), LookForLost(2, "2", "k", true, true),
           WriteLost(1, true), LookForResolve(3, Fixed, "session"), WriteResolve(3, true));
  }

  lemma Steps6(s: State, a: Step, b: Step, c: Step, d: Step, e: Step, f: Step)
    ensures Run(s, [a, b, c, d, e, f]) == Next(Next(Next(Next(Next(Next(s, a), b), c), d), e), f)
  {
    hide Next;
    assert [a, b, c, d, e, f][1..] == [b, c, d, e, f] && [b, c, d, e, f][1..] == [c, d, e, f];
    assert [c, d, e, f][1..] == [d, e, f] && [d, e, f][1..] == [e, f];
    assert [e, f][1..] == [f] && [f][1..] == [];
    var s2 := Next(Next(s, a), b);
    assert Run(s, [a, b, c, d, e, f]) == Run(s2, [c, d, e, f]);
    var s4 := Next(Next(s2, c), d);
    assert Run(s2, [c, d, e, f]) == Run(s4, [e, f]);
    var s6 := Next(Next(s4, e), f);
    assert Run(s4, [e, f]) == Run(s6, []);
  }

  // A handler reads the fix in "1"; another reopens the finding; it is fixed again, in "2".
  // The first handler's write, guarded by the status alone, reopens it for version "2".
  lemma StaleLookupReopens(s: State)
    requires IsFixed(s) && s.row.value.fixedIn == "1" && s.versions == ["1", "2"] && s.losts == map[] && s.resolves == map[]
    ensures var read := Next(Next(s, LookForLost(1, "2", "k", true, true)), LookForLost(2, "2", "k", true, true));
      var before := Next(Next(Next(read, WriteLost(2, true)), LookForResolve(3, Fixed, "session")), WriteResolve(3, true));
      && IsFixed(before) && before.row.value.fixedIn == "2" && "2" in before.atFix
      && 1 in before.losts && before.losts[1].version == "2"
      && !IsFixed(Next(before, WriteLost(1, true)))
  {
    OneIsOlder();
    hide Older;
    assert ["1", "2"][..1] == ["1"] && ["1"][..0] == [];
    assert Greatest(["1"]) == "1";
    assert Greatest(["1", "2"]) == "2";
  }

  lemma OneIsOlder()
    ensures Older("1", "2")
  {
    assert Cut("1").0 == "1" && Cut("2").0 == "2" by {
      assert "1"[1..] == "" && "2"[1..] == "";
    }
    assert Split("1", '.') == ["1"] && Split("2", '.') == ["2"] by {
      assert "1"[1..] == "" && "2"[1..] == "";
    }
    assert Value("1") == 1 && Value("2") == 2 by {
      assert "1"[..0] == "" && "2"[..0] == "";
    }
    assert Num("1", 0) == 1 && Num("2", 0) == 2;
    assert FirstDiffers("1", "2", 0);
  }
}
