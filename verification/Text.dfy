/**
 Strings as the shape records and versions use them: split at a character and
 joined again. A path is kept as one string and split at its dots whenever its
 segments are looked at, so what the code says of joined prefixes is a statement
 about segments only because the two undo each other. The pieces of a split are
 never none, and an empty string is one empty piece, as in the library the source
 calls.
 */
module Text {

  // The pieces of s between the separators; never empty.
  function Split(s: string, sep: char): (parts: seq<string>)
    ensures |parts| >= 1
    ensures forall p <- parts :: sep !in p
    ensures Join(parts, sep) == s
  {
    if s == "" then [""]
    else
      var rest := Split(s[1..], sep);
      if s[0] == sep then JoinPut(sep, rest); [""] + rest
      else JoinGrow(s[0], sep, rest); [[s[0]] + rest[0]] + rest[1..]
  }

  function Join(parts: seq<string>, sep: char): string
    requires |parts| >= 1
  {
    if |parts| == 1 then parts[0] else parts[0] + [sep] + Join(parts[1..], sep)
  }

  lemma JoinPut(sep: char, rest: seq<string>)
    requires |rest| >= 1
    ensures Join([""] + rest, sep) == [sep] + Join(rest, sep)
  {
    assert ([""] + rest)[1..] == rest;
  }

  lemma JoinGrow(c: char, sep: char, rest: seq<string>)
    requires |rest| >= 1
    ensures Join([[c] + rest[0]] + rest[1..], sep) == [c] + Join(rest, sep)
  {
    var grown := [[c] + rest[0]] + rest[1..];
    if |rest| > 1 {
      assert grown[1..] == rest[1..];
      assert ([c] + rest[0]) + [sep] + Join(rest[1..], sep) == [c] + (rest[0] + [sep] + Join(rest[1..], sep));
    }
  }

  // Splitting undoes joining: pieces without the separator come back as they were.
  lemma {:induction false} SplitJoin(parts: seq<string>, sep: char)
    requires |parts| >= 1 && forall p <- parts :: sep !in p
    ensures Split(Join(parts, sep), sep) == parts
    decreases |parts|, |parts[0]|
  {
    var s := Join(parts, sep);
    if parts[0] == "" {
      if |parts| > 1 {
        SplitJoin(parts[1..], sep);
        assert s[0] == sep && s[1..] == Join(parts[1..], sep);
      }
    } else {
      var c := parts[0][0];
      var rest := [parts[0][1..]] + parts[1..];
      assert [c] + rest[0] == parts[0] && rest[1..] == parts[1..];
      assert [[c] + rest[0]] + rest[1..] == parts;
      JoinGrow(c, sep, rest);
      forall p | p in rest ensures sep !in p {
        if p == parts[0][1..] {
          assert sep !in parts[0];
        }
      }
      SplitJoin(rest, sep);
      assert s[0] == c && s[1..] == Join(rest, sep);
      assert c in parts[0];
    }
  }
}
