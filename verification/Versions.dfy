/**
 The order of switcher versions: numbers segment by segment, a missing segment
 counting as zero, then the timestamp. Numbers are read as the source reads them:
 what is no number counts as zero, and a large one is cut to the 64-bit range. The
 order is a total preorder, although how far the numbers are padded depends on
 the pair.
 */
module Versions {
  import opened Text

  const MAXINT := 0x7fff_ffff_ffff_ffff
  const MININT := -0x8000_0000_0000_0000

  // ---------------------------------------------------------------------------
  // Numbers
  // ---------------------------------------------------------------------------

  predicate Digits(s: string) {
    forall i :: 0 <= i < |s| ==> '0' <= s[i] <= '9'
  }

  function Value(s: string): (n: nat)
    requires Digits(s)
  {
    if s == "" then 0 else 10 * Value(s[..|s| - 1]) + (s[|s| - 1] as int - '0' as int)
  }

  // strconv.Atoi with its error dropped: no number is 0, one out of range is cut to the range.
  function Atoi(s: string): (n: int)
    ensures MININT <= n <= MAXINT
  {
    var signed := s != "" && (s[0] == '-' || s[0] == '+');
    var digits := if signed then s[1..] else s;
    if digits == "" || !Digits(digits) then 0
    else
      var n: int := if s[0] == '-' then -(Value(digits) as int) else Value(digits);
      if n > MAXINT then MAXINT else if n < MININT then MININT else n
  }

  // ---------------------------------------------------------------------------
  // Texts, compared as Go compares strings
  // ---------------------------------------------------------------------------

  predicate TextLess(a: string, b: string) {
    if a == "" then b != ""
    else if b == "" then false
    else a[0] < b[0] || (a[0] == b[0] && TextLess(a[1..], b[1..]))
  }

  lemma {:induction false} TextOrder(a: string, b: string, c: string)
    ensures !(TextLess(a, b) && TextLess(b, a))
    ensures !TextLess(a, b) && !TextLess(b, a) ==> a == b
    ensures TextLess(a, b) && TextLess(b, c) ==> TextLess(a, c)
  {
    if a != "" && b != "" {
      TextOrder(a[1..], b[1..], if c == "" then "" else c[1..]);
      if a[0] == b[0] && a[1..] == b[1..] {
        assert a == [a[0]] + a[1..] && b == [b[0]] + b[1..];
      }
    }
  }

  // ---------------------------------------------------------------------------
  // Versions
  // ---------------------------------------------------------------------------

  // What is before the first plus sign, and what is behind it.
  function Cut(v: string): (r: (string, string))
    ensures '+' !in r.0
    ensures (v == r.0 && r.1 == "") || v == r.0 + "+" + r.1
  {
    if v == "" then ("", "")
    else if v[0] == '+' then ("", v[1..])
    else var r := Cut(v[1..]); ([v[0]] + r.0, r.1)
  }

  function Segments(v: string): (segs: seq<string>)
    ensures |segs| >= 1
  {
    Split(Cut(v).0, '.')
  }

  function Stamp(v: string): string {
    Cut(v).1
  }

  // The i-th number of a version, zero behind its end.
  function Num(v: string, i: nat): int {
    if i < |Segments(v)| then Atoi(Segments(v)[i]) else 0
  }

  ghost predicate SameNums(v: string, w: string) {
    forall i: nat :: Num(v, i) == Num(w, i)
  }

  // The first number that differs decides.
  predicate FirstDiffers(v: string, w: string, i: nat) {
    Num(v, i) < Num(w, i) && forall k: nat :: k < i ==> Num(v, k) == Num(w, k)
  }

  ghost predicate Older(v: string, w: string) {
    || (exists i: nat :: FirstDiffers(v, w, i))
    || (SameNums(v, w) && TextLess(Stamp(v), Stamp(w)))
  }

  // Neither is older: the numbers agree, padding aside, and so do the timestamps.
  ghost predicate SameAge(v: string, w: string) {
    SameNums(v, w) && Stamp(v) == Stamp(w)
  }

  // The loop stops at the longer of the two; behind it both are all zeros.
  method CompareVersions(v: string, w: string) returns (r: int)
    ensures r < 0 <==> Older(v, w)
    ensures r > 0 <==> Older(w, v)
    ensures r == 0 <==> SameAge(v, w)
    ensures -1 <= r <= 1
  {
    hide Atoi, Cut, Older, SameAge;
    AgeOrder(v, w, v);
    if v == w {
      SameSelf(v);
      return 0;
    }
    var a, b := Segments(v), Segments(w);
    var n := if |b| > |a| then |b| else |a|;
    for i := 0 to n
      invariant forall k: nat :: k < i ==> Num(v, k) == Num(w, k)
    {
      var x, y := 0, 0;
      if i < |a| { x := Atoi(a[i]); }
      if i < |b| { y := Atoi(b[i]); }
      if x != y {
        if x > y {
          OlderAt(w, v, i);
          return 1;
        }
        OlderAt(v, w, i);
        return -1;
      }
    }
    OlderByStamp(v, w);
    var s, t := Stamp(v), Stamp(w);
    return if TextLess(s, t) then -1 else if TextLess(t, s) then 1 else 0;
  }

  lemma SameSelf(v: string)
    ensures SameAge(v, v)
  {
  }

  lemma OlderAt(v: string, w: string, i: nat)
    requires FirstDiffers(v, w, i)
    ensures Older(v, w)
  {
  }

  lemma OlderByStamp(v: string, w: string)
    requires SameNums(v, w)
    ensures TextLess(Stamp(v), Stamp(w)) ==> Older(v, w)
    ensures TextLess(Stamp(w), Stamp(v)) ==> Older(w, v)
    ensures !TextLess(Stamp(v), Stamp(w)) && !TextLess(Stamp(w), Stamp(v)) ==> SameAge(v, w)
  {
    hide Num;
    TextOrder(Stamp(v), Stamp(w), Stamp(v));
  }

  // Main result: exactly one of older, newer and same age; older is transitive,
  // and versions of the same age are older than the same ones.
  lemma AgeOrder(u: string, v: string, w: string)
    ensures !(Older(u, v) && Older(v, u))
    ensures SameAge(u, v) <==> !Older(u, v) && !Older(v, u)
    ensures Older(u, v) && Older(v, w) ==> Older(u, w)
    ensures SameAge(u, v) ==> (Older(u, w) <==> Older(v, w)) && (Older(w, u) <==> Older(w, v))
  {
    hide Num;
    TextOrder(Stamp(u), Stamp(v), Stamp(w));
    TextOrder(Stamp(v), Stamp(u), Stamp(u));
    SomeNumDiffers(u, v);
    if Older(u, v) && Older(v, w) {
      OlderIsTransitive(u, v, w);
    }
    if SameAge(u, v) {
      SameAgeIsOlderAlike(u, v, w);
      SameAgeIsOlderAlike(v, u, w);
    }
  }

  lemma SameAgeIsOlderAlike(u: string, v: string, w: string)
    requires SameAge(u, v)
    ensures Older(u, w) ==> Older(v, w)
    ensures Older(w, u) ==> Older(w, v)
  {
    hide Num;
    if i: nat :| FirstDiffers(u, w, i) {
      assert FirstDiffers(v, w, i);
    }
    if i: nat :| FirstDiffers(w, u, i) {
      assert FirstDiffers(w, v, i);
    }
  }

  lemma OlderIsTransitive(u: string, v: string, w: string)
    requires Older(u, v) && Older(v, w)
    ensures Older(u, w)
  {
    hide Num;
    TextOrder(Stamp(u), Stamp(v), Stamp(w));
    if i: nat :| FirstDiffers(u, v, i) {
      if j: nat :| FirstDiffers(v, w, j) {
        assert FirstDiffers(u, w, if i < j then i else j);
      } else {
        assert FirstDiffers(u, w, i);
      }
    } else if j: nat :| FirstDiffers(v, w, j) {
      assert FirstDiffers(u, w, j);
    }
  }

  // Where the numbers differ at all, there is a first place where they do.
  lemma SomeNumDiffers(v: string, w: string)
    ensures SameNums(v, w) || (exists i: nat :: FirstDiffers(v, w, i) || FirstDiffers(w, v, i))
    ensures !(exists i: nat, j: nat :: FirstDiffers(v, w, i) && FirstDiffers(w, v, j))
    ensures SameNums(v, w) ==> forall i: nat :: !FirstDiffers(v, w, i) && !FirstDiffers(w, v, i)
  {
    hide Num;
    forall i: nat, j: nat | FirstDiffers(v, w, i) ensures !FirstDiffers(w, v, j) {
    }
    if !SameNums(v, w) {
      var i: nat :| Num(v, i) != Num(w, i);
      LeastDiffers(v, w, i);
    }
  }

  lemma {:induction false} LeastDiffers(v: string, w: string, n: nat)
    requires Num(v, n) != Num(w, n)
    ensures exists i: nat :: FirstDiffers(v, w, i) || FirstDiffers(w, v, i)
    decreases n
  {
    hide Num;
    if k: nat :| k < n && Num(v, k) != Num(w, k) {
      LeastDiffers(v, w, k);
    } else {
      assert FirstDiffers(v, w, n) || FirstDiffers(w, v, n);
    }
  }

  // ---------------------------------------------------------------------------
  // Versions as they are written
  // ---------------------------------------------------------------------------

  // A number in decimal.
  function Dec(n: nat): string {
    if n < 10 then [('0' as int + n) as char] else Dec(n / 10) + [('0' as int + n % 10) as char]
  }

  lemma {:induction false} DecIs(n: nat)
    ensures Dec(n) != "" && (forall c <- Dec(n) :: '0' <= c <= '9') && Digits(Dec(n)) && Value(Dec(n)) == n
    decreases n
  {
    if n >= 10 {
      DecIs(n / 10);
      var d := Dec(n);
      assert d[..|d| - 1] == Dec(n / 10);
    } else {
      assert Dec(n)[..0] == "";
    }
  }

  // A decimal number is read as what it is, with either sign, and cut to the range.
  lemma AtoiReads(n: nat)
    ensures Atoi(Dec(n)) == (if n > MAXINT then MAXINT else n)
    ensures Atoi("+" + Dec(n)) == (if n > MAXINT then MAXINT else n)
    ensures Atoi("-" + Dec(n)) == (if 0 - n < MININT then MININT else 0 - n)
  {
    DecIs(n);
    hide Dec, Value;
    assert Dec(n)[0] in Dec(n);
    assert ("+" + Dec(n))[1..] == Dec(n) && ("-" + Dec(n))[1..] == Dec(n);
  }

  // A text with anything else than digits in it is zero, and so is a sign alone.
  lemma NoNumberIsZero(s: string, i: nat)
    requires i < |s| && !('0' <= s[i] <= '9') && (i > 0 || |s| == 1 || (s[0] != '+' && s[0] != '-'))
    ensures Atoi(s) == 0 && Atoi("") == 0
  {
    hide Value;
    if i > 0 { assert s[1..][i - 1] == s[i]; }
    if |s| == 1 { assert s[1..] == ""; }
  }

  function DecAll(nums: seq<nat>): seq<string> {
    seq(|nums|, i requires 0 <= i < |nums| => Dec(nums[i]))
  }

  // The numbers with dots between them, and the timestamp behind a plus sign, if there is one.
  function Written(nums: seq<nat>, stamp: string): string
    requires nums != []
  {
    Join(DecAll(nums), '.') + if stamp == "" then "" else "+" + stamp
  }

  // The i-th number, zero behind the end, and the end of the 64-bit range for one beyond it.
  function NumAt(nums: seq<nat>, i: nat): nat {
    if i >= |nums| then 0 else if nums[i] > MAXINT then MAXINT else nums[i]
  }

  // One list of numbers is smaller, read as if zeros stood behind both.
  ghost predicate Smaller(a: seq<nat>, b: seq<nat>) {
    exists i: nat :: NumAt(a, i) < NumAt(b, i) && forall k: nat :: k < i ==> NumAt(a, k) == NumAt(b, k)
  }

  ghost predicate AlikeNums(a: seq<nat>, b: seq<nat>) {
    forall i: nat :: NumAt(a, i) == NumAt(b, i)
  }

  lemma {:induction false} NotInJoin(parts: seq<string>, sep: char, c: char)
    requires |parts| >= 1 && c != sep && forall p <- parts :: c !in p
    ensures c !in Join(parts, sep)
  {
    if |parts| > 1 {
      assert forall p <- parts[1..] :: p in parts;
      NotInJoin(parts[1..], sep, c);
    }
    assert parts[0] in parts;
  }

  lemma {:induction false} CutAtPlus(a: string, b: string)
    requires '+' !in a
    ensures Cut(a) == (a, "") && Cut(a + "+" + b) == (a, b)
  {
    if a == "" {
      assert a + "+" + b == "+" + b && ("+" + b)[1..] == b;
    } else {
      var s := a + "+" + b;
      assert a[0] in a && s[0] == a[0] && s[1..] == a[1..] + "+" + b;
      assert forall x <- a[1..] :: x in a;
      CutAtPlus(a[1..], b);
      assert [a[0]] + a[1..] == a;
    }
  }

  lemma WrittenIs(nums: seq<nat>, stamp: string)
    requires nums != []
    ensures Stamp(Written(nums, stamp)) == stamp && Segments(Written(nums, stamp)) == DecAll(nums)
  {
    var parts := DecAll(nums);
    forall p | p in parts ensures '+' !in p && '.' !in p {
      var i :| 0 <= i < |nums| && p == Dec(nums[i]);
      DecIs(nums[i]);
    }
    NotInJoin(parts, '.', '+');
    CutAtPlus(Join(parts, '.'), stamp);
    SplitJoin(parts, '.');
    assert Join(parts, '.') + "" == Join(parts, '.');
    assert Join(parts, '.') + ("+" + stamp) == Join(parts, '.') + "+" + stamp;
  }

  lemma WrittenNum(nums: seq<nat>, stamp: string, i: nat)
    requires nums != []
    ensures Num(Written(nums, stamp), i) == NumAt(nums, i)
  {
    WrittenIs(nums, stamp);
    hide Written, Segments, Atoi;
    if i < |nums| {
      AtoiReads(nums[i]);
    }
  }

  // Main result: of versions as they are written, the one with the smaller numbers is older, compared one by one
  // with zeros behind the shorter; with equal numbers the one with the earlier timestamp, none being the earliest.
  lemma WrittenOrder(a: seq<nat>, s: string, b: seq<nat>, t: string)
    requires a != [] && b != []
    ensures Older(Written(a, s), Written(b, t)) <==> Smaller(a, b) || (AlikeNums(a, b) && TextLess(s, t))
  {
    var v, w := Written(a, s), Written(b, t);
    WrittenIs(a, s);
    WrittenIs(b, t);
    forall i: nat ensures Num(v, i) == NumAt(a, i) && Num(w, i) == NumAt(b, i) {
      WrittenNum(a, s, i);
      WrittenNum(b, t, i);
    }
    hide Num, NumAt, Written, Stamp, Segments;
    if i: nat :| FirstDiffers(v, w, i) {
      assert NumAt(a, i) < NumAt(b, i);
    }
    if i: nat :| NumAt(a, i) < NumAt(b, i) && forall k: nat :: k < i ==> NumAt(a, k) == NumAt(b, k) {
      assert FirstDiffers(v, w, i);
    }
  }
}
