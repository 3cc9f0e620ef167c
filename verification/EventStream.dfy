/**
 Event-stream framing, restricted to LF and CRLF line ends: the editor that
 rewrites an answer frame by frame as it arrives, and the scanner that reads a
 stream up to its first event. Both must equal their whole-stream versions.
 */
module EventStream {
  import opened Options

  newtype byte = b: int | 0 <= b < 256

  const CR: byte := 13
  const LF: byte := 10
  const COLON: byte := 58

  // ---------------------------------------------------------------------------
  // Frames: the delimiter is \r?\n\r?\n
  // ---------------------------------------------------------------------------

  predicate Is(s: seq<byte>, i: nat, b: byte) {
    i < |s| && s[i] == b
  }

  // The length of the delimiter that starts at i, 0 for none.
  function MatchLen(s: seq<byte>, i: nat): (n: nat)
    ensures n > 0 ==> 2 <= n <= 4 && i + n <= |s|
  {
    var j := if Is(s, i, CR) then i + 1 else i;
    var k := if Is(s, j + 1, CR) then j + 2 else j + 1;
    if Is(s, j, LF) && Is(s, k, LF) then k + 1 - i else 0
  }

  // The first delimiter at i or after, |s| for none.
  function Find(s: seq<byte>, i: nat): (m: nat)
    requires i <= |s|
    ensures i <= m <= |s|
    ensures m < |s| ==> MatchLen(s, m) > 0
    ensures forall k :: i <= k < m ==> MatchLen(s, k) == 0
    decreases |s| - i
  {
    if i == |s| then i else if MatchLen(s, i) > 0 then i else Find(s, i + 1)
  }

  function FrameEnd(s: seq<byte>, m: nat): (e: nat)
    requires m < |s| && MatchLen(s, m) > 0
    ensures m < e <= |s|
  {
    m + MatchLen(s, m)
  }

  predicate IsDelimiter(d: seq<byte>) {
    d == [LF, LF] || d == [CR, LF, LF] || d == [LF, CR, LF] || d == [CR, LF, CR, LF]
  }

  predicate DelimiterAt(s: seq<byte>, i: nat, n: nat) {
    i + n <= |s| && IsDelimiter(s[i..i + n])
  }

  lemma DelimiterIsMatch(s: seq<byte>, i: nat, n: nat)
    requires DelimiterAt(s, i, n)
    ensures MatchLen(s, i) == n > 0
  {
    var d := s[i..i + n];
    assert d[0] == s[i] && d[1] == s[i + 1];
    if n > 2 { assert d[2] == s[i + 2]; }
    if n > 3 { assert d[3] == s[i + 3]; }
  }

  // What ends a frame, said of the bytes: two line ends, each LF or CRLF.
  lemma MatchIsDelimiter(s: seq<byte>, i: nat, n: nat)
    ensures MatchLen(s, i) == n > 0 <==>
      i + n <= |s| && s[i..i + n] in {[LF, LF], [CR, LF, LF], [LF, CR, LF], [CR, LF, CR, LF]}
    ensures MatchLen(s, i) == 0 <==> forall m: nat :: !DelimiterAt(s, i, m)
  {
    var l := MatchLen(s, i);
    if l > 0 {
      assert s[i..i + l] == if l == 2 then [s[i], s[i + 1]] else if l == 3 then [s[i], s[i + 1], s[i + 2]]
        else [s[i], s[i + 1], s[i + 2], s[i + 3]];
      assert DelimiterAt(s, i, l);
    }
    hide MatchLen;
    forall m: nat | DelimiterAt(s, i, m) ensures l == m > 0 {
      DelimiterIsMatch(s, i, m);
    }
    if i + n <= |s| && s[i..i + n] in {[LF, LF], [CR, LF, LF], [LF, CR, LF], [CR, LF, CR, LF]} {
      assert DelimiterAt(s, i, n);
    }
  }

  // Where the first frame behind i ends: behind the first delimiter.
  lemma FrameEndIs(s: seq<byte>, i: nat, m: nat, e: nat)
    requires i <= m < e <= |s|
    ensures DelimiterAt(s, m, e - m) && (forall k: nat, n: nat :: i <= k < m ==> !DelimiterAt(s, k, n))
      <==> Find(s, i) == m && MatchLen(s, m) > 0 && FrameEnd(s, m) == e
  {
    hide MatchLen, IsDelimiter, Find, DelimiterAt;
    if DelimiterAt(s, m, e - m) && forall k: nat, n: nat :: i <= k < m ==> !DelimiterAt(s, k, n) {
      DelimiterIsMatch(s, m, e - m);
      forall k | i <= k < m ensures MatchLen(s, k) == 0 {
        MatchIsDelimiter(s, k, 0);
      }
      FindIsUnique(s, i, m);
    }
    if Find(s, i) == m && MatchLen(s, m) > 0 && FrameEnd(s, m) == e {
      MatchThere(s, m);
      forall k: nat, n: nat | i <= k < m ensures !DelimiterAt(s, k, n) {
        if DelimiterAt(s, k, n) { DelimiterIsMatch(s, k, n); }
      }
    }
  }

  lemma MatchThere(s: seq<byte>, m: nat)
    requires MatchLen(s, m) > 0
    ensures DelimiterAt(s, m, MatchLen(s, m))
  {
    MatchIsDelimiter(s, m, MatchLen(s, m));
    hide MatchLen;
  }

  // Bytes that arrive later decide nothing about a place four bytes before the end.
  lemma MatchIsStable(s: seq<byte>, t: seq<byte>, i: nat)
    requires i + 4 <= |s| || MatchLen(s, i) > 0
    ensures MatchLen(s + t, i) == MatchLen(s, i)
  {
  }

  lemma {:induction false} FindIsUnique(s: seq<byte>, i: nat, m: nat)
    requires i <= m <= |s| && (m < |s| ==> MatchLen(s, m) > 0)
    requires forall k :: i <= k < m ==> MatchLen(s, k) == 0
    ensures Find(s, i) == m
    decreases m - i
  {
    hide MatchLen;
    if i < m {
      FindIsUnique(s, i + 1, m);
    }
  }

  // A delimiter found stays the first one, however the stream goes on.
  lemma FindIsStable(s: seq<byte>, t: seq<byte>, i: nat)
    requires i <= |s| && Find(s, i) < |s|
    ensures Find(s + t, i) == Find(s, i) && MatchLen(s + t, Find(s, i)) == MatchLen(s, Find(s, i))
  {
    var m := Find(s, i);
    MatchIsStable(s, t, m);
    forall k | i <= k < m ensures MatchLen(s + t, k) == 0 {
      NoEarlierMatch(s, t, k, m);
    }
    FindIsUnique(s + t, i, m);
  }

  lemma NoEarlierMatch(s: seq<byte>, t: seq<byte>, k: nat, m: nat)
    requires k < m < |s| && MatchLen(s, m) > 0 && MatchLen(s, k) == 0
    ensures MatchLen(s + t, k) == 0
  {
    if k + 4 <= |s| {
      MatchIsStable(s, t, k);
    }
  }

  lemma MatchShifts(s: seq<byte>, r: nat, k: nat)
    requires r <= |s|
    ensures MatchLen(s[r..], k) == MatchLen(s, r + k)
  {
  }

  lemma FindShifts(s: seq<byte>, r: nat, i: nat)
    requires r <= |s| && i <= |s| - r
    ensures Find(s[r..], i) + r == Find(s, r + i)
    ensures MatchLen(s[r..], Find(s[r..], i)) == MatchLen(s, Find(s, r + i))
  {
    hide MatchLen;
    var m := Find(s[r..], i);
    MatchShifts(s, r, m);
    forall k | r + i <= k < r + m ensures MatchLen(s, k) == 0 {
      MatchShifts(s, r, k - r);
    }
    FindIsUnique(s, r + i, r + m);
  }

  lemma SliceOfDrop(s: seq<byte>, r: nat, i: nat, e: nat)
    requires i <= e && r + e <= |s|
    ensures s[r..][i..e] == s[r + i..r + e]
  {
  }

  // ---------------------------------------------------------------------------
  // The reply editor
  // ---------------------------------------------------------------------------

  type Edit = seq<byte> -> seq<byte>

  // Every whole frame from i on, edited, in order.
  function EditedFrames(s: seq<byte>, i: nat, frame: Edit): seq<byte>
    requires i <= |s|
    decreases |s| - i
  {
    var m := Find(s, i);
    if m == |s| then [] else frame(s[i..FrameEnd(s, m)]) + EditedFrames(s, FrameEnd(s, m), frame)
  }

  // Where the unterminated rest begins.
  function RestAt(s: seq<byte>, i: nat): (r: nat)
    requires i <= |s|
    ensures i <= r <= |s|
    decreases |s| - i
  {
    var m := Find(s, i);
    if m == |s| then i else RestAt(s, FrameEnd(s, m))
  }

  lemma {:induction false} EditShifts(s: seq<byte>, r: nat, i: nat, frame: Edit)
    requires r <= |s| && i <= |s| - r
    ensures EditedFrames(s[r..], i, frame) == EditedFrames(s, r + i, frame)
    ensures RestAt(s[r..], i) + r == RestAt(s, r + i)
    decreases |s| - r - i
  {
    hide MatchLen, Find;
    FindShifts(s, r, i);
    var m := Find(s[r..], i);
    if m < |s| - r {
      var e := FrameEnd(s[r..], m);
      SliceOfDrop(s, r, i, e);
      EditShifts(s, r, e, frame);
    }
  }

  // The frames of a longer stream are those of its start, then those from the start's rest.
  lemma {:induction false} FramesExtend(s: seq<byte>, t: seq<byte>, i: nat, frame: Edit)
    requires i <= |s|
    ensures EditedFrames(s + t, i, frame) == EditedFrames(s, i, frame) + EditedFrames(s + t, RestAt(s, i), frame)
    ensures RestAt(s + t, i) == RestAt(s + t, RestAt(s, i))
    decreases |s| - i
  {
    hide MatchLen, Find;
    var m := Find(s, i);
    if m < |s| {
      FindIsStable(s, t, i);
      var e := FrameEnd(s, m);
      assert (s + t)[i..e] == s[i..e];
      FramesExtend(s, t, e, frame);
      var first, mid, last := frame(s[i..e]), EditedFrames(s, e, frame), EditedFrames(s + t, RestAt(s, e), frame);
      Associates(first, mid, last);
    } else {
      assert [] + EditedFrames(s + t, i, frame) == EditedFrames(s + t, i, frame);
    }
  }

  // Inside the editing loop: the frames up to at are written, the rest is pending.
  predicate InStep(s: seq<byte>, frame: Edit, at: nat, written: seq<byte>, pending: seq<byte>) {
    && at <= |s| && pending == s[at..]
    && written + EditedFrames(s, at, frame) == EditedFrames(s, 0, frame)
    && RestAt(s, at) == RestAt(s, 0)
  }

  lemma InStepExtends(s: seq<byte>, more: seq<byte>, frame: Edit)
    ensures var r := RestAt(s, 0); InStep(s + more, frame, r, EditedFrames(s, 0, frame), s[r..] + more)
  {
    hide MatchLen, Find, EditedFrames, RestAt;
    FramesExtend(s, more, 0, frame);
  }

  lemma EditedStep(s: seq<byte>, frame: Edit, at: nat)
    requires at <= |s| && Find(s, at) < |s|
    ensures var e := FrameEnd(s, Find(s, at));
      EditedFrames(s, at, frame) == frame(s[at..e]) + EditedFrames(s, e, frame) && RestAt(s, at) == RestAt(s, e)
  {
    hide MatchLen, Find;
  }

  lemma InStepAdvances(s: seq<byte>, frame: Edit, at: nat, written: seq<byte>, pending: seq<byte>)
    requires InStep(s, frame, at, written, pending) && Find(pending, 0) < |pending|
    ensures var e := FrameEnd(pending, Find(pending, 0));
      InStep(s, frame, at + e, written + frame(pending[..e]), pending[e..])
  {
    hide MatchLen, Find, EditedFrames, RestAt, FrameEnd;
    FrameEndShifts(s, at);
    EditedStep(s, frame, at);
    var e := FrameEnd(pending, Find(pending, 0));
    SliceOfDrop(s, at, 0, e);
    Associates(written, frame(pending[..e]), EditedFrames(s, at + e, frame));
  }

  lemma FrameEndShifts(s: seq<byte>, at: nat)
    requires at <= |s| && Find(s[at..], 0) < |s| - at
    ensures Find(s, at) == at + Find(s[at..], 0) && FrameEnd(s, Find(s, at)) == at + FrameEnd(s[at..], Find(s[at..], 0))
  {
    hide MatchLen, Find;
    FindShifts(s, at, 0);
  }

  lemma InStepAtEnd(s: seq<byte>, frame: Edit, at: nat, written: seq<byte>, pending: seq<byte>)
    requires InStep(s, frame, at, written, pending) && Find(pending, 0) == |pending|
    ensures written == EditedFrames(s, 0, frame) && pending == s[RestAt(s, 0)..]
  {
    hide MatchLen, Find;
    FindShifts(s, at, 0);
    assert written + [] == written;
  }

  lemma Associates(a: seq<byte>, b: seq<byte>, c: seq<byte>)
    ensures a + (b + c) == (a + b) + c
  {
  }

  datatype Mode = Off | Whole | Stream

  // What must come out, in total, for a whole body.
  function Edited(body: seq<byte>, mode: Mode, frame: Edit, setModel: Edit): seq<byte> {
    match mode
    case Off => body
    case Whole => if body == [] then [] else setModel(body)
    case Stream =>
      var r := RestAt(body, 0);
      EditedFrames(body, 0, frame) + if r == |body| then [] else frame(body[r..])
  }

  class ReplyEditor {
    const frame: Edit
    const setModel: Edit
    var mode: Mode
    var pending: seq<byte>
    var written: seq<byte>        // what the underlying writer was given
    ghost var received: seq<byte>

    constructor (frame: Edit, setModel: Edit)
      ensures this.frame == frame && this.setModel == setModel
      ensures Valid() && received == [] && mode == Whole
    {
      this.frame, this.setModel := frame, setModel;
      mode, pending, written, received := Whole, [], [], [];
    }

    // Between writes, only the unterminated rest is held back.
    ghost predicate Valid()
      reads this
    {
      match mode
      case Off => written == received && pending == []
      case Whole => written == [] && pending == received
      case Stream =>
        && written == EditedFrames(received, 0, frame)
        && pending == received[RestAt(received, 0)..]
    }

    method WriteHeader(encoded: bool, eventStream: bool)
      requires Valid() && received == []
      modifies this`mode
      ensures Valid() && mode == if encoded then Off else if eventStream then Stream else Whole
    {
      mode := if encoded then Off else if eventStream then Stream else Whole;
    }

    method Write(p: seq<byte>)
      requires Valid()
      modifies this`pending, this`written, this`received
      ensures Valid() && received == old(received) + p
    {
      hide MatchLen, Find, EditedFrames, RestAt, InStep;
      if mode == Off {
        written := written + p;
        received := received + p;
        return;
      }
      ghost var r := RestAt(received, 0);
      if mode == Stream {
        InStepExtends(received, p, frame);
      }
      pending := pending + p;
      received := received + p;
      if mode == Stream {
        WriteFrames(r);
      }
    }

    // The loop of Write: every frame the pending bytes complete.
    method WriteFrames(ghost r: nat)
      requires mode == Stream && InStep(received, frame, r, written, pending)
      modifies this`pending, this`written
      ensures Valid()
    {
      hide MatchLen, Find, EditedFrames, RestAt, InStep;
      ghost var at: nat := r;
      while true
        invariant InStep(received, frame, at, written, pending)
        decreases |pending|
      {
        var m := Find(pending, 0);
        if m == |pending| {
          InStepAtEnd(received, frame, at, written, pending);
          return;
        }
        var e := FrameEnd(pending, m);
        var out := frame(pending[..e]);
        InStepAdvances(received, frame, at, written, pending);
        pending := pending[e..];
        if |out| > 0 {
          written := written + out;
        } else {
          assert written + out == written;
        }
        at := at + e;
      }
    }

    method Finish()
      requires Valid()
      modifies this`pending, this`written
      ensures written == Edited(received, mode, frame, setModel)
    {
      if |pending| == 0 {
        return;
      }
      var out := pending;
      pending := [];
      if mode == Stream {
        out := frame(out);
      } else {
        out := setModel(out);
      }
      written := written + out;
    }
  }

  function Concat(chunks: seq<seq<byte>>): seq<byte> {
    if chunks == [] then [] else Concat(chunks[..|chunks| - 1]) + chunks[|chunks| - 1]
  }

  // Main result: however a body is split into writes, the output is the edited whole body.
  method EditInChunks(chunks: seq<seq<byte>>, encoded: bool, eventStream: bool, frame: Edit, setModel: Edit)
    returns (written: seq<byte>)
    ensures written ==
      Edited(Concat(chunks), if encoded then Off else if eventStream then Stream else Whole, frame, setModel)
  {
    var e := new ReplyEditor(frame, setModel);
    e.WriteHeader(encoded, eventStream);
    for i := 0 to |chunks|
      invariant e.Valid() && e.received == Concat(chunks[..i])
      invariant e.mode == if encoded then Off else if eventStream then Stream else Whole
    {
      e.Write(chunks[i]);
      assert chunks[..i + 1][..i] == chunks[..i];
    }
    assert chunks[..|chunks|] == chunks;
    e.Finish();
    written := e.written;
  }

  // The frames and the rest, put together unedited, are the stream.
  lemma {:induction false} FramesArePieces(s: seq<byte>, i: nat, same: Edit)
    requires i <= |s| && forall f :: same(f) == f
    ensures EditedFrames(s, i, same) + s[RestAt(s, i)..] == s[i..]
    decreases |s| - i
  {
    hide MatchLen, Find;
    var m := Find(s, i);
    if m < |s| {
      var e := FrameEnd(s, m);
      FramesArePieces(s, e, same);
      Associates(s[i..e], EditedFrames(s, e, same), s[RestAt(s, e)..]);
      assert s[i..e] + s[e..] == s[i..];
    }
  }

  // Nothing is made of nothing: an empty body, and an empty rest behind the last frame, give no output.
  lemma NothingOfNothing(body: seq<byte>, mode: Mode, frame: Edit, setModel: Edit)
    ensures body == [] ==> Edited(body, mode, frame, setModel) == []
    ensures mode == Stream && RestAt(body, 0) == |body| ==> Edited(body, mode, frame, setModel) == EditedFrames(body, 0, frame)
    ensures mode == Off ==> Edited(body, mode, frame, setModel) == body
  {
    var out := EditedFrames(body, 0, frame);
    assert out + [] == out;
  }

  // So a reply with nothing to edit may pass by the editor.
  lemma NothingEdited(body: seq<byte>, mode: Mode, frame: Edit, setModel: Edit)
    requires forall f :: frame(f) == f && setModel(f) == f
    ensures Edited(body, mode, frame, setModel) == body
  {
    FramesArePieces(body, 0, frame);
    assert body[0..] == body && body[|body|..] == [];
  }

  // ---------------------------------------------------------------------------
  // Comment frames and the first event
  // ---------------------------------------------------------------------------

  function LineEnd(f: seq<byte>, i: nat): (e: nat)
    requires i <= |f|
    ensures i <= e <= |f| && (e < |f| ==> f[e] == LF)
    ensures forall k :: i <= k < e ==> f[k] != LF
    decreases |f| - i
  {
    if i == |f| || f[i] == LF then i else LineEnd(f, i + 1)
  }

  function Lines(f: seq<byte>): (lines: seq<seq<byte>>)
    ensures |lines| > 0
    decreases |f|
  {
    var e := LineEnd(f, 0);
    if e == |f| then [f] else [f[..e]] + Lines(f[e + 1..])
  }

  function TrimRightCR(line: seq<byte>): (t: seq<byte>)
    ensures t <= line && (forall k :: |t| <= k < |line| ==> line[k] == CR)
    ensures t == [] || t[|t| - 1] != CR
  {
    if line != [] && line[|line| - 1] == CR then TrimRightCR(line[..|line| - 1]) else line
  }

  predicate CommentLine(line: seq<byte>) {
    var t := TrimRightCR(line);
    t == [] || t[0] == COLON
  }

  predicate CommentFrame(f: seq<byte>) {
    forall line <- Lines(f) :: CommentLine(line)
  }

  // The loop of isCommentFrame.
  method IsCommentFrame(f: seq<byte>) returns (all: bool)
    ensures all == CommentFrame(f)
  {
    var lines := Lines(f);
    for i := 0 to |lines|
      invariant forall k :: 0 <= k < i ==> CommentLine(lines[k])
    {
      var line := TrimRightCR(lines[i]);
      if |line| > 0 && line[0] != COLON {
        assert !CommentLine(lines[i]);
        return false;
      }
    }
    return true;
  }

  // Position i begins a line: what is there is a colon, or nothing but returns up to the line's end.
  predicate CommentAt(f: seq<byte>, i: nat)
    requires i <= |f|
  {
    (i < |f| && f[i] == COLON) || (forall k :: i <= k < LineEnd(f, i) ==> f[k] == CR)
  }

  predicate BeginsLine(f: seq<byte>, i: nat) {
    i <= |f| && (i == 0 || f[i - 1] == LF)
  }

  predicate CommentsByBytes(f: seq<byte>) {
    forall i :: 0 <= i <= |f| && BeginsLine(f, i) ==> CommentAt(f, i)
  }

  // A frame of comments, said of its bytes alone.
  lemma {:induction false} CommentFrameByBytes(f: seq<byte>)
    ensures CommentFrame(f) <==> CommentsByBytes(f)
    decreases |f|
  {
    hide CommentLine, CommentAt;
    var e := LineEnd(f, 0);
    FirstLineByBytes(f);
    if e == |f| {
      assert Lines(f) == [f] && f[..e] == f;
      assert BeginsLine(f, 0);
    } else {
      var rest := f[e + 1..];
      CommentFrameByBytes(rest);
      FirstLineAndRest(f);
      assert forall line :: line in Lines(f) <==> line == f[..e] || line in Lines(rest);
    }
  }

  lemma FirstLineAndRest(f: seq<byte>)
    requires LineEnd(f, 0) < |f|
    ensures CommentsByBytes(f) <==> CommentAt(f, 0) && CommentsByBytes(f[LineEnd(f, 0) + 1..])
  {
    hide CommentAt;
    var r := LineEnd(f, 0) + 1;
    var rest := f[r..];
    assert BeginsLine(f, 0);
    forall i: nat | i <= |rest|
      ensures BeginsLine(rest, i) == BeginsLine(f, r + i) && CommentAt(rest, i) == CommentAt(f, r + i)
    {
      CommentAtShifts(f, r, i);
    }
    if CommentsByBytes(f) {
      forall i | 0 <= i <= |rest| && BeginsLine(rest, i) ensures CommentAt(rest, i) {
        assert BeginsLine(f, r + i);
      }
    }
    if CommentAt(f, 0) && CommentsByBytes(rest) {
      forall i | 0 <= i <= |f| && BeginsLine(f, i) ensures CommentAt(f, i) {
        if i > 0 {
          assert BeginsLine(rest, i - r);
        }
      }
    }
  }

  lemma FirstLineByBytes(f: seq<byte>)
    ensures CommentLine(f[..LineEnd(f, 0)]) == CommentAt(f, 0)
  {
    var e := LineEnd(f, 0);
    var t := TrimRightCR(f[..e]);
    if t != [] {
      assert t[0] == f[0] && t[|t| - 1] == f[|t| - 1];
      assert |t| - 1 < e;
    }
  }

  lemma CommentAtShifts(f: seq<byte>, r: nat, i: nat)
    requires r <= |f| && i <= |f| - r
    ensures CommentAt(f[r..], i) == CommentAt(f, r + i)
  {
    var g := f[r..];
    assert forall k :: i <= k < LineEnd(g, i) ==> g[k] == f[r + k];
    assert forall k :: r + i <= k < LineEnd(f, r + i) ==> f[k] == g[k - r];
  }

  // Where the first frame begins, from i on, that is not a whole comment frame.
  function EventFrom(s: seq<byte>, i: nat): (b: nat)
    requires i <= |s|
    ensures i <= b <= |s|
    decreases |s| - i
  {
    var m := Find(s, i);
    if m < |s| && CommentFrame(s[i..m]) then EventFrom(s, FrameEnd(s, m)) else i
  }

  // The first event of s is there to its end.
  predicate HasEvent(s: seq<byte>) {
    Find(s, EventFrom(s, 0)) < |s|
  }

  function FirstEvent(s: seq<byte>): seq<byte> {
    var b := EventFrom(s, 0);
    s[b..Find(s, b)]
  }

  function EventEnd(s: seq<byte>): (e: nat)
    requires HasEvent(s)
    ensures e <= |s|
  {
    FrameEnd(s, Find(s, EventFrom(s, 0)))
  }

  // The loop of firstEventFrame, which drops one comment frame a turn.
  method FirstEventFrame(s: seq<byte>) returns (frame: seq<byte>)
    ensures frame == FirstEvent(s)
  {
    DroppedNothing(s);
    hide MatchLen, Find, CommentFrame, EventFrom, DroppedTo, FrameEnd, FirstEvent;
    var head := s;
    ghost var at: nat := 0;
    while true
      invariant DroppedTo(s, at, head)
      decreases |head|
    {
      var m := Find(head, 0);
      DroppedEvent(s, at, head);
      if m == |head| {
        return head;
      }
      var comment := IsCommentFrame(head[..m]);
      if !comment {
        return head[..m];
      }
      at := at + FrameEnd(head, m);
      head := head[FrameEnd(head, m)..];
    }
  }

  lemma DroppedNothing(s: seq<byte>)
    ensures DroppedTo(s, 0, s)
  {
    hide EventFrom;
  }

  // Only comment frames were dropped.
  predicate DroppedTo(s: seq<byte>, at: nat, head: seq<byte>) {
    at <= |s| && head == s[at..] && EventFrom(s, at) == EventFrom(s, 0)
  }

  lemma EventFromStep(s: seq<byte>, at: nat)
    requires at <= |s|
    ensures var f := Find(s, at);
      if f < |s| && CommentFrame(s[at..f]) then EventFrom(s, at) == EventFrom(s, FrameEnd(s, f)) else EventFrom(s, at) == at
  {
    hide MatchLen, Find, CommentFrame;
  }

  lemma DroppedEvent(s: seq<byte>, at: nat, head: seq<byte>)
    requires DroppedTo(s, at, head)
    ensures var m := Find(head, 0);
      if m < |head| && CommentFrame(head[..m]) then DroppedTo(s, at + FrameEnd(head, m), head[FrameEnd(head, m)..])
      else FirstEvent(s) == head[..m]
  {
    hide MatchLen, Find, CommentFrame, EventFrom, FrameEnd, FirstEvent;
    var m := Find(head, 0);
    DroppedSlices(s, at);
    EventFromStep(s, at);
    if m < |head| && CommentFrame(head[..m]) {
      assert EventFrom(s, at + FrameEnd(head, m)) == EventFrom(s, 0);
    } else {
      FirstEventAt(s, at);
    }
  }

  lemma FirstEventAt(s: seq<byte>, at: nat)
    requires at <= |s| && EventFrom(s, 0) == at
    ensures FirstEvent(s) == s[at..Find(s, at)]
  {
    hide MatchLen, Find, CommentFrame, EventFrom;
  }

  lemma DroppedSlices(s: seq<byte>, at: nat)
    requires at <= |s|
    ensures var m := Find(s[at..], 0);
      && s[at..][..m] == s[at..at + m] && Find(s, at) == at + m
      && (m < |s| - at ==> FrameEnd(s, at + m) == at + FrameEnd(s[at..], m) && s[at..][FrameEnd(s[at..], m)..] == s[at + FrameEnd(s[at..], m)..])
  {
    hide MatchLen, Find;
    FindShifts(s, at, 0);
  }

  lemma {:induction false} EventFromExtends(s: seq<byte>, t: seq<byte>, i: nat)
    requires i <= |s|
    ensures EventFrom(s + t, i) == EventFrom(s + t, EventFrom(s, i))
    decreases |s| - i
  {
    hide MatchLen, Find, CommentFrame;
    var m := Find(s, i);
    if m < |s| {
      FindIsStable(s, t, i);
      assert (s + t)[i..m] == s[i..m];
      if CommentFrame(s[i..m]) {
        EventFromExtends(s, t, FrameEnd(s, m));
      }
    }
  }

  // An event once complete is the first event of every longer stream.
  lemma EventIsStable(s: seq<byte>, t: seq<byte>)
    requires HasEvent(s)
    ensures HasEvent(s + t) && FirstEvent(s + t) == FirstEvent(s) && EventEnd(s + t) == EventEnd(s)
  {
    hide MatchLen, Find, CommentFrame;
    var b := EventFrom(s, 0);
    var m := Find(s, b);
    EventFromExtends(s, t, 0);
    FindIsStable(s, t, b);
    assert (s + t)[b..m] == s[b..m];
    EventFromStops(s, 0);
    assert EventFrom(s + t, b) == b;
  }

  lemma {:induction false} EventFromStops(s: seq<byte>, i: nat)
    requires i <= |s|
    ensures var b := EventFrom(s, i); Find(s, b) < |s| ==> !CommentFrame(s[b..Find(s, b)])
    decreases |s| - i
  {
    hide MatchLen, Find, CommentFrame;
    var m := Find(s, i);
    if m < |s| && CommentFrame(s[i..m]) {
      EventFromStops(s, FrameEnd(s, m));
    }
  }

  // The other way: a start that reaches the event's end holds the event.
  lemma EventInPrefix(s: seq<byte>, n: nat)
    requires HasEvent(s) && EventEnd(s) <= n <= |s|
    ensures HasEvent(s[..n]) && FirstEvent(s[..n]) == FirstEvent(s)
  {
    hide MatchLen, Find, CommentFrame;
    assert s[..n] + s[n..] == s;
    EventInStart(s[..n], s[n..], 0);
    EventIsStable(s[..n], s[n..]);
  }

  lemma {:induction false} EventInStart(s: seq<byte>, t: seq<byte>, i: nat)
    requires i <= |s|
    requires var m := Find(s + t, EventFrom(s + t, i)); m < |s + t| && FrameEnd(s + t, m) <= |s|
    ensures Find(s, EventFrom(s, i)) < |s|
    decreases |s| - i
  {
    hide MatchLen, Find, CommentFrame;
    if Find(s, i) < |s| {
      var m := Find(s, i);
      FindIsStable(s, t, i);
      assert (s + t)[i..m] == s[i..m];
      if CommentFrame(s[i..m]) {
        EventInStart(s, t, FrameEnd(s, m));
      }
    } else {
      var m := Find(s + t, EventFrom(s + t, i));
      MatchInStart(s, t, m);
    }
  }

  lemma MatchInStart(s: seq<byte>, t: seq<byte>, m: nat)
    requires m < |s + t| && MatchLen(s + t, m) > 0 && m + MatchLen(s + t, m) <= |s|
    ensures MatchLen(s, m) == MatchLen(s + t, m)
  {
  }

  // ---------------------------------------------------------------------------
  // Reading up to the first event
  // ---------------------------------------------------------------------------

  // One answer of the reader: at most this many bytes, and whether an error came with them.
  datatype Turn = Turn(size: nat, failed: bool)

  datatype Stop = Complete | Full | Ended | TimedOut

  function Min(a: nat, b: nat): nat {
    if a <= b then a else b
  }

  const BUF: nat := 4096

  // The reader's next bytes.
  function Given(rest: seq<byte>, turns: seq<Turn>, limit: nat): (n: nat)
    ensures n <= limit && n <= |rest|
  {
    if turns == [] then 0 else Min(turns[0].size, Min(limit, |rest|))
  }

  // Reading the naive way: before every read, the whole head is looked at again.
  // late counts the reads that begin within the time bound.
  function Rescan(head: seq<byte>, rest: seq<byte>, turns: seq<Turn>, max: nat, late: nat): (seq<byte>, Stop)
    requires |head| <= max
    decreases |turns|
  {
    if |head| == max then (head, Full)
    else if HasEvent(head) then (head, Complete)
    else if late == 0 && 0 < EventFrom(head, 0) == |head| then (head, TimedOut)
    else
      var n := Given(rest, turns, Min(BUF, max - |head|));
      if turns == [] || turns[0].failed then (head + rest[..n], Ended)
      else Rescan(head + rest[..n], rest[n..], turns[1..], max, if late == 0 then 0 else late - 1)
  }

  // Why it stops, and that what it read is the start of the stream.
  lemma {:induction false} RescanStops(head: seq<byte>, rest: seq<byte>, turns: seq<Turn>, max: nat, late: nat)
    requires |head| <= max
    ensures var (h, why) := Rescan(head, rest, turns, max, late);
      && head <= h <= head + rest && |h| <= max
      && (why == Complete ==> HasEvent(h))
      && (why == Full ==> |h| == max)
      && (why == TimedOut ==> 0 < EventFrom(h, 0) == |h| && late <= |turns|)
    decreases |turns|
  {
    hide HasEvent, EventFrom;
    if |head| < max && !HasEvent(head) && !(late == 0 && 0 < EventFrom(head, 0) == |head|) {
      var n := Given(rest, turns, Min(BUF, max - |head|));
      assert (head + rest[..n]) + rest[n..] == head + rest;
      if turns != [] && !turns[0].failed {
        RescanStops(head + rest[..n], rest[n..], turns[1..], max, if late == 0 then 0 else late - 1);
      }
    }
  }

  // Nothing is read once the event is complete: what lies behind it is less than one buffer.
  lemma {:induction false} RescanStopsInTime(head: seq<byte>, rest: seq<byte>, turns: seq<Turn>, max: nat, late: nat)
    requires |head| <= max
    requires HasEvent(head + rest) && |head| < EventEnd(head + rest) + BUF
    ensures |Rescan(head, rest, turns, max, late).0| < EventEnd(head + rest) + BUF
    decreases |turns|
  {
    hide EventFrom, MatchLen, Find, FirstEvent;
    assert (head + rest)[..|head|] == head;
    if |head| < max && !HasEvent(head) && !(late == 0 && 0 < EventFrom(head, 0) == |head|) {
      if EventEnd(head + rest) <= |head| {
        EventInPrefix(head + rest, |head|);
      }
      var n := Given(rest, turns, Min(BUF, max - |head|));
      assert (head + rest[..n]) + rest[n..] == head + rest;
      if turns != [] && !turns[0].failed {
        RescanStopsInTime(head + rest[..n], rest[n..], turns[1..], max, if late == 0 then 0 else late - 1);
      }
    }
  }

  // Main result: a first event that ends within the limit is found unless the
  // stream or the time ran out first, and it is the first event of the stream.
  lemma FirstEventIsFound(stream: seq<byte>, turns: seq<Turn>, max: nat, late: nat)
    ensures var (h, why) := Rescan([], stream, turns, max, late);
      && h <= stream && |h| <= max
      && (HasEvent(h) ==> HasEvent(stream) && FirstEvent(h) == FirstEvent(stream))
      && (why == Complete ==> HasEvent(h))
      && (HasEvent(stream) && EventEnd(stream) <= max && why == Full ==> HasEvent(h))
      && (HasEvent(stream) && EventEnd(stream) <= |h| ==> HasEvent(h))
      && (HasEvent(stream) ==> |h| < EventEnd(stream) + BUF)
      && (why == TimedOut ==> !HasEvent(h) && late <= |turns|)
  {
    hide MatchLen, Find, CommentFrame, EventEnd, FirstEvent;
    var (h, why) := Rescan([], stream, turns, max, late);
    assert [] + stream == stream;
    RescanStops([], stream, turns, max, late);
    if HasEvent(h) {
      EventIsStable(h, stream[|h|..]);
      assert h + stream[|h|..] == stream;
    }
    if HasEvent(stream) {
      RescanStopsInTime([], stream, turns, max, late);
      assert stream[..|h|] == h;
      if EventEnd(stream) <= |h| {
        EventInPrefix(stream, |h|);
      }
    }
  }

  class Reader {
    const stream: seq<byte>
    var pos: nat
    var turns: seq<Turn>

    constructor (stream: seq<byte>, turns: seq<Turn>)
      ensures this.stream == stream && this.turns == turns && pos == 0
    {
      this.stream, this.turns, pos := stream, turns, 0;
    }

    function Rest(): seq<byte>
      requires pos <= |stream|
      reads this
    {
      stream[pos..]
    }

    // A reader whose answers are used up is at its end.
    method Read(limit: nat) returns (got: seq<byte>, failed: bool)
      requires pos <= |stream|
      modifies this
      ensures pos <= |stream| && pos == old(pos) + |got| && got == stream[old(pos)..pos]
      ensures got == old(Rest())[..Given(old(Rest()), old(turns), limit)]
      ensures Rest() == old(Rest())[|got|..]
      ensures failed == (old(turns) == [] || old(turns)[0].failed)
      ensures turns == if old(turns) == [] then [] else old(turns)[1..]
    {
      var n := Given(Rest(), turns, limit);
      got := Rest()[..n];
      pos := pos + n;
      failed := turns == [] || turns[0].failed;
      turns := if turns == [] then [] else turns[1..];
    }
  }

  // What the scanner knows: from is where the first frame that may be an event
  // begins, and no delimiter begins between from and scan.
  predicate Scanned(head: seq<byte>, from: nat, scan: nat) {
    && from <= scan <= |head|
    && EventFrom(head, 0) == EventFrom(head, from)
    && forall k :: from <= k < scan ==> MatchLen(head, k) == 0
  }

  lemma ScannedNothing()
    ensures Scanned([], 0, 0)
  {
  }

  lemma ScannedFind(head: seq<byte>, from: nat, scan: nat)
    requires Scanned(head, from, scan)
    ensures Find(head[scan..], 0) + scan == Find(head, from)
    ensures MatchLen(head[scan..], Find(head[scan..], 0)) == MatchLen(head, Find(head, from))
  {
    hide MatchLen, Find, EventFrom;
    FindShifts(head, scan, 0);
    FindIsUnique(head, from, Find(head, scan));
  }

  lemma ScannedPast(head: seq<byte>, from: nat, scan: nat)
    requires Scanned(head, from, scan) && Find(head, from) < |head|
    requires CommentFrame(head[from..Find(head, from)])
    ensures var e := FrameEnd(head, Find(head, from)); Scanned(head, e, e)
  {
    hide MatchLen, Find, CommentFrame;
  }

  lemma ScannedEvent(head: seq<byte>, from: nat, scan: nat)
    requires Scanned(head, from, scan)
    requires Find(head, from) < |head| ==> !CommentFrame(head[from..Find(head, from)])
    ensures EventFrom(head, 0) == from && (HasEvent(head) <==> Find(head, from) < |head|)
  {
    hide MatchLen, Find, CommentFrame;
  }

  // After a fruitless scan it is enough to look again four bytes before the end.
  lemma ScannedExtends(head: seq<byte>, from: nat, scan: nat, more: seq<byte>)
    requires Scanned(head, from, scan) && Find(head, from) == |head|
    ensures var next := if |head| < from + 4 then from else |head| - 4;
      Scanned(head, from, next) && Scanned(head + more, from, next)
  {
    hide MatchLen, Find, CommentFrame;
    var next := if |head| < from + 4 then from else |head| - 4;
    EventFromExtends(head, more, 0);
    assert EventFrom(head, from) == from;
    forall k | from <= k < next ensures MatchLen(head + more, k) == 0 {
      MatchIsStable(head, more, k);
    }
  }

  // One round of the naive way.
  lemma RescanStep(head: seq<byte>, rest: seq<byte>, turns: seq<Turn>, max: nat, late: nat)
    requires |head| <= max
    ensures var n := Given(rest, turns, Min(BUF, max - |head|));
      Rescan(head, rest, turns, max, late).0 ==
      if |head| == max || HasEvent(head) || (late == 0 && 0 < EventFrom(head, 0) == |head|) then head
      else if turns == [] || turns[0].failed then head + rest[..n]
      else Rescan(head + rest[..n], rest[n..], turns[1..], max, if late == 0 then 0 else late - 1).0
  {
    hide HasEvent, EventFrom;
  }

  // The source's loop: only new bytes are looked at, and it reads as the naive way does.
  method FirstSSEEvent(r: Reader, max: nat, late: nat) returns (head: seq<byte>)
    requires r.pos <= |r.stream|
    modifies r
    ensures old(r.pos) <= r.pos <= |r.stream| && head == r.stream[old(r.pos)..r.pos]
    ensures head == Rescan([], old(r.Rest()), old(r.turns), max, late).0
  {
    hide MatchLen, Find, CommentFrame, EventFrom, HasEvent, Scanned, Rescan, Given;
    head := [];
    ScannedNothing();
    var from: nat, scan: nat, inTime: nat := 0, 0, late;
    ghost var all := Rescan([], r.Rest(), r.turns, max, late).0;
    while |head| < max
      invariant old(r.pos) <= r.pos <= |r.stream|
      invariant head == r.stream[old(r.pos)..r.pos]
      invariant |head| <= max && Scanned(head, from, scan)
      invariant Rescan(head, r.Rest(), r.turns, max, inTime).0 == all
      decreases |r.turns|, |head| - from
    {
      ScannedFind(head, from, scan);
      var m := Find(head[scan..], 0);
      if m < |head| - scan {
        var comment := IsCommentFrame(head[from..scan + m]);
        if !comment {
          ScannedEvent(head, from, scan);
          RescanStep(head, r.Rest(), r.turns, max, inTime);
          break;
        }
        ScannedPast(head, from, scan);
        from := scan + FrameEnd(head[scan..], m);
        scan := from;
        continue;
      }
      ScannedEvent(head, from, scan);
      if inTime == 0 && from > 0 && from == |head| {
        RescanStep(head, r.Rest(), r.turns, max, inTime);
        break;
      }
      RescanStep(head, r.Rest(), r.turns, max, inTime);
      var got, failed := r.Read(Min(BUF, max - |head|));
      ScannedExtends(head, from, scan, got);
      scan := if |head| < from + 4 then from else |head| - 4;
      head := head + got;
      inTime := if inTime == 0 then 0 else inTime - 1;
      if failed {
        return;
      }
    }
    if |head| == max {
      RescanStep(head, r.Rest(), r.turns, max, inTime);
    }
  }
}
