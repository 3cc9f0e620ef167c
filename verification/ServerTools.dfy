/**
 Tools that intact runs for a model. The client is shown each call and its result
 as blocks of its own API; when it sends them back, they are rewritten into the
 plain calls the model saw.
 */
module ServerTools {
  import opened Text

  // The input of a call: an object with its string fields, or some other JSON value.
  datatype Input = Object(fields: map<string, string>) | NotObject(raw: string)

  datatype Part = TextPart(text: string) | Reference(name: string) | OtherPart(raw: string)

  datatype ResultContent = Str(s: string) | Parts(parts: seq<Part>)

  datatype SearchContent = References(names: seq<string>) | SearchError(code: string, message: string)

  datatype FetchContent = Page(url: string, title: string, text: string) | FetchError(code: string)

  datatype Block =
    | Words(text: string)
    | ToolUse(id: string, name: string, input: Input)
    | ToolResult(toolUseId: string, content: ResultContent, isError: bool)
    | ServerUse(id: string, name: string, input: Input)
    | McpUse(id: string, name: string, server: string, input: Input)
    | McpResult(toolUseId: string, texts: seq<string>, isError: bool)
    | SearchResult(toolUseId: string, found: SearchContent)
    | FetchResult(toolUseId: string, page: FetchContent)
    | WebSearchResult(links: seq<string>)
    | OtherBlock(raw: string)

  datatype Content = Plain(s: string) | Blocks(blocks: seq<Block>)

  datatype Msg = Msg(role: string, content: Content)

  datatype Handler = Mcp(server: string, remote: string) | Search | Fetch

  // What a plan knows of its tools, fixed when the request was read.
  datatype Tools = Tools(
    handled: map<string, Handler>, mcpNames: map<string, string>, deferred: seq<string>,
    searchName: string, fetchName: string, maxUses: int)

  const MAX_TURNS := 10

  // ---------------------------------------------------------------------------
  // Texts
  // ---------------------------------------------------------------------------

  function McpKey(server: string, remote: string): string {
    server + [0 as char] + remote
  }

  function JoinWith(parts: seq<string>, sep: string): string {
    if parts == [] then "" else if |parts| == 1 then parts[0] else parts[0] + sep + JoinWith(parts[1..], sep)
  }

  predicate EndMark(c: char) {
    c == '.' || c == ',' || c == ';' || c == ':' || c == '!' || c == '?'
  }

  function TrimUrl(u: string): string {
    if u != "" && EndMark(u[|u| - 1]) then TrimUrl(u[..|u| - 1]) else u
  }

  function FoundText(names: seq<string>): string {
    if names == [] then "No tools matched." else "Found tools: " + JoinWith(names, ", ") + ". They can be called now."
  }

  function PageText(url: string, title: string, text: string): string {
    (if title != "" then "Title: " + title + "\n" else "") + "URL: " + url + "\n\n" + text
  }

  function TextOf(c: ResultContent): string {
    match c
    case Str(s) => s
    case Parts(parts) => JoinWith(TextsOf(parts), "\n")
  }

  function TextsOf(parts: seq<Part>): seq<string> {
    if parts == [] then [] else (if parts[0].TextPart? then [parts[0].text] else []) + TextsOf(parts[1..])
  }

  // Keys of two tools differ, as no server's name holds the separator.
  lemma McpKeyInjective(s1: string, r1: string, s2: string, r2: string)
    requires (0 as char) !in s1 && (0 as char) !in s2 && McpKey(s1, r1) == McpKey(s2, r2)
    ensures s1 == s2 && r1 == r2
  {
    var k := McpKey(s1, r1);
    assert k[|s1|] == 0 as char && k[|s2|] == 0 as char;
    assert forall i :: 0 <= i < |s1| ==> k[i] == s1[i];
    assert forall i :: 0 <= i < |s2| ==> k[i] == s2[i];
    assert s1 == k[..|s1|] && s2 == k[..|s2|] && r1 == k[|s1| + 1..] && r2 == k[|s2| + 1..];
  }

  // A URL loses its end marks, and nothing else.
  lemma {:induction false} TrimUrlIs(u: string)
    ensures TrimUrl(u) <= u && (forall c <- u[|TrimUrl(u)|..] :: c in ".,;:!?")
    ensures TrimUrl(u) != "" ==> TrimUrl(u)[|TrimUrl(u)| - 1] !in ".,;:!?"
    ensures TrimUrl(TrimUrl(u)) == TrimUrl(u)
  {
    if u != "" && EndMark(u[|u| - 1]) {
      TrimUrlIs(u[..|u| - 1]);
      var n := |TrimUrl(u)|;
      assert u[n..] == u[..|u| - 1][n..] + [u[|u| - 1]];
    }
  }

  lemma {:induction false} JoinWithBoth(a: seq<string>, b: seq<string>, sep: string, x: string)
    ensures JoinWith([], sep) == "" && JoinWith([x], sep) == x
    ensures a != [] && b != [] ==> JoinWith(a + b, sep) == JoinWith(a, sep) + sep + JoinWith(b, sep)
    decreases |a|
  {
    if a != [] && b != [] {
      var rest := a[1..];
      assert (a + b)[1..] == rest + b && (a + b)[0] == a[0];
      if rest == [] {
        assert rest + b == b && |a| == 1;
      } else {
        JoinWithBoth(rest, b, sep, x);
        assert a[0] + sep + (JoinWith(rest, sep) + sep + JoinWith(b, sep)) == a[0] + sep + JoinWith(rest, sep) + sep + JoinWith(b, sep);
      }
    }
  }

  lemma {:induction false} TextsOfBoth(a: seq<Part>, b: seq<Part>, p: Part)
    ensures TextsOf([]) == [] && TextsOf([p]) == if p.TextPart? then [p.text] else []
    ensures TextsOf(a + b) == TextsOf(a) + TextsOf(b)
    decreases |a|
  {
    assert [p][1..] == [];
    if a == [] {
      assert a + b == b;
    } else {
      assert (a + b)[1..] == a[1..] + b;
      TextsOfBoth(a[1..], b, p);
    }
  }

  // ---------------------------------------------------------------------------
  // Running a call
  // ---------------------------------------------------------------------------

  // What came of a call. A handler's outcome is of its own kind.
  datatype Outcome =
    | McpSaid(text: string, isError: bool)
    | Hits(names: seq<string>)
    | SearchFailed(code: string, message: string)
    | Fetched(url: string, title: string, text: string)
    | FetchFailed(code: string)

  predicate FitsHandler(t: Tools, h: Handler, o: Outcome) {
    match h
    case Mcp(_, _) => o.McpSaid?
    case Search => (o.Hits? && forall n <- o.names :: n in t.deferred) || o.SearchFailed?
    case Fetch => o.Fetched? || o.FetchFailed?
  }

  function AsObject(input: Input): Input {
    if input.Object? then input else Object(map[])
  }

  // The two blocks the client is shown.
  function CallBlock(t: Tools, h: Handler, id: string, input: Input): Block {
    match h
    case Mcp(server, remote) => McpUse(id, remote, server, AsObject(input))
    case Search => ServerUse(id, t.searchName, AsObject(input))
    case Fetch => ServerUse(id, t.fetchName, AsObject(input))
  }

  function ResultBlock(id: string, o: Outcome): Block {
    match o
    case McpSaid(text, isError) => McpResult(id, [text], isError)
    case Hits(names) => SearchResult(id, References(names))
    case SearchFailed(code, message) => SearchResult(id, SearchError(code, message))
    case Fetched(url, title, text) => FetchResult(id, Page(url, title, text))
    case FetchFailed(code) => FetchResult(id, FetchError(code))
  }

  // The text and the flag the model is given.
  function Said(o: Outcome): string {
    match o
    case McpSaid(text, _) => text
    case Hits(names) => FoundText(names)
    case SearchFailed(_, message) => "Error: " + message
    case Fetched(url, title, text) => PageText(url, title, text)
    case FetchFailed(code) => "Error: " + code
  }

  // What the model reads of a search, of a page and of an error.
  lemma SaidIs(names: seq<string>, url: string, title: string, text: string, code: string)
    ensures Said(Hits([])) == "No tools matched."
    ensures names != [] ==> Said(Hits(names)) == "Found tools: " + JoinWith(names, ", ") + ". They can be called now."
    ensures Said(Fetched(url, "", text)) == "URL: " + url + "\n\n" + text
    ensures title != "" ==> Said(Fetched(url, title, text)) == "Title: " + title + "\nURL: " + url + "\n\n" + text
    ensures Said(FetchFailed(code)) == "Error: " + code && Said(SearchFailed(code, text)) == "Error: " + text
  {
    assert "" + "URL: " + url + "\n\n" + text == "URL: " + url + "\n\n" + text;
    if title != "" {
      assert "Title: " + title + "\nURL: " + url == "Title: " + title + "\n" + "URL: " + url;
    }
  }

  predicate Failed(o: Outcome) {
    match o
    case McpSaid(_, isError) => isError
    case Hits(_) => false
    case Fetched(_, _, _) => false
    case _ => true
  }

  function LoadedBy(o: Outcome): set<string> {
    if o.Hits? then set n <- o.names else {}
  }

  function UrlsOf(o: Outcome): set<string> {
    if o.Fetched? then {TrimUrl(o.url)} else {}
  }

  // What a piece of an answer came to: a block passed on, or a call that was run.
  datatype Piece = Pass(block: Block) | Call(id: string, name: string, input: Input, outcome: Outcome)

  function Shown(t: Tools, p: Piece): seq<Block>
    requires GoodPiece(t, p)
  {
    match p
    case Pass(b) => [b]
    case Call(id, name, input, o) => [CallBlock(t, t.handled[name], id, input), ResultBlock(id, o)]
  }

  // What the model said, and what it was given.
  function Saying(p: Piece): Block {
    match p
    case Pass(b) => b
    case Call(id, name, input, _) => ToolUse(id, name, input)
  }

  function Given(p: Piece): seq<Block> {
    match p
    case Pass(_) => []
    case Call(id, _, _, o) => [ToolResult(id, Str(Said(o)), Failed(o))]
  }

  // A block normalize leaves as it is.
  predicate Kept(t: Tools, b: Block) {
    && !b.McpUse? && !b.McpResult? && !b.SearchResult? && !b.FetchResult?
    && (b.ServerUse? ==> b.name !in t.handled)
  }

  // What Prepare sees to: the names of the search and fetch handlers, and the known names of servers' tools.
  predicate NamesFit(t: Tools) {
    && (forall n <- t.handled :: t.handled[n] == Search ==> n == t.searchName)
    && (forall n <- t.handled :: t.handled[n] == Fetch ==> n == t.fetchName)
    && (forall n <- t.handled :: t.handled[n].Mcp? ==> McpKey(t.handled[n].server, t.handled[n].remote) in t.mcpNames)
  }

  predicate GoodPiece(t: Tools, p: Piece) {
    match p
    case Pass(b) => Kept(t, b)
    case Call(_, name, _, o) => name in t.handled && FitsHandler(t, t.handled[name], o)
  }

  predicate GoodPieces(t: Tools, ps: seq<Piece>) {
    forall p <- ps :: GoodPiece(t, p)
  }

  function ShownAll(t: Tools, ps: seq<Piece>): seq<Block>
    requires GoodPieces(t, ps)
  {
    if ps == [] then []
    else
      assert ps[|ps| - 1] in ps;
      ShownAll(t, ps[..|ps| - 1]) + Shown(t, ps[|ps| - 1])
  }

  function Sayings(ps: seq<Piece>): seq<Block> {
    seq(|ps|, i requires 0 <= i < |ps| => Saying(ps[i]))
  }

  function GivenAll(ps: seq<Piece>): seq<Block> {
    if ps == [] then [] else GivenAll(ps[..|ps| - 1]) + Given(ps[|ps| - 1])
  }

  function LoadedAll(ps: seq<Piece>): set<string> {
    set p, n | p in ps && p.Call? && n in LoadedBy(p.outcome) :: n
  }

  function LinksOf(p: Piece): set<string> {
    match p
    case Pass(b) => if b.WebSearchResult? then set u | u in b.links && u != "" :: TrimUrl(u) else {}
    case Call(_, _, _, o) => UrlsOf(o)
  }

  function UrlsAll(ps: seq<Piece>): set<string> {
    set p, u | p in ps && u in LinksOf(p) :: u
  }

  // ---------------------------------------------------------------------------
  // Rewriting an assistant turn
  // ---------------------------------------------------------------------------

  // The turns rewritten so far, the blocks of the turn begun, and what was learned.
  datatype Norm = Norm(turns: seq<Msg>, cur: seq<Block>, loaded: set<string>, urls: set<string>)

  function Flushed(s: Norm): Norm {
    if s.cur == [] then s else s.(turns := s.turns + [Msg("assistant", Blocks(s.cur))], cur := [])
  }

  function NameOf(t: Tools, server: string, name: string): string {
    if McpKey(server, name) in t.mcpNames then t.mcpNames[McpKey(server, name)] else name
  }

  function ResultSays(b: Block): string
    requires b.McpResult? || b.SearchResult? || b.FetchResult?
  {
    match b
    case McpResult(_, texts, _) => JoinWith(texts, "\n")
    case SearchResult(_, found) => (match found case References(names) => FoundText(names) case SearchError(_, m) => "Error: " + m)
    case FetchResult(_, page) =>
      match page
      case Page(url, title, text) => PageText(url, title, text)
      case FetchError(code) => "Error: " + code
  }

  predicate ResultFailed(b: Block) {
    (b.McpResult? && b.isError) || (b.SearchResult? && b.found.SearchError?) || (b.FetchResult? && b.page.FetchError?)
  }

  function Learned(t: Tools, b: Block): set<string> {
    if b.SearchResult? && b.found.References? then set n | n in b.found.names && n in t.deferred else {}
  }

  function Links(b: Block): set<string> {
    if b.FetchResult? && b.page.Page? then {TrimUrl(b.page.url)}
    else if b.WebSearchResult? then set u | u in b.links && u != "" :: TrimUrl(u)
    else {}
  }

  function NormStep(t: Tools, s: Norm, b: Block): Norm {
    match b
    case ServerUse(id, name, input) =>
      s.(cur := s.cur + [if name in t.handled then ToolUse(id, name, input) else b])
    case McpUse(id, name, server, input) => s.(cur := s.cur + [ToolUse(id, NameOf(t, server, name), input)])
    case WebSearchResult(_) => s.(cur := s.cur + [b], urls := s.urls + Links(b))
    case McpResult(id, _, _) => NormResult(t, s, b, id)
    case SearchResult(id, _) => NormResult(t, s, b, id)
    case FetchResult(id, _) => NormResult(t, s, b, id)
    case _ => s.(cur := s.cur + [b])
  }

  function NormResult(t: Tools, s: Norm, b: Block, id: string): Norm
    requires b.McpResult? || b.SearchResult? || b.FetchResult?
  {
    var res := ToolResult(id, Str(ResultSays(b)), ResultFailed(b));
    Norm(Flushed(s).turns + [Msg("user", Blocks([res]))], [], s.loaded + Learned(t, b), s.urls + Links(b))
  }

  function NormBlocks(t: Tools, s: Norm, blocks: seq<Block>): Norm {
    if blocks == [] then s else NormStep(t, NormBlocks(t, s, blocks[..|blocks| - 1]), blocks[|blocks| - 1])
  }

  // ---------------------------------------------------------------------------
  // What a rewritten history says
  // ---------------------------------------------------------------------------

  function BlocksOf(c: Content): seq<Block> {
    match c
    case Plain(s) => [Words(s)]
    case Blocks(bs) => bs
  }

  // All blocks of one role, in order.
  function SaidBy(msgs: seq<Msg>, role: string): seq<Block> {
    if msgs == [] then []
    else
      var m := msgs[|msgs| - 1];
      SaidBy(msgs[..|msgs| - 1], role) + if m.role == role then BlocksOf(m.content) else []
  }

  lemma SaidByMore(msgs: seq<Msg>, m: Msg, role: string)
    ensures SaidBy(msgs + [m], role) == SaidBy(msgs, role) + if m.role == role then BlocksOf(m.content) else []
  {
    assert (msgs + [m])[..|msgs|] == msgs;
  }

  // The block a piece is rewritten to.
  function Rebuilt(t: Tools, p: Piece): Block
    requires GoodPiece(t, p)
  {
    match p
    case Pass(b) => b
    case Call(id, name, input, _) =>
      var h := t.handled[name];
      ToolUse(id, if h.Mcp? then NameOf(t, h.server, h.remote) else name, AsObject(input))
  }

  function RebuiltAll(t: Tools, ps: seq<Piece>): seq<Block>
    requires GoodPieces(t, ps)
  {
    seq(|ps|, i requires 0 <= i < |ps| => Rebuilt(t, ps[i]))
  }

  // A call comes back as it was: its input is an object, and the name its server's
  // tool was given last is the one it was called by.
  predicate ComesBack(t: Tools, p: Piece)
    requires GoodPiece(t, p)
  {
    p.Call? ==>
      && p.input.Object?
      && (t.handled[p.name].Mcp? ==> NameOf(t, t.handled[p.name].server, t.handled[p.name].remote) == p.name)
  }

  // A result is in the turn directly behind its call.
  predicate Answered(msgs: seq<Msg>, call: Block, res: Block) {
    exists i :: 0 <= i < |msgs| - 1 && AnsweredAt(msgs, i, call, res)
  }

  predicate AnsweredAt(msgs: seq<Msg>, i: nat, call: Block, res: Block)
    requires i + 1 < |msgs|
  {
    && msgs[i].role == "assistant" && msgs[i].content.Blocks? && call in msgs[i].content.blocks
    && msgs[i + 1].role == "user" && msgs[i + 1].content.Blocks? && res in msgs[i + 1].content.blocks
  }

  lemma AnsweredStays(msgs: seq<Msg>, more: seq<Msg>, call: Block, res: Block)
    requires Answered(msgs, call, res)
    ensures Answered(msgs + more, call, res)
  {
    var i :| 0 <= i < |msgs| - 1 && AnsweredAt(msgs, i, call, res);
    assert AnsweredAt(msgs + more, i, call, res);
  }

  lemma NormTwo(t: Tools, s: Norm, blocks: seq<Block>, more: seq<Block>)
    requires |more| <= 2
    ensures NormBlocks(t, s, []) == s
    ensures more == [] ==> NormBlocks(t, s, blocks + more) == NormBlocks(t, s, blocks)
    ensures |more| == 1 ==> NormBlocks(t, s, blocks + more) == NormStep(t, NormBlocks(t, s, blocks), more[0])
    ensures |more| == 2 ==>
      NormBlocks(t, s, blocks + more) == NormStep(t, NormStep(t, NormBlocks(t, s, blocks), more[0]), more[1])
  {
    hide NormStep;
    var all := blocks + more;
    if |more| == 0 {
      assert all == blocks;
    } else if |more| == 1 {
      assert all[..|all| - 1] == blocks;
    } else {
      assert all[..|all| - 1] == blocks + [more[0]] && (blocks + [more[0]])[..|blocks|] == blocks;
    }
  }

  // The first block of a call becomes the plain call again.
  lemma CallStep(t: Tools, s: Norm, p: Piece)
    requires NamesFit(t) && GoodPiece(t, p) && p.Call?
    ensures NormStep(t, s, Shown(t, p)[0]) == s.(cur := s.cur + [Rebuilt(t, p)])
  {
  }

  // The second closes the assistant's turn and becomes a result.
  lemma ResultStep(t: Tools, s: Norm, p: Piece)
    requires GoodPiece(t, p) && p.Call?
    ensures NormStep(t, s, Shown(t, p)[1]) ==
      Norm(Flushed(s).turns + [Msg("user", Blocks(Given(p)))], [], s.loaded + LoadedBy(p.outcome), s.urls + UrlsOf(p.outcome))
  {
    hide JoinWith, FoundText, PageText, TrimUrl;
    JoinOne(if p.outcome.McpSaid? then p.outcome.text else "");
  }

  lemma JoinOne(text: string)
    ensures JoinWith([text], "\n") == text
  {
  }

  lemma FlushedSays(s: Norm)
    ensures SaidBy(Flushed(s).turns, "assistant") == SaidBy(s.turns, "assistant") + s.cur
    ensures SaidBy(Flushed(s).turns, "user") == SaidBy(s.turns, "user")
    ensures s.turns <= Flushed(s).turns
  {
    SaidByMore(s.turns, Msg("assistant", Blocks(s.cur)), "assistant");
    SaidByMore(s.turns, Msg("assistant", Blocks(s.cur)), "user");
  }

  // Rewriting one piece more.
  predicate Grown(t: Tools, s: Norm, n: Norm, p: Piece)
    requires GoodPiece(t, p)
  {
    && SaidBy(n.turns, "assistant") + n.cur == SaidBy(s.turns, "assistant") + s.cur + [Rebuilt(t, p)]
    && SaidBy(n.turns, "user") == SaidBy(s.turns, "user") + Given(p)
    && n.loaded == s.loaded + (if p.Call? then LoadedBy(p.outcome) else {})
    && n.urls == s.urls + LinksOf(p)
    && s.turns <= n.turns
    && (p.Call? ==> Answered(n.turns, Rebuilt(t, p), Given(p)[0]))
  }

  lemma PieceStep(t: Tools, s: Norm, p: Piece)
    requires NamesFit(t) && GoodPiece(t, p)
    ensures Grown(t, s, NormBlocks(t, s, Shown(t, p)), p)
  {
    hide NormStep, Grown, NamesFit;
    NormTwo(t, s, [], Shown(t, p));
    assert [] + Shown(t, p) == Shown(t, p);
    if p.Call? {
      CallPieceStep(t, s, p);
    } else {
      PassPieceStep(t, s, p);
    }
  }

  lemma PassPieceStep(t: Tools, s: Norm, p: Piece)
    requires GoodPiece(t, p) && p.Pass?
    ensures Grown(t, s, NormStep(t, s, p.block), p)
  {
    hide TrimUrl, SaidBy;
  }

  lemma CallPieceStep(t: Tools, s: Norm, p: Piece)
    requires NamesFit(t) && GoodPiece(t, p) && p.Call?
    ensures Grown(t, s, NormStep(t, NormStep(t, s, Shown(t, p)[0]), Shown(t, p)[1]), p)
  {
    hide NormStep, SaidBy, Said, Failed, LoadedBy, UrlsOf, Rebuilt;
    CallStep(t, s, p);
    var s1 := s.(cur := s.cur + [Rebuilt(t, p)]);
    ResultStep(t, s1, p);
    FlushedSays(s1);
    var turns := Flushed(s1).turns;
    var user := Msg("user", Blocks(Given(p)));
    SaidByMore(turns, user, "assistant");
    SaidByMore(turns, user, "user");
    var i := |turns| - 1;
    assert AnsweredAt(turns + [user], i, Rebuilt(t, p), Given(p)[0]);
    assert s1.cur[|s.cur|] == Rebuilt(t, p);
  }

  lemma NormMore(t: Tools, s: Norm, blocks: seq<Block>, more: seq<Block>)
    requires |more| <= 2
    ensures NormBlocks(t, s, blocks + more) == NormBlocks(t, NormBlocks(t, s, blocks), more)
  {
    hide NormStep;
    NormTwo(t, s, blocks, more);
    NormTwo(t, NormBlocks(t, s, blocks), [], more);
    assert [] + more == more;
  }

  // The blocks of an answer, rewritten from the state s.
  ghost predicate RebuiltFrom(t: Tools, s: Norm, n: Norm, ps: seq<Piece>)
    requires GoodPieces(t, ps)
  {
    && SaidBy(n.turns, "assistant") + n.cur == SaidBy(s.turns, "assistant") + s.cur + RebuiltAll(t, ps)
    && SaidBy(n.turns, "user") == SaidBy(s.turns, "user") + GivenAll(ps)
    && n.loaded == s.loaded + LoadedAll(ps)
    && n.urls == s.urls + UrlsAll(ps)
    && s.turns <= n.turns
    && AllAnswered(t, n.turns, ps)
  }

  ghost predicate AllAnswered(t: Tools, turns: seq<Msg>, ps: seq<Piece>)
    requires GoodPieces(t, ps)
  {
    forall p <- ps :: p.Call? ==> Answered(turns, Rebuilt(t, p), Given(p)[0])
  }

  lemma RebuiltNothing(t: Tools, s: Norm)
    ensures RebuiltFrom(t, s, s, [])
  {
    assert LoadedAll([]) == {} && UrlsAll([]) == {};
  }

  lemma RebuiltMore(t: Tools, s: Norm, m: Norm, n: Norm, ps: seq<Piece>, p: Piece)
    requires GoodPieces(t, ps + [p]) && GoodPieces(t, ps) && GoodPiece(t, p)
    requires RebuiltFrom(t, s, m, ps) && Grown(t, m, n, p)
    ensures RebuiltFrom(t, s, n, ps + [p])
  {
    RebuiltSays(t, s, m, n, ps, p);
    AnswersStayTo(t, m.turns, n.turns, ps);
    AnswersGrow(t, n.turns, ps, p);
  }

  lemma RebuiltSays(t: Tools, s: Norm, m: Norm, n: Norm, ps: seq<Piece>, p: Piece)
    requires GoodPieces(t, ps + [p]) && GoodPieces(t, ps) && GoodPiece(t, p)
    requires RebuiltFrom(t, s, m, ps) && Grown(t, m, n, p)
    ensures SaidBy(n.turns, "assistant") + n.cur == SaidBy(s.turns, "assistant") + s.cur + RebuiltAll(t, ps + [p])
    ensures SaidBy(n.turns, "user") == SaidBy(s.turns, "user") + GivenAll(ps + [p])
    ensures n.loaded == s.loaded + LoadedAll(ps + [p]) && n.urls == s.urls + UrlsAll(ps + [p])
    ensures s.turns <= n.turns
  {
    AllsGrow(t, ps, p);
    hide Rebuilt, GoodPiece, GoodPieces, AllAnswered, SaidBy, Answered, LoadedBy, LinksOf, Given, RebuiltAll, GivenAll, LoadedAll, UrlsAll;
    Chain(SaidBy(s.turns, "assistant") + s.cur, SaidBy(m.turns, "assistant") + m.cur,
          SaidBy(n.turns, "assistant") + n.cur, RebuiltAll(t, ps), [Rebuilt(t, p)]);
    Chain(SaidBy(s.turns, "user"), SaidBy(m.turns, "user"), SaidBy(n.turns, "user"), GivenAll(ps), Given(p));
  }

  lemma Chain(a: seq<Block>, b: seq<Block>, c: seq<Block>, x: seq<Block>, y: seq<Block>)
    requires b == a + x && c == b + y
    ensures c == a + (x + y)
  {
  }

  lemma AnswersGrow(t: Tools, turns: seq<Msg>, ps: seq<Piece>, p: Piece)
    requires GoodPieces(t, ps + [p]) && GoodPieces(t, ps) && GoodPiece(t, p)
    requires AllAnswered(t, turns, ps) && (p.Call? ==> Answered(turns, Rebuilt(t, p), Given(p)[0]))
    ensures AllAnswered(t, turns, ps + [p])
  {
    hide Answered, Rebuilt, Said, Failed, GoodPiece;
  }

  lemma AnswersStayTo(t: Tools, turns: seq<Msg>, all: seq<Msg>, ps: seq<Piece>)
    requires GoodPieces(t, ps) && turns <= all
    requires AllAnswered(t, turns, ps)
    ensures AllAnswered(t, all, ps)
  {
    hide Answered, Rebuilt, Said, Failed;
    var more := all[|turns|..];
    assert turns + more == all;
    forall p | p in ps && p.Call? ensures Answered(all, Rebuilt(t, p), Given(p)[0]) {
      AnsweredStays(turns, more, Rebuilt(t, p), Given(p)[0]);
    }
  }

  lemma AllsGrow(t: Tools, ps: seq<Piece>, p: Piece)
    requires GoodPieces(t, ps + [p]) && GoodPieces(t, ps) && GoodPiece(t, p)
    ensures RebuiltAll(t, ps + [p]) == RebuiltAll(t, ps) + [Rebuilt(t, p)]
    ensures GivenAll(ps + [p]) == GivenAll(ps) + Given(p)
    ensures LoadedAll(ps + [p]) == LoadedAll(ps) + (if p.Call? then LoadedBy(p.outcome) else {})
    ensures UrlsAll(ps + [p]) == UrlsAll(ps) + LinksOf(p)
  {
    hide Rebuilt, GoodPiece, LoadedBy, LinksOf, Given;
    assert (ps + [p])[..|ps|] == ps;
  }

  // Rewriting the blocks of a whole answer.
  lemma {:induction false} AnswerRebuilt(t: Tools, s: Norm, ps: seq<Piece>)
    requires NamesFit(t) && GoodPieces(t, ps)
    ensures RebuiltFrom(t, s, NormBlocks(t, s, ShownAll(t, ps)), ps)
  {
    hide RebuiltFrom, Grown, NormBlocks, GoodPiece;
    if ps == [] {
      RebuiltNothing(t, s);
      NormTwo(t, s, [], []);
    } else {
      var before, p := ps[..|ps| - 1], ps[|ps| - 1];
      assert ps == before + [p] && p in ps;
      AnswerRebuilt(t, s, before);
      var m := NormBlocks(t, s, ShownAll(t, before));
      PieceStep(t, m, p);
      NormMore(t, s, ShownAll(t, before), Shown(t, p));
      RebuiltMore(t, s, m, NormBlocks(t, m, Shown(t, p)), before, p);
    }
  }

  // Every call comes back, or what is rebuilt differs from what the model said.
  lemma SaidAgainExactlyWhen(t: Tools, ps: seq<Piece>)
    requires NamesFit(t) && GoodPieces(t, ps)
    ensures RebuiltAll(t, ps) == Sayings(ps) <==> forall p <- ps :: ComesBack(t, p)
  {
    forall p | p in ps ensures ComesBack(t, p) <==> Rebuilt(t, p) == Saying(p) {
    }
    if RebuiltAll(t, ps) == Sayings(ps) {
      forall p | p in ps ensures ComesBack(t, p) {
        var i :| 0 <= i < |ps| && ps[i] == p;
        assert RebuiltAll(t, ps)[i] == Sayings(ps)[i];
      }
    }
  }

  // ---------------------------------------------------------------------------
  // Joining user turns
  // ---------------------------------------------------------------------------

  function Merge(msgs: seq<Msg>): seq<Msg> {
    if msgs == [] then []
    else
      var before, m := Merge(msgs[..|msgs| - 1]), msgs[|msgs| - 1];
      if before != [] && before[|before| - 1].role == "user" && m.role == "user" then
        before[..|before| - 1]
        + [Msg("user", Blocks(BlocksOf(before[|before| - 1].content) + BlocksOf(m.content)))]
      else before + [m]
  }

  predicate NoTwoUsers(msgs: seq<Msg>) {
    forall i :: 0 <= i < |msgs| - 1 ==> !(msgs[i].role == "user" && msgs[i + 1].role == "user")
  }

  // Everything said, block by block, with who said it.
  function Script(msgs: seq<Msg>): seq<(string, Block)> {
    if msgs == [] then []
    else Script(msgs[..|msgs| - 1]) + Lines(msgs[|msgs| - 1])
  }

  function Lines(m: Msg): seq<(string, Block)> {
    seq(|BlocksOf(m.content)|, i requires 0 <= i < |BlocksOf(m.content)| => (m.role, BlocksOf(m.content)[i]))
  }

  // The loop of mergeUsers.
  method MergeUsers(msgs: seq<Msg>) returns (out: seq<Msg>)
    ensures out == Merge(msgs)
  {
    out := [];
    for i := 0 to |msgs|
      invariant out == Merge(msgs[..i])
    {
      assert msgs[..i + 1][..i] == msgs[..i];
      var m := msgs[i];
      var n := |out|;
      if n > 0 && out[n - 1].role == "user" && m.role == "user" {
        var joined := BlocksOf(out[n - 1].content) + BlocksOf(m.content);
        out := out[..n - 1] + [Msg("user", Blocks(joined))];
      } else {
        out := out + [m];
      }
    }
    assert msgs[..|msgs|] == msgs;
  }

  // Main result: no two user turns in a row, and nothing lost, changed or moved.
  lemma {:induction false} MergeIsRight(msgs: seq<Msg>)
    ensures NoTwoUsers(Merge(msgs))
    ensures Script(Merge(msgs)) == Script(msgs)
    ensures msgs != [] ==> Merge(msgs) != [] && Merge(msgs)[|Merge(msgs)| - 1].role == msgs[|msgs| - 1].role
  {
    hide Merge, Script, Lines, BlocksOf;
    MergeUnfold(msgs);
    if msgs != [] {
      var rest, m := msgs[..|msgs| - 1], msgs[|msgs| - 1];
      MergeIsRight(rest);
      var before := Merge(rest);
      assert msgs == rest + [m];
      ScriptMore(rest, m);
      if before != [] && before[|before| - 1].role == "user" && m.role == "user" {
        JoinedIsRight(before, m);
      } else {
        ScriptMore(before, m);
      }
    }
  }

  lemma JoinedIsRight(before: seq<Msg>, m: Msg)
    requires before != [] && before[|before| - 1].role == "user" && m.role == "user" && NoTwoUsers(before)
    ensures var start, last := before[..|before| - 1], before[|before| - 1];
      var out := start + [Msg("user", Blocks(BlocksOf(last.content) + BlocksOf(m.content)))];
      NoTwoUsers(out) && Script(out) == Script(before) + Lines(m)
  {
    hide Script, Lines, BlocksOf;
    var start, last := before[..|before| - 1], before[|before| - 1];
    LinesJoin(last, m);
    assert before == start + [last];
    ScriptMore(start, last);
    ScriptMore(start, Msg("user", Blocks(BlocksOf(last.content) + BlocksOf(m.content))));
  }

  lemma ScriptMore(msgs: seq<Msg>, m: Msg)
    ensures Script(msgs + [m]) == Script(msgs) + Lines(m)
  {
    assert (msgs + [m])[..|msgs|] == msgs;
  }

  lemma LinesJoin(a: Msg, b: Msg)
    requires a.role == "user" && b.role == "user"
    ensures Lines(Msg("user", Blocks(BlocksOf(a.content) + BlocksOf(b.content)))) == Lines(a) + Lines(b)
  {
  }

  // A result stays in the turn directly behind its call.
  lemma {:induction false} MergeKeepsAnswers(msgs: seq<Msg>, call: Block, res: Block)
    requires Answered(msgs, call, res)
    ensures Answered(Merge(msgs), call, res)
  {
    hide Merge, BlocksOf;
    var rest, m := msgs[..|msgs| - 1], msgs[|msgs| - 1];
    var i :| 0 <= i < |msgs| - 1 && AnsweredAt(msgs, i, call, res);
    var before := Merge(rest);
    MergeUnfold(msgs);
    if i < |rest| - 1 {
      assert AnsweredAt(rest, i, call, res);
      MergeKeepsAnswers(rest, call, res);
      if before != [] && before[|before| - 1].role == "user" && m.role == "user" {
        AnsweredGrows(before, BlocksOf(m.content), call, res);
      } else {
        AnsweredStays(before, [m], call, res);
      }
    } else {
      MergeIsRight(rest);
      assert rest[|rest| - 1] == msgs[i];
      MergeKeepsOthers(rest);
      assert AnsweredAt(Merge(msgs), |before| - 1, call, res);
    }
  }

  lemma AnsweredGrows(msgs: seq<Msg>, more: seq<Block>, call: Block, res: Block)
    requires Answered(msgs, call, res) && msgs[|msgs| - 1].role == "user"
    ensures Answered(msgs[..|msgs| - 1] + [Msg("user", Blocks(BlocksOf(msgs[|msgs| - 1].content) + more))], call, res)
  {
    var j :| 0 <= j < |msgs| - 1 && AnsweredAt(msgs, j, call, res);
    assert AnsweredAt(msgs[..|msgs| - 1] + [Msg("user", Blocks(BlocksOf(msgs[|msgs| - 1].content) + more))], j, call, res);
  }

  lemma MergeUnfold(msgs: seq<Msg>)
    ensures msgs == [] ==> Merge(msgs) == [] && Script(msgs) == []
    ensures msgs != [] ==>
      var before, m := Merge(msgs[..|msgs| - 1]), msgs[|msgs| - 1];
      Merge(msgs) ==
      if before != [] && before[|before| - 1].role == "user" && m.role == "user"
      then before[..|before| - 1] + [Msg("user", Blocks(BlocksOf(before[|before| - 1].content) + BlocksOf(m.content)))]
      else before + [m]
  {
    hide BlocksOf;
  }

  lemma MergeKeepsOthers(msgs: seq<Msg>)
    requires msgs != [] && msgs[|msgs| - 1].role != "user"
    ensures Merge(msgs) != [] && Merge(msgs)[|Merge(msgs)| - 1] == msgs[|msgs| - 1]
  {
  }

  // ---------------------------------------------------------------------------
  // Rewriting a whole history
  // ---------------------------------------------------------------------------

  // The URLs in a text, found by a pattern.
  type Finder = string -> set<string>

  function Expanded(parts: seq<Part>): seq<Part> {
    seq(|parts|, i requires 0 <= i < |parts| =>
      if parts[i].Reference? then TextPart("Loaded tool: " + parts[i].name) else parts[i])
  }

  function UserBlock(b: Block): Block {
    if b.ToolResult? && b.content.Parts? && exists p <- b.content.parts :: p.Reference?
    then b.(content := Parts(Expanded(b.content.parts))) else b
  }

  function UserLoads(t: Tools, b: Block): set<string> {
    if b.ToolResult? && b.content.Parts?
    then set p | p in b.content.parts && p.Reference? && p.name in t.deferred :: p.name else {}
  }

  function UserUrls(find: Finder, b: Block): set<string> {
    if b.Words? then find(b.text) else if b.ToolResult? then find(TextOf(b.content)) else {}
  }

  function NormUser(t: Tools, find: Finder, s: Norm, blocks: seq<Block>): Norm {
    if blocks == [] then s
    else
      var n, b := NormUser(t, find, s, blocks[..|blocks| - 1]), blocks[|blocks| - 1];
      Norm(n.turns, n.cur + [UserBlock(b)], n.loaded + UserLoads(t, b), n.urls + UserUrls(find, b))
  }

  function NormTurn(t: Tools, find: Finder, s: Norm, m: Msg): Norm {
    match m.content
    case Plain(text) => s.(turns := s.turns + [m], urls := s.urls + if m.role == "user" then find(text) else {})
    case Blocks(blocks) =>
      if m.role == "assistant" then Flushed(NormBlocks(t, s, blocks))
      else
        var n := NormUser(t, find, s, blocks);
        Norm(n.turns + [Msg(m.role, Blocks(n.cur))], [], n.loaded, n.urls)
  }

  function NormHistory(t: Tools, find: Finder, s: Norm, msgs: seq<Msg>): Norm {
    if msgs == [] then s else NormTurn(t, find, NormHistory(t, find, s, msgs[..|msgs| - 1]), msgs[|msgs| - 1])
  }

  // A tool's result in a user turn: each reference to a tool became a text that names it, in its place.
  predicate Reworded(b: Block, c: Block) {
    if b.ToolResult? && b.content.Parts? then
      && c.ToolResult? && c.toolUseId == b.toolUseId && c.isError == b.isError
      && c.content.Parts? && |c.content.parts| == |b.content.parts|
      && forall i :: 0 <= i < |b.content.parts| ==>
        c.content.parts[i] ==
        if b.content.parts[i].Reference? then TextPart("Loaded tool: " + b.content.parts[i].name) else b.content.parts[i]
    else c == b
  }

  lemma BlockReworded(b: Block)
    ensures Reworded(b, UserBlock(b))
  {
  }

  // The deferred tools that a user turn refers to.
  predicate Refers(t: Tools, blocks: seq<Block>, name: string) {
    name in t.deferred && exists b <- blocks :: b.ToolResult? && b.content.Parts? && Reference(name) in b.content.parts
  }

  // A URL in a text or in a tool's result of a user turn.
  predicate Mentions(find: Finder, blocks: seq<Block>, u: string) {
    exists b <- blocks :: (b.Words? && u in find(b.text)) || (b.ToolResult? && u in find(TextOf(b.content)))
  }

  lemma {:induction false} UserBlocksAre(t: Tools, find: Finder, s: Norm, blocks: seq<Block>, name: string, u: string)
    ensures var n := NormUser(t, find, s, blocks);
      && n.turns == s.turns && |n.cur| == |s.cur| + |blocks| && n.cur[..|s.cur|] == s.cur
      && (forall i :: 0 <= i < |blocks| ==> Reworded(blocks[i], n.cur[|s.cur| + i]))
      && (name in n.loaded <==> name in s.loaded || Refers(t, blocks, name))
      && (u in n.urls <==> u in s.urls || Mentions(find, blocks, u))
  {
    hide Reworded;
    if blocks != [] {
      var rest, b := blocks[..|blocks| - 1], blocks[|blocks| - 1];
      UserBlocksAre(t, find, s, rest, name, u);
      BlockReworded(b);
      assert blocks == rest + [b];
      assert forall x <- rest :: x in blocks;
    }
  }

  // Main result on a user turn: it stays one turn of the same role, each block is reworded or as it was, and
  // exactly the tools it refers to are loaded and the URLs it mentions met.
  lemma UserTurnIs(t: Tools, find: Finder, s: Norm, role: string, blocks: seq<Block>, name: string, u: string)
    requires role != "assistant" && s.cur == []
    ensures var n := NormTurn(t, find, s, Msg(role, Blocks(blocks)));
      && |n.turns| == |s.turns| + 1 && n.turns[..|s.turns|] == s.turns && n.cur == []
      && n.turns[|s.turns|].role == role && n.turns[|s.turns|].content.Blocks?
      && |n.turns[|s.turns|].content.blocks| == |blocks|
      && (forall i :: 0 <= i < |blocks| ==> Reworded(blocks[i], n.turns[|s.turns|].content.blocks[i]))
      && (name in n.loaded <==> name in s.loaded || Refers(t, blocks, name))
      && (u in n.urls <==> u in s.urls || Mentions(find, blocks, u))
  {
    hide Reworded;
    UserBlocksAre(t, find, s, blocks, name, u);
  }

  // A turn of plain text stays as it is; the URLs in a user's are met.
  lemma PlainTurnIs(t: Tools, find: Finder, s: Norm, role: string, text: string)
    ensures var n := NormTurn(t, find, s, Msg(role, Plain(text)));
      && n.turns == s.turns + [Msg(role, Plain(text))] && n.loaded == s.loaded && n.cur == s.cur
      && n.urls == if role == "user" then s.urls + find(text) else s.urls
  {
    assert s.urls + {} == s.urls;
  }

  // Rewriting an assistant turn leaves no turn empty.
  ghost predicate NoEmptyAnswer(turns: seq<Msg>) {
    forall m <- turns :: m.role == "assistant" && m.content.Blocks? ==> m.content.blocks != []
  }

  lemma {:induction false} BlocksLeaveNoEmptyAnswer(t: Tools, s: Norm, blocks: seq<Block>)
    requires NoEmptyAnswer(s.turns)
    ensures NoEmptyAnswer(NormBlocks(t, s, blocks).turns)
  {
    if blocks != [] {
      BlocksLeaveNoEmptyAnswer(t, s, blocks[..|blocks| - 1]);
    }
  }

  lemma {:induction false} HistoryLeavesNoEmptyAnswer(t: Tools, find: Finder, s: Norm, msgs: seq<Msg>)
    requires NoEmptyAnswer(s.turns)
    ensures NoEmptyAnswer(NormHistory(t, find, s, msgs).turns)
  {
    if msgs != [] {
      var rest, m := msgs[..|msgs| - 1], msgs[|msgs| - 1];
      HistoryLeavesNoEmptyAnswer(t, find, s, rest);
      var n := NormHistory(t, find, s, rest);
      if m.content.Blocks? {
        BlocksLeaveNoEmptyAnswer(t, n, m.content.blocks);
        NormUserKeeps(t, find, n, m.content.blocks);
      }
    }
  }

  lemma {:induction false} NormBlocksGrow(t: Tools, s: Norm, blocks: seq<Block>)
    ensures var n := NormBlocks(t, s, blocks); s.turns <= n.turns && s.loaded <= n.loaded && s.urls <= n.urls
  {
    if blocks != [] {
      NormBlocksGrow(t, s, blocks[..|blocks| - 1]);
    }
  }

  lemma {:induction false} NormUserKeeps(t: Tools, find: Finder, s: Norm, blocks: seq<Block>)
    ensures var n := NormUser(t, find, s, blocks); s.turns == n.turns && s.loaded <= n.loaded && s.urls <= n.urls
  {
    if blocks != [] {
      NormUserKeeps(t, find, s, blocks[..|blocks| - 1]);
    }
  }

  lemma {:induction false} NormHistoryGrows(t: Tools, find: Finder, s: Norm, msgs: seq<Msg>, n: nat)
    requires n <= |msgs| && s.cur == []
    ensures var a, b := NormHistory(t, find, s, msgs[..n]), NormHistory(t, find, s, msgs);
      a.turns <= b.turns && a.loaded <= b.loaded && a.urls <= b.urls && b.cur == []
    decreases |msgs|
  {
    if msgs != [] {
      var rest := msgs[..|msgs| - 1];
      var m := NormHistory(t, find, s, rest);
      NormHistoryGrows(t, find, s, rest, if n < |msgs| then n else |rest|);
      if msgs[|msgs| - 1].content.Blocks? {
        NormBlocksGrow(t, m, msgs[|msgs| - 1].content.blocks);
        NormUserKeeps(t, find, m, msgs[|msgs| - 1].content.blocks);
      }
      if n < |msgs| {
        assert rest[..n] == msgs[..n];
      } else {
        assert msgs[..n] == msgs;
      }
    } else {
      assert msgs[..n] == msgs;
    }
  }

  // Main result: when the client sends back what it was shown, in any history, the
  // rewritten turns say what the model said, block by block, and give it the same
  // results; each result stands in the turn directly behind its call, and no two
  // user turns stand in a row. It says the same exactly when every call comes back.
  lemma RoundTrip(t: Tools, find: Finder, msgs: seq<Msg>, k: nat, ps: seq<Piece>)
    requires NamesFit(t) && GoodPieces(t, ps)
    requires k < |msgs| && msgs[k] == Msg("assistant", Blocks(ShownAll(t, ps)))
    ensures var start := Norm([], [], {}, {});
      var before := NormHistory(t, find, start, msgs[..k]);
      var after := NormHistory(t, find, start, msgs[..k + 1]);
      var all := NormHistory(t, find, start, msgs);
      && before.turns <= after.turns <= all.turns && after.loaded <= all.loaded && after.urls <= all.urls
      && AnswerRewritten(t, before, after, ps)
      && NoTwoUsers(Merge(all.turns)) && Script(Merge(all.turns)) == Script(all.turns)
      && AllAnswered(t, Merge(all.turns), ps)
  {
    hide NormTurn, NormHistory, AnswerRewritten, AllAnswered, NamesFit, GoodPieces, Merge;
    var start := Norm([], [], {}, {});
    NormHistoryGrows(t, find, start, msgs[..k], k);
    NormHistoryGrows(t, find, start, msgs, k + 1);
    HistoryMore(t, find, start, msgs, k);
    TurnRewritten(t, find, NormHistory(t, find, start, msgs[..k]), ps);
    var after, all := NormHistory(t, find, start, msgs[..k + 1]), NormHistory(t, find, start, msgs);
    MergeIsRight(all.turns);
    AnswersStay(t, after.turns, all.turns, ps);
  }

  // What rewriting an answer that was shown adds to the turns before it.
  predicate AnswerRewritten(t: Tools, before: Norm, after: Norm, ps: seq<Piece>)
    requires GoodPieces(t, ps)
  {
    && before.turns <= after.turns
    && SaidBy(after.turns, "user") == SaidBy(before.turns, "user") + GivenAll(ps)
    && SaidBy(after.turns, "assistant") == SaidBy(before.turns, "assistant") + RebuiltAll(t, ps)
    && (RebuiltAll(t, ps) == Sayings(ps) <==> forall p <- ps :: ComesBack(t, p))
    && after.loaded == before.loaded + LoadedAll(ps)
    && after.urls == before.urls + UrlsAll(ps)
  }

  lemma HistoryMore(t: Tools, find: Finder, s: Norm, msgs: seq<Msg>, k: nat)
    requires k < |msgs|
    ensures NormHistory(t, find, s, msgs[..k + 1]) == NormTurn(t, find, NormHistory(t, find, s, msgs[..k]), msgs[k])
  {
    assert msgs[..k + 1][..k] == msgs[..k];
  }

  lemma TurnRewritten(t: Tools, find: Finder, before: Norm, ps: seq<Piece>)
    requires NamesFit(t) && GoodPieces(t, ps) && before.cur == []
    ensures var after := NormTurn(t, find, before, Msg("assistant", Blocks(ShownAll(t, ps))));
      before.turns <= after.turns && AnswerRewritten(t, before, after, ps) && AllAnswered(t, after.turns, ps)
  {
    hide NormBlocks, SaidBy, Answered, Rebuilt, ComesBack, ShownAll, Said, Failed, GoodPiece, NamesFit, RebuiltFrom, AnswerRewritten, AllAnswered;
    var n := NormBlocks(t, before, ShownAll(t, ps));
    AnswerRebuilt(t, before, ps);
    FlushRewritten(t, before, n, ps);
    FlushAnswered(t, before, n, ps);
  }

  lemma FlushRewritten(t: Tools, before: Norm, n: Norm, ps: seq<Piece>)
    requires NamesFit(t) && GoodPieces(t, ps) && before.cur == [] && RebuiltFrom(t, before, n, ps)
    ensures before.turns <= Flushed(n).turns && AnswerRewritten(t, before, Flushed(n), ps)
  {
    SaidAgainExactlyWhen(t, ps);
    FlushedSays(n);
    hide SaidBy, AllAnswered, ComesBack, GoodPieces, NamesFit, RebuiltAll, Sayings, GivenAll, LoadedAll, UrlsAll;
    assert SaidBy(before.turns, "assistant") + [] == SaidBy(before.turns, "assistant");
  }

  lemma FlushAnswered(t: Tools, before: Norm, n: Norm, ps: seq<Piece>)
    requires GoodPieces(t, ps) && RebuiltFrom(t, before, n, ps)
    ensures AllAnswered(t, Flushed(n).turns, ps)
  {
    hide SaidBy, AllAnswered, RebuiltAll, GivenAll, LoadedAll, UrlsAll;
    AnswersStayTo(t, n.turns, Flushed(n).turns, ps);
  }

  lemma AnswersStay(t: Tools, turns: seq<Msg>, all: seq<Msg>, ps: seq<Piece>)
    requires GoodPieces(t, ps) && turns <= all
    requires AllAnswered(t, turns, ps)
    ensures AllAnswered(t, Merge(all), ps)
  {
    hide Merge, Answered, Rebuilt, Said, Failed;
    AnswersStayTo(t, turns, all, ps);
    forall p | p in ps && p.Call? ensures Answered(Merge(all), Rebuilt(t, p), Given(p)[0]) {
      MergeKeepsAnswers(all, Rebuilt(t, p), Given(p)[0]);
    }
  }

  // ---------------------------------------------------------------------------
  // The names servers' tools are given
  // ---------------------------------------------------------------------------

  datatype Names = Names(handled: map<string, Handler>, mcpNames: map<string, string>, used: set<string>)

  // A tool keeps its own name unless that is taken.
  function GivenName(used: set<string>, server: string, remote: string): string {
    if remote in used then server + "__" + remote else remote
  }

  function Register(tools: seq<(string, string)>, used: set<string>): Names {
    if tools == [] then Names(map[], map[], used)
    else
      var n, (server, remote) := Register(tools[..|tools| - 1], used), tools[|tools| - 1];
      var name := GivenName(n.used, server, remote);
      Names(n.handled[name := Mcp(server, remote)], n.mcpNames[McpKey(server, remote) := name], n.used + {name})
  }

  function NameAt(tools: seq<(string, string)>, used: set<string>, i: nat): string
    requires i < |tools|
  {
    GivenName(Register(tools[..i], used).used, tools[i].0, tools[i].1)
  }

  function KeyAt(tools: seq<(string, string)>, i: nat): string
    requires i < |tools|
  {
    McpKey(tools[i].0, tools[i].1)
  }

  // The tool was listed twice, and only its first name still stands for it.
  predicate Renamed(tools: seq<(string, string)>, used: set<string>, i: nat, j: nat) {
    && i < j < |tools| && KeyAt(tools, i) == KeyAt(tools, j)
    && forall k :: i < k < |tools| ==> NameAt(tools, used, k) != NameAt(tools, used, i)
  }

  predicate NameAgrees(n: Names, name: string)
    requires name in n.handled
  {
    && n.handled[name].Mcp?
    && McpKey(n.handled[name].server, n.handled[name].remote) in n.mcpNames
    && n.mcpNames[McpKey(n.handled[name].server, n.handled[name].remote)] == name
  }

  predicate NamesAgree(n: Names) {
    forall name <- n.handled :: NameAgrees(n, name)
  }

  // When the names agree, every call comes back that has an object as its input.
  lemma AgreedCallsComeBack(t: Tools, p: Piece)
    requires p.Call? && GoodPiece(t, p) && (t.handled[p.name].Mcp? ==> NameAgrees(Names(t.handled, t.mcpNames, {}), p.name))
    ensures ComesBack(t, p) <==> p.input.Object?
    ensures p.input.Object? ==> Rebuilt(t, p) == ToolUse(p.id, p.name, p.input)
  {
  }

  // Registration i is the last under its name, or of its key.
  predicate LastNamed(tools: seq<(string, string)>, used: set<string>, i: nat, name: string) {
    i < |tools| && NameAt(tools, used, i) == name && forall k :: i < k < |tools| ==> NameAt(tools, used, k) != name
  }

  predicate LastKeyed(tools: seq<(string, string)>, j: nat, key: string) {
    j < |tools| && KeyAt(tools, j) == key && forall k :: j < k < |tools| ==> KeyAt(tools, k) != key
  }

  // A name stands for the tool it was given to last.
  predicate NameStandsFor(tools: seq<(string, string)>, used: set<string>, name: string, i: nat) {
    && LastNamed(tools, used, i, name) && name in Register(tools, used).handled
    && Register(tools, used).handled[name] == Mcp(tools[i].0, tools[i].1)
  }

  // A key is known by the name its tool was given last.
  predicate KeyKnownBy(tools: seq<(string, string)>, used: set<string>, key: string, j: nat) {
    && LastKeyed(tools, j, key) && key in Register(tools, used).mcpNames
    && Register(tools, used).mcpNames[key] == NameAt(tools, used, j)
  }

  lemma EarlierAlike(tools: seq<(string, string)>, used: set<string>, i: nat)
    requires i < |tools| - 1
    ensures NameAt(tools, used, i) == NameAt(tools[..|tools| - 1], used, i)
    ensures KeyAt(tools, i) == KeyAt(tools[..|tools| - 1], i)
  {
    assert tools[..|tools| - 1][..i] == tools[..i];
  }

  lemma {:induction false} NameMeans(tools: seq<(string, string)>, used: set<string>, name: string) returns (i: nat)
    requires name in Register(tools, used).handled
    ensures NameStandsFor(tools, used, name, i)
  {
    hide GivenName, McpKey;
    var last := |tools| - 1;
    if name == NameAt(tools, used, last) {
      i := last;
    } else {
      i := NameMeans(tools[..last], used, name);
      forall k: nat | k < last ensures NameAt(tools, used, k) == NameAt(tools[..last], used, k) {
        EarlierAlike(tools, used, k);
      }
    }
  }

  lemma {:induction false} KeyMeans(tools: seq<(string, string)>, used: set<string>, key: string) returns (j: nat)
    requires key in Register(tools, used).mcpNames
    ensures KeyKnownBy(tools, used, key, j)
  {
    hide GivenName, McpKey;
    var last := |tools| - 1;
    if key == KeyAt(tools, last) {
      j := last;
    } else {
      j := KeyMeans(tools[..last], used, key);
      forall k: nat | k < last
        ensures NameAt(tools, used, k) == NameAt(tools[..last], used, k) && KeyAt(tools, k) == KeyAt(tools[..last], k)
      {
        EarlierAlike(tools, used, k);
      }
    }
  }

  lemma {:induction false} AllRegistered(tools: seq<(string, string)>, used: set<string>, i: nat)
    requires i < |tools|
    ensures NameAt(tools, used, i) in Register(tools, used).handled && KeyAt(tools, i) in Register(tools, used).mcpNames
  {
    hide GivenName, McpKey;
    if i < |tools| - 1 {
      EarlierAlike(tools, used, i);
      AllRegistered(tools[..|tools| - 1], used, i);
    } else {
      assert tools[..i] == tools[..|tools| - 1];
    }
  }

  // Every call of a server's tool comes back by its name, unless a tool was listed
  // twice and its first name still stands for it.
  lemma NamesAgreeExactlyWhen(tools: seq<(string, string)>, used: set<string>)
    ensures NamesAgree(Register(tools, used)) <==> !exists i: nat, j: nat :: Renamed(tools, used, i, j)
  {
    hide Register, NameAt;
    var n := Register(tools, used);
    forall name | name in n.handled && !(exists i: nat, j: nat :: Renamed(tools, used, i, j)) ensures NameAgrees(n, name) {
      var i := NameMeans(tools, used, name);
      AllRegistered(tools, used, i);
      var j := KeyMeans(tools, used, KeyAt(tools, i));
      assert NameAt(tools, used, j) == name || Renamed(tools, used, i, j);
    }
    if i: nat, j: nat :| Renamed(tools, used, i, j) {
      var name := NameAt(tools, used, i);
      AllRegistered(tools, used, i);
      var i' := NameMeans(tools, used, name);
      var j' := KeyMeans(tools, used, KeyAt(tools, i));
      assert i' == i && j' >= j;
      assert !NameAgrees(n, name);
    }
  }

  // One server that lists a tool twice: a call by its name comes back under another.
  lemma ListedTwice(server: string, remote: string)
    ensures var n := Register([(server, remote), (server, remote)], {});
      && remote in n.handled && n.handled[remote] == Mcp(server, remote)
      && McpKey(server, remote) in n.mcpNames && n.mcpNames[McpKey(server, remote)] == server + "__" + remote != remote
  {
    var tools := [(server, remote), (server, remote)];
    assert tools[..1] == [(server, remote)] && [(server, remote)][..0] == [];
    var one := Register([(server, remote)], {});
    assert remote !in Register([], {}).used && GivenName({}, server, remote) == remote;
    assert one.handled == map[remote := Mcp(server, remote)] && remote in one.used;
    assert |server + "__" + remote| > |remote|;
    assert Register(tools, {}).handled == one.handled[server + "__" + remote := Mcp(server, remote)];
  }

  // ---------------------------------------------------------------------------
  // The plan
  // ---------------------------------------------------------------------------

  // What Advance comes to: call the model again, or answer the client; Final("")
  // keeps the model's own reason to stop.
  datatype Verdict = Again | Final(stop: string)

  predicate Runs(t: Tools, b: Block) {
    b.ToolUse? && b.name in t.handled
  }

  // An answer's blocks are the pieces; a call that was run carries its own id.
  predicate PiecesOf(t: Tools, content: seq<Block>, ids: seq<string>, ps: seq<Piece>) {
    && |ps| == |content| == |ids|
    && forall i :: 0 <= i < |ps| ==>
      if Runs(t, content[i])
      then ps[i].Call? && ps[i].id == ids[i] && ps[i].name == content[i].name && ps[i].input == content[i].input
      else ps[i] == Pass(content[i])
  }

  lemma PiecesMore(t: Tools, ps: seq<Piece>, p: Piece)
    requires GoodPieces(t, ps) && GoodPiece(t, p)
    ensures GoodPieces(t, ps + [p]) && ShownAll(t, ps + [p]) == ShownAll(t, ps) + Shown(t, p)
    ensures Sayings(ps + [p]) == Sayings(ps) + [Saying(p)] && GivenAll(ps + [p]) == GivenAll(ps) + Given(p)
    ensures LoadedAll(ps + [p]) == LoadedAll(ps) + (if p.Call? then LoadedBy(p.outcome) else {})
    ensures FetchedBy(ps + [p]) == FetchedBy(ps) + (if p.Call? then UrlsOf(p.outcome) else {})
  {
    hide GoodPiece, Shown, Saying, Given, LoadedBy, UrlsOf;
    assert (ps + [p])[..|ps|] == ps;
  }

  // The two turns an answer adds to the conversation with the model.
  function Turns(ps: seq<Piece>): seq<Msg> {
    [Msg("assistant", Blocks(Sayings(ps))), Msg("user", Blocks(GivenAll(ps)))]
  }

  lemma PiecesOfMore(t: Tools, content: seq<Block>, ids: seq<string>, ps: seq<Piece>, i: nat, p: Piece)
    requires i < |content| == |ids| && PiecesOf(t, content[..i], ids[..i], ps)
    requires if Runs(t, content[i])
      then p.Call? && p.id == ids[i] && p.name == content[i].name && p.input == content[i].input else p == Pass(content[i])
    ensures PiecesOf(t, content[..i + 1], ids[..i + 1], ps + [p])
  {
    hide Runs;
  }

  function FetchedBy(ps: seq<Piece>): set<string> {
    set p, u | p in ps && p.Call? && u in UrlsOf(p.outcome) :: u
  }

  // What comes of a fetch: nothing is read beyond the uses, without a URL, or with one not met before.
  function FetchOf(t: Tools, trimSpace: string -> string, urls: set<string>, uses: nat, input: Input, answer: Outcome): Outcome {
    var raw := if input.Object? && "url" in input.fields then trimSpace(input.fields["url"]) else "";
    if t.maxUses > 0 && uses >= t.maxUses then FetchFailed("max_uses_exceeded")
    else if raw == "" then FetchFailed("invalid_tool_input")
    else if TrimUrl(raw) !in urls then FetchFailed("url_not_in_prior_context")
    else answer
  }

  // A page is read exactly when the tool reads it, its URL was met before, and uses are left.
  lemma ReadExactlyWhen(t: Tools, trimSpace: string -> string, urls: set<string>, uses: nat, input: Input, answer: Outcome)
    requires answer.Fetched? || answer.FetchFailed?
    ensures FetchOf(t, trimSpace, urls, uses, input, answer).Fetched? <==>
      && answer.Fetched? && (t.maxUses <= 0 || uses < t.maxUses)
      && input.Object? && "url" in input.fields && trimSpace(input.fields["url"]) != ""
      && TrimUrl(trimSpace(input.fields["url"])) in urls
    ensures FetchOf(t, trimSpace, urls, uses, input, answer).Fetched? ==> FetchOf(t, trimSpace, urls, uses, input, answer) == answer
    ensures t.maxUses > 0 && uses >= t.maxUses ==>
      FetchOf(t, trimSpace, urls, uses, input, answer) == FetchFailed("max_uses_exceeded")
    ensures (t.maxUses <= 0 || uses < t.maxUses) && input.NotObject? ==>
      FetchOf(t, trimSpace, urls, uses, input, answer) == FetchFailed("invalid_tool_input")
  {
  }

  predicate IsFetch(t: Tools, p: Piece) {
    p.Call? && p.name in t.handled && t.handled[p.name].Fetch?
  }

  function Fetches(t: Tools, ps: seq<Piece>): nat {
    if ps == [] then 0 else Fetches(t, ps[..|ps| - 1]) + if IsFetch(t, ps[|ps| - 1]) then 1 else 0
  }

  function PagesRead(ps: seq<Piece>): nat {
    if ps == [] then 0 else PagesRead(ps[..|ps| - 1]) + if ps[|ps| - 1].Call? && ps[|ps| - 1].outcome.Fetched? then 1 else 0
  }

  // Every call has the outcome its tool gave; a fetch the one its input, the URLs met and the uses allow then.
  predicate OutcomesOf(t: Tools, trimSpace: string -> string, urls: set<string>, uses: nat, answers: seq<Outcome>, ps: seq<Piece>) {
    |answers| == |ps| && forall i: nat :: i < |ps| ==> OutcomeRight(t, trimSpace, urls, uses, answers, ps, i)
  }

  predicate OutcomeRight(t: Tools, trimSpace: string -> string, urls: set<string>, uses: nat, answers: seq<Outcome>, ps: seq<Piece>, i: nat)
    requires i < |answers| == |ps|
  {
    ps[i].Call? ==>
      ps[i].outcome == OutcomeAt(t, trimSpace, urls + FetchedBy(ps[..i]), uses + Fetches(t, ps[..i]), answers[i], ps[i])
  }

  lemma OutcomeInside(t: Tools, trimSpace: string -> string, urls: set<string>, uses: nat, answers: seq<Outcome>, ps: seq<Piece>, n: nat, i: nat)
    requires i < n <= |answers| == |ps|
    ensures OutcomeRight(t, trimSpace, urls, uses, answers[..n], ps[..n], i) == OutcomeRight(t, trimSpace, urls, uses, answers, ps, i)
  {
    assert ps[..n][..i] == ps[..i];
    hide OutcomeAt, FetchedBy, Fetches;
  }

  function OutcomeAt(t: Tools, trimSpace: string -> string, urls: set<string>, uses: nat, answer: Outcome, p: Piece): Outcome
    requires p.Call?
  {
    if IsFetch(t, p) then FetchOf(t, trimSpace, urls, uses, p.input, answer) else answer
  }

  lemma OutcomesMore(t: Tools, trimSpace: string -> string, urls: set<string>, uses: nat, answers: seq<Outcome>, ps: seq<Piece>, a: Outcome, p: Piece)
    requires OutcomesOf(t, trimSpace, urls, uses, answers, ps)
    requires p.Call? ==> p.outcome == OutcomeAt(t, trimSpace, urls + FetchedBy(ps), uses + Fetches(t, ps), a, p)
    ensures OutcomesOf(t, trimSpace, urls, uses, answers + [a], ps + [p])
  {
    var n, moreAs, more := |ps|, answers + [a], ps + [p];
    assert more[..n] == ps && moreAs[..n] == answers;
    hide OutcomeAt, FetchedBy, Fetches;
    assert OutcomeRight(t, trimSpace, urls, uses, moreAs, more, n);
    hide OutcomeRight;
    forall i: nat | i < n ensures OutcomeRight(t, trimSpace, urls, uses, moreAs, more, i) {
      OutcomeInside(t, trimSpace, urls, uses, moreAs, more, n, i);
    }
  }

  lemma FetchesMore(t: Tools, ps: seq<Piece>, p: Piece)
    ensures Fetches(t, ps + [p]) == Fetches(t, ps) + if IsFetch(t, p) then 1 else 0
  {
    assert (ps + [p])[..|ps|] == ps;
  }

  lemma OutcomesBefore(t: Tools, trimSpace: string -> string, urls: set<string>, uses: nat, answers: seq<Outcome>, ps: seq<Piece>, n: nat)
    requires OutcomesOf(t, trimSpace, urls, uses, answers, ps) && n <= |ps|
    ensures OutcomesOf(t, trimSpace, urls, uses, answers[..n], ps[..n])
  {
    hide OutcomeRight;
    forall i: nat | i < n ensures OutcomeRight(t, trimSpace, urls, uses, answers[..n], ps[..n], i) {
      OutcomeInside(t, trimSpace, urls, uses, answers, ps, n, i);
    }
  }

  // No more pages are read than the tool may be used.
  lemma {:induction false} PagesWithinUses(t: Tools, trimSpace: string -> string, urls: set<string>, uses: nat, answers: seq<Outcome>, ps: seq<Piece>)
    requires OutcomesOf(t, trimSpace, urls, uses, answers, ps) && GoodPieces(t, ps)
    ensures PagesRead(ps) <= Fetches(t, ps)
    ensures t.maxUses > 0 && PagesRead(ps) > 0 ==> uses + PagesRead(ps) <= t.maxUses
  {
    if ps != [] {
      var n := |ps| - 1;
      var before, p := ps[..n], ps[n];
      assert p in ps && forall q <- before :: q in ps;
      assert OutcomeRight(t, trimSpace, urls, uses, answers, ps, n);
      OutcomesBefore(t, trimSpace, urls, uses, answers, ps, n);
      PageNeedsUse(t, trimSpace, urls + FetchedBy(before), uses + Fetches(t, before), answers[n], p);
      hide OutcomesOf, OutcomeAt, FetchedBy, GoodPiece;
      PagesWithinUses(t, trimSpace, urls, uses, answers[..n], before);
    }
  }

  lemma PageNeedsUse(t: Tools, trimSpace: string -> string, urls: set<string>, uses: nat, answer: Outcome, p: Piece)
    requires GoodPiece(t, p) && p.Call? && p.outcome.Fetched? ==> p.outcome == OutcomeAt(t, trimSpace, urls, uses, answer, p)
    ensures GoodPiece(t, p) && p.Call? && p.outcome.Fetched? ==> IsFetch(t, p) && (t.maxUses > 0 ==> uses < t.maxUses)
  {
  }

  class Plan {
    const t: Tools
    const trimSpace: string -> string
    var messages: seq<Msg>
    var out: seq<Block>
    var loaded: set<string>
    var urls: set<string>
    var turns: nat
    var fetchUses: nat

    constructor (t: Tools, trimSpace: string -> string)
      ensures this.t == t && messages == [] && out == [] && loaded == {} && urls == {} && turns == 0 && fetchUses == 0
    {
      this.t, this.trimSpace := t, trimSpace;
      messages, out, loaded, urls, turns, fetchUses := [], [], {}, {}, 0, 0;
    }

    // One fetch: the page is read only when its URL was seen before and uses are left.
    method RunFetch(input: Input, answer: Outcome) returns (o: Outcome)
      requires answer.Fetched? || answer.FetchFailed?
      modifies this`urls, this`fetchUses
      ensures o.Fetched? || o.FetchFailed?
      ensures fetchUses == old(fetchUses) + 1 && urls == old(urls) + UrlsOf(o)
      ensures o == FetchOf(t, trimSpace, old(urls), old(fetchUses), input, answer)
    {
      var raw := if input.Object? && "url" in input.fields then trimSpace(input.fields["url"]) else "";
      fetchUses := fetchUses + 1;
      if t.maxUses > 0 && fetchUses > t.maxUses {
        return FetchFailed("max_uses_exceeded");
      }
      if raw == "" {
        return FetchFailed("invalid_tool_input");
      }
      if TrimUrl(raw) !in urls {
        return FetchFailed("url_not_in_prior_context");
      }
      o := answer;
      if o.Fetched? {
        urls := urls + {TrimUrl(o.url)};
      }
    }

    method Run(h: Handler, id: string, input: Input, answer: Outcome)
      returns (call: Block, result: Block, text: string, isErr: bool, ghost o: Outcome)
      requires FitsHandler(t, h, answer)
      modifies this`loaded, this`urls, this`fetchUses
      ensures FitsHandler(t, h, o) && fetchUses == old(fetchUses) + (if h.Fetch? then 1 else 0)
      ensures o == if h.Fetch? then FetchOf(t, trimSpace, old(urls), old(fetchUses), input, answer) else answer
      ensures call == CallBlock(t, h, id, input) && result == ResultBlock(id, o) && text == Said(o) && isErr == Failed(o)
      ensures loaded == old(loaded) + LoadedBy(o) && urls == old(urls) + UrlsOf(o)
    {
      var got := answer;
      if h.Fetch? {
        got := RunFetch(input, answer);
      }
      o := got;
      call, result, text, isErr := CallBlock(t, h, id, input), ResultBlock(id, got), Said(got), Failed(got);
      if got.Hits? {
        loaded := loaded + set n <- got.names;
      }
    }

    // One block of an answer: a call of a tool of intact's is run, any other block passes.
    method Handle(b: Block, id: string, answer: Outcome) returns (said: Block, given: seq<Block>, ghost p: Piece)
      requires Kept(t, b) && (Runs(t, b) ==> FitsHandler(t, t.handled[b.name], answer))
      modifies this`out, this`loaded, this`urls, this`fetchUses
      ensures GoodPiece(t, p) && out == old(out) + Shown(t, p) && said == Saying(p) && given == Given(p)
      ensures if Runs(t, b) then p.Call? && p.id == id && p.name == b.name && p.input == b.input else p == Pass(b)
      ensures p.Call? ==> p.outcome == OutcomeAt(t, trimSpace, old(urls), old(fetchUses), answer, p)
      ensures fetchUses == old(fetchUses) + (if IsFetch(t, p) then 1 else 0)
      ensures loaded == old(loaded) + (if p.Call? then LoadedBy(p.outcome) else {})
      ensures urls == old(urls) + (if p.Call? then UrlsOf(p.outcome) else {})
    {
      hide Kept, FitsHandler, Said, Failed, LoadedBy, UrlsOf, FetchOf;
      if !Runs(t, b) {
        p := Pass(b);
        PieceIsGood(t, p);
        out := out + [b];
        return b, [], p;
      }
      RunsIsCall(t, b);
      var call, result, text, isErr, o := Run(t.handled[b.name], id, b.input, answer);
      p := Call(id, b.name, b.input, o);
      PieceIsGood(t, p);
      out := out + [call, result];
      said := ToolUse(id, b.name, b.input);
      given := [ToolResult(id, Str(text), isErr)];
    }

    // The model's answer: ids are new, answers are what came of each call.
    method Advance(content: seq<Block>, ids: seq<string>, answers: seq<Outcome>) returns (v: Verdict, ghost ps: seq<Piece>)
      requires |ids| == |content| == |answers|
      requires forall b <- content :: Kept(t, b)
      requires forall i :: 0 <= i < |content| && Runs(t, content[i]) ==> FitsHandler(t, t.handled[content[i].name], answers[i])
      modifies this
      ensures GoodPieces(t, ps) && PiecesOf(t, content, ids, ps)
      ensures OutcomesOf(t, trimSpace, old(urls), old(fetchUses), answers, ps) && fetchUses == old(fetchUses) + Fetches(t, ps)
      ensures out == old(out) + ShownAll(t, ps)
      ensures loaded == old(loaded) + LoadedAll(ps) && urls == old(urls) + FetchedBy(ps)
      ensures v == Again <==> (exists b <- content :: Runs(t, b)) && (forall b <- content :: b.ToolUse? ==> Runs(t, b))
                              && old(turns) + 1 < MAX_TURNS
      ensures v == Again ==> turns == old(turns) + 1 && messages == old(messages) + Turns(ps)
      ensures v != Again ==> messages == old(messages)
      ensures v == Final("pause_turn") ==> old(turns) + 1 >= MAX_TURNS
    {
      hide PiecesOf, GoodPieces, Kept, FitsHandler, Runs, Shown, Saying, Given, LoadedBy, UrlsOf, ShownAll, Sayings, GivenAll, LoadedAll, FetchedBy, GoodPiece, OutcomesOf, OutcomeAt, IsFetch, Fetches;
      var mine := exists b <- content :: Runs(t, b);
      var client := exists b <- content :: b.ToolUse? && !Runs(t, b);
      var said, given := [], [];
      ps := [];
      NoPieces(t);
      NoOutcomes(t, trimSpace, urls, fetchUses);
      for i := 0 to |content|
        invariant GoodPieces(t, ps) && PiecesOf(t, content[..i], ids[..i], ps)
        invariant OutcomesOf(t, trimSpace, old(urls), old(fetchUses), answers[..i], ps) && fetchUses == old(fetchUses) + Fetches(t, ps)
        invariant out == old(out) + ShownAll(t, ps) && said == Sayings(ps) && given == GivenAll(ps)
        invariant loaded == old(loaded) + LoadedAll(ps) && urls == old(urls) + FetchedBy(ps)
        invariant messages == old(messages) && turns == old(turns)
      {
        var s, g, p := Handle(content[i], ids[i], answers[i]);
        said, given := said + [s], given + g;
        PiecesMore(t, ps, p);
        PiecesOfMore(t, content, ids, ps, i, p);
        assert answers[..i + 1] == answers[..i] + [answers[i]];
        FetchesMore(t, ps, p);
        OutcomesMore(t, trimSpace, old(urls), old(fetchUses), answers[..i], ps, answers[i], p);
        ps := ps + [p];
      }
      assert content[..|content|] == content && ids[..|content|] == ids && answers[..|content|] == answers;
      if !mine || client {
        return Final(""), ps;
      }
      turns := turns + 1;
      if turns >= MAX_TURNS {
        return Final("pause_turn"), ps;
      }
      messages := messages + [Msg("assistant", Blocks(said)), Msg("user", Blocks(given))];
      v := Again;
    }

    // The history a client sends, rewritten for the model.
    method Normalize(msgs: seq<Msg>, find: Finder) returns (rewritten: seq<Msg>)
      modifies this`loaded, this`urls
      ensures var n := NormHistory(t, find, Norm([], [], old(loaded), old(urls)), msgs);
        rewritten == Merge(n.turns) && loaded == n.loaded && urls == n.urls
    {
      hide NormStep, NormUser, Merge;
      ghost var start := Norm([], [], loaded, urls);
      var n := Norm([], [], loaded, urls);
      NormHistoryGrows(t, find, start, msgs, 0);
      for i := 0 to |msgs|
        invariant n == NormHistory(t, find, start, msgs[..i])
      {
        assert msgs[..i + 1][..i] == msgs[..i];
        var m := msgs[i];
        if m.content.Plain? {
          n := NormTurn(t, find, n, m);
        } else if m.role != "assistant" {
          var user := UserTurn(n, m.content.blocks, find);
          n := Norm(user.turns + [Msg(m.role, Blocks(user.cur))], [], user.loaded, user.urls);
        } else {
          n := AssistantTurn(n, m.content.blocks);
        }
      }
      assert msgs[..|msgs|] == msgs;
      loaded, urls := n.loaded, n.urls;
      rewritten := MergeUsers(n.turns);
    }

    method UserTurn(s: Norm, blocks: seq<Block>, find: Finder) returns (n: Norm)
      ensures n == NormUser(t, find, s, blocks)
    {
      n := s;
      for i := 0 to |blocks|
        invariant n == NormUser(t, find, s, blocks[..i])
      {
        assert blocks[..i + 1][..i] == blocks[..i];
        var b := blocks[i];
        n := Norm(n.turns, n.cur + [UserBlock(b)], n.loaded + UserLoads(t, b), n.urls + UserUrls(find, b));
      }
      assert blocks[..|blocks|] == blocks;
    }

    method AssistantTurn(s: Norm, blocks: seq<Block>) returns (n: Norm)
      ensures n == Flushed(NormBlocks(t, s, blocks))
    {
      n := s;
      for i := 0 to |blocks|
        invariant n == NormBlocks(t, s, blocks[..i])
      {
        assert blocks[..i + 1][..i] == blocks[..i];
        n := NormStep(t, n, blocks[i]);
      }
      assert blocks[..|blocks|] == blocks;
      n := Flushed(n);
    }
  }

  lemma NoOutcomes(t: Tools, trimSpace: string -> string, urls: set<string>, uses: nat)
    ensures OutcomesOf(t, trimSpace, urls, uses, [], []) && Fetches(t, []) == 0
  {
  }

  lemma NoPieces(t: Tools)
    ensures PiecesOf(t, [], [], [])
    ensures GoodPieces(t, []) && ShownAll(t, []) == [] && Sayings([]) == [] && GivenAll([]) == []
    ensures LoadedAll([]) == {} && FetchedBy([]) == {}
  {
  }

  lemma RunsIsCall(t: Tools, b: Block)
    requires Runs(t, b)
    ensures b.ToolUse? && b.name in t.handled
  {
  }

  lemma PieceIsGood(t: Tools, p: Piece)
    requires if p.Call? then p.name in t.handled && FitsHandler(t, t.handled[p.name], p.outcome) else Kept(t, p.block)
    ensures GoodPiece(t, p)
    ensures Shown(t, p) ==
      if p.Call? then [CallBlock(t, t.handled[p.name], p.id, p.input), ResultBlock(p.id, p.outcome)] else [p.block]
  {
  }

  // ---------------------------------------------------------------------------
  // A whole request
  // ---------------------------------------------------------------------------

  lemma {:induction false} AllBoth(t: Tools, a: seq<Piece>, b: seq<Piece>)
    requires GoodPieces(t, a) && GoodPieces(t, b)
    ensures GoodPieces(t, a + b) && ShownAll(t, a + b) == ShownAll(t, a) + ShownAll(t, b)
    ensures Sayings(a + b) == Sayings(a) + Sayings(b) && GivenAll(a + b) == GivenAll(a) + GivenAll(b)
    ensures LoadedAll(a + b) == LoadedAll(a) + LoadedAll(b)
    decreases |b|
  {
    hide GoodPiece, Shown, Saying, Given, LoadedBy, ShownAll, Sayings, GivenAll, LoadedAll, FetchedBy;
    NoPieces(t);
    if b == [] {
      assert a + b == a;
    } else {
      var rest, p := b[..|b| - 1], b[|b| - 1];
      assert p in b && b == rest + [p];
      AllBoth(t, a, rest);
      PiecesMore(t, a + rest, p);
      PiecesMore(t, rest, p);
      assert a + b == a + rest + [p];
    }
  }

  lemma NoPages()
    ensures PagesRead([]) == 0
  {
  }

  lemma {:induction false} PagesBoth(a: seq<Piece>, b: seq<Piece>)
    ensures PagesRead(a + b) == PagesRead(a) + PagesRead(b)
    decreases |b|
  {
    if b == [] {
      assert a + b == a;
    } else {
      assert (a + b)[..|a + b| - 1] == a + b[..|b| - 1];
      PagesBoth(a, b[..|b| - 1]);
    }
  }

  lemma TurnsSay(msgs: seq<Msg>, ps: seq<Piece>)
    ensures SaidBy(msgs + Turns(ps), "assistant") == SaidBy(msgs, "assistant") + Sayings(ps)
    ensures SaidBy(msgs + Turns(ps), "user") == SaidBy(msgs, "user") + GivenAll(ps)
  {
    hide Sayings, GivenAll, SaidBy;
    var a, u := Turns(ps)[0], Turns(ps)[1];
    assert msgs + Turns(ps) == (msgs + [a]) + [u];
    SaidByMore(msgs, a, "assistant");
    SaidByMore(msgs, a, "user");
    SaidByMore(msgs + [a], u, "assistant");
    SaidByMore(msgs + [a], u, "user");
  }

  // One answer of the model, with the ids and the outcomes of its calls.
  datatype Answer = Answer(content: seq<Block>, ids: seq<string>, outcomes: seq<Outcome>)

  predicate GoodAnswer(t: Tools, a: Answer) {
    && |a.ids| == |a.content| == |a.outcomes|
    && (forall b <- a.content :: Kept(t, b))
    && forall i :: 0 <= i < |a.content| && Runs(t, a.content[i]) ==> FitsHandler(t, t.handled[a.content[i].name], a.outcomes[i])
  }

  // Main result: over a whole request, the client is shown exactly the pieces, and
  // the model's conversation says the same pieces, those of the last answer aside;
  // what a search loaded while it ran is what the history will load again.
  method Serve(p: Plan, answers: seq<Answer>) returns (v: Verdict, ghost told: seq<Piece>, ghost last: seq<Piece>)
    requires forall a <- answers :: GoodAnswer(p.t, a)
    modifies p
    ensures GoodPieces(p.t, told + last)
    ensures p.out == old(p.out) + ShownAll(p.t, told + last)
    ensures SaidBy(p.messages, "assistant") == SaidBy(old(p.messages), "assistant") + Sayings(told)
    ensures SaidBy(p.messages, "user") == SaidBy(old(p.messages), "user") + GivenAll(told)
    ensures p.loaded == old(p.loaded) + LoadedAll(told + last)
    ensures v == Again ==> last == []
    ensures p.t.maxUses > 0 && PagesRead(told + last) > 0 ==> old(p.fetchUses) + PagesRead(told + last) <= p.t.maxUses
  {
    hide OutcomesOf, PagesRead, Fetches;
    hide GoodPieces, ShownAll, Sayings, GivenAll, LoadedAll, FetchedBy, PiecesOf, SaidBy, Turns;
    v, told, last := Again, [], [];
    NoPieces(p.t);
    NoPages();
    for i := 0 to |answers|
      invariant v == Again && last == [] && GoodPieces(p.t, told)
      invariant p.out == old(p.out) + ShownAll(p.t, told) && p.loaded == old(p.loaded) + LoadedAll(told)
      invariant SaidBy(p.messages, "assistant") == SaidBy(old(p.messages), "assistant") + Sayings(told)
      invariant SaidBy(p.messages, "user") == SaidBy(old(p.messages), "user") + GivenAll(told)
      invariant old(p.fetchUses) + PagesRead(told) <= p.fetchUses
      invariant p.t.maxUses > 0 && PagesRead(told) > 0 ==> old(p.fetchUses) + PagesRead(told) <= p.t.maxUses
    {
      var a := answers[i];
      assert GoodAnswer(p.t, a);
      ghost var was, urls, uses := p.messages, p.urls, p.fetchUses;
      ghost var ps;
      v, ps := p.Advance(a.content, a.ids, a.outcomes);
      AllBoth(p.t, told, ps);
      PagesWithinUses(p.t, p.trimSpace, urls, uses, a.outcomes, ps);
      PagesBoth(told, ps);
      if v != Again {
        last := ps;
        return;
      }
      TurnsSay(was, ps);
      told := told + ps;
    }
    assert told + last == told;
  }

  // A history rewritten by itself.
  function Rewritten(t: Tools, find: Finder, msgs: seq<Msg>): Norm {
    NormHistory(t, find, Norm([], [], {}, {}), msgs)
  }

  // Main result: a request is served, and the client's next one, with the same tools, holds what it was shown in an
  // assistant turn between any others. The model is then told again what it said and was given over
  // the whole of the first request, and may use the tools it loaded and fetch the pages it saw.
  method ServeThenRewrite(p: Plan, q: Plan, answers: seq<Answer>, before: seq<Msg>, more: seq<Msg>, find: Finder)
    returns (v: Verdict, rewritten: seq<Msg>, ghost told: seq<Piece>, ghost last: seq<Piece>)
    requires p != q && q.t == p.t && NamesFit(p.t) && p.out == [] && q.loaded == {} && q.urls == {}
    requires forall a <- answers :: GoodAnswer(p.t, a)
    modifies p, q
    ensures GoodPieces(p.t, told + last) && p.out == ShownAll(p.t, told + last) && (v == Again ==> last == [])
    ensures SaidBy(p.messages, "assistant") == SaidBy(old(p.messages), "assistant") + Sayings(told)
    ensures SaidBy(p.messages, "user") == SaidBy(old(p.messages), "user") + GivenAll(told)
    ensures var shown := before + [Msg("assistant", Blocks(p.out))];
      var was, after := Rewritten(p.t, find, before), Rewritten(p.t, find, shown);
      was.turns <= after.turns && AnswerRewritten(p.t, was, after, told + last)
    ensures var shown := before + [Msg("assistant", Blocks(p.out))];
      var after, all := Rewritten(p.t, find, shown), Rewritten(p.t, find, shown + more);
      after.turns <= all.turns && Script(rewritten) == Script(all.turns)
    ensures NoTwoUsers(rewritten) && AllAnswered(p.t, rewritten, told + last)
    ensures LoadedAll(told + last) <= q.loaded && UrlsAll(told + last) <= q.urls
  {
    hide GoodPieces, ShownAll, Sayings, GivenAll, LoadedAll, UrlsAll, SaidBy, NormHistory, AllAnswered, NoTwoUsers, Script, Merge, NamesFit, GoodAnswer;
    v, told, last := Serve(p, answers);
    ghost var ps := told + last;
    assert [] + ShownAll(p.t, ps) == ShownAll(p.t, ps);
    var shown := before + [Msg("assistant", Blocks(p.out))];
    var msgs := shown + more;
    assert msgs[..|before|] == before && msgs[..|before| + 1] == shown;
    RoundTrip(p.t, find, msgs, |before|, ps);
    rewritten := q.Normalize(msgs, find);
  }
}
