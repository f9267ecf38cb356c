/** Requests, their text, and the callbacks they must cause: parsing a rendered request
    gives the request back. */
module HttpMessage {
  import opened Ascii
  import opened HttpChars
  import opened HttpMachine
  import opened HttpRun
  import opened HttpText
  import opened HttpOutlook
  import opened HttpTarget
  import opened HttpConnection

  // ---------------------------------------------------------------- requests

  datatype Header = Header(name: string, value: string)

  /** A chunk: its data, and the parameters after its size. */
  datatype Chunk = Chunk(bytes: string, parameters: string)

  /** `name` is the framing header's name, in any letter case; `last` are the parameters
      of the last chunk. */
  datatype Content =
    | Nothing
    | Sized(name: string, bytes: string)
    | Chunked(name: string, chunks: seq<Chunk>, last: string, trailers: seq<Header>)

  type Digit = d: nat | d < 10

  /** The framing header stands between `before` and `after`. */
  datatype Request = Request(
    verb: Method, target: string, major: Digit, minor: Digit, before: seq<Header>, after: seq<Header>, content: Content)

  predicate IsValue(v: string) {
    && (forall c | c in v :: ValueCode(c))
    && (v != [] ==> v[0] as int != 32 && v[0] as int != 9)
  }

  /** The parser attaches no meaning to the header. */
  predicate OrdinaryName(name: string) {
    var w := LowerName(name);
    && IsName(name)
    && w != "connection" && w != "proxy-connection" && w != "content-length" && w != "transfer-encoding"
    && w != "upgrade"
  }

  predicate OrdinaryHeaders(hs: seq<Header>) {
    forall h | h in hs :: OrdinaryName(h.name) && IsValue(h.value)
  }

  predicate ConnectionName(name: string) {
    IsName(name) && (LowerName(name) == "connection" || LowerName(name) == "proxy-connection")
  }

  /** A Connection header with a list of tokens. */
  predicate ConnectionHeader(h: Header) { ConnectionName(h.name) && IsList(h.value) }

  /** The parser hears the word in it, in any letter case. */
  predicate Wishes(h: Header, word: string) { ConnectionHeader(h) && Hears(Items(h.value), true, word) }

  predicate AsksKeep(h: Header) { Wishes(h, "keep-alive") }

  predicate AsksClose(h: Header) { Wishes(h, "close") }

  predicate AsksUpgrade(h: Header) { Wishes(h, "upgrade") }

  /** The protocols to change to, whichever they are. */
  predicate NamesProtocol(h: Header) {
    IsName(h.name) && LowerName(h.name) == "upgrade" && IsValue(h.value) && h.value != []
  }

  /** Headers without meaning, Connection and Upgrade headers. */
  predicate PlainHeader(h: Header) {
    (OrdinaryName(h.name) && IsValue(h.value)) || ConnectionHeader(h) || NamesProtocol(h)
  }

  predicate PlainHeaders(hs: seq<Header>) {
    forall h | h in hs :: PlainHeader(h)
  }

  predicate Keeps(hs: seq<Header>) { exists h | h in hs :: AsksKeep(h) }

  predicate Closes(hs: seq<Header>) { exists h | h in hs :: AsksClose(h) }

  predicate Upgrading(hs: seq<Header>) { exists h | h in hs :: AsksUpgrade(h) }

  predicate Protocols(hs: seq<Header>) { exists h | h in hs :: NamesProtocol(h) }

  predicate ValidParameters(s: string) {
    CR !in s && (s != [] ==> s[0] == ';' || s[0] == ' ')
  }

  predicate ValidChunk(k: Chunk) {
    0 < |k.bytes| <= SIZE_LIMIT && ValidParameters(k.parameters)
  }

  predicate ValidContent(b: Content) {
    match b
    case Nothing => true
    case Sized(name, bytes) => IsName(name) && LowerName(name) == "content-length" && |bytes| <= LENGTH_LIMIT
    case Chunked(name, chunks, last, trailers) =>
      && IsName(name) && LowerName(name) == "transfer-encoding"
      && (forall k | k in chunks :: ValidChunk(k)) && ValidParameters(last) && OrdinaryHeaders(trailers)
  }

  ghost predicate ValidRequest(q: Request) {
    && ValidTarget(q.verb.CONNECT?, q.target) && PlainHeaders(q.before) && PlainHeaders(q.after)
    && ValidContent(q.content) && (q.verb.CONNECT? ==> q.content.Nothing?)
  }

  /** Behind the request the connection speaks something else. */
  predicate Upgrades(q: Request) {
    q.verb.CONNECT? || (Upgrading(q.before + q.after) && Protocols(q.before + q.after))
  }

  /** The connection stays open after the request. */
  predicate StaysOpen(q: Request) {
    if q.major > 0 && q.minor > 0 then !Closes(q.before + q.after) else Keeps(q.before + q.after)
  }

  // ---------------------------------------------------------------- their text

  const CRLF := "\r\n"

  function RenderHeader(h: Header): string {
    h.name + ":" + (" " + (h.value + CRLF))
  }

  function RenderHeaders(hs: seq<Header>): string {
    if hs == [] then [] else RenderHeader(hs[0]) + RenderHeaders(hs[1..])
  }

  function FramingHeaders(b: Content): seq<Header> {
    match b
    case Nothing => []
    case Sized(name, bytes) => [Header(name, DecimalOf(|bytes|))]
    case Chunked(name, _, _, _) => [Header(name, "chunked")]
  }

  function RenderChunk(k: Chunk): string {
    HexOf(|k.bytes|) + (k.parameters + CRLF) + (k.bytes + CRLF)
  }

  function RenderChunks(ks: seq<Chunk>): string {
    if ks == [] then [] else RenderChunk(ks[0]) + RenderChunks(ks[1..])
  }

  function RenderContent(b: Content): string {
    match b
    case Nothing => []
    case Sized(_, bytes) => bytes
    case Chunked(_, chunks, last, trailers) =>
      RenderChunks(chunks) + ("0" + (last + CRLF) + (RenderHeaders(trailers) + CRLF))
  }

  function RenderLine(q: Request): string {
    MethodName(q.verb) + " " + (q.target + " ")
    + ("HTTP/" + ([DigitChar(q.major)] + ("." + ([DigitChar(q.minor)] + CRLF))))
  }

  function RenderHead(q: Request): string {
    RenderLine(q) + (RenderHeaders(q.before + FramingHeaders(q.content) + q.after) + CRLF)
  }

  function Render(q: Request): string { RenderHead(q) + RenderContent(q.content) }

  // ---------------------------------------------------------------- their events

  function HeaderEvents(hs: seq<Header>): seq<Event> {
    if hs == [] then [] else [Data(Field, hs[0].name), Data(Value, hs[0].value)] + HeaderEvents(hs[1..])
  }

  function ChunkEvents(ks: seq<Chunk>): seq<Event> {
    if ks == [] then []
    else [ChunkHeader(|ks[0].bytes|), Data(Body, ks[0].bytes), ChunkComplete] + ChunkEvents(ks[1..])
  }

  function ContentEvents(b: Content): seq<Event> {
    match b
    case Nothing => []
    case Sized(_, bytes) => if bytes == [] then [] else [Data(Body, bytes)]
    case Chunked(_, chunks, _, trailers) =>
      ChunkEvents(chunks) + ([ChunkHeader(0)] + (HeaderEvents(trailers) + [ChunkComplete]))
  }

  function AnnouncedLength(b: Content): nat {
    match b
    case Nothing => ULLONG_MAX
    case Sized(_, bytes) => |bytes|
    case Chunked(_, _, _, _) => ULLONG_MAX
  }

  function HeadersCompleteFor(q: Request): Event {
    HeadersComplete(q.verb, q.major, q.minor, AnnouncedLength(q.content), q.content.Chunked?, Upgrades(q))
  }

  /** Up to the end of the headers. */
  function HeadEvents(q: Request): seq<Event> {
    [MessageBegin, Data(Url, q.target)] + HeaderEvents(q.before + FramingHeaders(q.content) + q.after)
  }

  function Events(q: Request): seq<Event> {
    HeadEvents(q) + ([HeadersCompleteFor(q)] + (ContentEvents(q.content) + [MessageComplete]))
  }

  function EmitAll(tr: Trace, es: seq<Event>): Trace
    decreases |es|
  {
    if es == [] then tr else EmitAll(Emit(tr, es[0]), es[1..])
  }

  lemma {:induction false} EmitAllConcat(tr: Trace, a: seq<Event>, b: seq<Event>)
    ensures EmitAll(tr, a + b) == EmitAll(EmitAll(tr, a), b)
    decreases |a|
  {
    if a == [] {
      assert a + b == b;
    } else {
      assert (a + b)[0] == a[0] && (a + b)[1..] == a[1..] + b;
      EmitAllConcat(Emit(tr, a[0]), a[1..], b);
    }
  }

  lemma EmitOne(tr: Trace, e: Event)
    ensures EmitAll(tr, [e]) == Emit(tr, e)
  {
    assert [e][1..] == [];
  }

  lemma EmitTwo(tr: Trace, e: Event, f: Event)
    ensures EmitAll(tr, [e, f]) == Emit(Emit(tr, e), f)
  {
    assert [e, f][1..] == [f];
    EmitOne(Emit(tr, e), f);
  }

  /** Reported after a trace that they do not prolong, events that do not prolong each other
      are listed as they are. */
  lemma {:induction false} EmitAllListed(tr: Trace, es: seq<Event>)
    requires Apart(es) && var l := Listed(tr); es != [] && l != [] ==> !Prolongs(l[|l| - 1], es[0])
    ensures Listed(EmitAll(tr, es)) == Listed(tr) + es
    decreases |es|
  {
    if es == [] {
      assert Listed(tr) + es == Listed(tr);
    } else {
      var rest := es[1..];
      assert forall i | 0 < i < |rest| :: rest[i - 1] == es[i] && rest[i] == es[i + 1];
      EmitListed(tr, es[0]);
      EmitAllListed(Emit(tr, es[0]), rest);
      assert Listed(tr) + es == (Listed(tr) + [es[0]]) + rest;
    }
  }

  lemma {:induction false} HeadersApart(hs: seq<Header>)
    ensures var l := HeaderEvents(hs);
        Apart(l) && (l != [] ==> l[0].Data? && l[0].kind.Field? && l[|l| - 1].Data? && l[|l| - 1].kind.Value?)
    decreases |hs|
  {
    if hs != [] {
      HeadersApart(hs[1..]);
      ApartConcat([Data(Field, hs[0].name), Data(Value, hs[0].value)], HeaderEvents(hs[1..]));
    }
  }

  lemma {:induction false} ChunksApart(ks: seq<Chunk>)
    ensures var l := ChunkEvents(ks); Apart(l) && (l != [] ==> !l[0].Data? && !l[|l| - 1].Data?)
    decreases |ks|
  {
    if ks != [] {
      ChunksApart(ks[1..]);
      ApartConcat([ChunkHeader(|ks[0].bytes|), Data(Body, ks[0].bytes), ChunkComplete], ChunkEvents(ks[1..]));
    }
  }

  lemma ContentApart(b: Content)
    ensures Apart(ContentEvents(b))
  {
    if b.Chunked? {
      HeadersApart(b.trailers);
      ChunksApart(b.chunks);
      var hs := HeaderEvents(b.trailers);
      ApartConcat(hs, [ChunkComplete]);
      ApartConcat([ChunkHeader(0)], hs + [ChunkComplete]);
      ApartConcat(ChunkEvents(b.chunks), [ChunkHeader(0)] + (hs + [ChunkComplete]));
    }
  }

  /** The callbacks of a request: its data come in one piece each. */
  lemma EventsApart(q: Request)
    ensures var es := Events(q); Apart(es) && es[0].MessageBegin? && es[|es| - 1].MessageComplete?
  {
    hide HeaderEvents, ContentEvents, FramingHeaders;
    var hs, cs := q.before + FramingHeaders(q.content) + q.after, ContentEvents(q.content);
    HeadersApart(hs);
    ContentApart(q.content);
    ApartConcat([MessageBegin, Data(Url, q.target)], HeaderEvents(hs));
    ApartConcat(cs, [MessageComplete]);
    ApartConcat([HeadersCompleteFor(q)], cs + [MessageComplete]);
    ApartConcat(HeadEvents(q), [HeadersCompleteFor(q)] + (cs + [MessageComplete]));
  }

  // ---------------------------------------------------------------- the request line

  function To(r: Run, s: State): Run {
    r.(core := r.core.(state := s))
  }

  /** One character that only changes the state. */
  lemma Moves(cfg: Settings, r: Run, ch: char, s: State)
    requires Dispatch(OptionsAt(cfg, r), r.core, ch) == Move(r.core.(state := s), Silent, false)
        && !r.core.state.HeaderValue?
    ensures Eats(cfg, r, [ch], To(r, s))
  {
    assert Consume(cfg, r, ch) == Next(To(r, s), ResetsCounter(r.core.state));
    EatsChar(cfg, r, ch, To(r, s), ResetsCounter(r.core.state));
  }

  /** The letters of "HTTP/". */
  predicate ProtocolStep(s: State, ch: char, t: State) {
    || (s.ReqHttpStart? && ch == 'H' && t.ReqHttpH?)
    || (s.ReqHttpH? && ch == 'T' && t.ReqHttpHT?)
    || (s.ReqHttpHT? && ch == 'T' && t.ReqHttpHTT?)
    || (s.ReqHttpHTT? && ch == 'P' && t.ReqHttpHTTP?)
    || (s.ReqHttpHTTP? && ch == '/' && t.ReqHttpMajor?)
  }

  lemma ProtocolMoves(cfg: Settings, r: Run, ch: char, s: State)
    requires ProtocolStep(r.core.state, ch, s)
    ensures Eats(cfg, r, [ch], To(r, s))
  {
    Moves(cfg, r, ch, s);
  }

  lemma VersionStartEaten(cfg: Settings, r: Run)
    requires r.core.state.ReqHttpStart?
    ensures Eats(cfg, r, "HTTP/", To(r, ReqHttpMajor))
  {
    hide Eats;
    ProtocolMoves(cfg, r, 'H', ReqHttpH);
    ProtocolMoves(cfg, To(r, ReqHttpH), 'T', ReqHttpHT);
    EatsThen(cfg, r, ['H'], To(r, ReqHttpH), ['T'], To(r, ReqHttpHT));
    ProtocolMoves(cfg, To(r, ReqHttpHT), 'T', ReqHttpHTT);
    EatsThen(cfg, r, ['H'] + ['T'], To(r, ReqHttpHT), ['T'], To(r, ReqHttpHTT));
    ProtocolMoves(cfg, To(r, ReqHttpHTT), 'P', ReqHttpHTTP);
    EatsThen(cfg, r, ['H'] + ['T'] + ['T'], To(r, ReqHttpHTT), ['P'], To(r, ReqHttpHTTP));
    ProtocolMoves(cfg, To(r, ReqHttpHTTP), '/', ReqHttpMajor);
    EatsThen(cfg, r, ['H'] + ['T'] + ['T'] + ['P'], To(r, ReqHttpHTTP), ['/'], To(r, ReqHttpMajor));
    assert "HTTP/" == ['H'] + ['T'] + ['T'] + ['P'] + ['/'];
  }

  function VersionTaken(r: Run, major: Digit, minor: Digit): Run {
    r.(core := r.core.(state := HeaderFieldStart, major := major, minor := minor))
  }

  lemma MajorEaten(cfg: Settings, r: Run, d: Digit)
    requires r.core.state.ReqHttpMajor?
    ensures Eats(cfg, r, [DigitChar(d)], r.(core := r.core.(state := ReqHttpDot, major := d)))
  {
    hide Eats;
    Takes(cfg, r, DigitChar(d), Dispatch(OptionsAt(cfg, r), r.core, DigitChar(d)));
  }

  lemma MinorEaten(cfg: Settings, r: Run, d: Digit)
    requires r.core.state.ReqHttpMinor?
    ensures Eats(cfg, r, [DigitChar(d)], r.(core := r.core.(state := ReqHttpEnd, minor := d)))
  {
    hide Eats;
    Takes(cfg, r, DigitChar(d), Dispatch(OptionsAt(cfg, r), r.core, DigitChar(d)));
  }

  lemma DotEaten(cfg: Settings, r: Run)
    requires r.core.state.ReqHttpDot?
    ensures Eats(cfg, r, ".", To(r, ReqHttpMinor))
  {
    hide Eats;
    Moves(cfg, r, '.', ReqHttpMinor);
  }

  lemma VersionEaten(cfg: Settings, r: Run, major: Digit, minor: Digit)
    requires r.core.state.ReqHttpMajor?
    ensures Eats(cfg, r, [DigitChar(major)] + ("." + ([DigitChar(minor)] + CRLF)), VersionTaken(r, major, minor))
  {
    hide Eats, Dispatch, OptionsAt, DigitChar;
    var r1 := r.(core := r.core.(state := ReqHttpDot, major := major));
    MajorEaten(cfg, r, major);
    DotEaten(cfg, r1);
    var r2 := To(r1, ReqHttpMinor);
    var r3 := r2.(core := r2.core.(state := ReqHttpEnd, minor := minor));
    MinorEaten(cfg, r2, minor);
    LineEaten(cfg, r3);
    EatsThen(cfg, r2, [DigitChar(minor)], r3, CRLF, To(r3, HeaderFieldStart));
    EatsThen(cfg, r1, ".", r2, [DigitChar(minor)] + CRLF, To(r3, HeaderFieldStart));
    EatsThen(cfg, r, [DigitChar(major)], r1, "." + ([DigitChar(minor)] + CRLF), To(r3, HeaderFieldStart));
  }

  lemma LineEaten(cfg: Settings, r: Run)
    requires r.core.state.ReqHttpEnd?
    ensures Eats(cfg, r, CRLF, To(r, HeaderFieldStart))
  {
    hide Eats;
    Moves(cfg, r, CR, ReqLineAlmostDone);
    Moves(cfg, To(r, ReqLineAlmostDone), LF, HeaderFieldStart);
    EatsThen(cfg, r, [CR], To(r, ReqLineAlmostDone), [LF], To(r, HeaderFieldStart));
    assert CRLF == [CR] + [LF];
  }

  /** The record and trace after the request line. */
  function LineTaken(r: Run, q: Request): Run {
    Run(r.core.(state := HeaderFieldStart, flags := NO_FLAGS, contentLength := ULLONG_MAX, verb := q.verb,
                index := |MethodName(q.verb)| + 1, major := q.major, minor := q.minor),
        EmitAll(r.trace, [MessageBegin, Data(Url, q.target)]))
  }

  lemma RequestLineEaten(cfg: Settings, r: Run, q: Request)
    requires r.core.state.StartReq? && ValidTarget(q.verb.CONNECT?, q.target)
    ensures Eats(cfg, r, RenderLine(q), LineTaken(r, q))
  {
    hide Eats, ValidTarget;
    var r1 := MethodTaken(r, q.verb);
    MethodEaten(cfg, r, q.verb);
    TargetAccepted(cfg, r1, q.target);
    var r3 := Run(r1.core.(state := ReqHttpStart), Emit(r1.trace, Data(Url, q.target)));
    VersionStartEaten(cfg, r3);
    VersionEaten(cfg, To(r3, ReqHttpMajor), q.major, q.minor);
    var version := [DigitChar(q.major)] + ("." + ([DigitChar(q.minor)] + CRLF));
    var z := VersionTaken(To(r3, ReqHttpMajor), q.major, q.minor);
    EatsThen(cfg, r3, "HTTP/", To(r3, ReqHttpMajor), version, z);
    EatsThen(cfg, r, MethodName(q.verb) + " ", r1, q.target + " ", r3);
    EatsThen(cfg, r, MethodName(q.verb) + " " + (q.target + " "), r3, "HTTP/" + version, z);
    EmitTwo(r.trace, MessageBegin, Data(Url, q.target));
    assert z == LineTaken(r, q);
  }

  // ---------------------------------------------------------------- header lines

  /** A header line counts as over when the next line turns out not to continue it. */
  predicate LineOpen(s: State) {
    s.HeaderValueLws? || s.HeaderValueDiscardLws?
  }

  function Settled(r: Run): Run {
    if r.core.state.HeaderValueLws? then
      r.(core := r.core.(state := HeaderFieldStart, flags := WithLineFlag(r.core.flags, r.core.headerState)))
    else if r.core.state.HeaderValueDiscardLws? then
      Run(r.core.(state := HeaderFieldStart, flags := WithLineFlag(r.core.flags, r.core.headerState)),
          Emit(r.trace, Data(Value, [])))
    else r
  }

  predicate NoBlankFirst(s: string) {
    s != [] && s[0] != ' ' && s[0] != TAB
  }

  /** What follows a header line sees the settled parser. */
  lemma SettledEats(cfg: Settings, r: Run, s: string, z: Run, left: bool)
    requires EatsLast(cfg, Settled(r), s, z, left) && NoBlankFirst(s)
    ensures EatsLast(cfg, r, s, z, left)
  {
    hide Consume, LeavesAt, Settled;
    if LineOpen(r.core.state) {
      assert View(cfg, false) == cfg;
      SettledConsumes(cfg, r, s[0]);
    } else {
      AlreadySettled(r);
    }
  }

  lemma AlreadySettled(r: Run)
    ensures !LineOpen(r.core.state) ==> Settled(r) == r
  {
  }

  lemma SettledConsumes(cfg: Settings, r: Run, ch: char)
    requires LineOpen(r.core.state) && ch != ' ' && ch != TAB
    ensures Consume(cfg, r, ch) == Consume(cfg, Settled(r), ch) && LeavesAt(cfg, r, ch) == LeavesAt(cfg, Settled(r), ch)
    ensures !Skips(r.core, ch) && !Skips(Settled(r).core, ch)
    ensures !Rejects(cfg, r.core, ch) && !Rejects(cfg, Settled(r).core, ch)
  {
    var o := Dispatch(OptionsAt(cfg, r), r.core, ch);
    assert o.Move? && o.again && After(r, o) == Settled(r);
  }

  /** The machine takes `s` and, the last line being over, is in `z`. */
  ghost predicate EatsTo(cfg: Settings, r: Run, s: string, z: Run) {
    z.core.state.HeaderFieldStart? && exists x :: Eats(cfg, r, s, x) && Settled(x) == z
  }

  lemma EatsToThen(cfg: Settings, r: Run, a: string, y: Run, b: string, z: Run)
    requires EatsTo(cfg, r, a, y) && EatsTo(cfg, y, b, z) && (b == [] || NoBlankFirst(b))
    ensures EatsTo(cfg, r, a + b, z)
  {
    var x :| Eats(cfg, r, a, x) && Settled(x) == y;
    var x' :| Eats(cfg, y, b, x') && Settled(x') == z;
    if b == [] {
      assert a + b == a;
    } else {
      SettledEats(cfg, x, b, x', false);
      EatsThen(cfg, r, a, x, b, x');
    }
  }

  lemma EatsToLast(cfg: Settings, r: Run, a: string, y: Run, b: string, z: Run, left: bool)
    requires EatsTo(cfg, r, a, y) && EatsLast(cfg, y, b, z, left) && NoBlankFirst(b)
    ensures EatsLast(cfg, r, a + b, z, left)
  {
    hide EatsLast;
    var x :| Eats(cfg, r, a, x) && Settled(x) == y;
    SettledEats(cfg, x, b, z, left);
    EatsThenLast(cfg, r, a, x, b, z, left);
  }

  /** Equal but for the scratch fields of the header matcher. */
  predicate Alike(c: Core, d: Core) {
    c == d.(headerState := c.headerState, index := c.index)
  }

  function ValueDone(r: Run, v: string): Run {
    Run(r.core.(state := HeaderAlmostDone), if v == [] then r.trace else Emit(r.trace, Data(Value, v)))
  }

  /** The rest of a value that nobody interprets, and its CR; skipped or not. */
  lemma {:induction false} PlainValue(cfg: Settings, skipping: bool, r: Run, v: string)
    requires Plain(r.core) && forall c | c in v :: ValueCode(c)
    ensures Feed(cfg, skipping, r, v + [CR]) == Fed(ValueDone(r, v)) && !SkippingAfter(cfg, skipping, r, v + [CR])
    ensures Checked(cfg, r, v + [CR]) && Beyond(cfg, skipping, r, v + [CR]) == Stays
    decreases |v|
  {
    hide Consume, LeavesAt, Plain, Skips, Rejects, ValueCode, View;
    var s := v + [CR];
    if v == [] {
      assert s == [CR] && s[1..] == [];
      ValueReturn(View(cfg, skipping), r);
      ValueReturn(cfg, r);
    } else {
      var r' := Run(r.core, Emit(r.trace, Data(Value, [v[0]])));
      assert s[0] == v[0] && s[1..] == v[1..] + [CR] && v[0] in v;
      assert forall c | c in v[1..] :: c in v;
      PlainChar(View(cfg, skipping), r, v[0]);
      PlainChar(cfg, r, v[0]);
      PlainValue(cfg, true, r', v[1..]);
      EmitTwice(r.trace, Value, [v[0]], v[1..]);
      assert [v[0]] + v[1..] == v;
    }
  }

  lemma ValueReturn(cfg: Settings, r: Run)
    requires Plain(r.core)
    ensures Consume(cfg, r, CR) == Next(ValueDone(r, []), false) && !LeavesAt(cfg, r, CR)
    ensures !Skips(r.core, CR) && !Rejects(cfg, r.core, CR)
  {
  }

  lemma PlainChar(cfg: Settings, r: Run, ch: char)
    requires Plain(r.core) && ValueCode(ch)
    ensures Consume(cfg, r, ch) == Next(Run(r.core, Emit(r.trace, Data(Value, [ch]))), false) && !LeavesAt(cfg, r, ch)
    ensures Skips(r.core, ch) && !Rejects(cfg, r.core, ch)
  {
  }

  lemma PlainEats(cfg: Settings, r: Run, v: string)
    requires Plain(r.core) && forall c | c in v :: ValueCode(c)
    ensures Eats(cfg, r, v + [CR], ValueDone(r, v))
  {
    hide Consume, LeavesAt;
    PlainValue(cfg, false, r, v);
  }

  predicate OrdinaryState(h: HeaderState) {
    || h.General? || h.C? || h.CO? || h.CON? || h.MatchingConnection? || h.MatchingProxyConnection?
    || h.MatchingContentLength? || h.MatchingTransferEncoding? || h.MatchingUpgrade?
  }

  lemma EmptyValueEaten(cfg: Settings, r: Run) returns (x: Run)
    requires r.core.state.HeaderValueDiscardWs? && OrdinaryState(r.core.headerState)
    ensures Eats(cfg, r, CRLF, x) && LineOpen(x.core.state)
    ensures Settled(x) == Run(To(r, HeaderFieldStart).core, Emit(r.trace, Data(Value, [])))
  {
    hide Eats;
    Moves(cfg, r, CR, HeaderValueDiscardWsAlmostDone);
    var r1 := To(r, HeaderValueDiscardWsAlmostDone);
    Moves(cfg, r1, LF, HeaderValueDiscardLws);
    x := To(r1, HeaderValueDiscardLws);
    EatsThen(cfg, r, [CR], r1, [LF], x);
    assert CRLF == [CR] + [LF];
  }

  lemma FirstPlain(cfg: Settings, r: Run, ch: char)
    requires r.core.state.HeaderValueDiscardWs? && OrdinaryState(r.core.headerState)
    requires ValueCode(ch) && ch as int != 32 && ch as int != 9
    ensures Eats(cfg, r, [ch], Run(r.core.(state := HeaderValue, index := 0, headerState := General),
                                   Emit(r.trace, Data(Value, [ch]))))
  {
    EatsChar(cfg, r, ch, Run(r.core.(state := HeaderValue, index := 0, headerState := General),
                             Emit(r.trace, Data(Value, [ch]))), false);
  }

  lemma LineFeedAfterValue(cfg: Settings, r: Run)
    requires r.core.state.HeaderAlmostDone?
    ensures Eats(cfg, r, [LF], To(r, HeaderValueLws))
  {
    Moves(cfg, r, LF, HeaderValueLws);
  }

  /** The rest of a value that nobody interprets after its first character. */
  lemma ValueRestEaten(cfg: Settings, r: Run, v: string, c: Core) returns (x: Run)
    requires IsValue(v) && v != [] && Plain(c)
    requires Eats(cfg, r, [v[0]], Run(c, Emit(r.trace, Data(Value, [v[0]]))))
    ensures Eats(cfg, r, v + CRLF, x) && LineOpen(x.core.state)
    ensures Settled(x) == Run(c.(state := HeaderFieldStart), Emit(r.trace, Data(Value, v)))
  {
    hide Eats, ValueCode;
    var r1 := Run(c, Emit(r.trace, Data(Value, [v[0]])));
    assert forall d | d in v[1..] :: d in v;
    PlainEats(cfg, r1, v[1..]);
    var r2 := ValueDone(r1, v[1..]);
    assert v == [v[0]] + v[1..];
    EmitTwice(r.trace, Value, [v[0]], v[1..]);
    assert v[1..] == [] ==> v == [v[0]];
    EatsThen(cfg, r, [v[0]], r1, v[1..] + [CR], r2);
    LineFeedAfterValue(cfg, r2);
    x := To(r2, HeaderValueLws);
    EatsThen(cfg, r, [v[0]] + (v[1..] + [CR]), r2, [LF], x);
    assert v + CRLF == [v[0]] + (v[1..] + [CR]) + [LF];
  }

  lemma FullValueEaten(cfg: Settings, r: Run, v: string) returns (x: Run)
    requires r.core.state.HeaderValueDiscardWs? && OrdinaryState(r.core.headerState) && IsValue(v) && v != []
    ensures Eats(cfg, r, v + CRLF, x) && LineOpen(x.core.state)
    ensures Settled(x) == Run(r.core.(state := HeaderFieldStart, index := 0, headerState := General),
                              Emit(r.trace, Data(Value, v)))
  {
    hide Eats, ValueCode, OrdinaryState;
    assert v[0] in v;
    FirstPlain(cfg, r, v[0]);
    x := ValueRestEaten(cfg, r, v, r.core.(state := HeaderValue, index := 0, headerState := General));
  }

  /** A header value and its line end, for a header without meaning. */
  lemma ValueEaten(cfg: Settings, r: Run, v: string) returns (x: Run)
    requires r.core.state.HeaderValueDiscardWs? && OrdinaryState(r.core.headerState) && IsValue(v)
    ensures Eats(cfg, r, v + CRLF, x) && LineOpen(x.core.state)
    ensures var z := Settled(x);
        z.core.state.HeaderFieldStart? && Alike(z.core, To(r, HeaderFieldStart).core)
        && z.trace == Emit(r.trace, Data(Value, v))
  {
    if v == [] {
      x := EmptyValueEaten(cfg, r);
      assert v + CRLF == CRLF;
    } else {
      x := FullValueEaten(cfg, r, v);
    }
  }

  lemma {:induction false} NameStateOrdinary(name: string)
    requires OrdinaryName(name)
    ensures OrdinaryState(NameMatcher(name).h)
  {
    NameTracks(name);
    NameState(name);
    var w := LowerName(name);
    SameWord(CONTENT_LENGTH, w);
    SameWord(TRANSFER_ENCODING, w);
    SameWord(UPGRADE, w);
    SameWord(CONNECTION, w);
    SameWord(PROXY_CONNECTION, w);
  }

  lemma {:induction false} NameState(name: string)
    requires name != []
    ensures var h := NameMatcher(name).h;
        OrdinaryState(h) || h.Connection? || h.ContentLength? || h.TransferEncoding? || h.Upgrade?
    decreases |name|
  {
    var n := |name| - 1;
    if n > 0 { NameState(name[..n]); }
  }

  /** A field name, its colon and the blank after it. */
  function FieldTaken(r: Run, name: string): Run
    requires name != []
  {
    To(NameTaken(r, name), HeaderValueDiscardWs)
  }

  lemma FieldEaten(cfg: Settings, r: Run, name: string)
    requires r.core.state.HeaderFieldStart? && IsName(name)
    ensures Eats(cfg, r, name + ":" + " ", FieldTaken(r, name))
  {
    hide Eats;
    NameEaten(cfg, r, name);
    ColonEaten(cfg, NameTaken(r, name));
    EatsThen(cfg, r, name, NameTaken(r, name), ":", FieldTaken(r, name));
    BlankEaten(cfg, FieldTaken(r, name));
    EatsThen(cfg, r, name + ":", FieldTaken(r, name), " ", FieldTaken(r, name));
  }

  lemma BlankEaten(cfg: Settings, r: Run)
    requires r.core.state.HeaderValueDiscardWs?
    ensures Eats(cfg, r, " ", r)
  {
    Moves(cfg, r, ' ', HeaderValueDiscardWs);
  }

  lemma OrdinaryEaten(cfg: Settings, r: Run, h: Header) returns (z: Run)
    requires r.core.state.HeaderFieldStart? && OrdinaryName(h.name) && IsValue(h.value)
    ensures EatsTo(cfg, r, RenderHeader(h), z) && Alike(z.core, r.core)
    ensures z.trace == Emit(Emit(r.trace, Data(Field, h.name)), Data(Value, h.value))
  {
    hide Eats;
    NameStateOrdinary(h.name);
    FieldEaten(cfg, r, h.name);
    var x := ValueEaten(cfg, FieldTaken(r, h.name), h.value);
    EatsThen(cfg, r, h.name + ":" + " ", FieldTaken(r, h.name), h.value + CRLF, x);
    assert h.name + ":" + " " + (h.value + CRLF) == RenderHeader(h);
    z := Settled(x);
  }

  // ---------------------------------------------------------------- interpreted headers

  lemma CarriageReturnAfterValue(cfg: Settings, r: Run)
    requires r.core.state.HeaderValue?
    ensures Eats(cfg, r, [CR], To(r, HeaderAlmostDone))
  {
    EatsChar(cfg, r, CR, To(r, HeaderAlmostDone), false);
  }

  /** The line end after an interpreted value. */
  lemma ValueLineEaten(cfg: Settings, r: Run)
    requires r.core.state.HeaderValue?
    ensures Eats(cfg, r, CRLF, To(r, HeaderValueLws))
  {
    hide Eats;
    CarriageReturnAfterValue(cfg, r);
    LineFeedAfterValue(cfg, To(r, HeaderAlmostDone));
    EatsThen(cfg, r, [CR], To(r, HeaderAlmostDone), [LF], To(r, HeaderValueLws));
    assert CRLF == [CR] + [LF];
  }

  /** A header line is made of its name and its value. */
  lemma HeaderLineEaten(cfg: Settings, r: Run, name: string, r1: Run, value: string, r2: Run)
    requires Eats(cfg, r, name + ":" + " ", r1) && Eats(cfg, r1, value, r2) && r2.core.state.HeaderValue?
    ensures EatsTo(cfg, r, RenderHeader(Header(name, value)), Settled(To(r2, HeaderValueLws)))
  {
    hide Eats;
    ValueLineEaten(cfg, r2);
    var x := To(r2, HeaderValueLws);
    EatsThen(cfg, r1, value, r2, CRLF, x);
    EatsThen(cfg, r, name + ":" + " ", r1, value + CRLF, x);
    assert name + ":" + " " + (value + CRLF) == RenderHeader(Header(name, value));
  }

  // ---------------------------------------------------------------- keeping and closing the connection

  lemma ConnectionEaten(cfg: Settings, r: Run, name: string)
    requires r.core.state.HeaderFieldStart? && ConnectionName(name)
    ensures Eats(cfg, r, name + ":" + " ", FieldTaken(r, name)) && FieldTaken(r, name).core.headerState.Connection?
  {
    NameTracks(name);
    SameWord(CONNECTION, LowerName(name));
    SameWord(PROXY_CONNECTION, LowerName(name));
    FieldEaten(cfg, r, name);
  }

  lemma ListHeaderEaten(cfg: Settings, r: Run, h: Header) returns (z: Run)
    requires r.core.state.HeaderFieldStart? && ConnectionHeader(h)
    ensures EatsTo(cfg, r, RenderHeader(h), z)
    ensures Alike(z.core, r.core.(flags := WithWishes(r.core.flags, AsksKeep(h), AsksClose(h), AsksUpgrade(h))))
    ensures z.trace == Emit(Emit(r.trace, Data(Field, h.name)), Data(Value, h.value))
  {
    hide Eats, IsItem, Hears, Comma, WithWishes, HeardFlags, LowerName, IsName;
    ConnectionEaten(cfg, r, h.name);
    var r1, items := FieldTaken(r, h.name), Items(h.value);
    ItemsJoined(h.value);
    StartsSame(h.value, items);
    var r2 := ListEaten(cfg, r1, true, true, items);
    HeaderLineEaten(cfg, r, h.name, r1, h.value, r2);
    HeardMeans(r1.core.flags, items, true);
    z := Settled(To(r2, HeaderValueLws));
  }

  /** The first item starts where the value does. */
  lemma StartsSame(v: string, items: seq<string>)
    requires v != [] && items == Items(v) && IsItem(items[0])
    ensures items[0] != [] && items[0][0] == v[0]
  {
  }

  lemma FirstOfProtocol(cfg: Settings, r: Run, ch: char)
    requires r.core.state.HeaderValueDiscardWs? && r.core.headerState.Upgrade?
    requires ValueCode(ch) && ch as int != 32 && ch as int != 9
    ensures var c := r.core.(state := HeaderValue, index := 0, headerState := General,
                             flags := r.core.flags.(upgrade := true));
        Eats(cfg, r, [ch], Run(c, Emit(r.trace, Data(Value, [ch]))))
  {
    var c := r.core.(state := HeaderValue, index := 0, headerState := General, flags := r.core.flags.(upgrade := true));
    EatsChar(cfg, r, ch, Run(c, Emit(r.trace, Data(Value, [ch]))), false);
  }

  lemma UpgradeName(cfg: Settings, r: Run, name: string)
    requires r.core.state.HeaderFieldStart? && IsName(name) && LowerName(name) == UPGRADE
    ensures Eats(cfg, r, name + ":" + " ", FieldTaken(r, name)) && FieldTaken(r, name).core.headerState.Upgrade?
  {
    NameTracks(name);
    SameWord(UPGRADE, LowerName(name));
    FieldEaten(cfg, r, name);
  }

  lemma ProtocolValueEaten(cfg: Settings, r: Run, v: string) returns (x: Run)
    requires r.core.state.HeaderValueDiscardWs? && r.core.headerState.Upgrade? && IsValue(v) && v != []
    ensures Eats(cfg, r, v + CRLF, x) && LineOpen(x.core.state)
    ensures var z := Settled(x);
        && z.core.state.HeaderFieldStart? && Alike(z.core, r.core.(state := HeaderFieldStart,
                                                                   flags := r.core.flags.(upgrade := true)))
        && z.trace == Emit(r.trace, Data(Value, v))
  {
    hide Eats, ValueCode;
    assert v[0] in v;
    FirstOfProtocol(cfg, r, v[0]);
    var c := r.core.(state := HeaderValue, index := 0, headerState := General, flags := r.core.flags.(upgrade := true));
    x := ValueRestEaten(cfg, r, v, c);
  }

  lemma ProtocolEaten(cfg: Settings, r: Run, h: Header) returns (z: Run)
    requires r.core.state.HeaderFieldStart? && NamesProtocol(h)
    ensures EatsTo(cfg, r, RenderHeader(h), z)
    ensures Alike(z.core, r.core.(flags := r.core.flags.(upgrade := true)))
    ensures z.trace == Emit(Emit(r.trace, Data(Field, h.name)), Data(Value, h.value))
  {
    hide Eats, IsValue, LowerName, IsName;
    UpgradeName(cfg, r, h.name);
    var r1 := FieldTaken(r, h.name);
    var x := ProtocolValueEaten(cfg, r1, h.value);
    EatsThen(cfg, r, h.name + ":" + " ", r1, h.value + CRLF, x);
    assert h.name + ":" + " " + (h.value + CRLF) == RenderHeader(h);
    z := Settled(x);
  }

  /** What header lines have left in the flags. */
  function Marked(c: Core, hs: seq<Header>): Core {
    c.(flags := c.flags.(keepAlive := c.flags.keepAlive || Keeps(hs), close := c.flags.close || Closes(hs),
                         connectionUpgrade := c.flags.connectionUpgrade || Upgrading(hs),
                         upgrade := c.flags.upgrade || Protocols(hs)))
  }

  lemma MarkedOne(h: Header)
    requires PlainHeader(h)
    ensures Keeps([h]) == AsksKeep(h) && Closes([h]) == AsksClose(h)
    ensures Upgrading([h]) == AsksUpgrade(h) && Protocols([h]) == NamesProtocol(h)
  {
    assert h in [h];
  }

  lemma OneName(h: Header)
    ensures ConnectionHeader(h) ==> !NamesProtocol(h)
    ensures NamesProtocol(h) || OrdinaryName(h.name) ==> !AsksKeep(h) && !AsksClose(h) && !AsksUpgrade(h)
    ensures OrdinaryName(h.name) ==> !NamesProtocol(h)
  {
    hide IsList, Hears, Items;
  }

  lemma MarkedMore(a: seq<Header>, b: seq<Header>)
    ensures Keeps(a + b) == (Keeps(a) || Keeps(b)) && Closes(a + b) == (Closes(a) || Closes(b))
    ensures Upgrading(a + b) == (Upgrading(a) || Upgrading(b)) && Protocols(a + b) == (Protocols(a) || Protocols(b))
  {
    hide AsksKeep, AsksClose, AsksUpgrade, NamesProtocol;
    forall h | h in a ensures h in a + b {}
    forall h | h in b ensures h in a + b {}
  }

  lemma HeaderEaten(cfg: Settings, r: Run, h: Header) returns (z: Run)
    requires r.core.state.HeaderFieldStart? && PlainHeader(h)
    ensures EatsTo(cfg, r, RenderHeader(h), z) && Alike(z.core, Marked(r.core, [h]))
    ensures z.trace == Emit(Emit(r.trace, Data(Field, h.name)), Data(Value, h.value))
  {
    hide EatsTo, OrdinaryName, IsName, LowerName, IsValue;
    hide ConnectionHeader, Wishes, Keeps, Closes, Upgrading, Protocols;
    MarkedOne(h);
    OneName(h);
    if ConnectionHeader(h) {
      z := ListHeaderEaten(cfg, r, h);
    } else if NamesProtocol(h) {
      z := ProtocolEaten(cfg, r, h);
    } else {
      z := OrdinaryEaten(cfg, r, h);
    }
  }

  lemma NothingEaten(cfg: Settings, r: Run)
    requires r.core.state.HeaderFieldStart?
    ensures EatsTo(cfg, r, [], r)
  {
    assert Eats(cfg, r, [], r) && Settled(r) == r;
  }

  lemma HeaderNoBlank(h: Header)
    requires IsName(h.name)
    ensures NoBlankFirst(RenderHeader(h))
  {
    assert RenderHeader(h)[0] == h.name[0] && h.name[0] in h.name;
  }

  lemma HeadersNoBlank(hs: seq<Header>)
    requires hs != [] && IsName(hs[0].name)
    ensures NoBlankFirst(RenderHeaders(hs))
  {
    HeaderNoBlank(hs[0]);
  }

  lemma MarkedOn(c: Core, y: Core, z: Core, a: seq<Header>, b: seq<Header>)
    requires Alike(y, Marked(c, a)) && Alike(z, Marked(y, b))
    ensures Alike(z, Marked(c, a + b))
  {
    hide Keeps, Closes, Upgrading, Protocols;
    MarkedMore(a, b);
  }

  lemma NothingMarked(c: Core)
    ensures Alike(c, Marked(c, []))
  {
  }

  lemma HeaderEvent(tr: Trace, hs: seq<Header>)
    requires hs != []
    ensures EmitAll(tr, HeaderEvents(hs)) ==
            EmitAll(Emit(Emit(tr, Data(Field, hs[0].name)), Data(Value, hs[0].value)), HeaderEvents(hs[1..]))
  {
    EmitTwo(tr, Data(Field, hs[0].name), Data(Value, hs[0].value));
    EmitAllConcat(tr, [Data(Field, hs[0].name), Data(Value, hs[0].value)], HeaderEvents(hs[1..]));
  }

  lemma {:induction false} HeadersEaten(cfg: Settings, r: Run, hs: seq<Header>) returns (z: Run)
    requires r.core.state.HeaderFieldStart? && PlainHeaders(hs)
    ensures EatsTo(cfg, r, RenderHeaders(hs), z) && Alike(z.core, Marked(r.core, hs))
    ensures z.trace == EmitAll(r.trace, HeaderEvents(hs))
    decreases |hs|
  {
    hide EatsTo, PlainHeader, Marked, NoBlankFirst, RenderHeader, Emit;
    if hs == [] {
      NothingEaten(cfg, r);
      NothingMarked(r.core);
      z := r;
    } else {
      var h, rest := hs[0], hs[1..];
      assert h in hs && forall x | x in rest :: x in hs;
      assert [h] + rest == hs;
      var y := HeaderEaten(cfg, r, h);
      MarkedStarts(r.core, y.core, [h]);
      z := HeadersEaten(cfg, y, rest);
      if rest != [] { PlainNamed(rest[0]); HeadersNoBlank(rest); }
      EatsToThen(cfg, r, RenderHeader(h), y, RenderHeaders(rest), z);
      HeaderEvent(r.trace, hs);
      MarkedOn(r.core, y.core, z.core, [h], rest);
    }
  }

  lemma MarkedStarts(c: Core, y: Core, hs: seq<Header>)
    requires Alike(y, Marked(c, hs))
    ensures y.state == c.state && y.flags.contentLength == c.flags.contentLength
  {
  }

  lemma PlainNamed(h: Header)
    requires PlainHeader(h)
    ensures IsName(h.name)
  {
  }

  /** Trailers are without meaning. */
  lemma TrailersPlain(hs: seq<Header>)
    requires OrdinaryHeaders(hs)
    ensures PlainHeaders(hs) && !Keeps(hs) && !Closes(hs)
  {
  }
}
