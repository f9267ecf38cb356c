/** The request half of the HTTP/1.x state machine, one character at a time.

    `Dispatch` is one execution of the big switch of `http_parser_execute` on one
    character; it says what the parser becomes, what it has to report, and whether
    the same character is looked at again.  The incremental parser of module
    HttpParser, with its marks and its bulk loops, is proved against it. */
module HttpMachine {
  import opened HttpChars

  const ULLONG_MAX: int := 18446744073709551615
  const MAX_HEADER_SIZE: int := 81920

  // ---------------------------------------------------------------- states

  datatype State =
    | Dead
    | StartReq
    | ReqMethod
    | ReqSpacesBeforeUrl
    | ReqSchema
    | ReqSchemaSlash
    | ReqSchemaSlashSlash
    | ReqServerStart
    | ReqServer
    | ReqServerWithAt
    | ReqPath
    | ReqQueryStringStart
    | ReqQueryString
    | ReqFragmentStart
    | ReqFragment
    | ReqHttpStart
    | ReqHttpH
    | ReqHttpHT
    | ReqHttpHTT
    | ReqHttpHTTP
    | ReqHttpMajor
    | ReqHttpDot
    | ReqHttpMinor
    | ReqHttpEnd
    | ReqLineAlmostDone
    | HeaderFieldStart
    | HeaderField
    | HeaderValueDiscardWs
    | HeaderValueDiscardWsAlmostDone
    | HeaderValueDiscardLws
    | HeaderValueStart
    | HeaderValue
    | HeaderValueLws
    | HeaderAlmostDone
    | ChunkSizeStart
    | ChunkSize
    | ChunkParameters
    | ChunkSizeAlmostDone
    | HeadersAlmostDone
    | HeadersDone
    | ChunkData
    | ChunkDataAlmostDone
    | ChunkDataDone
    | BodyIdentity
    | MessageDone

  /** States whose bytes count towards the header limit: all but the body states. */
  predicate ParsingHeader(s: State) {
    !(s.ChunkData? || s.ChunkDataAlmostDone? || s.ChunkDataDone? || s.BodyIdentity? || s.MessageDone?)
  }

  /** States in which the bytes seen belong to the request target. */
  predicate UrlState(s: State) {
    || s.ReqSchema? || s.ReqSchemaSlash? || s.ReqSchemaSlashSlash? || s.ReqServerStart? || s.ReqServer?
    || s.ReqServerWithAt? || s.ReqPath? || s.ReqQueryStringStart? || s.ReqQueryString?
    || s.ReqFragmentStart? || s.ReqFragment?
  }

  datatype HeaderState =
    | General
    | C
    | CO
    | CON
    | MatchingConnection
    | MatchingProxyConnection
    | MatchingContentLength
    | MatchingTransferEncoding
    | MatchingUpgrade
    | Connection
    | ContentLength
    | ContentLengthNum
    | ContentLengthWs
    | TransferEncoding
    | Upgrade
    | MatchingTransferEncodingChunked
    | MatchingConnectionTokenStart
    | MatchingConnectionKeepAlive
    | MatchingConnectionClose
    | MatchingConnectionUpgrade
    | MatchingConnectionToken
    | TransferEncodingChunked
    | ConnectionKeepAlive
    | ConnectionClose
    | ConnectionUpgrade

  datatype Method =
    | DELETE | GET | HEAD | POST | PUT | CONNECT | OPTIONS | TRACE
    | COPY | LOCK | MKCOL | MOVE | PROPFIND | PROPPATCH | SEARCH | UNLOCK
    | BIND | REBIND | UNBIND | ACL
    | REPORT | MKACTIVITY | CHECKOUT | MERGE
    | MSEARCH | NOTIFY | SUBSCRIBE | UNSUBSCRIBE
    | PATCH | PURGE | MKCALENDAR | LINK | UNLINK | SOURCE

  /** The table `method_strings`. */
  function MethodName(m: Method): string {
    match m
    case DELETE => "DELETE" case GET => "GET" case HEAD => "HEAD" case POST => "POST" case PUT => "PUT"
    case CONNECT => "CONNECT" case OPTIONS => "OPTIONS" case TRACE => "TRACE" case COPY => "COPY"
    case LOCK => "LOCK" case MKCOL => "MKCOL" case MOVE => "MOVE" case PROPFIND => "PROPFIND"
    case PROPPATCH => "PROPPATCH" case SEARCH => "SEARCH" case UNLOCK => "UNLOCK" case BIND => "BIND"
    case REBIND => "REBIND" case UNBIND => "UNBIND" case ACL => "ACL" case REPORT => "REPORT"
    case MKACTIVITY => "MKACTIVITY" case CHECKOUT => "CHECKOUT" case MERGE => "MERGE"
    case MSEARCH => "M-SEARCH" case NOTIFY => "NOTIFY" case SUBSCRIBE => "SUBSCRIBE"
    case UNSUBSCRIBE => "UNSUBSCRIBE" case PATCH => "PATCH" case PURGE => "PURGE"
    case MKCALENDAR => "MKCALENDAR" case LINK => "LINK" case UNLINK => "UNLINK" case SOURCE => "SOURCE"
  }

  datatype Flags = Flags(
    chunked: bool, keepAlive: bool, close: bool, connectionUpgrade: bool,
    trailing: bool, upgrade: bool, skipBody: bool, contentLength: bool)

  const NO_FLAGS := Flags(false, false, false, false, false, false, false, false)

  datatype Errno =
    | Ok
    | CbFailed
    | InvalidEofState
    | HeaderOverflow
    | ClosedConnection
    | InvalidVersion
    | InvalidMethod
    | InvalidUrl
    | LfExpected
    | InvalidHeaderToken
    | InvalidContentLength
    | UnexpectedContentLength
    | InvalidChunkSize
    | InvalidConstant
    | Strict
    | Paused

  /** The parser record without the byte counter, the error code and the settings. */
  datatype Core = Core(
    state: State, headerState: HeaderState, index: nat, flags: Flags, contentLength: nat,
    major: nat, minor: nat, verb: Method, upgrade: bool)

  /** The record that `http_parser_init` leaves for a request parser. */
  const INITIAL := Core(StartReq, General, 0, NO_FLAGS, 0, 0, 0, DELETE, false)

  /** What the user of the parser decides: the lenient bit, and what its
      on_headers_complete callback answers about the message at hand (0, 1 or 2). */
  datatype Verdict = WithBody | NoBody | NoBodyUpgrade
  datatype Options = Options(lenient: bool, verdict: Verdict)

  // ---------------------------------------------------------------- events

  datatype Kind = Url | Field | Value | Body

  /** What the callbacks see.  The numbers are the public fields of the parser at the
      time of the call. */
  datatype Event =
    | Data(kind: Kind, bytes: string)
    | MessageBegin
    | HeadersComplete(verb: Method, major: nat, minor: nat, length: nat, chunked: bool, upgrade: bool)
    | ChunkHeader(size: nat)
    | ChunkComplete
    | MessageComplete

  // ---------------------------------------------------------------- one dispatch

  /** `Fault`: the error exit.  `Move`: the new record, what there is to report, and
      whether the same character is dispatched again. */
  datatype Report = Silent | Report(event: Event)
  datatype Outcome = Fault(errno: Errno) | Move(core: Core, report: Report, again: bool)

  function Go(c: Core): Outcome { Move(c, Silent, false) }

  function GoTo(c: Core, s: State): Outcome { Move(c.(state := s), Silent, false) }

  function Expect(c: Core, ok: bool, e: Errno, s: State): Outcome {
    if ok then GoTo(c, s) else Fault(e)
  }

  function ParseUrlChar(s: State, ch: char): State {
    if ch == ' ' || ch == CR || ch == LF || ch == TAB || ch == FF then Dead
    else
      match s
      case ReqSpacesBeforeUrl =>
        if ch == '/' || ch == '*' then ReqPath else if IsAlpha(ch) then ReqSchema else Dead
      case ReqSchema =>
        if IsAlpha(ch) then s else if ch == ':' then ReqSchemaSlash else Dead
      case ReqSchemaSlash => if ch == '/' then ReqSchemaSlashSlash else Dead
      case ReqSchemaSlashSlash => if ch == '/' then ReqServerStart else Dead
      case ReqServerWithAt => if ch == '@' then Dead else ParseServerChar(ch)
      case ReqServerStart => ParseServerChar(ch)
      case ReqServer => ParseServerChar(ch)
      case ReqPath =>
        if IsUrlChar(ch) then s
        else if ch == '?' then ReqQueryStringStart else if ch == '#' then ReqFragmentStart else Dead
      case ReqQueryStringStart => ParseQueryChar(ch)
      case ReqQueryString => ParseQueryChar(ch)
      case ReqFragmentStart =>
        if IsUrlChar(ch) || ch == '?' then ReqFragment else if ch == '#' then s else Dead
      case ReqFragment => if IsUrlChar(ch) || ch == '?' || ch == '#' then s else Dead
      case _ => Dead
  }

  function ParseServerChar(ch: char): State {
    if ch == '/' then ReqPath
    else if ch == '?' then ReqQueryStringStart
    else if ch == '@' then ReqServerWithAt
    else if IsUserinfoChar(ch) || ch == '[' || ch == ']' then ReqServer
    else Dead
  }

  function ParseQueryChar(ch: char): State {
    if IsUrlChar(ch) || ch == '?' then ReqQueryString else if ch == '#' then ReqFragmentStart else Dead
  }

  /** The method that its first letter stands for, until later letters say otherwise. */
  datatype MethodGuess = NoMethod | Guess(verb: Method)

  function FirstGuess(ch: char): MethodGuess {
    match ch
    case 'A' => Guess(ACL)
    case 'B' => Guess(BIND)
    case 'C' => Guess(CONNECT)
    case 'D' => Guess(DELETE)
    case 'G' => Guess(GET)
    case 'H' => Guess(HEAD)
    case 'L' => Guess(LOCK)
    case 'M' => Guess(MKCOL)
    case 'N' => Guess(NOTIFY)
    case 'O' => Guess(OPTIONS)
    case 'P' => Guess(POST)
    case 'R' => Guess(REPORT)
    case 'S' => Guess(SUBSCRIBE)
    case 'T' => Guess(TRACE)
    case 'U' => Guess(UNLOCK)
    case _ => NoMethod
  }

  /** The switch over (method, index, character) for a character that the current
      guess does not have at that place. */
  function Revise(m: Method, index: nat, ch: char): MethodGuess {
    match (m, index, ch)
    case (POST, 1, 'U') => Guess(PUT)
    case (POST, 1, 'A') => Guess(PATCH)
    case (POST, 1, 'R') => Guess(PROPFIND)
    case (PUT, 2, 'R') => Guess(PURGE)
    case (CONNECT, 1, 'H') => Guess(CHECKOUT)
    case (CONNECT, 2, 'P') => Guess(COPY)
    case (MKCOL, 1, 'O') => Guess(MOVE)
    case (MKCOL, 1, 'E') => Guess(MERGE)
    case (MKCOL, 1, '-') => Guess(MSEARCH)
    case (MKCOL, 2, 'A') => Guess(MKACTIVITY)
    case (MKCOL, 3, 'A') => Guess(MKCALENDAR)
    case (SUBSCRIBE, 1, 'E') => Guess(SEARCH)
    case (SUBSCRIBE, 1, 'O') => Guess(SOURCE)
    case (REPORT, 2, 'B') => Guess(REBIND)
    case (PROPFIND, 4, 'P') => Guess(PROPPATCH)
    case (LOCK, 1, 'I') => Guess(LINK)
    case (UNLOCK, 2, 'S') => Guess(UNSUBSCRIBE)
    case (UNLOCK, 2, 'B') => Guess(UNBIND)
    case (UNLOCK, 3, 'I') => Guess(UNLINK)
    case _ => NoMethod
  }

  function NextGuess(m: Method, index: nat, ch: char): MethodGuess {
    var name := MethodName(m);
    if index < |name| && ch == name[index] then Guess(m)
    else if 'A' <= ch <= 'Z' || ch == '-' then Revise(m, index, ch)
    else NoMethod
  }

  function ShouldKeepAlive(c: Core): bool {
    if c.major > 0 && c.minor > 0 then !c.flags.close else c.flags.keepAlive
  }

  /** NEW_MESSAGE in strict mode. */
  function NewMessage(c: Core): State {
    if ShouldKeepAlive(c) then StartReq else Dead
  }

  function RequestLine(c: Core, ch: char): Outcome {
    match c.state
    case Dead => if ch == CR || ch == LF then Go(c) else Fault(ClosedConnection)
    case StartReq =>
      if ch == CR || ch == LF then Go(c)
      else
        var guess := FirstGuess(ch);
        if guess.NoMethod? then Fault(InvalidMethod)
        else
          Move(c.(flags := NO_FLAGS, contentLength := ULLONG_MAX, verb := guess.verb, index := 1,
                  state := ReqMethod), Report(MessageBegin), false)
    case ReqMethod =>
      if ch == ' ' && c.index == |MethodName(c.verb)| then
        GoTo(c.(index := c.index + 1), ReqSpacesBeforeUrl)
      else
        var guess := NextGuess(c.verb, c.index, ch);
        if guess.NoMethod? then Fault(InvalidMethod)
        else Go(c.(verb := guess.verb, index := c.index + 1))
    case ReqSpacesBeforeUrl =>
      if ch == ' ' then Go(c) else UrlMove(c, ParseUrlChar(if c.verb.CONNECT? then ReqServerStart else c.state, ch), ch)
    case ReqHttpStart =>
      if ch == 'H' then GoTo(c, ReqHttpH) else if ch == ' ' then Go(c) else Fault(InvalidConstant)
    case ReqHttpH => Expect(c, ch == 'T', Strict, ReqHttpHT)
    case ReqHttpHT => Expect(c, ch == 'T', Strict, ReqHttpHTT)
    case ReqHttpHTT => Expect(c, ch == 'P', Strict, ReqHttpHTTP)
    case ReqHttpHTTP => Expect(c, ch == '/', Strict, ReqHttpMajor)
    case ReqHttpMajor =>
      if IsNum(ch) then GoTo(c.(major := ch as int - '0' as int), ReqHttpDot) else Fault(InvalidVersion)
    case ReqHttpDot => Expect(c, ch == '.', InvalidVersion, ReqHttpMinor)
    case ReqHttpMinor =>
      if IsNum(ch) then GoTo(c.(minor := ch as int - '0' as int), ReqHttpEnd) else Fault(InvalidVersion)
    case ReqHttpEnd =>
      if ch == CR then GoTo(c, ReqLineAlmostDone)
      else if ch == LF then GoTo(c, HeaderFieldStart) else Fault(InvalidVersion)
    case _ => // ReqLineAlmostDone
      Expect(c, ch == LF, LfExpected, HeaderFieldStart)
  }

  /** A character of the request target, or the one that ends it. */
  function TargetChar(c: Core, ch: char): Outcome {
    var mayEnd := !(c.state.ReqSchema? || c.state.ReqSchemaSlash? || c.state.ReqSchemaSlashSlash? ||
                    c.state.ReqServerStart?);
    if ch == ' ' && mayEnd then GoTo(c, ReqHttpStart)
    else if ch == CR && mayEnd then GoTo(c.(major := 0, minor := 9), ReqLineAlmostDone)
    else if ch == LF && mayEnd then GoTo(c.(major := 0, minor := 9), HeaderFieldStart)
    else UrlMove(c, ParseUrlChar(c.state, ch), ch)
  }

  function UrlMove(c: Core, s: State, ch: char): Outcome {
    if s.Dead? then Fault(InvalidUrl) else Move(c.(state := s), Report(Data(Url, [ch])), false)
  }

  // ---------------------------------------------------------------- header lines

  const CONNECTION := "connection"
  const PROXY_CONNECTION := "proxy-connection"
  const CONTENT_LENGTH := "content-length"
  const TRANSFER_ENCODING := "transfer-encoding"
  const UPGRADE := "upgrade"
  const CHUNKED := "chunked"
  const KEEP_ALIVE := "keep-alive"
  const CLOSE := "close"

  /** A header state together with the index into the word being matched. */
  datatype Matcher = Matcher(h: HeaderState, index: nat)

  function FirstFieldState(c: char): HeaderState {
    match c
    case 'c' => C
    case 'p' => MatchingProxyConnection
    case 't' => MatchingTransferEncoding
    case 'u' => MatchingUpgrade
    case _ => General
  }

  /** One step of matching `word`: stay, succeed on its last character, or give up. */
  function MatchWord(m: Matcher, word: string, c: char, done: HeaderState, fail: HeaderState): Matcher {
    var i := m.index + 1;
    if i >= |word| || c != word[i] then Matcher(fail, i)
    else if i == |word| - 1 then Matcher(done, i)
    else Matcher(m.h, i)
  }

  /** The header state after one more (case-folded) character of the field name. */
  function FieldNext(m: Matcher, c: char): Matcher {
    match m.h
    case C => Matcher(if c == 'o' then CO else General, m.index + 1)
    case CO => Matcher(if c == 'n' then CON else General, m.index + 1)
    case CON =>
      Matcher(if c == 'n' then MatchingConnection else if c == 't' then MatchingContentLength else General, m.index + 1)
    case MatchingConnection => MatchWord(m, CONNECTION, c, Connection, General)
    case MatchingProxyConnection => MatchWord(m, PROXY_CONNECTION, c, Connection, General)
    case MatchingContentLength => MatchWord(m, CONTENT_LENGTH, c, ContentLength, General)
    case MatchingTransferEncoding => MatchWord(m, TRANSFER_ENCODING, c, TransferEncoding, General)
    case MatchingUpgrade => MatchWord(m, UPGRADE, c, Upgrade, General)
    case _ => m.(h := General)
  }

  /** The first character of a header value (or of its continuation line). */
  function ValueStart(c: Core, ch: char): Outcome {
    var c0 := c.(state := HeaderValue, index := 0);
    var low := Lower(ch);
    match c.headerState
    case Upgrade => ValueMove(c0.(flags := c.flags.(upgrade := true), headerState := General), ch)
    case TransferEncoding =>
      ValueMove(c0.(headerState := if low == 'c' then MatchingTransferEncodingChunked else General), ch)
    case ContentLength =>
      if !IsNum(ch) then Fault(InvalidContentLength)
      else if c.flags.contentLength then Fault(UnexpectedContentLength)
      else
        ValueMove(c0.(flags := c.flags.(contentLength := true), contentLength := ch as int - '0' as int,
                      headerState := ContentLengthNum), ch)
    case Connection =>
      ValueMove(c0.(headerState :=
                    if low == 'k' then MatchingConnectionKeepAlive
                    else if low == 'c' then MatchingConnectionClose
                    else if low == 'u' then MatchingConnectionUpgrade
                    else MatchingConnectionToken), ch)
    case MatchingConnectionTokenStart => ValueMove(c0, ch)
    case _ => ValueMove(c0.(headerState := General), ch)
  }

  function ValueMove(c: Core, ch: char): Outcome {
    Move(c, Report(Data(Value, [ch])), false)
  }

  /** A further digit, or the blank after the digits, of a Content-Length value. */
  function LengthDigit(c: Core, ch: char): Outcome {
    if ch == ' ' then ValueMove(c.(headerState := ContentLengthWs), ch)
    else if !IsNum(ch) then Fault(InvalidContentLength)
    else
      var t := (c.contentLength * 10 + (ch as int - '0' as int)) % (ULLONG_MAX + 1);
      if (ULLONG_MAX - 10) / 10 < c.contentLength then Fault(InvalidContentLength)
      else ValueMove(c.(contentLength := t, headerState := ContentLengthNum), ch)
  }

  function WithConnectionFlag(f: Flags, h: HeaderState): Flags {
    match h
    case ConnectionKeepAlive => f.(keepAlive := true)
    case ConnectionClose => f.(close := true)
    case ConnectionUpgrade => f.(connectionUpgrade := true)
    case _ => f
  }

  /** The flags once the header line is over. */
  function WithLineFlag(f: Flags, h: HeaderState): Flags {
    if h.TransferEncodingChunked? then f.(chunked := true) else WithConnectionFlag(f, h)
  }

  /** A character of a header value other than CR and LF, already found legal. */
  function ValueNext(c: Core, ch: char): Outcome {
    var low := Lower(ch);
    var m := Matcher(c.headerState, c.index);
    match c.headerState
    case ContentLength =>
      if ch == ' ' then ValueMove(c, ch) else LengthDigit(c, ch)
    case ContentLengthNum => LengthDigit(c, ch)
    case ContentLengthWs =>
      if ch == ' ' then ValueMove(c, ch) else Fault(InvalidContentLength)
    case MatchingTransferEncodingChunked =>
      Matched(c, MatchWord(m, CHUNKED, low, TransferEncodingChunked, General), ch)
    case MatchingConnectionTokenStart =>
      ValueMove(c.(headerState :=
                   if low == 'k' then MatchingConnectionKeepAlive
                   else if low == 'c' then MatchingConnectionClose
                   else if low == 'u' then MatchingConnectionUpgrade
                   else if IsToken(low) then MatchingConnectionToken
                   else if low == ' ' || low == TAB then MatchingConnectionTokenStart
                   else General), ch)
    case MatchingConnectionKeepAlive =>
      Matched(c, MatchWord(m, KEEP_ALIVE, low, ConnectionKeepAlive, MatchingConnectionToken), ch)
    case MatchingConnectionClose =>
      Matched(c, MatchWord(m, CLOSE, low, ConnectionClose, MatchingConnectionToken), ch)
    case MatchingConnectionUpgrade =>
      Matched(c, MatchWord(m, UPGRADE, low, ConnectionUpgrade, MatchingConnectionToken), ch)
    case MatchingConnectionToken =>
      ValueMove(if ch == ',' then c.(headerState := MatchingConnectionTokenStart, index := 0) else c, ch)
    case TransferEncodingChunked =>
      ValueMove(if ch != ' ' then c.(headerState := General) else c, ch)
    case ConnectionKeepAlive => TokenEnd(c, ch)
    case ConnectionClose => TokenEnd(c, ch)
    case ConnectionUpgrade => TokenEnd(c, ch)
    case _ => ValueMove(c.(headerState := General), ch)
  }

  function Matched(c: Core, m: Matcher, ch: char): Outcome {
    ValueMove(c.(headerState := m.h, index := m.index), ch)
  }

  /** What follows a recognised token of a Connection value. */
  function TokenEnd(c: Core, ch: char): Outcome {
    if ch == ',' then
      ValueMove(c.(flags := WithConnectionFlag(c.flags, c.headerState), headerState := MatchingConnectionTokenStart,
                   index := 0), ch)
    else ValueMove(if ch != ' ' then c.(headerState := MatchingConnectionToken) else c, ch)
  }

  /** Up to the start of the header value. */
  function FieldLine(c: Core, ch: char): Outcome {
    match c.state
    case HeaderFieldStart =>
      if ch == CR then GoTo(c, HeadersAlmostDone)
      else if ch == LF then Move(c.(state := HeadersAlmostDone), Silent, true)
      else if !IsToken(ch) then Fault(InvalidHeaderToken)
      else
        Move(c.(state := HeaderField, index := 0, headerState := FirstFieldState(TokenLower(ch))),
             Report(Data(Field, [ch])), false)
    case HeaderField =>
      if IsToken(ch) then
        var m := FieldNext(Matcher(c.headerState, c.index), TokenLower(ch));
        Move(c.(headerState := m.h, index := m.index), Report(Data(Field, [ch])), false)
      else if ch == ':' then GoTo(c, HeaderValueDiscardWs)
      else Fault(InvalidHeaderToken)
    case HeaderValueDiscardWs =>
      if ch == ' ' || ch == TAB then Go(c)
      else if ch == CR then GoTo(c, HeaderValueDiscardWsAlmostDone)
      else if ch == LF then GoTo(c, HeaderValueDiscardLws)
      else ValueStart(c, ch)
    case HeaderValueDiscardWsAlmostDone => Expect(c, ch == LF, Strict, HeaderValueDiscardLws)
    case _ => // HeaderValueDiscardLws
      if ch == ' ' || ch == TAB then GoTo(c, HeaderValueDiscardWs)
      else
        Move(c.(flags := WithLineFlag(c.flags, c.headerState), state := HeaderFieldStart),
             Report(Data(Value, [])), true)
  }

  /** From the first character of a header value to the end of its line. */
  function ValueLine(opt: Options, c: Core, ch: char): Outcome {
    match c.state
    case HeaderValueStart => ValueStart(c, ch)
    case HeaderValue =>
      if ch == CR then GoTo(c, HeaderAlmostDone)
      else if ch == LF then Move(c.(state := HeaderAlmostDone), Silent, true)
      else if !opt.lenient && !IsHeaderChar(ch) then Fault(InvalidHeaderToken)
      else ValueNext(c, ch)
    case HeaderAlmostDone => Expect(c, ch == LF, LfExpected, HeaderValueLws)
    case _ => // HeaderValueLws
      if ch == ' ' || ch == TAB then Move(c.(state := HeaderValueStart), Silent, true)
      else Move(c.(flags := WithLineFlag(c.flags, c.headerState), state := HeaderFieldStart), Silent, true)
  }

  // ---------------------------------------------------------------- after the headers

  predicate HasBody(c: Core) {
    c.flags.chunked || (c.contentLength > 0 && c.contentLength != ULLONG_MAX)
  }

  /** The record that on_headers_complete sees. */
  function Announced(c: Core): Core {
    c.(state := HeadersDone,
       upgrade := if c.flags.upgrade && c.flags.connectionUpgrade then true else c.verb.CONNECT?)
  }

  function Answered(c: Core, v: Verdict): Core {
    match v
    case WithBody => c
    case NoBody => c.(flags := c.flags.(skipBody := true))
    case NoBodyUpgrade => c.(flags := c.flags.(skipBody := true), upgrade := true)
  }

  function HeadersCompleteOf(c: Core): Event {
    HeadersComplete(c.verb, c.major, c.minor, c.contentLength, c.flags.chunked, c.upgrade)
  }

  function Complete(c: Core): Outcome {
    Move(c.(state := NewMessage(c)), Report(MessageComplete), false)
  }

  function HexDigit(c: Core, ch: char): Outcome {
    var t := (c.contentLength * 16 + Unhex(ch)) % (ULLONG_MAX + 1);
    if (ULLONG_MAX - 16) / 16 < c.contentLength then Fault(InvalidContentLength)
    else Go(c.(contentLength := t))
  }

  function AfterHeaders(opt: Options, c: Core, ch: char): Outcome {
    match c.state
    case HeadersAlmostDone =>
      if ch != LF then Fault(Strict)
      else if c.flags.trailing then Move(c.(state := MessageDone), Report(ChunkComplete), true)
      else if c.flags.chunked && c.flags.contentLength then Fault(UnexpectedContentLength)
      else
        var c' := Announced(c);
        Move(Answered(c', opt.verdict), Report(HeadersCompleteOf(c')), true)
    case HeadersDone =>
      if ch != LF then Fault(Strict)
      else if ExitsEarly(c) || c.flags.skipBody then Complete(c)
      else if c.flags.chunked then GoTo(c, ChunkSizeStart)
      else if c.contentLength == 0 || c.contentLength == ULLONG_MAX then Complete(c)
      else GoTo(c, BodyIdentity)
    case BodyIdentity =>
      if c.contentLength == 0 then Fault(Strict)   // excluded by Legal
      else if c.contentLength == 1 then
        Move(c.(contentLength := 0, state := MessageDone), Report(Data(Body, [ch])), true)
      else Move(c.(contentLength := c.contentLength - 1), Report(Data(Body, [ch])), false)
    case _ => // MessageDone
      Complete(c)
  }

  /** The chunked transfer coding of RFC 7230, section 4.1. */
  function ChunkPart(c: Core, ch: char): Outcome {
    match c.state
    case ChunkSizeStart =>
      if Unhex(ch) == -1 then Fault(InvalidChunkSize)
      else GoTo(c.(contentLength := Unhex(ch)), ChunkSize)
    case ChunkSize =>
      if ch == CR then GoTo(c, ChunkSizeAlmostDone)
      else if Unhex(ch) != -1 then HexDigit(c, ch)
      else if ch == ';' || ch == ' ' then GoTo(c, ChunkParameters)
      else Fault(InvalidChunkSize)
    case ChunkParameters => if ch == CR then GoTo(c, ChunkSizeAlmostDone) else Go(c)
    case ChunkSizeAlmostDone =>
      if ch != LF then Fault(Strict)
      else if c.contentLength == 0 then
        Move(c.(flags := c.flags.(trailing := true), state := HeaderFieldStart), Report(ChunkHeader(0)), false)
      else Move(c.(state := ChunkData), Report(ChunkHeader(c.contentLength)), false)
    case ChunkData =>
      if c.contentLength == 0 then Fault(Strict)   // excluded by Legal
      else
        Move(c.(contentLength := c.contentLength - 1,
                state := if c.contentLength == 1 then ChunkDataAlmostDone else ChunkData),
             Report(Data(Body, [ch])), false)
    case ChunkDataAlmostDone => Expect(c, ch == CR, Strict, ChunkDataDone)
    case _ => // ChunkDataDone
      if ch != LF then Fault(Strict) else Move(c.(state := ChunkSizeStart), Report(ChunkComplete), false)
  }

  /** After the headers the connection leaves HTTP without a body being read. */
  predicate ExitsEarly(c: Core) {
    c.upgrade && (c.verb.CONNECT? || c.flags.skipBody || !HasBody(c))
  }

  // ---------------------------------------------------------------- the switch

  predicate FieldLineState(s: State) {
    || s.HeaderFieldStart? || s.HeaderField? || s.HeaderValueDiscardWs? || s.HeaderValueDiscardWsAlmostDone?
    || s.HeaderValueDiscardLws?
  }

  predicate ValueLineState(s: State) {
    s.HeaderValueStart? || s.HeaderValue? || s.HeaderAlmostDone? || s.HeaderValueLws?
  }

  predicate AfterHeadersState(s: State) {
    s.HeadersAlmostDone? || s.HeadersDone? || s.BodyIdentity? || s.MessageDone?
  }

  predicate ChunkState(s: State) {
    || s.ChunkSizeStart? || s.ChunkSize? || s.ChunkParameters? || s.ChunkSizeAlmostDone? || s.ChunkData?
    || s.ChunkDataAlmostDone? || s.ChunkDataDone?
  }

  predicate RequestLineState(s: State) {
    !UrlState(s) && !FieldLineState(s) && !ValueLineState(s) && !AfterHeadersState(s) && !ChunkState(s)
  }

  function Dispatch(opt: Options, c: Core, ch: char): (o: Outcome) {
    if UrlState(c.state) then TargetChar(c, ch)
    else if FieldLineState(c.state) then FieldLine(c, ch)
    else if ValueLineState(c.state) then ValueLine(opt, c, ch)
    else if AfterHeadersState(c.state) then AfterHeaders(opt, c, ch)
    else if ChunkState(c.state) then ChunkPart(c, ch)
    else RequestLine(c, ch)
  }

  /** Bounds how often one character can be dispatched again. */
  function Rank(s: State): nat {
    if s.HeaderValueLws? || s.HeaderValueDiscardLws? then 3
    else if s.HeaderFieldStart? then 2
    else if s.HeadersAlmostDone? || s.HeaderValue? || s.BodyIdentity? then 1
    else 0
  }

  /** Dispatches after which the header byte counter is back at zero. */
  predicate ResetsCounter(s: State) {
    s.HeadersDone? || s.ChunkSizeAlmostDone? || s.ChunkDataDone?
  }

  /** The dispatch that completes a message after which the connection is no longer HTTP. */
  predicate Exits(c: Core) {
    (c.state.MessageDone? && c.upgrade) || (c.state.HeadersDone? && ExitsEarly(c))
  }

  // ---------------------------------------------------------------- legality

  predicate FieldHeaderState(h: HeaderState, index: nat) {
    || h.General? || h.Connection? || h.ContentLength? || h.TransferEncoding? || h.Upgrade?
    || (h.C? && index == 0)
    || (h.CO? && index == 1)
    || (h.CON? && index == 2)
    || (h.MatchingConnection? && 3 <= index < |CONNECTION| - 1)
    || (h.MatchingProxyConnection? && index < |PROXY_CONNECTION| - 1)
    || (h.MatchingContentLength? && 3 <= index < |CONTENT_LENGTH| - 1)
    || (h.MatchingTransferEncoding? && index < |TRANSFER_ENCODING| - 1)
    || (h.MatchingUpgrade? && index < |UPGRADE| - 1)
  }

  predicate ValueHeaderState(h: HeaderState, index: nat) {
    || h.General? || h.ContentLengthNum? || h.ContentLengthWs? || h.MatchingConnectionToken?
    || h.TransferEncodingChunked? || h.ConnectionKeepAlive? || h.ConnectionClose? || h.ConnectionUpgrade?
    || (h.MatchingConnectionTokenStart? && index == 0)
    || (h.MatchingTransferEncodingChunked? && index < |CHUNKED| - 1)
    || (h.MatchingConnectionKeepAlive? && index < |KEEP_ALIVE| - 1)
    || (h.MatchingConnectionClose? && index < |CLOSE| - 1)
    || (h.MatchingConnectionUpgrade? && index < |UPGRADE| - 1)
  }

  /** States in which the trailer of a chunked body can be under way, or is over. */
  predicate MayTrail(s: State) {
    s.Dead? || s.StartReq? || FieldLineState(s) || ValueLineState(s) || s.HeadersAlmostDone? || s.MessageDone?
  }

  /** What every record that the parser can reach satisfies.  Each assertion inside
      `http_parser_execute` follows from it. */
  predicate Legal(c: Core) {
    && c.contentLength <= ULLONG_MAX
    && (FieldLineState(c.state) && !c.state.HeaderFieldStart? ==> FieldHeaderState(c.headerState, c.index))
    && (ValueLineState(c.state) ==> ValueHeaderState(c.headerState, c.index))
    && (ChunkState(c.state) ==> c.flags.chunked)
    && (ChunkState(c.state) && !c.state.ChunkSizeStart? ==> c.contentLength < ULLONG_MAX)
    && (c.state.ChunkData? || c.state.BodyIdentity? ==> 0 < c.contentLength < ULLONG_MAX)
    && (c.state.ChunkDataAlmostDone? ==> c.contentLength == 0)
    && (c.flags.trailing ==> MayTrail(c.state))
  }
}
