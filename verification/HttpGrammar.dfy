/** The grammar of the callbacks.

    A phase says what may come next.  A merged trace is grammatical when a phase is
    reached by it; body phases carry the number of bytes still owed, so that a body has
    exactly the announced length and every chunk exactly its size. */
module HttpGrammar {
  import opened HttpChars
  import opened HttpMachine
  import opened HttpLegal
  import opened HttpRun

  datatype Phase =
    | Refused
    | Idle
    | Begun
    | InUrl
    | InField
    | InValue
    | Identity(left: nat)
    | Chunks
    | ChunkBody(left: nat)
    | Trailer
    | TrailerField
    | TrailerValue
    | Ending

  /** What follows on_headers_complete. */
  function BodyPhase(skipped: bool, verb: Method, length: nat, chunked: bool): Phase {
    if skipped || verb.CONNECT? then Ending
    else if chunked then Chunks
    else if length == 0 || length == ULLONG_MAX then Ending
    else Identity(length)
  }

  function NextPhase(v: Verdict, g: Phase, e: Event): Phase {
    match e
    case MessageBegin => if g.Idle? then Begun else Refused
    case Data(Url, _) => if g.Begun? || g.InUrl? then InUrl else Refused
    case Data(Field, _) =>
      if g.InUrl? || g.InField? || g.InValue? then InField
      else if g.Trailer? || g.TrailerField? || g.TrailerValue? then TrailerField else Refused
    case Data(Value, _) =>
      if g.InField? || g.InValue? then InValue
      else if g.TrailerField? || g.TrailerValue? then TrailerValue else Refused
    case HeadersComplete(verb, _, _, length, chunked, _) =>
      if g.InUrl? || g.InValue? then BodyPhase(!v.WithBody?, verb, length, chunked) else Refused
    case Data(Body, x) =>
      if g.Identity? && |x| <= g.left then Identity(g.left - |x|)
      else if g.ChunkBody? && |x| <= g.left then ChunkBody(g.left - |x|) else Refused
    case ChunkHeader(size) =>
      if g.Chunks? then (if size == 0 then Trailer else ChunkBody(size)) else Refused
    case ChunkComplete =>
      if g == ChunkBody(0) then Chunks
      else if g.Trailer? || g.TrailerValue? then Ending else Refused
    case MessageComplete => if g.Ending? || g == Identity(0) then Idle else Refused
  }

  function PhaseAfter(cfg: Settings, tr: Trace): Phase {
    if tr.Empty? then Idle else NextPhase(cfg.verdict(tr.init, tr.last), PhaseAfter(cfg, tr.init), tr.last)
  }

  /** Joining data does not change the phase reached. */
  lemma PhaseEmit(cfg: Settings, tr: Trace, e: Event)
    ensures PhaseAfter(cfg, Emit(tr, e)) == NextPhase(cfg.verdict(tr, e), PhaseAfter(cfg, tr), e)
  {
    if e.Data? && EndsWith(tr, e.kind) {
      var g := PhaseAfter(cfg, tr.init);
      assert |tr.last.bytes + e.bytes| == |tr.last.bytes| + |e.bytes|;
    }
  }

  // ---------------------------------------------------------------- phases and states

  predicate HeadPhase(c: Core, head: bool, trailer: bool) {
    if c.flags.trailing then trailer else head && !c.flags.skipBody
  }

  /** The phases that a record can stand for. */
  predicate Fits(c: Core, g: Phase) {
    var s := c.state;
    if s.Dead? || s.StartReq? then g.Idle?
    else if s.ReqMethod? || s.ReqSpacesBeforeUrl? then g.Begun? && !c.flags.skipBody
    else if s.HeaderFieldStart? || s.HeadersAlmostDone? then
      HeadPhase(c, g.InUrl? || g.InValue?, g.Trailer? || g.TrailerValue?)
    else if FieldLineState(s) then HeadPhase(c, g.InField?, g.TrailerField?)
    else if ValueLineState(s) then HeadPhase(c, g.InValue?, g.TrailerValue?)
    else if s.HeadersDone? then
      && g == BodyPhase(c.flags.skipBody, c.verb, c.contentLength, c.flags.chunked)
      && (c.verb.CONNECT? ==> c.upgrade)
    else if s.ChunkData? then g == ChunkBody(c.contentLength)
    else if s.ChunkDataAlmostDone? || s.ChunkDataDone? then g == ChunkBody(0)
    else if ChunkState(s) then g.Chunks?
    else if s.BodyIdentity? then g == Identity(c.contentLength)
    else if s.MessageDone? then g == if c.flags.trailing then Ending else Identity(0)
    else g.InUrl? && !c.flags.skipBody
  }

  /** A dispatch reports only what the phase allows, and ends in a fitting phase. */
  predicate Allowed(opt: Options, g: Phase, o: Outcome) {
    o.Move? ==> Fits(o.core, if o.report.Silent? then g else NextPhase(opt.verdict, g, o.report.event))
  }

  lemma UrlMoveAllowed(opt: Options, c: Core, s: State, ch: char, g: Phase)
    requires (g.InUrl? || g.Begun?) && !c.flags.skipBody && (s.Dead? || UrlState(s))
    ensures Allowed(opt, g, UrlMove(c, s, ch))
  {
  }

  lemma TargetCharAllowed(opt: Options, c: Core, ch: char, g: Phase)
    requires Legal(c) && UrlState(c.state) && Fits(c, g)
    ensures Allowed(opt, g, TargetChar(c, ch))
  {
    ParseUrlCharStates(c.state, ch);
    UrlMoveAllowed(opt, c, ParseUrlChar(c.state, ch), ch, g);
  }

  lemma RequestLineAllowed(opt: Options, c: Core, ch: char, g: Phase)
    requires Legal(c) && RequestLineState(c.state) && Fits(c, g)
    ensures Allowed(opt, g, RequestLine(c, ch))
  {
    if c.state.ReqSpacesBeforeUrl? {
      var from := if c.verb.CONNECT? then ReqServerStart else c.state;
      ParseUrlCharStates(from, ch);
      UrlMoveAllowed(opt, c, ParseUrlChar(from, ch), ch, g);
    } else if c.state.ReqMethod? {
    } else if c.state.StartReq? {
    }
  }

  /** A character of a header value is reported as such, and changes little else. */
  predicate ValueOutcome(c: Core, ch: char, o: Outcome) {
    o.Move? ==>
      && o.core.state.HeaderValue? && o.report == Report(Data(Value, [ch]))
      && o.core.flags.trailing == c.flags.trailing && o.core.flags.skipBody == c.flags.skipBody
  }

  lemma ValueStartOutcome(c: Core, ch: char)
    ensures ValueOutcome(c, ch, ValueStart(c, ch))
  {
  }

  lemma ValueNextOutcome(c: Core, ch: char)
    requires c.state.HeaderValue?
    ensures ValueOutcome(c, ch, ValueNext(c, ch))
  {
    hide MatchWord, Lower, IsToken, IsNum;
    var h := c.headerState;
    if h.ConnectionKeepAlive? || h.ConnectionClose? || h.ConnectionUpgrade? {
    } else if h.ContentLength? || h.ContentLengthNum? || h.ContentLengthWs? {
    } else if h.MatchingConnectionTokenStart? {
    }
  }

  lemma ValueAllowed(opt: Options, c: Core, ch: char, o: Outcome, g: Phase)
    requires ValueOutcome(c, ch, o)
    requires if c.flags.trailing then g.TrailerField? || g.TrailerValue?
             else (g.InField? || g.InValue?) && !c.flags.skipBody
    ensures Allowed(opt, g, o)
  {
  }

  lemma FieldAllowed(opt: Options, c: Core, ch: char, g: Phase)
    requires (c.state.HeaderFieldStart? || c.state.HeaderField?) && Fits(c, g)
    ensures Allowed(opt, g, FieldLine(c, ch))
  {
    hide ValueStart, FieldNext, FirstFieldState;
  }

  lemma BeforeValueAllowed(opt: Options, c: Core, ch: char, g: Phase)
    requires FieldLineState(c.state) && !c.state.HeaderFieldStart? && !c.state.HeaderField? && Fits(c, g)
    ensures Allowed(opt, g, FieldLine(c, ch))
  {
    hide ValueStart, FieldNext, ValueOutcome, FirstFieldState, IsToken, TokenLower;
    if c.state.HeaderValueDiscardWs? {
      ValueStartOutcome(c, ch);
      ValueAllowed(opt, c, ch, ValueStart(c, ch), g);
    } else if c.state.HeaderValueDiscardLws? {
    }
  }

  lemma FieldLineAllowed(opt: Options, c: Core, ch: char, g: Phase)
    requires FieldLineState(c.state) && Fits(c, g)
    ensures Allowed(opt, g, FieldLine(c, ch))
  {
    hide FieldLine, Fits, Allowed;
    if c.state.HeaderFieldStart? || c.state.HeaderField? {
      FieldAllowed(opt, c, ch, g);
    } else {
      BeforeValueAllowed(opt, c, ch, g);
    }
  }

  lemma InValueAllowed(opt: Options, c: Core, ch: char, g: Phase)
    requires (c.state.HeaderValueStart? || c.state.HeaderValue?) && Fits(c, g)
    ensures Allowed(opt, g, ValueLine(opt, c, ch))
  {
    if c.state.HeaderValueStart? {
      ValueStartOutcome(c, ch);
      ValueAllowed(opt, c, ch, ValueStart(c, ch), g);
    } else {
      ValueNextOutcome(c, ch);
      ValueAllowed(opt, c, ch, ValueNext(c, ch), g);
    }
    hide ValueStart, ValueNext, ValueOutcome, WithLineFlag, NextPhase;
  }

  lemma LineFlagKeeps(f: Flags, h: HeaderState)
    ensures WithLineFlag(f, h).trailing == f.trailing && WithLineFlag(f, h).skipBody == f.skipBody
  {
    if h.TransferEncodingChunked? {
    } else if h.ConnectionKeepAlive? {
    } else if h.ConnectionClose? {
    } else if h.ConnectionUpgrade? {
    }
  }

  lemma AfterValueAllowed(opt: Options, c: Core, ch: char, g: Phase)
    requires (c.state.HeaderAlmostDone? || c.state.HeaderValueLws?) && Fits(c, g)
    ensures Allowed(opt, g, ValueLine(opt, c, ch))
  {
    hide ValueStart, ValueNext, IsHeaderChar, WithLineFlag;
    LineFlagKeeps(c.flags, c.headerState);
  }

  lemma ValueLineAllowed(opt: Options, c: Core, ch: char, g: Phase)
    requires ValueLineState(c.state) && Fits(c, g)
    ensures Allowed(opt, g, ValueLine(opt, c, ch))
  {
    hide ValueLine, Fits, Allowed;
    if c.state.HeaderValueStart? || c.state.HeaderValue? {
      InValueAllowed(opt, c, ch, g);
    } else {
      AfterValueAllowed(opt, c, ch, g);
    }
  }

  lemma HeadersEndAllowed(opt: Options, c: Core, ch: char, g: Phase)
    requires c.state.HeadersAlmostDone? && Fits(c, g)
    ensures Allowed(opt, g, AfterHeaders(opt, c, ch))
  {
    if c.flags.trailing {
    } else if opt.verdict.WithBody? {
    }
  }

  lemma HeadersDoneAllowed(opt: Options, c: Core, ch: char, g: Phase)
    requires Legal(c) && c.state.HeadersDone? && Fits(c, g)
    ensures Allowed(opt, g, AfterHeaders(opt, c, ch))
  {
    if c.flags.chunked {
    } else if c.contentLength == 0 || c.contentLength == ULLONG_MAX {
    }
  }

  lemma BodyAllowed(opt: Options, c: Core, ch: char, g: Phase)
    requires Legal(c) && (c.state.BodyIdentity? || c.state.MessageDone?) && Fits(c, g)
    ensures Allowed(opt, g, AfterHeaders(opt, c, ch))
  {
  }

  lemma AfterHeadersAllowed(opt: Options, c: Core, ch: char, g: Phase)
    requires Legal(c) && AfterHeadersState(c.state) && Fits(c, g)
    ensures Allowed(opt, g, AfterHeaders(opt, c, ch))
  {
    hide AfterHeaders, Legal, Fits, Allowed;
    if c.state.HeadersAlmostDone? {
      HeadersEndAllowed(opt, c, ch, g);
    } else if c.state.HeadersDone? {
      HeadersDoneAllowed(opt, c, ch, g);
    } else {
      BodyAllowed(opt, c, ch, g);
    }
  }

  lemma ChunkSizeAllowed(opt: Options, c: Core, ch: char, g: Phase)
    requires Legal(c) && (c.state.ChunkSizeStart? || c.state.ChunkSize? || c.state.ChunkParameters?) && Fits(c, g)
    ensures Allowed(opt, g, ChunkPart(c, ch))
  {
    hide FieldHeaderState, ValueHeaderState;
  }

  lemma ChunkRestAllowed(opt: Options, c: Core, ch: char, g: Phase)
    requires Legal(c) && Fits(c, g)
    requires c.state.ChunkSizeAlmostDone? || c.state.ChunkData? || c.state.ChunkDataAlmostDone?
        || c.state.ChunkDataDone?
    ensures Allowed(opt, g, ChunkPart(c, ch))
  {
    hide FieldHeaderState, ValueHeaderState, HexDigit;
    if c.state.ChunkSizeAlmostDone? {
    } else if c.state.ChunkData? {
    }
  }

  lemma ChunkPartAllowed(opt: Options, c: Core, ch: char, g: Phase)
    requires Legal(c) && ChunkState(c.state) && Fits(c, g)
    ensures Allowed(opt, g, ChunkPart(c, ch))
  {
    hide ChunkPart, Legal, Fits, Allowed;
    if c.state.ChunkSizeStart? || c.state.ChunkSize? || c.state.ChunkParameters? {
      ChunkSizeAllowed(opt, c, ch, g);
    } else {
      ChunkRestAllowed(opt, c, ch, g);
    }
  }

  lemma DispatchAllowed(opt: Options, c: Core, ch: char, g: Phase)
    requires Legal(c) && Fits(c, g)
    ensures Allowed(opt, g, Dispatch(opt, c, ch))
  {
    if UrlState(c.state) { TargetCharAllowed(opt, c, ch, g); }
    else if FieldLineState(c.state) { FieldLineAllowed(opt, c, ch, g); }
    else if ValueLineState(c.state) { ValueLineAllowed(opt, c, ch, g); }
    else if AfterHeadersState(c.state) { AfterHeadersAllowed(opt, c, ch, g); }
    else if ChunkState(c.state) { ChunkPartAllowed(opt, c, ch, g); }
    else { RequestLineAllowed(opt, c, ch, g); }
  }

  // ---------------------------------------------------------------- runs

  /** The record is legal, and the trace so far fits it. */
  predicate InGrammar(cfg: Settings, r: Run) {
    Legal(r.core) && Fits(r.core, PhaseAfter(cfg, r.trace))
  }

  predicate Grammatical(cfg: Settings, tr: Trace) {
    !PhaseAfter(cfg, tr).Refused?
  }

  lemma FitsGrammatical(cfg: Settings, r: Run)
    requires InGrammar(cfg, r)
    ensures Grammatical(cfg, r.trace)
  {
  }

  /** Calls on_headers_complete. */
  predicate Announces(o: Outcome) {
    o.Move? && o.report.Report? && o.report.event.HeadersComplete?
  }

  lemma FieldLineQuiet(c: Core, ch: char)
    requires FieldLineState(c.state)
    ensures !Announces(FieldLine(c, ch))
  {
    hide FieldNext, IsToken, TokenLower, ValueStart, FirstFieldState;
    ValueStartOutcome(c, ch);
  }

  lemma ValueLineQuiet(opt: Options, c: Core, ch: char)
    requires ValueLineState(c.state)
    ensures !Announces(ValueLine(opt, c, ch))
  {
    hide ValueStart, ValueNext, IsHeaderChar;
    ValueStartOutcome(c, ch);
    if c.state.HeaderValue? { ValueNextOutcome(c, ch); }
  }

  lemma ChunkPartQuiet(c: Core, ch: char)
    requires ChunkState(c.state)
    ensures !Announces(ChunkPart(c, ch))
  {
    hide Unhex;
  }

  lemma RequestLineQuiet(c: Core, ch: char)
    requires RequestLineState(c.state)
    ensures !Announces(RequestLine(c, ch))
  {
    hide ParseUrlChar, NextGuess, FirstGuess, MethodName;
  }

  /** on_headers_complete is announced as the answer to it was looked up. */
  lemma EventOfDispatch(opt: Options, c: Core, ch: char)
    ensures var o := Dispatch(opt, c, ch); Announces(o) ==> o.report.event == HeadersCompleteOf(Announced(c))
  {
    hide FieldLine, ValueLine, ChunkPart, RequestLine, ParseUrlChar;
    if FieldLineState(c.state) { FieldLineQuiet(c, ch); }
    else if ValueLineState(c.state) { ValueLineQuiet(opt, c, ch); }
    else if ChunkState(c.state) { ChunkPartQuiet(c, ch); }
    else if RequestLineState(c.state) { RequestLineQuiet(c, ch); }
  }

  lemma DispatchInGrammar(cfg: Settings, r: Run, ch: char)
    requires InGrammar(cfg, r)
    ensures var o := Dispatch(OptionsAt(cfg, r), r.core, ch); o.Move? ==> InGrammar(cfg, After(r, o))
  {
    var opt := OptionsAt(cfg, r);
    DispatchLegal(opt, r.core, ch);
    DispatchAllowed(opt, r.core, ch, PhaseAfter(cfg, r.trace));
    var o := Dispatch(opt, r.core, ch);
    if o.Move? && o.report.Report? {
      PhaseEmit(cfg, r.trace, o.report.event);
      EventOfDispatch(opt, r.core, ch);
    }
  }

  /** Data not yet delivered leaves a grammatical trace. */
  lemma Undelivered(cfg: Settings, tr: Trace, k: Kind, x: string)
    requires Grammatical(cfg, Emit(tr, Data(k, x)))
    ensures Grammatical(cfg, tr)
  {
    PhaseEmit(cfg, tr, Data(k, x));
  }

  // ---------------------------------------------------------------- consequences

  function ChunkHeaders(tr: Trace): nat {
    if tr.Empty? then 0 else ChunkHeaders(tr.init) + if tr.last.ChunkHeader? then 1 else 0
  }

  function ChunkCompletes(tr: Trace): nat {
    if tr.Empty? then 0 else ChunkCompletes(tr.init) + if tr.last.ChunkComplete? then 1 else 0
  }

  predicate InChunk(g: Phase) {
    g.ChunkBody? || g.Trailer? || g.TrailerField? || g.TrailerValue?
  }

  /** Chunk headers and completes strictly alternate. */
  lemma {:induction false} ChunksAlternate(cfg: Settings, tr: Trace)
    requires Grammatical(cfg, tr)
    ensures ChunkHeaders(tr) == ChunkCompletes(tr) + if InChunk(PhaseAfter(cfg, tr)) then 1 else 0
  {
    if tr.Snoc? { ChunksAlternate(cfg, tr.init); }
  }

  /** The body bytes that the latest header calls for: of a chunk its size, of a message
      with an identity body the announced length. */
  function Due(cfg: Settings, tr: Trace): nat {
    if tr.Empty? then 0
    else match tr.last
      case ChunkHeader(size) => size
      case HeadersComplete(verb, _, _, length, chunked, _) =>
        if BodyPhase(!cfg.verdict(tr.init, tr.last).WithBody?, verb, length, chunked).Identity? then length else 0
      case _ => Due(cfg, tr.init)
  }

  /** The body bytes reported since that header. */
  function Delivered(tr: Trace): nat {
    if tr.Empty? || tr.last.ChunkHeader? || tr.last.HeadersComplete? then 0
    else Delivered(tr.init) + if tr.last.Data? && tr.last.kind.Body? then |tr.last.bytes| else 0
  }

  function Owed(g: Phase): nat {
    if g.Identity? || g.ChunkBody? then g.left else 0
  }

  /** At every moment what has been delivered and what is still owed make up what the
      latest header calls for; when a chunk or a message is complete, nothing is owed. */
  lemma {:induction false} BodiesExact(cfg: Settings, tr: Trace)
    requires Grammatical(cfg, tr)
    ensures Due(cfg, tr) == Delivered(tr) + Owed(PhaseAfter(cfg, tr))
    ensures tr.Snoc? && (tr.last.ChunkComplete? || tr.last.MessageComplete?) ==> Delivered(tr) == Due(cfg, tr)
  {
    if tr.Snoc? {
      BodiesExact(cfg, tr.init);
    }
  }
}
