/** Other ways to write the same request: what the parser lets pass besides the strict form. */
module HttpVariants {
  import opened Ascii
  import opened HttpChars
  import opened HttpMachine
  import opened HttpRun
  import opened HttpOutlook
  import opened HttpText
  import opened HttpTarget
  import opened HttpMessage
  import opened HttpRoundTrip

  predicate OnlyBlanks(s: string) { forall c | c in s :: c == ' ' }

  predicate OnlyWhite(s: string) { forall c | c in s :: c == ' ' || c == '\t' }

  /** A byte that changes nothing. */
  predicate Ignored(s: State, c: char) {
    || ((s.StartReq? || s.Dead?) && (c == '\r' || c == '\n'))
    || ((s.ReqSpacesBeforeUrl? || s.ReqHttpStart?) && c == ' ')
    || (s.HeaderValueDiscardWs? && (c == ' ' || c == '\t'))
  }

  lemma {:induction false} IgnoredEaten(cfg: Settings, r: Run, s: string)
    requires forall c | c in s :: Ignored(r.core.state, c)
    ensures Eats(cfg, r, s, r)
    decreases |s|
  {
    if s == [] {
      NothingMore(cfg, r);
    } else {
      assert s[0] in s && s == [s[0]] + s[1..] && forall c | c in s[1..] :: c in s;
      assert To(r, r.core.state) == r;
      Moves(cfg, r, s[0], r.core.state);
      IgnoredEaten(cfg, r, s[1..]);
      EatsThen(cfg, r, [s[0]], r, s[1..], r);
    }
  }

  /** Line ends in front of a request, and blanks in front of its target, its version and the
      values of its headers, however many, change nothing. */
  lemma ExtrasIgnored(cfg: Settings, r: Run, s: string)
    requires
      || ((r.core.state.StartReq? || r.core.state.Dead?) && OnlyLineEnds(s))
      || ((r.core.state.ReqSpacesBeforeUrl? || r.core.state.ReqHttpStart?) && OnlyBlanks(s))
      || (r.core.state.HeaderValueDiscardWs? && OnlyWhite(s))
    ensures Eats(cfg, r, s, r)
  {
    IgnoredEaten(cfg, r, s);
  }

  // ---------------------------------------------------------------- line feeds

  /** Where a line of the head may end. */
  predicate LineMayEnd(s: State) {
    TargetEnds(s) || s.ReqHttpEnd? || s.HeaderFieldStart? || s.HeaderValueDiscardWs? || s.HeaderValue?
  }

  /** There a line feed alone means what a carriage return and a line feed mean, whatever
      follows. */
  lemma LineFeedAlone(cfg: Settings, r: Run, x: string)
    requires LineMayEnd(r.core.state)
    ensures Feed(cfg, false, r, "\n" + x) == Feed(cfg, false, r, "\r\n" + x)
    ensures Seen(cfg, false, r, "\n" + x) == Seen(cfg, false, r, "\r\n" + x)
  {
    ReturnMoves(cfg, r);
    var y := AfterReturn(r);
    FeedAlike(cfg, r, y, x);
    assert "\r\n" + x == "\r" + ("\n" + x);
    EatsOn(cfg, r, "\r", y, "\n" + x);
    SeenBehind(cfg, r, "\r", y, "\n" + x);
  }

  lemma SeenBehind(cfg: Settings, r: Run, a: string, x: Run, b: string)
    requires Eats(cfg, r, a, x)
    ensures Seen(cfg, false, r, a + b) == Seen(cfg, false, x, b)
  {
    hide Feed, Seen, SkippingAfter, Checked;
    SeenOn(cfg, false, r, a, b);
  }

  /** The parser after the carriage return. */
  function AfterReturn(r: Run): Run {
    var s := r.core.state;
    if TargetEnds(s) then r.(core := r.core.(state := ReqLineAlmostDone, major := 0, minor := 9))
    else To(r, if s.ReqHttpEnd? then ReqLineAlmostDone
               else if s.HeaderFieldStart? then HeadersAlmostDone
               else if s.HeaderValueDiscardWs? then HeaderValueDiscardWsAlmostDone else HeaderAlmostDone)
  }

  lemma ReturnMoves(cfg: Settings, r: Run)
    requires LineMayEnd(r.core.state)
    ensures Eats(cfg, r, "\r", AfterReturn(r))
  {
    hide Eats;
    if TargetEnds(r.core.state) {
      TargetReturns(cfg, r);
    } else if r.core.state.HeaderValue? {
      CarriageReturnAfterValue(cfg, r);
    } else {
      Moves(cfg, r, '\r', AfterReturn(r).core.state);
    }
  }

  lemma TargetReturns(cfg: Settings, r: Run)
    requires TargetEnds(r.core.state)
    ensures Eats(cfg, r, "\r", AfterReturn(r))
  {
    hide Eats;
    EatsChar(cfg, r, '\r', AfterReturn(r), false);
  }

  lemma FeedAlike(cfg: Settings, r: Run, y: Run, x: string)
    requires LineMayEnd(r.core.state) && y == AfterReturn(r)
    ensures Feed(cfg, false, r, "\n" + x) == Feed(cfg, false, y, "\n" + x)
    ensures Seen(cfg, false, r, "\n" + x) == Seen(cfg, false, y, "\n" + x)
  {
    LineFeedConsumed(cfg, r);
    hide Consume, SeenAt;
    var s := "\n" + x;
    assert s[0] == '\n' && s[1..] == x && View(cfg, false) == cfg;
  }

  lemma LineFeedConsumed(cfg: Settings, r: Run)
    requires LineMayEnd(r.core.state)
    ensures var y := AfterReturn(r);
        && Consume(cfg, r, '\n') == Consume(cfg, y, '\n') && SeenAt(cfg, r, '\n') == SeenAt(cfg, y, '\n')
        && !Skips(r.core, '\n') && !Skips(y.core, '\n')
  {
    hide Consume, SeenAt;
    if r.core.state.HeaderFieldStart? {
      LineFeedAgain(cfg, r, HeadersAlmostDone);
    } else if r.core.state.HeaderValue? {
      LineFeedAgain(cfg, r, HeaderAlmostDone);
    } else {
      LineFeedOnce(cfg, r);
    }
  }

  lemma LineFeedOnce(cfg: Settings, r: Run)
    requires LineMayEnd(r.core.state) && !r.core.state.HeaderFieldStart? && !r.core.state.HeaderValue?
    ensures var y := AfterReturn(r);
        && Consume(cfg, r, '\n') == Consume(cfg, y, '\n') && SeenAt(cfg, r, '\n') == SeenAt(cfg, y, '\n')
  {
    hide Dispatch;
    var y := AfterReturn(r);
    LineFeedMoves(OptionsAt(cfg, r), OptionsAt(cfg, y), r, y);
  }

  lemma LineFeedMoves(a: Options, b: Options, r: Run, y: Run)
    requires LineMayEnd(r.core.state) && !r.core.state.HeaderFieldStart? && !r.core.state.HeaderValue?
    requires y == AfterReturn(r)
    ensures var o := Dispatch(a, r.core, '\n');
        o == Dispatch(b, y.core, '\n') && o.Move? && !o.again && o.report.Silent?
  {
    if TargetEnds(r.core.state) {
    } else if r.core.state.ReqHttpEnd? {
    }
  }

  lemma LineFeedAgain(cfg: Settings, r: Run, s: State)
    requires if r.core.state.HeaderFieldStart? then s.HeadersAlmostDone?
             else r.core.state.HeaderValue? && s.HeaderAlmostDone?
    ensures Consume(cfg, r, '\n') == Consume(cfg, To(r, s), '\n')
    ensures SeenAt(cfg, r, '\n') == SeenAt(cfg, To(r, s), '\n')
  {
    var o := Dispatch(OptionsAt(cfg, r), r.core, '\n');
    assert o.Move? && o.again && After(r, o) == To(r, s);
    hide Dispatch;
  }

  // ---------------------------------------------------------------- requests without a version

  /** A target that ends its line is that of an HTTP/0.9 request. */
  lemma ShortLine(cfg: Settings, r: Run, u: string)
    requires r.core.state.ReqSpacesBeforeUrl? && ValidTarget(r.core.verb.CONNECT?, u)
    ensures Eats(cfg, r, u + "\r\n", Run(r.core.(state := HeaderFieldStart, major := 0, minor := 9),
                                         Emit(r.trace, Data(Url, u))))
  {
    hide TargetState, Feed, Eats, CompleteTarget, TargetEnds;
    TargetExact(r.core.verb.CONNECT?, u);
    EndsLive(TargetState(r.core.verb.CONNECT?, u));
    StartsVisible(r.core.verb.CONNECT?, u);
    TargetEaten(cfg, r, u);
    var x := TargetSeen(r, u);
    ReturnMoves(cfg, x);
    var y := AfterReturn(x);
    var z := Run(r.core.(state := HeaderFieldStart, major := 0, minor := 9), Emit(r.trace, Data(Url, u)));
    EatsThen(cfg, r, u, x, "\r", y);
    Moves(cfg, y, '\n', HeaderFieldStart);
    EatsThen(cfg, r, u + "\r", y, ['\n'], z);
    assert u + "\r" + ['\n'] == u + "\r\n";
  }

  lemma EndsLive(s: State)
    requires TargetEnds(s)
    ensures !s.Dead?
  {
  }

  // ---------------------------------------------------------------- folded values

  /** Header states whose meaning ends with the line. */
  predicate FoldsAway(h: HeaderState) {
    !h.Upgrade? && !h.TransferEncoding? && !h.ContentLength? && !h.Connection? && !h.MatchingConnectionTokenStart?
  }

  /** A value goes on in the next line if that starts with a blank or a tabulator, which then
      belongs to it: it is reported as one value. */
  lemma ValueFolded(cfg: Settings, r: Run, w: char, v: string)
    requires r.core.state.HeaderValue? && FoldsAway(r.core.headerState) && (w == ' ' || w == '\t')
    requires forall c | c in v :: ValueCode(c)
    ensures var c := r.core.(state := HeaderAlmostDone, headerState := General, index := 0);
        Eats(cfg, r, "\r\n" + ([w] + v + "\r"), Run(c, Emit(r.trace, Data(Value, [w] + v))))
  {
    hide Eats, ValueCode;
    var r2 := To(r, HeaderValueLws);
    ValueLineEaten(cfg, r);
    BlankContinues(cfg, r2, w);
    var r3 := Run(r.core.(state := HeaderValue, headerState := General, index := 0), Emit(r.trace, Data(Value, [w])));
    PlainEats(cfg, r3, v);
    EmitTwice(r.trace, Value, [w], v);
    assert v == [] ==> [w] + v == [w];
    var z := ValueDone(r3, v);
    EatsThen(cfg, r2, [w], r3, v + [CR], z);
    EatsThen(cfg, r, CRLF, r2, [w] + (v + [CR]), z);
    assert "\r\n" + ([w] + v + "\r") == CRLF + ([w] + (v + [CR]));
  }

  lemma BlankContinues(cfg: Settings, r: Run, w: char)
    requires r.core.state.HeaderValueLws? && FoldsAway(r.core.headerState) && (w == ' ' || w == '\t')
    ensures Eats(cfg, r, [w], Run(r.core.(state := HeaderValue, headerState := General, index := 0),
                                  Emit(r.trace, Data(Value, [w]))))
  {
    var z := Run(r.core.(state := HeaderValue, headerState := General, index := 0), Emit(r.trace, Data(Value, [w])));
    var x := To(r, HeaderValueStart);
    var o := Dispatch(OptionsAt(cfg, r), r.core, w);
    assert o.Move? && o.again && After(r, o) == x;
    BlankStarts(cfg, x, w);
    hide Dispatch, Eats, Emit;
    EatsChar(cfg, r, w, z, false);
  }

  lemma BlankStarts(cfg: Settings, x: Run, w: char)
    requires x.core.state.HeaderValueStart? && FoldsAway(x.core.headerState)
    ensures Consume(cfg, x, w) == Next(Run(x.core.(state := HeaderValue, headerState := General, index := 0),
                                           Emit(x.trace, Data(Value, [w]))), false)
    ensures !LeavesAt(cfg, x, w)
  {
  }

  /** A value may also start in the next line. */
  lemma EmptyFold(cfg: Settings, r: Run, w: char)
    requires r.core.state.HeaderValueDiscardWs? && (w == ' ' || w == '\t')
    ensures Eats(cfg, r, "\r\n" + [w], r)
  {
    hide Eats;
    var r1, r2 := To(r, HeaderValueDiscardWsAlmostDone), To(r, HeaderValueDiscardLws);
    Moves(cfg, r, '\r', HeaderValueDiscardWsAlmostDone);
    Moves(cfg, r1, '\n', HeaderValueDiscardLws);
    Moves(cfg, r2, w, HeaderValueDiscardWs);
    assert To(r2, HeaderValueDiscardWs) == r;
    EatsThen(cfg, r, ['\r'], r1, ['\n'], r2);
    EatsThen(cfg, r, ['\r'] + ['\n'], r2, [w], r);
    assert ['\r'] + ['\n'] + [w] == "\r\n" + [w];
  }

  // ---------------------------------------------------------------- ambiguous framing

  /** A second Content-Length is refused at its first digit. */
  lemma SecondLength(cfg: Settings, r: Run, name: string, d: char)
    requires r.core.state.HeaderFieldStart? && r.core.flags.contentLength && DecimalDigit(d)
    requires IsName(name) && LowerName(name) == "content-length"
    ensures Feed(cfg, false, r, name + ":" + " " + [d]) == Failed(UnexpectedContentLength)
  {
    hide LowerName, IsName, Feed;
    LengthName(cfg, r, name);
    EatsOn(cfg, r, name + ":" + " ", FieldTaken(r, name), [d]);
    LengthTwice(cfg, FieldTaken(r, name), d);
  }

  lemma LengthTwice(cfg: Settings, r: Run, d: char)
    requires r.core.state.HeaderValueDiscardWs? && r.core.headerState.ContentLength?
    requires r.core.flags.contentLength && DecimalDigit(d)
    ensures Feed(cfg, false, r, [d]) == Failed(UnexpectedContentLength)
  {
    assert View(cfg, false) == cfg;
  }

  /** A Content-Length beside the chunked coding is refused at the end of the headers. */
  lemma LengthAndChunks(cfg: Settings, r: Run)
    requires r.core.state.HeaderFieldStart? && r.core.flags.contentLength && r.core.flags.chunked
    requires !r.core.flags.trailing
    ensures Feed(cfg, false, r, "\r\n") == Failed(UnexpectedContentLength)
  {
    Moves(cfg, r, '\r', HeadersAlmostDone);
    EatsOn(cfg, r, ['\r'], To(r, HeadersAlmostDone), "\n");
    assert ['\r'] + "\n" == "\r\n";
    BothFramings(cfg, To(r, HeadersAlmostDone));
  }

  lemma BothFramings(cfg: Settings, r: Run)
    requires r.core.state.HeadersAlmostDone? && r.core.flags.contentLength && r.core.flags.chunked
    requires !r.core.flags.trailing
    ensures Feed(cfg, false, r, "\n") == Failed(UnexpectedContentLength)
  {
    assert View(cfg, false) == cfg;
  }
}
