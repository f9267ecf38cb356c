/** What a parser still has ahead of it, seen from some point inside a buffer: the
    result of feeding the rest, what will have been reported, and the reading of the header
    byte counter.  The loops of the incremental parser keep this outlook unchanged. */
module HttpOutlook {
  import opened HttpChars
  import opened HttpMachine
  import opened HttpLegal
  import opened HttpRun

  datatype Outlook = Outlook(result: Fed, seen: Trace, beyond: Exit, unread: nat,
                             last: nat, peak: nat, resets: seq<nat>)

  function Skipping(cfg: Settings, skipping: bool, n: nat, r: Run, data: string): Outlook {
    var m := Meter(cfg, skipping, n, r, data);
    Outlook(Feed(cfg, skipping, r, data), Seen(cfg, skipping, r, data), Beyond(cfg, skipping, r, data),
            Unread(cfg, skipping, r, data), m.last, m.peak, m.resets)
  }

  function Ahead(cfg: Settings, n: nat, r: Run, data: string): Outlook {
    Skipping(cfg, false, n, r, data)
  }

  /** The outlook from inside the first character, once that has been counted. */
  function Midway(cfg: Settings, k: nat, r: Run, data: string): Outlook
    requires data != []
  {
    var m := MeterMid(cfg, false, k, r, data);
    Outlook(Feed(cfg, false, r, data), Seen(cfg, false, r, data), Beyond(cfg, false, r, data),
            Unread(cfg, false, r, data), m.last, m.peak, m.resets)
  }

  /** The outlook `g` can be replaced by `h`. */
  predicate Meets(g: Outlook, h: Outlook) {
    Agrees(g, h) && g.beyond == h.beyond
  }

  /** The same where the connection has just left HTTP. */
  predicate Agrees(g: Outlook, h: Outlook) {
    && g.result == h.result && g.seen == h.seen && g.unread == h.unread
    && g.last == h.last
    && h.peak <= g.peak && h.resets <= g.resets
    && (g.peak > MAX_HEADER_SIZE ==> h.peak > MAX_HEADER_SIZE)
  }

  lemma Dispatched(cfg: Settings, k: nat, r: Run, data: string, p: nat)
    requires p < |data|
    requires ResetsCounter(r.core.state) ==> k <= MAX_HEADER_SIZE
    ensures var g := Midway(cfg, k, r, data[p..]);
        var o := Dispatch(OptionsAt(cfg, r), r.core, data[p]);
        if o.Fault? then g.result == Failed(o.errno) && g.seen == r.trace && g.beyond.Stays? && g.unread == |data| - p
        else if o.again then Meets(g, Midway(cfg, k, After(r, o), data[p..]))
        else
          var h := Skipping(cfg, Skips(r.core, data[p]), if ResetsCounter(r.core.state) then 0 else k,
                            After(r, o), data[p + 1..]);
          if Exits(r.core) then Agrees(g, h) && g.beyond == Leaves(After(r, o), |data| - (p + 1)) else Meets(g, h)
  {
    hide Dispatch, Exits, Emit;
    var rest := data[p..];
    assert rest[0] == data[p] && rest[1..] == data[p + 1..];
    assert View(cfg, false) == cfg;
    AgainSkips(OptionsAt(cfg, r), r.core, data[p]);
    ExitsOnce(OptionsAt(cfg, r), r.core, data[p]);
  }

  lemma ExitsOnce(opt: Options, c: Core, ch: char)
    ensures var o := Dispatch(opt, c, ch); o.Move? && o.again ==> !Exits(c)
  {
  }

  /** A character that is dispatched again does not start a skip, then or later. */
  lemma AgainSkips(opt: Options, c: Core, ch: char)
    ensures var o := Dispatch(opt, c, ch);
        o.Move? && o.again ==> !Skips(c, ch) && !Skips(o.core, ch)
  {
    NeverAgainInValue(opt, c, ch);
  }

  /** Whether a skip is under way matters only to a byte that it would let pass. */
  lemma NotSkipping(cfg: Settings, n: nat, r: Run, data: string)
    requires data == [] || !Rejects(cfg, r.core, data[0])
    ensures Skipping(cfg, true, n, r, data) == Ahead(cfg, n, r, data)
  {
    if data != [] {
      assert View(cfg, false) == cfg;
      ConsumeView(cfg, true, r, data[0]);
      SeenView(cfg, true, r, data[0]);
      LeavesView(cfg, true, r, data[0]);
      var k := Counted(n, r.core.state);
      assert MeterMid(cfg, true, k, r, data) == MeterMid(cfg, false, k, r, data);
    }
  }

  predicate Plain(c: Core) {
    c.state.HeaderValue? && c.headerState.General?
  }

  lemma ValueConsumed(cfg: Settings, r: Run, ch: char)
    requires Plain(r.core) && ch != CR && ch != LF && !Rejects(cfg, r.core, ch)
    ensures Consume(cfg, r, ch) == Next(Run(r.core, Emit(r.trace, Data(Value, [ch]))), false)
    ensures !LeavesAt(cfg, r, ch)
  {
  }

  /** A byte of an uninterpreted value: checked if it is the first one, else skipped. */
  lemma ValueByte(cfg: Settings, skipping: bool, n: nat, r: Run, data: string, p: nat)
    requires p < |data| && Plain(r.core) && data[p] != CR && data[p] != LF
    requires skipping || !Rejects(cfg, r.core, data[p])
    ensures Meets(Skipping(cfg, skipping, n, r, data[p..]),
                  Skipping(cfg, true, n + 1, Run(r.core, Emit(r.trace, Data(Value, [data[p]]))), data[p + 1..]))
  {
    hide Consume, LeavesAt, SeenAt, Dispatch, Emit;
    var rest := data[p..];
    assert rest[0] == data[p] && rest[1..] == data[p + 1..];
    ValueConsumed(View(cfg, skipping), r, data[p]);
    var r' := Run(r.core, Emit(r.trace, Data(Value, [data[p]])));
    assert MeterMid(cfg, skipping, n + 1, r, rest) ==
           var m := Meter(cfg, true, n + 1, r', data[p + 1..]);
           Reading(m.last, if n + 1 <= m.peak then m.peak else n + 1, m.resets);
  }

  /** The memchr skip over a header value that nobody interprets. */
  lemma {:induction false} ValueSkipped(cfg: Settings, skipping: bool, n: nat, r: Run, data: string, p: nat, q: nat)
    requires p < q <= |data| && Plain(r.core) && (skipping || !Rejects(cfg, r.core, data[p]))
    requires forall i :: p <= i < q ==> data[i] != CR && data[i] != LF
    ensures Meets(Skipping(cfg, skipping, n, r, data[p..]),
                  Skipping(cfg, true, n + (q - p), Run(r.core, Emit(r.trace, Data(Value, data[p..q]))), data[q..]))
    decreases q - p
  {
    var r' := Run(r.core, Emit(r.trace, Data(Value, [data[p]])));
    ValueByte(cfg, skipping, n, r, data, p);
    if p + 1 < q {
      ValueSkipped(cfg, true, n + 1, r', data, p + 1, q);
      EmitTwice(r.trace, Value, [data[p]], data[p + 1..q]);
      assert [data[p]] + data[p + 1..q] == data[p..q];
    } else {
      assert data[p..q] == [data[p]];
    }
  }

  predicate BodyData(s: State) {
    s.BodyIdentity? || s.ChunkData?
  }

  function Shortened(c: Core, m: nat): Core
    requires m <= c.contentLength
  {
    c.(contentLength := c.contentLength - m)
  }

  lemma BodyLetter(opt: Options, c: Core, ch: char)
    requires BodyData(c.state) && 1 < c.contentLength
    ensures Dispatch(opt, c, ch) == Move(Shortened(c, 1), Report(Data(Body, [ch])), false)
  {
  }

  lemma BodyByte(cfg: Settings, n: nat, r: Run, data: string, p: nat)
    requires p < |data| && BodyData(r.core.state) && 1 < r.core.contentLength
    ensures Meets(Ahead(cfg, n, r, data[p..]),
                  Ahead(cfg, n, Run(Shortened(r.core, 1), Emit(r.trace, Data(Body, [data[p]]))), data[p + 1..]))
  {
    hide Dispatch;
    BodyLetter(OptionsAt(cfg, r), r.core, data[p]);
    Dispatched(cfg, n, r, data, p);
  }

  /** A block of a body that does not reach the end of the body. */
  lemma {:induction false} BodySkipped(cfg: Settings, n: nat, r: Run, data: string, p: nat, q: nat)
    requires p < q <= |data| && BodyData(r.core.state) && q - p < r.core.contentLength
    ensures Meets(Ahead(cfg, n, r, data[p..]),
                  Ahead(cfg, n, Run(Shortened(r.core, q - p), Emit(r.trace, Data(Body, data[p..q]))), data[q..]))
    decreases q - p
  {
    hide Ahead, Emit, BodyData;
    var r' := Run(Shortened(r.core, 1), Emit(r.trace, Data(Body, [data[p]])));
    BodyByte(cfg, n, r, data, p);
    if p + 1 < q {
      BodySkipped(cfg, n, r', data, p + 1, q);
      EmitTwice(r.trace, Body, [data[p]], data[p + 1..q]);
      assert [data[p]] + data[p + 1..q] == data[p..q];
    } else {
      assert data[p..q] == [data[p]];
    }
  }

  /** States that the switch handles without a loop of their own. */
  predicate SimpleState(s: State) {
    !s.HeaderField? && !s.HeaderValue? && !BodyData(s)
  }

  /** What a dispatch in such a state reports, and where that leaves the parser. */
  predicate ReportFits(was: State, o: Outcome, ch: char)
    requires o.Move?
  {
    var s := o.core.state;
    && (s.HeadersDone? ==> o.again && was.HeadersAlmostDone?)
    && (s.ChunkSizeStart? ==> ResetsCounter(was))
    && (o.again ==> ParsingHeader(was) && !ResetsCounter(was))
    && match o.report
    case Silent => !s.HeaderField? && !s.HeaderValue? && !UrlState(s)
    case Report(Data(kind, bytes)) =>
      if was.HeaderValueDiscardLws? then kind.Value? && bytes == [] && s.HeaderFieldStart? && o.again
      else
        && bytes == [ch] && !o.again
        && !was.ChunkDataAlmostDone?
        && (match kind
            case Url => UrlState(s) && (UrlState(was) || was.ReqSpacesBeforeUrl?)
            case Field => s.HeaderField? && !UrlState(was)
            case Value => s.HeaderValue? && !UrlState(was)
            case Body => false)
    case Report(e) =>
      && !s.HeaderField? && !s.HeaderValue? && !UrlState(s) && !UrlState(was) && !was.ChunkDataAlmostDone?
      && (e.HeadersComplete? ==> s.HeadersDone?)
      && (o.again ==> s.HeadersDone? || s.MessageDone?)
  }

  lemma TargetCharReports(c: Core, ch: char)
    requires UrlState(c.state)
    ensures var o := TargetChar(c, ch); o.Move? ==> ReportFits(c.state, o, ch)
  {
    ParseUrlCharStates(c.state, ch);
  }

  lemma RequestLineReports(c: Core, ch: char)
    requires RequestLineState(c.state)
    ensures var o := RequestLine(c, ch); o.Move? ==> ReportFits(c.state, o, ch)
  {
    if c.state.ReqSpacesBeforeUrl? {
      ParseUrlCharStates(if c.verb.CONNECT? then ReqServerStart else c.state, ch);
    } else if c.state.ReqMethod? {
    } else if c.state.StartReq? {
    }
  }

  lemma FieldLineReports(c: Core, ch: char)
    requires FieldLineState(c.state) && !c.state.HeaderField?
    ensures var o := FieldLine(c, ch); o.Move? ==> ReportFits(c.state, o, ch)
  {
    if c.state.HeaderFieldStart? {
    } else if c.state.HeaderValueDiscardWs? {
    } else if c.state.HeaderValueDiscardLws? {
    }
  }

  lemma ValueLineReports(opt: Options, c: Core, ch: char)
    requires ValueLineState(c.state) && !c.state.HeaderValue?
    ensures var o := ValueLine(opt, c, ch); o.Move? ==> ReportFits(c.state, o, ch)
  {
    if c.state.HeaderValueStart? {
    } else if c.state.HeaderAlmostDone? {
    }
  }

  lemma AfterHeadersReports(opt: Options, c: Core, ch: char)
    requires AfterHeadersState(c.state) && !BodyData(c.state)
    ensures var o := AfterHeaders(opt, c, ch); o.Move? ==> ReportFits(c.state, o, ch)
  {
    if c.state.HeadersAlmostDone? {
    } else if c.state.HeadersDone? {
    }
  }

  lemma ChunkPartReports(c: Core, ch: char)
    requires ChunkState(c.state) && !BodyData(c.state)
    ensures var o := ChunkPart(c, ch); o.Move? ==> ReportFits(c.state, o, ch)
  {
    if c.state.ChunkSizeStart? {
    } else if c.state.ChunkSize? {
    } else if c.state.ChunkSizeAlmostDone? {
    }
  }

  lemma DispatchReports(opt: Options, c: Core, ch: char)
    requires SimpleState(c.state)
    ensures var o := Dispatch(opt, c, ch); o.Move? ==> ReportFits(c.state, o, ch)
  {
    if UrlState(c.state) { TargetCharReports(c, ch); }
    else if FieldLineState(c.state) { FieldLineReports(c, ch); }
    else if ValueLineState(c.state) { ValueLineReports(opt, c, ch); }
    else if AfterHeadersState(c.state) { AfterHeadersReports(opt, c, ch); }
    else if ChunkState(c.state) { ChunkPartReports(c, ch); }
    else { RequestLineReports(c, ch); }
  }

  /** Errors that the machine itself finds in the input. */
  predicate InputError(e: Errno) {
    !e.Ok? && !e.Paused? && !e.CbFailed? && !e.HeaderOverflow? && !e.InvalidEofState?
  }

  lemma DispatchFaults(opt: Options, c: Core, ch: char)
    ensures var o := Dispatch(opt, c, ch); o.Fault? ==> InputError(o.errno)
  {
    if UrlState(c.state) {
    } else if FieldLineState(c.state) {
    } else if ValueLineState(c.state) {
    } else if AfterHeadersState(c.state) {
    } else if ChunkState(c.state) {
    }
  }

  lemma DispatchExits(opt: Options, c: Core, ch: char)
    ensures var o := Dispatch(opt, c, ch);
        Exits(c) && o.Move? ==>
          && o.core.upgrade && !o.again && (o.core.state.StartReq? || o.core.state.Dead?)
          && o.report == Report(MessageComplete)
  {
  }
}
