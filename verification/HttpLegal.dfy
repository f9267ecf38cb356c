/** The invariant of the request machine: what every reachable record satisfies, kept
    by every dispatch, and the rank that bounds repeated dispatches. */
module HttpLegal {
  import opened HttpChars
  import opened HttpMachine

  lemma ParseUrlCharStates(s: State, ch: char)
    ensures var t := ParseUrlChar(s, ch); t.Dead? || UrlState(t)
  {
  }

  lemma UrlMoveLegal(c: Core, s: State, ch: char)
    requires Legal(c) && !c.flags.trailing && (s.Dead? || UrlState(s))
    ensures var o := UrlMove(c, s, ch); o.Move? ==> Legal(o.core)
  {
  }

  lemma TargetCharLegal(c: Core, ch: char)
    requires UrlState(c.state)
    ensures var o := TargetChar(c, ch); o.Move? ==> !o.again && (Legal(c) ==> Legal(o.core))
  {
    ParseUrlCharStates(c.state, ch);
    if Legal(c) { UrlMoveLegal(c, ParseUrlChar(c.state, ch), ch); }
  }

  lemma RequestLineLegal(c: Core, ch: char)
    requires RequestLineState(c.state)
    ensures var o := RequestLine(c, ch); o.Move? ==> !o.again && (Legal(c) ==> Legal(o.core))
  {
    hide FieldHeaderState, ValueHeaderState, NextGuess, FirstGuess, ParseUrlChar;
    if c.state.ReqSpacesBeforeUrl? {
      var from := if c.verb.CONNECT? then ReqServerStart else c.state;
      ParseUrlCharStates(from, ch);
      if Legal(c) { UrlMoveLegal(c, ParseUrlChar(from, ch), ch); }
    } else if c.state.ReqMethod? {
    } else if c.state.StartReq? {
    }
  }

  lemma FieldNextLegal(m: Matcher, c: char)
    requires FieldHeaderState(m.h, m.index)
    ensures var n := FieldNext(m, c); FieldHeaderState(n.h, n.index)
  {
  }

  lemma ValueStartLegal(c: Core, ch: char)
    requires c.contentLength <= ULLONG_MAX
    requires FieldHeaderState(c.headerState, c.index) || ValueHeaderState(c.headerState, c.index)
    ensures var o := ValueStart(c, ch); o.Move? ==> Legal(o.core)
  {
  }

  lemma FieldStartLegal(c: Core, ch: char)
    requires c.state.HeaderFieldStart?
    ensures var o := FieldLine(c, ch);
        o.Move? ==> (o.again ==> Rank(o.core.state) < Rank(c.state)) && (Legal(c) ==> Legal(o.core))
  {
    hide ValueHeaderState, FieldNext, ValueStart;
  }

  lemma FieldNameLegal(c: Core, ch: char)
    requires c.state.HeaderField?
    ensures var o := FieldLine(c, ch); o.Move? ==> !o.again && (Legal(c) ==> Legal(o.core))
  {
    if Legal(c) { FieldNextLegal(Matcher(c.headerState, c.index), TokenLower(ch)); }
    hide ValueHeaderState, FieldHeaderState, FieldNext, ValueStart;
  }

  lemma BeforeValueLegal(c: Core, ch: char)
    requires c.state.HeaderValueDiscardWs? || c.state.HeaderValueDiscardWsAlmostDone?
    ensures var o := FieldLine(c, ch); o.Move? ==> !o.again && (Legal(c) ==> Legal(o.core))
  {
    if c.state.HeaderValueDiscardWs? {
      if Legal(c) { ValueStartLegal(c, ch); }
    }
    hide FieldNext, ValueHeaderState, FieldHeaderState;
  }

  lemma EmptyValueLegal(c: Core, ch: char)
    requires c.state.HeaderValueDiscardLws?
    ensures var o := FieldLine(c, ch);
        o.Move? ==> (o.again ==> Rank(o.core.state) < Rank(c.state)) && (Legal(c) ==> Legal(o.core))
  {
    hide ValueHeaderState, FieldHeaderState, FieldNext, ValueStart;
  }

  lemma FieldLineLegal(c: Core, ch: char)
    requires FieldLineState(c.state)
    ensures var o := FieldLine(c, ch);
        o.Move? ==> (o.again ==> Rank(o.core.state) < Rank(c.state)) && (Legal(c) ==> Legal(o.core))
  {
    hide FieldLine, Legal, Rank;
    if c.state.HeaderFieldStart? {
      FieldStartLegal(c, ch);
    } else if c.state.HeaderField? {
      FieldNameLegal(c, ch);
    } else if c.state.HeaderValueDiscardLws? {
      EmptyValueLegal(c, ch);
    } else {
      BeforeValueLegal(c, ch);
    }
  }

  lemma ValueNextLegal(c: Core, ch: char)
    requires Legal(c) && c.state.HeaderValue?
    ensures var o := ValueNext(c, ch); o.Move? ==> Legal(o.core)
  {
    hide Lower, IsToken, IsNum, FieldHeaderState, WithConnectionFlag;
  }

  /** No character of a header value is dispatched again. */
  lemma ValueOnce(c: Core, ch: char)
    ensures var o := ValueStart(c, ch); o.Move? ==> !o.again
    ensures c.state.HeaderValue? ==> var o := ValueNext(c, ch); o.Move? ==> !o.again && o.core.state.HeaderValue?
  {
    hide MatchWord, Lower, IsNum;
  }

  lemma ValueLineLegal(opt: Options, c: Core, ch: char)
    requires ValueLineState(c.state)
    ensures var o := ValueLine(opt, c, ch);
        o.Move? ==> (o.again ==> Rank(o.core.state) < Rank(c.state)) && (Legal(c) ==> Legal(o.core))
  {
    hide ValueStart, ValueNext, FieldHeaderState, ValueHeaderState, IsHeaderChar;
    ValueOnce(c, ch);
    if c.state.HeaderValueStart? {
      if Legal(c) { ValueStartLegal(c, ch); }
    } else if c.state.HeaderValue? {
      if Legal(c) { ValueNextLegal(c, ch); }
    } else if c.state.HeaderAlmostDone? {
    }
  }

  lemma AfterHeadersLegal(opt: Options, c: Core, ch: char)
    requires AfterHeadersState(c.state)
    ensures var o := AfterHeaders(opt, c, ch);
        o.Move? ==> (o.again ==> Rank(o.core.state) < Rank(c.state)) && (Legal(c) ==> Legal(o.core))
  {
    hide FieldHeaderState, ValueHeaderState, ExitsEarly;
    if c.state.HeadersAlmostDone? {
    } else if c.state.HeadersDone? {
    } else if c.state.BodyIdentity? {
    }
  }

  lemma ChunkSizeLegal(c: Core, ch: char)
    requires c.state.ChunkSizeStart? || c.state.ChunkSize? || c.state.ChunkParameters?
    ensures var o := ChunkPart(c, ch); o.Move? ==> !o.again && (Legal(c) ==> Legal(o.core))
  {
    hide FieldHeaderState, ValueHeaderState;
    if c.state.ChunkSizeStart? {
    } else if c.state.ChunkSize? {
    }
  }

  lemma ChunkRestLegal(c: Core, ch: char)
    requires c.state.ChunkSizeAlmostDone? || c.state.ChunkData? || c.state.ChunkDataAlmostDone?
        || c.state.ChunkDataDone?
    ensures var o := ChunkPart(c, ch); o.Move? ==> !o.again && (Legal(c) ==> Legal(o.core))
  {
    hide FieldHeaderState, ValueHeaderState, HexDigit;
    if c.state.ChunkSizeAlmostDone? {
    } else if c.state.ChunkData? {
    }
  }

  lemma ChunkPartLegal(c: Core, ch: char)
    requires ChunkState(c.state)
    ensures var o := ChunkPart(c, ch); o.Move? ==> !o.again && (Legal(c) ==> Legal(o.core))
  {
    hide ChunkPart, Legal;
    if c.state.ChunkSizeStart? || c.state.ChunkSize? || c.state.ChunkParameters? {
      ChunkSizeLegal(c, ch);
    } else {
      ChunkRestLegal(c, ch);
    }
  }

  /** Every dispatch keeps the invariant, and dispatching a character again lowers the
      rank of the state: at most four dispatches a character. */
  lemma DispatchLegal(opt: Options, c: Core, ch: char)
    ensures var o := Dispatch(opt, c, ch);
        o.Move? ==> (o.again ==> Rank(o.core.state) < Rank(c.state)) && (Legal(c) ==> Legal(o.core))
  {
    if UrlState(c.state) { TargetCharLegal(c, ch); }
    else if FieldLineState(c.state) { FieldLineLegal(c, ch); }
    else if ValueLineState(c.state) { ValueLineLegal(opt, c, ch); }
    else if AfterHeadersState(c.state) { AfterHeadersLegal(opt, c, ch); }
    else if ChunkState(c.state) { ChunkPartLegal(c, ch); }
    else { RequestLineLegal(c, ch); }
  }
}
