/** The incremental request parser: `http_parser_execute` with its marks, its bulk
    loops and its early returns, proved against the character-at-a-time machine. */
module HttpParser {
  import opened HttpChars
  import opened HttpMachine
  import opened HttpLegal
  import opened HttpRun
  import opened HttpGrammar
  import opened HttpOutlook

  /** What a callback does: return 0, pause the parser and return 0, or return an error. */
  datatype Answer = Proceed | Pause | Refuse

  /** From `before` to `after` callbacks were made, with the error code `e` in the end: each
      but the last let the parser go on, and the last had the answer that the code tells.
      An answer may depend on the callback and on all those before it. */
  ghost predicate Obeys(answers: seq<Event> -> Answer, before: seq<Event>, after: seq<Event>, e: Errno) {
    && before <= after
    && (forall k | |before| < k < |after| :: answers(after[..k]).Proceed?)
    && if before == after then !e.Paused? && !e.CbFailed?
       else (e.Paused? <==> answers(after).Pause?) && (e.CbFailed? <==> answers(after).Refuse?)
  }

  lemma Unasked(answers: seq<Event> -> Answer, calls: seq<Event>, e: Errno)
    requires !e.Paused? && !e.CbFailed?
    ensures Obeys(answers, calls, calls, e)
  {
  }

  lemma AskedOnce(answers: seq<Event> -> Answer, before: seq<Event>, after: seq<Event>, e: Errno)
    requires |after| == |before| + 1 && before <= after
    requires e == match answers(after) case Proceed => Ok case Pause => Paused case Refuse => CbFailed
    ensures Obeys(answers, before, after, e)
  {
  }

  lemma ObeysOn(answers: seq<Event> -> Answer, a: seq<Event>, b: seq<Event>, c: seq<Event>, e: Errno)
    requires Obeys(answers, a, b, Ok) && Obeys(answers, b, c, e)
    ensures Obeys(answers, a, c, e)
  {
    forall k | |a| < k < |c| ensures answers(c[..k]).Proceed? {
      if k <= |b| { assert c[..k] == b[..k] && b[..|b|] == b; }
    }
  }

  /** A pointer into the current buffer to the start of data not yet delivered. */
  datatype Mark = Unset | At(pos: nat)
  datatype Marks = Marks(field: Mark, value: Mark, url: Mark, body: Mark)

  const NO_MARKS := Marks(Unset, Unset, Unset, Unset)

  /** How one pass through the switch ends: `break`, `REEXECUTE`, `goto error`, or a
      return of the number of bytes used. */
  datatype Flow = Advance(p: nat) | Again(p: nat) | Error(p: nat) | Leave(n: nat)

  /** Buffers this long make the header byte counter wrap around. */
  const BUFFER_LIMIT := 0x1_0000_0000 - MAX_HEADER_SIZE

  /** Addition on `uint32_t`. */
  function Add32(a: nat, b: nat): (r: nat)
    ensures r <= a + b
    ensures a + b < 0x1_0000_0000 ==> r == a + b
  {
    (a + b) % 0x1_0000_0000
  }

  function Earliest(a: nat, b: nat): nat { if a <= b then a else b }

  predicate MarkBefore(m: Mark, p: nat) {
    m.At? ==> m.pos <= p
  }

  /** Which marks are set is determined by the state, but for the body mark. */
  predicate MarksFit(m: Marks, s: State, p: nat) {
    && (m.field.At? <==> s.HeaderField?) && MarkBefore(m.field, p)
    && (m.value.At? <==> s.HeaderValue?) && MarkBefore(m.value, p)
    && (m.url.At? <==> UrlState(s)) && MarkBefore(m.url, p)
    && (m.body.At? ==> BodyData(s) || s.ChunkDataAlmostDone?) && MarkBefore(m.body, p)
  }

  /** The merged trace once the marked data up to `p` is delivered as well. */
  function WithMarked(calls: seq<Event>, m: Marks, data: string, p: nat): Trace
    requires p <= |data|
    requires MarkBefore(m.field, p) && MarkBefore(m.value, p) && MarkBefore(m.url, p) && MarkBefore(m.body, p)
  {
    if m.field.At? then Emit(Merge(calls), Data(Field, data[m.field.pos..p]))
    else if m.value.At? then Emit(Merge(calls), Data(Value, data[m.value.pos..p]))
    else if m.url.At? then Emit(Merge(calls), Data(Url, data[m.url.pos..p]))
    else if m.body.At? then Emit(Merge(calls), Data(Body, data[m.body.pos..p]))
    else Merge(calls)
  }

  /** Between two buffers the data of the current element has been reported. */
  predicate Continues(s: State, tr: Trace) {
    && (s.HeaderField? ==> EndsWith(tr, Field))
    && (s.HeaderValue? ==> EndsWith(tr, Value))
    && (UrlState(s) ==> EndsWith(tr, Url))
  }

  /** MARK: does nothing if the mark is already set. */
  function SetMark(m: Marks, kind: Kind, p: nat): Marks {
    match kind
    case Field => if m.field.At? then m else m.(field := At(p))
    case Value => if m.value.At? then m else m.(value := At(p))
    case Url => if m.url.At? then m else m.(url := At(p))
    case Body => if m.body.At? then m else m.(body := At(p))
  }

  function InitialMarks(s: State): Marks {
    Marks(if s.HeaderField? then At(0) else Unset, if s.HeaderValue? then At(0) else Unset,
          if UrlState(s) then At(0) else Unset, Unset)
  }

  lemma Extended(tr: Trace, kind: Kind, data: string, a: nat, p: nat)
    requires a <= p < |data|
    ensures Emit(tr, Data(kind, data[a..p + 1])) ==
            Emit(if a == p then tr else Emit(tr, Data(kind, data[a..p])), Data(kind, [data[p]]))
  {
    assert data[a..p + 1] == data[a..p] + [data[p]];
    EmitTwice(tr, kind, data[a..p], [data[p]]);
    assert a == p ==> data[a..p + 1] == [data[p]];
  }

  /** Marking the character at `p`, in a state that keeps no other mark. */
  lemma MarkGrows(calls: seq<Event>, m: Marks, was: State, o: Outcome, data: string, p: nat)
    requires p < |data| && MarksFit(m, was, p) && o.Move? && SimpleState(was) && ReportFits(was, o, data[p])
    requires o.report.Report? && o.report.event.Data? && !was.HeaderValueDiscardLws?
    ensures var m' := SetMark(m, o.report.event.kind, p);
        && MarksFit(m', o.core.state, p + 1)
        && WithMarked(calls, m', data, p + 1) == EmitReport(WithMarked(calls, m, data, p), o.report)
  {
    var kind := o.report.event.kind;
    if UrlState(was) {
      Extended(Merge(calls), kind, data, m.url.pos, p);
      EmitTwice(Merge(calls), kind, data[m.url.pos..p], [data[p]]);
      assert data[m.url.pos..p] + [data[p]] == data[m.url.pos..p + 1];
    } else {
      Extended(Merge(calls), kind, data, p, p);
    }
  }

  function MemChr(data: string, from: nat, to: nat, ch: char): (r: Mark)
    requires from <= to <= |data|
    ensures r.At? ==> from <= r.pos < to && data[r.pos] == ch && ch !in data[from..r.pos]
    ensures r.Unset? ==> ch !in data[from..to]
    decreases |data| - from
  {
    if from == to then Unset
    else if data[from] == ch then At(from)
    else
      assert data[from..to] == [data[from]] + data[from + 1..to];
      var r := MemChr(data, from + 1, to, ch);
      assert r.At? ==> data[from..r.pos] == [data[from]] + data[from + 1..r.pos];
      r
  }

  // ---------------------------------------------------------------- proof vocabulary

  /** A configuration at the head of the loop: everything before `p` is in the record
      and in the trace, and the outlook `g` is preserved. */
  ghost predicate Sound(cfg: Settings, g: Outlook, r: Run, n: nat, data: string, p: nat) {
    && p <= |data| && InGrammar(cfg, r) && Continues(r.core.state, r.trace)
    && (r.core.state.ChunkSizeStart? ==> n == 0)
    && (r.core.state.HeadersDone? ==> p == 0)
    && Meets(g, Ahead(cfg, n, r, data[p..]))
  }

  /** The same where a message is complete and the connection has left HTTP. */
  ghost predicate SoundExit(cfg: Settings, g: Outlook, r: Run, n: nat, data: string, p: nat) {
    && 0 < p <= |data| && InGrammar(cfg, r) && Continues(r.core.state, r.trace)
    && !r.core.state.ChunkSizeStart? && !r.core.state.HeadersDone?
    && Agrees(g, Ahead(cfg, n, r, data[p..])) && g.beyond == Leaves(r, |data| - p)
  }

  /** The same inside the character at `p`, which has been counted. */
  ghost predicate SoundInside(cfg: Settings, g: Outlook, r: Run, k: nat, data: string, p: nat) {
    && p < |data| && InGrammar(cfg, r) && Continues(r.core.state, r.trace)
    && (r.core.state.ChunkSizeStart? ==> k == 1)
    && Meets(g, Midway(cfg, k, r, data[p..]))
  }

  /** The same where a callback, or the end of an HTTP connection, makes the parser
      return; a parser that was paused can be called again with the rest. */
  ghost predicate SoundStop(cfg: Settings, g: Outlook, r: Run, n: nat, errno: Errno, data: string, p: nat) {
    && p <= |data| && InGrammar(cfg, r) && Continues(r.core.state, r.trace)
    && (r.core.state.ChunkSizeStart? ==> n == 0)
    && var h := Ahead(cfg, n, r, data[p..]);
       && g.result == h.result && g.seen == h.seen && (g.beyond == h.beyond || g.beyond == Leaves(r, |data| - p))
       && (errno.Paused? ==> Eases(g, h) && (r.core.state.HeadersDone? ==> Meets(g, h)))
       && (errno.Ok? ==>
             Agrees(g, h) && g.beyond == Leaves(r, |data| - p) && r.core.upgrade && !r.core.state.HeadersDone?)
  }

  /** The header byte counter may have been set back. */
  predicate Eases(g: Outlook, h: Outlook) {
    h.peak <= g.peak && h.last <= g.last
  }

  lemma StopInside(cfg: Settings, g: Outlook, r: Run, n: nat, k: nat, errno: Errno, data: string, p: nat)
    requires SoundInside(cfg, g, r, k, data, p) && !errno.Ok? && !r.core.state.ChunkSizeStart?
    requires errno.Paused? ==> Counted(n, r.core.state) <= k && (r.core.state.HeadersDone? ==> n == k)
    ensures SoundStop(cfg, g, r, n, errno, data, p)
  {
    if errno.Paused? { MeterMidMono(cfg, false, Counted(n, r.core.state), k, r, data[p..]); }
  }

  lemma StopBetween(cfg: Settings, g: Outlook, r: Run, n: nat, k: nat, errno: Errno, data: string, p: nat)
    requires Sound(cfg, g, r, k, data, p) || SoundExit(cfg, g, r, k, data, p)
    requires errno.Paused? ==> n <= k
    requires r.core.state.ChunkSizeStart? ==> n == 0
    requires errno.Ok? ==> n == k && r.core.upgrade && SoundExit(cfg, g, r, k, data, p)
    requires p > 0
    ensures SoundStop(cfg, g, r, n, errno, data, p)
  {
    if n <= k { MeterMono(cfg, false, n, k, r, data[p..]); }
  }

  ghost predicate Stops(g: Outlook, e: Errno, data: string, p: nat) {
    InputError(e) && g.result == Failed(e) && g.beyond.Stays? && p + g.unread == |data|
  }

  /** All that was reported has been delivered, but perhaps the data that was under way. */
  ghost predicate Kept(calls: seq<Event>, tr: Trace) {
    Merge(calls) == tr || exists k, x :: Emit(Merge(calls), Data(k, x)) == tr
  }

  lemma MarkedKept(calls: seq<Event>, m: Marks, data: string, p: nat)
    requires p <= |data|
    requires MarkBefore(m.field, p) && MarkBefore(m.value, p) && MarkBefore(m.url, p) && MarkBefore(m.body, p)
    ensures Kept(calls, WithMarked(calls, m, data, p))
  {
    hide Emit, Merge;
  }

  /** What the machine answers to the character at `p`, seen from the outlook `g`. */
  ghost predicate Answers(cfg: Settings, g: Outlook, r: Run, k: nat, data: string, p: nat, o: Outcome) {
    match o
    case Fault(e) => Stops(g, e, data, p) && g.seen == r.trace
    case Move(c, report, again) =>
      && p < |data| && ReportFits(r.core.state, o, data[p])
      && (Exits(r.core) ==>
            c.upgrade && !again && (c.state.StartReq? || c.state.Dead?) && report == Report(MessageComplete))
      && if again then Rank(c.state) < Rank(r.core.state) && SoundInside(cfg, g, After(r, o), k, data, p)
         else
           var n := if ResetsCounter(r.core.state) then 0 else k;
           if Exits(r.core) then SoundExit(cfg, g, After(r, o), n, data, p + 1)
           else Sound(cfg, g, After(r, o), n, data, p + 1)
  }

  lemma DispatchAnswers(cfg: Settings, g: Outlook, r: Run, k: nat, data: string, p: nat, o: Outcome)
    requires SoundInside(cfg, g, r, k, data, p) && SimpleState(r.core.state) && k <= MAX_HEADER_SIZE
    requires o == Dispatch(OptionsAt(cfg, r), r.core, data[p])
    ensures Answers(cfg, g, r, k, data, p, o)
  {
    Dispatched(cfg, k, r, data, p);
    if o.Fault? {
      DispatchFaults(OptionsAt(cfg, r), r.core, data[p]);
    } else {
      DispatchLegal(OptionsAt(cfg, r), r.core, data[p]);
      DispatchInGrammar(cfg, r, data[p]);
      DispatchReports(OptionsAt(cfg, r), r.core, data[p]);
      DispatchExits(OptionsAt(cfg, r), r.core, data[p]);
      ReportContinues(r, o, data[p]);
    }
  }

  /** The answer of on_headers_complete matters in one state only, and there it has seen
      everything. */
  lemma SameAnswer(cfg: Settings, r: Run, x: Run, ch: char)
    requires r.core == x.core && (r.core.state.HeadersAlmostDone? ==> r == x)
    ensures Dispatch(OptionsAt(cfg, r), r.core, ch) == Dispatch(OptionsAt(cfg, x), x.core, ch)
  {
  }

  lemma ReportContinues(r: Run, o: Outcome, ch: char)
    requires o.Move? && ReportFits(r.core.state, o, ch)
    ensures Continues(o.core.state, After(r, o).trace)
  {
  }

  // ---------------------------------------------------------------- one byte, inside a loop

  /** A byte that the machine takes, in a state that neither skips nor resets the counter. */
  lemma Stepped(cfg: Settings, g: Outlook, r: Run, k: nat, data: string, p: nat, o: Outcome)
    requires SoundInside(cfg, g, r, k, data, p) && o == Dispatch(OptionsAt(cfg, r), r.core, data[p]) && o.Move?
    requires !ResetsCounter(r.core.state) && !Exits(r.core) && !Skips(r.core, data[p])
    requires Continues(o.core.state, After(r, o).trace)
    requires !o.core.state.ChunkSizeStart? && !o.core.state.HeadersDone?
    ensures if o.again then SoundInside(cfg, g, After(r, o), k, data, p) else Sound(cfg, g, After(r, o), k, data, p + 1)
  {
    hide Dispatch, Legal, Fits, PhaseAfter;
    Dispatched(cfg, k, r, data, p);
    DispatchInGrammar(cfg, r, data[p]);
  }

  lemma Faulted(cfg: Settings, g: Outlook, r: Run, k: nat, data: string, p: nat, e: Errno)
    requires SoundInside(cfg, g, r, k, data, p) && Dispatch(OptionsAt(cfg, r), r.core, data[p]) == Fault(e)
    requires InputError(e) && !ResetsCounter(r.core.state)
    ensures Stops(g, e, data, p) && g.seen == r.trace
  {
    hide Dispatch, Legal, Fits, PhaseAfter;
    Dispatched(cfg, k, r, data, p);
  }

  lemma Counts(cfg: Settings, g: Outlook, r: Run, n: nat, data: string, p: nat)
    requires Sound(cfg, g, r, n, data, p) && p < |data|
    ensures SoundInside(cfg, g, r, Counted(n, r.core.state), data, p)
    ensures Counted(n, r.core.state) <= g.peak
    ensures r.core.state.HeadersDone? ==> p == 0
  {
  }

  /** What a byte does in the states that have a loop of their own. */
  function LoopStep(opt: Options, c: Core, ch: char): Outcome
    requires c.state.HeaderField? || c.state.HeaderValue? || (BodyData(c.state) && c.contentLength > 0)
  {
    if c.state.HeaderField? then
      if IsToken(ch) then
        var m := FieldNext(Matcher(c.headerState, c.index), TokenLower(ch));
        Move(c.(headerState := m.h, index := m.index), Report(Data(Field, [ch])), false)
      else Expect(c, ch == ':', InvalidHeaderToken, HeaderValueDiscardWs)
    else if c.state.HeaderValue? then
      if ch == CR || ch == LF then Move(c.(state := HeaderAlmostDone), Silent, ch == LF)
      else if !opt.lenient && !IsHeaderChar(ch) then Fault(InvalidHeaderToken)
      else ValueNext(c, ch)
    else
      var next := if c.contentLength > 1 then c.state
                  else if c.state.ChunkData? then ChunkDataAlmostDone else MessageDone;
      Move(c.(contentLength := c.contentLength - 1, state := next), Report(Data(Body, [ch])), next.MessageDone?)
  }

  lemma LoopDispatch(opt: Options, c: Core, ch: char)
    requires c.state.HeaderField? || c.state.HeaderValue? || (BodyData(c.state) && c.contentLength > 0)
    ensures Dispatch(opt, c, ch) == LoopStep(opt, c, ch)
  {
    hide FieldNext, ValueNext, IsToken, IsHeaderChar, TokenLower;
  }

  // ---------------------------------------------------------------- the bulk loops, on values

  /** In a counted state the two forms of the invariant differ by the byte at `p`. */
  lemma Uncounted(cfg: Settings, g: Outlook, r: Run, k: nat, data: string, p: nat)
    requires SoundInside(cfg, g, r, k + 1, data, p) && (r.core.state.HeaderField? || r.core.state.HeaderValue?)
    ensures Sound(cfg, g, r, k, data, p)
  {
  }

  lemma PeakReached(cfg: Settings, g: Outlook, r: Run, n: nat, data: string, p: nat)
    requires Sound(cfg, g, r, n, data, p)
    ensures n <= g.peak
    ensures p < |data| ==> Counted(n, r.core.state) <= g.peak
  {
  }

  function FieldMoved(r: Run, ch: char): Run {
    var m := FieldNext(Matcher(r.core.headerState, r.core.index), TokenLower(ch));
    Run(r.core.(headerState := m.h, index := m.index), Emit(r.trace, Data(Field, [ch])))
  }

  lemma FieldByte(cfg: Settings, g: Outlook, r: Run, n: nat, data: string, p: nat)
    requires Sound(cfg, g, r, n, data, p) && r.core.state.HeaderField? && p < |data| && IsToken(data[p])
    ensures Sound(cfg, g, FieldMoved(r, data[p]), n + 1, data, p + 1)
  {
    hide Sound, SoundInside, Dispatch, FieldNext, IsToken, TokenLower;
    Counts(cfg, g, r, n, data, p);
    LoopDispatch(OptionsAt(cfg, r), r.core, data[p]);
    Stepped(cfg, g, r, n + 1, data, p, LoopStep(OptionsAt(cfg, r), r.core, data[p]));
  }

  /** The byte after a field name: a colon, or an error. */
  lemma FieldEnd(cfg: Settings, g: Outlook, r: Run, n: nat, data: string, p: nat)
    requires Sound(cfg, g, r, n, data, p) && r.core.state.HeaderField? && p < |data| && !IsToken(data[p])
    ensures if data[p] == ':' then Sound(cfg, g, r.(core := r.core.(state := HeaderValueDiscardWs)), n + 1, data, p + 1)
            else Stops(g, InvalidHeaderToken, data, p) && g.seen == r.trace
  {
    hide Sound, SoundInside, Stops, Dispatch, IsToken, FieldNext;
    Counts(cfg, g, r, n, data, p);
    LoopDispatch(OptionsAt(cfg, r), r.core, data[p]);
    if data[p] == ':' {
      Stepped(cfg, g, r, n + 1, data, p, GoTo(r.core, HeaderValueDiscardWs));
    } else {
      Faulted(cfg, g, r, n + 1, data, p, InvalidHeaderToken);
    }
  }

  lemma ValueMoved(cfg: Settings, g: Outlook, r: Run, n: nat, data: string, p: nat, o: Outcome)
    requires Sound(cfg, g, r, n, data, p) && r.core.state.HeaderValue? && !r.core.headerState.General? && p < |data|
    requires data[p] != CR && data[p] != LF && (cfg.lenient || IsHeaderChar(data[p]))
    requires o == ValueNext(r.core, data[p])
    ensures if o.Fault? then Stops(g, o.errno, data, p) && g.seen == r.trace
            else
              && o.report == Report(Data(Value, [data[p]])) && o.core.state.HeaderValue?
              && Sound(cfg, g, After(r, o), n + 1, data, p + 1)
  {
    hide Sound, SoundInside, Stops, Dispatch, ValueNext, IsHeaderChar, InputError;
    Counts(cfg, g, r, n, data, p);
    LoopDispatch(OptionsAt(cfg, r), r.core, data[p]);
    ValueNextShape(r.core, data[p]);
    if o.Fault? {
      Faulted(cfg, g, r, n + 1, data, p, o.errno);
    } else {
      Stepped(cfg, g, r, n + 1, data, p, o);
    }
  }

  lemma ValueNextShape(c: Core, ch: char)
    requires c.state.HeaderValue?
    ensures var o := ValueNext(c, ch);
        if o.Fault? then InputError(o.errno)
        else o.report == Report(Data(Value, [ch])) && o.core.state.HeaderValue? && !o.again
  {
  }

  lemma ValueRejected(cfg: Settings, g: Outlook, r: Run, n: nat, data: string, p: nat)
    requires Sound(cfg, g, r, n, data, p) && p < |data| && Rejects(cfg, r.core, data[p])
    ensures Stops(g, InvalidHeaderToken, data, p) && g.seen == r.trace
  {
    hide Sound, SoundInside, Stops, Dispatch, ValueNext, IsHeaderChar;
    Counts(cfg, g, r, n, data, p);
    LoopDispatch(OptionsAt(cfg, r), r.core, data[p]);
    NotHeaderChar(data[p]);
    Faulted(cfg, g, r, n + 1, data, p, InvalidHeaderToken);
  }

  lemma NotHeaderChar(ch: char)
    requires !IsHeaderChar(ch)
    ensures ch != CR && ch != LF
  {
  }

  lemma ValueSkips(cfg: Settings, g: Outlook, r: Run, n: nat, data: string, p: nat, q: nat)
    requires Sound(cfg, g, r, n, data, p) && Plain(r.core) && p < q <= |data|
    requires CR !in data[p..q] && LF !in data[p..q] && !Rejects(cfg, r.core, data[p])
    requires q == |data| || data[q] == CR || data[q] == LF
    ensures Sound(cfg, g, r.(trace := Emit(r.trace, Data(Value, data[p..q]))), n + (q - p), data, q)
  {
    forall i | p <= i < q ensures data[i] != CR && data[i] != LF { assert data[i] == data[p..q][i - p]; }
    ValueSkipped(cfg, false, n, r, data, p, q);
    PhaseEmit(cfg, r.trace, Data(Value, data[p..q]));
    NotSkipping(cfg, n + (q - p), r.(trace := Emit(r.trace, Data(Value, data[p..q]))), data[q..]);
  }

  /** A value that goes on behind the reach of the search has passed the header limit. */
  lemma ValueTooLong(cfg: Settings, g: Outlook, r: Run, n: nat, data: string, p: nat, q: nat)
    requires Sound(cfg, g, r, n, data, p) && Plain(r.core) && p < q < |data|
    requires CR !in data[p..q] && LF !in data[p..q] && !Rejects(cfg, r.core, data[p])
    ensures n + (q - p) < g.peak
  {
    forall i | p <= i < q ensures data[i] != CR && data[i] != LF { assert data[i] == data[p..q][i - p]; }
    ValueSkipped(cfg, false, n, r, data, p, q);
  }

  /** The assertions of the two body states. */
  lemma BodyLegal(cfg: Settings, g: Outlook, r: Run, k: nat, data: string, p: nat)
    requires SoundInside(cfg, g, r, k, data, p) && BodyData(r.core.state)
    ensures 0 < r.core.contentLength < ULLONG_MAX && (r.core.state.ChunkData? ==> r.core.flags.chunked) && p < |data|
  {
  }

  lemma BlockMarked(calls: seq<Event>, m: Marks, s: State, data: string, p: nat, q: nat)
    requires p <= q <= |data| && MarksFit(m, s, p) && BodyData(s)
    ensures var m' := SetMark(m, Body, p);
        && MarksFit(m', s, q) && MarksFit(m', ChunkDataAlmostDone, q) && m'.body.At?
        && WithMarked(calls, m', data, q) == Emit(Merge(calls), Data(Body, data[m'.body.pos..q]))
        && WithMarked(calls, m', data, q) == Emit(WithMarked(calls, m, data, p), Data(Body, data[p..q]))
  {
    var m' := SetMark(m, Body, p);
    EmitTwice(Merge(calls), Body, data[m'.body.pos..p], data[p..q]);
    assert data[m'.body.pos..p] + data[p..q] == data[m'.body.pos..q];
  }

  /** The nearest CR or LF within the search limit, or the limit itself. */
  lemma SkipTo(data: string, p: nat, q: nat, limit: nat, cr: Mark, lf: Mark)
    requires p < limit <= |data| && cr == MemChr(data, p, limit, CR) && lf == MemChr(data, p, limit, LF)
    requires data[p] != CR && data[p] != LF
    requires q == if cr.At? then (if lf.At? && cr.pos >= lf.pos then lf.pos else cr.pos)
                  else if lf.At? then lf.pos else limit
    ensures p < q <= limit && CR !in data[p..q] && LF !in data[p..q]
  {
    if cr.At? { Prefix(data, p, q, cr.pos, CR); } else { Prefix(data, p, q, limit, CR); }
    if lf.At? { Prefix(data, p, q, lf.pos, LF); } else { Prefix(data, p, q, limit, LF); }
  }

  lemma Prefix(data: string, p: nat, q: nat, t: nat, ch: char)
    requires p <= q <= t <= |data| && ch !in data[p..t]
    ensures ch !in data[p..q]
  {
    assert data[p..q] == data[p..t][..q - p];
  }

  /** The CR or LF after a header value. */
  lemma ValueEnd(cfg: Settings, g: Outlook, r: Run, n: nat, data: string, p: nat)
    requires Sound(cfg, g, r, n, data, p) && r.core.state.HeaderValue? && p < |data|
    requires data[p] == CR || data[p] == LF
    ensures var r' := r.(core := r.core.(state := HeaderAlmostDone));
        if data[p] == CR then Sound(cfg, g, r', n + 1, data, p + 1)
        else SoundInside(cfg, g, r', n + 1, data, p)
  {
    hide Sound, SoundInside, Dispatch, ValueNext, IsHeaderChar;
    Counts(cfg, g, r, n, data, p);
    LoopDispatch(OptionsAt(cfg, r), r.core, data[p]);
    Stepped(cfg, g, r, n + 1, data, p, Move(r.core.(state := HeaderAlmostDone), Silent, data[p] == LF));
  }

  lemma LastOfBody(cfg: Settings, g: Outlook, r: Run, k: nat, data: string, p: nat)
    requires Sound(cfg, g, r, k, data, p) && r.core.state.BodyIdentity? && r.core.contentLength == 1 && p < |data|
    ensures SoundInside(cfg, g, Run(r.core.(contentLength := 0, state := MessageDone),
                                    Emit(r.trace, Data(Body, [data[p]]))), k, data, p)
  {
    hide Sound, SoundInside, Dispatch, Emit;
    Counts(cfg, g, r, k, data, p);
    LoopDispatch(OptionsAt(cfg, r), r.core, data[p]);
    Stepped(cfg, g, r, k, data, p, LoopStep(OptionsAt(cfg, r), r.core, data[p]));
  }

  lemma LastOfChunk(cfg: Settings, g: Outlook, r: Run, k: nat, data: string, p: nat)
    requires Sound(cfg, g, r, k, data, p) && r.core.state.ChunkData? && r.core.contentLength == 1 && p < |data|
    ensures Sound(cfg, g, Run(r.core.(contentLength := 0, state := ChunkDataAlmostDone),
                              Emit(r.trace, Data(Body, [data[p]]))), k, data, p + 1)
  {
    hide Sound, SoundInside, Dispatch, Emit;
    Counts(cfg, g, r, k, data, p);
    LoopDispatch(OptionsAt(cfg, r), r.core, data[p]);
    Stepped(cfg, g, r, k, data, p, LoopStep(OptionsAt(cfg, r), r.core, data[p]));
  }

  lemma BodyUncounted(cfg: Settings, g: Outlook, r: Run, k: nat, data: string, p: nat)
    requires SoundInside(cfg, g, r, k, data, p) && BodyData(r.core.state)
    ensures Sound(cfg, g, r, k, data, p)
  {
  }

  lemma BlockTaken(cfg: Settings, g: Outlook, r: Run, k: nat, data: string, p: nat, q: nat)
    requires Sound(cfg, g, r, k, data, p) && BodyData(r.core.state) && p < q <= |data| && q - p < r.core.contentLength
    ensures Sound(cfg, g, Run(Shortened(r.core, q - p), Emit(r.trace, Data(Body, data[p..q]))), k, data, q)
  {
    hide Feed, Meter, Skipping, Emit, FieldHeaderState, ValueHeaderState;
    BodySkipped(cfg, k, r, data, p, q);
    PhaseEmit(cfg, r.trace, Data(Body, data[p..q]));
  }

  /** A block that reaches the end of its body, but for the last byte. */
  lemma AllButLast(cfg: Settings, g: Outlook, r: Run, k: nat, data: string, p: nat, last: nat) returns (r': Run)
    requires Sound(cfg, g, r, k, data, p) && BodyData(r.core.state)
    requires p <= last < |data| && r.core.contentLength == last + 1 - p
    ensures Sound(cfg, g, r', k, data, last) && r'.core == r.core.(contentLength := 1)
    ensures Emit(r'.trace, Data(Body, [data[last]])) == Emit(r.trace, Data(Body, data[p..last + 1]))
  {
    hide Sound, Emit, BodyData;
    r' := r;
    if p < last {
      BlockTaken(cfg, g, r, k, data, p, last);
      r' := Run(Shortened(r.core, last - p), Emit(r.trace, Data(Body, data[p..last])));
    }
    Extended(r.trace, Body, data, p, last);
  }

  lemma PartBlock(cfg: Settings, g: Outlook, r: Run, k: nat, data: string, p: nat, size: nat)
    requires Sound(cfg, g, r, k, data, p) && BodyData(r.core.state) && size == |data| - p
    requires 0 < size < r.core.contentLength
    ensures Sound(cfg, g, Run(r.core.(contentLength := r.core.contentLength - size),
                              Emit(r.trace, Data(Body, data[p..p + size]))), k, data, p + size)
  {
    hide Sound, Emit, BodyData;
    BlockTaken(cfg, g, r, k, data, p, p + size);
  }

  lemma BodyBlockEnds(cfg: Settings, g: Outlook, r: Run, k: nat, data: string, p: nat, last: nat)
    requires Sound(cfg, g, r, k, data, p) && r.core.state.BodyIdentity?
    requires p <= last < |data| && r.core.contentLength == last + 1 - p
    ensures SoundInside(cfg, g, Run(r.core.(contentLength := 0, state := MessageDone),
                                    Emit(r.trace, Data(Body, data[p..last + 1]))), k, data, last)
  {
    hide Sound, SoundInside, Emit;
    var r' := AllButLast(cfg, g, r, k, data, p, last);
    LastOfBody(cfg, g, r', k, data, last);
  }

  lemma ChunkBlockEnds(cfg: Settings, g: Outlook, r: Run, k: nat, data: string, p: nat, last: nat)
    requires Sound(cfg, g, r, k, data, p) && r.core.state.ChunkData?
    requires p <= last < |data| && r.core.contentLength == last + 1 - p
    ensures Sound(cfg, g, Run(r.core.(contentLength := 0, state := ChunkDataAlmostDone),
                              Emit(r.trace, Data(Body, data[p..last + 1]))), k, data, last + 1)
  {
    hide Sound, SoundInside, Emit;
    var r' := AllButLast(cfg, g, r, k, data, p, last);
    LastOfChunk(cfg, g, r', k, data, last);
  }

  /** The block that a body state consumes at once. */
  lemma BlockMoved(cfg: Settings, g: Outlook, r: Run, k: nat, data: string, p: nat, size: nat)
    requires SoundInside(cfg, g, r, k, data, p) && BodyData(r.core.state)
    requires size == Earliest(r.core.contentLength, |data| - p)
    ensures var tr := Emit(r.trace, Data(Body, data[p..p + size]));
        var c := r.core.(contentLength := r.core.contentLength - size);
        if c.contentLength > 0 then Sound(cfg, g, Run(c, tr), k, data, p + size)
        else if c.state.BodyIdentity? then SoundInside(cfg, g, Run(c.(state := MessageDone), tr), k, data, p + size - 1)
        else Sound(cfg, g, Run(c.(state := ChunkDataAlmostDone), tr), k, data, p + size)
  {
    hide Sound, SoundInside, Emit;
    BodyUncounted(cfg, g, r, k, data, p);
    BodyLegal(cfg, g, r, k, data, p);
    if size < r.core.contentLength {
      PartBlock(cfg, g, r, k, data, p, size);
    } else if r.core.state.BodyIdentity? {
      BodyBlockEnds(cfg, g, r, k, data, p, p + size - 1);
    } else {
      ChunkBlockEnds(cfg, g, r, k, data, p, p + size - 1);
    }
  }

  lemma Unmarked(cfg: Settings, calls: seq<Event>, m: Marks, data: string, p: nat)
    requires p <= |data|
    requires MarkBefore(m.field, p) && MarkBefore(m.value, p) && MarkBefore(m.url, p) && MarkBefore(m.body, p)
    requires Grammatical(cfg, WithMarked(calls, m, data, p))
    ensures Grammatical(cfg, Merge(calls))
  {
    if m.field.At? { Undelivered(cfg, Merge(calls), Field, data[m.field.pos..p]); }
    else if m.value.At? { Undelivered(cfg, Merge(calls), Value, data[m.value.pos..p]); }
    else if m.url.At? { Undelivered(cfg, Merge(calls), Url, data[m.url.pos..p]); }
    else if m.body.At? { Undelivered(cfg, Merge(calls), Body, data[m.body.pos..p]); }
  }

  /** The callbacks made so far are grammatical, whatever is still marked. */
  lemma CallsGrammatical(cfg: Settings, g: Outlook, r: Run, n: nat, calls: seq<Event>, m: Marks, data: string, p: nat)
    requires p <= |data| && (Sound(cfg, g, r, n, data, p) || SoundInside(cfg, g, r, n, data, p))
    requires MarkBefore(m.field, p) && MarkBefore(m.value, p) && MarkBefore(m.url, p) && MarkBefore(m.body, p)
    requires r.trace == WithMarked(calls, m, data, p)
    ensures Grammatical(cfg, Merge(calls))
  {
    FitsGrammatical(cfg, r);
    Unmarked(cfg, calls, m, data, p);
  }

  /** The assertions at the head of the cases of the switch. */
  lemma SwitchLegal(cfg: Settings, g: Outlook, r: Run, k: nat, data: string, p: nat)
    requires SoundInside(cfg, g, r, k, data, p)
    ensures Legal(r.core) && (r.core.state.ChunkSizeStart? ==> k == 1)
  {
  }

  lemma Started(cfg: Settings, r: Run, n: nat, calls: seq<Event>, data: string)
    requires InGrammar(cfg, r) && Continues(r.core.state, r.trace) && r.trace == Merge(calls)
    requires r.core.state.ChunkSizeStart? ==> n == 0
    ensures var m := InitialMarks(r.core.state);
        && MarksFit(m, r.core.state, 0) && WithMarked(calls, m, data, 0) == r.trace
        && Sound(cfg, Ahead(cfg, n, r, data), r, n, data, 0)
  {
    assert data[0..] == data && data[0..0] == [];
    var s := r.core.state;
    if s.HeaderField? { EmitNothing(r.trace, Field); }
    if s.HeaderValue? { EmitNothing(r.trace, Value); }
    if UrlState(s) { EmitNothing(r.trace, Url); }
  }

  lemma Finished(cfg: Settings, g: Outlook, r: Run, n: nat, count: nat, errno: Errno, data: string)
    requires Sound(cfg, g, r, count, data, |data|) && data != []
    requires if errno.CbFailed? then n == count else n <= count
    requires errno.Ok? || errno.Paused? || errno.CbFailed?
    ensures InGrammar(cfg, r) && Continues(r.core.state, r.trace) && (r.core.state.ChunkSizeStart? ==> count == 0)
    ensures errno.Ok? ==> Meets(g, Ahead(cfg, count, r, data[|data|..]))
    ensures !errno.Ok? ==> SoundStop(cfg, g, r, n, errno, data, |data|)
  {
    if !errno.Ok? { StopBetween(cfg, g, r, n, count, errno, data, |data|); }
  }

  lemma Stopped(cfg: Settings, g: Outlook, r: Run, n: nat, errno: Errno, data: string, p: nat)
    requires SoundStop(cfg, g, r, n, errno, data, p)
    ensures p <= |data| && InGrammar(cfg, r) && Continues(r.core.state, r.trace)
        && (r.core.state.ChunkSizeStart? ==> n == 0)
    ensures var a := Ahead(cfg, n, r, data[p..]);
        && g.result == a.result && g.seen == a.seen && (errno.Paused? ==> Eases(g, a))
        && (errno.Ok? ==> Agrees(g, a) && r.core.upgrade && !r.core.state.HeadersDone?)
  {
  }

  // ---------------------------------------------------------------- one call, from outside

  /** The state of a parser between two calls. */
  datatype Snapshot = Snapshot(core: Core, nread: nat, errno: Errno, calls: seq<Event>)

  function RunOf(s: Snapshot): Run {
    Run(s.core, Merge(s.calls))
  }

  /** on_message_complete has just been called. */
  predicate Completed(calls: seq<Event>) {
    calls != [] && calls[|calls| - 1].MessageComplete?
  }

  /** on_headers_complete has just been called. */
  predicate JustAnnounced(calls: seq<Event>) {
    calls != [] && calls[|calls| - 1].HeadersComplete?
  }

  /** on_headers_complete has paused the parser at the last byte of headers that fill the
      limit.  When the parser is called again it counts that byte once more. */
  predicate Full(s: Snapshot) {
    s.core.state.HeadersDone? && s.nread == MAX_HEADER_SIZE
  }

  /** What a call of `http_parser_execute` does: from `a` to `b`, returning `n`.  Whether
      it consumes all of the buffer, is paused, or leaves HTTP, feeding what is left to
      `b` means the same as feeding all of it to `a`. */
  ghost predicate Executed(cfg: Settings, a: Snapshot, data: string, n: nat, b: Snapshot) {
    if !a.errno.Ok? then n == 0 && b == a
    else if data == [] then
      if a.core.state.Dead? || a.core.state.StartReq? then n == 0 && b == a
      else n == 1 && b == a.(errno := InvalidEofState)
    else
      var g := Ahead(cfg, a.nread, RunOf(a), data);
      && n <= |data| && (b.nread <= MAX_HEADER_SIZE || b.errno.HeaderOverflow?)
      && (Full(a) ==> b.errno.HeaderOverflow?)
      && var h := Ahead(cfg, b.nread, RunOf(b), data[n..]);
         match b.errno
         case Ok =>
           && Agrees(g, h) && !b.core.state.HeadersDone?
           && (if g.beyond.Stays? then n == |data|
               else g.beyond == Leaves(RunOf(b), |data| - n) && b.core.upgrade && Completed(b.calls))
           && (n == 0 ==> Rank(b.core.state) < Rank(a.core.state))
         case Paused =>
           && g.result == h.result && g.seen == h.seen
           && (g.beyond == h.beyond || g.beyond == Leaves(RunOf(b), |data| - n))
           && Eases(g, h) && (b.core.state.HeadersDone? ==> Meets(g, h))
           && (JustAnnounced(b.calls) ==> b.core.state.HeadersDone?)
           && (n == 0 ==> Rank(b.core.state) < Rank(a.core.state))
         case CbFailed =>
           && g.result == h.result && g.seen == h.seen
           && (g.beyond == h.beyond || g.beyond == Leaves(RunOf(b), |data| - n))
         case HeaderOverflow => g.peak > MAX_HEADER_SIZE || Full(a)
         case e => Stops(g, e, data, n) && Kept(b.calls, g.seen)
  }

  lemma ExecutedLeft(cfg: Settings, a: Snapshot, data: string, n: nat, b: Snapshot)
    requires a.errno.Ok? && data != [] && !Full(a) && b.nread <= MAX_HEADER_SIZE
    requires b.errno.Ok? || b.errno.Paused? || b.errno.CbFailed?
    requires SoundStop(cfg, Ahead(cfg, a.nread, RunOf(a), data), RunOf(b), b.nread, b.errno, data, n)
    requires (b.errno.Ok? ==> Completed(b.calls)) && (JustAnnounced(b.calls) ==> b.core.state.HeadersDone?)
    requires n == 0 ==> Rank(b.core.state) < Rank(a.core.state)
    ensures Executed(cfg, a, data, n, b)
  {
  }

  lemma ExecutedFault(cfg: Settings, a: Snapshot, data: string, n: nat, b: Snapshot)
    requires a.errno.Ok? && data != [] && n <= |data|
    requires var g := Ahead(cfg, a.nread, RunOf(a), data);
        if b.errno.HeaderOverflow? then g.peak > MAX_HEADER_SIZE || Full(a)
        else Stops(g, b.errno, data, n) && Kept(b.calls, g.seen) && b.nread <= MAX_HEADER_SIZE && !Full(a)
    ensures Executed(cfg, a, data, n, b) && !b.errno.Ok? && !b.errno.Paused?
  {
  }

  lemma ExecutedDone(cfg: Settings, a: Snapshot, data: string, b: Snapshot)
    requires a.errno.Ok? && data != [] && !Full(a) && b.errno.Ok? && b.nread <= MAX_HEADER_SIZE
    requires Sound(cfg, Ahead(cfg, a.nread, RunOf(a), data), RunOf(b), b.nread, data, |data|)
    ensures Executed(cfg, a, data, |data|, b)
  {
  }

  class HttpParser {
    const settings: Settings
    var state: State
    var headerState: HeaderState
    var index: nat
    var flags: Flags
    var contentLength: nat
    var major: nat
    var minor: nat
    var verb: Method
    var upgrade: bool
    var nread: nat
    var errno: Errno
    var calls: seq<Event>   // every callback made so far, with its data

    constructor (settings: Settings)
      ensures this.settings == settings
      ensures Record() == INITIAL && nread == 0 && errno.Ok? && calls == []
      ensures Valid()
    {
      this.settings := settings;
      state, headerState, index, flags, contentLength := StartReq, General, 0, NO_FLAGS, 0;
      major, minor, verb, upgrade := 0, 0, DELETE, false;
      nread, errno, calls := 0, Ok, [];
    }

    function Record(): Core
      reads this
    {
      Core(state, headerState, index, flags, contentLength, major, minor, verb, upgrade)
    }

    ghost predicate Valid()
      reads this
    {
      && (errno.Ok? || errno.Paused? ==>
          && InGrammar(settings, Run(Record(), Merge(calls)))
          && Continues(state, Merge(calls))
          && (state.ChunkSizeStart? ==> nread == 0))
      && (nread <= MAX_HEADER_SIZE || errno.HeaderOverflow?)
      && Grammatical(settings, Merge(calls))
    }

    method Load(c: Core)
      modifies this`state, this`headerState, this`index, this`flags, this`contentLength, this`major, this`minor,
        this`verb, this`upgrade
      ensures Record() == c
    {
      state, headerState, index, flags, contentLength := c.state, c.headerState, c.index, c.flags, c.contentLength;
      major, minor, verb, upgrade := c.major, c.minor, c.verb, c.upgrade;
    }

    /** Runs one callback; true means get out. */
    method Call(e: Event, count: nat, answers: seq<Event> -> Answer) returns (stop: bool)
      requires errno.Ok?
      modifies this`calls, this`errno, this`nread
      ensures calls == old(calls) + [e]
      ensures errno == match answers(calls) case Proceed => Ok case Pause => Paused case Refuse => CbFailed
      ensures Obeys(answers, old(calls), calls, errno)
      ensures nread == if errno.CbFailed? then count else old(nread)
      ensures stop <==> !errno.Ok?
    {
      calls := calls + [e];
      var answer := answers(calls);
      match answer {
        case Proceed => stop := false;
        case Pause => errno := Paused; stop := true;
        case Refuse => errno := CbFailed; nread := count; stop := true;
      }
      AskedOnce(answers, old(calls), calls, errno);
    }

    /** Delivers marked data up to `end`, if there is any. */
    method Deliver(kind: Kind, mark: Mark, data: string, end: nat, count: nat, answers: seq<Event> -> Answer)
      returns (stop: bool)
      requires errno.Ok? && end <= |data| && MarkBefore(mark, end)
      modifies this`calls, this`errno, this`nread
      ensures mark.Unset? ==> calls == old(calls) && errno.Ok? && nread == old(nread)
      ensures mark.At? ==> calls == old(calls) + [Data(kind, data[mark.pos..end])]
      ensures errno.Ok? || errno.Paused? || errno.CbFailed?
      ensures nread == if errno.CbFailed? then count else old(nread)
      ensures stop <==> !errno.Ok?
      ensures Obeys(answers, old(calls), calls, errno)
    {
      stop := false;
      if mark.At? {
        stop := Call(Data(kind, data[mark.pos..end]), count, answers);
      } else {
        Unasked(answers, calls, errno);
      }
    }

    // -------------------------------------------------------------- proof vocabulary

    ghost function Now(m: Marks, data: string, p: nat): Run
      reads this
      requires p <= |data|
      requires MarkBefore(m.field, p) && MarkBefore(m.value, p) && MarkBefore(m.url, p) && MarkBefore(m.body, p)
    {
      Run(Record(), WithMarked(calls, m, data, p))
    }

    ghost predicate Between(g: Outlook, count: nat, m: Marks, data: string, p: nat)
      reads this
    {
      && p <= |data| < BUFFER_LIMIT && errno.Ok? && MarksFit(m, state, p) && nread <= count <= MAX_HEADER_SIZE
      && Sound(settings, g, Now(m, data, p), count, data, p)
    }

    /** The counter is ahead of the specified one `k` only when the parser was paused by
        on_headers_complete and has just been resumed. */
    ghost predicate Inside(g: Outlook, k: nat, count: nat, m: Marks, data: string, p: nat)
      reads this
    {
      && p < |data| < BUFFER_LIMIT && errno.Ok? && MarksFit(m, state, p)
      && nread <= k <= count <= MAX_HEADER_SIZE
      && (k == count || state.HeadersDone?)
      && (ParsingHeader(state) && !state.HeadersDone? ==> nread + 1 <= k)
      && SoundInside(settings, g, Now(m, data, p), k, data, p)
    }

    /** Returned from the middle of a buffer because of a callback or of an upgrade. */
    ghost predicate LeftAt(g: Outlook, data: string, n: nat)
      reads this
    {
      && (errno.Ok? || errno.Paused? || errno.CbFailed?) && nread <= MAX_HEADER_SIZE
      && (errno.Ok? ==> Completed(calls)) && (JustAnnounced(calls) ==> state.HeadersDone?)
      && SoundStop(settings, g, Run(Record(), Merge(calls)), nread, errno, data, n)
    }

    /** Stopped by an error in the input. */
    ghost predicate FaultedAt(g: Outlook, data: string, p: nat)
      reads this
    {
      && Grammatical(settings, Merge(calls))
      && if errno.HeaderOverflow? then g.peak > MAX_HEADER_SIZE
         else Stops(g, errno, data, p) && nread <= MAX_HEADER_SIZE && Kept(calls, g.seen)
    }

    ghost predicate Passes(g: Outlook, flow: Flow, k: nat, count: nat, m: Marks, data: string)
      reads this
    {
      match flow
      case Advance(p) => Between(g, count, m, data, p)
      case Again(p) => Inside(g, k, count, m, data, p)
      case Error(p) => p <= |data| && FaultedAt(g, data, p)
      case Leave(n) => LeftAt(g, data, n)
    }

    // -------------------------------------------------------------- the switch

    /** Looks up what the machine does with the character at `p`. */
    method Look(data: string, p: nat, ghost g: Outlook, ghost k: nat, ghost count: nat, ghost m: Marks)
      returns (o: Outcome)
      requires Inside(g, k, count, m, data, p) && SimpleState(state)
      ensures Answers(settings, g, Now(m, data, p), k, data, p, o)
    {
      var seen := Run(Record(), Merge(calls));
      o := Dispatch(OptionsAt(settings, seen), Record(), data[p]);
      SameAnswer(settings, seen, Now(m, data, p), data[p]);
      DispatchAnswers(settings, g, Now(m, data, p), k, data, p, o);
    }

    /** A character that is not reported ends marked data of a URL or a chunk. */
    method RespondSilently(ghost o: Outcome, was: State, data: string, p: nat, count: nat, m0: Marks,
                           answers: seq<Event> -> Answer)
      returns (stop: bool, m: Marks)
      requires o.Move? && o.report.Silent? && errno.Ok? && p < |data| && state == o.core.state
      requires SimpleState(was) && ReportFits(was, o, data[p]) && MarksFit(m0, was, p)
      modifies this`calls, this`errno, this`nread
      ensures var tr, next := WithMarked(old(calls), m0, data, p), if o.again then p else p + 1;
          if stop then Merge(calls) == tr && (errno.Paused? || errno.CbFailed?)
          else errno.Ok? && MarksFit(m, state, next) && WithMarked(calls, m, data, next) == tr
      ensures nread == if stop && errno.CbFailed? then count else old(nread)
      ensures stop ==> !JustAnnounced(calls) && !state.HeadersDone?
      ensures Obeys(answers, old(calls), calls, errno)
    {
      hide Obeys, Kept;
      stop, m := false, m0;
      if UrlState(was) {
        stop := Deliver(Url, m.url, data, p, count, answers);
        MergeSnoc(old(calls), Data(Url, data[m.url.pos..p]));
        m := m.(url := Unset);
      } else if was.ChunkDataAlmostDone? {
        stop := Deliver(Body, m.body, data, p, count, answers);
        if m.body.At? { MergeSnoc(old(calls), Data(Body, data[m.body.pos..p])); }
        m := m.(body := Unset);
      } else {
        Unasked(answers, calls, errno);
      }
    }

    /** Data begins or goes on; but an empty header value is delivered at once. */
    method RespondWithData(o: Outcome, was: State, data: string, p: nat, count: nat, m0: Marks,
                           answers: seq<Event> -> Answer)
      returns (stop: bool, m: Marks)
      requires o.Move? && o.report.Report? && o.report.event.Data? && errno.Ok? && p < |data| && state == o.core.state
      requires SimpleState(was) && ReportFits(was, o, data[p]) && MarksFit(m0, was, p)
      modifies this`calls, this`errno, this`nread
      ensures var tr, next := EmitReport(WithMarked(old(calls), m0, data, p), o.report), if o.again then p else p + 1;
          if stop then Merge(calls) == tr && (errno.Paused? || errno.CbFailed?)
          else errno.Ok? && MarksFit(m, state, next) && WithMarked(calls, m, data, next) == tr
      ensures nread == if stop && errno.CbFailed? then count else old(nread)
      ensures stop ==> !JustAnnounced(calls) && !state.HeadersDone?
      ensures Obeys(answers, old(calls), calls, errno)
    {
      hide Obeys, Kept;
      stop, m := false, m0;
      if was.HeaderValueDiscardLws? {
        stop := Deliver(Value, At(p), data, p, count, answers);
        assert data[p..p] == [];
        MergeSnoc(old(calls), Data(Value, []));
      } else {
        MarkGrows(calls, m, was, o, data, p);
        m := SetMark(m, o.report.event.kind, p);
        Unasked(answers, calls, errno);
      }
    }

    /** The callbacks and marks that go with a dispatch; the new record is in place. */
    method Respond(o: Outcome, was: State, data: string, p: nat, count: nat, m0: Marks, answers: seq<Event> -> Answer)
      returns (stop: bool, m: Marks)
      requires o.Move? && errno.Ok? && p < |data| && state == o.core.state
      requires SimpleState(was) && ReportFits(was, o, data[p]) && MarksFit(m0, was, p)
      modifies this`calls, this`errno, this`nread
      ensures var tr := EmitReport(WithMarked(old(calls), m0, data, p), o.report);
          var next := if o.again then p else p + 1;
          if stop then Merge(calls) == tr && (errno.Paused? || errno.CbFailed?)
          else errno.Ok? && MarksFit(m, state, next) && WithMarked(calls, m, data, next) == tr
      ensures nread == if stop && (errno.CbFailed? || state.HeadersDone?) then count else old(nread)
      ensures o.report == Report(MessageComplete) ==> Completed(calls)
      ensures stop && JustAnnounced(calls) ==> state.HeadersDone?
      ensures Obeys(answers, old(calls), calls, errno)
    {
      hide Obeys, Kept;
      stop, m := false, m0;
      match o.report {
        case Silent =>
          stop, m := RespondSilently(o, was, data, p, count, m0, answers);
        case Report(Data(_, _)) =>
          stop, m := RespondWithData(o, was, data, p, count, m0, answers);
        case Report(e) =>
          stop := Call(e, count, answers);
          MergeSnoc(old(calls), e);
          if stop && state.HeadersDone? {
            nread := count;
          }
      }
    }

    /** What follows the change of state: the callbacks, and whether to go on. */
    method Settle(o: Outcome, was: State, exits: bool, ghost r: Run, data: string, p: nat,
                  ghost g: Outlook, ghost k: nat, count: nat, m0: Marks, answers: seq<Event> -> Answer)
      returns (flow: Flow, m: Marks)
      requires o.Move? && errno.Ok? && p < |data| < BUFFER_LIMIT && SimpleState(was) && ReportFits(was, o, data[p])
      requires Record() == o.core == r.core && MarksFit(m0, was, p)
      requires r.trace == EmitReport(WithMarked(calls, m0, data, p), o.report)
      requires nread <= count <= MAX_HEADER_SIZE
      requires exits ==> (state.StartReq? || state.Dead?) && o.report == Report(MessageComplete)
      requires state.ChunkSizeStart? ==> count == 0 && !o.again
      requires if o.again then
                 k == count && nread + 1 <= k && SoundInside(settings, g, r, k, data, p)
               else
                 if exits then SoundExit(settings, g, r, count, data, p + 1) && upgrade
                 else Sound(settings, g, r, count, data, p + 1)
      modifies this`calls, this`errno, this`nread
      ensures Passes(g, flow, k, count, m, data)
      ensures flow.Advance? ==> flow.p == p + 1
      ensures flow.Again? ==> flow.p == p && o.again
      ensures flow.Leave? ==> flow.n == if o.again then p else p + 1
      ensures Obeys(answers, old(calls), calls, errno)
    {
      hide Sound, SoundExit, SoundInside, SoundStop, Emit, Merge, ReportFits, PhaseAfter, EmitReport, Obeys, Kept;
      var stop;
      stop, m := Respond(o, was, data, p, count, m0, answers);
      if stop {
        assert Run(Record(), Merge(calls)) == r;
        if o.again {
          StopInside(settings, g, r, nread, k, errno, data, p);
          return Leave(p), m;
        }
        StopBetween(settings, g, r, nread, count, errno, data, p + 1);
        return Leave(p + 1), m;
      }
      if o.again {
        assert Now(m, data, p) == r;
        return Again(p), m;
      }
      assert Now(m, data, p + 1) == r;
      if exits {
        nread := count;
        assert Run(Record(), Merge(calls)) == r;
        StopBetween(settings, g, r, nread, count, errno, data, p + 1);
        return Leave(p + 1), m;
      }
      flow := Advance(p + 1);
    }

    /** A state without a loop of its own. */
    method Simple(data: string, p: nat, ghost g: Outlook, ghost k: nat, count0: nat, m0: Marks,
                  answers: seq<Event> -> Answer)
      returns (flow: Flow, count: nat, m: Marks)
      requires Inside(g, k, count0, m0, data, p) && SimpleState(state)
      modifies this
      ensures Passes(g, flow, k, count, m, data)
      ensures flow.Advance? ==> flow.p == p + 1
      ensures flow.Again? ==> flow.p == p && Rank(state) < Rank(old(state))
      ensures flow.Leave? ==> flow.n > p || (flow.n == p && Rank(state) < Rank(old(state)))
      ensures Obeys(answers, old(calls), calls, errno)
    {
      count, m := count0, m0;
      CallsGrammatical(settings, g, Now(m, data, p), k, calls, m, data, p);
      var was := state;
      var exits := Exits(Record());
      var o := Look(data, p, g, k, count, m);
      if o.Fault? {
        MarkedKept(calls, m, data, p);
        errno := o.errno;
        nread := count;
        Unasked(answers, calls, errno);
        return Error(p), count, m;
      }
      Load(o.core);
      if ResetsCounter(was) {
        nread := 0;
        count := 0;
      }
      flow, m := Settle(o, was, exits, After(old(Now(m0, data, p)), o), data, p, g, k, count, m, answers);
    }

    // -------------------------------------------------------------- states with a loop

    /** One character of a field name. */
    method TakeToken(data: string, q: nat, ghost g: Outlook, ghost n: nat, ghost m: Marks)
      requires q < |data| && IsToken(data[q]) && state.HeaderField? && MarksFit(m, state, q)
      requires Sound(settings, g, Now(m, data, q), n, data, q)
      modifies this`headerState, this`index
      ensures MarksFit(m, state, q + 1)
      ensures old(headerState.General?) ==> headerState.General? && index == old(index)
      ensures Sound(settings, g, Now(m, data, q + 1), n + 1, data, q + 1)
    {
      ghost var r := FieldMoved(Now(m, data, q), data[q]);
      FieldByte(settings, g, Now(m, data, q), n, data, q);
      EmitTwice(Merge(calls), Field, data[m.field.pos..q], [data[q]]);
      assert data[m.field.pos..q] + [data[q]] == data[m.field.pos..q + 1];
      if !headerState.General? {
        var next := FieldNext(Matcher(headerState, index), TokenLower(data[q]));
        headerState, index := next.h, next.index;
      }
      assert Now(m, data, q + 1) == r;
    }

    /** The skip over the rest of a name that no header of interest has. */
    method SkipTokens(data: string, p: nat, ghost g: Outlook, ghost n: nat, ghost m: Marks) returns (q: nat)
      requires p < |data| && IsToken(data[p]) && state.HeaderField? && MarksFit(m, state, p)
      requires Sound(settings, g, Now(m, data, p), n, data, p)
      modifies this`headerState, this`index
      ensures p <= q < |data| && IsToken(data[q]) && MarksFit(m, state, q)
      ensures Sound(settings, g, Now(m, data, q), n + (q - p), data, q)
    {
      hide Sound, Now, Emit, Merge, Obeys, Kept;
      q := p;
      ghost var c := n;
      var limit := Earliest(|data| - q, MAX_HEADER_SIZE);
      while q + 1 < limit && IsToken(data[q + 1])
        invariant p <= q < |data| && IsToken(data[q]) && MarksFit(m, state, q) && c == n + (q - p)
        invariant Sound(settings, g, Now(m, data, q), c, data, q)
        decreases |data| - q
      {
        TakeToken(data, q, g, c, m);
        q, c := q + 1, c + 1;
      }
    }

    /** The loop over the characters of a field name, up to the end of it or of the buffer. */
    method TakeTokens(data: string, p: nat, ghost g: Outlook, ghost n: nat, ghost m: Marks) returns (q: nat)
      requires p <= |data| && state.HeaderField? && MarksFit(m, state, p)
      requires Sound(settings, g, Now(m, data, p), n, data, p)
      modifies this`headerState, this`index
      ensures p <= q <= |data| && MarksFit(m, state, q) && (q < |data| ==> !IsToken(data[q]))
      ensures Sound(settings, g, Now(m, data, q), n + (q - p), data, q)
    {
      hide Sound, Now, Emit, Merge, Obeys, Kept;
      q := p;
      ghost var c := n;
      while q < |data| && IsToken(data[q])
        invariant p <= q <= |data| && MarksFit(m, state, q) && c == n + (q - p)
        invariant Sound(settings, g, Now(m, data, q), c, data, q)
        decreases |data| - q
      {
        if headerState.General? {
          q := SkipTokens(data, q, g, c, m);
          c := n + (q - p);
        }
        TakeToken(data, q, g, c, m);
        q, c := q + 1, c + 1;
      }
    }

    /** Delivers the data marked up to `end` where the parser goes on at `p` (the new
        state is in place), or leaves there. */
    method Close(kind: Kind, mark: Mark, data: string, end: nat, p: nat, ghost r: Run, ghost g: Outlook, ghost k: nat,
                 count: nat, answers: seq<Event> -> Answer)
      returns (stop: bool)
      requires errno.Ok? && mark.At? && mark.pos <= end <= |data|
      requires Record() == r.core && r.trace == Emit(Merge(calls), Data(kind, data[mark.pos..end]))
      requires Sound(settings, g, r, k, data, p) && !state.ChunkSizeStart? && p > 0
      requires nread <= k && nread <= MAX_HEADER_SIZE && count <= MAX_HEADER_SIZE
      modifies this`calls, this`errno, this`nread
      ensures stop ==> LeftAt(g, data, p) && !errno.Ok?
      ensures !stop ==> errno.Ok? && nread == old(nread) && Merge(calls) == r.trace && Record() == r.core
      ensures Obeys(answers, old(calls), calls, errno)
    {
      hide Sound, SoundInside, SoundStop, Emit, Merge, Obeys, Kept;
      stop := Deliver(kind, mark, data, end, count, answers);
      MergeSnoc(old(calls), Data(kind, data[mark.pos..end]));
      assert Run(Record(), Merge(calls)) == r;
      if stop { StopBetween(settings, g, r, nread, k, errno, data, p); }
    }

    /** The colon after a field name. */
    method EndField(data: string, q: nat, ghost g: Outlook, ghost n: nat, count: nat, m0: Marks,
                    answers: seq<Event> -> Answer)
      returns (flow: Flow, m: Marks)
      requires q < |data| < BUFFER_LIMIT && data[q] == ':' && state.HeaderField? && MarksFit(m0, state, q) && errno.Ok?
      requires Sound(settings, g, Now(m0, data, q), n, data, q) && nread <= count == n + 1 <= MAX_HEADER_SIZE
      modifies this
      ensures Passes(g, flow, count, count, m, data)
      ensures flow == Advance(q + 1) || flow == Leave(q + 1)
      ensures Obeys(answers, old(calls), calls, errno)
    {
      hide Sound, SoundInside, SoundStop, Emit, Merge, Obeys, Kept;
      ghost var r := Now(m0, data, q);
      FieldEnd(settings, g, r, n, data, q);
      r := r.(core := r.core.(state := HeaderValueDiscardWs));
      state := HeaderValueDiscardWs;
      m := NO_MARKS;
      var stop := Close(Field, m0.field, data, q, q + 1, r, g, count, count, answers);
      flow := if stop then Leave(q + 1) else Advance(q + 1);
      assert !stop ==> Now(m, data, q + 1) == r;
    }

    method ScanField(data: string, p: nat, ghost g: Outlook, count0: nat, m0: Marks, answers: seq<Event> -> Answer)
      returns (flow: Flow, count: nat, m: Marks)
      requires Inside(g, count0, count0, m0, data, p) && state.HeaderField?
      modifies this
      ensures Passes(g, flow, count, count, m, data)
      ensures flow.Advance? ==> flow.p > p
      ensures !flow.Again? && (flow.Leave? ==> flow.n > p)
      ensures Obeys(answers, old(calls), calls, errno)
    {
      hide Sound, SoundInside, SoundStop, Stops, Emit, Merge, Obeys, Kept;
      m := m0;
      CallsGrammatical(settings, g, Now(m, data, p), count0, calls, m, data, p);
      Uncounted(settings, g, Now(m, data, p), count0 - 1, data, p);
      var q := TakeTokens(data, p, g, count0 - 1, m);
      ghost var n := count0 - 1 + (q - p);
      PeakReached(settings, g, Now(m, data, q), n, data, q);
      count := Add32(count0, (if q == |data| then q - 1 else q) - p);
      if count > MAX_HEADER_SIZE {
        errno, nread := HeaderOverflow, count;
        Unasked(answers, calls, errno);
        return Error(if q == |data| then q - 1 else q), count, m;
      }
      if q == |data| {
        Unasked(answers, calls, errno);
        return Advance(q), count, m;
      }
      if data[q] != ':' {
        FieldEnd(settings, g, Now(m, data, q), n, data, q);
        MarkedKept(calls, m, data, q);
        errno, nread := InvalidHeaderToken, count;
        Unasked(answers, calls, errno);
        return Error(q), count, m;
      }
      flow, m := EndField(data, q, g, n, count, m, answers);
    }

    /** The first CR or LF within the reach of the search, or else the end of the buffer. */
    static method EndOfValue(data: string, p: nat) returns (q: nat)
      requires p < |data| && data[p] != CR && data[p] != LF
      ensures p < q <= |data| && (q == |data| || (q < p + MAX_HEADER_SIZE && (data[q] == CR || data[q] == LF)))
      ensures var end := Earliest(q, p + MAX_HEADER_SIZE); CR !in data[p..end] && LF !in data[p..end]
    {
      var limit := Earliest(|data| - p, MAX_HEADER_SIZE);
      var cr := MemChr(data, p, p + limit, CR);
      var lf := MemChr(data, p, p + limit, LF);
      if cr.At? {
        q := if lf.At? && cr.pos >= lf.pos then lf.pos else cr.pos;
      } else if lf.At? {
        q := lf.pos;
      } else {
        q := |data|;
      }
      SkipTo(data, p, Earliest(q, p + limit), p + limit, cr, lf);
    }

    /** The memchr skip to the end of a value that nobody interprets, or of the buffer.
        When the end is out of reach of the search, so is the header limit. */
    method SkipValue(data: string, p: nat, ghost g: Outlook, ghost n: nat, ghost m: Marks)
      returns (q: nat, ghost lost: bool)
      requires p < |data| && data[p] != CR && data[p] != LF && !Rejects(settings, Record(), data[p])
      requires Plain(Record()) && MarksFit(m, state, p)
      requires Sound(settings, g, Now(m, data, p), n, data, p)
      ensures p < q <= |data| && MarksFit(m, state, q)
      ensures !lost ==> Sound(settings, g, Now(m, data, q), n + (q - p), data, q)
      ensures lost ==> q == |data| && n + (q - p) > MAX_HEADER_SIZE && g.peak > MAX_HEADER_SIZE
    {
      hide Sound, Stops, Emit, Merge, MemChr, Obeys, Kept;
      q := EndOfValue(data, p);
      ghost var end := Earliest(q, p + MAX_HEADER_SIZE);
      ghost var r := Now(m, data, p);
      lost := end != q;
      if lost {
        ValueTooLong(settings, g, r, n, data, p, end);
      } else {
        ValueSkips(settings, g, r, n, data, p, end);
        EmitTwice(Merge(calls), Value, data[m.value.pos..p], data[p..end]);
        assert data[m.value.pos..p] + data[p..end] == data[m.value.pos..end];
      }
    }

    /** One interpreted character of a header value. */
    method TakeValue(data: string, q: nat, ghost g: Outlook, ghost n: nat, ghost m: Marks) returns (e: Errno)
      requires q < |data| && data[q] != CR && data[q] != LF && (settings.lenient || IsHeaderChar(data[q]))
      requires state.HeaderValue? && !headerState.General? && MarksFit(m, state, q)
          && Sound(settings, g, Now(m, data, q), n, data, q)
      modifies this`state, this`headerState, this`index, this`flags, this`contentLength, this`major, this`minor,
        this`verb, this`upgrade
      ensures !e.Ok? ==> Stops(g, e, data, q) && Kept(calls, g.seen)
      ensures e.Ok? ==>
          state.HeaderValue? && MarksFit(m, state, q + 1) && Sound(settings, g, Now(m, data, q + 1), n + 1, data, q + 1)
    {
      var o := ValueNext(Record(), data[q]);
      ghost var r := Now(m, data, q);
      ValueMoved(settings, g, r, n, data, q, o);
      if o.Fault? {
        MarkedKept(calls, m, data, q);
        return o.errno;
      }
      Load(o.core);
      e := Ok;
      EmitTwice(Merge(calls), Value, data[m.value.pos..q], [data[q]]);
      assert data[m.value.pos..q] + [data[q]] == data[m.value.pos..q + 1];
      assert Now(m, data, q + 1) == After(r, o);
    }

    /** The loop over a header value, up to its CR or LF or to the end of the buffer. */
    method TakeValues(data: string, p: nat, ghost g: Outlook, ghost n: nat, ghost m: Marks)
      returns (q: nat, e: Errno, ghost lost: bool)
      requires p <= |data| && state.HeaderValue? && MarksFit(m, state, p)
      requires Sound(settings, g, Now(m, data, p), n, data, p)
      modifies this`state, this`headerState, this`index, this`flags, this`contentLength, this`major, this`minor,
        this`verb, this`upgrade
      ensures !e.Ok? ==> Stops(g, e, data, q) && Kept(calls, g.seen)
      ensures p <= q <= |data|
      ensures e.Ok? ==> state.HeaderValue? && MarksFit(m, state, q) && (q < |data| ==> data[q] == CR || data[q] == LF)
      ensures e.Ok? && !lost ==> Sound(settings, g, Now(m, data, q), n + (q - p), data, q)
      ensures e.Ok? && lost ==> q == |data| && n + (q - p) > MAX_HEADER_SIZE && g.peak > MAX_HEADER_SIZE
    {
      hide Sound, Stops, Emit, Merge, Obeys, Kept;
      q, e, lost := p, Ok, false;
      ghost var c := n;
      while q < |data| && data[q] != CR && data[q] != LF
        invariant p <= q <= |data| && state.HeaderValue? && MarksFit(m, state, q) && c == n + (q - p) && e.Ok?
        invariant !lost ==> Sound(settings, g, Now(m, data, q), c, data, q)
        invariant lost ==> q == |data| && c > MAX_HEADER_SIZE && g.peak > MAX_HEADER_SIZE
        decreases |data| - q
      {
        if !settings.lenient && !IsHeaderChar(data[q]) {
          ValueRejected(settings, g, Now(m, data, q), c, data, q);
          MarkedKept(calls, m, data, q);
          return q, InvalidHeaderToken, false;
        }
        if headerState.General? {
          q, lost := SkipValue(data, q, g, c, m);
        } else {
          e := TakeValue(data, q, g, c, m);
          if !e.Ok? {
            return q, e, false;
          }
          q := q + 1;
        }
        c := n + (q - p);
      }
    }

    /** The CR or LF after a header value. */
    method EndValue(data: string, q: nat, ghost g: Outlook, ghost n: nat, count: nat, m0: Marks,
                    answers: seq<Event> -> Answer)
      returns (flow: Flow, m: Marks)
      requires q < |data| && state.HeaderValue? && MarksFit(m0, state, q) && errno.Ok?
      requires data[q] == CR || data[q] == LF
      requires Sound(settings, g, Now(m0, data, q), n, data, q)
      requires nread <= n && nread <= MAX_HEADER_SIZE && count <= n + 1 && count <= MAX_HEADER_SIZE
      requires data[q] == LF ==> count == n + 1
      modifies this
      ensures m == NO_MARKS
      ensures flow == (if data[q] == CR then Advance(q + 1) else Again(q)) ||
              flow == Leave(if data[q] == CR then q + 1 else q)
      ensures flow.Leave? ==> LeftAt(g, data, flow.n) && Rank(state) == 0
      ensures !flow.Leave? ==> errno.Ok? && nread == old(nread) && state.HeaderAlmostDone?
      ensures flow.Advance? ==> Sound(settings, g, Now(m, data, q + 1), n + 1, data, q + 1)
      ensures flow.Again? ==> SoundInside(settings, g, Now(m, data, q), n + 1, data, q)
      ensures Obeys(answers, old(calls), calls, errno)
    {
      hide Sound, SoundInside, SoundStop, Emit, Merge, Obeys, Kept;
      ghost var r := Now(m0, data, q);
      ValueEnd(settings, g, r, n, data, q);
      r := r.(core := r.core.(state := HeaderAlmostDone));
      state := HeaderAlmostDone;
      m := NO_MARKS;
      var stop := Deliver(Value, m0.value, data, q, count, answers);
      MergeSnoc(old(calls), Data(Value, data[m0.value.pos..q]));
      assert Run(Record(), Merge(calls)) == r;
      if data[q] == CR {
        if stop { StopBetween(settings, g, r, nread, n + 1, errno, data, q + 1); }
        flow := if stop then Leave(q + 1) else Advance(q + 1);
      } else {
        if stop { StopInside(settings, g, r, nread, n + 1, errno, data, q); }
        flow := if stop then Leave(q) else Again(q);
      }
    }

    /** Counts the bytes of a value: at an LF before the callback, at a CR after it. */
    method LeaveValue(data: string, p: nat, q: nat, ghost g: Outlook, ghost n: nat, count0: nat, m0: Marks,
                      answers: seq<Event> -> Answer)
      returns (flow: Flow, count: nat, m: Marks)
      requires p <= q < |data| < BUFFER_LIMIT && state.HeaderValue? && MarksFit(m0, state, q) && errno.Ok?
      requires data[q] == CR || data[q] == LF
      requires Sound(settings, g, Now(m0, data, q), n, data, q) && n == count0 - 1 + (q - p) < g.peak
      requires nread < count0 <= MAX_HEADER_SIZE && Grammatical(settings, Merge(calls))
      modifies this
      ensures Passes(g, flow, count, count, m, data)
      ensures flow.Advance? ==> flow.p == q + 1
      ensures flow.Again? ==> flow.p == q && Rank(state) == 0
      ensures flow.Leave? ==> flow.n >= q && Rank(state) == 0
      ensures Obeys(answers, old(calls), calls, errno)
    {
      hide Sound, SoundInside, SoundStop, Stops, Emit, Merge, PhaseAfter, Obeys, Kept;
      count, m := count0, m0;
      if data[q] == LF {
        count := Add32(count0, q - p);
        if count > MAX_HEADER_SIZE {
          errno, nread := HeaderOverflow, count;
          Unasked(answers, calls, errno);
          return Error(q), count, m;
        }
      }
      flow, m := EndValue(data, q, g, n, count, m, answers);
      if flow.Advance? {
        CallsGrammatical(settings, g, Now(m, data, q + 1), n + 1, calls, m, data, q + 1);
        count := Add32(count0, q - p);
        if count > MAX_HEADER_SIZE {
          errno, nread := HeaderOverflow, count;
          Unasked(answers, calls, errno);
          ObeysOn(answers, old(calls), calls, calls, errno);
          return Error(q), count, m;
        }
      }
    }

    method ScanValue(data: string, p: nat, ghost g: Outlook, count0: nat, m0: Marks, answers: seq<Event> -> Answer)
      returns (flow: Flow, count: nat, m: Marks)
      requires Inside(g, count0, count0, m0, data, p) && state.HeaderValue?
      modifies this
      ensures Passes(g, flow, count, count, m, data)
      ensures flow.Advance? ==> flow.p > p
      ensures flow.Again? ==> flow.p >= p && Rank(state) < Rank(old(state))
      ensures flow.Leave? ==> flow.n > p || (flow.n == p && Rank(state) < Rank(old(state)))
      ensures Obeys(answers, old(calls), calls, errno)
    {
      hide Sound, SoundInside, SoundStop, Emit, Merge, PhaseAfter, OptionsAt, Obeys, Kept;
      m := m0;
      CallsGrammatical(settings, g, Now(m, data, p), count0, calls, m, data, p);
      Uncounted(settings, g, Now(m, data, p), count0 - 1, data, p);
      var q, e;
      ghost var lost;
      q, e, lost := TakeValues(data, p, g, count0 - 1, m);
      if !e.Ok? {
        errno, nread := e, count0;
        Unasked(answers, calls, errno);
        return Error(q), count0, m;
      }
      ghost var n := count0 - 1 + (q - p);
      if !lost { PeakReached(settings, g, Now(m, data, q), n, data, q); }
      count := count0;
      if q == |data| {
        count := Add32(count0, q - 1 - p);
        if count > MAX_HEADER_SIZE {
          errno, nread := HeaderOverflow, count;
          Unasked(answers, calls, errno);
          return Error(q), count, m;
        }
        Unasked(answers, calls, errno);
        return Advance(q), count, m;
      }
      flow, count, m := LeaveValue(data, p, q, g, n, count0, m, answers);
    }

    /** A block of body bytes. */
    method Block(data: string, p: nat, ghost g: Outlook, count: nat, m0: Marks, answers: seq<Event> -> Answer)
      returns (flow: Flow, m: Marks)
      requires Inside(g, count, count, m0, data, p) && BodyData(state)
      modifies this
      ensures Passes(g, flow, count, count, m, data)
      ensures flow.Advance? ==> flow.p > p
      ensures flow.Again? ==> flow.p >= p && Rank(state) < Rank(old(state))
      ensures flow.Leave? ==> flow.n > p || (flow.n == p && Rank(state) < Rank(old(state)))
      ensures Obeys(answers, old(calls), calls, errno)
    {
      hide Sound, SoundInside, SoundStop, Emit, Merge, Obeys, Kept;
      BodyLegal(settings, g, Now(m0, data, p), count, data, p);
      assert contentLength != 0 && contentLength != ULLONG_MAX;
      assert state.ChunkData? ==> flags.chunked;
      var toRead := Earliest(contentLength, |data| - p);
      var q := p + toRead - 1;
      ghost var r := Now(m0, data, p);
      BlockMoved(settings, g, r, count, data, p, toRead);
      BlockMarked(calls, m0, state, data, p, q + 1);
      r := Run(r.core.(contentLength := contentLength - toRead), Emit(r.trace, Data(Body, data[p..q + 1])));
      m := SetMark(m0, Body, p);
      contentLength := contentLength - toRead;
      if contentLength == 0 && state.BodyIdentity? {
        r := r.(core := r.core.(state := MessageDone));
        state := MessageDone;
        flow := EndBody(data, q, r, g, count, m, answers);
        m := NO_MARKS;
      } else {
        if contentLength == 0 {
          r := r.(core := r.core.(state := ChunkDataAlmostDone));
          state := ChunkDataAlmostDone;
        }
        assert Now(m, data, q + 1) == r;
        flow := Advance(q + 1);
        Unasked(answers, calls, errno);
      }
    }

    /** The last byte of a body is delivered, and then looked at again. */
    method EndBody(data: string, q: nat, ghost r: Run, ghost g: Outlook, count: nat, m: Marks,
                   answers: seq<Event> -> Answer)
      returns (flow: Flow)
      requires errno.Ok? && m.body.At? && m.body.pos <= q < |data| < BUFFER_LIMIT && nread <= count <= MAX_HEADER_SIZE
      requires Record() == r.core && r.trace == Emit(Merge(calls), Data(Body, data[m.body.pos..q + 1]))
      requires SoundInside(settings, g, r, count, data, q) && state.MessageDone?
      modifies this`calls, this`errno, this`nread
      ensures Passes(g, flow, count, count, NO_MARKS, data)
      ensures flow == Again(q) || flow == Leave(q)
      ensures Obeys(answers, old(calls), calls, errno)
    {
      hide Sound, SoundInside, SoundStop, Emit, Merge, Obeys, Kept;
      var stop := Deliver(Body, m.body, data, q + 1, count, answers);
      MergeSnoc(old(calls), Data(Body, data[m.body.pos..q + 1]));
      assert Run(Record(), Merge(calls)) == r;
      if stop { StopInside(settings, g, r, nread, count, errno, data, q); }
      flow := if stop then Leave(q) else Again(q);
      assert Now(NO_MARKS, data, q) == r;
    }

    /** One pass through the switch. */
    method Character(data: string, p: nat, ghost g: Outlook, ghost k0: nat, count0: nat, m0: Marks,
        answers: seq<Event> -> Answer)
      returns (flow: Flow, ghost k: nat, count: nat, m: Marks)
      requires Inside(g, k0, count0, m0, data, p)
      modifies this
      ensures Passes(g, flow, k, count, m, data)
      ensures flow.Advance? ==> flow.p > p
      ensures flow.Again? ==> flow.p >= p && Rank(state) < Rank(old(state))
      ensures flow.Leave? ==> flow.n > p || (flow.n == p && Rank(state) < Rank(old(state)))
      ensures Obeys(answers, old(calls), calls, errno)
    {
      SwitchLegal(settings, g, Now(m0, data, p), k0, data, p);
      assert state.ChunkSizeStart? ==> count0 == 1;
      assert ChunkState(state) ==> flags.chunked;
      assert state.ChunkDataAlmostDone? ==> contentLength == 0;
      assert state.HeaderField? ==> FieldHeaderState(headerState, index);
      assert state.HeaderValue? ==> !headerState.Connection? && !headerState.TransferEncoding?;
      hide SoundInside, Sound, SoundStop, Emit, Merge, Obeys, Kept;
      if state.HeaderField? {
        flow, count, m := ScanField(data, p, g, count0, m0, answers);
        k := count;
      } else if state.HeaderValue? {
        flow, count, m := ScanValue(data, p, g, count0, m0, answers);
        k := count;
      } else if BodyData(state) {
        flow, m := Block(data, p, g, count0, m0, answers);
        k, count := count0, count0;
      } else {
        flow, count, m := Simple(data, p, g, k0, count0, m0, answers);
        k := k0;
      }
    }

    /** Delivers what is still marked when the buffer is used up. */
    method DeliverRest(m: Marks, data: string, count: nat, answers: seq<Event> -> Answer) returns (stop: bool)
      requires errno.Ok? && MarksFit(m, state, |data|)
      modifies this`calls, this`errno, this`nread
      ensures Merge(calls) == WithMarked(old(calls), m, data, |data|)
      ensures stop ==> !JustAnnounced(calls) && !state.HeadersDone?
      ensures stop <==> !errno.Ok?
      ensures errno.Ok? || errno.Paused? || errno.CbFailed?
      ensures nread == if errno.CbFailed? then count else old(nread)
      ensures Obeys(answers, old(calls), calls, errno)
    {
      assert (if m.field.At? then 1 else 0) + (if m.value.At? then 1 else 0) +
             (if m.url.At? then 1 else 0) + (if m.body.At? then 1 else 0) <= 1;
      hide Obeys, Kept;
      var end := |data|;
      if m.field.At? { MergeSnoc(calls, Data(Field, data[m.field.pos..end])); }
      stop := Deliver(Field, m.field, data, end, count, answers);
      if stop { return; }
      ghost var one := calls;
      if m.value.At? { MergeSnoc(calls, Data(Value, data[m.value.pos..end])); }
      stop := Deliver(Value, m.value, data, end, count, answers);
      ObeysOn(answers, old(calls), one, calls, errno);
      if stop { return; }
      ghost var two := calls;
      if m.url.At? { MergeSnoc(calls, Data(Url, data[m.url.pos..end])); }
      stop := Deliver(Url, m.url, data, end, count, answers);
      ObeysOn(answers, old(calls), two, calls, errno);
      if stop { return; }
      ghost var three := calls;
      if m.body.At? { MergeSnoc(calls, Data(Body, data[m.body.pos..end])); }
      stop := Deliver(Body, m.body, data, end, count, answers);
      ObeysOn(answers, old(calls), three, calls, errno);
    }

    // -------------------------------------------------------------- http_parser_execute

    function Snap(): Snapshot
      reads this
    {
      Snapshot(Record(), nread, errno, calls)
    }

    method Execute(data: string, answers: seq<Event> -> Answer) returns (n: nat)
      requires Valid() && |data| < BUFFER_LIMIT
      modifies this
      ensures Valid()
      ensures Executed(settings, old(Snap()), data, n, Snap())
      ensures old(errno).Ok? ==> Obeys(answers, old(calls), calls, errno)
    {
      if !errno.Ok? {
        return 0;
      }
      if |data| == 0 {
        if state.Dead? || state.StartReq? {
          return 0;
        }
        errno := InvalidEofState;
        return 1;
      }
      n := ExecuteAll(data, answers);
    }

    /** Stopped because the last byte of the headers was counted a second time. */
    ghost predicate CountedTwice(p: nat)
      reads this
    {
      errno.HeaderOverflow? && Grammatical(settings, Merge(calls)) && p == 0
    }

    /** One turn of the outer loop: counts the byte at `p` and runs the switch until it
        has been consumed. */
    method Turn(data: string, p: nat, ghost g: Outlook, count0: nat, m0: Marks, answers: seq<Event> -> Answer)
      returns (flow: Flow, count: nat, m: Marks)
      requires Between(g, count0, m0, data, p) && p < |data|
      modifies this
      ensures match flow
              case Advance(q) => q > p && Between(g, count, m, data, q)
              case Again(_) => false
              case Error(q) =>
                q <= |data| &&
                (FaultedAt(g, data, q) || (old(state).HeadersDone? && count0 == MAX_HEADER_SIZE && CountedTwice(p)))
              case Leave(q) =>
                q >= p && LeftAt(g, data, q) && (q == p ==> Rank(state) < Rank(old(state)))
      ensures old(state).HeadersDone? && count0 == MAX_HEADER_SIZE ==> flow.Error? && CountedTwice(p)
      ensures Obeys(answers, old(calls), calls, errno)
    {
      hide SoundInside, Sound, SoundStop, Emit, Merge, Obeys, Kept;
      count, m := count0, m0;
      ghost var k := Counted(count, state);
      CallsGrammatical(settings, g, Now(m, data, p), count, calls, m, data, p);
      Counts(settings, g, Now(m, data, p), count, data, p);
      if ParsingHeader(state) {
        count := Add32(count, 1);
        if count > MAX_HEADER_SIZE {
          errno, nread := HeaderOverflow, count;
          Unasked(answers, calls, errno);
          return Error(p), count, m;
        }
      }
      flow := Again(p);
      Unasked(answers, calls, errno);
      while flow.Again?
        invariant flow.Again? ==> flow.p >= p && Inside(g, k, count, m, data, flow.p)
        invariant flow.Again? && flow.p == p ==> Rank(state) <= Rank(old(state))
        invariant flow.Advance? ==> flow.p > p && Between(g, count, m, data, flow.p)
        invariant flow.Error? ==> flow.p <= |data| && FaultedAt(g, data, flow.p)
        invariant flow.Leave? ==> flow.n >= p && LeftAt(g, data, flow.n)
        invariant flow.Leave? && flow.n == p ==> Rank(state) < Rank(old(state))
        invariant Obeys(answers, old(calls), calls, errno)
        decreases flow.Again?, if flow.Again? then |data| - flow.p else 0, Rank(state)
      {
        ghost var before := calls;
        flow, k, count, m := Character(data, flow.p, g, k, count, m, answers);
        ObeysOn(answers, old(calls), before, calls, errno);
      }
    }

    method ExecuteAll(data: string, answers: seq<Event> -> Answer) returns (n: nat)
      requires Valid() && errno.Ok? && data != [] && |data| < BUFFER_LIMIT
      modifies this
      ensures Valid()
      ensures Executed(settings, old(Snap()), data, n, Snap())
      ensures Obeys(answers, old(calls), calls, errno)
    {
      hide SoundInside, Sound, SoundStop, Stops, Ahead, Executed, Emit, Merge, Continues, InGrammar, Obeys, Kept;
      ghost var a := Snap();
      ghost var r := RunOf(a);
      ghost var g := Ahead(settings, nread, r, data);
      var count: nat, m, p: nat := nread, InitialMarks(state), 0;
      Started(settings, r, nread, calls, data);
      assert Now(m, data, p) == r;
      Unasked(answers, calls, errno);
      while p < |data|
        invariant Between(g, count, m, data, p)
        invariant p == 0 ==> state == a.core.state && count == a.nread
        invariant Full(a) ==> p == 0
        invariant Obeys(answers, old(calls), calls, errno)
        decreases |data| - p
      {
        var flow;
        ghost var before := calls;
        flow, count, m := Turn(data, p, g, count, m, answers);
        ObeysOn(answers, old(calls), before, calls, errno);
        if flow.Error? {
          ExecutedFault(settings, a, data, flow.p, Snap());
          return flow.p;
        }
        if flow.Leave? {
          ExecutedLeft(settings, a, data, flow.n, Snap());
          Stopped(settings, g, RunOf(Snap()), nread, errno, data, flow.n);
          FitsGrammatical(settings, RunOf(Snap()));
          return flow.n;
        }
        p := flow.p;
      }
      n := |data|;
      ghost var before := calls;
      EndBuffer(data, g, a, count, m, answers);
      ObeysOn(answers, old(calls), before, calls, errno);
    }

    method EndBuffer(data: string, ghost g: Outlook, ghost a: Snapshot, count: nat, m: Marks,
                     answers: seq<Event> -> Answer)
      requires Between(g, count, m, data, |data|)
      requires a.errno.Ok? && data != [] && !Full(a) && g == Ahead(settings, a.nread, RunOf(a), data)
      modifies this
      ensures Valid()
      ensures Executed(settings, a, data, |data|, Snap())
      ensures Obeys(answers, old(calls), calls, errno)
    {
      hide SoundInside, Sound, SoundStop, Ahead, Executed, Emit, Merge, Obeys, Kept;
      ghost var last := Now(m, data, |data|);
      var stop := DeliverRest(m, data, count, answers);
      assert Run(Record(), Merge(calls)) == last;
      Finished(settings, g, last, nread, count, errno, data);
      if stop {
        ExecutedLeft(settings, a, data, |data|, Snap());
      } else {
        nread := count;
        ExecutedDone(settings, a, data, Snap());
      }
      FitsGrammatical(settings, last);
    }

    /** http_parser_pause, which may only be called while there is no error. */
    method SetPaused(paused: bool)
      requires Valid() && (errno.Ok? || errno.Paused?)
      modifies this`errno
      ensures Valid()
      ensures errno == if paused then Paused else Ok
    {
      errno := if paused then Paused else Ok;
    }
  }
}
