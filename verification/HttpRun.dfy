/** Runs of the request machine over a whole input.

    `Feed` is the reference meaning of one buffer: it looks at one character after the
    other and reports into a trace in which adjacent data reports of one kind are
    merged. */
module HttpRun {
  import opened HttpChars
  import opened HttpMachine
  import opened HttpLegal

  // ---------------------------------------------------------------- merged traces

  /** A list of events that grows at its right end. */
  datatype Trace = Empty | Snoc(init: Trace, last: Event)

  predicate EndsWith(tr: Trace, k: Kind) {
    tr.Snoc? && tr.last.Data? && tr.last.kind == k
  }

  /** Appends an event; data that continues the last event is joined to it. */
  function Emit(tr: Trace, e: Event): Trace {
    if e.Data? && EndsWith(tr, e.kind) then Snoc(tr.init, Data(e.kind, tr.last.bytes + e.bytes))
    else Snoc(tr, e)
  }

  function EmitReport(tr: Trace, r: Report): Trace {
    if r.Silent? then tr else Emit(tr, r.event)
  }

  /** The merged form of the list of callbacks a parser has made. */
  function Merge(calls: seq<Event>): Trace {
    if calls == [] then Empty else Emit(Merge(calls[..|calls| - 1]), calls[|calls| - 1])
  }

  lemma MergeSnoc(calls: seq<Event>, e: Event)
    ensures Merge(calls + [e]) == Emit(Merge(calls), e)
  {
    assert (calls + [e])[..|calls|] == calls;
  }

  lemma EmitTwice(tr: Trace, k: Kind, x: string, y: string)
    ensures Emit(Emit(tr, Data(k, x)), Data(k, y)) == Emit(tr, Data(k, x + y))
  {
    if EndsWith(tr, k) {
      assert tr.last.bytes + x + y == tr.last.bytes + (x + y);
    }
  }

  lemma EmitNothing(tr: Trace, k: Kind)
    requires EndsWith(tr, k)
    ensures Emit(tr, Data(k, [])) == tr
  {
    assert tr.last.bytes + [] == tr.last.bytes;
  }

  /** The events of a trace in their order. */
  function Listed(tr: Trace): seq<Event> {
    if tr.Empty? then [] else Listed(tr.init) + [tr.last]
  }

  /** Joined where they are of one piece of data, the callbacks `calls` are those of `before`
      and then `es`. */
  predicate MakesUp(calls: seq<Event>, before: seq<Event>, es: seq<Event>) {
    Listed(Merge(calls)) == Listed(Merge(before)) + es
  }

  predicate Prolongs(e: Event, f: Event) { e.Data? && f.Data? && e.kind == f.kind }

  /** No data continues the data just before it. */
  predicate Apart(es: seq<Event>) { forall i | 0 < i < |es| :: !Prolongs(es[i - 1], es[i]) }

  function BytesIn(e: Event, k: Kind): string { if e.Data? && e.kind == k then e.bytes else [] }

  /** All bytes of one kind. */
  function BytesOf(es: seq<Event>, k: Kind): string {
    if es == [] then [] else BytesOf(es[..|es| - 1], k) + BytesIn(es[|es| - 1], k)
  }

  /** Merging leaves no data that continues other data and every byte of it; and it changes
      nothing exactly when there is nothing to join. */
  lemma {:induction false} MergeExact(es: seq<Event>)
    ensures Listed(Merge(es)) == es <==> Apart(es)
    ensures Apart(Listed(Merge(es))) && |Listed(Merge(es))| <= |es|
    ensures forall k :: BytesOf(Listed(Merge(es)), k) == BytesOf(es, k)
    decreases |es|
  {
    if es != [] {
      var n := |es| - 1;
      var v, e := es[..n], es[n];
      assert es == v + [e];
      MergeExact(v);
      EmitListed(Merge(v), e);
      ApartMore(v, e);
      forall k ensures BytesOf(Listed(Merge(es)), k) == BytesOf(es, k) { EmitBytes(Merge(v), e, k); }
    }
  }

  lemma ApartMore(es: seq<Event>, e: Event)
    ensures Apart(es + [e]) <==> Apart(es) && (es != [] ==> !Prolongs(es[|es| - 1], e))
  {
    var l := es + [e];
    assert forall i | 0 <= i < |es| :: l[i] == es[i];
    if Apart(l) && es != [] { assert !Prolongs(l[|es| - 1], l[|es|]); }
    if Apart(l) { assert forall i | 0 < i < |es| :: Prolongs(l[i - 1], l[i]) == Prolongs(es[i - 1], es[i]); }
  }

  lemma ApartConcat(a: seq<Event>, b: seq<Event>)
    requires Apart(a) && Apart(b) && (a != [] && b != [] ==> !Prolongs(a[|a| - 1], b[0]))
    ensures Apart(a + b)
  {
    var l := a + b;
    forall i | 0 < i < |l| ensures !Prolongs(l[i - 1], l[i]) {
      if i < |a| {
        assert !Prolongs(a[i - 1], a[i]);
      } else if i > |a| {
        assert !Prolongs(b[i - |a| - 1], b[i - |a|]);
      }
    }
  }

  lemma EmitListed(tr: Trace, e: Event)
    ensures var l, z := Listed(tr), Listed(Emit(tr, e));
        if l != [] && Prolongs(l[|l| - 1], e) then
          |z| == |l| && z == l[..|l| - 1] + [Data(e.kind, l[|l| - 1].bytes + e.bytes)] && (Apart(l) ==> Apart(z))
        else z == l + [e]
  {
    if tr.Snoc? {
      ApartMore(Listed(tr.init), tr.last);
      ApartMore(Listed(tr.init), Emit(tr, e).last);
    }
  }

  lemma BytesMore(es: seq<Event>, e: Event, k: Kind)
    ensures BytesOf(es + [e], k) == BytesOf(es, k) + BytesIn(e, k)
  {
    assert (es + [e])[..|es|] == es;
  }

  lemma EmitBytes(tr: Trace, e: Event, k: Kind)
    ensures BytesOf(Listed(Emit(tr, e)), k) == BytesOf(Listed(tr), k) + BytesIn(e, k)
  {
    BytesMore(Listed(tr), e, k);
    if tr.Snoc? {
      BytesMore(Listed(tr.init), tr.last, k);
      BytesMore(Listed(tr.init), Emit(tr, e).last, k);
    }
  }

  // ---------------------------------------------------------------- one character

  datatype Run = Run(core: Core, trace: Trace)

  /** What the user of the parser fixes for a connection: the lenient bit, and the answer
      that on_headers_complete gives to each message, which may depend on the fields of
      the parser and on everything reported before. */
  datatype Settings = Settings(lenient: bool, verdict: (Trace, Event) -> Verdict)

  function OptionsAt(cfg: Settings, r: Run): Options {
    Options(cfg.lenient, cfg.verdict(r.trace, HeadersCompleteOf(Announced(r.core))))
  }

  /** The effect of one character; `reset` says that the header byte counter was
      cleared on the way. */
  datatype Step = Next(run: Run, reset: bool) | Fail(errno: Errno)

  function After(r: Run, o: Outcome): Run
    requires o.Move?
  {
    Run(o.core, EmitReport(r.trace, o.report))
  }

  /** Dispatches a character until it has been consumed. */
  function Consume(cfg: Settings, r: Run, ch: char): Step
    decreases Rank(r.core.state)
  {
    DispatchLegal(OptionsAt(cfg, r), r.core, ch);
    var o := Dispatch(OptionsAt(cfg, r), r.core, ch);
    if o.Fault? then Fail(o.errno)
    else if o.again then Consume(cfg, After(r, o), ch)
    else Next(After(r, o), ResetsCounter(r.core.state))
  }

  lemma ConsumeLegal(cfg: Settings, r: Run, ch: char)
    requires Legal(r.core)
    ensures var s := Consume(cfg, r, ch); s.Next? ==> Legal(s.run.core)
    decreases Rank(r.core.state)
  {
    DispatchLegal(OptionsAt(cfg, r), r.core, ch);
    var o := Dispatch(OptionsAt(cfg, r), r.core, ch);
    if o.Move? && o.again { ConsumeLegal(cfg, After(r, o), ch); }
  }

  /** The machine while a header value is being skipped: its bytes are not checked. */
  function View(cfg: Settings, skipping: bool): Settings {
    cfg.(lenient := cfg.lenient || skipping)
  }

  /** A byte of a header value that nobody interprets; the rest of the value up to its
      end, or to the end of the buffer, is then skipped. */
  predicate Skips(c: Core, ch: char) {
    c.state.HeaderValue? && c.headerState.General? && ch != CR && ch != LF
  }

  /** The one place where the lenient bit matters. */
  predicate Rejects(cfg: Settings, c: Core, ch: char) {
    c.state.HeaderValue? && !cfg.lenient && !IsHeaderChar(ch)
  }

  lemma DispatchView(cfg: Settings, skipping: bool, r: Run, ch: char)
    requires !Rejects(cfg, r.core, ch)
    ensures Dispatch(OptionsAt(View(cfg, skipping), r), r.core, ch) == Dispatch(OptionsAt(cfg, r), r.core, ch)
  {
  }

  /** No character is dispatched again into the middle of a header value. */
  lemma NeverAgainInValue(opt: Options, c: Core, ch: char)
    ensures var o := Dispatch(opt, c, ch); o.Move? && o.again ==> !o.core.state.HeaderValue?
  {
    hide ValueStart, ValueNext, FieldNext, TargetChar, RequestLine, AfterHeaders, ChunkPart, IsHeaderChar, WithLineFlag;
    DispatchLegal(opt, c, ch);
  }

  lemma ConsumeView(cfg: Settings, skipping: bool, r: Run, ch: char)
    requires !Rejects(cfg, r.core, ch)
    ensures Consume(View(cfg, skipping), r, ch) == Consume(cfg, r, ch)
    decreases Rank(r.core.state)
  {
    DispatchView(cfg, skipping, r, ch);
    DispatchLegal(OptionsAt(cfg, r), r.core, ch);
    var o := Dispatch(OptionsAt(cfg, r), r.core, ch);
    if o.Move? && o.again {
      NeverAgainInValue(OptionsAt(cfg, r), r.core, ch);
      ConsumeView(cfg, skipping, After(r, o), ch);
    }
  }

  // ---------------------------------------------------------------- one buffer

  datatype Fed = Fed(run: Run) | Failed(errno: Errno)

  /** The meaning of one buffer.  `skipping` is part of the state between two of its
      characters, but not of the result: it does not outlive the buffer. */
  function Feed(cfg: Settings, skipping: bool, r: Run, data: string): Fed
    decreases |data|
  {
    if data == [] then Fed(r)
    else
      var s := Consume(View(cfg, skipping), r, data[0]);
      if s.Fail? then Failed(s.errno) else Feed(cfg, Skips(r.core, data[0]), s.run, data[1..])
  }

  /** What had been reported when a buffer was used up, or when a byte of it was refused. */
  function Seen(cfg: Settings, skipping: bool, r: Run, data: string): Trace
    decreases |data|
  {
    if data == [] then r.trace
    else
      var s := Consume(View(cfg, skipping), r, data[0]);
      if s.Fail? then SeenAt(View(cfg, skipping), r, data[0]) else Seen(cfg, Skips(r.core, data[0]), s.run, data[1..])
  }

  function SeenAt(cfg: Settings, r: Run, ch: char): Trace
    decreases Rank(r.core.state)
  {
    DispatchLegal(OptionsAt(cfg, r), r.core, ch);
    var o := Dispatch(OptionsAt(cfg, r), r.core, ch);
    if o.Move? && o.again then SeenAt(cfg, After(r, o), ch) else r.trace
  }

  lemma SeenView(cfg: Settings, skipping: bool, r: Run, ch: char)
    requires !Rejects(cfg, r.core, ch)
    ensures SeenAt(View(cfg, skipping), r, ch) == SeenAt(cfg, r, ch)
    decreases Rank(r.core.state)
  {
    DispatchView(cfg, skipping, r, ch);
    DispatchLegal(OptionsAt(cfg, r), r.core, ch);
    var o := Dispatch(OptionsAt(cfg, r), r.core, ch);
    if o.Move? && o.again {
      NeverAgainInValue(OptionsAt(cfg, r), r.core, ch);
      SeenView(cfg, skipping, After(r, o), ch);
    }
  }

  /** The bytes that are left where one of a buffer is refused, that one included. */
  function Unread(cfg: Settings, skipping: bool, r: Run, data: string): (n: nat)
    ensures n <= |data|
    decreases |data|
  {
    if data == [] then 0
    else
      var s := Consume(View(cfg, skipping), r, data[0]);
      if s.Fail? then |data| else Unread(cfg, Skips(r.core, data[0]), s.run, data[1..])
  }

  /** A message is complete with this byte, and the connection is no longer HTTP. */
  predicate LeavesAt(cfg: Settings, r: Run, ch: char)
    decreases Rank(r.core.state)
  {
    DispatchLegal(OptionsAt(cfg, r), r.core, ch);
    var o := Dispatch(OptionsAt(cfg, r), r.core, ch);
    o.Move? && (Exits(r.core) || (o.again && LeavesAt(cfg, After(r, o), ch)))
  }

  lemma LeavesView(cfg: Settings, skipping: bool, r: Run, ch: char)
    requires !Rejects(cfg, r.core, ch)
    ensures LeavesAt(View(cfg, skipping), r, ch) == LeavesAt(cfg, r, ch)
    decreases Rank(r.core.state)
  {
    DispatchView(cfg, skipping, r, ch);
    DispatchLegal(OptionsAt(cfg, r), r.core, ch);
    var o := Dispatch(OptionsAt(cfg, r), r.core, ch);
    if o.Move? && o.again {
      NeverAgainInValue(OptionsAt(cfg, r), r.core, ch);
      LeavesView(cfg, skipping, After(r, o), ch);
    }
  }

  /** Where the connection first leaves HTTP: the parser there, and the number of bytes behind. */
  datatype Exit = Stays | Leaves(run: Run, rest: nat)

  function Beyond(cfg: Settings, skipping: bool, r: Run, data: string): (e: Exit)
    ensures e.Leaves? ==> e.rest < |data|
    decreases |data|
  {
    if data == [] then Stays
    else
      var s := Consume(View(cfg, skipping), r, data[0]);
      if s.Fail? then Stays
      else if LeavesAt(View(cfg, skipping), r, data[0]) then Leaves(s.run, |data| - 1)
      else Beyond(cfg, Skips(r.core, data[0]), s.run, data[1..])
  }

  lemma {:induction false} BeyondOn(cfg: Settings, skipping: bool, r: Run, a: string, b: string)
    requires Feed(cfg, skipping, r, a).Fed?
    ensures var k := Beyond(cfg, skipping, r, a);
        Beyond(cfg, skipping, r, a + b) ==
          if k.Leaves? then Leaves(k.run, k.rest + |b|)
          else Beyond(cfg, SkippingAfter(cfg, skipping, r, a), Feed(cfg, skipping, r, a).run, b)
    decreases |a|
  {
    hide Consume, LeavesAt, Skips, View;
    if a == [] {
      assert a + b == b;
    } else {
      assert (a + b)[0] == a[0] && (a + b)[1..] == a[1..] + b;
      BeyondOn(cfg, Skips(r.core, a[0]), Consume(View(cfg, skipping), r, a[0]).run, a[1..], b);
    }
  }

  lemma {:induction false} SeenOn(cfg: Settings, skipping: bool, r: Run, a: string, b: string)
    requires Feed(cfg, skipping, r, a).Fed?
    ensures Seen(cfg, skipping, r, a + b) ==
            Seen(cfg, SkippingAfter(cfg, skipping, r, a), Feed(cfg, skipping, r, a).run, b)
    decreases |a|
  {
    if a == [] {
      assert a + b == b;
    } else {
      assert (a + b)[0] == a[0] && (a + b)[1..] == a[1..] + b;
      SeenOn(cfg, Skips(r.core, a[0]), Consume(View(cfg, skipping), r, a[0]).run, a[1..], b);
    }
  }

  lemma {:induction false} FeedLegal(cfg: Settings, skipping: bool, r: Run, data: string)
    requires Legal(r.core)
    ensures var f := Feed(cfg, skipping, r, data); f.Fed? ==> Legal(f.run.core)
    decreases |data|
  {
    if data != [] {
      ConsumeLegal(View(cfg, skipping), r, data[0]);
      var s := Consume(View(cfg, skipping), r, data[0]);
      if s.Next? { FeedLegal(cfg, Skips(r.core, data[0]), s.run, data[1..]); }
    }
  }

  /** The skip that is under way after a buffer. */
  function SkippingAfter(cfg: Settings, skipping: bool, r: Run, data: string): bool
    decreases |data|
  {
    if data == [] then skipping
    else
      var s := Consume(View(cfg, skipping), r, data[0]);
      if s.Fail? then false else SkippingAfter(cfg, Skips(r.core, data[0]), s.run, data[1..])
  }

  /** Feeding on, without the break that a new buffer makes. */
  lemma {:induction false} FeedOn(cfg: Settings, skipping: bool, r: Run, a: string, b: string)
    ensures var f := Feed(cfg, skipping, r, a);
        Feed(cfg, skipping, r, a + b) ==
          if f.Failed? then f else Feed(cfg, SkippingAfter(cfg, skipping, r, a), f.run, b)
    decreases |a|
  {
    if a == [] {
      assert a + b == b;
    } else {
      assert (a + b)[0] == a[0] && (a + b)[1..] == a[1..] + b;
      var s := Consume(View(cfg, skipping), r, a[0]);
      if s.Next? { FeedOn(cfg, Skips(r.core, a[0]), s.run, a[1..], b); }
    }
  }

  /** No byte of the input would be refused if every one of them were checked. */
  predicate Checked(cfg: Settings, r: Run, data: string)
    decreases |data|
  {
    data == [] ||
    (!Rejects(cfg, r.core, data[0]) &&
     var s := Consume(cfg, r, data[0]);
     s.Next? ==> Checked(cfg, s.run, data[1..]))
  }

  lemma {:induction false} CheckedConcat(cfg: Settings, skipping: bool, r: Run, a: string, b: string)
    requires Checked(cfg, r, a) && (Feed(cfg, skipping, r, a).Fed? ==> Checked(cfg, Feed(cfg, skipping, r, a).run, b))
    ensures Checked(cfg, r, a + b)
    decreases |a|
  {
    if a == [] {
      assert a + b == b;
    } else {
      assert (a + b)[0] == a[0] && (a + b)[1..] == a[1..] + b;
      ConsumeView(cfg, skipping, r, a[0]);
      var s := Consume(cfg, r, a[0]);
      if s.Next? { CheckedConcat(cfg, Skips(r.core, a[0]), s.run, a[1..], b); }
    }
  }

  // ---------------------------------------------------------------- the header byte counter

  /** One more header byte.  `HeadersDone` heads the loop only when on_headers_complete
      paused the parser, and then its byte had been counted before. */
  function Counted(n: nat, s: State): nat {
    if ParsingHeader(s) && !s.HeadersDone? then n + 1 else n
  }

  /** The counter after an input, the highest value it had, and the values at which it was
      reset, the latest first. */
  datatype Reading = Reading(last: nat, peak: nat, resets: seq<nat>)

  /** A byte at counter value `k` in front of what was read. */
  function WithByte(k: nat, reset: bool, m: Reading): Reading {
    Reading(m.last, if k <= m.peak then m.peak else k, if reset then m.resets + [k] else m.resets)
  }

  function Meter(cfg: Settings, skipping: bool, n: nat, r: Run, data: string): (m: Reading)
    ensures n <= m.peak
    decreases |data|, 1
  {
    if data == [] then Reading(n, n, []) else MeterMid(cfg, skipping, Counted(n, r.core.state), r, data)
  }

  /** The same from inside the first character, which has been counted. */
  function MeterMid(cfg: Settings, skipping: bool, k: nat, r: Run, data: string): (m: Reading)
    requires data != []
    ensures k <= m.peak
    decreases |data|, 0
  {
    var s := Consume(View(cfg, skipping), r, data[0]);
    if s.Fail? then Reading(k, k, [])
    else
      WithByte(k, s.reset, Meter(cfg, Skips(r.core, data[0]), if s.reset then 0 else k, s.run, data[1..]))
  }

  lemma {:induction false} MeterMono(cfg: Settings, skipping: bool, n: nat, m: nat, r: Run, data: string)
    requires n <= m
    ensures var x, y := Meter(cfg, skipping, n, r, data), Meter(cfg, skipping, m, r, data);
        x.peak <= y.peak && x.last <= y.last
    decreases |data|, 1
  {
    if data != [] { MeterMidMono(cfg, skipping, Counted(n, r.core.state), Counted(m, r.core.state), r, data); }
  }

  lemma {:induction false} MeterMidMono(cfg: Settings, skipping: bool, n: nat, m: nat, r: Run, data: string)
    requires data != [] && n <= m
    ensures var x, y := MeterMid(cfg, skipping, n, r, data), MeterMid(cfg, skipping, m, r, data);
        x.peak <= y.peak && x.last <= y.last
    decreases |data|, 0
  {
    var s := Consume(View(cfg, skipping), r, data[0]);
    if s.Next? && !s.reset { MeterMono(cfg, Skips(r.core, data[0]), n, m, s.run, data[1..]); }
  }
}
