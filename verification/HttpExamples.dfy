/** Two inputs on which the incremental parser does not do what its users expect: a cut in
    front of an unchecked byte, and a pause on headers that exactly fill the limit. */
module HttpExamples {
  import opened HttpChars
  import opened HttpMachine
  import opened HttpLegal
  import opened HttpRun
  import opened HttpGrammar
  import opened HttpOutlook
  import opened HttpParser
  import opened HttpSplit
  import opened HttpText
  import opened HttpTarget
  import opened HttpMessage
  import opened HttpRoundTrip

  const BEFORE := "GET / HTTP/1.1\r\nA: b"

  const FRESH := Run(INITIAL, Empty)

  /** The callbacks that `BEFORE` makes. */
  function Opening(): Trace {
    Emit(Emit(Emit(Emit(Empty, MessageBegin), Data(Url, "/")), Data(Field, "A")), Data(Value, "b"))
  }

  lemma Opened(cfg: Settings) returns (x: Run)
    ensures Eats(cfg, FRESH, BEFORE, x) && Plain(x.core) && x.trace == Opening()
    ensures x.core.flags == NO_FLAGS
  {
    hide Eats, Dispatch, Emit, MethodName, RenderLine;
    var q := Request(GET, "/", 1, 1, [], [], Nothing);
    RootTarget();
    RequestLineEaten(cfg, FRESH, q);
    var r1 := LineTaken(FRESH, q);
    EmitTwo(Empty, MessageBegin, Data(Url, "/"));
    FieldEaten(cfg, r1, "A");
    var r2 := FieldTaken(r1, "A");
    MatcherOfA();
    FirstPlain(cfg, r2, 'b');
    x := Run(r2.core.(state := HeaderValue, index := 0, headerState := General), Emit(r2.trace, Data(Value, "b")));
    EatsThen(cfg, r1, "A" + ":" + " ", r2, "b", x);
    EatsThen(cfg, FRESH, RenderLine(q), r1, "A" + ":" + " " + "b", x);
    OpeningText(q);
  }

  lemma MatcherOfA()
    ensures IsName("A") && OrdinaryState(NameMatcher("A").h)
  {
  }

  lemma OpeningText(q: Request)
    requires q == Request(GET, "/", 1, 1, [], [], Nothing)
    ensures RenderLine(q) + ("A" + ":" + " " + "b") == BEFORE
  {
    assert DigitChar(1) == '1';
    assert RenderLine(q) == "GET / HTTP/1.1\r\n";
  }

  // ---------------------------------------------------------------- where cutting matters

  const CONTROL: char := '\U{01}'

  /** A control character hidden in a header value: accepted in one buffer, refused when a
      buffer starts with it. */
  lemma UnsafeCutExample(cfg: Settings)
    requires !cfg.lenient
    ensures Feed(cfg, false, FRESH, BEFORE + "c" + [CONTROL]).Fed?
    ensures FeedAll(cfg, FRESH, [BEFORE + "c", [CONTROL]]) == Failed(InvalidHeaderToken)
  {
    hide Feed, SkippingAfter, Checked;
    var x := Opened(cfg);
    HiddenControl(cfg, x);
    FeedOn(cfg, false, FRESH, BEFORE, "c");
    FeedOn(cfg, false, FRESH, BEFORE, "c" + [CONTROL]);
    assert BEFORE + ("c" + [CONTROL]) == BEFORE + "c" + [CONTROL];
    assert [BEFORE + "c", [CONTROL]][1..] == [[CONTROL]];
  }

  lemma HiddenControl(cfg: Settings, x: Run)
    requires !cfg.lenient && Plain(x.core)
    ensures Feed(cfg, false, x, "c" + [CONTROL]).Fed?
    ensures var f := Feed(cfg, false, x, "c");
        f.Fed? && Feed(cfg, false, f.run, [CONTROL]) == Failed(InvalidHeaderToken)
  {
    var y := Run(x.core, Emit(x.trace, Data(Value, ['c'])));
    ValueConsumed(cfg, x, 'c');
    ValueConsumed(View(cfg, true), y, CONTROL);
    assert View(View(cfg, true), true) == View(cfg, true) && View(cfg, false) == cfg;
    assert Skips(x.core, 'c') && Skips(y.core, CONTROL);
    var z := Run(y.core, Emit(y.trace, Data(Value, [CONTROL])));
    assert [CONTROL][0] == CONTROL && [CONTROL][1..] == [];
    assert Feed(cfg, true, y, [CONTROL]) == Fed(z);
    assert ("c" + [CONTROL])[0] == 'c' && ("c" + [CONTROL])[1..] == [CONTROL];
    assert "c"[0] == 'c' && "c"[1..] == [];
    RejectedFirst(cfg, y, [CONTROL]);
  }

  // ---------------------------------------------------------------- headers that fill the limit

  const FILL: nat := MAX_HEADER_SIZE - 24

  function Filler(): (v: string)
    ensures |v| == FILL && forall c | c in v :: c == 'c'
  {
    seq(FILL, _ => 'c')
  }

  /** All but the last byte of a request whose headers have MAX_HEADER_SIZE bytes. */
  function AlmostFull(): string {
    BEFORE + ((Filler() + [CR]) + ([LF] + [CR]))
  }

  function Filled(): Trace {
    Emit(Opening(), Data(Value, Filler()))
  }

  lemma FilledUp(cfg: Settings) returns (y: Run)
    ensures Eats(cfg, FRESH, AlmostFull(), y) && y.core.state.HeadersAlmostDone? && y.trace == Filled()
    ensures y.core.flags == NO_FLAGS
  {
    hide Eats, Emit, Opening, Filler;
    var x := Opened(cfg);
    var v := Filler();
    assert v != [];
    FillerPlain(v);
    PlainEats(cfg, x, v);
    var r2 := ValueDone(x, v);
    LineFeedAfterValue(cfg, r2);
    var r3 := To(r2, HeaderValueLws);
    var r4 := Settled(r3);
    assert r4.core.flags == NO_FLAGS && r4.core.state.HeaderFieldStart?;
    y := To(r4, HeadersAlmostDone);
    Moves(cfg, r4, CR, HeadersAlmostDone);
    SettledEats(cfg, r3, [CR], y, false);
    EatsThen(cfg, r2, [LF], r3, [CR], y);
    EatsThen(cfg, x, v + [CR], r2, [LF] + [CR], y);
    EatsThen(cfg, FRESH, BEFORE, x, (v + [CR]) + ([LF] + [CR]), y);
  }

  lemma FillerPlain(v: string)
    requires forall c | c in v :: c == 'c'
    ensures forall c | c in v :: IsHeaderChar(c) && c != CR && c != LF
  {
  }

  /** The parser that on_headers_complete has paused on the last byte. */
  function PausedOn(cfg: Settings, y: Run): Run
    requires y.core.state.HeadersAlmostDone? && y.core.flags == NO_FLAGS
  {
    var o := Dispatch(OptionsAt(cfg, y), y.core, LF);
    After(y, o)
  }

  lemma PausedOnFull(cfg: Settings, y: Run)
    requires y.core.state.HeadersAlmostDone? && y.core.flags == NO_FLAGS
    ensures var x := PausedOn(cfg, y);
        && x.core.state.HeadersDone?
        && x.trace == Emit(y.trace, HeadersCompleteOf(Announced(y.core)))
        && Feed(cfg, false, y, [LF]) == Feed(cfg, false, x, [LF])
        && Feed(cfg, false, x, [LF]).Fed?
        && HasAnnounced(Feed(cfg, false, x, [LF]).run.trace) && !Feed(cfg, false, x, [LF]).run.core.state.HeadersDone?
        && var m := Meter(cfg, false, MAX_HEADER_SIZE - 1, y, [LF]);
           m.peak == MAX_HEADER_SIZE && m.resets == [MAX_HEADER_SIZE]
  {
    hide Consume, Dispatch, PausedOn, Emit, Announced, HasAnnounced;
    assert View(cfg, false) == cfg && [LF][1..] == [];
    var x := PausedOn(cfg, y);
    HeadersEnd(cfg, y);
    EmitHasAnnounced(y.trace, HeadersCompleteOf(Announced(y.core)));
    LastLineFeed(cfg, x);
    MeterOne(cfg, MAX_HEADER_SIZE - 1, y);
  }

  lemma HeadersEnd(cfg: Settings, y: Run)
    requires y.core.state.HeadersAlmostDone? && y.core.flags == NO_FLAGS
    ensures var x := PausedOn(cfg, y);
        && x.core.state.HeadersDone?
        && x.trace == Emit(y.trace, HeadersCompleteOf(Announced(y.core)))
        && Consume(cfg, y, LF) == Consume(cfg, x, LF)
  {
    hide Emit;
  }

  lemma LastLineFeed(cfg: Settings, x: Run)
    requires x.core.state.HeadersDone?
    ensures var s := Consume(cfg, x, LF);
        && s.Next? && s.reset && !s.run.core.state.HeadersDone?
        && (HasAnnounced(x.trace) ==> HasAnnounced(s.run.trace))
  {
    hide Emit, ExitsEarly, HasAnnounced;
    EmitHasAnnounced(x.trace, MessageComplete);
  }

  lemma MeterOne(cfg: Settings, n: nat, x: Run)
    requires Consume(cfg, x, LF).Next? && Consume(cfg, x, LF).reset
    ensures var m, k := Meter(cfg, false, n, x, [LF]), Counted(n, x.core.state); m.peak == k && m.resets == [k]
  {
    hide Consume;
    assert View(cfg, false) == cfg && [LF][1..] == [] && [LF][0] == LF;
    var k := Counted(n, x.core.state);
    assert Meter(cfg, Skips(x.core, LF), 0, Consume(cfg, x, LF).run, []) == Reading(0, 0, []);
    assert MeterMid(cfg, false, k, x, [LF]).peak == k;
    assert [] + [k] == [k];
  }

  lemma AlmostFullLength()
    ensures |AlmostFull()| == MAX_HEADER_SIZE - 1
  {
    assert |BEFORE| == 20;
  }

  lemma UnpausedFull(cfg: Settings, y: Run)
    requires Eats(cfg, FRESH, AlmostFull(), y) && y.core.state.HeadersAlmostDone? && y.trace == Filled()
    requires y.core.flags == NO_FLAGS
    ensures Feed(cfg, false, FRESH, AlmostFull() + [LF]) == Feed(cfg, false, y, [LF])
    ensures Feed(cfg, false, y, [LF]).Fed?
    ensures var m := Meter(cfg, false, 0, FRESH, AlmostFull() + [LF]);
        m.peak == MAX_HEADER_SIZE && m.resets == [MAX_HEADER_SIZE]
  {
    hide Feed, Meter, Beyond, AlmostFull, PausedOn, Checked, SkippingAfter, HasAnnounced;
    FeedOn(cfg, false, FRESH, AlmostFull(), [LF]);
    MeterOn(cfg, false, 0, FRESH, AlmostFull(), [LF]);
    FilledUnannounced();
    FreshInGrammar(cfg);
    HeadersCounted(cfg, false, 0, FRESH, AlmostFull());
    AlmostFullLength();
    PausedOnFull(cfg, y);
    assert [MAX_HEADER_SIZE] + [] == [MAX_HEADER_SIZE];
  }

  lemma FilledUnannounced()
    ensures !HasAnnounced(Filled())
  {
    hide Emit, HasAnnounced, Filler;
    NothingAnnounced();
    EmitHasAnnounced(Empty, MessageBegin);
    EmitHasAnnounced(Emit(Empty, MessageBegin), Data(Url, "/"));
    var tr := Emit(Emit(Empty, MessageBegin), Data(Url, "/"));
    EmitHasAnnounced(tr, Data(Field, "A"));
    EmitHasAnnounced(Emit(tr, Data(Field, "A")), Data(Value, "b"));
    EmitHasAnnounced(Opening(), Data(Value, Filler()));
  }

  lemma NothingAnnounced()
    ensures !HasAnnounced(Empty)
  {
  }

  lemma FreshInGrammar(cfg: Settings)
    ensures InGrammar(cfg, FRESH)
  {
  }

  const START := Snapshot(INITIAL, 0, Ok, [])

  function FullText(): string { AlmostFull() + [LF] }

  /** One unpaused call accepts the text. */
  lemma FullAccepted(cfg: Settings) returns (z: Run)
    ensures var g := Ahead(cfg, 0, FRESH, FullText());
        g.result == Fed(z) && g.peak == MAX_HEADER_SIZE && g.resets == [MAX_HEADER_SIZE]
    ensures |FullText()| == MAX_HEADER_SIZE == 81920 && HasAnnounced(z.trace) && !z.core.state.HeadersDone?
  {
    hide Feed, Meter, Eats, AlmostFull, PausedOn, Filled, HasAnnounced;
    var y := FilledUp(cfg);
    UnpausedFull(cfg, y);
    PausedOnFull(cfg, y);
    AlmostFullLength();
    z := Feed(cfg, false, y, [LF]).run;
  }

  /** Callbacks of a user who pauses the parser in on_headers_complete, and there only. */
  function AtHeaders(calls: seq<Event>): Answer {
    if JustAnnounced(calls) then Pause else Proceed
  }

  lemma {:induction false} MergeUnannounced(calls: seq<Event>)
    requires forall k | 0 < k <= |calls| :: !JustAnnounced(calls[..k])
    ensures !HasAnnounced(Merge(calls))
    decreases |calls|
  {
    hide HasAnnounced, Emit;
    if calls == [] {
      NothingAnnounced();
    } else {
      var n := |calls| - 1;
      forall k | 0 < k <= n ensures !JustAnnounced(calls[..n][..k]) { assert calls[..n][..k] == calls[..k]; }
      MergeUnannounced(calls[..n]);
      assert calls[..n + 1] == calls && !JustAnnounced(calls[..n + 1]);
      EmitHasAnnounced(Merge(calls[..n]), calls[n]);
    }
  }

  /** If this user's callbacks did not stop the parser, on_headers_complete was not called. */
  lemma Unstopped(calls: seq<Event>)
    requires Obeys(AtHeaders, [], calls, Ok)
    ensures !HasAnnounced(Merge(calls))
  {
    forall k | 0 < k <= |calls| ensures !JustAnnounced(calls[..k]) { assert calls[..|calls|] == calls; }
    MergeUnannounced(calls);
  }

  /** No message is complete before its headers are. */
  lemma Incomplete(cfg: Settings, calls: seq<Event>)
    requires Grammatical(cfg, Merge(calls)) && !HasAnnounced(Merge(calls))
    ensures !Completed(calls)
  {
    if Completed(calls) {
      var tr := Merge(calls[..|calls| - 1]);
      assert Merge(calls) == Snoc(tr, MessageComplete);
      EarlyPhase(cfg, tr);
    }
  }

  lemma NotAccepted(cfg: Settings, z: Run, n: nat, b: Snapshot)
    requires Executed(cfg, START, FullText(), n, b) && Obeys(AtHeaders, [], b.calls, b.errno)
    requires Ahead(cfg, 0, FRESH, FullText()).result == Fed(z) && HasAnnounced(z.trace)
    requires Grammatical(cfg, Merge(b.calls))
    ensures !b.errno.Ok?
  {
    hide Feed, Meter, HasAnnounced, FullText, Obeys, Grammatical, Completed;
    assert RunOf(START) == FRESH;
    if b.errno.Ok? {
      Unstopped(b.calls);
      Incomplete(cfg, b.calls);
      assert FullText()[n..] == [];
      NothingRuns(cfg, b.nread, RunOf(b));
    }
  }

  lemma MustPause(cfg: Settings, z: Run, n: nat, b: Snapshot)
    requires Executed(cfg, START, FullText(), n, b) && Obeys(AtHeaders, [], b.calls, b.errno) && !b.errno.Ok?
    requires Ahead(cfg, 0, FRESH, FullText()).result == Fed(z) && FullText() != []
    requires Ahead(cfg, 0, FRESH, FullText()).peak == MAX_HEADER_SIZE
    ensures b.errno.Paused? && b.core.state.HeadersDone?
  {
    hide Feed, Meter, FullText;
    assert RunOf(START) == FRESH;
  }

  /** A run on from on_headers_complete resets the counter at the value it has. */
  lemma ResetHere(cfg: Settings, n: nat, r: Run, rest: string)
    requires r.core.state.HeadersDone? && rest != [] && Feed(cfg, false, r, rest).Fed?
    ensures var m := Meter(cfg, false, n, r, rest).resets; m != [] && m[|m| - 1] == n
  {
    hide Dispatch;
    LineFeedOnly(cfg, r, rest[0]);
  }

  lemma LineFeedOnly(cfg: Settings, r: Run, ch: char)
    requires r.core.state.HeadersDone? && Consume(View(cfg, false), r, ch).Next?
    ensures Consume(View(cfg, false), r, ch).reset
  {
    hide Emit, ExitsEarly;
  }

  lemma PausedFull(cfg: Settings, n: nat, b: Snapshot)
    requires Executed(cfg, START, FullText(), n, b) && Obeys(AtHeaders, [], b.calls, b.errno)
    requires Grammatical(cfg, Merge(b.calls))
    ensures b.errno.Paused? && Full(b) && n < |FullText()|
  {
    hide Feed, Seen, Beyond, Meter, FullText, Obeys, Grammatical, HasAnnounced, JustAnnounced, Kept;
    var z := FullAccepted(cfg);
    NotAccepted(cfg, z, n, b);
    MustPause(cfg, z, n, b);
    assert RunOf(START) == FRESH;
    var rest := FullText()[n..];
    if n == |FullText()| {
      assert rest == [];
      NothingRuns(cfg, b.nread, RunOf(b));
    } else {
      ResetHere(cfg, b.nread, RunOf(b), rest);
    }
  }

  /** Headers of exactly MAX_HEADER_SIZE bytes, which one call accepts (`FullAccepted`), are
      refused when on_headers_complete pauses the parser and it is then resumed with what
      is left. */
  method PausedOnFullHeaders(settings: Settings) returns (p: HttpParser, n: nat, m: nat, first: Errno)
    ensures fresh(p) && p.settings == settings && n < |FullText()| && first.Paused? && p.errno.HeaderOverflow?
  {
    p := new HttpParser(settings);
    AlmostFullLength();
    n := p.Execute(FullText(), AtHeaders);
    PausedFull(settings, n, p.Snap());
    first := p.errno;
    p.SetPaused(false);
    hide Executed, Full;
    ghost var a, rest := p.Snap(), FullText()[n..];
    m := p.Execute(FullText()[n..], AtHeaders);
    OnlyOverflow(settings, a, rest, m, p.Snap());
  }

  lemma OnlyOverflow(cfg: Settings, a: Snapshot, data: string, n: nat, b: Snapshot)
    requires a.errno.Ok? && data != [] && Full(a) && Executed(cfg, a, data, n, b)
    ensures b.errno.HeaderOverflow?
  {
  }
}
