/** What the cutting of a byte stream into buffers, and pausing in callbacks, can change. */
module HttpSplit {
  import opened HttpChars
  import opened HttpMachine
  import opened HttpLegal
  import opened HttpRun
  import opened HttpGrammar
  import opened HttpOutlook
  import opened HttpParser

  function Concat(pieces: seq<string>): string {
    if pieces == [] then [] else pieces[0] + Concat(pieces[1..])
  }

  function FeedAll(cfg: Settings, r: Run, pieces: seq<string>): Fed
    decreases |pieces|
  {
    if pieces == [] then Fed(r)
    else
      var f := Feed(cfg, false, r, pieces[0]);
      if f.Failed? then f else FeedAll(cfg, f.run, pieces[1..])
  }

  /** One reading after the other. */
  function Then(m: Reading, m': Reading): Reading {
    Reading(m'.last, if m.peak <= m'.peak then m'.peak else m.peak, m'.resets + m.resets)
  }

  lemma ThenAfterByte(k: nat, reset: bool, m: Reading, m': Reading)
    ensures Then(WithByte(k, reset, m), m') == WithByte(k, reset, Then(m, m'))
  {
    assert m'.resets + (m.resets + [k]) == m'.resets + m.resets + [k];
  }

  lemma LastKept(k: nat, reset: bool, m: Reading)
    ensures WithByte(k, reset, m).last == m.last
  {
  }

  lemma {:induction false} MeterOn(cfg: Settings, skipping: bool, n: nat, r: Run, a: string, b: string)
    requires Feed(cfg, skipping, r, a).Fed?
    ensures var m := Meter(cfg, skipping, n, r, a);
        var m' := Meter(cfg, SkippingAfter(cfg, skipping, r, a), m.last, Feed(cfg, skipping, r, a).run, b);
        Meter(cfg, skipping, n, r, a + b) == Then(m, m')
    decreases |a|
  {
    hide Consume, View, Skips, Counted, WithByte;
    if a == [] {
      assert a + b == b;
    } else {
      assert (a + b)[0] == a[0] && (a + b)[1..] == a[1..] + b;
      var s, k := Consume(View(cfg, skipping), r, a[0]), Counted(n, r.core.state);
      var n', skips := if s.reset then 0 else k, Skips(r.core, a[0]);
      MeterOn(cfg, skips, n', s.run, a[1..], b);
      var m := Meter(cfg, skips, n', s.run, a[1..]);
      LastKept(k, s.reset, m);
      ThenAfterByte(k, s.reset, m,
                    Meter(cfg, SkippingAfter(cfg, skipping, r, a), m.last, Feed(cfg, skipping, r, a).run, b));
    }
  }

  // ---------------------------------------------------------------- the header byte counter

  /** on_headers_complete has been called. */
  predicate HasAnnounced(tr: Trace) {
    tr.Snoc? && (tr.last.HeadersComplete? || HasAnnounced(tr.init))
  }

  lemma EmitHasAnnounced(tr: Trace, e: Event)
    ensures HasAnnounced(Emit(tr, e)) <==> HasAnnounced(tr) || e.HeadersComplete?
  {
  }

  lemma {:induction false} EarlyPhase(cfg: Settings, tr: Trace)
    requires !HasAnnounced(tr)
    ensures var g := PhaseAfter(cfg, tr); g.Refused? || g.Idle? || g.Begun? || g.InUrl? || g.InField? || g.InValue?
  {
    if tr.Snoc? { EarlyPhase(cfg, tr.init); }
  }

  lemma EarlyState(cfg: Settings, r: Run)
    requires InGrammar(cfg, r) && !HasAnnounced(r.trace)
    ensures ParsingHeader(r.core.state) && !r.core.state.HeadersDone? && !ResetsCounter(r.core.state)
  {
    hide Legal, PhaseAfter;
    EarlyPhase(cfg, r.trace);
  }

  lemma {:induction false} EarlyByte(cfg: Settings, r: Run, ch: char)
    requires InGrammar(cfg, r) && Consume(cfg, r, ch).Next?
    ensures var s := Consume(cfg, r, ch);
        && InGrammar(cfg, s.run)
        && (!HasAnnounced(s.run.trace) ==> !HasAnnounced(r.trace) && !s.reset)
    decreases Rank(r.core.state)
  {
    hide InGrammar, Dispatch, Rank, HasAnnounced, ResetsCounter;
    var o := Dispatch(OptionsAt(cfg, r), r.core, ch);
    DispatchLegal(OptionsAt(cfg, r), r.core, ch);
    DispatchInGrammar(cfg, r, ch);
    if o.report.Report? { EmitHasAnnounced(r.trace, o.report.event); }
    if !HasAnnounced(r.trace) { EarlyState(cfg, r); }
    if o.again { EarlyByte(cfg, After(r, o), ch); }
  }

  lemma {:induction false} PhaseView(cfg: Settings, skipping: bool, tr: Trace)
    ensures PhaseAfter(View(cfg, skipping), tr) == PhaseAfter(cfg, tr)
  {
    if tr.Snoc? { PhaseView(cfg, skipping, tr.init); }
  }

  lemma EarlyStep(cfg: Settings, skipping: bool, r: Run, ch: char)
    requires InGrammar(cfg, r) && Consume(View(cfg, skipping), r, ch).Next?
    ensures var s := Consume(View(cfg, skipping), r, ch);
        && InGrammar(cfg, s.run)
        && (!HasAnnounced(s.run.trace) ==> !HasAnnounced(r.trace) && !s.reset)
  {
    hide Consume, HasAnnounced, Legal, Fits, View;
    PhaseView(cfg, skipping, r.trace);
    EarlyByte(View(cfg, skipping), r, ch);
    PhaseView(cfg, skipping, Consume(View(cfg, skipping), r, ch).run.trace);
  }

  lemma {:induction false} EarlyBytes(cfg: Settings, skipping: bool, r: Run, data: string)
    requires InGrammar(cfg, r) && Feed(cfg, skipping, r, data).Fed?
    requires !HasAnnounced(Feed(cfg, skipping, r, data).run.trace)
    ensures !HasAnnounced(r.trace)
    decreases |data|
  {
    hide InGrammar, HasAnnounced, Consume, View, Skips;
    if data != [] {
      EarlyStep(cfg, skipping, r, data[0]);
      EarlyBytes(cfg, Skips(r.core, data[0]), Consume(View(cfg, skipping), r, data[0]).run, data[1..]);
    }
  }

  /** Up to on_headers_complete every byte counts, once. */
  lemma {:induction false} HeadersCounted(cfg: Settings, skipping: bool, n: nat, r: Run, data: string)
    requires InGrammar(cfg, r) && Feed(cfg, skipping, r, data).Fed?
    requires !HasAnnounced(Feed(cfg, skipping, r, data).run.trace)
    ensures Meter(cfg, skipping, n, r, data) == Reading(n + |data|, n + |data|, [])
    decreases |data|
  {
    hide InGrammar, HasAnnounced, Consume, View, Skips, ParsingHeader;
    if data != [] {
      var s := Consume(View(cfg, skipping), r, data[0]);
      EarlyStep(cfg, skipping, r, data[0]);
      EarlyBytes(cfg, Skips(r.core, data[0]), s.run, data[1..]);
      EarlyState(cfg, r);
      HeadersCounted(cfg, Skips(r.core, data[0]), n + 1, s.run, data[1..]);
    }
  }

  predicate ChunkLine(s: State) { s.ChunkSizeStart? || s.ChunkSize? || s.ChunkParameters? || s.ChunkSizeAlmostDone? }

  lemma ChunkLineByte(cfg: Settings, r: Run, ch: char)
    requires ChunkLine(r.core.state) && ch != '\n'
    ensures var s := Consume(cfg, r, ch); s.Next? ==> ChunkLine(s.run.core.state) && !s.reset
    ensures Counted(0, r.core.state) == 1 && !Skips(r.core, ch)
  {
  }

  lemma {:induction false} ChunkLineCounted(cfg: Settings, n: nat, r: Run, s: string)
    requires ChunkLine(r.core.state) && '\n' !in s && Feed(cfg, false, r, s).Fed?
    ensures ChunkLine(Feed(cfg, false, r, s).run.core.state) && !SkippingAfter(cfg, false, r, s)
    ensures Meter(cfg, false, n, r, s) == Reading(n + |s|, n + |s|, [])
    decreases |s|
  {
    hide Consume, Skips;
    assert View(cfg, false) == cfg;
    if s != [] {
      assert s[0] in s && forall c | c in s[1..] :: c in s;
      ChunkLineByte(cfg, r, s[0]);
      CountedOnce(n, r.core.state);
      ChunkLineCounted(cfg, n + 1, Consume(cfg, r, s[0]).run, s[1..]);
    }
  }

  lemma CountedOnce(n: nat, s: State)
    ensures Counted(0, s) == 1 ==> Counted(n, s) == n + 1
  {
  }

  /** The header of a chunk is counted byte by byte, and its line feed sets the counter back. */
  lemma ChunkHeaderCounted(cfg: Settings, n: nat, r: Run, s: string)
    requires ChunkLine(r.core.state) && '\n' !in s && Feed(cfg, false, r, s + "\r\n").Fed?
    ensures Meter(cfg, false, n, r, s + "\r\n") == Reading(0, n + |s| + 2, [n + |s| + 2])
  {
    hide Meter, SkippingAfter, Feed;
    var t := s + "\r";
    assert s + "\r\n" == t + "\n";
    FeedOn(cfg, false, r, t, "\n");
    FeedOn(cfg, false, r, s, "\r");
    ChunkLineCounted(cfg, n, r, s);
    ChunkLineCounted(cfg, n, r, t);
    MeterOn(cfg, false, n, r, t, "\n");
    ReturnReached(cfg, Feed(cfg, false, r, s).run);
    ChunkLineEnds(cfg, n + |t|, Feed(cfg, false, r, t).run);
    assert [n + |t| + 1] + [] == [n + |t| + 1];
  }

  lemma ReturnReached(cfg: Settings, r: Run)
    requires ChunkLine(r.core.state) && Feed(cfg, false, r, "\r").Fed?
    ensures Feed(cfg, false, r, "\r").run.core.state.ChunkSizeAlmostDone?
  {
    assert View(cfg, false) == cfg && "\r"[1..] == [];
  }

  lemma ChunkLineEnds(cfg: Settings, n: nat, r: Run)
    requires r.core.state.ChunkSizeAlmostDone? && Feed(cfg, false, r, "\n").Fed?
    ensures Meter(cfg, false, n, r, "\n") == Reading(0, n + 1, [n + 1])
  {
    assert View(cfg, false) == cfg && "\n"[1..] == [];
  }

  /** The bytes of bodies and chunks are not counted. */
  lemma BodyNotCounted(cfg: Settings, n: nat, r: Run, ch: char)
    requires r.core.state.BodyIdentity? || r.core.state.ChunkData? || r.core.state.ChunkDataAlmostDone?
    requires Feed(cfg, false, r, [ch]).Fed?
    ensures Meter(cfg, false, n, r, [ch]) == Reading(n, n, [])
  {
    BodyKeepsCount(cfg, r, ch);
    hide Consume, Skips;
    assert View(cfg, false) == cfg && [ch][1..] == [];
    var s := Consume(cfg, r, ch);
    assert Meter(cfg, Skips(r.core, ch), n, s.run, []) == Reading(n, n, []);
    assert MeterMid(cfg, false, n, r, [ch]) == Reading(n, n, []);
  }

  lemma BodyKeepsCount(cfg: Settings, r: Run, ch: char)
    requires r.core.state.BodyIdentity? || r.core.state.ChunkData? || r.core.state.ChunkDataAlmostDone?
    ensures var s := Consume(cfg, r, ch); s.Next? ==> !s.reset
  {
    var o := Dispatch(OptionsAt(cfg, r), r.core, ch);
    if r.core.state.BodyIdentity? && r.core.contentLength == 1 {
      assert o.Move? && o.again && o.core.state.MessageDone?;
      EndKeepsCount(cfg, After(r, o), ch);
    }
  }

  lemma EndKeepsCount(cfg: Settings, r: Run, ch: char)
    requires r.core.state.MessageDone?
    ensures var s := Consume(cfg, r, ch); s.Next? ==> !s.reset
  {
  }

  // ---------------------------------------------------------------- one cut

  /** The byte that starts a new buffer is checked even where one buffer would have
      skipped it. */
  predicate UnsafeCut(cfg: Settings, c: Core, next: string) {
    next != [] && Rejects(cfg, c, next[0])
  }

  /** Cutting an accepted buffer in two changes nothing, unless the cut is unsafe; then
      the second half is refused. */
  lemma CutExact(cfg: Settings, r: Run, a: string, b: string)
    requires Feed(cfg, false, r, a + b).Fed?
    ensures var f := Feed(cfg, false, r, a);
        && f.Fed?
        && Feed(cfg, false, f.run, b) ==
           if UnsafeCut(cfg, f.run.core, b) then Failed(InvalidHeaderToken) else Feed(cfg, false, r, a + b)
  {
    FeedOn(cfg, false, r, a, b);
    var f := Feed(cfg, false, r, a);
    if UnsafeCut(cfg, f.run.core, b) {
      RejectedFirst(cfg, f.run, b);
    } else if SkippingAfter(cfg, false, r, a) {
      NotSkipping(cfg, 0, f.run, b);
    }
  }

  lemma RejectedFirst(cfg: Settings, r: Run, data: string)
    requires UnsafeCut(cfg, r.core, data)
    ensures Feed(cfg, false, r, data) == Failed(InvalidHeaderToken)
  {
    assert View(cfg, false) == cfg;
  }

  lemma RejectedMeter(cfg: Settings, n: nat, r: Run, data: string)
    requires UnsafeCut(cfg, r.core, data)
    ensures Meter(cfg, false, n, r, data).peak == n + 1
    ensures Meter(cfg, true, n, r, data).peak > n
  {
    assert View(cfg, false) == cfg;
  }

  lemma CutMeter(cfg: Settings, n: nat, r: Run, a: string, b: string)
    requires var f := Feed(cfg, false, r, a); f.Fed? && !UnsafeCut(cfg, f.run.core, b)
    ensures var m := Meter(cfg, false, n, r, a);
        var m' := Meter(cfg, false, m.last, Feed(cfg, false, r, a).run, b);
        Meter(cfg, false, n, r, a + b) == Then(m, m')
    ensures Feed(cfg, false, r, a + b) == Feed(cfg, false, Feed(cfg, false, r, a).run, b)
  {
    MeterOn(cfg, false, n, r, a, b);
    FeedOn(cfg, false, r, a, b);
    var f := Feed(cfg, false, r, a);
    if SkippingAfter(cfg, false, r, a) { NotSkipping(cfg, Meter(cfg, false, n, r, a).last, f.run, b); }
  }

  // ---------------------------------------------------------------- every cut

  ghost predicate AllNonEmpty(pieces: seq<string>) {
    forall p | p in pieces :: p != []
  }

  /** Every byte of a header value is legal where it stands (or the parser is lenient). */
  ghost predicate ValueBytesLegal(cfg: Settings, r: Run, data: string) {
    forall i | 0 <= i < |data| :: LegalAt(cfg, r, data, i)
  }

  predicate LegalAt(cfg: Settings, r: Run, data: string, i: nat)
    requires i < |data|
  {
    var f := Feed(cfg, false, r, data[..i]);
    f.Fed? ==> !Rejects(cfg, f.run.core, data[i])
  }

  lemma LegalRest(cfg: Settings, r: Run, a: string, b: string)
    requires ValueBytesLegal(cfg, r, a + b) && Feed(cfg, false, r, a + b).Fed?
    ensures var f := Feed(cfg, false, r, a);
        f.Fed? && !UnsafeCut(cfg, f.run.core, b) && ValueBytesLegal(cfg, f.run, b) && Feed(cfg, false, f.run, b).Fed?
  {
    hide Feed, SkippingAfter, Rejects;
    var f := Feed(cfg, false, r, a);
    CutExact(cfg, r, a, b);
    if b != [] {
      assert LegalAt(cfg, r, a + b, |a|);
      assert (a + b)[..|a|] == a;
    }
    forall i | 0 <= i < |b| ensures LegalAt(cfg, f.run, b, i) {
      assert LegalAt(cfg, r, a + b, |a| + i);
      assert (a + b)[..|a| + i] == a + b[..i];
      assert a + b == (a + b[..i]) + b[i..];
      FeedOn(cfg, false, r, a + b[..i], b[i..]);
      CutExact(cfg, r, a, b[..i]);
      assert i > 0 ==> b[..i][0] == b[0];
    }
  }

  lemma {:induction false} CheckedLegal(cfg: Settings, r: Run, data: string)
    requires Checked(cfg, r, data)
    ensures ValueBytesLegal(cfg, r, data)
  {
    forall i | 0 <= i < |data| ensures LegalAt(cfg, r, data, i) {
      CheckedAt(cfg, false, r, data, i);
    }
  }

  lemma {:induction false} CheckedAt(cfg: Settings, skipping: bool, r: Run, data: string, i: nat)
    requires Checked(cfg, r, data) && i < |data|
    ensures var f := Feed(cfg, skipping, r, data[..i]); f.Fed? ==> !Rejects(cfg, f.run.core, data[i])
    decreases i
  {
    if i > 0 {
      ConsumeView(cfg, skipping, r, data[0]);
      var s := Consume(cfg, r, data[0]);
      assert data[..i][0] == data[0] && data[..i][1..] == data[1..][..i - 1];
      if s.Next? { CheckedAt(cfg, Skips(r.core, data[0]), s.run, data[1..], i - 1); }
    }
  }

  /** If one buffer is accepted, every way of cutting it means the same, exactly when
      every byte met inside a header value is legal. */
  lemma {:induction false} SplitsAgree(cfg: Settings, r: Run, pieces: seq<string>)
    requires AllNonEmpty(pieces)
    requires Feed(cfg, false, r, Concat(pieces)).Fed? && ValueBytesLegal(cfg, r, Concat(pieces))
    ensures FeedAll(cfg, r, pieces) == Feed(cfg, false, r, Concat(pieces))
    decreases |pieces|
  {
    if pieces != [] {
      var a, b := pieces[0], Concat(pieces[1..]);
      assert forall p | p in pieces[1..] :: p in pieces;
      LegalRest(cfg, r, a, b);
      CutExact(cfg, r, a, b);
      SplitsAgree(cfg, Feed(cfg, false, r, a).run, pieces[1..]);
    }
  }

  lemma SplitsDisagree(cfg: Settings, r: Run, data: string) returns (pieces: seq<string>)
    requires Feed(cfg, false, r, data).Fed? && !ValueBytesLegal(cfg, r, data)
    ensures AllNonEmpty(pieces) && Concat(pieces) == data
    ensures FeedAll(cfg, r, pieces) == Failed(InvalidHeaderToken)
  {
    var i: nat :| i < |data| && !LegalAt(cfg, r, data, i);
    var a, b := data[..i], data[i..];
    assert a + b == data && b[0] == data[i];
    CutExact(cfg, r, a, b);
    pieces := [a, b];
    assert pieces[1..] == [b] && [b][1..] == [];
    assert Concat([b]) == b + [];
    assert Concat(pieces) == a + b;
    if i == 0 { RejectedFirst(cfg, r, data); }
  }

  // ---------------------------------------------------------------- calls of the parser

  /** A parser that can be called, with no character half consumed. */
  predicate Ready(s: Snapshot) {
    s.errno.Ok? && Legal(s.core) && !s.core.state.HeadersDone? && s.nread <= MAX_HEADER_SIZE
  }

  /** A run over consecutive buffers in which no callback pauses or fails: from snapshot
      to snapshot, until an error if there is one. */
  ghost predicate Runs(cfg: Settings, ss: seq<Snapshot>, pieces: seq<string>) {
    && |ss| == |pieces| + 1
    && forall i | 0 <= i < |pieces| :: RunsOnce(cfg, ss[i], pieces[i], ss[i + 1])
  }

  /** One buffer is used up, or refused.  (Leaving HTTP in its middle is excluded.) */
  ghost predicate RunsOnce(cfg: Settings, a: Snapshot, data: string, b: Snapshot) {
    && !b.errno.Paused? && !b.errno.CbFailed?
    && exists n: nat :: Executed(cfg, a, data, n, b) && (b.errno.Ok? ==> n == |data|)
  }

  /** What an accepting call says about its buffer. */
  lemma AcceptedMeans(cfg: Settings, a: Snapshot, data: string, b: Snapshot)
    requires Ready(a) && data != [] && RunsOnce(cfg, a, data, b)
    ensures b.errno.Ok? <==>
            Feed(cfg, false, RunOf(a), data).Fed? && Meter(cfg, false, a.nread, RunOf(a), data).peak <= MAX_HEADER_SIZE
    ensures b.errno.Ok? ==>
        && Ready(b) && Feed(cfg, false, RunOf(a), data) == Fed(RunOf(b))
        && Meter(cfg, false, a.nread, RunOf(a), data).last == b.nread
  {
    var n: nat :| Executed(cfg, a, data, n, b) && (b.errno.Ok? ==> n == |data|);
    if b.errno.Ok? {
      assert data[n..] == [];
      FeedLegal(cfg, false, RunOf(a), data);
    }
  }

  lemma RejectedMeans(cfg: Settings, a: Snapshot, data: string, b: Snapshot)
    requires Ready(a) && data != [] && RunsOnce(cfg, a, data, b)
    requires Feed(cfg, false, RunOf(a), data).Failed?
    requires Meter(cfg, false, a.nread, RunOf(a), data).peak <= MAX_HEADER_SIZE
    ensures Feed(cfg, false, RunOf(a), data) == Failed(b.errno)
  {
    AcceptedMeans(cfg, a, data, b);
    var n: nat :| Executed(cfg, a, data, n, b) && (b.errno.Ok? ==> n == |data|);
  }

  lemma FirstNonEmpty(pieces: seq<string>)
    requires AllNonEmpty(pieces) && pieces != []
    ensures pieces[0] != []
  {
    assert pieces[0] in pieces;
  }

  lemma NothingRuns(cfg: Settings, n: nat, r: Run)
    ensures Feed(cfg, false, r, []) == Fed(r) && Meter(cfg, false, n, r, []) == Reading(n, n, [])
  {
  }

  lemma {:induction false} PiecesAccepted(cfg: Settings, z: Run, n: nat, pieces: seq<string>, ss: seq<Snapshot>)
    requires AllNonEmpty(pieces) && Runs(cfg, ss, pieces) && Ready(ss[0])
    requires ValueBytesLegal(cfg, RunOf(ss[0]), Concat(pieces))
    requires Feed(cfg, false, RunOf(ss[0]), Concat(pieces)) == Fed(z)
    requires var m := Meter(cfg, false, ss[0].nread, RunOf(ss[0]), Concat(pieces));
        m.last == n && m.peak <= MAX_HEADER_SIZE
    ensures forall s | s in ss :: Ready(s)
    ensures RunOf(ss[|ss| - 1]) == z && ss[|ss| - 1].nread == n
    decreases |pieces|
  {
    hide Feed, Meter, ValueBytesLegal, AllNonEmpty, RunsOnce, Ready, RunOf, UnsafeCut;
    if pieces == [] {
      NothingRuns(cfg, ss[0].nread, RunOf(ss[0]));
    } else {
      var a, data, rest := ss[0], pieces[0], Concat(pieces[1..]);
      FirstNonEmpty(pieces);
      RunsRest(cfg, ss, pieces);
      LegalRest(cfg, RunOf(a), data, rest);
      CutMeter(cfg, a.nread, RunOf(a), data, rest);
      AcceptedMeans(cfg, a, data, ss[1]);
      PiecesAccepted(cfg, z, n, pieces[1..], ss[1..]);
      assert ss == [ss[0]] + ss[1..];
    }
  }

  lemma RunsRest(cfg: Settings, ss: seq<Snapshot>, pieces: seq<string>)
    requires pieces != [] && AllNonEmpty(pieces) && Runs(cfg, ss, pieces)
    ensures AllNonEmpty(pieces[1..]) && Runs(cfg, ss[1..], pieces[1..]) && RunsOnce(cfg, ss[0], pieces[0], ss[1])
  {
    assert forall p | p in pieces[1..] :: p in pieces;
    forall i | 0 <= i < |pieces| - 1 ensures RunsOnce(cfg, ss[1..][i], pieces[1..][i], ss[1..][i + 1]) {
      assert RunsOnce(cfg, ss[i + 1], pieces[i + 1], ss[i + 2]);
    }
  }

  lemma {:induction false} PiecesMean(cfg: Settings, pieces: seq<string>, ss: seq<Snapshot>)
    requires AllNonEmpty(pieces) && Runs(cfg, ss, pieces) && Ready(ss[0]) && forall s | s in ss :: s.errno.Ok?
    ensures var z := ss[|ss| - 1];
        && Feed(cfg, false, RunOf(ss[0]), Concat(pieces)) == Fed(RunOf(z))
        && var m := Meter(cfg, false, ss[0].nread, RunOf(ss[0]), Concat(pieces));
           m.last == z.nread && m.peak <= MAX_HEADER_SIZE
    decreases |pieces|
  {
    if pieces == [] { return; }
    var a, data, rest := ss[0], pieces[0], Concat(pieces[1..]);
    assert pieces[0] in pieces;
    assert RunsOnce(cfg, ss[0], pieces[0], ss[1]);
    assert ss[1] in ss;
    AcceptedMeans(cfg, a, data, ss[1]);
    RunsRest(cfg, ss, pieces);
    PiecesMean(cfg, pieces[1..], ss[1..]);
    if UnsafeCut(cfg, ss[1].core, rest) { RejectedFirst(cfg, RunOf(ss[1]), rest); }
    CutMeter(cfg, a.nread, RunOf(a), data, rest);
  }

  // ---------------------------------------------------------------- refused streams

  /** Whatever becomes of the rest, it means behind a safe cut what it means without one. */
  lemma SafeCut(cfg: Settings, r: Run, a: string, b: string)
    requires Feed(cfg, false, r, a).Fed? && ValueBytesLegal(cfg, r, a + b)
    ensures var f := Feed(cfg, false, r, a);
        && !UnsafeCut(cfg, f.run.core, b) && ValueBytesLegal(cfg, f.run, b)
        && Feed(cfg, false, r, a + b) == Feed(cfg, false, f.run, b)
        && Seen(cfg, false, r, a + b) == Seen(cfg, false, f.run, b)
  {
    hide Feed, Seen, SkippingAfter, Rejects;
    var f := Feed(cfg, false, r, a);
    if b != [] {
      assert LegalAt(cfg, r, a + b, |a|);
      assert (a + b)[..|a|] == a;
    }
    SafeSeen(cfg, r, a, b);
    forall i | 0 <= i < |b| ensures LegalAt(cfg, f.run, b, i) {
      assert LegalAt(cfg, r, a + b, |a| + i);
      assert (a + b)[..|a| + i] == a + b[..i];
      assert i > 0 ==> b[..i][0] == b[0];
      SafeSeen(cfg, r, a, b[..i]);
    }
  }

  lemma SafeSeen(cfg: Settings, r: Run, a: string, b: string)
    requires var f := Feed(cfg, false, r, a); f.Fed? && !UnsafeCut(cfg, f.run.core, b)
    ensures var f := Feed(cfg, false, r, a);
        && Feed(cfg, false, r, a + b) == Feed(cfg, false, f.run, b)
        && Seen(cfg, false, r, a + b) == Seen(cfg, false, f.run, b)
  {
    FeedOn(cfg, false, r, a, b);
    SeenOn(cfg, false, r, a, b);
    if SkippingAfter(cfg, false, r, a) { NotSkipping(cfg, 0, Feed(cfg, false, r, a).run, b); }
  }

  lemma RefusedPrefix(cfg: Settings, r: Run, a: string, b: string)
    requires Feed(cfg, false, r, a).Failed?
    ensures Feed(cfg, false, r, a + b) == Feed(cfg, false, r, a) && Seen(cfg, false, r, a + b) == Seen(cfg, false, r, a)
  {
    SeenFailed(cfg, false, r, a, b);
    FeedOn(cfg, false, r, a, b);
  }

  lemma {:induction false} SeenFailed(cfg: Settings, skipping: bool, r: Run, a: string, b: string)
    requires Feed(cfg, skipping, r, a).Failed?
    ensures Seen(cfg, skipping, r, a + b) == Seen(cfg, skipping, r, a)
    decreases |a|
  {
    hide Consume, SeenAt, View, Skips;
    assert (a + b)[0] == a[0] && (a + b)[1..] == a[1..] + b;
    var s := Consume(View(cfg, skipping), r, a[0]);
    if s.Next? { SeenFailed(cfg, Skips(r.core, a[0]), s.run, a[1..], b); }
  }

  lemma {:induction false} MeterFailed(cfg: Settings, skipping: bool, n: nat, r: Run, a: string, b: string)
    requires Feed(cfg, skipping, r, a).Failed?
    ensures Meter(cfg, skipping, n, r, a + b) == Meter(cfg, skipping, n, r, a)
    decreases |a|
  {
    hide Consume, View, Skips, Counted;
    assert (a + b)[0] == a[0] && (a + b)[1..] == a[1..] + b;
    var s, k := Consume(View(cfg, skipping), r, a[0]), Counted(n, r.core.state);
    if s.Next? { MeterFailed(cfg, Skips(r.core, a[0]), if s.reset then 0 else k, s.run, a[1..], b); }
  }

  /** A call that refuses its buffer reports the error of the machine, and has delivered all
      that was reported before, but perhaps the data under way. */
  lemma RefusedMeans(cfg: Settings, a: Snapshot, data: string, b: Snapshot)
    requires Ready(a) && data != [] && RunsOnce(cfg, a, data, b)
    requires Feed(cfg, false, RunOf(a), data).Failed?
    requires Meter(cfg, false, a.nread, RunOf(a), data).peak <= MAX_HEADER_SIZE
    ensures !b.errno.Ok? && Feed(cfg, false, RunOf(a), data) == Failed(b.errno)
    ensures Kept(b.calls, Seen(cfg, false, RunOf(a), data))
  {
    hide Kept;
    AcceptedMeans(cfg, a, data, b);
    var n: nat :| Executed(cfg, a, data, n, b) && (b.errno.Ok? ==> n == |data|);
  }

  lemma {:induction false} StaysRefused(cfg: Settings, pieces: seq<string>, ss: seq<Snapshot>)
    requires Runs(cfg, ss, pieces) && !ss[0].errno.Ok?
    ensures ss[|ss| - 1] == ss[0]
    decreases |pieces|
  {
    if pieces != [] {
      assert RunsOnce(cfg, ss[0], pieces[0], ss[1]);
      forall i | 0 <= i < |pieces| - 1 ensures RunsOnce(cfg, ss[1..][i], pieces[1..][i], ss[1..][i + 1]) {
        assert RunsOnce(cfg, ss[i + 1], pieces[i + 1], ss[i + 2]);
      }
      StaysRefused(cfg, pieces[1..], ss[1..]);
    }
  }

  /** However it is cut, a stream that is refused is refused with the same error, and after the
      same callbacks, but perhaps for the data under way. */
  lemma {:induction false} RefusedInPieces(cfg: Settings, pieces: seq<string>, ss: seq<Snapshot>)
    requires AllNonEmpty(pieces) && Runs(cfg, ss, pieces) && Ready(ss[0])
    requires ValueBytesLegal(cfg, RunOf(ss[0]), Concat(pieces))
    requires Feed(cfg, false, RunOf(ss[0]), Concat(pieces)).Failed?
    requires Meter(cfg, false, ss[0].nread, RunOf(ss[0]), Concat(pieces)).peak <= MAX_HEADER_SIZE
    ensures var z := ss[|ss| - 1];
        && Feed(cfg, false, RunOf(ss[0]), Concat(pieces)) == Failed(z.errno) && !z.errno.Ok?
        && Kept(z.calls, Seen(cfg, false, RunOf(ss[0]), Concat(pieces)))
    decreases |pieces|
  {
    hide Feed, Seen, Meter, ValueBytesLegal, AllNonEmpty, RunsOnce, Ready, RunOf, UnsafeCut, Kept;
    if pieces == [] {
      NothingRuns(cfg, ss[0].nread, RunOf(ss[0]));
    } else {
      var a, data, rest := ss[0], pieces[0], Concat(pieces[1..]);
      FirstNonEmpty(pieces);
      RunsRest(cfg, ss, pieces);
      if Feed(cfg, false, RunOf(a), data).Failed? {
        RefusedPrefix(cfg, RunOf(a), data, rest);
        MeterFailed(cfg, false, a.nread, RunOf(a), data, rest);
        RefusedMeans(cfg, a, data, ss[1]);
        StaysRefused(cfg, pieces[1..], ss[1..]);
      } else {
        SafeCut(cfg, RunOf(a), data, rest);
        CutMeter(cfg, a.nread, RunOf(a), data, rest);
        AcceptedMeans(cfg, a, data, ss[1]);
        RefusedInPieces(cfg, pieces[1..], ss[1..]);
      }
    }
  }

  /** Split invariance of the parser.  From a ready parser a stream in one buffer is
      accepted exactly when it is accepted in any non-empty pieces, and then record,
      header count and merged trace are the same; if it is refused, error and callbacks
      are, but for data under way.  That is for a stream whose header value bytes are
      legal where they stand. */
  lemma SplitInvariance(cfg: Settings, a: Snapshot, b: Snapshot, pieces: seq<string>, ss: seq<Snapshot>)
    requires Ready(a) && pieces != [] && AllNonEmpty(pieces) && ValueBytesLegal(cfg, RunOf(a), Concat(pieces))
    requires RunsOnce(cfg, a, Concat(pieces), b)
    requires Runs(cfg, ss, pieces) && ss[0] == a
    ensures b.errno.Ok? <==> forall s | s in ss :: s.errno.Ok?
    ensures var z := ss[|ss| - 1];
        b.errno.Ok? ==> z.core == b.core && z.nread == b.nread && Merge(z.calls) == Merge(b.calls)
    ensures var z, tr := ss[|ss| - 1], Seen(cfg, false, RunOf(a), Concat(pieces));
        !b.errno.Ok? && Meter(cfg, false, a.nread, RunOf(a), Concat(pieces)).peak <= MAX_HEADER_SIZE ==>
          z.errno == b.errno && Kept(z.calls, tr) && Kept(b.calls, tr)
  {
    hide Kept, Seen, ValueBytesLegal;
    var data := Concat(pieces);
    assert pieces[0] in pieces && data[0] == pieces[0][0];
    AcceptedMeans(cfg, a, data, b);
    if b.errno.Ok? {
      PiecesAccepted(cfg, RunOf(b), b.nread, pieces, ss);
    } else {
      if forall s | s in ss :: s.errno.Ok? { PiecesMean(cfg, pieces, ss); }
      if Meter(cfg, false, a.nread, RunOf(a), data).peak <= MAX_HEADER_SIZE {
        RefusedMeans(cfg, a, data, b);
        RefusedInPieces(cfg, pieces, ss);
      }
    }
  }

  /** Where that condition fails, a cut in front of an illegal byte of a header value
      turns an accepted stream into a refused one. */
  lemma SplitVariance(cfg: Settings, a: Snapshot, b: Snapshot, data: string, i: nat, ss: seq<Snapshot>)
    requires Ready(a) && 0 < i < |data| && RunsOnce(cfg, a, data, b) && b.errno.Ok?
    requires !LegalAt(cfg, RunOf(a), data, i)
    requires Runs(cfg, ss, [data[..i], data[i..]]) && ss[0] == a
    ensures ss[1].errno.Ok? && ss[2].errno.InvalidHeaderToken?
  {
    var x, y := data[..i], data[i..];
    assert x + y == data;
    AcceptedMeans(cfg, a, data, b);
    CutExact(cfg, RunOf(a), x, y);
    MeterOn(cfg, false, a.nread, RunOf(a), x, y);
    var pieces := [x, y];
    assert RunsOnce(cfg, ss[0], pieces[0], ss[1]);
    AcceptedMeans(cfg, a, x, ss[1]);
    assert RunsOnce(cfg, ss[1], pieces[1], ss[2]);
    RejectedMeter(cfg, ss[1].nread, RunOf(ss[1]), y);
    RejectedMeans(cfg, ss[1], y, ss[2]);
  }

  // ---------------------------------------------------------------- pausing

  /** The reading of consecutive buffers. */
  function MeterAll(cfg: Settings, n: nat, r: Run, pieces: seq<string>): Reading
    decreases |pieces|
  {
    if pieces == [] then Reading(n, n, [])
    else
      var m, f := Meter(cfg, false, n, r, pieces[0]), Feed(cfg, false, r, pieces[0]);
      if f.Failed? then m else Then(m, MeterAll(cfg, m.last, f.run, pieces[1..]))
  }

  lemma {:induction false} MeterAllMono(cfg: Settings, n: nat, n': nat, r: Run, pieces: seq<string>)
    requires n <= n'
    ensures MeterAll(cfg, n, r, pieces).peak <= MeterAll(cfg, n', r, pieces).peak
    decreases |pieces|
  {
    hide Meter, Feed;
    if pieces != [] {
      MeterMono(cfg, false, n, n', r, pieces[0]);
      var f := Feed(cfg, false, r, pieces[0]);
      if f.Fed? {
        var m, m' := Meter(cfg, false, n, r, pieces[0]), Meter(cfg, false, n', r, pieces[0]);
        MeterAllMono(cfg, m.last, m'.last, f.run, pieces[1..]);
      }
    }
  }

  /** With legal header value bytes cutting does not change the reading either. */
  lemma {:induction false} SplitsMeter(cfg: Settings, n: nat, r: Run, pieces: seq<string>)
    requires AllNonEmpty(pieces)
    requires Feed(cfg, false, r, Concat(pieces)).Fed? && ValueBytesLegal(cfg, r, Concat(pieces))
    ensures MeterAll(cfg, n, r, pieces) == Meter(cfg, false, n, r, Concat(pieces))
    decreases |pieces|
  {
    hide Feed, Meter, ValueBytesLegal, UnsafeCut;
    if pieces == [] {
      NothingRuns(cfg, n, r);
    } else {
      var a, b := pieces[0], Concat(pieces[1..]);
      assert forall p | p in pieces[1..] :: p in pieces;
      LegalRest(cfg, r, a, b);
      CutMeter(cfg, n, r, a, b);
      SplitsMeter(cfg, Meter(cfg, false, n, r, a).last, Feed(cfg, false, r, a).run, pieces[1..]);
    }
  }

  /** One call, in which callbacks may pause the parser, and the resumption after it:
      `rest` is what the call did not use. */
  ghost predicate Resumed(cfg: Settings, a: Snapshot, data: string, b: Snapshot, rest: string) {
    exists n: nat, t: Snapshot ::
      && n <= |data| && Executed(cfg, a, data, n, t) && !t.errno.CbFailed?
      && b == (if t.errno.Paused? then t.(errno := Ok) else t) && rest == data[n..]
  }

  /** The buffers still to hand over when the first one has been used but for its rest. */
  function Left(rest: string, more: seq<string>): seq<string> {
    if rest == [] then more else [rest] + more
  }

  ghost predicate Handed(cfg: Settings, a: Snapshot, todo: seq<string>, b: Snapshot, next: seq<string>) {
    todo != [] && exists rest :: Resumed(cfg, a, todo[0], b, rest) && next == Left(rest, todo[1..])
  }

  /** Calls that hand over one buffer after the other, each as often as it takes; `todos`
      are the buffers still to hand over before each call. */
  ghost predicate PausedRun(cfg: Settings, ss: seq<Snapshot>, todos: seq<seq<string>>) {
    && |ss| == |todos| > 0
    && forall i | 0 <= i < |ss| - 1 :: Handed(cfg, ss[i], todos[i], ss[i + 1], todos[i + 1])
  }

  function Effort(s: Snapshot, todo: seq<string>): nat {
    4 * |Concat(todo)| + Rank(s.core.state)
  }

  lemma ResumedMeans(cfg: Settings, a: Snapshot, data: string, b: Snapshot, rest: string)
    requires a.errno.Ok? && data != [] && !Full(a) && Resumed(cfg, a, data, b, rest)
    requires Feed(cfg, false, RunOf(a), data).Fed?
    requires Meter(cfg, false, a.nread, RunOf(a), data).peak <= MAX_HEADER_SIZE
    ensures b.errno.Ok? && Feed(cfg, false, RunOf(b), rest) == Feed(cfg, false, RunOf(a), data)
    ensures var m, m' := Meter(cfg, false, a.nread, RunOf(a), data), Meter(cfg, false, b.nread, RunOf(b), rest);
        m'.peak <= m.peak && m'.last <= m.last
    ensures 4 * |rest| + Rank(b.core.state) < 4 * |data| + Rank(a.core.state)
  {
    hide Feed, Meter, Merge;
  }

  /** A parser that on_headers_complete has paused on full headers cannot be resumed. */
  lemma FullFails(cfg: Settings, a: Snapshot, data: string, b: Snapshot, rest: string)
    requires a.errno.Ok? && data != [] && Full(a) && Resumed(cfg, a, data, b, rest)
    ensures b.errno.HeaderOverflow?
  {
    hide Feed, Meter, RunOf, Full;
  }

  /** What the run is to end as does not change with a call. */
  lemma HandedMeans(cfg: Settings, z: Run, a: Snapshot, todo: seq<string>, b: Snapshot, next: seq<string>)
    requires a.errno.Ok? && AllNonEmpty(todo) && !Full(a) && Handed(cfg, a, todo, b, next)
    requires FeedAll(cfg, RunOf(a), todo) == Fed(z)
    requires MeterAll(cfg, a.nread, RunOf(a), todo).peak <= MAX_HEADER_SIZE
    ensures b.errno.Ok? && AllNonEmpty(next) && FeedAll(cfg, RunOf(b), next) == Fed(z)
    ensures MeterAll(cfg, b.nread, RunOf(b), next).peak <= MAX_HEADER_SIZE
    ensures Effort(b, next) < Effort(a, todo)
  {
    hide Feed, Meter, RunOf, Resumed, Rank, Full;
    var rest :| Resumed(cfg, a, todo[0], b, rest) && next == Left(rest, todo[1..]);
    FirstNonEmpty(todo);
    ResumedMeans(cfg, a, todo[0], b, rest);
    var f, more := Feed(cfg, false, RunOf(a), todo[0]).run, todo[1..];
    var m, m' := Meter(cfg, false, a.nread, RunOf(a), todo[0]), Meter(cfg, false, b.nread, RunOf(b), rest);
    MeterAllMono(cfg, m'.last, m.last, f, more);
    assert forall p | p in more :: p in todo;
    if rest == [] {
      NothingRuns(cfg, b.nread, RunOf(b));
    } else {
      assert next[0] == rest && next[1..] == more;
    }
  }

  lemma HandedFull(cfg: Settings, a: Snapshot, todo: seq<string>, b: Snapshot, next: seq<string>)
    requires a.errno.Ok? && AllNonEmpty(todo) && Full(a) && Handed(cfg, a, todo, b, next)
    ensures !b.errno.Ok?
  {
    hide Resumed, Full;
    var rest :| Resumed(cfg, a, todo[0], b, rest) && next == Left(rest, todo[1..]);
    FirstNonEmpty(todo);
    FullFails(cfg, a, todo[0], b, rest);
  }

  lemma PausedRest(cfg: Settings, ss: seq<Snapshot>, todos: seq<seq<string>>)
    requires |ss| > 1 && PausedRun(cfg, ss, todos)
    ensures PausedRun(cfg, ss[1..], todos[1..]) && Handed(cfg, ss[0], todos[0], ss[1], todos[1])
  {
    hide Handed;
    forall i | 0 <= i < |ss| - 2 ensures Handed(cfg, ss[1..][i], todos[1..][i], ss[1..][i + 1], todos[1..][i + 1]) {
      assert Handed(cfg, ss[i + 1], todos[i + 1], ss[i + 2], todos[i + 2]);
    }
  }

  /** No call but a last one is made on a parser paused on full headers. */
  predicate NeverFull(ss: seq<Snapshot>) {
    forall i | 0 <= i < |ss| - 1 :: !Full(ss[i])
  }

  predicate AllOk(ss: seq<Snapshot>) {
    forall s | s in ss :: s.errno.Ok?
  }

  lemma NeverFullRest(ss: seq<Snapshot>)
    requires |ss| > 1
    ensures NeverFull(ss) <==> !Full(ss[0]) && NeverFull(ss[1..])
    ensures AllOk(ss) <==> ss[0].errno.Ok? && AllOk(ss[1..])
  {
    hide Full;
    assert ss == [ss[0]] + ss[1..];
    if !Full(ss[0]) && NeverFull(ss[1..]) {
      forall i | 0 <= i < |ss| - 1 ensures !Full(ss[i]) { assert i > 0 ==> ss[i] == ss[1..][i - 1]; }
    }
    if NeverFull(ss) {
      forall i | 0 <= i < |ss| - 2 ensures !Full(ss[1..][i]) { assert ss[1..][i] == ss[i + 1]; }
    }
  }

  lemma JustOne(s: Snapshot)
    ensures NeverFull([s]) && (AllOk([s]) <==> s.errno.Ok?)
  {
    assert s in [s];
  }

  /** Pausing is transparent but for one case.  A stream comes in any buffers, which unpaused
      calls would accept; callbacks may pause the parser as often as they like, each call
      being given what the last one left.  No call fails exactly when no call resumes a
      parser that on_headers_complete has paused on headers which fill the limit; and then at
      most four calls a byte (and three more) are needed, and once the bytes are used up
      record and merged trace are those of the unpaused calls. */
  lemma {:induction false} PauseTransparency(cfg: Settings, z: Run, ss: seq<Snapshot>, todos: seq<seq<string>>)
    requires PausedRun(cfg, ss, todos) && ss[0].errno.Ok? && AllNonEmpty(todos[0])
    requires FeedAll(cfg, RunOf(ss[0]), todos[0]) == Fed(z)
    requires MeterAll(cfg, ss[0].nread, RunOf(ss[0]), todos[0]).peak <= MAX_HEADER_SIZE
    ensures AllOk(ss) <==> NeverFull(ss)
    ensures AllOk(ss) ==> |ss| - 1 <= Effort(ss[0], todos[0])
    ensures AllOk(ss) && todos[|ss| - 1] == [] ==> RunOf(ss[|ss| - 1]) == z
    decreases |ss|
  {
    hide *;
    SameLength(cfg, ss, todos);
    if |ss| == 1 {
      assert ss == [ss[0]];
      JustOne(ss[0]);
      if todos[0] == [] { FeedNone(cfg, RunOf(ss[0])); }
    } else {
      PausedRest(cfg, ss, todos);
      NeverFullRest(ss);
      if Full(ss[0]) {
        HandedFull(cfg, ss[0], todos[0], ss[1], todos[1]);
        NotOk(ss);
      } else {
        HandedMeans(cfg, z, ss[0], todos[0], ss[1], todos[1]);
        PauseTransparency(cfg, z, ss[1..], todos[1..]);
      }
    }
  }

  lemma SameLength(cfg: Settings, ss: seq<Snapshot>, todos: seq<seq<string>>)
    requires PausedRun(cfg, ss, todos)
    ensures |ss| == |todos| > 0
  {
  }

  lemma FeedNone(cfg: Settings, r: Run)
    ensures FeedAll(cfg, r, []) == Fed(r)
  {
  }

  lemma NotOk(ss: seq<Snapshot>)
    requires |ss| > 1 && !ss[1].errno.Ok?
    ensures !AllOk(ss)
  {
    assert ss[1] in ss;
  }
}
