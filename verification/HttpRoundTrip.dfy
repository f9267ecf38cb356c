/** The round trip: for every valid request, feeding its text to the machine makes exactly
    the callbacks of the request and leaves the parser ready for the next one. */
module HttpRoundTrip {
  import opened HttpChars
  import opened HttpMachine
  import opened HttpRun
  import opened HttpText
  import opened HttpMessage

  // ---------------------------------------------------------------- framing headers

  function WithLength(c: Core, n: nat): Core {
    c.(flags := c.flags.(contentLength := true), contentLength := n)
  }

  lemma LengthName(cfg: Settings, r: Run, name: string)
    requires r.core.state.HeaderFieldStart? && IsName(name) && LowerName(name) == CONTENT_LENGTH
    ensures Eats(cfg, r, name + ":" + " ", FieldTaken(r, name)) && FieldTaken(r, name).core.headerState.ContentLength?
  {
    NameTracks(name);
    SameWord(CONTENT_LENGTH, LowerName(name));
    FieldEaten(cfg, r, name);
  }

  lemma LengthHeaderEaten(cfg: Settings, r: Run, name: string, n: nat) returns (z: Run)
    requires r.core.state.HeaderFieldStart? && !r.core.flags.contentLength && n <= LENGTH_LIMIT
    requires IsName(name) && LowerName(name) == CONTENT_LENGTH
    ensures EatsTo(cfg, r, RenderHeader(Header(name, DecimalOf(n))), z)
    ensures Alike(z.core, WithLength(r.core, n))
    ensures z.trace == Emit(Emit(r.trace, Data(Field, name)), Data(Value, DecimalOf(n)))
  {
    var d := DecimalOf(n);
    LengthName(cfg, r, name);
    hide Eats;
    var r1 := FieldTaken(r, name);
    var r2 := LengthTaken(r1, d);
    LengthEaten(cfg, r1, n);
    HeaderLineEaten(cfg, r, name, r1, d, r2);
    z := Settled(To(r2, HeaderValueLws));
  }

  lemma LengthEaten(cfg: Settings, r: Run, n: nat)
    requires ExpectsLength(r.core) && n <= LENGTH_LIMIT
    ensures Eats(cfg, r, DecimalOf(n), LengthTaken(r, DecimalOf(n)))
  {
    DigitsOnly(DecimalOf(n));
    LengthExact(cfg, r, DecimalOf(n));
  }

  lemma DigitsOnly(d: string)
    requires IsDigits(d) && d != []
    ensures d[0] != CR && d[0] != LF && d[0] != ' ' && d[0] != TAB
    ensures forall c | c in d :: c != CR && c != LF && c != ' '
  {
    assert d[0] in d;
  }

  function ChunkedSeen(r: Run, i: nat): Run
    requires 1 <= i <= |CHUNKED|
  {
    Run(r.core.(state := HeaderValue, index := i - 1,
                headerState := if i == |CHUNKED| then TransferEncodingChunked else MatchingTransferEncodingChunked),
        Emit(r.trace, Data(Value, CHUNKED[..i])))
  }

  lemma {:induction false} ChunkedSoFar(cfg: Settings, r: Run, i: nat)
    requires r.core.state.HeaderValueDiscardWs? && r.core.headerState.TransferEncoding? && 1 <= i <= |CHUNKED|
    ensures Eats(cfg, r, CHUNKED[..i], ChunkedSeen(r, i))
  {
    hide Eats, ChunkedSeen;
    var ch := CHUNKED[i - 1];
    assert CHUNKED[..i] == CHUNKED[..i - 1] + [ch];
    if i == 1 {
      assert CHUNKED[..1] == [ch] && ch == 'c';
      ChunkedFirst(cfg, r);
    } else {
      ChunkedSoFar(cfg, r, i - 1);
      ChunkedLetter(cfg, r, i);
      EatsThen(cfg, r, CHUNKED[..i - 1], ChunkedSeen(r, i - 1), [ch], ChunkedSeen(r, i));
    }
  }

  lemma ChunkedFirst(cfg: Settings, r: Run)
    requires r.core.state.HeaderValueDiscardWs? && r.core.headerState.TransferEncoding?
    ensures Eats(cfg, r, ['c'], ChunkedSeen(r, 1))
  {
    hide Eats;
    assert CHUNKED[..1] == ['c'];
    Takes(cfg, r, 'c', Dispatch(OptionsAt(cfg, r), r.core, 'c'));
  }

  lemma ChunkedLetter(cfg: Settings, r: Run, i: nat)
    requires 2 <= i <= |CHUNKED|
    ensures Eats(cfg, ChunkedSeen(r, i - 1), [CHUNKED[i - 1]], ChunkedSeen(r, i))
  {
    hide Eats, Emit, Route, MethodName;
    var ch := CHUNKED[i - 1];
    assert CHUNKED[..i] == CHUNKED[..i - 1] + [ch];
    assert 'a' <= ch <= 'z' && Lower(ch) == ch;
    EmitTwice(r.trace, Value, CHUNKED[..i - 1], [ch]);
    var x := ChunkedSeen(r, i - 1);
    Takes(cfg, x, ch, Dispatch(OptionsAt(cfg, x), x.core, ch));
  }

  lemma EncodingName(cfg: Settings, r: Run, name: string)
    requires r.core.state.HeaderFieldStart? && IsName(name) && LowerName(name) == TRANSFER_ENCODING
    ensures Eats(cfg, r, name + ":" + " ", FieldTaken(r, name))
        && FieldTaken(r, name).core.headerState.TransferEncoding?
  {
    NameTracks(name);
    SameWord(TRANSFER_ENCODING, LowerName(name));
    FieldEaten(cfg, r, name);
  }

  lemma ChunkedEaten(cfg: Settings, r: Run)
    requires r.core.state.HeaderValueDiscardWs? && r.core.headerState.TransferEncoding?
    ensures var z := r.core.(state := HeaderValue, index := 6, headerState := TransferEncodingChunked);
        Eats(cfg, r, CHUNKED, Run(z, Emit(r.trace, Data(Value, CHUNKED))))
  {
    ChunkedSoFar(cfg, r, |CHUNKED|);
    assert CHUNKED[..|CHUNKED|] == CHUNKED;
  }

  lemma ChunkedHeaderEaten(cfg: Settings, r: Run, name: string) returns (z: Run)
    requires r.core.state.HeaderFieldStart? && IsName(name) && LowerName(name) == TRANSFER_ENCODING
    ensures EatsTo(cfg, r, RenderHeader(Header(name, CHUNKED)), z)
    ensures Alike(z.core, r.core.(flags := r.core.flags.(chunked := true)))
    ensures z.trace == Emit(Emit(r.trace, Data(Field, name)), Data(Value, CHUNKED))
  {
    EncodingName(cfg, r, name);
    hide Eats;
    var r1 := FieldTaken(r, name);
    ChunkedEaten(cfg, r1);
    var r2 := Run(r1.core.(state := HeaderValue, index := 6, headerState := TransferEncodingChunked),
                  Emit(r1.trace, Data(Value, CHUNKED)));
    HeaderLineEaten(cfg, r, name, r1, CHUNKED, r2);
    z := Settled(To(r2, HeaderValueLws));
  }

  /** The record after the framing header. */
  function FramedCore(c: Core, b: Content): Core {
    match b
    case Nothing => c
    case Sized(_, bytes) => WithLength(c, |bytes|)
    case Chunked(_, _, _, _) => c.(flags := c.flags.(chunked := true))
  }

  lemma FramingEaten(cfg: Settings, r: Run, b: Content) returns (z: Run)
    requires r.core.state.HeaderFieldStart? && !r.core.flags.contentLength && ValidContent(b)
    ensures EatsTo(cfg, r, RenderHeaders(FramingHeaders(b)), z) && Alike(z.core, FramedCore(r.core, b))
    ensures z.trace == EmitAll(r.trace, HeaderEvents(FramingHeaders(b)))
  {
    var hs := FramingHeaders(b);
    if b.Nothing? {
      NothingEaten(cfg, r);
      z := r;
    } else {
      hide EatsTo;
      if b.Sized? {
        z := LengthHeaderEaten(cfg, r, b.name, |b.bytes|);
      } else {
        z := ChunkedHeaderEaten(cfg, r, b.name);
      }
      OneHeader(hs[0]);
      assert hs == [hs[0]];
      EmitTwo(r.trace, Data(Field, hs[0].name), Data(Value, hs[0].value));
    }
  }

  lemma OneHeader(h: Header)
    ensures RenderHeaders([h]) == RenderHeader(h)
    ensures HeaderEvents([h]) == [Data(Field, h.name), Data(Value, h.value)]
  {
    assert [h][1..] == [];
    assert RenderHeader(h) + [] == RenderHeader(h);
  }

  // ---------------------------------------------------------------- the blank line

  /** on_headers_complete lets every body through. */
  ghost predicate TakesBodies(cfg: Settings) {
    forall tr, e :: cfg.verdict(tr, e).WithBody?
  }

  /** No trailer is under way, and the framing is unambiguous. */
  predicate Usual(c: Core) {
    !c.flags.trailing && !c.flags.skipBody && !(c.flags.chunked && c.flags.contentLength)
  }

  /** What on_headers_complete says here. */
  function VerdictAt(cfg: Settings, r: Run): Verdict {
    cfg.verdict(r.trace, HeadersCompleteOf(Announced(r.core)))
  }

  function Announce(r: Run, v: Verdict): Run {
    Run(Answered(Announced(r.core), v), Emit(r.trace, HeadersCompleteOf(Announced(r.core))))
  }

  function Finish(r: Run): Run {
    Run(r.core.(state := NewMessage(r.core)), Emit(r.trace, MessageComplete))
  }

  /** The parser after the blank line. */
  function HeadersOver(r: Run, v: Verdict): Run {
    var a := Announce(r, v);
    if ExitsEarly(a.core) || !v.WithBody? then Finish(a)
    else if r.core.flags.chunked then To(a, ChunkSizeStart)
    else if r.core.contentLength == 0 || r.core.contentLength == ULLONG_MAX then Finish(a)
    else To(a, BodyIdentity)
  }

  lemma BlankLineEaten(cfg: Settings, r: Run)
    requires r.core.state.HeaderFieldStart? && Usual(r.core)
    ensures var v := VerdictAt(cfg, r);
        EatsLast(cfg, r, CRLF, HeadersOver(r, v), ExitsEarly(Announce(r, v).core))
  {
    hide Eats, EatsLast, Emit;
    var r1, v := To(r, HeadersAlmostDone), VerdictAt(cfg, r);
    Moves(cfg, r, CR, HeadersAlmostDone);
    HeadersOverAfter(cfg, r1);
    EatsThenLast(cfg, r, [CR], r1, [LF], HeadersOver(r, v), ExitsEarly(Announce(r, v).core));
    assert CRLF == [CR] + [LF];
  }

  lemma HeadersOverAfter(cfg: Settings, r: Run)
    requires r.core.state.HeadersAlmostDone? && Usual(r.core)
    ensures var v := VerdictAt(cfg, r);
        EatsLast(cfg, r, [LF], HeadersOver(r, v), ExitsEarly(Announce(r, v).core))
  {
    hide EatsLast, Emit, Dispatch, HasBody, Consume, LeavesAt;
    HeadersAnnounced(cfg, r);
    HeadersLeft(cfg, Announce(r, VerdictAt(cfg, r)));
    EatsLastChar(cfg, r, LF, HeadersOver(r, VerdictAt(cfg, r)), true);
  }

  lemma HeadersAnnounced(cfg: Settings, r: Run)
    requires r.core.state.HeadersAlmostDone? && Usual(r.core)
    ensures Consume(cfg, r, LF) == Consume(cfg, Announce(r, VerdictAt(cfg, r)), LF)
    ensures LeavesAt(cfg, r, LF) == LeavesAt(cfg, Announce(r, VerdictAt(cfg, r)), LF)
  {
    var o := Dispatch(OptionsAt(cfg, r), r.core, LF);
    assert o.Move? && o.again && After(r, o) == Announce(r, VerdictAt(cfg, r));
  }

  lemma HeadersLeft(cfg: Settings, a: Run)
    requires a.core.state.HeadersDone?
    ensures Consume(cfg, a, LF) ==
            Next(if ExitsEarly(a.core) || a.core.flags.skipBody then Finish(a)
                 else if a.core.flags.chunked then To(a, ChunkSizeStart)
                 else if a.core.contentLength == 0 || a.core.contentLength == ULLONG_MAX then Finish(a)
                 else To(a, BodyIdentity), true)
    ensures LeavesAt(cfg, a, LF) == ExitsEarly(a.core)
  {
  }

  // ---------------------------------------------------------------- a body of known length

  function BodyTaken(r: Run, s: string): Run
    requires |s| <= r.core.contentLength
  {
    Run(r.core.(contentLength := r.core.contentLength - |s|), if s == [] then r.trace else Emit(r.trace, Data(Body, s)))
  }

  lemma BodyChar(cfg: Settings, r: Run, ch: char)
    requires (r.core.state.BodyIdentity? || r.core.state.ChunkData?) && r.core.contentLength > 1
    ensures Eats(cfg, r, [ch], BodyTaken(r, [ch]))
  {
    EatsChar(cfg, r, ch, BodyTaken(r, [ch]), false);
  }

  lemma {:induction false} BodySoFar(cfg: Settings, r: Run, s: string)
    requires (r.core.state.BodyIdentity? || r.core.state.ChunkData?) && |s| < r.core.contentLength
    ensures Eats(cfg, r, s, BodyTaken(r, s))
    decreases |s|
  {
    if s != [] {
      var n := |s| - 1;
      var v, ch := s[..n], s[n];
      assert s == v + [ch];
      BodySoFar(cfg, r, v);
      BodyChar(cfg, BodyTaken(r, v), ch);
      EmitTwice(r.trace, Body, v, [ch]);
      assert v == [] ==> s == [ch];
      EatsThen(cfg, r, v, BodyTaken(r, v), [ch], BodyTaken(r, s));
    }
  }

  lemma MessageEnds(cfg: Settings, x: Run, ch: char)
    requires x.core.state.MessageDone?
    ensures Consume(cfg, x, ch) == Next(Finish(x), false) && LeavesAt(cfg, x, ch) == x.core.upgrade
  {
  }

  lemma LastChar(cfg: Settings, r: Run, ch: char)
    requires r.core.state.BodyIdentity? && r.core.contentLength == 1
    ensures EatsLast(cfg, r, [ch], Finish(BodyTaken(r, [ch])), r.core.upgrade)
  {
    hide EatsLast, Emit;
    var o := Dispatch(OptionsAt(cfg, r), r.core, ch);
    var x := To(BodyTaken(r, [ch]), MessageDone);
    assert o.Move? && o.again && After(r, o) == x;
    MessageEnds(cfg, x, ch);
    assert LeavesAt(cfg, r, ch) == LeavesAt(cfg, x, ch);
    EatsLastChar(cfg, r, ch, Finish(x), false);
  }

  lemma BodyEaten(cfg: Settings, r: Run, s: string)
    requires r.core.state.BodyIdentity? && |s| == r.core.contentLength > 0
    ensures EatsLast(cfg, r, s, Finish(BodyTaken(r, s)), r.core.upgrade)
  {
    hide Eats, EatsLast;
    var n := |s| - 1;
    var v, ch := s[..n], s[n];
    assert s == v + [ch];
    BodySoFar(cfg, r, v);
    LastChar(cfg, BodyTaken(r, v), ch);
    EmitTwice(r.trace, Body, v, [ch]);
    assert v == [] ==> s == [ch];
    EatsThenLast(cfg, r, v, BodyTaken(r, v), [ch], Finish(BodyTaken(r, s)), r.core.upgrade);
  }

  // ---------------------------------------------------------------- the chunked coding

  lemma LastOfChunkEaten(cfg: Settings, r: Run, ch: char)
    requires r.core.state.ChunkData? && r.core.contentLength == 1
    ensures Eats(cfg, r, [ch], To(BodyTaken(r, [ch]), ChunkDataAlmostDone))
  {
    EatsChar(cfg, r, ch, To(BodyTaken(r, [ch]), ChunkDataAlmostDone), false);
  }

  lemma ChunkDataEaten(cfg: Settings, r: Run, s: string)
    requires r.core.state.ChunkData? && |s| == r.core.contentLength > 0
    ensures Eats(cfg, r, s, To(BodyTaken(r, s), ChunkDataAlmostDone))
  {
    var n := |s| - 1;
    var v, ch := s[..n], s[n];
    assert s == v + [ch];
    BodySoFar(cfg, r, v);
    LastOfChunkEaten(cfg, BodyTaken(r, v), ch);
    EmitTwice(r.trace, Body, v, [ch]);
    assert v == [] ==> s == [ch];
    EatsThen(cfg, r, v, BodyTaken(r, v), [ch], To(BodyTaken(r, s), ChunkDataAlmostDone));
  }

  lemma ChunkEndEaten(cfg: Settings, r: Run)
    requires r.core.state.ChunkDataAlmostDone?
    ensures Eats(cfg, r, CRLF, Run(To(r, ChunkSizeStart).core, Emit(r.trace, ChunkComplete)))
  {
    hide Eats;
    var r1, r2 := To(r, ChunkDataDone), Run(To(r, ChunkSizeStart).core, Emit(r.trace, ChunkComplete));
    Moves(cfg, r, CR, ChunkDataDone);
    Takes(cfg, r1, LF, Dispatch(OptionsAt(cfg, r1), r1.core, LF));
    EatsThen(cfg, r, [CR], r1, [LF], r2);
    assert CRLF == [CR] + [LF];
  }

  lemma HexOnly(n: nat)
    ensures forall c | c in HexOf(n) :: c != CR && c != ';' && c != ' '
  {
  }

  lemma SizeEaten(cfg: Settings, r: Run, n: nat)
    requires r.core.state.ChunkSizeStart? && n <= SIZE_LIMIT
    ensures Eats(cfg, r, HexOf(n), r.(core := r.core.(state := ChunkSize, contentLength := n)))
  {
    HexOnly(n);
    SizeExact(cfg, r, HexOf(n));
  }

  lemma {:induction false} ParametersRest(cfg: Settings, r: Run, s: string)
    requires r.core.state.ChunkParameters? && CR !in s
    ensures Eats(cfg, r, s + [CR], To(r, ChunkSizeAlmostDone))
    decreases |s|
  {
    if s == [] {
      assert s + [CR] == [CR];
      Moves(cfg, r, CR, ChunkSizeAlmostDone);
    } else {
      assert s[0] in s && s + [CR] == [s[0]] + (s[1..] + [CR]);
      assert To(r, ChunkParameters) == r;
      Moves(cfg, r, s[0], ChunkParameters);
      ParametersRest(cfg, r, s[1..]);
      EatsThen(cfg, r, [s[0]], r, s[1..] + [CR], To(r, ChunkSizeAlmostDone));
    }
  }

  lemma ParametersEaten(cfg: Settings, r: Run, s: string)
    requires r.core.state.ChunkSize? && ValidParameters(s)
    ensures Eats(cfg, r, s + [CR], To(r, ChunkSizeAlmostDone))
  {
    if s == [] {
      assert s + [CR] == [CR];
      Moves(cfg, r, CR, ChunkSizeAlmostDone);
    } else {
      assert s + [CR] == [s[0]] + (s[1..] + [CR]);
      Moves(cfg, r, s[0], ChunkParameters);
      ParametersRest(cfg, To(r, ChunkParameters), s[1..]);
      EatsThen(cfg, r, [s[0]], To(r, ChunkParameters), s[1..] + [CR], To(r, ChunkSizeAlmostDone));
    }
  }

  /** The parser after a chunk header: in the chunk, or in the trailer. */
  function ChunkBegun(r: Run, n: nat): Run {
    Run(if n == 0 then r.core.(state := HeaderFieldStart, contentLength := 0, flags := r.core.flags.(trailing := true))
        else r.core.(state := ChunkData, contentLength := n),
        Emit(r.trace, ChunkHeader(n)))
  }

  lemma ChunkHeaderEaten(cfg: Settings, r: Run, size: string, n: nat, parameters: string)
    requires r.core.state.ChunkSizeStart? && ValidParameters(parameters)
    requires Eats(cfg, r, size, r.(core := r.core.(state := ChunkSize, contentLength := n)))
    ensures Eats(cfg, r, size + (parameters + CRLF), ChunkBegun(r, n))
  {
    var r1 := r.(core := r.core.(state := ChunkSize, contentLength := n));
    var r2 := To(r1, ChunkSizeAlmostDone);
    ParametersEaten(cfg, r1, parameters);
    ChunkHeaderEnd(cfg, r2, ChunkBegun(r, n));
    hide Eats;
    EatsThen(cfg, r1, parameters + [CR], r2, [LF], ChunkBegun(r, n));
    assert parameters + [CR] + [LF] == parameters + CRLF;
    EatsThen(cfg, r, size, r1, parameters + CRLF, ChunkBegun(r, n));
  }

  lemma ChunkHeaderEnd(cfg: Settings, r: Run, z: Run)
    requires r.core.state.ChunkSizeAlmostDone?
    requires z == ChunkBegun(r, r.core.contentLength)
    ensures Eats(cfg, r, [LF], z)
  {
    hide Eats, RequestLine, FieldLine, ValueLine, AfterHeaders, TargetChar;
    EatsChar(cfg, r, LF, z, true);
  }

  /** Equal but for the length of the chunk just read. */
  predicate SameButLength(c: Core, d: Core) {
    c == d.(contentLength := c.contentLength)
  }

  lemma ChunkEaten(cfg: Settings, r: Run, k: Chunk) returns (z: Run)
    requires r.core.state.ChunkSizeStart? && ValidChunk(k)
    ensures Eats(cfg, r, RenderChunk(k), z) && SameButLength(z.core, r.core)
    ensures z.trace == EmitAll(r.trace, ChunkEvents([k]))
  {
    var n := |k.bytes|;
    SizeEaten(cfg, r, n);
    ChunkHeaderEaten(cfg, r, HexOf(n), n, k.parameters);
    var r1 := ChunkBegun(r, n);
    ChunkDataEaten(cfg, r1, k.bytes);
    var r2 := To(BodyTaken(r1, k.bytes), ChunkDataAlmostDone);
    ChunkEndEaten(cfg, r2);
    hide Eats;
    z := Run(To(r2, ChunkSizeStart).core, Emit(r2.trace, ChunkComplete));
    EatsThen(cfg, r1, k.bytes, r2, CRLF, z);
    EatsThen(cfg, r, HexOf(n) + (k.parameters + CRLF), r1, k.bytes + CRLF, z);
    OneChunk(r.trace, k);
  }

  lemma OneChunk(tr: Trace, k: Chunk)
    ensures EmitAll(tr, ChunkEvents([k])) ==
            Emit(Emit(Emit(tr, ChunkHeader(|k.bytes|)), Data(Body, k.bytes)), ChunkComplete)
  {
    var es := [ChunkHeader(|k.bytes|), Data(Body, k.bytes), ChunkComplete];
    assert [k][1..] == [] && ChunkEvents([k]) == es + [] == es;
    assert es == [es[0], es[1]] + [es[2]];
    EmitAllConcat(tr, [es[0], es[1]], [es[2]]);
    EmitTwo(tr, es[0], es[1]);
    EmitOne(Emit(Emit(tr, es[0]), es[1]), es[2]);
  }

  lemma FirstChunk(tr: Trace, ks: seq<Chunk>)
    requires ks != []
    ensures EmitAll(tr, ChunkEvents(ks)) == EmitAll(EmitAll(tr, ChunkEvents([ks[0]])), ChunkEvents(ks[1..]))
  {
    assert [ks[0]][1..] == [];
    assert ChunkEvents(ks) == ChunkEvents([ks[0]]) + ChunkEvents(ks[1..]);
    EmitAllConcat(tr, ChunkEvents([ks[0]]), ChunkEvents(ks[1..]));
  }

  lemma {:induction false} ChunksEaten(cfg: Settings, r: Run, ks: seq<Chunk>) returns (z: Run)
    requires r.core.state.ChunkSizeStart? && forall k | k in ks :: ValidChunk(k)
    ensures Eats(cfg, r, RenderChunks(ks), z) && SameButLength(z.core, r.core)
    ensures z.trace == EmitAll(r.trace, ChunkEvents(ks))
    decreases |ks|
  {
    if ks == [] {
      z := r;
    } else {
      hide Eats;
      assert ks[0] in ks && forall k | k in ks[1..] :: k in ks;
      var y := ChunkEaten(cfg, r, ks[0]);
      z := ChunksEaten(cfg, y, ks[1..]);
      EatsThen(cfg, r, RenderChunk(ks[0]), y, RenderChunks(ks[1..]), z);
      FirstChunk(r.trace, ks);
    }
  }

  lemma ZeroEaten(cfg: Settings, r: Run)
    requires r.core.state.ChunkSizeStart?
    ensures Eats(cfg, r, "0", r.(core := r.core.(state := ChunkSize, contentLength := 0)))
  {
    EatsChar(cfg, r, '0', r.(core := r.core.(state := ChunkSize, contentLength := 0)), false);
  }

  lemma TrailerOver(cfg: Settings, r: Run, z: Run)
    requires r.core.state.HeadersAlmostDone? && r.core.flags.trailing
    requires z == Finish(r.(trace := Emit(r.trace, ChunkComplete)))
    ensures EatsLast(cfg, r, [LF], z, r.core.upgrade)
  {
    hide EatsLast, Emit;
    var r2 := Run(To(r, MessageDone).core, Emit(r.trace, ChunkComplete));
    var o := Dispatch(OptionsAt(cfg, r), r.core, LF);
    assert o.Move? && o.again && After(r, o) == r2;
    MessageEnds(cfg, r2, LF);
    assert LeavesAt(cfg, r, LF) == LeavesAt(cfg, r2, LF);
    EatsLastChar(cfg, r, LF, z, false);
  }

  lemma TrailerEndEaten(cfg: Settings, r: Run)
    requires r.core.state.HeaderFieldStart? && r.core.flags.trailing
    ensures EatsLast(cfg, r, CRLF, Finish(r.(trace := Emit(r.trace, ChunkComplete))), r.core.upgrade)
  {
    hide Eats, EatsLast;
    var r1, z := To(r, HeadersAlmostDone), Finish(r.(trace := Emit(r.trace, ChunkComplete)));
    Moves(cfg, r, CR, HeadersAlmostDone);
    TrailerOver(cfg, r1, z);
    EatsThenLast(cfg, r, [CR], r1, [LF], z, r.core.upgrade);
    assert CRLF == [CR] + [LF];
  }

  // ---------------------------------------------------------------- contents

  /** What the headers have told the parser about the content. */
  predicate Framed(c: Core, b: Content) {
    match b
    case Nothing => !c.flags.chunked && c.contentLength == ULLONG_MAX
    case Sized(_, bytes) => !c.flags.chunked && c.contentLength == |bytes|
    case Chunked(_, _, _, _) => c.flags.chunked
  }

  lemma NothingMore(cfg: Settings, r: Run)
    ensures Eats(cfg, r, [], r)
  {
  }

  lemma ContentEaten(cfg: Settings, y: Run, b: Content) returns (z: Run)
    requires y.core.state.HeaderFieldStart? && Usual(y.core) && Framed(y.core, b) && ValidContent(b)
    requires y.core.verb.CONNECT? ==> b.Nothing?
    ensures EatsLast(cfg, HeadersOver(y, WithBody), RenderContent(b), z,
                     Announced(y.core).upgrade && !ExitsEarly(Announced(y.core)))
    ensures z.core.state == NewMessage(y.core) && z.core.upgrade == Announced(y.core).upgrade
    ensures z.trace == EmitAll(Announce(y, WithBody).trace, ContentEvents(b) + [MessageComplete])
  {
    var tr := Announce(y, WithBody).trace;
    if b.Chunked? {
      z := ChunkedContentEaten(cfg, To(Announce(y, WithBody), ChunkSizeStart), b);
    } else if b.Sized? && b.bytes != [] {
      var a := To(Announce(y, WithBody), BodyIdentity);
      BodyEaten(cfg, a, b.bytes);
      z := Finish(BodyTaken(a, b.bytes));
      assert ContentEvents(b) + [MessageComplete] == [Data(Body, b.bytes), MessageComplete];
      EmitTwo(tr, Data(Body, b.bytes), MessageComplete);
    } else {
      z := HeadersOver(y, WithBody);
      NothingMore(cfg, z);
      assert ContentEvents(b) + [MessageComplete] == [MessageComplete];
      EmitOne(tr, MessageComplete);
    }
  }

  lemma ChunkedContentEaten(cfg: Settings, r: Run, b: Content) returns (z: Run)
    requires r.core.state.ChunkSizeStart? && b.Chunked? && ValidContent(b)
    ensures EatsLast(cfg, r, RenderContent(b), z, r.core.upgrade)
    ensures z.core.state == NewMessage(r.core) && z.core.upgrade == r.core.upgrade
    ensures z.trace == EmitAll(r.trace, ContentEvents(b) + [MessageComplete])
  {
    hide Eats, EatsLast, EatsTo;
    var y := ChunksEaten(cfg, r, b.chunks);
    ZeroEaten(cfg, y);
    ChunkHeaderEaten(cfg, y, "0", 0, b.last);
    var t := ChunkBegun(y, 0);
    TrailersPlain(b.trailers);
    var u := HeadersEaten(cfg, t, b.trailers);
    z := Finish(u.(trace := Emit(u.trace, ChunkComplete)));
    TrailerEndEaten(cfg, u);
    EatsToLast(cfg, t, RenderHeaders(b.trailers), u, CRLF, z, r.core.upgrade);
    EatsThenLast(cfg, y, "0" + (b.last + CRLF), t, RenderHeaders(b.trailers) + CRLF, z, r.core.upgrade);
    EatsThenLast(cfg, r, RenderChunks(b.chunks), y, "0" + (b.last + CRLF) + (RenderHeaders(b.trailers) + CRLF), z,
                 r.core.upgrade);
    ContentTrace(r.trace, b);
  }

  lemma ContentTrace(tr: Trace, b: Content)
    requires b.Chunked?
    ensures EmitAll(tr, ContentEvents(b) + [MessageComplete]) ==
            Emit(Emit(EmitAll(Emit(EmitAll(tr, ChunkEvents(b.chunks)), ChunkHeader(0)), HeaderEvents(b.trailers)),
                      ChunkComplete), MessageComplete)
  {
    var ks, hs := ChunkEvents(b.chunks), HeaderEvents(b.trailers);
    assert ContentEvents(b) + [MessageComplete] == ks + ([ChunkHeader(0)] + (hs + [ChunkComplete, MessageComplete]));
    EmitAllConcat(tr, ks, [ChunkHeader(0)] + (hs + [ChunkComplete, MessageComplete]));
    var t := EmitAll(tr, ks);
    EmitAllConcat(t, [ChunkHeader(0)], hs + [ChunkComplete, MessageComplete]);
    EmitOne(t, ChunkHeader(0));
    EmitAllConcat(Emit(t, ChunkHeader(0)), hs, [ChunkComplete, MessageComplete]);
    EmitTwo(EmitAll(Emit(t, ChunkHeader(0)), hs), ChunkComplete, MessageComplete);
  }

  // ---------------------------------------------------------------- whole requests

  lemma {:induction false} RenderHeadersConcat(a: seq<Header>, b: seq<Header>)
    ensures RenderHeaders(a + b) == RenderHeaders(a) + RenderHeaders(b)
    ensures HeaderEvents(a + b) == HeaderEvents(a) + HeaderEvents(b)
    decreases |a|
  {
    if a == [] {
      assert a + b == b;
    } else {
      assert (a + b)[0] == a[0] && (a + b)[1..] == a[1..] + b;
      RenderHeadersConcat(a[1..], b);
    }
  }

  /** The record after all header lines of a request. */
  function HeadersCore(c: Core, q: Request): Core {
    Marked(FramedCore(c, q.content), q.before + q.after)
  }

  /** Framing and marking do not touch the same fields. */
  lemma FramedMarked(c: Core, x: Core, y: Core, hs: seq<Header>, b: Content)
    requires Alike(x, Marked(c, hs)) && Alike(y, FramedCore(x, b))
    ensures Alike(y, Marked(FramedCore(c, b), hs))
  {
    hide Keeps, Closes, Upgrading, Protocols;
    if b.Nothing? {
    } else if b.Sized? {
      var d := WithLength(c, |b.bytes|);
      assert y.flags == Marked(d, hs).flags;
    } else {
      var d := c.(flags := c.flags.(chunked := true));
      assert y.flags == Marked(d, hs).flags;
    }
  }

  lemma CoresFollow(c: Core, x: Core, y: Core, z: Core, q: Request)
    requires Alike(x, Marked(c, q.before)) && Alike(y, FramedCore(x, q.content)) && Alike(z, Marked(y, q.after))
    ensures Alike(z, HeadersCore(c, q))
  {
    hide Alike, Marked, FramedCore, Keeps, Closes, Upgrading, Protocols;
    FramedMarked(c, x, y, q.before, q.content);
    MarkedOn(FramedCore(c, q.content), y, z, q.before, q.after);
  }

  lemma FramedStarts(x: Core, y: Core, b: Content)
    requires Alike(y, FramedCore(x, b))
    ensures y.state == x.state
  {
  }

  lemma ThreeEvents(tr: Trace, a: seq<Header>, f: seq<Header>, b: seq<Header>)
    ensures RenderHeaders(a + f + b) == RenderHeaders(a) + RenderHeaders(f) + RenderHeaders(b)
    ensures EmitAll(tr, HeaderEvents(a + f + b)) ==
            EmitAll(EmitAll(EmitAll(tr, HeaderEvents(a)), HeaderEvents(f)), HeaderEvents(b))
  {
    RenderHeadersConcat(a, f);
    RenderHeadersConcat(a + f, b);
    EmitAllConcat(tr, HeaderEvents(a), HeaderEvents(f));
    EmitAllConcat(tr, HeaderEvents(a + f), HeaderEvents(b));
  }

  /** All header lines of a request. */
  lemma AllHeadersEaten(cfg: Settings, r: Run, q: Request) returns (z: Run)
    requires r.core.state.HeaderFieldStart? && !r.core.flags.contentLength && ValidRequest(q)
    ensures EatsTo(cfg, r, RenderHeaders(q.before + FramingHeaders(q.content) + q.after), z)
    ensures Alike(z.core, HeadersCore(r.core, q)) && z.core.state.HeaderFieldStart?
    ensures z.trace == EmitAll(r.trace, HeaderEvents(q.before + FramingHeaders(q.content) + q.after))
  {
    hide EatsTo, PlainHeader, Marked, FramedCore, HeadersCore, Alike, NoBlankFirst, RenderHeaders, HeaderEvents,
      EmitAll;
    var a, f, b := q.before, FramingHeaders(q.content), q.after;
    var x := HeadersEaten(cfg, r, a);
    MarkedStarts(r.core, x.core, a);
    var y := FramingEaten(cfg, x, q.content);
    FramedStarts(x.core, y.core, q.content);
    z := HeadersEaten(cfg, y, b);
    CoresFollow(r.core, x.core, y.core, z.core, q);
    if f != [] { HeadersNoBlank(f); }
    if b != [] { assert b[0] in b; PlainNamed(b[0]); HeadersNoBlank(b); }
    NoHeaders(f);
    NoHeaders(b);
    EatsToThen(cfg, r, RenderHeaders(a), x, RenderHeaders(f), y);
    EatsToThen(cfg, r, RenderHeaders(a) + RenderHeaders(f), y, RenderHeaders(b), z);
    ThreeEvents(r.trace, a, f, b);
  }

  lemma NoHeaders(hs: seq<Header>)
    ensures hs == [] ==> RenderHeaders(hs) == []
  {
  }

  lemma EventsTrace(tr: Trace, q: Request)
    ensures EmitAll(tr, HeadEvents(q)) ==
            EmitAll(EmitAll(tr, [MessageBegin, Data(Url, q.target)]),
                    HeaderEvents(q.before + FramingHeaders(q.content) + q.after))
    ensures EmitAll(tr, Events(q)) ==
            EmitAll(Emit(EmitAll(tr, HeadEvents(q)), HeadersCompleteFor(q)),
                    ContentEvents(q.content) + [MessageComplete])
    ensures EmitAll(tr, HeadEvents(q) + [HeadersCompleteFor(q), MessageComplete]) ==
            Emit(Emit(EmitAll(tr, HeadEvents(q)), HeadersCompleteFor(q)), MessageComplete)
  {
    var done, rest := [HeadersCompleteFor(q)], ContentEvents(q.content) + [MessageComplete];
    EmitAllConcat(tr, [MessageBegin, Data(Url, q.target)],
                  HeaderEvents(q.before + FramingHeaders(q.content) + q.after));
    EmitAllConcat(tr, HeadEvents(q), done + rest);
    EmitAllConcat(EmitAll(tr, HeadEvents(q)), done, rest);
    EmitOne(EmitAll(tr, HeadEvents(q)), done[0]);
    EmitAllConcat(tr, HeadEvents(q), [HeadersCompleteFor(q), MessageComplete]);
    EmitTwo(EmitAll(tr, HeadEvents(q)), HeadersCompleteFor(q), MessageComplete);
  }

  /** What on_headers_complete says about the request, after the callbacks `tr`. */
  function VerdictFor(cfg: Settings, tr: Trace, q: Request): Verdict {
    cfg.verdict(EmitAll(tr, HeadEvents(q)), HeadersCompleteFor(q))
  }

  /** The parser after the line and the headers of a request. */
  ghost predicate Headed(y: Run, r: Run, q: Request) {
    && y.core.state.HeaderFieldStart? && Usual(y.core) && Framed(y.core, q.content) && y.core.verb == q.verb
    && y.trace == EmitAll(r.trace, HeadEvents(q)) && HeadersCompleteOf(Announced(y.core)) == HeadersCompleteFor(q)
    && NewMessage(y.core) == if StaysOpen(q) then StartReq else Dead
  }

  lemma HeadLinesEaten(cfg: Settings, r: Run, q: Request) returns (y: Run)
    requires r.core.state.StartReq? && ValidRequest(q)
    ensures Headed(y, r, q)
    ensures var v := VerdictFor(cfg, r.trace, q);
        EatsLast(cfg, r, RenderHead(q), HeadersOver(y, v), ExitsEarly(Announce(y, v).core))
  {
    hide Eats, EatsLast, EatsTo, HeadersOver, ExitsEarly, HeadersCore, Upgrades, StaysOpen, ValidContent, NewMessage;
    var r1 := LineTaken(r, q);
    RequestLineEaten(cfg, r, q);
    y := AllHeadersEaten(cfg, r1, q);
    EventsTrace(r.trace, q);
    HeadersTold(r1, y, q);
    var v := VerdictFor(cfg, r.trace, q);
    BlankLineEaten(cfg, y);
    var hs := RenderHeaders(q.before + FramingHeaders(q.content) + q.after);
    EatsToLast(cfg, r1, hs, y, CRLF, HeadersOver(y, v), ExitsEarly(Announce(y, v).core));
    EatsThenLast(cfg, r, RenderLine(q), r1, hs + CRLF, HeadersOver(y, v), ExitsEarly(Announce(y, v).core));
  }

  lemma HeadersTold(r1: Run, y: Run, q: Request)
    requires Alike(y.core, HeadersCore(r1.core, q)) && y.core.state.HeaderFieldStart?
    requires r1.core.flags == NO_FLAGS && r1.core.contentLength == ULLONG_MAX
    requires r1.core.verb == q.verb && r1.core.major == q.major && r1.core.minor == q.minor && ValidContent(q.content)
    ensures Usual(y.core) && Framed(y.core, q.content) && y.core.verb == q.verb
    ensures HeadersCompleteOf(Announced(y.core)) == HeadersCompleteFor(q)
    ensures NewMessage(y.core) == if StaysOpen(q) then StartReq else Dead
  {
    hide Keeps, Closes, Upgrading, Protocols;
  }

  /** The round trip.  The text of a valid request is consumed; the callbacks it adds are
      exactly the events of the request, in order and with all their data; and the parser
      is then ready for the next request, or dead if version and Connection headers do not
      keep the connection open, and has been told whether the connection is upgraded. */
  lemma RequestParsed(cfg: Settings, r: Run, q: Request) returns (z: Run)
    requires r.core.state.StartReq? && ValidRequest(q) && VerdictFor(cfg, r.trace, q).WithBody?
    ensures EatsLast(cfg, r, Render(q), z, Upgrades(q))
    ensures z.trace == EmitAll(r.trace, Events(q))
    ensures z.core.state == (if StaysOpen(q) then StartReq else Dead) && z.core.upgrade == Upgrades(q)
  {
    hide Eats, EatsLast;
    var y := HeadLinesEaten(cfg, r, q);
    EventsTrace(r.trace, q);
    z := ContentEaten(cfg, y, q.content);
    if ExitsEarly(Announced(y.core)) {
      NoContent(y.core, q.content);
      assert Render(q) == RenderHead(q);
      z := HeadersOver(y, WithBody);
      OnlyMessageEnd(Announce(y, WithBody).trace, q.content);
    } else {
      EatsHere(cfg, r, RenderHead(q), HeadersOver(y, WithBody));
      EatsThenLast(cfg, r, RenderHead(q), HeadersOver(y, WithBody), RenderContent(q.content), z, Upgrades(q));
    }
  }

  lemma EatsHere(cfg: Settings, r: Run, s: string, z: Run)
    ensures EatsLast(cfg, r, s, z, false) <==> Eats(cfg, r, s, z)
  {
  }

  lemma NoContent(c: Core, b: Content)
    requires ExitsEarly(Announced(c)) && Framed(c, b) && ValidContent(b) && (c.verb.CONNECT? ==> b.Nothing?)
    requires !c.flags.skipBody
    ensures RenderContent(b) == [] && ContentEvents(b) == []
  {
  }

  lemma OnlyMessageEnd(tr: Trace, b: Content)
    requires ContentEvents(b) == []
    ensures EmitAll(tr, ContentEvents(b) + [MessageComplete]) == Emit(tr, MessageComplete)
  {
    assert [] + [MessageComplete] == [MessageComplete];
    EmitOne(tr, MessageComplete);
  }

  /** If on_headers_complete says that there is no body, the message is complete with its head,
      whatever the headers announce. */
  lemma HeadParsed(cfg: Settings, r: Run, q: Request) returns (z: Run)
    requires r.core.state.StartReq? && ValidRequest(q) && !VerdictFor(cfg, r.trace, q).WithBody?
    ensures EatsLast(cfg, r, RenderHead(q), z, z.core.upgrade)
    ensures z.trace == EmitAll(r.trace, HeadEvents(q) + [HeadersCompleteFor(q), MessageComplete])
    ensures z.core.state == if StaysOpen(q) then StartReq else Dead
    ensures z.core.upgrade == (Upgrades(q) || VerdictFor(cfg, r.trace, q).NoBodyUpgrade?)
  {
    hide EatsLast;
    var y := HeadLinesEaten(cfg, r, q);
    z := HeadersOver(y, VerdictFor(cfg, r.trace, q));
    EventsTrace(r.trace, q);
  }

  // ---------------------------------------------------------------- a closed connection

  predicate OnlyLineEnds(x: string) { forall c | c in x :: c == '\r' || c == '\n' }

  /** Behind a request that closes the connection nothing but line ends is accepted. */
  lemma {:induction false} DeadFeeds(cfg: Settings, r: Run, x: string)
    requires r.core.state.Dead?
    ensures if OnlyLineEnds(x) then Eats(cfg, r, x, r)
            else Feed(cfg, false, r, x) == Failed(ClosedConnection) && Seen(cfg, false, r, x) == r.trace
                 && Checked(cfg, r, x)
    decreases |x|
  {
    hide Consume, LeavesAt, SeenAt, Skips, Rejects;
    if x == [] {
      NothingMore(cfg, r);
    } else {
      assert x == [x[0]] + x[1..] && x[0] in x;
      DeadFeeds(cfg, r, x[1..]);
      DeadByte(cfg, r, x[0]);
      assert View(cfg, false) == cfg;
      if x[0] == '\r' || x[0] == '\n' {
        assert forall c | c in x :: c == x[0] || c in x[1..];
        assert forall c | c in x[1..] :: c in x;
        if OnlyLineEnds(x) { EatsChar(cfg, r, x[0], r, false); EatsThen(cfg, r, [x[0]], r, x[1..], r); }
      }
    }
  }

  lemma DeadByte(cfg: Settings, r: Run, ch: char)
    requires r.core.state.Dead?
    ensures !Skips(r.core, ch) && !Rejects(cfg, r.core, ch) && !LeavesAt(cfg, r, ch)
    ensures if ch == '\r' || ch == '\n' then Consume(cfg, r, ch) == Next(r, false)
            else Consume(cfg, r, ch) == Fail(ClosedConnection) && SeenAt(cfg, r, ch) == r.trace
  {
  }

  // ---------------------------------------------------------------- a stream of requests

  function RenderStream(qs: seq<Request>): string {
    if qs == [] then [] else Render(qs[0]) + RenderStream(qs[1..])
  }

  function StreamEvents(qs: seq<Request>): seq<Event> {
    if qs == [] then [] else Events(qs[0]) + StreamEvents(qs[1..])
  }

  lemma {:induction false} StreamApart(qs: seq<Request>)
    ensures var es := StreamEvents(qs);
        Apart(es) && (es != [] ==> es[0].MessageBegin? && es[|es| - 1].MessageComplete?)
    decreases |qs|
  {
    hide Events, Apart;
    if qs != [] {
      EventsApart(qs[0]);
      StreamApart(qs[1..]);
      ApartConcat(Events(qs[0]), StreamEvents(qs[1..]));
    } else {
      NothingApart();
    }
  }

  lemma NothingApart()
    ensures Apart([])
  {
  }

  /** What a trace lists after a stream of requests. */
  lemma StreamListed(tr: Trace, qs: seq<Request>)
    ensures Listed(EmitAll(tr, StreamEvents(qs))) == Listed(tr) + StreamEvents(qs)
  {
    hide StreamEvents, EmitAll, Listed, Apart;
    StreamApart(qs);
    EmitAllListed(tr, StreamEvents(qs));
  }

  /** Pipelined requests are parsed one after the other, and nothing is lost, invented or
      reordered between them. */
  lemma {:induction false} StreamParsed(cfg: Settings, r: Run, qs: seq<Request>) returns (z: Run)
    requires r.core.state.StartReq? && TakesBodies(cfg)
    requires forall q | q in qs :: ValidRequest(q) && StaysOpen(q) && !Upgrades(q)
    ensures Eats(cfg, r, RenderStream(qs), z)
    ensures z.trace == EmitAll(r.trace, StreamEvents(qs)) && z.core.state.StartReq?
    decreases |qs|
  {
    if qs == [] {
      NothingMore(cfg, r);
      z := r;
    } else {
      hide Eats;
      assert qs[0] in qs && forall q | q in qs[1..] :: q in qs;
      var y := RequestParsed(cfg, r, qs[0]);
      EatsHere(cfg, r, Render(qs[0]), y);
      z := StreamParsed(cfg, y, qs[1..]);
      EatsThen(cfg, r, Render(qs[0]), y, RenderStream(qs[1..]), z);
      EmitAllConcat(r.trace, Events(qs[0]), StreamEvents(qs[1..]));
    }
  }
}
