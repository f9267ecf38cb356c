/** What is refused, byte by byte, and with which error. */
module HttpRefusals {
  import opened Ascii
  import opened HttpChars
  import opened HttpMachine
  import opened HttpRun
  import opened HttpOutlook
  import opened HttpText
  import opened HttpTarget
  import opened HttpConnection
  import opened HttpMessage
  import opened HttpRoundTrip

  // ---------------------------------------------------------------- fixed text

  /** The bytes that a state of the request line, of a line end or of the chunked coding waits
      for, and the error that any other byte is. */
  datatype Due = Due(bytes: string, digits: bool, otherwise: Errno) | Open

  function DueIn(s: State): Due {
    match s
    case ReqHttpStart => Due("H ", false, InvalidConstant)
    case ReqHttpH => Due("T", false, Strict)
    case ReqHttpHT => Due("T", false, Strict)
    case ReqHttpHTT => Due("P", false, Strict)
    case ReqHttpHTTP => Due("/", false, Strict)
    case ReqHttpMajor => Due("", true, InvalidVersion)
    case ReqHttpDot => Due(".", false, InvalidVersion)
    case ReqHttpMinor => Due("", true, InvalidVersion)
    case ReqHttpEnd => Due("\r\n", false, InvalidVersion)
    case ReqLineAlmostDone => Due("\n", false, LfExpected)
    case HeaderAlmostDone => Due("\n", false, LfExpected)
    case HeaderValueDiscardWsAlmostDone => Due("\n", false, Strict)
    case ChunkSizeAlmostDone => Due("\n", false, Strict)
    case ChunkDataAlmostDone => Due("\r", false, Strict)
    case ChunkDataDone => Due("\n", false, Strict)
    case Dead => Due("\r\n", false, ClosedConnection)
    case _ => Open
  }

  /** There exactly those bytes are taken, and anything else is that error. */
  lemma DueExact(cfg: Settings, r: Run, ch: char)
    requires DueIn(r.core.state).Due?
    ensures var d, f := DueIn(r.core.state), Feed(cfg, false, r, [ch]);
        if ch in d.bytes || (d.digits && DecimalDigit(ch)) then f.Fed? else f == Failed(d.otherwise)
  {
    assert View(cfg, false) == cfg && [ch][1..] == [];
    DueDispatched(OptionsAt(cfg, r), r.core, ch);
    hide Dispatch, DueIn;
  }

  lemma DueDispatched(opt: Options, c: Core, ch: char)
    requires DueIn(c.state).Due?
    ensures var d, o := DueIn(c.state), Dispatch(opt, c, ch);
        if ch in d.bytes || (d.digits && DecimalDigit(ch)) then o.Move? && !o.again else o == Fault(d.otherwise)
  {
    if RequestLineState(c.state) {
    } else if FieldLineState(c.state) {
    } else if ValueLineState(c.state) {
    } else {
    }
  }

  /** Behind the carriage return of the empty line only a line feed is taken. */
  lemma HeadEndRefused(cfg: Settings, r: Run, ch: char)
    requires (r.core.state.HeadersAlmostDone? || r.core.state.HeadersDone?) && ch != '\n'
    ensures Feed(cfg, false, r, [ch]) == Failed(Strict)
  {
    assert View(cfg, false) == cfg && [ch][1..] == [];
  }

  /** A chunk size starts with a digit and ends with a carriage return, a blank or a semicolon. */
  lemma ChunkSizeRefused(cfg: Settings, r: Run, ch: char)
    requires r.core.state.ChunkSizeStart? || r.core.state.ChunkSize?
    requires !SizeCode(ch) && (r.core.state.ChunkSize? ==> ch !in "\r ;")
    ensures Feed(cfg, false, r, [ch]) == Failed(InvalidChunkSize)
  {
    assert View(cfg, false) == cfg && [ch][1..] == [];
  }

  // ---------------------------------------------------------------- methods and names

  /** A word that is no method is refused as such. */
  lemma {:induction false} MethodRefused(cfg: Settings, r: Run, w: string)
    requires r.core.state.StartReq? && w != [] && w[0] != CR && w[0] != LF && ' ' !in w
    ensures var f := Feed(cfg, false, r, w);
        if f.Failed? then f.errno.InvalidMethod?
        else f.run.core.state.ReqMethod? && !SkippingAfter(cfg, false, r, w)
    decreases |w|
  {
    hide Consume, Skips, View;
    var n := |w| - 1;
    var v, ch := w[..n], w[n];
    assert w == v + [ch] && ch in w;
    if n == 0 {
      assert w == [ch];
      MethodByte(cfg, r, ch);
    } else {
      assert v[0] == w[0] && forall c | c in v :: c in w;
      MethodRefused(cfg, r, v);
      FeedOn(cfg, false, r, v, [ch]);
      if Feed(cfg, false, r, v).Fed? {
        SkippingOn(cfg, false, r, v, [ch]);
        MethodByte(cfg, Feed(cfg, false, r, v).run, ch);
      }
    }
  }

  lemma MethodByte(cfg: Settings, r: Run, ch: char)
    requires (r.core.state.StartReq? && ch != CR && ch != LF) || r.core.state.ReqMethod?
    requires ch != ' '
    ensures var f := Feed(cfg, false, r, [ch]);
        if f.Failed? then f.errno.InvalidMethod?
        else f.run.core.state.ReqMethod? && !SkippingAfter(cfg, false, r, [ch])
  {
    hide FirstGuess, NextGuess;
    assert View(cfg, false) == cfg && [ch][1..] == [];
  }

  /** A field name is made of token characters; any other is an invalid token. */
  lemma {:induction false} NameExact(cfg: Settings, r: Run, name: string)
    requires r.core.state.HeaderFieldStart? && name != [] && name[0] != CR && name[0] != LF && ':' !in name
    ensures if IsName(name) then Eats(cfg, r, name, NameTaken(r, name))
            else Feed(cfg, false, r, name) == Failed(InvalidHeaderToken)
    decreases |name|
  {
    hide Feed, Eats, NameTaken, TokenCode;
    if IsName(name) {
      NameEaten(cfg, r, name);
    } else {
      var n := |name| - 1;
      var v, ch := name[..n], name[n];
      assert name == v + [ch] && ch in name && forall c | c in v :: c in name;
      if n == 0 {
        assert name == [ch];
        NameByteRefused(cfg, r, ch);
      } else {
        assert v[0] == name[0];
        NameExact(cfg, r, v);
        if IsName(v) {
          assert forall c | c in name :: c in v || c == ch;
          EatsOn(cfg, r, v, NameTaken(r, v), [ch]);
          NameByteRefused(cfg, NameTaken(r, v), ch) by { Named(r, v); }
        } else {
          FeedOn(cfg, false, r, v, [ch]);
        }
      }
    }
  }

  lemma Named(r: Run, v: string)
    requires v != []
    ensures NameTaken(r, v).core.state.HeaderField?
  {
  }

  lemma NameByteRefused(cfg: Settings, r: Run, ch: char)
    requires (r.core.state.HeaderFieldStart? && ch != CR && ch != LF) || r.core.state.HeaderField?
    requires !TokenCode(ch) && ch != ':'
    ensures Feed(cfg, false, r, [ch]) == Failed(InvalidHeaderToken)
  {
    NoToken(ch);
    hide TokenCode, IsToken;
    assert View(cfg, false) == cfg && [ch][1..] == [];
  }

  lemma NoToken(ch: char)
    requires !TokenCode(ch)
    ensures !IsToken(ch)
  {
  }

  // ---------------------------------------------------------------- values

  /** A checked byte of a header value is refused exactly when it is a control character other
      than the tabulator. */
  lemma ValueByteExact(cfg: Settings, r: Run, ch: char)
    requires Plain(r.core) && ch != CR && ch != LF
    ensures var f := Feed(cfg, false, r, [ch]);
        if cfg.lenient || ValueCode(ch) then f == Fed(Run(r.core, Emit(r.trace, Data(Value, [ch]))))
        else f == Failed(InvalidHeaderToken)
  {
    hide Emit;
    assert View(cfg, false) == cfg && [ch][1..] == [];
  }

  /** Blanks may follow the digits of a Content-Length, and nothing else may. */
  lemma AfterLength(cfg: Settings, r: Run, ch: char)
    requires r.core.state.HeaderValue? && (r.core.headerState.ContentLengthNum? || r.core.headerState.ContentLengthWs?)
    requires ch != CR && ch != LF && ValueCode(ch) && (r.core.headerState.ContentLengthNum? ==> !DecimalDigit(ch))
    ensures var z := Run(r.core.(headerState := ContentLengthWs), Emit(r.trace, Data(Value, [ch])));
        if ch == ' ' then Eats(cfg, r, [ch], z) else Feed(cfg, false, r, [ch]) == Failed(InvalidContentLength)
  {
    hide Emit;
    assert View(cfg, false) == cfg && [ch][1..] == [];
    var z := Run(r.core.(headerState := ContentLengthWs), Emit(r.trace, Data(Value, [ch])));
    if ch == ' ' { EatsChar(cfg, r, ch, z, false); }
  }

  // ---------------------------------------------------------------- the chunked coding

  predicate SpellsChunked(v: string) {
    |v| >= 7 && LowerName(v[..7]) == "chunked" && forall i | 7 <= i < |v| :: v[i] == ' '
  }

  /** While a Transfer-Encoding value can still be "chunked". */
  predicate MayBeChunked(c: Core, t: string) {
    && c.state.HeaderValue?
    && if |t| < 7 then
         && t != [] && LowerName(t) == "chunked"[..|t|]
         && c.headerState.MatchingTransferEncodingChunked? && c.index == |t| - 1
       else SpellsChunked(t) && c.headerState.TransferEncodingChunked?
  }

  lemma LowerValue(ch: char, w: char)
    requires ValueCode(ch) && Between(w, 97, 122)
    ensures Lower(ch) == w <==> Fold(ch) == w
  {
  }

  /** A wrong letter at `i` spoils the word. */
  lemma WrongLetter(v: string, i: nat)
    requires i < 7 && i < |v| && Fold(v[i]) != "chunked"[i]
    ensures !SpellsChunked(v)
  {
    if |v| >= 7 {
      assert v[..7][i] == v[i];
      assert LowerName(v[..7])[i] == Fold(v[i]);
    }
  }

  lemma RightLetter(t: string, ch: char)
    requires |t| < 7 && LowerName(t) == "chunked"[..|t|] && Fold(ch) == "chunked"[|t|]
    ensures LowerName(t + [ch]) == "chunked"[..|t| + 1]
    ensures |t| == 6 ==> SpellsChunked(t + [ch])
  {
    hide LowerName, Fold;
    LowerMore(t, ch);
    OneMore("chunked", |t|);
    if |t| == 6 {
      assert (t + [ch])[..7] == t + [ch];
      Whole("chunked");
    }
  }

  lemma OneMore(w: string, i: nat)
    requires i < |w|
    ensures w[..i + 1] == w[..i] + [w[i]]
  {
  }

  lemma Whole(w: string)
    ensures w[..|w|] == w
  {
  }

  lemma EncodingLetter(c: Core, i: nat, ch: char)
    requires c.headerState.MatchingTransferEncodingChunked? && c.index + 1 == i < 7 && ValueCode(ch)
    ensures var h := if Fold(ch) != "chunked"[i] then General
                     else if i == 6 then TransferEncodingChunked else MatchingTransferEncodingChunked;
        ValueNext(c, ch) == ValueMove(c.(headerState := h, index := i), ch)
  {
    LowerValue(ch, "chunked"[i]);
    hide Lower, Fold, ValueCode;
  }

  /** One more letter of it, or the value turns out to be something else. */
  lemma EncodingByte(c: Core, t: string, ch: char, rest: string)
    requires MayBeChunked(c, t) && ValueCode(ch)
    ensures var o := ValueNext(c, ch);
        && o == ValueMove(o.core, ch) && SameRecord(c, o.core) && o.core.state.HeaderValue?
        && if o.core.headerState.General? then !SpellsChunked(t + [ch] + rest) else MayBeChunked(o.core, t + [ch])
  {
    hide ValueCode, Fold, Lower, LowerName;
    var v := t + [ch] + rest;
    assert v[|t|] == ch;
    if |t| < 7 {
      EncodingLetter(c, |t|, ch);
      if Fold(ch) != "chunked"[|t|] { WrongLetter(v, |t|); } else { RightLetter(t, ch); }
    } else if ch == ' ' {
      assert (t + [ch])[..7] == t[..7];
    }
  }

  /** The rest of the value and its carriage return. */
  lemma {:induction false} EncodingRest(cfg: Settings, r: Run, t: string, rest: string) returns (z: Run)
    requires MayBeChunked(r.core, t) && forall c | c in rest :: ValueCode(c)
    ensures Eats(cfg, r, rest + "\r", z) && z.core.state.HeaderAlmostDone? && z.core.flags == r.core.flags
    ensures z.core.headerState.TransferEncodingChunked? <==> SpellsChunked(t + rest)
    ensures !z.core.headerState.ConnectionKeepAlive? && !z.core.headerState.ConnectionClose?
         && !z.core.headerState.ConnectionUpgrade?
    ensures z.trace == if rest == [] then r.trace else Emit(r.trace, Data(Value, rest))
    decreases |rest|
  {
    hide Eats, ValueCode, Fold, Lower, LowerName, SpellsChunked, ValueNext;
    if rest == [] {
      z := To(r, HeaderAlmostDone);
      assert rest + "\r" == [CR] && t + rest == t;
      CarriageReturnAfterValue(cfg, r);
      ShortWord(t);
    } else {
      var ch := rest[0];
      assert ch in rest && rest == [ch] + rest[1..] && forall c | c in rest[1..] :: c in rest;
      assert t + rest == t + [ch] + rest[1..];
      EncodingByte(r.core, t, ch, rest[1..]);
      var x := Run(ValueNext(r.core, ch).core, Emit(r.trace, Data(Value, [ch])));
      EncodingEaten(cfg, r, ch, x);
      if x.core.headerState.General? {
        PlainEats(cfg, x, rest[1..]);
        z := ValueDone(x, rest[1..]);
      } else {
        z := EncodingRest(cfg, x, t + [ch], rest[1..]);
      }
      EatsThen(cfg, r, [ch], x, rest[1..] + "\r", z);
      EmitTwice(r.trace, Value, [ch], rest[1..]);
      assert rest[1..] == [] ==> rest == [ch];
      assert rest + "\r" == [ch] + (rest[1..] + "\r");
    }
  }

  lemma ShortWord(t: string)
    ensures |t| < 7 ==> !SpellsChunked(t)
  {
  }

  lemma EncodingEaten(cfg: Settings, r: Run, ch: char, x: Run)
    requires r.core.state.HeaderValue? && !r.core.headerState.General? && ValueCode(ch)
    requires x.trace == Emit(r.trace, Data(Value, [ch])) && ValueNext(r.core, ch) == ValueMove(x.core, ch)
    ensures Eats(cfg, r, [ch], x)
  {
    CodeIsHeaderChar(ch);
    hide ValueCode, IsHeaderChar;
    NextDispatched(OptionsAt(cfg, r), r.core, ch);
    hide Dispatch, ValueNext, Eats, Emit;
    Takes(cfg, r, ch, ValueMove(x.core, ch));
  }

  lemma CodeIsHeaderChar(ch: char)
    requires ValueCode(ch)
    ensures IsHeaderChar(ch) && ch != CR && ch != LF
  {
  }

  /** A Transfer-Encoding announces the chunked coding if and only if its value is that one
      word, in any letter case, with nothing but blanks behind it. */
  lemma EncodingExact(cfg: Settings, r: Run, v: string) returns (z: Run)
    requires r.core.state.HeaderValueDiscardWs? && r.core.headerState.TransferEncoding? && IsValue(v) && v != []
    ensures Eats(cfg, r, v + "\r", z) && z.core.state.HeaderAlmostDone?
    ensures WithLineFlag(z.core.flags, z.core.headerState) ==
            if SpellsChunked(v) then r.core.flags.(chunked := true) else r.core.flags
    ensures z.trace == Emit(r.trace, Data(Value, v))
  {
    hide Eats, ValueCode, SpellsChunked, LowerName;
    var ch, rest := v[0], v[1..];
    assert ch in v && v == [ch] + rest && forall c | c in rest :: c in v;
    var x := EncodingFirst(cfg, r, ch, rest);
    if x.core.headerState.General? {
      PlainEats(cfg, x, rest);
      z := ValueDone(x, rest);
    } else {
      z := EncodingRest(cfg, x, [ch], rest);
    }
    EatsThen(cfg, r, [ch], x, rest + "\r", z);
    EmitTwice(r.trace, Value, [ch], rest);
    assert rest == [] ==> v == [ch];
    assert v + "\r" == [ch] + (rest + "\r");
  }

  lemma EncodingFirst(cfg: Settings, r: Run, ch: char, rest: string) returns (x: Run)
    requires r.core.state.HeaderValueDiscardWs? && r.core.headerState.TransferEncoding?
    requires ValueCode(ch) && ch as int != 32 && ch as int != 9
    ensures Eats(cfg, r, [ch], x) && x.trace == Emit(r.trace, Data(Value, [ch])) && x.core.flags == r.core.flags
    ensures if x.core.headerState.General? then Plain(x.core) && !SpellsChunked([ch] + rest)
            else MayBeChunked(x.core, [ch])
  {
    LowerValue(ch, 'c');
    var o := ValueStart(r.core, ch);
    x := Run(o.core, Emit(r.trace, Data(Value, [ch])));
    CodeIsHeaderChar(ch);
    StartDispatched(OptionsAt(cfg, r), r.core, ch);
    if Fold(ch) != 'c' { WrongLetter([ch] + rest, 0); } else { OneLetter(ch); assert "chunked"[..1] == "c"; }
    hide Dispatch, Eats, Emit, ValueCode, SpellsChunked, Fold, Lower, LowerName;
    Takes(cfg, r, ch, ValueMove(o.core, ch));
  }
}
