/** The framed byte streams between consumer agent, provider agent and provider.

    A reader always waits for one field; `Drive` is what a reader makes of all the bytes it
    has.  The encoders produce streams that are read back frame by frame, however the bytes
    are cut into pieces. */
module Frames {
  import opened Wire

  /** The interface, method and parameter types that a connection is used for. */
  datatype Key = Key(site: seq<byte>, call: seq<byte>, types: seq<byte>)

  datatype Frame =
    | Request(key: Key, id: int, data: seq<byte>)
    | Response(id: int, data: seq<byte>)

  /** The field a reader waits for, with what it has read before it.  The C++ readers copy
      payloads as C strings, the Java reader and the provider do not: `text` tells which. */
  datatype Awaiting =
    | ActMagic
    | SiteLen
    | Site(n: nat)
    | CallLen(site: seq<byte>)
    | Call(site: seq<byte>, n: nat)
    | TypesLen(site: seq<byte>, call: seq<byte>)
    | Types(site: seq<byte>, call: seq<byte>, n: nat)
    | RequestId(key: Key)
    | RequestLen(key: Key, id: int)
    | RequestData(key: Key, id: int, n: nat)
    | ResponseId(text: bool)
    | ResponseLen(text: bool, id: int)
    | ResponseData(text: bool, id: int, n: nat)
    | DubboMagic(text: bool)
    | DubboId(text: bool)
    | DubboLen(text: bool, id: int)
    | DubboData(text: bool, id: int, n: nat)

  function Need(s: Awaiting): nat {
    match s
    case ActMagic => 2
    case Site(n) => n
    case Call(_, n) => n
    case Types(_, _, n) => n
    case RequestData(_, _, n) => n
    case ResponseData(_, _, n) => n
    case DubboId(_) => 8
    case DubboData(_, _, n) => n
    case _ => 4
  }

  datatype Taken = Bad | Taken(next: Awaiting, frames: seq<Frame>)

  /** The states that wait for a length. */
  predicate LengthNext(s: Awaiting) {
    s.SiteLen? || s.CallLen? || s.TypesLen? || s.RequestLen? || s.ResponseLen? || s.DubboLen?
  }

  function WithLength(s: Awaiting, n: nat): Awaiting
    requires LengthNext(s)
  {
    match s
    case SiteLen => Site(n)
    case CallLen(site) => Call(site, n)
    case TypesLen(site, call) => Types(site, call, n)
    case RequestLen(key, id) => RequestData(key, id, n)
    case ResponseLen(text, id) => ResponseData(text, id, n)
    case DubboLen(text, id) => DubboData(text, id, n)
  }

  /** One field is there.  Neither a wrong magic number, at which the C++ loops spin without
      advancing, nor a negative length is part of any stream that the encoders produce. */
  function Take(s: Awaiting, x: seq<byte>): Taken
    requires |x| == Need(s)
  {
    if LengthNext(s) then
      var n := ReadInt(x);
      if n < 0 then Bad else Taken(WithLength(s, n), [])
    else
      match s
      case ActMagic => if x[0] == 0xab && x[1] == 0xcd then Taken(SiteLen, []) else Bad
      case Site(_) => Taken(CallLen(CopyString(x)), [])
      case Call(site, _) => Taken(TypesLen(site, CopyString(x)), [])
      case Types(site, call, _) => Taken(RequestId(Key(site, call, CopyString(x))), [])
      case RequestId(key) => Taken(RequestLen(key, ReadInt(x)), [])
      case RequestData(key, id, _) => Taken(RequestId(key), [Request(key, id, CopyString(x))])
      case ResponseId(text) => Taken(ResponseLen(text, ReadInt(x)), [])
      case ResponseData(text, id, _) => Taken(ResponseId(text), [Response(id, if text then CopyString(x) else x)])
      case DubboMagic(text) => if x[0] == 0xda && x[1] == 0xbb then Taken(DubboId(text), []) else Bad
      case DubboId(text) => Taken(DubboLen(text, ReadLong(x)), [])
      case DubboData(text, id, _) => Taken(DubboMagic(text), [Response(id, if text then CopyString(x) else x)])
  }

  // ---------------------------------------------------------------- reading

  /** Stuck, or: the field now waited for, the bytes of it that are there, and the frames
      that were completed. */
  datatype Drained = Stuck | Drained(state: Awaiting, rest: seq<byte>, frames: seq<Frame>)

  function Behind(frames: seq<Frame>, d: Drained): Drained {
    if d.Stuck? then d else d.(frames := frames + d.frames)
  }

  /** A field of length 0 is complete as soon as it is waited for, so a reader never rests
      in front of one; after it a field with bytes comes. */
  function Drive(s: Awaiting, data: seq<byte>): (d: Drained)
    ensures d.Drained? ==> |d.rest| < Need(d.state)
    decreases |data|, if Need(s) == 0 then 1 else 0
  {
    if |data| < Need(s) then Drained(s, data, [])
    else
      var t := Take(s, data[..Need(s)]);
      if t.Bad? then Stuck else Behind(t.frames, Drive(t.next, data[Need(s)..]))
  }

  lemma BehindTwice(a: seq<Frame>, b: seq<Frame>, d: Drained)
    ensures Behind(a, Behind(b, d)) == Behind(a + b, d) && Behind([], d) == d
  {
    if d.Drained? {
      assert a + (b + d.frames) == (a + b) + d.frames;
      assert [] + d.frames == d.frames;
    }
  }

  /** More bytes: the reader goes on where it was. */
  function GoOn(d: Drained, more: seq<byte>): Drained {
    if d.Stuck? then d else Behind(d.frames, Drive(d.state, d.rest + more))
  }

  lemma {:induction false} DriveOn(s: Awaiting, a: seq<byte>, b: seq<byte>)
    ensures Drive(s, a + b) == GoOn(Drive(s, a), b)
    decreases |a|, if Need(s) == 0 then 1 else 0
  {
    var n := Need(s);
    if |a| < n {
      BehindTwice([], [], Drive(s, a + b));
    } else {
      assert (a + b)[..n] == a[..n] && (a + b)[n..] == a[n..] + b;
      var t := Take(s, a[..n]);
      if t.Taken? {
        DriveOn(t.next, a[n..], b);
        var d := Drive(t.next, a[n..]);
        if d.Drained? { BehindTwice(t.frames, d.frames, Drive(d.state, d.rest + b)); }
      }
    }
  }

  /** The frames that are complete before the reader stops or gets stuck. */
  function FramesBefore(s: Awaiting, data: seq<byte>): seq<Frame>
    decreases |data|, if Need(s) == 0 then 1 else 0
  {
    if |data| < Need(s) then []
    else
      var t := Take(s, data[..Need(s)]);
      if t.Bad? then [] else t.frames + FramesBefore(t.next, data[Need(s)..])
  }

  /** After a field without bytes comes one with bytes. */
  lemma NextNeeds(s: Awaiting, x: seq<byte>)
    requires |x| == Need(s) == 0
    ensures Take(s, x).Taken? ==> Need(Take(s, x).next) > 0
  {
  }

  lemma {:induction false} FramesBeforeAll(s: Awaiting, data: seq<byte>)
    ensures var d := Drive(s, data); d.Drained? ==> d.frames == FramesBefore(s, data)
    decreases |data|, if Need(s) == 0 then 1 else 0
  {
    hide Take;
    var n := Need(s);
    if |data| >= n {
      var t := Take(s, data[..n]);
      if n == 0 { NextNeeds(s, data[..n]); }
      if t.Taken? { FramesBeforeAll(t.next, data[n..]); }
    }
  }

  /** A reader that has completed the frames `done` and is to end up as `d`, with the frames
      `all` completed. */
  predicate OnTheWay(done: seq<Frame>, s: Awaiting, data: seq<byte>, d: Drained, all: seq<Frame>) {
    Behind(done, Drive(s, data)) == d && done + FramesBefore(s, data) == all
  }

  lemma StartOfTheWay(s: Awaiting, data: seq<byte>)
    ensures OnTheWay([], s, data, Drive(s, data), FramesBefore(s, data))
  {
    BehindTwice([], [], Drive(s, data));
    assert [] + FramesBefore(s, data) == FramesBefore(s, data);
  }

  /** It may take the next field, if that is there; or it is stuck there. */
  lemma StepOnTheWay(done: seq<Frame>, s: Awaiting, data: seq<byte>, d: Drained, all: seq<Frame>)
    requires OnTheWay(done, s, data, d, all) && |data| >= Need(s)
    ensures var t := Take(s, data[..Need(s)]);
        if t.Taken? then OnTheWay(done + t.frames, t.next, data[Need(s)..], d, all) else d.Stuck? && all == done
  {
    var t := Take(s, data[..Need(s)]);
    if t.Taken? {
      BehindTwice(done, t.frames, Drive(t.next, data[Need(s)..]));
      assert done + (t.frames + FramesBefore(t.next, data[Need(s)..]))
          == (done + t.frames) + FramesBefore(t.next, data[Need(s)..]);
    }
  }

  /** If it is not there, this is the end. */
  lemma EndOfTheWay(done: seq<Frame>, s: Awaiting, data: seq<byte>, d: Drained, all: seq<Frame>)
    requires OnTheWay(done, s, data, d, all) && |data| < Need(s)
    ensures d == Drained(s, data, done) && all == done
  {
    assert done + [] == done;
  }

  function Concat(pieces: seq<seq<byte>>): seq<byte> {
    if pieces == [] then [] else Concat(pieces[..|pieces| - 1]) + pieces[|pieces| - 1]
  }

  /** Piece by piece. */
  function DriveAll(s: Awaiting, pieces: seq<seq<byte>>): Drained {
    if pieces == [] then Drive(s, []) else GoOn(DriveAll(s, pieces[..|pieces| - 1]), pieces[|pieces| - 1])
  }

  /** Fragmentation does not matter. */
  lemma {:induction false} PiecesAgree(s: Awaiting, pieces: seq<seq<byte>>)
    ensures DriveAll(s, pieces) == Drive(s, Concat(pieces))
    decreases |pieces|
  {
    if pieces != [] {
      var n := |pieces| - 1;
      PiecesAgree(s, pieces[..n]);
      DriveOn(s, Concat(pieces[..n]), pieces[n]);
    }
  }

  // ---------------------------------------------------------------- writing

  const ACT_MAGIC: seq<byte> := [0xab, 0xcd]
  const DUBBO_MAGIC: seq<byte> := [0xda, 0xbb]

  /** A length and then as many bytes, copied as a C string. */
  function Sized(x: seq<byte>): seq<byte> { IntBytes(|x|) + CopyString(x) }

  function EncodeKey(k: Key): seq<byte> { ACT_MAGIC + Sized(k.site) + Sized(k.call) + Sized(k.types) }

  /** A request or response of the ACT protocol. */
  function EncodeAct(id: int, data: seq<byte>): seq<byte> { IntBytes(id) + Sized(data) }

  /** A Dubbo message; `flags` are the third and fourth byte of its header. */
  function EncodeDubbo(flags: seq<byte>, id: int, data: seq<byte>): seq<byte> {
    DUBBO_MAGIC + flags + LongBytes(id) + IntBytes(|data|) + data
  }

  predicate Fits(x: seq<byte>) { |x| < TWO31 }

  /** Four bytes with the number `v`, the most significant first. */
  predicate Holds4(b: seq<byte>, at: nat, v: int)
    requires at + 4 <= |b|
  {
    Weighed(b[at], b[at + 1], b[at + 2], b[at + 3]) == if v < 0 then v + 0x1_0000_0000 else v
  }

  lemma IntThere(b: seq<byte>, at: nat, v: int)
    requires at + 4 <= |b| && b[at..at + 4] == IntBytes(v) && IsInt(v)
    ensures Holds4(b, at, v)
  {
    IntBigEndian(v);
    hide IntBytes, Weighed;
    var w := b[at..at + 4];
    assert w[0] == b[at] && w[1] == b[at + 1] && w[2] == b[at + 2] && w[3] == b[at + 3];
  }

  /** What stands where in a request or response ... */
  lemma ActLayout(id: int, data: seq<byte>)
    requires IsInt(id) && Fits(data)
    ensures var b := EncodeAct(id, data);
        |b| == 8 + |data| && Holds4(b, 0, id) && Holds4(b, 4, |data|) && b[8..] == CopyString(data)
  {
    hide CopyString, IntBytes, Holds4;
    var b := EncodeAct(id, data);
    IntThere(b, 0, id);
    IntThere(b, 4, |data|);
  }

  /** ... in the key of a connection ... */
  lemma KeyLayout(k: Key)
    requires KeyFits(k)
    ensures var b, s, c, t := EncodeKey(k), |k.site|, |k.call|, |k.types|;
        && |b| == 14 + s + c + t && b[0] == 0xab && b[1] == 0xcd
        && Holds4(b, 2, s) && b[6..6 + s] == CopyString(k.site)
        && Holds4(b, 6 + s, c) && b[10 + s..10 + s + c] == CopyString(k.call)
        && Holds4(b, 10 + s + c, t) && b[14 + s + c..] == CopyString(k.types)
  {
    hide CopyString, IntBytes, Holds4;
    var b, s, c, t := EncodeKey(k), |k.site|, |k.call|, |k.types|;
    IntThere(b, 2, s);
    IntThere(b, 6 + s, c);
    IntThere(b, 10 + s + c, t);
  }

  /** ... and in a Dubbo message. */
  lemma DubboLayout(flags: seq<byte>, id: int, data: seq<byte>)
    requires |flags| == 2 && 0 <= id < TWO31 && Fits(data)
    ensures var b := EncodeDubbo(flags, id, data);
        && |b| == 16 + |data| && b[0] == 0xda && b[1] == 0xbb && b[2..4] == flags
        && b[4] == b[5] == b[6] == b[7] == 0 && Holds4(b, 8, id) && Holds4(b, 12, |data|) && b[16..] == data
  {
    hide LongBytes, IntBytes, Holds4;
    var b, l := EncodeDubbo(flags, id, data), LongBytes(id);
    LongHalves(id);
    HighZero(id);
    assert b[4..8] == l[..4] && b[8..12] == l[4..];
    assert forall i | 0 <= i < 4 :: b[4 + i] == b[4..8][i];
    IntThere(b, 8, id);
    IntThere(b, 12, |data|);
  }

  predicate KeyFits(k: Key) { Fits(k.site) && Fits(k.call) && Fits(k.types) }

  /** What arrives of a key. */
  function CopyKey(k: Key): Key { Key(CopyString(k.site), CopyString(k.call), CopyString(k.types)) }

  /** One field in front. */
  lemma FieldRead(s: Awaiting, x: seq<byte>, more: seq<byte>)
    requires |x| == Need(s) && Take(s, x).Taken?
    ensures Drive(s, x + more) == Behind(Take(s, x).frames, Drive(Take(s, x).next, more))
  {
    assert (x + more)[..|x|] == x && (x + more)[|x|..] == more;
  }

  lemma SizedRead(s: Awaiting, x: seq<byte>, more: seq<byte>)
    requires LengthNext(s) && Fits(x)
    ensures var t := Take(WithLength(s, |x|), CopyString(x));
        t.Taken? && Drive(s, Sized(x) + more) == Behind(t.frames, Drive(t.next, more))
  {
    CopyTwice(x);
    hide Drive, CopyString, IntBytes;
    IntRoundTrip(|x|);
    assert Sized(x) + more == IntBytes(|x|) + (CopyString(x) + more);
    FieldRead(s, IntBytes(|x|), CopyString(x) + more);
    FieldRead(WithLength(s, |x|), CopyString(x), more);
    BehindTwice([], [], Drive(WithLength(s, |x|), CopyString(x) + more));
  }

  /** The header of a connection is read back. */
  lemma KeyRead(k: Key, more: seq<byte>)
    requires KeyFits(k)
    ensures Drive(ActMagic, EncodeKey(k) + more) == Drive(RequestId(CopyKey(k)), more)
  {
    CopyTwice(k.site);
    CopyTwice(k.call);
    CopyTwice(k.types);
    hide Drive, Sized, CopyString;
    var a, b, c := Sized(k.site), Sized(k.call), Sized(k.types);
    assert EncodeKey(k) + more == ACT_MAGIC + (a + (b + (c + more)));
    FieldRead(ActMagic, ACT_MAGIC, a + (b + (c + more)));
    SizedRead(SiteLen, k.site, b + (c + more));
    SizedRead(CallLen(CopyString(k.site)), k.call, c + more);
    SizedRead(TypesLen(CopyString(k.site), CopyString(k.call)), k.types, more);
    BehindTwice([], [], Drive(SiteLen, a + (b + (c + more))));
    BehindTwice([], [], Drive(CallLen(CopyString(k.site)), b + (c + more)));
    BehindTwice([], [], Drive(TypesLen(CopyString(k.site), CopyString(k.call)), c + more));
    BehindTwice([], [], Drive(RequestId(CopyKey(k)), more));
  }

  lemma RequestRead(k: Key, id: int, data: seq<byte>, more: seq<byte>)
    requires IsInt(id) && Fits(data)
    ensures Drive(RequestId(k), EncodeAct(id, data) + more) ==
            Behind([Request(k, id, CopyString(data))], Drive(RequestId(k), more))
  {
    CopyTwice(data);
    hide Drive, Sized, CopyString, IntBytes;
    IntRoundTrip(id);
    assert EncodeAct(id, data) + more == IntBytes(id) + (Sized(data) + more);
    FieldRead(RequestId(k), IntBytes(id), Sized(data) + more);
    SizedRead(RequestLen(k, id), data, more);
    BehindTwice([], [], Drive(RequestLen(k, id), Sized(data) + more));
  }

  lemma ResponseRead(text: bool, id: int, data: seq<byte>, more: seq<byte>)
    requires IsInt(id) && Fits(data)
    ensures Drive(ResponseId(text), EncodeAct(id, data) + more) ==
            Behind([Response(id, CopyString(data))], Drive(ResponseId(text), more))
  {
    CopyTwice(data);
    hide Drive, Sized, CopyString, IntBytes;
    IntRoundTrip(id);
    assert EncodeAct(id, data) + more == IntBytes(id) + (Sized(data) + more);
    FieldRead(ResponseId(text), IntBytes(id), Sized(data) + more);
    SizedRead(ResponseLen(text, id), data, more);
    BehindTwice([], [], Drive(ResponseLen(text, id), Sized(data) + more));
  }

  /** A Dubbo message is read back with its id as `bytes2ll` reads it. */
  lemma DubboRead(text: bool, flags: seq<byte>, id: int, data: seq<byte>, more: seq<byte>)
    requires |flags| == 2 && Fits(data)
    ensures Drive(DubboMagic(text), EncodeDubbo(flags, id, data) + more) ==
            Behind([Response(ReadLong(LongBytes(id)), if text then CopyString(data) else data)],
                   Drive(DubboMagic(text), more))
  {
    hide Drive, IntBytes, LongBytes, ReadLong, CopyString;
    var head, i, n := DUBBO_MAGIC + flags, LongBytes(id), IntBytes(|data|);
    var id' := ReadLong(i);
    IntRoundTrip(|data|);
    assert EncodeDubbo(flags, id, data) + more == head + (i + (n + (data + more)));
    FieldRead(DubboMagic(text), head, i + (n + (data + more)));
    FieldRead(DubboId(text), i, n + (data + more));
    FieldRead(DubboLen(text, id'), n, data + more);
    FieldRead(DubboData(text, id', |data|), data, more);
    BehindTwice([], [], Drive(DubboId(text), i + (n + (data + more))));
    BehindTwice([], [], Drive(DubboLen(text, id'), n + (data + more)));
    BehindTwice([], [], Drive(DubboData(text, id', |data|), data + more));
  }

  // ---------------------------------------------------------------- whole streams

  datatype Message = Message(id: int, data: seq<byte>)

  function EncodeActs(ms: seq<Message>): seq<byte> {
    if ms == [] then [] else EncodeAct(ms[0].id, ms[0].data) + EncodeActs(ms[1..])
  }

  predicate MessagesFit(ms: seq<Message>) { forall m | m in ms :: IsInt(m.id) && Fits(m.data) }

  function RequestsOf(k: Key, ms: seq<Message>): seq<Frame> {
    if ms == [] then [] else [Request(k, ms[0].id, CopyString(ms[0].data))] + RequestsOf(k, ms[1..])
  }

  function ResponsesOf(ms: seq<Message>): seq<Frame> {
    if ms == [] then [] else [Response(ms[0].id, CopyString(ms[0].data))] + ResponsesOf(ms[1..])
  }

  lemma {:induction false} RequestsRead(k: Key, ms: seq<Message>)
    requires MessagesFit(ms)
    ensures Drive(RequestId(k), EncodeActs(ms)) == Drained(RequestId(k), [], RequestsOf(k, ms))
    decreases |ms|
  {
    if ms != [] {
      assert ms[0] in ms && forall m | m in ms[1..] :: m in ms;
      RequestsRead(k, ms[1..]);
      RequestRead(k, ms[0].id, ms[0].data, EncodeActs(ms[1..]));
    }
  }

  lemma {:induction false} ResponsesRead(text: bool, ms: seq<Message>)
    requires MessagesFit(ms)
    ensures Drive(ResponseId(text), EncodeActs(ms)) == Drained(ResponseId(text), [], ResponsesOf(ms))
    decreases |ms|
  {
    if ms != [] {
      assert ms[0] in ms && forall m | m in ms[1..] :: m in ms;
      ResponsesRead(text, ms[1..]);
      ResponseRead(text, ms[0].id, ms[0].data, EncodeActs(ms[1..]));
    }
  }

  /** The request stream of a connection, cut into any pieces: exactly its requests are read,
      in order, and nothing is left over. */
  lemma RequestStreamRead(k: Key, ms: seq<Message>, pieces: seq<seq<byte>>)
    requires KeyFits(k) && MessagesFit(ms) && Concat(pieces) == EncodeKey(k) + EncodeActs(ms)
    ensures DriveAll(ActMagic, pieces) == Drained(RequestId(CopyKey(k)), [], RequestsOf(CopyKey(k), ms))
  {
    PiecesAgree(ActMagic, pieces);
    KeyRead(k, EncodeActs(ms));
    RequestsRead(CopyKey(k), ms);
  }

  /** The same for the responses, by either of the two readers. */
  lemma ResponseStreamRead(text: bool, ms: seq<Message>, pieces: seq<seq<byte>>)
    requires MessagesFit(ms) && Concat(pieces) == EncodeActs(ms)
    ensures DriveAll(ResponseId(text), pieces) == Drained(ResponseId(text), [], ResponsesOf(ms))
  {
    PiecesAgree(ResponseId(text), pieces);
    ResponsesRead(text, ms);
  }

  /** The responses as they were meant. */
  function Originals(ms: seq<Message>): seq<Frame> {
    if ms == [] then [] else [Response(ms[0].id, ms[0].data)] + Originals(ms[1..])
  }

  /** What is read is what was written exactly when NULs stand only at the ends of the
      payloads, because they are copied as C strings. */
  lemma {:induction false} CopiesExact(ms: seq<Message>)
    ensures ResponsesOf(ms) == Originals(ms) <==> forall m | m in ms :: IsCString(m.data)
    decreases |ms|
  {
    if ms != [] {
      CopiesExact(ms[1..]);
      CopyExact(ms[0].data);
      assert ms[0] in ms && forall m | m in ms[1..] :: m in ms;
      assert forall m | m in ms :: m == ms[0] || m in ms[1..];
      var r, o := ResponsesOf(ms), Originals(ms);
      assert r[0] == Response(ms[0].id, CopyString(ms[0].data)) && r[1..] == ResponsesOf(ms[1..]);
      assert o[0] == Response(ms[0].id, ms[0].data) && o[1..] == Originals(ms[1..]);
      assert r == [r[0]] + r[1..] && o == [o[0]] + o[1..];
    }
  }
}
