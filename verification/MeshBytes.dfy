/** The mesh on bytes: agents and provider exchange byte streams that arrive in arbitrary
    fragments.  Every step of it is a sequence of actions of the mesh of messages, so the
    invariant of that mesh holds in every run. */
module MeshBytes {
  import opened Wire
  import opened Frames
  import opened DubboBody
  import opened MeshMessages

  // ---------------------------------------------------------------- one direction of a connection

  /** A receiver with the bytes it could not use yet, the bytes still on their way, and the
      frames that its read callback has decoded but not yet handed on. */
  datatype Pipe = Pipe(reader: Awaiting, rest: seq<byte>, wire: seq<byte>, hand: seq<Frame>)

  function NewPipe(s: Awaiting): Pipe { Pipe(s, [], [], []) }

  /** All that will come out of a pipe. */
  function Traffic(p: Pipe): Drained { Behind(p.hand, Drive(p.reader, p.rest + p.wire)) }

  /** What the receiver makes of the next `n` bytes. */
  function Reading(p: Pipe, n: nat): Drained
    requires n <= |p.wire|
  {
    Drive(p.reader, p.rest + p.wire[..n])
  }

  function Arrived(p: Pipe, n: nat): Pipe
    requires n <= |p.wire| && Reading(p, n).Drained?
  {
    var d := Reading(p, n);
    Pipe(d.state, d.rest, p.wire[n..], p.hand + d.frames)
  }

  /** A reading changes nothing about what comes out. */
  lemma ArrivedSame(p: Pipe, n: nat)
    requires n <= |p.wire|
    ensures Traffic(p).Drained? ==> Reading(p, n).Drained? && Traffic(Arrived(p, n)) == Traffic(p)
  {
    var a, b := p.rest + p.wire[..n], p.wire[n..];
    assert a + b == p.rest + p.wire;
    DriveOn(p.reader, a, b);
    var d := Reading(p, n);
    if d.Drained? {
      BehindTwice(p.hand, d.frames, Drive(d.state, d.rest + b));
    }
  }

  function Put(p: Pipe, bytes: seq<byte>): Pipe { p.(wire := p.wire + bytes) }

  /** Only complete frames are in the pipe, and its receiver will wait as in `s`. */
  predicate Flows(p: Pipe, s: Awaiting) {
    Traffic(p).Drained? && Traffic(p).state == s && Traffic(p).rest == []
  }

  function FramesIn(p: Pipe): seq<Frame> {
    if Traffic(p).Stuck? then [] else Traffic(p).frames
  }

  lemma PutFlows(p: Pipe, s: Awaiting, bytes: seq<byte>, t: Awaiting, frames: seq<Frame>)
    requires Flows(p, s) && Drive(s, bytes) == Drained(t, [], frames)
    ensures Flows(Put(p, bytes), t) && FramesIn(Put(p, bytes)) == FramesIn(p) + frames
  {
    var d := Drive(p.reader, p.rest + p.wire);
    assert p.rest + (p.wire + bytes) == (p.rest + p.wire) + bytes;
    DriveOn(p.reader, p.rest + p.wire, bytes);
    assert [] + bytes == bytes;
    BehindTwice(p.hand, d.frames, Drive(s, bytes));
  }

  function Popped(p: Pipe): Pipe
    requires p.hand != []
  {
    p.(hand := p.hand[1..])
  }

  lemma PoppedFlows(p: Pipe, s: Awaiting)
    requires Flows(p, s) && p.hand != []
    ensures Flows(Popped(p), s) && FramesIn(p) != [] && FramesIn(p)[0] == p.hand[0]
        && FramesIn(Popped(p)) == FramesIn(p)[1..]
  {
    assert p.hand == [p.hand[0]] + p.hand[1..];
    BehindTwice([p.hand[0]], p.hand[1..], Drive(p.reader, p.rest + p.wire));
  }

  function MessageOf(f: Frame): Message { Message(f.id, f.data) }

  function MessagesOf(fs: seq<Frame>): (ms: seq<Message>)
    ensures |ms| == |fs| && forall i | 0 <= i < |fs| :: ms[i] == MessageOf(fs[i])
  {
    if fs == [] then [] else [MessageOf(fs[0])] + MessagesOf(fs[1..])
  }

  lemma MessagesConcat(a: seq<Frame>, b: seq<Frame>)
    ensures MessagesOf(a + b) == MessagesOf(a) + MessagesOf(b)
  {
  }

  lemma MessagesTail(a: seq<Frame>)
    requires a != []
    ensures MessagesOf(a)[0] == MessageOf(a[0]) && MessagesOf(a)[1..] == MessagesOf(a[1..])
  {
  }

  function Contents(p: Pipe): seq<Message> { MessagesOf(FramesIn(p)) }

  // ---------------------------------------------------------------- the state

  datatype Wired = Wired(key: Key, keySent: bool, connected: bool, queue: seq<Message>, up: Pipe, down: Pipe,
                         callbacks: map<int, nat>, contexts: map<int, nat>)

  /** The last four fields only record what has happened. */
  datatype Net = Net(lines: seq<Wired>, dubboOn: bool, jobs: seq<Job>, out: Pipe, pending: seq<Message>, back: Pipe,
                     cbs: map<int, nat>,
                     stage: map<int, Stage>, issued: seq<Issue>, results: map<nat, seq<byte>>, fired: seq<Fired>)

  function AbsLine(l: Wired): Line {
    Line(l.key, l.queue, Contents(l.up), Contents(l.down), l.callbacks, l.contexts)
  }

  function JobMessage(j: Job): Message { Message(j.id, Body(j.key, j.data)) }

  function JobMessages(js: seq<Job>): seq<Message> {
    if js == [] then [] else [JobMessage(js[0])] + JobMessages(js[1..])
  }

  lemma {:induction false} JobMessagesMore(js: seq<Job>, j: Job)
    ensures JobMessages(js + [j]) == JobMessages(js) + [JobMessage(j)]
    decreases |js|
  {
    hide JobMessage;
    if js == [] {
      assert [] + [j] == [j];
    } else {
      assert (js + [j])[0] == js[0] && (js + [j])[1..] == js[1..] + [j];
      JobMessagesMore(js[1..], j);
    }
  }

  function AbsLines(ls: seq<Wired>): (r: seq<Line>)
    ensures |r| == |ls| && forall i | 0 <= i < |ls| :: r[i] == AbsLine(ls[i])
  {
    if ls == [] then [] else [AbsLine(ls[0])] + AbsLines(ls[1..])
  }

  function Abs(s: Net): Mesh {
    Mesh.Mesh(AbsLines(s.lines), JobMessages(s.jobs), Contents(s.out), s.pending, Contents(s.back), s.cbs,
              s.stage, s.issued, s.results, s.fired)
  }

  // ---------------------------------------------------------------- sanity

  predicate IsId(id: int) { 0 <= id < TWO31 }

  /** The request fits its length fields, here and at the provider. */
  predicate Sendable(k: Key, data: seq<byte>) { Fits(data) && Fits(Body(CopyKey(k), CopyString(data))) }

  predicate RequestsOn(fs: seq<Frame>, k: Key) { forall f | f in fs :: f.Request? && f.key == k }
  predicate ResponsesOnly(fs: seq<Frame>) { forall f | f in fs :: f.Response? }

  /** The key is the first thing on a line; before it has been written, nothing is. */
  predicate SaneLine(l: Wired) {
    && KeyFits(l.key)
    && (if l.keySent then Flows(l.up, RequestId(CopyKey(l.key))) && RequestsOn(FramesIn(l.up), CopyKey(l.key))
        else !l.connected && l.up == NewPipe(ActMagic))
    && Flows(l.down, ResponseId(true)) && ResponsesOnly(FramesIn(l.down))
  }

  predicate Sane(s: Net) {
    && (forall c | 0 <= c < |s.lines| :: SaneLine(s.lines[c]))
    && Flows(s.out, DubboMagic(false)) && ResponsesOnly(FramesIn(s.out))
    && Flows(s.back, DubboMagic(true)) && ResponsesOnly(FramesIn(s.back))
    && (forall i | i in s.issued :: IsId(i.id) && i.line < |s.lines| && Sendable(s.lines[i.line].key, i.data))
    && (forall k | k in s.results :: Fits(s.results[k]))
  }

  /** Everything needed of a state, in the middle of a callback or not. */
  ghost predicate Good(s: Net) { Sane(s) && Invariant(Abs(s)) }

  lemma SmallId(id: int)
    requires IsId(id)
    ensures IsInt(id) && ReadLong(LongBytes(id)) == id
  {
    LongRoundTrip(id);
    IntSum(id);
    var a, b, c, d := ByteAt(id, 3), ByteAt(id, 2), ByteAt(id, 1), ByteAt(id, 0);
    WordSmall(a, b, c, d);
    hide Word, ByteAt, Shift;
    assert Shift(id, 4) == 0;
  }

  // ---------------------------------------------------------------- the steps of the code

  function WithWired(s: Net, c: nat, l: Wired): Net
    requires c < |s.lines|
  {
    s.(lines := s.lines[c := l])
  }

  /** One turn of the loop in _pa_handle_queue. */
  function SendHead(s: Net, c: nat): Net
    requires c < |s.lines| && s.lines[c].queue != []
  {
    var l := s.lines[c];
    var h := l.queue[0];
    var n := WithWired(s, c, l.(queue := l.queue[1..], up := Put(l.up, EncodeAct(h.id, h.data))));
    if h.id in s.stage then n.(stage := s.stage[h.id := s.stage[h.id].(at := ToAgent)]) else n
  }

  function HandleQueue(s: Net, c: nat): Net
    requires c < |s.lines|
    decreases |s.lines[c].queue|
  {
    if !s.lines[c].connected || s.lines[c].queue == [] then s else HandleQueue(SendHead(s, c), c)
  }

  function PushRequest(s: Net, c: nat, id: int, context: nat, data: seq<byte>): Net
    requires c < |s.lines|
  {
    var l, call := s.lines[c], |s.issued|;
    WithWired(s, c, l.(queue := l.queue + [Message(id, data)], callbacks := l.callbacks[id := call],
                       contexts := l.contexts[id := context]))
      .(stage := s.stage[id := Stage(Queued, c, call)], issued := s.issued + [Issue(id, c, context, data)])
  }

  /** One turn of the loop in handle_queue of the Dubbo client. */
  function ForwardHead(s: Net): Net
    requires s.jobs != []
  {
    var j := s.jobs[0];
    var n := s.(jobs := s.jobs[1..], out := Put(s.out, EncodeDubbo(FLAGS, j.id, Body(j.key, j.data))));
    if j.id in s.stage then n.(stage := s.stage[j.id := s.stage[j.id].(at := ToProvider)]) else n
  }

  function DubboQueue(s: Net): Net
    decreases |s.jobs|
  {
    if !s.dubboOn || s.jobs == [] then s else DubboQueue(ForwardHead(s))
  }

  /** dubbo_fetch for a request that `on_read` has decoded. */
  function PushJob(s: Net, c: nat): Net
    requires c < |s.lines| && s.lines[c].up.hand != [] && s.lines[c].up.hand[0].Request?
  {
    var l := s.lines[c];
    var f := l.up.hand[0];
    var n := WithWired(s, c, l.(up := Popped(l.up)))
      .(jobs := s.jobs + [Job(f.id, f.key, f.data)], cbs := s.cbs[f.id := c]);
    if f.id in s.stage then n.(stage := s.stage[f.id := s.stage[f.id].(at := AtAgent)]) else n
  }

  function AgentReads(s: Net, c: nat): Net
    requires c < |s.lines|
    decreases |s.lines[c].up.hand|
  {
    var hand := s.lines[c].up.hand;
    if hand == [] || !hand[0].Request? then s
    else
      DubboQueueLines(PushJob(s, c));
      AgentReads(DubboQueue(PushJob(s, c)), c)
  }

  lemma {:induction false} DubboQueueLines(s: Net)
    ensures DubboQueue(s).lines == s.lines
    decreases |s.jobs|
  {
    if s.dubboOn && s.jobs != [] { DubboQueueLines(ForwardHead(s)); }
  }

  /** The provider takes a request. */
  function PushPending(s: Net): Net
    requires s.out.hand != []
  {
    var f := s.out.hand[0];
    var n := s.(out := Popped(s.out), pending := s.pending + [MessageOf(f)]);
    if f.id in s.stage then n.(stage := s.stage[f.id := s.stage[f.id].(at := AtProvider)]) else n
  }

  function ProviderReads(s: Net): Net
    decreases |s.out.hand|
  {
    if s.out.hand == [] then s else ProviderReads(PushPending(s))
  }

  /** _dubbo_callback: the answer is written to the line of the request. */
  function WriteBack(s: Net): Net
    requires s.back.hand != [] && s.back.hand[0].id in s.cbs && s.cbs[s.back.hand[0].id] < |s.lines|
  {
    var f := s.back.hand[0];
    var c := s.cbs[f.id];
    var l := s.lines[c];
    var n := WithWired(s, c, l.(down := Put(l.down, EncodeAct(f.id, f.data))))
      .(back := Popped(s.back), cbs := s.cbs - {f.id});
    if f.id in s.stage then n.(stage := s.stage[f.id := s.stage[f.id].(at := ToConsumer)]) else n
  }

  /** `_d_read_cb` stops being defined where a callback is not in the map. */
  function HubReads(s: Net): Net
    decreases |s.back.hand|
  {
    if s.back.hand == [] || s.back.hand[0].id !in s.cbs || s.cbs[s.back.hand[0].id] >= |s.lines| then s
    else HubReads(WriteBack(s))
  }

  /** The callback of a request. */
  function Call(s: Net, c: nat): Net
    requires c < |s.lines| && s.lines[c].down.hand != []
    requires s.lines[c].down.hand[0].id in s.lines[c].callbacks && s.lines[c].down.hand[0].id in s.lines[c].contexts
  {
    var l := s.lines[c];
    var f := l.down.hand[0];
    WithWired(s, c, l.(down := Popped(l.down), callbacks := l.callbacks - {f.id}, contexts := l.contexts - {f.id}))
      .(stage := s.stage - {f.id}, fired := s.fired + [Fired(l.callbacks[f.id], l.contexts[f.id], f.data)])
  }

  function ConsumerReads(s: Net, c: nat): Net
    requires c < |s.lines|
    decreases |s.lines[c].down.hand|
  {
    var l := s.lines[c];
    if l.down.hand == [] || l.down.hand[0].id !in l.callbacks || l.down.hand[0].id !in l.contexts then s
    else ConsumerReads(Call(s, c), c)
  }

  // ---------------------------------------------------------------- every step is an action

  lemma AbsUpdate(ls: seq<Wired>, c: nat, l: Wired)
    requires c < |ls|
    ensures AbsLines(ls[c := l]) == AbsLines(ls)[c := AbsLine(l)]
  {
    hide AbsLine;
  }

  lemma OtherLinesSane(s: Net, n: Net, c: nat, l: Wired)
    requires Sane(s) && c < |s.lines| && n.lines == s.lines[c := l] && SaneLine(l) && l.key == s.lines[c].key
    requires n.out == s.out && n.back == s.back && n.issued == s.issued && n.results == s.results
    ensures Sane(n)
  {
    hide SaneLine, Flows, ResponsesOnly, Sendable;
  }

  /** A request in flight has an id that can be sent, and fits its length fields. */
  lemma IssuedFits(s: Net, x: int)
    requires Sane(s) && Known(Abs(s)) && x in s.stage
    ensures var t := s.stage[x];
        && t.line < |s.lines| && t.call < |s.issued| && IsId(x) && Sendable(s.lines[t.line].key, s.issued[t.call].data)
        && Abs(s).lines[t.line].key == s.lines[t.line].key
        && (t.call in s.results ==> Fits(s.results[t.call]))
  {
    hide SaneLine, Flows, ResponsesOnly, Sendable, Contents;
    assert s.issued[s.stage[x].call] in s.issued;
  }

  /** What the invariant knows about the request at the head of a queue. */
  lemma QueueHead(s: Net, c: nat)
    requires Good(s) && c < |s.lines| && s.lines[c].queue != []
    ensures var h := s.lines[c].queue[0];
        CanSend(Abs(s), c) && IsId(h.id) && Fits(h.data) && Sendable(s.lines[c].key, h.data)
  {
    var m := Abs(s);
    assert LineQueues(m, c);
    hide Invariant, Sane, Known, HubQueues, HubMap, LineMaps, Contents, Body, Holds;
    HeadHere(m, m.lines[c].queue, 0, Queued, c);
    IssuedFits(s, s.lines[c].queue[0].id);
  }

  lemma ActPut(text: bool, p: Pipe, id: int, data: seq<byte>)
    requires Flows(p, ResponseId(text)) && ResponsesOnly(FramesIn(p)) && IsId(id) && Fits(data)
    ensures var q := Put(p, EncodeAct(id, data));
        && Flows(q, ResponseId(text)) && ResponsesOnly(FramesIn(q))
        && Contents(q) == Contents(p) + [Message(id, CopyString(data))]
  {
    hide Drive, EncodeAct, CopyString, FramesIn, Flows;
    var f := Response(id, CopyString(data));
    assert EncodeAct(id, data) + [] == EncodeAct(id, data);
    ResponseRead(text, id, data, []);
    DriveNothing(ResponseId(text));
    PutFlows(p, ResponseId(text), EncodeAct(id, data), ResponseId(text), [f]);
    MessagesConcat(FramesIn(p), [f]);
    assert MessagesOf([f]) == [MessageOf(f)];
  }

  lemma DriveNothing(s: Awaiting)
    requires Need(s) > 0
    ensures Drive(s, []) == Drained(s, [], [])
  {
  }

  lemma RequestPut(k: Key, p: Pipe, id: int, data: seq<byte>)
    requires Flows(p, RequestId(k)) && RequestsOn(FramesIn(p), k) && IsId(id) && Fits(data)
    ensures var q := Put(p, EncodeAct(id, data));
        && Flows(q, RequestId(k)) && RequestsOn(FramesIn(q), k)
        && Contents(q) == Contents(p) + [Message(id, CopyString(data))]
  {
    hide Drive, EncodeAct, CopyString, FramesIn, Flows;
    var f := Request(k, id, CopyString(data));
    assert EncodeAct(id, data) + [] == EncodeAct(id, data);
    RequestRead(k, id, data, []);
    DriveNothing(RequestId(k));
    PutFlows(p, RequestId(k), EncodeAct(id, data), RequestId(k), [f]);
    MessagesConcat(FramesIn(p), [f]);
    assert MessagesOf([f]) == [MessageOf(f)];
  }

  lemma DubboPut(text: bool, flags: seq<byte>, p: Pipe, id: int, data: seq<byte>)
    requires Flows(p, DubboMagic(text)) && ResponsesOnly(FramesIn(p)) && IsId(id) && Fits(data) && |flags| == 2
    ensures var q := Put(p, EncodeDubbo(flags, id, data));
        && Flows(q, DubboMagic(text)) && ResponsesOnly(FramesIn(q))
        && Contents(q) == Contents(p) + [Message(id, if text then CopyString(data) else data)]
  {
    hide Drive, EncodeDubbo, CopyString, FramesIn, Flows;
    var f := Response(id, if text then CopyString(data) else data);
    assert EncodeDubbo(flags, id, data) + [] == EncodeDubbo(flags, id, data);
    SmallId(id);
    DubboRead(text, flags, id, data, []);
    DriveNothing(DubboMagic(text));
    PutFlows(p, DubboMagic(text), EncodeDubbo(flags, id, data), DubboMagic(text), [f]);
    MessagesConcat(FramesIn(p), [f]);
    assert MessagesOf([f]) == [MessageOf(f)];
  }

  lemma SendHeadGood(s: Net, c: nat)
    requires Good(s) && c < |s.lines| && s.lines[c].queue != [] && s.lines[c].keySent
    ensures Good(SendHead(s, c)) && CanSend(Abs(s), c) && Abs(SendHead(s, c)) == Sent(Abs(s), c)
  {
    var n, l := SendHead(s, c), s.lines[c];
    var h := l.queue[0];
    hide Invariant, Flows, FramesIn, Contents, RequestsOn, ResponsesOnly;
    QueueHead(s, c);
    RequestPut(CopyKey(l.key), l.up, h.id, h.data);
    var z := l.(queue := l.queue[1..], up := Put(l.up, EncodeAct(h.id, h.data)));
    AbsUpdate(s.lines, c, z);
    assert SaneLine(z);
    OtherLinesSane(s, n, c, z);
    assert Abs(n) == Sent(Abs(s), c);
    SentKeeps(Abs(s), c);
  }

  lemma {:induction false} HandleQueueGood(s: Net, c: nat)
    requires Good(s) && c < |s.lines|
    ensures Good(HandleQueue(s, c)) && |HandleQueue(s, c).lines| == |s.lines|
    decreases |s.lines[c].queue|
  {
    if s.lines[c].connected && s.lines[c].queue != [] {
      hide Good, SendHead;
      ConnectedHasKey(s, c);
      SendHeadGood(s, c);
      SendHeadShape(s, c);
      HandleQueueGood(SendHead(s, c), c);
    }
  }

  lemma ConnectedHasKey(s: Net, c: nat)
    requires Good(s) && c < |s.lines| && s.lines[c].connected
    ensures s.lines[c].keySent
  {
    hide Invariant;
    assert SaneLine(s.lines[c]);
  }

  lemma SendHeadShape(s: Net, c: nat)
    requires c < |s.lines| && s.lines[c].queue != []
    ensures |SendHead(s, c).lines| == |s.lines| && |SendHead(s, c).lines[c].queue| < |s.lines[c].queue|
  {
  }

  /** pa_client_fetch, with an id that is not in flight anywhere. */
  lemma FetchGood(s: Net, c: nat, id: int, context: nat, data: seq<byte>)
    requires Good(s) && c < |s.lines| && id !in s.stage && IsId(id) && Sendable(s.lines[c].key, data)
    ensures Good(HandleQueue(PushRequest(s, c, id, context, data), c))
  {
    hide Good;
    PushRequestGood(s, c, id, context, data);
    HandleQueueGood(PushRequest(s, c, id, context, data), c);
  }

  lemma PushRequestSane(s: Net, c: nat, id: int, context: nat, data: seq<byte>)
    requires Sane(s) && c < |s.lines| && IsId(id) && Sendable(s.lines[c].key, data)
    ensures Sane(PushRequest(s, c, id, context, data))
  {
    hide SaneLine, Flows, ResponsesOnly, Sendable;
    var n := PushRequest(s, c, id, context, data);
    SameLine(s.lines[c], n.lines[c]);
    forall i | i in n.issued ensures IsId(i.id) && i.line < |n.lines| && Sendable(n.lines[i.line].key, i.data) {
      assert i in s.issued || i == Issue(id, c, context, data);
    }
  }

  /** Queue and maps do not matter for the sanity of a line. */
  lemma SameLine(l: Wired, z: Wired)
    requires z == l.(queue := z.queue, callbacks := z.callbacks, contexts := z.contexts)
    ensures SaneLine(l) == SaneLine(z)
  {
  }

  lemma PushRequestGood(s: Net, c: nat, id: int, context: nat, data: seq<byte>)
    requires Good(s) && c < |s.lines| && id !in s.stage && IsId(id) && Sendable(s.lines[c].key, data)
    ensures Good(PushRequest(s, c, id, context, data))
  {
    hide Invariant, Sane, Contents, Sendable;
    var n := PushRequest(s, c, id, context, data);
    PushRequestSane(s, c, id, context, data);
    AbsUpdate(s.lines, c, n.lines[c]);
    assert Abs(n) == Fetched(Abs(s), c, id, context, data);
    FetchedKeeps(Abs(s), c, id, context, data);
  }

  // ---------------------------------------------------------------- the provider agent

  /** The next frame of a pipe, as a message. */
  lemma HandHead(p: Pipe, s: Awaiting)
    requires Flows(p, s) && p.hand != []
    ensures Flows(Popped(p), s) && FramesIn(p) != [] && FramesIn(p)[0] == p.hand[0]
        && FramesIn(Popped(p)) == FramesIn(p)[1..]
    ensures Contents(p) != [] && Contents(p)[0] == MessageOf(p.hand[0]) && Contents(Popped(p)) == Contents(p)[1..]
  {
    PoppedFlows(p, s);
    hide FramesIn, Flows;
    MessagesTail(FramesIn(p));
  }

  lemma PushJobSane(s: Net, c: nat)
    requires Sane(s) && c < |s.lines| && s.lines[c].keySent && s.lines[c].up.hand != []
    ensures var l := s.lines[c];
        && l.up.hand[0].Request? && l.up.hand[0].key == CopyKey(l.key)
        && Contents(l.up) != [] && Contents(l.up)[0] == MessageOf(l.up.hand[0])
        && Contents(Popped(l.up)) == Contents(l.up)[1..]
        && Sane(PushJob(s, c))
  {
    hide Flows, FramesIn, Contents;
    var l := s.lines[c];
    HandHead(l.up, RequestId(CopyKey(l.key)));
    assert l.up.hand[0] in FramesIn(l.up);
    var z := l.(up := Popped(l.up));
    assert SaneLine(z);
    OtherLinesSane(s, PushJob(s, c), c, z);
  }

  /** dubbo_fetch is the action of the agent. */
  lemma PushJobGood(s: Net, c: nat)
    requires Good(s) && c < |s.lines| && s.lines[c].keySent && s.lines[c].up.hand != []
    ensures s.lines[c].up.hand[0].Request? && Good(PushJob(s, c))
    ensures CanTake(Abs(s), c) && Abs(PushJob(s, c)) == AgentTook(Abs(s), c)
  {
    hide Invariant, Sane, Contents, Body, CopyKey, JobMessages;
    PushJobSane(s, c);
    var m, n, l := Abs(s), PushJob(s, c), s.lines[c];
    var f := l.up.hand[0];
    LookupsHit(m, c);
    AbsUpdate(s.lines, c, n.lines[c]);
    JobMessagesMore(s.jobs, Job(f.id, f.key, f.data));
    assert Abs(n) == AgentTook(m, c);
    AgentTookKeeps(m, c);
  }

  lemma JobStage(s: Net)
    requires Good(s) && s.jobs != []
    ensures var m, j := Abs(s), s.jobs[0];
        && Known(m) && CanForward(m) && m.stage[j.id].at == AtAgent && m.jobs[0] == JobMessage(j)
        && Body(j.key, j.data) == DataAt(m, m.stage[j.id])
  {
    var m := Abs(s);
    HubParts(m);
    hide Invariant, Sane, Known, Contents, Body, DataAt, Holds;
    HeadHere(m, m.jobs, 0, AtAgent, ALL);
  }

  lemma JobData(m: Mesh, t: Stage, k: Key, data: seq<byte>)
    requires t.line < |m.lines| && t.call < |m.issued| && t.at == AtAgent
    requires m.lines[t.line].key == k && m.issued[t.call].data == data && Sendable(k, data)
    ensures Fits(DataAt(m, t))
  {
    hide Body, CopyKey, CopyString;
  }

  /** What the invariant knows about the oldest job. */
  lemma JobHead(s: Net)
    requires Good(s) && s.jobs != []
    ensures var j := s.jobs[0];
        CanForward(Abs(s)) && IsId(j.id) && Fits(Body(j.key, j.data)) && Abs(s).jobs[0] == JobMessage(j)
  {
    hide Invariant, Sane, Known, Contents, Body, CopyKey, CopyString, DataAt, Sendable;
    JobStage(s);
    IssuedFits(s, s.jobs[0].id);
    var t := s.stage[s.jobs[0].id];
    JobData(Abs(s), t, s.lines[t.line].key, s.issued[t.call].data);
  }

  lemma HubParts(m: Mesh)
    requires Invariant(m)
    ensures Known(m)
    ensures Holds(m, m.jobs, AtAgent, ALL) && Holds(m, m.toProvider, ToProvider, ALL)
    ensures Holds(m, m.pending, AtProvider, ALL) && Holds(m, m.fromProvider, FromProvider, ALL)
  {
    hide Known, Holds, FiredOnce, HubMap, LineMaps, LineQueues;
  }

  /** A change that only concerns the pipes of the provider. */
  lemma HubSane(s: Net, n: Net)
    requires Sane(s) && n.lines == s.lines && n.issued == s.issued
    requires Flows(n.out, DubboMagic(false)) && ResponsesOnly(FramesIn(n.out))
    requires Flows(n.back, DubboMagic(true)) && ResponsesOnly(FramesIn(n.back))
    requires forall k | k in n.results :: Fits(n.results[k])
    ensures Sane(n)
  {
    hide SaneLine, Flows, ResponsesOnly, Sendable;
  }

  lemma ForwardHeadSane(s: Net)
    requires Sane(s) && s.jobs != [] && IsId(s.jobs[0].id) && Fits(Body(s.jobs[0].key, s.jobs[0].data))
    ensures Sane(ForwardHead(s))
    ensures Contents(ForwardHead(s).out) == Contents(s.out) + [JobMessage(s.jobs[0])]
  {
    hide Body, Flows, FramesIn, Contents, SaneLine, ResponsesOnly, Sendable;
    var n, j := ForwardHead(s), s.jobs[0];
    DubboPut(false, FLAGS, s.out, j.id, Body(j.key, j.data));
    HubSane(s, n);
  }

  lemma ForwardHeadGood(s: Net)
    requires Good(s) && s.jobs != []
    ensures Good(ForwardHead(s)) && CanForward(Abs(s)) && Abs(ForwardHead(s)) == Forwarded(Abs(s))
  {
    JobHead(s);
    ForwardHeadSane(s);
    var m, n, j := Abs(s), ForwardHead(s), s.jobs[0];
    assert JobMessages(s.jobs)[1..] == JobMessages(s.jobs[1..]);
    hide Invariant, Sane, Contents, JobMessage, JobMessages, AbsLines;
    assert Abs(n) == Forwarded(m);
    ForwardedKeeps(m);
  }

  lemma {:induction false} DubboQueueGood(s: Net)
    requires Good(s)
    ensures Good(DubboQueue(s)) && DubboQueue(s).lines == s.lines
    decreases |s.jobs|
  {
    DubboQueueLines(s);
    if s.dubboOn && s.jobs != [] {
      hide Good, ForwardHead;
      ForwardHeadGood(s);
      ForwardHeadShape(s);
      DubboQueueGood(ForwardHead(s));
    }
  }

  lemma ForwardHeadShape(s: Net)
    requires s.jobs != []
    ensures |ForwardHead(s).jobs| < |s.jobs|
  {
  }

  /** Everything that `on_read` has decoded is handed on, and is on its way to the provider
      or waits for the connection. */
  lemma {:induction false} AgentReadsGood(s: Net, c: nat)
    requires Good(s) && c < |s.lines| && s.lines[c].keySent
    ensures Good(AgentReads(s, c)) && |AgentReads(s, c).lines| == |s.lines| && AgentReads(s, c).lines[c].up.hand == []
    decreases |s.lines[c].up.hand|
  {
    if s.lines[c].up.hand != [] {
      hide Good, PushJob;
      PushJobGood(s, c);
      PushJobShape(s, c);
      DubboQueueGood(PushJob(s, c));
      hide DubboQueue;
      AgentReadsGood(DubboQueue(PushJob(s, c)), c);
    }
  }

  lemma PushJobShape(s: Net, c: nat)
    requires c < |s.lines| && s.lines[c].up.hand != [] && s.lines[c].up.hand[0].Request?
    ensures var n := PushJob(s, c);
        && |n.lines| == |s.lines| && n.lines[c].keySent == s.lines[c].keySent
        && |n.lines[c].up.hand| < |s.lines[c].up.hand|
  {
  }

  // ---------------------------------------------------------------- the provider

  lemma PushPendingSane(s: Net)
    requires Sane(s) && s.out.hand != []
    ensures Sane(PushPending(s)) && Contents(s.out) != [] && Contents(s.out)[0] == MessageOf(s.out.hand[0])
    ensures Contents(PushPending(s).out) == Contents(s.out)[1..]
  {
    hide Flows, FramesIn, Contents, SaneLine, Sendable;
    HandHead(s.out, DubboMagic(false));
    HubSane(s, PushPending(s));
  }

  lemma PushPendingGood(s: Net)
    requires Good(s) && s.out.hand != []
    ensures Good(PushPending(s)) && CanReceive(Abs(s)) && Abs(PushPending(s)) == Received(Abs(s))
  {
    var m, n := Abs(s), PushPending(s);
    PushPendingSane(s);
    HubParts(m);
    hide Invariant, Sane, Known, Contents, AbsLines, JobMessages, Holds;
    HeadHere(m, m.toProvider, 0, ToProvider, ALL);
    assert Abs(n) == Received(m);
    ReceivedKeeps(m);
  }

  lemma {:induction false} ProviderReadsGood(s: Net)
    requires Good(s)
    ensures Good(ProviderReads(s)) && ProviderReads(s).out.hand == [] && ProviderReads(s).lines == s.lines
    decreases |s.out.hand|
  {
    if s.out.hand != [] {
      hide Good;
      PushPendingGood(s);
      ProviderReadsGood(PushPending(s));
    }
  }

  /** The provider answers the i-th of its requests. */
  function ProviderAnswers(s: Net, i: nat, flags: seq<byte>, result: seq<byte>): Net
    requires i < |s.pending|
  {
    var id := s.pending[i].id;
    var n := s.(pending := s.pending[..i] + s.pending[i + 1..], back := Put(s.back, EncodeDubbo(flags, id, result)));
    if id in s.stage then n.(stage := s.stage[id := s.stage[id].(at := FromProvider)],
                             results := s.results[s.stage[id].call := result]) else n
  }

  lemma PendingHas(s: Net, i: nat)
    requires Good(s) && i < |s.pending|
    ensures CanAnswer(Abs(s), i) && IsId(s.pending[i].id)
  {
    var m, id := Abs(s), s.pending[i].id;
    HubParts(m);
    hide Invariant, Sane, Known, Contents, Holds;
    HeadHere(m, m.pending, i, AtProvider, ALL);
    IssuedFits(s, id);
  }

  lemma ProviderAnswersSane(s: Net, i: nat, flags: seq<byte>, result: seq<byte>)
    requires Sane(s) && i < |s.pending| && |flags| == 2 && Fits(result) && IsId(s.pending[i].id)
    ensures var n := ProviderAnswers(s, i, flags, result);
        Sane(n) && Contents(n.back) == Contents(s.back) + [Message(s.pending[i].id, CopyString(result))]
  {
    hide Contents, Flows, FramesIn, SaneLine, ResponsesOnly, Sendable, CopyString;
    DubboPut(true, flags, s.back, s.pending[i].id, result);
    HubSane(s, ProviderAnswers(s, i, flags, result));
  }

  lemma ProviderAnswersGood(s: Net, i: nat, flags: seq<byte>, result: seq<byte>)
    requires Good(s) && i < |s.pending| && |flags| == 2 && Fits(result)
    ensures Good(ProviderAnswers(s, i, flags, result)) && CanAnswer(Abs(s), i)
    ensures Abs(ProviderAnswers(s, i, flags, result)) == AnsweredWith(Abs(s), i, result)
  {
    PendingHas(s, i);
    ProviderAnswersSane(s, i, flags, result);
    hide Invariant, Sane, Contents, AbsLines, JobMessages, CopyString;
    var m, n := Abs(s), ProviderAnswers(s, i, flags, result);
    assert Abs(n) == AnsweredWith(m, i, result);
    AnsweredKeeps(m, i, result);
  }

  // ---------------------------------------------------------------- the way back

  lemma AnswerStage(s: Net)
    requires Good(s) && s.back.hand != []
    ensures var m, f := Abs(s), s.back.hand[0];
        && Known(m) && f.id in m.stage && m.stage[f.id].at == FromProvider && CanReturn(m)
        && m.fromProvider[0] == MessageOf(f) && f.data == DataAt(m, m.stage[f.id])
  {
    var m := Abs(s);
    BackHead(s);
    HubParts(m);
    ReturnHits(m);
    hide Invariant, Sane, Known, Contents, Holds, DataAt;
    HeadHere(m, m.fromProvider, 0, FromProvider, ALL);
  }

  lemma AnswerData(m: Mesh, t: Stage)
    requires t.line < |m.lines| && t.call < |m.issued| && t.at == FromProvider && t.call in m.results
    requires Fits(m.results[t.call])
    ensures Fits(DataAt(m, t))
  {
    hide Body, CopyKey, CopyString;
  }

  /** What the invariant knows about the next answer. */
  lemma AnswerHead(s: Net)
    requires Good(s) && s.back.hand != []
    ensures var f := s.back.hand[0];
        && CanReturn(Abs(s)) && f.id in s.cbs && s.cbs[f.id] < |s.lines| && IsId(f.id) && Fits(f.data)
        && Abs(s).fromProvider[0] == MessageOf(f)
  {
    hide Invariant, Sane, Known, Contents, CopyString, DataAt, Sendable;
    AnswerStage(s);
    IssuedFits(s, s.back.hand[0].id);
    ResultKnown(Abs(s), s.back.hand[0].id);
    AnswerData(Abs(s), s.stage[s.back.hand[0].id]);
  }

  lemma ResultKnown(m: Mesh, x: int)
    requires Known(m) && x in m.stage && Answered(m.stage[x].at)
    ensures m.stage[x].call in m.results
  {
  }

  lemma ReturnHits(m: Mesh)
    requires Invariant(m) && m.fromProvider != []
    ensures CanReturn(m)
  {
    hide Holds, FiredOnce, LineMaps, LineQueues;
    HeadHere(m, m.fromProvider, 0, FromProvider, ALL);
  }

  lemma BackHead(s: Net)
    requires Sane(s) && s.back.hand != []
    ensures Contents(s.back) != [] && Contents(s.back)[0] == MessageOf(s.back.hand[0])
    ensures Contents(Popped(s.back)) == Contents(s.back)[1..]
    ensures Flows(Popped(s.back), DubboMagic(true)) && ResponsesOnly(FramesIn(Popped(s.back)))
  {
    hide Flows, FramesIn, Contents, SaneLine, Sendable;
    HandHead(s.back, DubboMagic(true));
  }

  lemma WriteBackSane(s: Net)
    requires Sane(s) && s.back.hand != [] && IsId(s.back.hand[0].id) && Fits(s.back.hand[0].data)
    requires s.back.hand[0].id in s.cbs && s.cbs[s.back.hand[0].id] < |s.lines|
    ensures var n, f := WriteBack(s), s.back.hand[0];
        Sane(n) && var c := s.cbs[f.id];
        && n.lines == s.lines[c := n.lines[c]]
        && AbsLine(n.lines[c]) ==
           AbsLine(s.lines[c]).(toConsumer := Contents(s.lines[c].down) + [Message(f.id, CopyString(f.data))])
  {
    hide Contents, Flows, FramesIn, ResponsesOnly, RequestsOn, Sendable, CopyString;
    var n, f := WriteBack(s), s.back.hand[0];
    var c := s.cbs[f.id];
    var l := s.lines[c];
    BackHead(s);
    assert SaneLine(l);
    ActPut(true, l.down, f.id, f.data);
    var z := n.lines[c];
    assert SaneLine(z);
    hide SaneLine;
    OtherLinesSane(s, s.(lines := n.lines), c, z);
    HubSane(s.(lines := n.lines), n);
  }

  lemma WriteBackGood(s: Net)
    requires Good(s) && s.back.hand != []
    ensures var f := s.back.hand[0]; f.id in s.cbs && s.cbs[f.id] < |s.lines| && Good(WriteBack(s))
    ensures CanReturn(Abs(s)) && Abs(WriteBack(s)) == Returned(Abs(s))
  {
    AnswerHead(s);
    WriteBackSane(s);
    BackHead(s);
    var m, n, f := Abs(s), WriteBack(s), s.back.hand[0];
    AbsUpdate(s.lines, s.cbs[f.id], n.lines[s.cbs[f.id]]);
    hide Invariant, Sane, Contents, JobMessages, CopyString, AbsLines;
    assert Abs(n) == Returned(m);
    ReturnedKeeps(m);
  }

  lemma {:induction false} HubReadsGood(s: Net)
    requires Good(s)
    ensures Good(HubReads(s)) && HubReads(s).back.hand == [] && |HubReads(s).lines| == |s.lines|
    decreases |s.back.hand|
  {
    if s.back.hand != [] {
      hide Good, WriteBack;
      WriteBackGood(s);
      WriteBackShape(s);
      HubReadsGood(WriteBack(s));
    }
  }

  lemma WriteBackShape(s: Net)
    requires s.back.hand != [] && s.back.hand[0].id in s.cbs && s.cbs[s.back.hand[0].id] < |s.lines|
    ensures |WriteBack(s).lines| == |s.lines| && |WriteBack(s).back.hand| < |s.back.hand|
  {
  }

  lemma CallHead(s: Net, c: nat)
    requires Good(s) && c < |s.lines| && s.lines[c].down.hand != []
    ensures var l := s.lines[c];
        && CanFinish(Abs(s), c) && l.down.hand[0].id in l.callbacks && l.down.hand[0].id in l.contexts
        && Contents(l.down)[0] == MessageOf(l.down.hand[0]) && Contents(Popped(l.down)) == Contents(l.down)[1..]
        && SaneLine(l.(down := Popped(l.down)))
  {
    var m, l := Abs(s), s.lines[c];
    hide Invariant, Contents, Flows, FramesIn, RequestsOn;
    HandHead(l.down, ResponseId(true));
    LookupsHit(m, c);
  }

  lemma CallGood(s: Net, c: nat)
    requires Good(s) && c < |s.lines| && s.lines[c].down.hand != []
    ensures var l := s.lines[c];
        l.down.hand[0].id in l.callbacks && l.down.hand[0].id in l.contexts && Good(Call(s, c))
    ensures CanFinish(Abs(s), c) && Abs(Call(s, c)) == Finished(Abs(s), c)
  {
    CallHead(s, c);
    hide Invariant, Contents, Flows, FramesIn, ResponsesOnly, SaneLine, Sendable;
    var m, n, l := Abs(s), Call(s, c), s.lines[c];
    SameLine(l.(down := Popped(l.down)), n.lines[c]);
    OtherLinesSane(s, n, c, n.lines[c]);
    AbsUpdate(s.lines, c, n.lines[c]);
    assert Abs(n) == Finished(m, c);
    FinishedKeeps(m, c);
  }

  lemma {:induction false} ConsumerReadsGood(s: Net, c: nat)
    requires Good(s) && c < |s.lines|
    ensures Good(ConsumerReads(s, c)) && |ConsumerReads(s, c).lines| == |s.lines|
        && ConsumerReads(s, c).lines[c].down.hand == []
    decreases |s.lines[c].down.hand|
  {
    if s.lines[c].down.hand != [] {
      hide Good, Call;
      CallGood(s, c);
      CallShape(s, c);
      ConsumerReadsGood(Call(s, c), c);
    }
  }

  lemma CallShape(s: Net, c: nat)
    requires c < |s.lines| && s.lines[c].down.hand != []
    requires s.lines[c].down.hand[0].id in s.lines[c].callbacks && s.lines[c].down.hand[0].id in s.lines[c].contexts
    ensures |Call(s, c).lines| == |s.lines| && |Call(s, c).lines[c].down.hand| < |s.lines[c].down.hand|
  {
  }

  // ---------------------------------------------------------------- events and runs

  datatype Event =
    | Fetching(line: nat, id: int, context: nat, data: seq<byte>)   // pa_client_fetch
    | Connecting(line: nat)                                         // _pa_on_conn
    | KeyWritten(line: nat)                                         // _pa_key_write_cb
    | AgentData(line: nat, n: nat)                                  // on_read, n bytes
    | DubboConnected                                                // _d_on_connect
    | ProviderData(n: nat)
    | ProviderAnswer(i: nat, flags: seq<byte>, result: seq<byte>)
    | HubData(n: nat)                                               // _d_read_cb, n bytes
    | ConsumerData(line: nat, n: nat)                               // _pa_read_cb, n bytes

  /** Ids in flight are distinct and what they have to be; nothing else is asked for. */
  predicate Possible(s: Net, e: Event) {
    match e
    case Fetching(c, id, _, data) =>
      c < |s.lines| && id !in s.stage && IsId(id) && Sendable(s.lines[c].key, data)
    case Connecting(c) => c < |s.lines| && !s.lines[c].keySent
    case KeyWritten(c) => c < |s.lines| && s.lines[c].keySent && !s.lines[c].connected
    case AgentData(c, n) => c < |s.lines| && 0 < n <= |s.lines[c].up.wire|
    case DubboConnected => !s.dubboOn
    case ProviderData(n) => n <= |s.out.wire|
    case ProviderAnswer(i, flags, result) => i < |s.pending| && |flags| == 2 && Fits(result)
    case HubData(n) => n <= |s.back.wire|
    case ConsumerData(c, n) => c < |s.lines| && n <= |s.lines[c].down.wire|
  }

  /** A reader that is stuck stays where it is. */
  function Arriving(p: Pipe, n: nat): Pipe
    requires n <= |p.wire|
  {
    if Reading(p, n).Stuck? then p else Arrived(p, n)
  }

  function UpArrives(s: Net, c: nat, n: nat): (r: Net)
    requires c < |s.lines| && n <= |s.lines[c].up.wire|
    ensures |r.lines| == |s.lines|
  {
    WithWired(s, c, s.lines[c].(up := Arriving(s.lines[c].up, n)))
  }

  function DownArrives(s: Net, c: nat, n: nat): (r: Net)
    requires c < |s.lines| && n <= |s.lines[c].down.wire|
    ensures |r.lines| == |s.lines|
  {
    WithWired(s, c, s.lines[c].(down := Arriving(s.lines[c].down, n)))
  }

  function After(s: Net, e: Event): Net
    requires Possible(s, e)
  {
    match e
    case Fetching(c, id, context, data) => HandleQueue(PushRequest(s, c, id, context, data), c)
    case Connecting(c) =>
      var l := s.lines[c];
      WithWired(s, c, l.(keySent := true, up := Put(l.up, EncodeKey(l.key))))
    case KeyWritten(c) => HandleQueue(WithWired(s, c, s.lines[c].(connected := true)), c)
    case AgentData(c, n) => AgentReads(UpArrives(s, c, n), c)
    case DubboConnected => DubboQueue(s.(dubboOn := true))
    case ProviderData(n) => ProviderReads(s.(out := Arriving(s.out, n)))
    case ProviderAnswer(i, flags, result) => ProviderAnswers(s, i, flags, result)
    case HubData(n) => HubReads(s.(back := Arriving(s.back, n)))
    case ConsumerData(c, n) => ConsumerReads(DownArrives(s, c, n), c)
  }

  /** No reader of a good state gets stuck, and what is to come out stays the same. */
  lemma ArrivingSame(p: Pipe, s: Awaiting, n: nat)
    requires Flows(p, s) && n <= |p.wire|
    ensures Reading(p, n).Drained? && Flows(Arriving(p, n), s) && FramesIn(Arriving(p, n)) == FramesIn(p)
  {
    ArrivedSame(p, n);
  }

  /** A line is exchanged for one with the same contents. */
  lemma SwapLine(s: Net, c: nat, l: Wired)
    requires Good(s) && c < |s.lines| && SaneLine(l) && l.key == s.lines[c].key && AbsLine(l) == AbsLine(s.lines[c])
    ensures Good(WithWired(s, c, l))
  {
    hide Invariant, SaneLine, AbsLine;
    AbsUpdate(s.lines, c, l);
    OtherLinesSane(s, WithWired(s, c, l), c, l);
    assert AbsLines(s.lines)[c := AbsLine(l)] == AbsLines(s.lines);
  }

  /** The first bytes of a line. */
  lemma KeyPut(k: Key)
    requires KeyFits(k)
    ensures var p := Put(NewPipe(ActMagic), EncodeKey(k));
        Flows(p, RequestId(CopyKey(k))) && FramesIn(p) == []
  {
    hide EncodeKey, CopyKey, Flows, FramesIn, Drive;
    KeyRead(k, []);
    assert EncodeKey(k) + [] == EncodeKey(k);
    DriveNothing(ActMagic);
    DriveNothing(RequestId(CopyKey(k)));
    NewFlows(ActMagic);
    PutFlows(NewPipe(ActMagic), ActMagic, EncodeKey(k), RequestId(CopyKey(k)), []);
  }

  lemma NewFlows(s: Awaiting)
    requires Need(s) > 0
    ensures Flows(NewPipe(s), s) && FramesIn(NewPipe(s)) == []
  {
    DriveNothing(s);
  }

  lemma ConnectingGood(s: Net, c: nat)
    requires Good(s) && c < |s.lines| && !s.lines[c].keySent
    ensures Good(WithWired(s, c, s.lines[c].(keySent := true, up := Put(s.lines[c].up, EncodeKey(s.lines[c].key)))))
  {
    hide Invariant, EncodeKey, CopyKey, FramesIn, Flows;
    var l := s.lines[c];
    assert SaneLine(l);
    KeyPut(l.key);
    NewFlows(ActMagic);
    SwapLine(s, c, l.(keySent := true, up := Put(l.up, EncodeKey(l.key))));
  }

  lemma KeyWrittenGood(s: Net, c: nat)
    requires Good(s) && c < |s.lines| && s.lines[c].keySent
    ensures Good(HandleQueue(WithWired(s, c, s.lines[c].(connected := true)), c))
  {
    hide Good;
    SwapConnected(s, c);
    HandleQueueGood(WithWired(s, c, s.lines[c].(connected := true)), c);
  }

  lemma SwapConnected(s: Net, c: nat)
    requires Good(s) && c < |s.lines| && s.lines[c].keySent
    ensures Good(WithWired(s, c, s.lines[c].(connected := true)))
  {
    hide Invariant;
    assert SaneLine(s.lines[c]);
    SwapLine(s, c, s.lines[c].(connected := true));
  }

  lemma UpArrivesGood(s: Net, c: nat, n: nat)
    requires c < |s.lines| && 0 < n <= |s.lines[c].up.wire| && Good(s)
    ensures Reading(s.lines[c].up, n).Drained? && Good(UpArrives(s, c, n)) && UpArrives(s, c, n).lines[c].keySent
  {
    hide Invariant, Flows, FramesIn;
    var l := s.lines[c];
    assert SaneLine(l);
    ArrivingSame(l.up, RequestId(CopyKey(l.key)), n);
    SwapLine(s, c, l.(up := Arriving(l.up, n)));
  }

  lemma AgentDataGood(s: Net, c: nat, n: nat)
    requires c < |s.lines| && 0 < n <= |s.lines[c].up.wire| && Good(s)
    ensures Good(AgentReads(UpArrives(s, c, n), c))
  {
    hide Good, UpArrives;
    UpArrivesGood(s, c, n);
    AgentReadsGood(UpArrives(s, c, n), c);
  }

  lemma DownArrivesGood(s: Net, c: nat, n: nat)
    requires c < |s.lines| && n <= |s.lines[c].down.wire| && Good(s)
    ensures Reading(s.lines[c].down, n).Drained? && Good(DownArrives(s, c, n))
  {
    hide Invariant, Flows, FramesIn;
    var l := s.lines[c];
    assert SaneLine(l);
    ArrivingSame(l.down, ResponseId(true), n);
    SwapLine(s, c, l.(down := Arriving(l.down, n)));
  }

  lemma ConsumerDataGood(s: Net, c: nat, n: nat)
    requires c < |s.lines| && n <= |s.lines[c].down.wire| && Good(s)
    ensures Good(ConsumerReads(DownArrives(s, c, n), c))
  {
    hide Good, DownArrives;
    DownArrivesGood(s, c, n);
    ConsumerReadsGood(DownArrives(s, c, n), c);
  }

  lemma ProviderDataGood(s: Net, n: nat)
    requires Good(s) && n <= |s.out.wire|
    ensures Reading(s.out, n).Drained? && Good(ProviderReads(s.(out := Arriving(s.out, n))))
  {
    hide Invariant, Flows, FramesIn;
    ArrivingSame(s.out, DubboMagic(false), n);
    HubSane(s, s.(out := Arriving(s.out, n)));
    assert Abs(s.(out := Arriving(s.out, n))) == Abs(s);
    ProviderReadsGood(s.(out := Arriving(s.out, n)));
  }

  lemma BackArrivesGood(s: Net, n: nat)
    requires Good(s) && n <= |s.back.wire|
    ensures Reading(s.back, n).Drained? && Good(s.(back := Arriving(s.back, n)))
  {
    hide Invariant, Flows, FramesIn;
    ArrivingSame(s.back, DubboMagic(true), n);
    HubSane(s, s.(back := Arriving(s.back, n)));
    assert Abs(s.(back := Arriving(s.back, n))) == Abs(s);
  }

  lemma HubDataGood(s: Net, n: nat)
    requires Good(s) && n <= |s.back.wire|
    ensures Good(HubReads(s.(back := Arriving(s.back, n))))
  {
    hide Good;
    BackArrivesGood(s, n);
    HubReadsGood(s.(back := Arriving(s.back, n)));
  }

  lemma DubboConnectedGood(s: Net)
    requires Good(s)
    ensures Good(DubboQueue(s.(dubboOn := true)))
  {
    HubSane(s, s.(dubboOn := true));
    hide Sane, Invariant;
    assert Abs(s.(dubboOn := true)) == Abs(s);
    DubboQueueGood(s.(dubboOn := true));
  }

  /** Every event keeps a state good. */
  lemma AfterGood(s: Net, e: Event)
    requires Good(s) && Possible(s, e)
    ensures Good(After(s, e))
  {
    hide Good;
    match e
    case Fetching(c, id, context, data) => FetchGood(s, c, id, context, data);
    case Connecting(c) => ConnectingGood(s, c);
    case KeyWritten(c) => KeyWrittenGood(s, c);
    case AgentData(c, n) => AgentDataGood(s, c, n);
    case DubboConnected => DubboConnectedGood(s);
    case ProviderData(n) => ProviderDataGood(s, n);
    case ProviderAnswer(i, flags, result) => ProviderAnswersGood(s, i, flags, result);
    case HubData(n) => HubDataGood(s, n);
    case ConsumerData(c, n) => ConsumerDataGood(s, c, n);
  }

  function NewLine(key: Key): Wired {
    Wired(key, false, false, [], NewPipe(ActMagic), NewPipe(ResponseId(true)), map[], map[])
  }

  function NewLines(keys: seq<Key>): (ls: seq<Wired>)
    ensures |ls| == |keys| && forall c | 0 <= c < |ls| :: ls[c] == NewLine(keys[c])
  {
    if keys == [] then [] else [NewLine(keys[0])] + NewLines(keys[1..])
  }

  function NewNet(keys: seq<Key>): Net {
    Net(NewLines(keys), false, [], NewPipe(DubboMagic(false)), [], NewPipe(DubboMagic(true)),
        map[], map[], [], map[], [])
  }

  lemma NewNetGood(keys: seq<Key>)
    requires forall k | k in keys :: KeyFits(k)
    ensures Good(NewNet(keys))
  {
    hide Flows, FramesIn, Invariant;
    var s := NewNet(keys);
    NewFlows(ResponseId(true));
    NewFlows(DubboMagic(false));
    NewFlows(DubboMagic(true));
    NewFlows(ActMagic);
    forall c | 0 <= c < |keys| ensures AbsLines(s.lines)[c] == Idle(keys).lines[c] && SaneLine(s.lines[c]) {
      assert keys[c] in keys;
    }
    assert AbsLines(s.lines) == Idle(keys).lines;
    assert Abs(s) == Idle(keys);
    IdleInvariant(keys);
  }

  /** A run of the mesh on bytes: any events, any fragments, any order. */
  ghost predicate IsNetRun(keys: seq<Key>, ss: seq<Net>, events: seq<Event>) {
    && |ss| == |events| + 1 && ss[0] == NewNet(keys)
    && forall i | 0 <= i < |events| :: Possible(ss[i], events[i]) && ss[i + 1] == After(ss[i], events[i])
  }

  /** In every run the mesh of messages behind the bytes keeps its invariant: every request
      is in exactly one stage or has had its callback, once, with its own context and
      result, and the callback maps know exactly the requests in flight. */
  lemma {:induction false} EndToEnd(keys: seq<Key>, ss: seq<Net>, events: seq<Event>, i: nat)
    requires (forall k | k in keys :: KeyFits(k)) && IsNetRun(keys, ss, events) && i < |ss|
    ensures Sane(ss[i]) && Invariant(Abs(ss[i]))
    decreases i
  {
    if i == 0 {
      NewNetGood(keys);
    } else {
      EndToEnd(keys, ss, events, i - 1);
      AfterGood(ss[i - 1], events[i - 1]);
    }
  }
}
