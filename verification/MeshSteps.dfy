/** One object of the agents and the bytes that it has written: under every event it stays in
    step with the mesh on bytes, and what an event leaves alone stays as it is. */
module MeshSteps {
  import opened Wire
  import opened Frames
  import opened MeshMessages
  import opened MeshBytes
  import opened MeshClasses
  import Answers
  import Buffers
  import DubboClient
  import PaClient
  import ProviderAgent

  // ---------------------------------------------------------------- what an event leaves alone

  predicate SameHub(s: Net, t: Net) {
    t.dubboOn == s.dubboOn && t.jobs == s.jobs && t.out == s.out && t.back == s.back && t.cbs == s.cbs
  }

  predicate OtherLines(s: Net, t: Net, c: nat) {
    |t.lines| == |s.lines| && forall j | 0 <= j < |s.lines| && j != c :: t.lines[j] == s.lines[j]
  }

  /** An event that concerns one line only. */
  predicate LineOnly(s: Net, t: Net, c: nat) {
    SameHub(s, t) && OtherLines(s, t, c)
  }

  predicate WritesUp(e: Event) {
    e.Fetching? || e.Connecting? || e.KeyWritten?
  }

  lemma ClientWrites(s: Net, e: Event)
    requires Possible(s, e) && WritesUp(e)
    ensures var t := After(s, e);
        LineOnly(s, t, e.line) && t.fired == s.fired && t.lines[e.line].down == s.lines[e.line].down
  {
    hide EncodeActs, EncodeKey, Put;
    match e
    case Fetching(c, id, context, data) => QueueWritten(PushRequest(s, c, id, context, data), c);
    case Connecting(c) =>
    case KeyWritten(c) => QueueWritten(WithWired(s, c, s.lines[c].(connected := true)), c);
  }

  lemma {:induction false} ConsumerReadsAside(s: Net, c: nat)
    requires c < |s.lines|
    ensures var t := ConsumerReads(s, c);
        LineOnly(s, t, c) && t.lines[c].up == s.lines[c].up && t.issued == s.issued
    decreases |s.lines[c].down.hand|
  {
    var l := s.lines[c];
    if l.down.hand != [] && l.down.hand[0].id in l.callbacks && l.down.hand[0].id in l.contexts {
      ConsumerReadsAside(MeshBytes.Call(s, c), c);
    }
  }

  lemma {:induction false} HubReadsAside(s: Net)
    ensures var t := HubReads(s);
        && t.dubboOn == s.dubboOn && t.jobs == s.jobs && t.out == s.out && t.fired == s.fired
        && t.back.wire == s.back.wire && t.issued == s.issued
    decreases |s.back.hand|
  {
    hide EncodeAct;
    if s.back.hand != [] && s.back.hand[0].id in s.cbs && s.cbs[s.back.hand[0].id] < |s.lines| {
      HubReadsAside(WriteBack(s));
    }
  }

  lemma {:induction false} DubboQueueAside(s: Net)
    ensures var t := DubboQueue(s);
        && t.back == s.back && t.fired == s.fired && t.cbs == s.cbs && t.lines == s.lines && t.issued == s.issued
    decreases |s.jobs|
  {
    hide EncodeDubbo;
    if s.dubboOn && s.jobs != [] { DubboQueueAside(ForwardHead(s)); }
  }

  lemma PushJobAside(s: Net, c: nat)
    requires c < |s.lines| && s.lines[c].up.hand != [] && s.lines[c].up.hand[0].Request?
    ensures var t := PushJob(s, c);
        && OtherLines(s, t, c) && t.back == s.back && t.fired == s.fired && t.issued == s.issued
        && t.lines[c] == s.lines[c].(up := Popped(s.lines[c].up))
  {
  }

  lemma {:induction false} AgentReadsAside(s: Net, c: nat)
    requires c < |s.lines|
    ensures var t := AgentReads(s, c);
        && OtherLines(s, t, c) && t.back == s.back && t.fired == s.fired && t.issued == s.issued
        && t.lines[c] == s.lines[c].(up := t.lines[c].up) && t.lines[c].up.wire == s.lines[c].up.wire
    decreases |s.lines[c].up.hand|
  {
    hide DubboQueue, PushJob;
    var hand := s.lines[c].up.hand;
    if hand != [] && hand[0].Request? {
      PushJobAside(s, c);
      DubboQueueAside(PushJob(s, c));
      AgentReadsAside(DubboQueue(PushJob(s, c)), c);
    }
  }

  lemma {:induction false} ProviderReadsAside(s: Net)
    ensures var t := ProviderReads(s);
        && t.lines == s.lines && t.dubboOn == s.dubboOn && t.jobs == s.jobs && t.back == s.back && t.cbs == s.cbs
        && t.fired == s.fired && t.out.wire == s.out.wire && t.issued == s.issued
    decreases |s.out.hand|
  {
    if s.out.hand != [] { ProviderReadsAside(PushPending(s)); }
  }

  lemma IssuedGrows(s: Net, e: Event)
    requires Possible(s, e) && Good(s)
    ensures s.issued <= After(s, e).issued
  {
    hide Good, Reading, EncodeActs, EncodeKey, Put;
    match e
    case Fetching(c, id, context, data) => QueueWritten(PushRequest(s, c, id, context, data), c);
    case Connecting(c) =>
    case KeyWritten(c) => QueueWritten(WithWired(s, c, s.lines[c].(connected := true)), c);
    case AgentData(c, n) => AgentReadsAside(UpArrives(s, c, n), c);
    case DubboConnected => DubboQueueAside(s.(dubboOn := true));
    case ProviderData(n) => ProviderReadsAside(s.(out := Arriving(s.out, n)));
    case ProviderAnswer(i, flags, result) =>
    case HubData(n) => HubReadsAside(s.(back := Arriving(s.back, n)));
    case ConsumerData(c, n) => ConsumerReadsAside(DownArrives(s, c, n), c);
  }

  // ---------------------------------------------------------------- bytes on their way

  /** Of the bytes written the first `taken` have been read; the others are on the wire. */
  predicate OnWire(written: seq<byte>, taken: nat, wire: seq<byte>) {
    taken <= |written| && wire == written[taken..]
  }

  lemma MoreOnWire(before: seq<byte>, after: seq<byte>, taken: nat, p: Pipe, q: Pipe)
    requires OnWire(before, taken, p.wire) && MeshClasses.Sent(before, after, p, q)
    ensures OnWire(after, taken, q.wire)
  {
    assert after[taken..] == before[taken..] + after[|before|..];
  }

  lemma LessOnWire(written: seq<byte>, taken: nat, wire: seq<byte>, n: nat)
    requires OnWire(written, taken, wire) && n <= |wire|
    ensures OnWire(written, taken + n, wire[n..])
  {
  }

  // ---------------------------------------------------------------- callbacks made

  /** A callback and the client that made it. */
  datatype Entry = Entry(client: nat, fired: Fired)

  function EntriesOf(c: nat, fs: seq<Fired>): seq<Entry> {
    seq(|fs|, i requires 0 <= i < |fs| => Entry(c, fs[i]))
  }

  /** The callbacks of one client. */
  function MadeBy(log: seq<Entry>, c: nat): seq<Fired> {
    if log == [] then []
    else MadeBy(log[..|log| - 1], c) + if log[|log| - 1].client == c then [log[|log| - 1].fired] else []
  }

  /** The callbacks of all clients. */
  function Made(log: seq<Entry>): seq<Fired> {
    seq(|log|, i requires 0 <= i < |log| => log[i].fired)
  }

  /** Every client makes the callbacks of its own requests. */
  predicate Owned(log: seq<Entry>, issued: seq<Issue>) {
    forall e | e in log :: e.fired.call < |issued| && issued[e.fired.call].line == e.client
  }

  predicate OwnedBy(c: nat, fs: seq<Fired>, issued: seq<Issue>) {
    forall f | f in fs :: f.call < |issued| && issued[f.call].line == c
  }

  lemma OwnedStill(log: seq<Entry>, issued: seq<Issue>, more: seq<Issue>)
    requires Owned(log, issued) && issued <= more
    ensures Owned(log, more)
  {
  }

  lemma OwnedMore(log: seq<Entry>, c: nat, fs: seq<Fired>, issued: seq<Issue>)
    requires Owned(log, issued) && OwnedBy(c, fs, issued)
    ensures Owned(log + EntriesOf(c, fs), issued)
  {
    forall e | e in log + EntriesOf(c, fs)
      ensures e.fired.call < |issued| && issued[e.fired.call].line == e.client
    {
      if e in EntriesOf(c, fs) { assert e.fired in fs; }
    }
  }

  /** A callback in the map of a client is that of one of its requests. */
  lemma CallOwned(s: Net, c: nat)
    requires Good(s) && c < |s.lines| && s.lines[c].down.hand != []
    ensures var l, id := s.lines[c], s.lines[c].down.hand[0].id;
        id in l.callbacks && l.callbacks[id] < |s.issued| && s.issued[l.callbacks[id]].line == c
  {
    hide Sane, FiredOnce, Contents;
    CallGood(s, c);
    assert LineMaps(Abs(s), c);
  }

  lemma {:induction false} ConsumerReadsOwned(s: Net, c: nat)
    requires Good(s) && c < |s.lines|
    ensures var t := ConsumerReads(s, c);
        t.issued == s.issued && s.fired <= t.fired && OwnedBy(c, t.fired[|s.fired|..], s.issued)
    decreases |s.lines[c].down.hand|
  {
    hide Good, Abs, Finished, CanFinish;
    var l := s.lines[c];
    if l.down.hand != [] {
      CallGood(s, c);
      CallOwned(s, c);
      var n := MeshBytes.Call(s, c);
      ConsumerReadsOwned(n, c);
      var t := ConsumerReads(n, c);
      assert t.fired[|s.fired|..] == [n.fired[|s.fired|]] + t.fired[|n.fired|..];
    }
  }

  lemma DataOwned(s: Net, c: nat, n: nat)
    requires Possible(s, ConsumerData(c, n)) && Good(s)
    ensures var t := After(s, ConsumerData(c, n));
        t.issued == s.issued && s.fired <= t.fired && OwnedBy(c, t.fired[|s.fired|..], s.issued)
  {
    hide Good, OwnedBy;
    DownArrivesGood(s, c, n);
    ConsumerReadsOwned(DownArrives(s, c, n), c);
  }

  lemma {:induction false} MadeByMore(log: seq<Entry>, k: nat, fs: seq<Fired>, c: nat)
    ensures MadeBy(log + EntriesOf(k, fs), c) == MadeBy(log, c) + if c == k then fs else []
    decreases |fs|
  {
    if fs == [] {
      assert log + EntriesOf(k, fs) == log;
      assert MadeBy(log, c) + [] == MadeBy(log, c);
    } else {
      var n := |fs| - 1;
      MadeByMore(log, k, fs[..n], c);
      var all := log + EntriesOf(k, fs);
      assert all[..|all| - 1] == log + EntriesOf(k, fs[..n]);
      assert fs == fs[..n] + [fs[n]];
    }
  }

  // ---------------------------------------------------------------- one object in step

  /** A client matches its line; what it has written is on the wire or has been read, and it
      has made the callbacks recorded. */
  ghost predicate ClientInStep(p: PaClient.PaClient, l: Wired, taken: nat, made: seq<Fired>)
    reads p, p.input, p.input.pool, p.input.active, if p.input.active == null then {} else {p.input.active.buf}
  {
    && ClientOn(p, l) && |p.input.Unread()| < Need(p.Await())
    && OnWire(p.written, taken, l.up.wire) && FiredBy(p.calls) == made
  }

  ghost predicate AgentInStep(p: ProviderAgent.StreamContext, l: Wired, taken: nat)
    reads p, p.input, p.input.pool, p.input.active, if p.input.active == null then {} else {p.input.active.buf}
  {
    AgentOn(p, l) && |p.input.Unread()| < Need(p.Await()) && OnWire(p.written, taken, l.down.wire)
  }

  ghost predicate HubInStep(p: DubboClient.DubboClient, s: Net, taken: nat)
    reads p, p.input, p.input.pool, p.input.active, if p.input.active == null then {} else {p.input.active.buf}
  {
    && HubOn(p, s) && SenderOn(p.SenderNow(), s) && |p.input.Unread()| < Need(p.Await())
    && OnWire(p.written, taken, s.out.wire)
  }

  /** Only the bytes on their way to the provider agent, and what belongs to the client. */
  predicate WrittenUp(s: Net, n: Net, c: nat) {
    && LineOnly(s, n, c) && n.fired == s.fired && c < |s.lines|
    && n.lines[c].down == s.lines[c].down && n.lines[c].up == s.lines[c].up.(wire := n.lines[c].up.wire)
  }

  method FetchInStep(p: PaClient.PaClient, ghost s: Net, ghost c: nat, request: Message, callback: nat, context: nat,
                     ghost taken: nat, ghost made: seq<Fired>)
    returns (ghost n: Net)
    requires Possible(s, Fetching(c, request.id, context, request.data)) && ClientInStep(p, s.lines[c], taken, made)
    requires callback == |s.issued| && Good(s)
    modifies p`que, p`written, p`callbacks, p`contexts
    ensures Steps(s, Fetching(c, request.id, context, request.data), n)
    ensures WrittenUp(s, n, c) && ClientInStep(p, n.lines[c], taken, made)
  {
    hide Good, After, Possible;
    n := ClientFetches(p, s, c, request, callback, context);
    ClientWrites(s, Fetching(c, request.id, context, request.data));
    MoreOnWire(old(p.written), p.written, taken, s.lines[c].up, n.lines[c].up);
  }

  method ConnectInStep(p: PaClient.PaClient, ghost s: Net, ghost c: nat, ghost taken: nat, ghost made: seq<Fired>)
    returns (ghost n: Net)
    requires Possible(s, Connecting(c)) && ClientInStep(p, s.lines[c], taken, made) && Good(s) && !p.connected
    modifies p`que, p`written
    ensures Steps(s, Connecting(c), n) && WrittenUp(s, n, c) && ClientInStep(p, n.lines[c], taken, made)
  {
    hide Good, After, Possible;
    n := ClientConnects(p, s, c);
    ClientWrites(s, Connecting(c));
    MoreOnWire(old(p.written), p.written, taken, s.lines[c].up, n.lines[c].up);
  }

  method KeyInStep(p: PaClient.PaClient, ghost s: Net, ghost c: nat, ghost taken: nat, ghost made: seq<Fired>)
    returns (ghost n: Net)
    requires Possible(s, KeyWritten(c)) && ClientInStep(p, s.lines[c], taken, made) && Good(s)
    modifies p`connected, p`que, p`written
    ensures Steps(s, KeyWritten(c), n) && WrittenUp(s, n, c) && ClientInStep(p, n.lines[c], taken, made)
  {
    hide Good, After, Possible;
    n := ClientKeyWritten(p, s, c);
    ClientWrites(s, KeyWritten(c));
    MoreOnWire(old(p.written), p.written, taken, s.lines[c].up, n.lines[c].up);
  }

  lemma GrownBy(b: Answers.Book, z: Answers.Book, was: seq<Fired>, now: seq<Fired>)
    requires Grown(b, z, was, now)
    ensures was <= now && FiredBy(z.calls) == FiredBy(b.calls) + now[|was|..]
  {
    var more := z.calls[|b.calls|..];
    assert z.calls == b.calls + more;
    FiredConcat(b.calls, more);
    assert now[|was|..] == FiredBy(more);
  }

  predicate TakenDown(s: Net, t: Net, c: nat, n: nat) {
    && LineOnly(s, t, c) && c < |s.lines| && n <= |s.lines[c].down.wire|
    && t.lines[c].up == s.lines[c].up && t.lines[c].down.wire == s.lines[c].down.wire[n..]
  }

  lemma ConsumerTakes(s: Net, c: nat, n: nat)
    requires Possible(s, ConsumerData(c, n)) && Good(s)
    ensures TakenDown(s, After(s, ConsumerData(c, n)), c, n)
  {
    hide Good, Reading;
    DownArrivesGood(s, c, n);
    ConsumerReadsAside(DownArrives(s, c, n), c);
    ConsumerReadsWire(DownArrives(s, c, n), c);
  }

  lemma {:induction false} ConsumerReadsWire(s: Net, c: nat)
    requires c < |s.lines|
    ensures var t := ConsumerReads(s, c); c < |t.lines| && t.lines[c].down.wire == s.lines[c].down.wire
    decreases |s.lines[c].down.hand|
  {
    var l := s.lines[c];
    if l.down.hand != [] && l.down.hand[0].id in l.callbacks && l.down.hand[0].id in l.contexts {
      ConsumerReadsWire(MeshBytes.Call(s, c), c);
    }
  }

  method ClientDataInStep(p: PaClient.PaClient, ghost s: Net, ghost c: nat, suggested: nat, offered: seq<byte>,
                          ghost taken: nat, ghost made: seq<Fired>)
    returns (k: nat, ghost n: Net)
    requires c < |s.lines| && ClientInStep(p, s.lines[c], taken, made) && Good(s)
    requires offered <= s.lines[c].down.wire && Need(p.Await()) <= suggested && suggested >= 3
    modifies p`readState, p`respId, p`dataLen, p`callbacks, p`contexts, p`calls, p.input.Footprint()
    ensures k <= |offered| && (offered != [] ==> k > 0)
    ensures Steps(s, ConsumerData(c, k), n) && TakenDown(s, n, c, k) && s.fired <= n.fired
    ensures ClientInStep(p, n.lines[c], taken, made + n.fired[|s.fired|..])
    ensures fresh(p.input.Footprint() - old(p.input.Footprint()))
  {
    hide Good, After, Need, FiredBy, Grown, Buffers.Inlet.Footprint;
    p.FootprintAside();
    ghost var b := p.BookNow();
    k, n := ClientReceives(p, s, c, suggested, offered);
    ConsumerTakes(s, c, k);
    GrownBy(b, p.BookNow(), s.fired, n.fired);
  }

  predicate TakenUp(s: Net, t: Net, c: nat, n: nat) {
    && OtherLines(s, t, c) && t.back == s.back && t.fired == s.fired && c < |s.lines| && n <= |s.lines[c].up.wire|
    && t.lines[c] == s.lines[c].(up := t.lines[c].up) && t.lines[c].up.wire == s.lines[c].up.wire[n..]
  }

  lemma AgentTakes(s: Net, c: nat, n: nat)
    requires Possible(s, AgentData(c, n)) && Good(s)
    ensures TakenUp(s, After(s, AgentData(c, n)), c, n)
  {
    hide Good, Reading;
    UpArrivesGood(s, c, n);
    AgentReadsAside(UpArrives(s, c, n), c);
  }

  /** What a receiving end reads is its own. */
  lemma Within(i: Buffers.Inlet)
    ensures {i, i.pool} <= i.Footprint()
    ensures i.active != null ==> i.active in i.Footprint() && i.active.buf in i.Footprint()
  {
  }

  lemma StepPossible(s: Net, e: Event, n: Net)
    requires Steps(s, e, n)
    ensures Possible(s, e) && n == After(s, e)
  {
  }

  lemma SenderMoved(y: DubboClient.Sender, z: DubboClient.Sender, s: Net, n: Net, c: nat, k: nat, taken: nat)
    requires SenderOn(z, n) && WroteOut(y, z, s, n) && TakenUp(s, n, c, k) && OnWire(y.written, taken, s.out.wire)
    ensures BookOn(z.book, n) && OnWire(z.written, taken, n.out.wire) && n.back == s.back
  {
    MoreOnWire(y.written, z.written, taken, s.out, n.out);
  }

  method AgentDataInStep(p: ProviderAgent.StreamContext, ghost s: Net, suggested: nat, offered: seq<byte>,
                         ghost taken: nat, ghost outTaken: nat)
    returns (k: nat, ghost n: Net)
    requires p.channel < |s.lines| && AgentInStep(p, s.lines[p.channel], taken) && Good(s)
    requires HubInStep(p.dubbo, s, outTaken) && p.dubbo.input.Footprint() !! p.input.Footprint()
    requires offered != [] && offered <= s.lines[p.channel].up.wire && Need(p.Await()) <= suggested && suggested >= 3
    modifies p`headerState, p`hasHeader, p`site, p`call, p`types, p`siteLen, p`callLen, p`typesLen
    modifies p`bodyState, p`actId, p`paramLen
    modifies p.input.Footprint(), p.dubbo`queue, p.dubbo`written, p.dubbo`callbacks, p.dubbo`contexts
    ensures 0 < k <= |offered|
    ensures Steps(s, AgentData(p.channel, k), n) && TakenUp(s, n, p.channel, k)
    ensures AgentInStep(p, n.lines[p.channel], taken) && HubInStep(p.dubbo, n, outTaken)
    ensures p.input.Recycled() && fresh(p.input.Footprint() - old(p.input.Footprint()))
  {
    hide Good, After, Need, SenderOn, WroteOut, Steps, Possible, OnWire, OtherLines, Buffers.Inlet.Footprint,
      Buffers.Inlet.Recycled, Buffers.Inlet.Valid, Buffers.Inlet.Unread, ProviderAgent.StreamContext.Await,
      ProviderAgent.StreamContext.Valid;
    p.FootprintAside();
    Within(p.dubbo.input);
    ghost var z := p.dubbo.SenderNow();
    k, n := AgentReceives(p, s, suggested, offered);
    StepPossible(s, AgentData(p.channel, k), n);
    AgentTakes(s, p.channel, k);
    SenderMoved(z, p.dubbo.SenderNow(), s, n, p.channel, k, outTaken);
  }

  /** What an object does not see of the mesh does not matter to it. */
  lemma HubSame(p: DubboClient.DubboClient, s: Net, n: Net, taken: nat)
    requires HubInStep(p, s, taken) && SameHub(s, n)
    ensures HubInStep(p, n, taken)
  {
  }

  lemma AgentSame(p: ProviderAgent.StreamContext, l: Wired, z: Wired, taken: nat)
    requires AgentInStep(p, l, taken) && z.up == l.up.(wire := z.up.wire) && z.down.wire == l.down.wire
    ensures AgentInStep(p, z, taken)
  {
  }

  lemma ClientSame(p: PaClient.PaClient, l: Wired, z: Wired, taken: nat, made: seq<Fired>)
    requires ClientInStep(p, l, taken, made)
    requires z == l.(up := z.up, down := l.down.(wire := z.down.wire)) && z.up.wire == l.up.wire
    ensures ClientInStep(p, z, taken, made)
  {
  }

  lemma HubOutRead(p: DubboClient.DubboClient, s: Net, n: Net, taken: nat, k: nat)
    requires HubInStep(p, s, taken) && TakenOut(s, n, k)
    ensures HubInStep(p, n, taken + k)
  {
    LessOnWire(p.written, taken, s.out.wire, k);
  }

  /** More is on the way to the Dubbo client. */
  lemma HubBackWritten(p: DubboClient.DubboClient, s: Net, n: Net, taken: nat)
    requires HubInStep(p, s, taken) && n == s.(pending := n.pending, back := s.back.(wire := n.back.wire),
                                               stage := n.stage, results := n.results)
    ensures HubInStep(p, n, taken)
  {
  }

  method HubConnectInStep(p: DubboClient.DubboClient, ghost s: Net, ghost taken: nat) returns (ghost n: Net)
    requires Possible(s, DubboConnected) && HubInStep(p, s, taken) && Good(s)
    modifies p`connected, p`queue, p`written
    ensures Steps(s, DubboConnected, n) && HubInStep(p, n, taken)
    ensures n.lines == s.lines && n.fired == s.fired && n.back == s.back
  {
    hide Good, Need, DubboQueue;
    n := HubConnects(p, s);
    DubboQueueAside(s.(dubboOn := true));
    MoreOnWire(old(p.written), p.written, taken, s.out, n.out);
  }

  lemma {:induction false} WrittenMore(c: nat, calls: seq<Answers.Made>, m: Answers.Made)
    ensures WrittenTo(c, calls + [m]) ==
            WrittenTo(c, calls) + if m.context == c then EncodeAct(m.id, m.data) else []
    decreases |calls|
  {
    hide EncodeAct;
    if calls == [] {
      assert [] + [m] == [m];
    } else {
      assert (calls + [m])[0] == calls[0] && (calls + [m])[1..] == calls[1..] + [m];
      WrittenMore(c, calls[1..], m);
    }
  }

  predicate Distinct(contexts: seq<ProviderAgent.StreamContext>) {
    forall i, j | 0 <= i < j < |contexts| :: contexts[i] != contexts[j]
  }

  /** The callbacks of the Dubbo client: each answer is written to its connection. */
  method Relay(contexts: seq<ProviderAgent.StreamContext>, calls: seq<Answers.Made>)
    requires Distinct(contexts) && forall m | m in calls :: m.context < |contexts|
    modifies contexts`written
    ensures forall c | 0 <= c < |contexts| :: contexts[c].written == old(contexts[c].written) + WrittenTo(c, calls)
  {
    hide WrittenTo, EncodeAct;
    NothingWritten(|contexts|);
    for i := 0 to |calls|
      invariant forall c | 0 <= c < |contexts| ::
          contexts[c].written == old(contexts[c].written) + WrittenTo(c, calls[..i])
    {
      var m := calls[i];
      assert calls[..i + 1] == calls[..i] + [m];
      forall c | 0 <= c < |contexts| { WrittenMore(c, calls[..i], m); }
      contexts[m.context].DubboCallback(m.id, m.data);
    }
    assert calls[..|calls|] == calls;
  }

  lemma NothingWritten(n: nat)
    ensures forall c | 0 <= c < n :: WrittenTo(c, []) == []
  {
  }

  predicate TakenBack(s: Net, t: Net, n: nat) {
    && t.dubboOn == s.dubboOn && t.jobs == s.jobs && t.out == s.out && t.fired == s.fired
    && n <= |s.back.wire| && t.back.wire == s.back.wire[n..]
  }

  lemma HubTakes(s: Net, n: nat)
    requires Possible(s, HubData(n)) && Good(s)
    ensures TakenBack(s, After(s, HubData(n)), n)
  {
    hide Good, Reading;
    BackArrivesGood(s, n);
    HubReadsAside(s.(back := Arriving(s.back, n)));
  }

  predicate TakenOut(s: Net, t: Net, n: nat) {
    && t.lines == s.lines && t.dubboOn == s.dubboOn && t.jobs == s.jobs && t.back == s.back && t.cbs == s.cbs
    && t.fired == s.fired && n <= |s.out.wire| && t.out.wire == s.out.wire[n..]
  }

  lemma ProviderTakes(s: Net, n: nat)
    requires Possible(s, ProviderData(n)) && Good(s)
    ensures TakenOut(s, After(s, ProviderData(n)), n)
  {
    hide Good, Reading;
    ProviderDataGood(s, n);
    ProviderReadsAside(s.(out := Arriving(s.out, n)));
  }

  /** The bytes of the answers to the requests of a connection are on its wire. */
  lemma Relayed(b: Answers.Book, z: Answers.Book, s: Net, n: Net, c: nat, before: seq<byte>, after: seq<byte>,
                taken: nat)
    requires SentBack(b, z, s, n) && c < |s.lines| && OnWire(before, taken, s.lines[c].down.wire)
    requires after == before + WrittenTo(c, z.calls[|b.calls|..])
    ensures OnWire(after, taken, n.lines[c].down.wire) && n.lines[c].up == s.lines[c].up
  {
    hide WrittenTo;
    assert LineSentBack(z.calls[|b.calls|..], c, s.lines[c], n.lines[c]);
    assert after[|before|..] == WrittenTo(c, z.calls[|b.calls|..]);
    MoreOnWire(before, after, taken, s.lines[c].down, n.lines[c].down);
  }

  method HubDataInStep(p: DubboClient.DubboClient, ghost s: Net, suggested: nat, offered: seq<byte>, ghost taken: nat)
    returns (k: nat, ghost n: Net)
    requires HubInStep(p, s, taken) && Good(s)
    requires offered <= s.back.wire && Need(p.Await()) <= suggested && suggested >= 3
    modifies p`readState, p`respId, p`dataLen, p`callbacks, p`contexts, p`calls, p.input.Footprint()
    ensures k <= |offered| && (offered != [] ==> k > 0)
    ensures Steps(s, HubData(k), n) && TakenBack(s, n, k) && HubInStep(p, n, taken)
    ensures SentBack(old(p.BookNow()), p.BookNow(), s, n)
    ensures p.input.Recycled() && fresh(p.input.Footprint() - old(p.input.Footprint()))
  {
    hide Good, After, Need, SentBack, Steps, Possible, Buffers.Inlet.Footprint, Buffers.Inlet.Recycled,
      DubboClient.DubboClient.Await;
    p.FootprintAside();
    k, n := HubReceives(p, s, suggested, offered);
    StepPossible(s, HubData(k), n);
    HubTakes(s, k);
  }
}
