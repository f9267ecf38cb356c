/** The classes of the agents are what the mesh on bytes is made of: under every event each
    of them does, by its contract, what the step of the mesh says, and the mesh being good
    its preconditions hold. */
module MeshClasses {
  import opened Wire
  import opened Frames
  import opened DubboBody
  import opened MeshMessages
  import opened MeshBytes
  import Answers
  import Buffers
  import DubboClient
  import PaClient
  import ProviderAgent

  lemma PutTwice(p: Pipe, x: seq<byte>, y: seq<byte>)
    ensures Put(Put(p, x), y) == Put(p, x + y) && Put(p, []) == p
  {
    assert p.wire + x + y == p.wire + (x + y) && p.wire + [] == p.wire;
  }

  /** An event of the mesh, in a good state and to a good state. */
  ghost predicate Steps(s: Net, e: Event, n: Net) {
    Possible(s, e) && n == After(s, e) && Good(n) && |n.lines| == |s.lines|
  }

  /** What was written between two contents of a log is put into the pipe. */
  ghost predicate Sent(before: seq<byte>, after: seq<byte>, p: Pipe, q: Pipe) {
    before <= after && q == Put(p, after[|before|..])
  }

  // ---------------------------------------------------------------- writing to a line

  /** What the queue of a line has become. */
  function Emptied(l: Wired): Wired {
    if l.connected then l.(queue := [], up := Put(l.up, EncodeActs(l.queue))) else l
  }

  lemma {:induction false} QueueWritten(s: Net, c: nat)
    requires c < |s.lines|
    ensures var n := HandleQueue(s, c);
        n == s.(lines := s.lines[c := Emptied(s.lines[c])], stage := n.stage)
    decreases |s.lines[c].queue|
  {
    hide EncodeAct;
    var l := s.lines[c];
    if l.connected && l.queue != [] {
      QueueWritten(SendHead(s, c), c);
      PutTwice(l.up, EncodeAct(l.queue[0].id, l.queue[0].data), EncodeActs(l.queue[1..]));
    } else {
      PutTwice(l.up, [], []);
      assert s.lines[c := l] == s.lines;
    }
  }

  // ---------------------------------------------------------------- the consumer agent

  /** The state of a client and of its reader, as they are between two callbacks. */
  ghost predicate ClientOn(p: PaClient.PaClient, l: Wired)
    reads p, p.input, p.input.pool, p.input.active, if p.input.active == null then {} else {p.input.active.buf}
  {
    && p.Valid() && p.key == l.key && p.connected == l.connected && p.que == l.queue
    && p.callbacks == l.callbacks && p.contexts == l.contexts
    && l.down.reader == p.Await() && l.down.rest == p.input.Unread() && l.down.hand == []
  }

  /** It matches its line again, and what it has written is in the pipe. */
  ghost predicate ClientWrote(p: PaClient.PaClient, before: seq<byte>, s: Net, n: Net, c: nat)
    reads p, p.input, p.input.pool, p.input.active, if p.input.active == null then {} else {p.input.active.buf}
  {
    c < |s.lines| && c < |n.lines| && ClientOn(p, n.lines[c]) && Sent(before, p.written, s.lines[c].up, n.lines[c].up)
  }

  lemma FetchStep(s: Net, c: nat, id: int, context: nat, data: seq<byte>)
    requires Possible(s, Fetching(c, id, context, data))
    ensures var l, t := s.lines[c], After(s, Fetching(c, id, context, data));
        && |t.lines| == |s.lines|
        && t.lines[c] == Emptied(l.(queue := l.queue + [Message(id, data)], callbacks := l.callbacks[id := |s.issued|],
                                    contexts := l.contexts[id := context]))
  {
    hide EncodeActs, Put, Emptied;
    QueueWritten(PushRequest(s, c, id, context, data), c);
  }

  /** pa_client_fetch */
  method ClientFetches(p: PaClient.PaClient, ghost s: Net, ghost c: nat, request: Message, callback: nat, context: nat)
    returns (ghost n: Net)
    requires Possible(s, Fetching(c, request.id, context, request.data)) && ClientOn(p, s.lines[c])
    requires callback == |s.issued| && Good(s)
    modifies p`que, p`written, p`callbacks, p`contexts
    ensures Steps(s, Fetching(c, request.id, context, request.data), n) && ClientWrote(p, old(p.written), s, n, c)
  {
    hide Good, EncodeActs, Put, After;
    n := After(s, Fetching(c, request.id, context, request.data));
    AfterGood(s, Fetching(c, request.id, context, request.data));
    FetchStep(s, c, request.id, context, request.data);
    PutTwice(s.lines[c].up, [], []);
    assert Message(request.id, request.data) == request;
    p.Fetch(request, callback, context);
    assert p.written[|old(p.written)|..] == if p.connected then EncodeActs(old(p.que) + [request]) else [];
  }

  /** _pa_on_conn */
  method ClientConnects(p: PaClient.PaClient, ghost s: Net, ghost c: nat) returns (ghost n: Net)
    requires Possible(s, Connecting(c)) && ClientOn(p, s.lines[c]) && Good(s) && !p.connected
    modifies p`que, p`written
    ensures Steps(s, Connecting(c), n) && ClientWrote(p, old(p.written), s, n, c)
  {
    hide Good, EncodeKey, Put;
    n := After(s, Connecting(c));
    AfterGood(s, Connecting(c));
    p.OnConnection();
    assert p.written[|old(p.written)|..] == EncodeKey(p.key);
  }

  /** _pa_key_write_cb */
  method ClientKeyWritten(p: PaClient.PaClient, ghost s: Net, ghost c: nat) returns (ghost n: Net)
    requires Possible(s, KeyWritten(c)) && ClientOn(p, s.lines[c]) && Good(s)
    modifies p`connected, p`que, p`written
    ensures Steps(s, KeyWritten(c), n) && ClientWrote(p, old(p.written), s, n, c)
  {
    hide Good, EncodeActs, Put;
    n := After(s, KeyWritten(c));
    AfterGood(s, KeyWritten(c));
    QueueWritten(WithWired(s, c, s.lines[c].(connected := true)), c);
    p.KeyWritten();
    assert p.written[|old(p.written)|..] == EncodeActs(old(p.que));
  }

  function FiredBy(calls: seq<Answers.Made>): seq<Fired> {
    if calls == [] then []
    else
      var m := calls[|calls| - 1];
      FiredBy(calls[..|calls| - 1]) + [Fired(m.callback, m.context, m.data)]
  }

  lemma FiredMore(calls: seq<Answers.Made>, m: Answers.Made)
    ensures FiredBy(calls + [m]) == FiredBy(calls) + [Fired(m.callback, m.context, m.data)]
  {
    assert (calls + [m])[..|calls|] == calls;
  }

  /** The callbacks made between two states of a book. */
  ghost predicate Grown(b: Answers.Book, z: Answers.Book, was: seq<Fired>, now: seq<Fired>) {
    b.calls <= z.calls && now == was + FiredBy(z.calls[|b.calls|..])
  }

  lemma NothingGrown(b: Answers.Book, was: seq<Fired>)
    ensures Grown(b, b, was, was)
  {
    assert b.calls[|b.calls|..] == [];
  }

  lemma {:induction false} FiredConcat(x: seq<Answers.Made>, y: seq<Answers.Made>)
    ensures FiredBy(x + y) == FiredBy(x) + FiredBy(y)
    decreases |y|
  {
    if y == [] {
      assert x + y == x && FiredBy(x) + [] == FiredBy(x);
    } else {
      var k := |y| - 1;
      assert x + y == (x + y[..k]) + [y[k]] && y == y[..k] + [y[k]];
      FiredConcat(x, y[..k]);
      FiredMore(x + y[..k], y[k]);
      FiredMore(y[..k], y[k]);
    }
  }

  lemma GrownFirst(b: Answers.Book, f: Frame, z: Answers.Book, was: seq<Fired>, now: seq<Fired>)
    requires Answers.Expects(b, f)
    requires Grown(Answers.Answered(b, f), z, was + [Fired(b.callbacks[f.id], b.contexts[f.id], f.data)], now)
    ensures Grown(b, z, was, now)
  {
    var m := Answers.Made(b.callbacks[f.id], b.contexts[f.id], f.id, f.data);
    var y := z.calls[|b.calls| + 1..];
    assert (b.calls + [m])[|b.calls|] == m && z.calls[|b.calls|] == m;
    assert z.calls[|b.calls|..] == [m] + y;
    FiredConcat([m], y);
    FiredMore([], m);
    assert [] + [m] == [m];
    assert FiredBy([m]) == [Fired(m.callback, m.context, m.data)];
    assert b.calls == (b.calls + [m])[..|b.calls|];
  }

  /** Entering the decoded answers into a book is what the line and the record of callbacks
      go through. */
  lemma {:induction false} AnswersRead(s: Net, c: nat, b: Answers.Book)
    requires Good(s) && c < |s.lines| && s.lines[c].callbacks == b.callbacks && s.lines[c].contexts == b.contexts
    ensures var l, n := s.lines[c], ConsumerReads(s, c);
        && Answers.AllExpected(b, l.down.hand)
        && var z := Answers.AllAnswered(b, l.down.hand);
        && |n.lines| == |s.lines|
        && n.lines[c] == l.(down := l.down.(hand := []), callbacks := z.callbacks, contexts := z.contexts)
        && Grown(b, z, s.fired, n.fired)
    decreases |s.lines[c].down.hand|
  {
    hide Good, Grown, Abs, Finished, CanFinish;
    var l := s.lines[c];
    if l.down.hand == [] {
      NothingGrown(b, s.fired);
    } else {
      var f := l.down.hand[0];
      CallGood(s, c);
      assert Answers.Expects(b, f);
      AnswersRead(MeshBytes.Call(s, c), c, Answers.Answered(b, f));
      var z := Answers.AllAnswered(b, l.down.hand);
      GrownFirst(b, f, z, s.fired, ConsumerReads(s, c).fired);
    }
  }

  /** A line on which `n` bytes have been read by a client with book `b`. */
  ghost predicate LineRead(l: Wired, z: Wired, n: nat, b: Answers.Book, was: seq<Fired>, now: seq<Fired>) {
    n <= |l.down.wire| &&
    var d := Drive(l.down.reader, l.down.rest + l.down.wire[..n]);
    && d.Drained? && Answers.AllExpected(b, d.frames)
    && var y := Answers.AllAnswered(b, d.frames);
    && z == l.(down := Pipe(d.state, d.rest, l.down.wire[n..], []), callbacks := y.callbacks, contexts := y.contexts)
    && Grown(b, y, was, now)
  }

  /** The preconditions of the reader hold, and its contract is the step of the mesh. */
  lemma ConsumerStep(s: Net, c: nat, n: nat, b: Answers.Book)
    requires Possible(s, ConsumerData(c, n)) && s.lines[c].down.hand == []
    requires s.lines[c].callbacks == b.callbacks && s.lines[c].contexts == b.contexts && Good(s)
    ensures var t := After(s, ConsumerData(c, n));
        c < |t.lines| && |t.lines| == |s.lines| && LineRead(s.lines[c], t.lines[c], n, b, s.fired, t.fired)
  {
    hide Good, Drive, Grown, Answers.AllExpected, Answers.AllAnswered;
    DownArrivesGood(s, c, n);
    var d := Reading(s.lines[c].down, n);
    assert [] + d.frames == d.frames;
    AnswersRead(DownArrives(s, c, n), c, b);
  }

  /** _pa_read_cb, after as many bytes as there is room for. */
  method ClientReceives(p: PaClient.PaClient, ghost s: Net, ghost c: nat, suggested: nat, offered: seq<byte>)
    returns (k: nat, ghost n: Net)
    requires c < |s.lines| && ClientOn(p, s.lines[c]) && offered <= s.lines[c].down.wire && Good(s)
    requires |p.input.Unread()| < Need(p.Await()) <= suggested && suggested >= 3
    modifies p`readState, p`respId, p`dataLen, p`callbacks, p`contexts, p`calls, p.input.Footprint()
    ensures k <= |offered| && (offered != [] ==> k > 0)
    ensures Steps(s, ConsumerData(c, k), n) && c < |n.lines| && ClientOn(p, n.lines[c])
    ensures |p.input.Unread()| < Need(p.Await())
    ensures p.input.Recycled() && fresh(p.input.Footprint() - old(p.input.Footprint()))
    ensures Grown(old(p.BookNow()), p.BookNow(), s.fired, n.fired)
  {
    hide Good, Drive, Grown, Answers.AllExpected, Answers.AllAnswered, PaClient.PaClient.Await, Need, After, CopyString,
      Buffers.Inlet.Footprint;
    p.FootprintAside();
    ghost var b := p.BookNow();
    assert offered == s.lines[c].down.wire[..|offered|];
    ConsumerStep(s, c, |offered|, b);
    k := p.Receive(suggested, offered);
    assert offered[..k] == s.lines[c].down.wire[..k];
    ConsumerStep(s, c, k, b);
    AfterGood(s, ConsumerData(c, k));
    n := After(s, ConsumerData(c, k));
  }

  // ---------------------------------------------------------------- the Dubbo client, writing

  /** The sending side of the Dubbo client, as the mesh has it. */
  predicate SenderOn(z: DubboClient.Sender, s: Net) {
    && z.connected == s.dubboOn && z.queue == s.jobs
    && z.book.contexts == s.cbs && z.book.callbacks == map x | x in s.cbs :: ProviderAgent.DUBBO_CALLBACK
  }

  /** What is written between two states of a sender is put into the pipe to the provider. */
  ghost predicate WroteOut(y: DubboClient.Sender, z: DubboClient.Sender, s: Net, n: Net) {
    Sent(y.written, z.written, s.out, n.out)
  }

  lemma WroteNothing(z: DubboClient.Sender, s: Net)
    ensures WroteOut(z, z, s, s)
  {
    PutTwice(s.out, [], []);
    assert z.written[|z.written|..] == [];
  }

  lemma WroteMore(x: DubboClient.Sender, y: DubboClient.Sender, z: DubboClient.Sender, s: Net, t: Net, n: Net)
    requires WroteOut(x, y, s, t) && WroteOut(y, z, t, n)
    ensures WroteOut(x, z, s, n)
  {
    PutTwice(s.out, y.written[|x.written|..], z.written[|y.written|..]);
    assert z.written[..|y.written|] == y.written;
    assert z.written[|x.written|..] == y.written[|x.written|..] + z.written[|y.written|..];
  }

  lemma {:induction false} JobsWritten(s: Net)
    ensures var n := DubboQueue(s);
        n == if s.dubboOn then
               s.(jobs := [], out := Put(s.out, DubboClient.EncodeJobs(s.jobs)), stage := n.stage)
             else s
    decreases |s.jobs|
  {
    hide DubboClient.EncodeJob;
    if s.dubboOn && s.jobs != [] {
      JobsWritten(ForwardHead(s));
      var j := s.jobs[0];
      JobEncoded(j);
      PutTwice(s.out, DubboClient.EncodeJob(j), DubboClient.EncodeJobs(s.jobs[1..]));
    } else {
      PutTwice(s.out, [], []);
    }
  }

  lemma JobEncoded(j: Job)
    ensures DubboClient.EncodeJob(j) == EncodeDubbo(FLAGS, j.id, Body(j.key, j.data))
  {
  }

  /** _d_on_connect */
  method HubConnects(p: DubboClient.DubboClient, ghost s: Net) returns (ghost n: Net)
    requires Possible(s, DubboConnected) && SenderOn(p.SenderNow(), s) && Good(s)
    modifies p`connected, p`queue, p`written
    ensures Steps(s, DubboConnected, n) && SenderOn(p.SenderNow(), n)
    ensures WroteOut(old(p.SenderNow()), p.SenderNow(), s, n)
  {
    hide Good, DubboClient.EncodeJobs, Put;
    n := After(s, DubboConnected);
    AfterGood(s, DubboConnected);
    JobsWritten(s.(dubboOn := true));
    p.OnConnect();
    assert p.written[|old(p.written)|..] == DubboClient.EncodeJobs(old(p.queue));
  }

  // ---------------------------------------------------------------- the provider agent, reading

  /** dubbo_fetch by the provider agent. */
  lemma JobPushed(s: Net, c: nat, z: DubboClient.Sender)
    requires Good(s) && c < |s.lines| && s.lines[c].keySent && s.lines[c].up.hand != [] && SenderOn(z, s)
    ensures var f := s.lines[c].up.hand[0];
        f.Request? &&
        var n := DubboQueue(PushJob(s, c));
        var y := DubboClient.JobFetched(z, Job(f.id, f.key, f.data), ProviderAgent.DUBBO_CALLBACK, c);
        && Good(n) && SenderOn(y, n) && WroteOut(z, y, s, n)
        && n.lines == s.lines[c := s.lines[c].(up := Popped(s.lines[c].up))]
  {
    hide Good, DubboClient.EncodeJobs, Put, Abs, AgentTook, CanTake;
    PushJobGood(s, c);
    DubboQueueGood(PushJob(s, c));
    JobsWritten(PushJob(s, c));
    PutTwice(s.out, [], []);
    var f := s.lines[c].up.hand[0];
    var y := DubboClient.JobFetched(z, Job(f.id, f.key, f.data), ProviderAgent.DUBBO_CALLBACK, c);
    assert y.written[|z.written|..] ==
           if z.connected then DubboClient.EncodeJobs(s.jobs + [Job(f.id, f.key, f.data)]) else [];
  }

  lemma {:induction false} RequestsHanded(s: Net, c: nat, z: DubboClient.Sender)
    requires Good(s) && c < |s.lines| && s.lines[c].keySent && SenderOn(z, s)
    ensures var l, n := s.lines[c], AgentReads(s, c);
        var y := ProviderAgent.AllFetched(z, c, l.up.hand);
        && n.lines == s.lines[c := l.(up := l.up.(hand := []))]
        && SenderOn(y, n) && WroteOut(z, y, s, n)
    decreases |s.lines[c].up.hand|
  {
    hide Good, SenderOn, WroteOut, DubboQueue, PushJob, DubboClient.JobFetched;
    var l := s.lines[c];
    if l.up.hand == [] {
      WroteNothing(z, s);
      assert s.lines[c := l] == s.lines;
    } else {
      var f := l.up.hand[0];
      JobPushed(s, c, z);
      var y := DubboClient.JobFetched(z, Job(f.id, f.key, f.data), ProviderAgent.DUBBO_CALLBACK, c);
      var t := DubboQueue(PushJob(s, c));
      RequestsHanded(t, c, y);
      WroteMore(z, y, ProviderAgent.AllFetched(y, c, l.up.hand[1..]), s, t, AgentReads(t, c));
    }
  }

  /** A line on which `n` bytes have been read by the provider agent, and the requests in
      them handed to the Dubbo client `z`. */
  ghost predicate RequestsRead(s: Net, t: Net, c: nat, n: nat, z: DubboClient.Sender) {
    c < |s.lines| && n <= |s.lines[c].up.wire| &&
    var l := s.lines[c];
    var d := Drive(l.up.reader, l.up.rest + l.up.wire[..n]);
    && d.Drained?
    && var y := ProviderAgent.AllFetched(z, c, d.frames);
    && t.lines == s.lines[c := l.(up := Pipe(d.state, d.rest, l.up.wire[n..], []))]
    && SenderOn(y, t) && WroteOut(z, y, s, t)
  }

  lemma AgentStep(s: Net, c: nat, n: nat, z: DubboClient.Sender)
    requires Possible(s, AgentData(c, n)) && s.lines[c].up.hand == [] && SenderOn(z, s) && Good(s)
    ensures RequestsRead(s, After(s, AgentData(c, n)), c, n, z)
  {
    hide Good, Drive, WroteOut, ProviderAgent.AllFetched;
    UpArrivesGood(s, c, n);
    var d := Reading(s.lines[c].up, n);
    assert [] + d.frames == d.frames;
    var a := UpArrives(s, c, n);
    RequestsHanded(a, c, z);
    SameOut(z, ProviderAgent.AllFetched(z, c, d.frames), a, s, AgentReads(a, c));
  }

  lemma SameOut(y: DubboClient.Sender, z: DubboClient.Sender, a: Net, s: Net, n: Net)
    requires WroteOut(y, z, a, n) && a.out == s.out
    ensures WroteOut(y, z, s, n)
  {
  }

  /** The reader of a connection, as it is between two callbacks. */
  ghost predicate AgentOn(p: ProviderAgent.StreamContext, l: Wired)
    reads p, p.input, p.input.pool, p.input.active, if p.input.active == null then {} else {p.input.active.buf}
  {
    p.Valid() && l.up.reader == p.Await() && l.up.rest == p.input.Unread() && l.up.hand == []
  }

  /** on_read, after as many bytes as there is room for. */
  method AgentReceives(p: ProviderAgent.StreamContext, ghost s: Net, suggested: nat, offered: seq<byte>)
    returns (k: nat, ghost n: Net)
    requires p.channel < |s.lines| && AgentOn(p, s.lines[p.channel]) && SenderOn(p.dubbo.SenderNow(), s) && Good(s)
    requires offered != [] && offered <= s.lines[p.channel].up.wire
    requires |p.input.Unread()| < Need(p.Await()) <= suggested && suggested >= 3
    modifies p`headerState, p`hasHeader, p`site, p`call, p`types, p`siteLen, p`callLen, p`typesLen
    modifies p`bodyState, p`actId, p`paramLen
    modifies p.input.Footprint(), p.dubbo`queue, p.dubbo`written, p.dubbo`callbacks, p.dubbo`contexts
    ensures 0 < k <= |offered|
    ensures Steps(s, AgentData(p.channel, k), n) && p.channel < |n.lines| && AgentOn(p, n.lines[p.channel])
    ensures |p.input.Unread()| < Need(p.Await())
    ensures p.input.Recycled() && fresh(p.input.Footprint() - old(p.input.Footprint()))
    ensures SenderOn(p.dubbo.SenderNow(), n) && WroteOut(old(p.dubbo.SenderNow()), p.dubbo.SenderNow(), s, n)
  {
    hide Good, Drive, WroteOut, SenderOn, ProviderAgent.AllFetched, ProviderAgent.StreamContext.Await, Need, After,
      Buffers.Inlet.Footprint;
    ghost var c, z := p.channel, p.dubbo.SenderNow();
    assert offered == s.lines[c].up.wire[..|offered|];
    AgentStep(s, c, |offered|, z);
    k := p.Receive(suggested, offered);
    assert offered[..k] == s.lines[c].up.wire[..k];
    AgentStep(s, c, k, z);
    AfterGood(s, AgentData(c, k));
    n := After(s, AgentData(c, k));
  }

  // ---------------------------------------------------------------- the Dubbo client, reading

  /** What `_dubbo_callback` writes to connection `c` for the callbacks made. */
  function WrittenTo(c: nat, calls: seq<Answers.Made>): seq<byte> {
    if calls == [] then []
    else (if calls[0].context == c then EncodeAct(calls[0].id, calls[0].data) else []) + WrittenTo(c, calls[1..])
  }

  predicate BookOn(b: Answers.Book, s: Net) {
    b.contexts == s.cbs && b.callbacks == map x | x in s.cbs :: ProviderAgent.DUBBO_CALLBACK
  }

  /** Every connection has been sent the answers that its requests got. */
  ghost predicate SentBack(b: Answers.Book, z: Answers.Book, s: Net, n: Net) {
    && b.calls <= z.calls && |n.lines| == |s.lines|
    && (forall m | m in z.calls[|b.calls|..] :: m.context < |s.lines|)
    && forall c | 0 <= c < |s.lines| :: LineSentBack(z.calls[|b.calls|..], c, s.lines[c], n.lines[c])
  }

  predicate LineSentBack(calls: seq<Answers.Made>, c: nat, l: Wired, z: Wired) {
    z == l.(down := Put(l.down, WrittenTo(c, calls)))
  }

  lemma NothingSentBack(b: Answers.Book, s: Net)
    ensures SentBack(b, b, s, s)
  {
    assert b.calls[|b.calls|..] == [];
    forall c | 0 <= c < |s.lines| ensures LineSentBack([], c, s.lines[c], s.lines[c]) {
      PutTwice(s.lines[c].down, [], []);
    }
  }

  /** One answer in front. */
  lemma SentBackFirst(b: Answers.Book, f: Frame, z: Answers.Book, s: Net, t: Net, n: Net, k: nat)
    requires Answers.Expects(b, f) && k < |s.lines| && b.contexts[f.id] == k
    requires t.lines == s.lines[k := s.lines[k].(down := Put(s.lines[k].down, EncodeAct(f.id, f.data)))]
    requires SentBack(Answers.Answered(b, f), z, t, n)
    ensures SentBack(b, z, s, n)
  {
    hide EncodeAct;
    var m := Answers.Made(b.callbacks[f.id], b.contexts[f.id], f.id, f.data);
    var y := z.calls[|b.calls| + 1..];
    assert (b.calls + [m])[|b.calls|] == m && z.calls[|b.calls|] == m;
    var calls := z.calls[|b.calls|..];
    assert calls[0] == m && calls[1..] == y;
    assert b.calls == (b.calls + [m])[..|b.calls|];
    forall c | 0 <= c < |s.lines| ensures LineSentBack(calls, c, s.lines[c], n.lines[c]) {
      assert LineSentBack(y, c, t.lines[c], n.lines[c]);
      if c == k {
        PutTwice(s.lines[c].down, EncodeAct(f.id, f.data), WrittenTo(c, y));
      } else {
        assert [] + WrittenTo(c, y) == WrittenTo(c, y);
      }
    }
  }

  lemma {:induction false} AnswersWritten(s: Net, b: Answers.Book)
    requires Good(s) && BookOn(b, s)
    ensures var n := HubReads(s);
        && Answers.AllExpected(b, s.back.hand)
        && var z := Answers.AllAnswered(b, s.back.hand);
        && n.back == s.back.(hand := []) && BookOn(z, n) && SentBack(b, z, s, n)
    decreases |s.back.hand|
  {
    hide Good, SentBack, EncodeAct, Abs, Returned, CanReturn;
    if s.back.hand == [] {
      NothingSentBack(b, s);
    } else {
      var f := s.back.hand[0];
      WriteBackGood(s);
      assert Answers.Expects(b, f);
      var t := WriteBack(s);
      AnswersWritten(t, Answers.Answered(b, f));
      SentBackFirst(b, f, Answers.AllAnswered(b, s.back.hand), s, t, HubReads(s), s.cbs[f.id]);
    }
  }

  /** `n` bytes from the provider have been read, with book `b`. */
  ghost predicate AnswersRelayed(s: Net, t: Net, n: nat, b: Answers.Book) {
    n <= |s.back.wire| &&
    var d := Drive(s.back.reader, s.back.rest + s.back.wire[..n]);
    && d.Drained? && Answers.AllExpected(b, d.frames)
    && var z := Answers.AllAnswered(b, d.frames);
    && t.back == Pipe(d.state, d.rest, s.back.wire[n..], []) && |t.lines| == |s.lines|
    && BookOn(z, t) && SentBack(b, z, s, t)
  }

  lemma HubStep(s: Net, n: nat, b: Answers.Book)
    requires Possible(s, HubData(n)) && s.back.hand == [] && BookOn(b, s) && Good(s)
    ensures AnswersRelayed(s, After(s, HubData(n)), n, b)
  {
    hide Good, Drive, SentBack, Answers.AllExpected, Answers.AllAnswered;
    var a := s.(back := Arriving(s.back, n));
    BackArrivesGood(s, n);
    var d := Reading(s.back, n);
    assert [] + d.frames == d.frames;
    AnswersWritten(a, b);
    SameLines(b, Answers.AllAnswered(b, d.frames), a, s, HubReads(a));
  }

  lemma SameLines(b: Answers.Book, z: Answers.Book, a: Net, s: Net, n: Net)
    requires SentBack(b, z, a, n) && a.lines == s.lines
    ensures SentBack(b, z, s, n)
  {
  }

  ghost predicate HubOn(p: DubboClient.DubboClient, s: Net)
    reads p, p.input, p.input.pool, p.input.active, if p.input.active == null then {} else {p.input.active.buf}
  {
    && p.Valid() && BookOn(p.BookNow(), s)
    && s.back.reader == p.Await() && s.back.rest == p.input.Unread() && s.back.hand == []
  }

  /** _d_read_cb, after as many bytes as there is room for. */
  method HubReceives(p: DubboClient.DubboClient, ghost s: Net, suggested: nat, offered: seq<byte>)
    returns (k: nat, ghost n: Net)
    requires HubOn(p, s) && offered <= s.back.wire && Good(s)
    requires |p.input.Unread()| < Need(p.Await()) <= suggested && suggested >= 3
    modifies p`readState, p`respId, p`dataLen, p`callbacks, p`contexts, p`calls, p.input.Footprint()
    ensures k <= |offered| && (offered != [] ==> k > 0)
    ensures Steps(s, HubData(k), n) && HubOn(p, n)
    ensures |p.input.Unread()| < Need(p.Await())
    ensures p.input.Recycled() && fresh(p.input.Footprint() - old(p.input.Footprint()))
    ensures SentBack(old(p.BookNow()), p.BookNow(), s, n)
  {
    hide Good, Drive, SentBack, Answers.AllExpected, Answers.AllAnswered, DubboClient.DubboClient.Await, Need, After,
        BookOn,
      Buffers.Inlet.Footprint;
    ghost var b := p.BookNow();
    assert offered == s.back.wire[..|offered|];
    HubStep(s, |offered|, b);
    k := p.Receive(suggested, offered);
    assert offered[..k] == s.back.wire[..k];
    HubStep(s, k, b);
    AfterGood(s, HubData(k));
    n := After(s, HubData(k));
  }

  // ---------------------------------------------------------------- the start

  /** New clients, connections and Dubbo client match the mesh in which nothing has happened. */
  method NewClient(ghost keys: seq<Key>, ghost c: nat, key: Key, input: Buffers.Inlet) returns (p: PaClient.PaClient)
    requires c < |keys| && keys[c] == key && input.Valid() && input.Unread() == []
    ensures fresh(p) && p.input == input && ClientOn(p, NewNet(keys).lines[c]) && p.written == [] && p.calls == []
  {
    p := new PaClient.PaClient(key, input);
  }

  method NewHub(ghost keys: seq<Key>, input: Buffers.Inlet) returns (p: DubboClient.DubboClient)
    requires input.Valid() && input.Unread() == []
    ensures fresh(p) && p.input == input && HubOn(p, NewNet(keys)) && SenderOn(p.SenderNow(), NewNet(keys))
    ensures p.written == []
  {
    p := new DubboClient.DubboClient(input);
  }

  method NewAgent(ghost keys: seq<Key>, c: nat, input: Buffers.Inlet, hub: DubboClient.DubboClient)
    returns (p: ProviderAgent.StreamContext)
    requires c < |keys| && input.Valid() && input.Unread() == []
    ensures fresh(p) && p.input == input && p.dubbo == hub && p.channel == c && AgentOn(p, NewNet(keys).lines[c])
    ensures p.written == []
  {
    p := new ProviderAgent.StreamContext(input, hub, c);
  }
}
