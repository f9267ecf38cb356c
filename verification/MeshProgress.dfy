/** The mesh comes to rest, and only when all is done.

    Without new requests no run of it goes on for ever, whatever comes next each time and in
    whatever fragments; and where nothing more can happen every call has had its callback. */
module MeshProgress {
  import opened Wire
  import opened Frames
  import opened MeshMessages
  import opened MeshBytes

  // ---------------------------------------------------------------- the mesh of messages

  function Sum(ns: seq<nat>): nat {
    if ns == [] then 0 else ns[0] + Sum(ns[1..])
  }

  lemma {:induction false} SumUpdate(ns: seq<nat>, c: nat, x: nat)
    requires c < |ns|
    ensures Sum(ns[c := x]) + ns[c] == Sum(ns) + x
    decreases c
  {
    if c == 0 {
      assert ns[c := x][1..] == ns[1..];
    } else {
      assert ns[c := x][1..] == ns[1..][c - 1 := x];
      SumUpdate(ns[1..], c - 1, x);
    }
  }

  lemma {:induction false} SumZero(ns: seq<nat>)
    ensures Sum(ns) == 0 <==> forall x | x in ns :: x == 0
    decreases |ns|
  {
    if ns != [] {
      SumZero(ns[1..]);
      assert ns[0] in ns && forall x | x in ns[1..] :: x in ns;
      assert forall x | x in ns :: x == ns[0] || x in ns[1..];
    }
  }

  /** The actions that the messages on a line have in front of them. */
  function LineWork(l: Line): nat { 7 * |l.queue| + 6 * |l.toAgent| + |l.toConsumer| }

  function Works(ls: seq<Line>): (r: seq<nat>)
    ensures |r| == |ls| && forall c | 0 <= c < |ls| :: r[c] == LineWork(ls[c])
  {
    seq(|ls|, c requires 0 <= c < |ls| => LineWork(ls[c]))
  }

  function Work(m: Mesh): nat {
    Sum(Works(m.lines)) + 5 * |m.jobs| + 4 * |m.toProvider| + 3 * |m.pending| + 2 * |m.fromProvider|
  }

  lemma WorksUpdate(ls: seq<Line>, c: nat, l: Line)
    requires c < |ls|
    ensures Sum(Works(ls[c := l])) + LineWork(ls[c]) == Sum(Works(ls)) + LineWork(l)
  {
    SumUpdate(Works(ls), c, LineWork(l));
    assert Works(ls[c := l]) == Works(ls)[c := LineWork(l)];
  }

  lemma NextWorks(m: Mesh, a: Action)
    requires Enabled(m, a)
    ensures Work(Next(m, a)) == Work(m) + if a.Fetch? then 7 else -1
  {
    hide Sum, Works;
    var n := Next(m, a);
    if a.Fetch? || a.Send? || a.Accept? || a.Finish? {
      WorksUpdate(m.lines, a.line, n.lines[a.line]);
    } else if a.Return? {
      var c := m.cbs[m.fromProvider[0].id];
      WorksUpdate(m.lines, c, n.lines[c]);
    }
  }

  lemma WorkDone(m: Mesh)
    ensures Work(m) == 0 <==> Empty(m)
  {
    var w := Works(m.lines);
    SumZero(w);
    if Empty(m) {
      forall x | x in w ensures x == 0 {
        var c :| 0 <= c < |w| && w[c] == x;
        assert m.lines[c].queue == [];
      }
    }
    if Work(m) == 0 {
      forall c | 0 <= c < |m.lines| ensures LineWork(m.lines[c]) == 0 { assert w[c] in w; }
    }
  }

  /** Where there is a message something can be done with it. */
  lemma StillWorks(m: Mesh) returns (a: Action)
    requires Invariant(m) && !Empty(m)
    ensures Enabled(m, a) && !a.Fetch?
  {
    hide Holds, FiredOnce, HubMap, LineMaps, LineQueues, Known;
    if m.jobs != [] {
      HeadHere(m, m.jobs, 0, AtAgent, ALL);
      a := Forward;
    } else if m.toProvider != [] {
      HeadHere(m, m.toProvider, 0, ToProvider, ALL);
      a := Receive;
    } else if m.pending != [] {
      HeadHere(m, m.pending, 0, AtProvider, ALL);
      a := Answer(0, []);
    } else if m.fromProvider != [] {
      HeadHere(m, m.fromProvider, 0, FromProvider, ALL);
      ReturnHits(m);
      a := Return;
    } else {
      var c :| 0 <= c < |m.lines| &&
          !(m.lines[c].queue == [] && m.lines[c].toAgent == [] && m.lines[c].toConsumer == []);
      LookupsHit(m, c);
      a := if m.lines[c].queue != [] then Send(c) else if m.lines[c].toAgent != [] then Accept(c) else Finish(c);
    }
  }

  /** Some actions in a row, none of them a new request. */
  ghost predicate Working(ms: seq<Mesh>, actions: seq<Action>) {
    && |ms| == |actions| + 1
    && forall i | 0 <= i < |actions| ::
         !actions[i].Fetch? && Enabled(ms[i], actions[i]) && ms[i + 1] == Next(ms[i], actions[i])
  }

  /** In whatever order: after as many actions as there is work, and no sooner, all is done,
      and until then there is a next one. */
  lemma {:induction false} Completes(ms: seq<Mesh>, actions: seq<Action>)
    requires Working(ms, actions) && Invariant(ms[0])
    ensures var z := ms[|actions|];
        && Invariant(z) && Work(z) == Work(ms[0]) - |actions|
        && (|actions| == Work(ms[0]) <==> Empty(z))
        && (!Empty(z) ==> exists a :: Enabled(z, a) && !a.Fetch?)
    decreases |actions|
  {
    hide Invariant, Work, Enabled, Next, Empty;
    var n := |actions|;
    if n > 0 {
      Completes(ms[..n], actions[..n - 1]);
      NextKeeps(ms[n - 1], actions[n - 1]);
      NextWorks(ms[n - 1], actions[n - 1]);
    }
    WorkDone(ms[n]);
    if !Empty(ms[n]) { var a := StillWorks(ms[n]); }
  }

  // ---------------------------------------------------------------- between events

  /** A reader has handed on all that it has read, and waits for bytes. */
  predicate PipeRests(p: Pipe) { p.hand == [] && |p.rest| < Need(p.reader) }

  predicate LineRests(l: Wired) {
    PipeRests(l.up) && PipeRests(l.down) && (l.connected ==> l.queue == [])
  }

  predicate HubRests(s: Net) {
    PipeRests(s.out) && PipeRests(s.back) && (s.dubboOn ==> s.jobs == [])
  }

  predicate Rests(s: Net) {
    HubRests(s) && forall c | 0 <= c < |s.lines| :: LineRests(s.lines[c])
  }

  /** More or fewer bytes on the way to the same reader. */
  predicate SameReader(p: Pipe, q: Pipe) { q == p.(wire := q.wire) }

  /** The line `l` after some of its queue has been written. */
  predicate Wrote(l: Wired, z: Wired) {
    z == l.(queue := z.queue, up := z.up) && SameReader(l.up, z.up)
  }

  lemma SendHeadWrites(s: Net, c: nat)
    requires c < |s.lines| && s.lines[c].queue != []
    ensures var n := SendHead(s, c);
        n == s.(lines := s.lines[c := n.lines[c]], stage := n.stage) && Wrote(s.lines[c], n.lines[c])
  {
    hide EncodeAct;
  }

  lemma {:induction false} HandleQueueShape(s: Net, c: nat)
    requires c < |s.lines|
    ensures var n := HandleQueue(s, c);
        && |n.lines| == |s.lines| && n == s.(lines := s.lines[c := n.lines[c]], stage := n.stage)
        && Wrote(s.lines[c], n.lines[c]) && (s.lines[c].connected ==> n.lines[c].queue == [])
    decreases |s.lines[c].queue|
  {
    if s.lines[c].connected && s.lines[c].queue != [] {
      hide SendHead;
      SendHeadWrites(s, c);
      SendHeadShape(s, c);
      HandleQueueShape(SendHead(s, c), c);
    }
  }

  lemma {:induction false} HandleQueueWorks(s: Net, c: nat)
    requires Good(s) && c < |s.lines|
    ensures Work(Abs(HandleQueue(s, c))) <= Work(Abs(s))
    decreases |s.lines[c].queue|
  {
    if s.lines[c].connected && s.lines[c].queue != [] {
      hide Good, Abs, Work, SendHead;
      ConnectedHasKey(s, c);
      SendHeadWorks(s, c);
      SendHeadShape(s, c);
      HandleQueueWorks(SendHead(s, c), c);
    }
  }

  lemma SendHeadWorks(s: Net, c: nat)
    requires Good(s) && c < |s.lines| && s.lines[c].queue != [] && s.lines[c].keySent
    ensures Good(SendHead(s, c)) && Work(Abs(SendHead(s, c))) < Work(Abs(s))
  {
    hide Good, Abs, Work, Sent, CanSend;
    SendHeadGood(s, c);
    NextWorks(Abs(s), Send(c));
  }

  lemma {:induction false} DubboQueueShape(s: Net)
    ensures var n := DubboQueue(s);
        && n == s.(jobs := n.jobs, out := n.out, stage := n.stage) && SameReader(s.out, n.out)
        && (s.dubboOn ==> n.jobs == [])
    decreases |s.jobs|
  {
    if s.dubboOn && s.jobs != [] {
      hide EncodeDubbo;
      DubboQueueShape(ForwardHead(s));
    }
  }

  lemma {:induction false} DubboQueueWorks(s: Net)
    requires Good(s)
    ensures Work(Abs(DubboQueue(s))) <= Work(Abs(s))
    decreases |s.jobs|
  {
    if s.dubboOn && s.jobs != [] {
      hide Good, Abs, Work, ForwardHead;
      ForwardHeadWorks(s);
      ForwardHeadShape(s);
      DubboQueueWorks(ForwardHead(s));
    }
  }

  lemma ForwardHeadWorks(s: Net)
    requires Good(s) && s.jobs != []
    ensures Good(ForwardHead(s)) && Work(Abs(ForwardHead(s))) < Work(Abs(s))
  {
    hide Good, Abs, Work, Forwarded, CanForward;
    ForwardHeadGood(s);
    NextWorks(Abs(s), Forward);
  }

  /** Line `c` has handed on frames; the hub has more to send, or has sent it. */
  predicate HandedOn(s: Net, n: Net, c: nat)
    requires c < |s.lines|
  {
    && |n.lines| == |s.lines|
    && n == s.(lines := n.lines, jobs := n.jobs, out := n.out, cbs := n.cbs, stage := n.stage)
    && n.lines == s.lines[c := s.lines[c].(up := s.lines[c].up.(hand := n.lines[c].up.hand))]
    && SameReader(s.out, n.out) && (s.dubboOn && s.jobs == [] ==> n.jobs == [])
  }

  lemma HandedTwice(s: Net, m: Net, n: Net, c: nat)
    requires c < |s.lines| && HandedOn(s, m, c) && HandedOn(m, n, c)
    ensures HandedOn(s, n, c)
  {
    assert forall d | 0 <= d < |s.lines| && d != c :: n.lines[d] == s.lines[d];
  }

  lemma PushJobHands(s: Net, c: nat)
    requires c < |s.lines| && s.lines[c].up.hand != [] && s.lines[c].up.hand[0].Request?
    ensures HandedOn(s, DubboQueue(PushJob(s, c)), c) && AgentReads(s, c) == AgentReads(DubboQueue(PushJob(s, c)), c)
  {
    hide DubboQueue;
    DubboQueueShape(PushJob(s, c));
  }

  lemma NothingInHand(s: Net, c: nat)
    requires c < |s.lines|
    ensures HandedOn(s, s, c) && CalledBack(s, s, c)
  {
    var l := s.lines[c];
    assert l.up.(hand := l.up.hand) == l.up && l.down.(hand := l.down.hand) == l.down;
    assert s.lines[c := l] == s.lines;
  }

  lemma {:induction false} AgentReadsShape(s: Net, c: nat)
    requires Good(s) && c < |s.lines| && s.lines[c].keySent
    ensures HandedOn(s, AgentReads(s, c), c)
    decreases |s.lines[c].up.hand|
  {
    hide Good, Abs, PushJob, DubboQueue, HandedOn, CalledBack, AgentTook, CanTake;
    NothingInHand(s, c);
    if s.lines[c].up.hand != [] {
      hide AgentReads;
      PushJobGood(s, c);
      PushJobShape(s, c);
      DubboQueueGood(PushJob(s, c));
      PushJobHands(s, c);
      var n := DubboQueue(PushJob(s, c));
      AgentReadsShape(n, c);
      HandedTwice(s, n, AgentReads(n, c), c);
    }
  }

  lemma {:induction false} AgentReadsWorks(s: Net, c: nat)
    requires Good(s) && c < |s.lines| && s.lines[c].keySent
    ensures var n := AgentReads(s, c); if s.lines[c].up.hand == [] then n == s else Work(Abs(n)) < Work(Abs(s))
    decreases |s.lines[c].up.hand|
  {
    if s.lines[c].up.hand != [] {
      hide Good, Abs, Work, PushJob, DubboQueue;
      PushJobWorks(s, c);
      PushJobShape(s, c);
      DubboQueueGood(PushJob(s, c));
      DubboQueueWorks(PushJob(s, c));
      AgentReadsWorks(DubboQueue(PushJob(s, c)), c);
    }
  }

  lemma PushJobWorks(s: Net, c: nat)
    requires Good(s) && c < |s.lines| && s.lines[c].keySent && s.lines[c].up.hand != []
    ensures s.lines[c].up.hand[0].Request? && Good(PushJob(s, c)) && Work(Abs(PushJob(s, c))) < Work(Abs(s))
  {
    hide Good, Abs, Work, AgentTook, CanTake;
    PushJobGood(s, c);
    NextWorks(Abs(s), Accept(c));
  }

  lemma {:induction false} ProviderReadsShape(s: Net)
    ensures var n := ProviderReads(s); n == s.(out := s.out.(hand := []), pending := n.pending, stage := n.stage)
    decreases |s.out.hand|
  {
    if s.out.hand != [] { ProviderReadsShape(PushPending(s)); }
  }

  lemma {:induction false} ProviderReadsWorks(s: Net)
    requires Good(s)
    ensures var n := ProviderReads(s); if s.out.hand == [] then n == s else Work(Abs(n)) < Work(Abs(s))
    decreases |s.out.hand|
  {
    if s.out.hand != [] {
      PushPendingWorks(s);
      hide Good, Abs, Work;
      ProviderReadsWorks(PushPending(s));
    }
  }

  lemma PushPendingWorks(s: Net)
    requires Good(s) && s.out.hand != []
    ensures Good(PushPending(s)) && Work(Abs(PushPending(s))) < Work(Abs(s))
  {
    hide Good, Abs, Work, Received, CanReceive;
    PushPendingGood(s);
    NextWorks(Abs(s), Receive);
  }

  lemma AnswerWorks(s: Net, i: nat, flags: seq<byte>, result: seq<byte>)
    requires Good(s) && i < |s.pending| && |flags| == 2 && Fits(result)
    ensures Work(Abs(ProviderAnswers(s, i, flags, result))) < Work(Abs(s))
  {
    hide Good, Abs, Work, AnsweredWith, CanAnswer;
    ProviderAnswersGood(s, i, flags, result);
    NextWorks(Abs(s), Answer(i, result));
  }

  /** Only what is on its way back on the lines may have changed. */
  predicate OnlyDown(a: seq<Wired>, b: seq<Wired>) {
    |b| == |a| && forall c | 0 <= c < |a| :: b[c] == a[c].(down := b[c].down) && SameReader(a[c].down, b[c].down)
  }

  /** The hub has handed on answers. */
  predicate AnswersOn(s: Net, n: Net) {
    && n == s.(lines := n.lines, back := s.back.(hand := n.back.hand), cbs := n.cbs, stage := n.stage)
    && OnlyDown(s.lines, n.lines)
  }

  lemma AnswersTwice(s: Net, m: Net, n: Net)
    requires AnswersOn(s, m) && AnswersOn(m, n)
    ensures AnswersOn(s, n)
  {
  }

  lemma WriteBackAnswers(s: Net)
    requires s.back.hand != [] && s.back.hand[0].id in s.cbs && s.cbs[s.back.hand[0].id] < |s.lines|
    ensures AnswersOn(s, WriteBack(s))
  {
    hide EncodeAct;
  }

  lemma HubReadsOn(s: Net)
    requires s.back.hand != [] && s.back.hand[0].id in s.cbs && s.cbs[s.back.hand[0].id] < |s.lines|
    ensures HubReads(s) == HubReads(WriteBack(s))
  {
    hide WriteBack;
  }

  lemma NoAnswers(s: Net)
    ensures AnswersOn(s, s)
  {
  }

  lemma {:induction false} HubReadsShape(s: Net)
    requires Good(s)
    ensures AnswersOn(s, HubReads(s))
    decreases |s.back.hand|
  {
    hide Good, Abs, WriteBack, AnswersOn, Returned, CanReturn;
    NoAnswers(s);
    if s.back.hand != [] {
      hide HubReads;
      WriteBackGood(s);
      WriteBackShape(s);
      WriteBackAnswers(s);
      HubReadsOn(s);
      HubReadsShape(WriteBack(s));
      AnswersTwice(s, WriteBack(s), HubReads(s));
    }
  }

  lemma {:induction false} HubReadsWorks(s: Net)
    requires Good(s)
    ensures var n := HubReads(s); if s.back.hand == [] then n == s else Work(Abs(n)) < Work(Abs(s))
    decreases |s.back.hand|
  {
    if s.back.hand != [] {
      hide Good, Abs, Work, WriteBack, HubReads, AnswersOn;
      WriteBackWorks(s);
      WriteBackShape(s);
      HubReadsOn(s);
      HubReadsWorks(WriteBack(s));
    }
  }

  lemma WriteBackWorks(s: Net)
    requires Good(s) && s.back.hand != []
    ensures var f := s.back.hand[0]; f.id in s.cbs && s.cbs[f.id] < |s.lines|
    ensures Good(WriteBack(s)) && Work(Abs(WriteBack(s))) < Work(Abs(s))
  {
    hide Good, Abs, Work, Returned, CanReturn;
    WriteBackGood(s);
    NextWorks(Abs(s), Return);
  }

  /** Line `c` has given answers to their callbacks. */
  predicate CalledBack(s: Net, n: Net, c: nat)
    requires c < |s.lines|
  {
    && |n.lines| == |s.lines| && n == s.(lines := n.lines, stage := n.stage, fired := n.fired)
    && n.lines == s.lines[c := s.lines[c].(down := s.lines[c].down.(hand := n.lines[c].down.hand),
                                           callbacks := n.lines[c].callbacks, contexts := n.lines[c].contexts)]
  }

  lemma CalledTwice(s: Net, m: Net, n: Net, c: nat)
    requires c < |s.lines| && CalledBack(s, m, c) && CalledBack(m, n, c)
    ensures CalledBack(s, n, c)
  {
    assert forall d | 0 <= d < |s.lines| && d != c :: n.lines[d] == s.lines[d];
  }

  lemma CallCalls(s: Net, c: nat)
    requires c < |s.lines| && s.lines[c].down.hand != []
    requires s.lines[c].down.hand[0].id in s.lines[c].callbacks && s.lines[c].down.hand[0].id in s.lines[c].contexts
    ensures CalledBack(s, MeshBytes.Call(s, c), c) && ConsumerReads(s, c) == ConsumerReads(MeshBytes.Call(s, c), c)
  {
  }

  lemma {:induction false} ConsumerReadsShape(s: Net, c: nat)
    requires Good(s) && c < |s.lines|
    ensures CalledBack(s, ConsumerReads(s, c), c)
    decreases |s.lines[c].down.hand|
  {
    hide Good, Abs, MeshBytes.Call, HandedOn, CalledBack, Finished, CanFinish;
    NothingInHand(s, c);
    if s.lines[c].down.hand != [] {
      hide ConsumerReads;
      CallGood(s, c);
      CallShape(s, c);
      CallCalls(s, c);
      ConsumerReadsShape(MeshBytes.Call(s, c), c);
      CalledTwice(s, MeshBytes.Call(s, c), ConsumerReads(s, c), c);
    }
  }

  lemma {:induction false} ConsumerReadsWorks(s: Net, c: nat)
    requires Good(s) && c < |s.lines|
    ensures var n := ConsumerReads(s, c); if s.lines[c].down.hand == [] then n == s else Work(Abs(n)) < Work(Abs(s))
    decreases |s.lines[c].down.hand|
  {
    if s.lines[c].down.hand != [] {
      hide Good, Abs, Work, MeshBytes.Call;
      CallWorks(s, c);
      CallShape(s, c);
      ConsumerReadsWorks(MeshBytes.Call(s, c), c);
    }
  }

  lemma CallWorks(s: Net, c: nat)
    requires Good(s) && c < |s.lines| && s.lines[c].down.hand != []
    ensures var f := s.lines[c].down.hand[0]; f.id in s.lines[c].callbacks && f.id in s.lines[c].contexts
    ensures Good(MeshBytes.Call(s, c)) && Work(Abs(MeshBytes.Call(s, c))) < Work(Abs(s))
  {
    hide Good, Abs, Work, Finished, CanFinish;
    CallGood(s, c);
    NextWorks(Abs(s), Finish(c));
  }

  // ---------------------------------------------------------------- one event

  /** Anything but a new request; where bytes arrive, at least one. */
  predicate Moves(e: Event) {
    match e
    case Fetching(_, _, _, _) => false
    case AgentData(_, n) => n > 0
    case ProviderData(n) => n > 0
    case HubData(n) => n > 0
    case ConsumerData(_, n) => n > 0
    case _ => true
  }

  function Unlinked(l: Wired): nat { if !l.keySent then 2 else if !l.connected then 1 else 0 }

  function AllUnlinked(ls: seq<Wired>): (r: seq<nat>)
    ensures |r| == |ls| && forall c | 0 <= c < |ls| :: r[c] == Unlinked(ls[c])
  {
    seq(|ls|, c requires 0 <= c < |ls| => Unlinked(ls[c]))
  }

  /** The steps of connecting that are left. */
  function Offline(s: Net): nat { Sum(AllUnlinked(s.lines)) + if s.dubboOn then 0 else 1 }

  function OnWires(l: Wired): nat { |l.up.wire| + |l.down.wire| }

  function AllOnWires(ls: seq<Wired>): (r: seq<nat>)
    ensures |r| == |ls| && forall c | 0 <= c < |ls| :: r[c] == OnWires(ls[c])
  {
    seq(|ls|, c requires 0 <= c < |ls| => OnWires(ls[c]))
  }

  function Bytes(s: Net): nat { Sum(AllOnWires(s.lines)) + |s.out.wire| + |s.back.wire| }

  /** Less to connect; or as much, and less work; or as much of that too, and fewer bytes on
      their way. */
  predicate Less(n: Net, s: Net) {
    || Offline(n) < Offline(s)
    || (Offline(n) == Offline(s) &&
        (Work(Abs(n)) < Work(Abs(s)) || (Work(Abs(n)) == Work(Abs(s)) && Bytes(n) < Bytes(s))))
  }

  predicate SameLinks(a: seq<Wired>, b: seq<Wired>) {
    |a| == |b| && forall c | 0 <= c < |a| :: a[c].keySent == b[c].keySent && a[c].connected == b[c].connected
  }

  lemma OfflineSame(s: Net, n: Net)
    requires SameLinks(s.lines, n.lines) && s.dubboOn == n.dubboOn
    ensures Offline(s) == Offline(n)
  {
    assert AllUnlinked(s.lines) == AllUnlinked(n.lines);
  }

  lemma OfflineLess(s: Net, n: Net, c: nat)
    requires c < |s.lines| == |n.lines| && SameLinks(n.lines, s.lines[c := n.lines[c]]) && s.dubboOn == n.dubboOn
    requires Unlinked(n.lines[c]) < Unlinked(s.lines[c])
    ensures Offline(n) < Offline(s)
  {
    var x := Unlinked(n.lines[c]);
    SumUpdate(AllUnlinked(s.lines), c, x);
    assert AllUnlinked(n.lines) == AllUnlinked(s.lines)[c := x];
  }

  lemma BytesUpdate(ls: seq<Wired>, c: nat, l: Wired)
    requires c < |ls|
    ensures Sum(AllOnWires(ls[c := l])) + OnWires(ls[c]) == Sum(AllOnWires(ls)) + OnWires(l)
  {
    SumUpdate(AllOnWires(ls), c, OnWires(l));
    assert AllOnWires(ls[c := l]) == AllOnWires(ls)[c := OnWires(l)];
  }

  /** A resting reader without bytes on the way has nothing for anybody. */
  lemma RestingEmpty(p: Pipe)
    requires PipeRests(p) && p.wire == []
    ensures Contents(p) == []
  {
    assert p.rest + p.wire == p.rest;
  }

  lemma ArrivingRests(p: Pipe, s: Awaiting, n: nat)
    requires Flows(p, s) && n <= |p.wire|
    ensures var q := Arriving(p, n);
        |q.rest| < Need(q.reader) && q.wire == p.wire[n..] && FramesIn(q) == FramesIn(p) && Flows(q, s)
  {
    hide Drive, Take, Need;
    ArrivingSame(p, s, n);
    hide Flows, FramesIn;
  }

  /** Lines other than `c` rest as before. */
  lemma RestsBut(s: Net, n: Net, c: nat)
    requires Rests(s) && c < |s.lines| == |n.lines| && n.lines == s.lines[c := n.lines[c]]
    requires HubRests(n) && LineRests(n.lines[c])
    ensures Rests(n)
  {
    hide LineRests, HubRests;
    assert forall d | 0 <= d < |s.lines| && d != c :: n.lines[d] == s.lines[d];
  }

  lemma FetchingRests(s: Net, c: nat, id: int, context: nat, data: seq<byte>)
    requires Rests(s) && Possible(s, Fetching(c, id, context, data))
    ensures Rests(After(s, Fetching(c, id, context, data)))
  {
    hide HandleQueue;
    var m := PushRequest(s, c, id, context, data);
    HandleQueueShape(m, c);
    RestsBut(s, HandleQueue(m, c), c);
  }

  lemma ConnectingLess(s: Net, c: nat)
    requires Rests(s) && Possible(s, Connecting(c))
    ensures var n := After(s, Connecting(c)); Rests(n) && Less(n, s)
  {
    hide EncodeKey, Sum, Work, Abs, Bytes;
    var n := After(s, Connecting(c));
    RestsBut(s, n, c);
    OfflineLess(s, n, c);
  }

  lemma KeyWrittenLess(s: Net, c: nat)
    requires Rests(s) && Possible(s, KeyWritten(c))
    ensures var n := After(s, KeyWritten(c)); Rests(n) && Less(n, s)
  {
    hide Sum, Work, Abs, Bytes, HandleQueue;
    var m := WithWired(s, c, s.lines[c].(connected := true));
    var n := HandleQueue(m, c);
    HandleQueueShape(m, c);
    RestsBut(s, n, c);
    OfflineLess(s, n, c);
  }

  lemma DubboConnectedLess(s: Net)
    requires Rests(s) && Possible(s, DubboConnected)
    ensures var n := After(s, DubboConnected); Rests(n) && Less(n, s)
  {
    hide Sum, Work, Abs, Bytes, DubboQueue;
    DubboQueueShape(s.(dubboOn := true));
  }

  lemma UpArrivesSame(s: Net, c: nat, n: nat)
    requires Good(s) && c < |s.lines| && n <= |s.lines[c].up.wire|
    ensures s.lines[c].keySent ==> Abs(UpArrives(s, c, n)) == Abs(s)
    ensures s.lines[c].keySent ==> var p := UpArrives(s, c, n).lines[c].up;
        |p.rest| < Need(p.reader) && p.wire == s.lines[c].up.wire[n..]
  {
    hide Invariant, Flows, FramesIn, Need, Arriving;
    var l := s.lines[c];
    assert SaneLine(l);
    if l.keySent {
      ArrivingRests(l.up, RequestId(CopyKey(l.key)), n);
      var z := l.(up := Arriving(l.up, n));
      AbsUpdate(s.lines, c, z);
      assert AbsLine(z) == AbsLine(l) && AbsLines(s.lines)[c := AbsLine(z)] == AbsLines(s.lines);
    }
  }

  lemma AgentDataLess(s: Net, c: nat, k: nat)
    requires Good(s) && Rests(s) && Possible(s, AgentData(c, k))
    ensures var n := After(s, AgentData(c, k)); Rests(n) && Less(n, s)
  {
    hide Good, Abs, Work, Sum, AgentReads, Arriving, Need;
    UpArrivesGood(s, c, k);
    UpArrivesSame(s, c, k);
    var u := UpArrives(s, c, k);
    var n := AgentReads(u, c);
    AgentReadsGood(u, c);
    AgentReadsShape(u, c);
    AgentReadsWorks(u, c);
    RestsBut(s, n, c);
    OfflineSame(s, n);
    BytesUpdate(s.lines, c, u.lines[c]);
  }

  lemma DownArrivesSame(s: Net, c: nat, n: nat)
    requires Good(s) && c < |s.lines| && n <= |s.lines[c].down.wire|
    ensures Abs(DownArrives(s, c, n)) == Abs(s)
    ensures var p := DownArrives(s, c, n).lines[c].down;
        |p.rest| < Need(p.reader) && p.wire == s.lines[c].down.wire[n..]
  {
    hide Invariant, Flows, FramesIn, Need, Arriving;
    var l := s.lines[c];
    assert SaneLine(l);
    ArrivingRests(l.down, ResponseId(true), n);
    var z := l.(down := Arriving(l.down, n));
    AbsUpdate(s.lines, c, z);
    assert AbsLine(z) == AbsLine(l) && AbsLines(s.lines)[c := AbsLine(z)] == AbsLines(s.lines);
  }

  lemma ConsumerDataLess(s: Net, c: nat, k: nat)
    requires Good(s) && Rests(s) && Possible(s, ConsumerData(c, k))
    ensures var n := After(s, ConsumerData(c, k)); Rests(n) && (k > 0 ==> Less(n, s))
  {
    hide Good, Abs, Work, Sum, ConsumerReads, Arriving, Need;
    DownArrivesGood(s, c, k);
    DownArrivesSame(s, c, k);
    var u := DownArrives(s, c, k);
    var n := ConsumerReads(u, c);
    ConsumerReadsGood(u, c);
    ConsumerReadsShape(u, c);
    ConsumerReadsWorks(u, c);
    RestsBut(s, n, c);
    OfflineSame(s, n);
    BytesUpdate(s.lines, c, u.lines[c]);
  }

  lemma ProviderDataLess(s: Net, k: nat)
    requires Good(s) && Rests(s) && Possible(s, ProviderData(k))
    ensures var n := After(s, ProviderData(k)); Rests(n) && (k > 0 ==> Less(n, s))
  {
    hide Invariant, Abs, Work, Sum, ProviderReads, Arriving, Need, Flows, FramesIn;
    var u := s.(out := Arriving(s.out, k));
    var n := ProviderReads(u);
    ArrivingRests(s.out, DubboMagic(false), k);
    ArrivedGood(s, u);
    ProviderReadsGood(u);
    ProviderReadsShape(u);
    ProviderReadsWorks(u);
    OfflineSame(s, n);
  }

  lemma HubDataLess(s: Net, k: nat)
    requires Good(s) && Rests(s) && Possible(s, HubData(k))
    ensures var n := After(s, HubData(k)); Rests(n) && (k > 0 ==> Less(n, s))
  {
    hide Invariant, Abs, Work, Sum, HubReads, Arriving, Need, Flows, FramesIn;
    var u := s.(back := Arriving(s.back, k));
    var n := HubReads(u);
    ArrivingRests(s.back, DubboMagic(true), k);
    ArrivedGood(s, u);
    HubReadsGood(u);
    HubReadsShape(u);
    HubReadsWorks(u);
    OfflineSame(s, n);
  }

  /** Bytes arrive at the provider or from it. */
  lemma ArrivedGood(s: Net, u: Net)
    requires Good(s) && u == s.(out := u.out, back := u.back)
    requires Flows(u.out, DubboMagic(false)) && FramesIn(u.out) == FramesIn(s.out)
    requires Flows(u.back, DubboMagic(true)) && FramesIn(u.back) == FramesIn(s.back)
    ensures Good(u) && Abs(u) == Abs(s)
  {
    hide Invariant, Flows, FramesIn;
    HubSane(s, u);
    assert Abs(u) == Abs(s);
  }

  lemma ProviderAnswerLess(s: Net, i: nat, flags: seq<byte>, result: seq<byte>)
    requires Good(s) && Rests(s) && Possible(s, ProviderAnswer(i, flags, result))
    ensures var n := After(s, ProviderAnswer(i, flags, result)); Rests(n) && Less(n, s)
  {
    hide Good, Abs, Work, Sum, Need, ProviderAnswers;
    AnswerWorks(s, i, flags, result);
    AnswerShape(s, i, flags, result);
    OfflineSame(s, ProviderAnswers(s, i, flags, result));
  }

  lemma AnswerShape(s: Net, i: nat, flags: seq<byte>, result: seq<byte>)
    requires i < |s.pending|
    ensures var n := ProviderAnswers(s, i, flags, result);
        n == s.(pending := n.pending, back := n.back, stage := n.stage, results := n.results)
        && SameReader(s.back, n.back)
  {
    hide EncodeDubbo;
  }

  /** After every event all readers rest, and every event but a new request brings the mesh
      nearer to its end. */
  lemma AfterLess(s: Net, e: Event)
    requires Good(s) && Rests(s) && Possible(s, e)
    ensures Rests(After(s, e)) && (Moves(e) ==> Less(After(s, e), s))
  {
    hide Good, Rests, Less, After;
    match e
    case Fetching(c, id, context, data) => FetchingRests(s, c, id, context, data);
    case Connecting(c) => ConnectingLess(s, c);
    case KeyWritten(c) => KeyWrittenLess(s, c);
    case AgentData(c, n) => AgentDataLess(s, c, n);
    case DubboConnected => DubboConnectedLess(s);
    case ProviderData(n) => ProviderDataLess(s, n);
    case ProviderAnswer(i, flags, result) => ProviderAnswerLess(s, i, flags, result);
    case HubData(n) => HubDataLess(s, n);
    case ConsumerData(c, n) => ConsumerDataLess(s, c, n);
  }

  // ---------------------------------------------------------------- whole runs

  /** Nothing can happen any more but new requests. */
  ghost predicate Quiet(s: Net) { forall e | Possible(s, e) :: !Moves(e) }

  lemma QuietLine(s: Net, c: nat)
    requires Rests(s) && Quiet(s) && c < |s.lines|
    ensures var l := s.lines[c]; l.connected && l.queue == [] && Contents(l.up) == [] && Contents(l.down) == []
  {
    hide Contents, Need;
    var l := s.lines[c];
    assert Possible(s, Connecting(c)) <==> !l.keySent;
    assert l.keySent && !l.connected ==> Possible(s, KeyWritten(c));
    assert Possible(s, AgentData(c, |l.up.wire|)) <==> l.up.wire != [];
    assert Possible(s, ConsumerData(c, |l.down.wire|));
    RestingEmpty(l.up);
    RestingEmpty(l.down);
  }

  lemma QuietHub(s: Net)
    requires Rests(s) && Quiet(s)
    ensures s.jobs == [] && Contents(s.out) == [] && s.pending == [] && Contents(s.back) == []
  {
    hide Contents, Need;
    assert !s.dubboOn ==> Possible(s, DubboConnected);
    assert Possible(s, ProviderData(|s.out.wire|));
    assert Possible(s, ProviderAnswer(0, [0, 0], [])) <==> s.pending != [];
    assert Possible(s, HubData(|s.back.wire|));
    RestingEmpty(s.out);
    RestingEmpty(s.back);
  }

  lemma QuietEmpty(s: Net)
    requires Rests(s) && Quiet(s)
    ensures Empty(Abs(s))
  {
    hide Contents, Rests, Quiet;
    QuietHub(s);
    forall c | 0 <= c < |s.lines|
      ensures var l := Abs(s).lines[c]; l.queue == [] && l.toAgent == [] && l.toConsumer == []
    {
      QuietLine(s, c);
    }
  }

  lemma {:induction false} RunRests(keys: seq<Key>, ss: seq<Net>, events: seq<Event>, i: nat)
    requires (forall k | k in keys :: KeyFits(k)) && IsNetRun(keys, ss, events) && i < |ss|
    ensures Good(ss[i]) && Rests(ss[i])
    decreases i
  {
    hide Sane, Invariant, Rests, After, Possible, NewNet;
    EndToEnd(keys, ss, events, i);
    if i == 0 {
      NewRests(keys);
    } else {
      RunRests(keys, ss, events, i - 1);
      AfterLess(ss[i - 1], events[i - 1]);
    }
  }

  /** No run gets stuck: where nothing can happen but new requests, every call has had its
      callback, and nothing is in flight. */
  lemma NeverStuck(keys: seq<Key>, ss: seq<Net>, events: seq<Event>, i: nat)
    requires (forall k | k in keys :: KeyFits(k)) && IsNetRun(keys, ss, events) && i < |ss| && Quiet(ss[i])
    ensures ss[i].stage == map[] && forall call | 0 <= call < |ss[i].issued| :: call in CallsOf(ss[i].fired)
  {
    hide Sane, Invariant, Rests, After, Possible, NewNet, Quiet, Empty, AbsLines, JobMessages, Contents;
    RunRests(keys, ss, events, i);
    var s := ss[i];
    QuietEmpty(s);
    forall call | 0 <= call < |s.issued| ensures call in CallsOf(s.fired) { NothingLost(Abs(s), call); }
    NothingInFlight(Abs(s));
  }

  lemma NewRests(keys: seq<Key>)
    ensures Rests(NewNet(keys))
  {
  }

  lemma NothingInFlight(m: Mesh)
    requires Invariant(m) && Empty(m)
    ensures m.stage == map[]
  {
    hide FiredOnce, Holds, LineMaps, HubMap;
    forall x ensures x !in m.stage {
      if x in m.stage { NotInEmpty(m, x); }
    }
    assert m.stage.Keys == {};
  }

  /** From state `k` on there is another event, and it is no new request. */
  ghost predicate GoesOn(ss: nat -> Net, events: nat -> Event, k: nat) {
    Possible(ss(k), events(k)) && Moves(events(k)) && ss(k + 1) == After(ss(k), events(k))
  }

  /** No run without new requests goes on for ever, whatever happens next each time and in
      whatever fragments bytes arrive. */
  lemma {:induction false} EveryRunEnds(ss: nat -> Net, events: nat -> Event, i: nat)
    requires Good(ss(i)) && Rests(ss(i))
    ensures exists k | k >= i :: !GoesOn(ss, events, k)
    decreases Offline(ss(i)), Work(Abs(ss(i))), Bytes(ss(i))
  {
    hide Good, Rests, Offline, Work, Abs, Bytes, After, Possible;
    if GoesOn(ss, events, i) {
      AfterLess(ss(i), events(i));
      AfterGood(ss(i), events(i));
      EveryRunEnds(ss, events, i + 1);
    }
  }
}
