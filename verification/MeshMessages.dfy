/** The mesh as a system of message queues: consumer agents, one provider agent that they
    share, and a provider that answers in any order.

    Every request in flight has a stage; the invariant says that each queue holds exactly
    the requests of its stage, that the callback maps know exactly the requests they should,
    and that every callback so far was made once, for its own request, with its own result. */
module MeshMessages {
  import opened Wire
  import opened Frames
  import opened DubboBody

  // ---------------------------------------------------------------- requests and their stages

  datatype Place = Queued | ToAgent | AtAgent | ToProvider | AtProvider | FromProvider | ToConsumer

  /** Where the request with a certain id is; `call` numbers the calls of pa_client_fetch. */
  datatype Stage = Stage(at: Place, line: nat, call: nat)

  /** A call of pa_client_fetch. */
  datatype Issue = Issue(id: int, line: nat, context: nat, data: seq<byte>)

  /** A call of a callback. */
  datatype Fired = Fired(call: nat, context: nat, data: seq<byte>)

  /** One consumer agent and its connection: requests waiting for the connection, messages
      on their way, and the two maps. */
  datatype Line = Line(key: Key, queue: seq<Message>, toAgent: seq<Message>, toConsumer: seq<Message>,
                       callbacks: map<int, nat>, contexts: map<int, nat>)

  /** The whole mesh: the lines, the shared Dubbo client with its queue and its map, the
      messages to, at and from the provider; and what has happened so far. */
  datatype Mesh = Mesh(lines: seq<Line>,
                       jobs: seq<Message>, toProvider: seq<Message>, pending: seq<Message>,
                       fromProvider: seq<Message>, cbs: map<int, nat>,
                       stage: map<int, Stage>, issued: seq<Issue>, results: map<nat, seq<byte>>, fired: seq<Fired>)

  /** A request of the Dubbo client. */
  datatype Job = Job(id: int, key: Key, data: seq<byte>)

  const FLAGS: seq<byte> := [0xc6, 0x00]   // a two-way request

  // ---------------------------------------------------------------- messages in their places

  function IdsOf(ms: seq<Message>): set<int> { set m | m in ms :: m.id }

  predicate NoRepeats(ms: seq<Message>) { forall i, j | 0 <= i < j < |ms| :: ms[i].id != ms[j].id }

  const ALL := -1

  /** The ids at a place; on one line, or on all. */
  function IdsAt(stage: map<int, Stage>, at: Place, line: int): set<int> {
    set x | x in stage && stage[x].at == at && (line < 0 || stage[x].line == line)
  }

  /** A queue holds each request of its place once, and nothing else. */
  predicate InPlace(ms: seq<Message>, stage: map<int, Stage>, at: Place, line: int) {
    NoRepeats(ms) && IdsOf(ms) == IdsAt(stage, at, line)
  }

  predicate Here(s: Stage, at: Place, line: int) { s.at == at && (line < 0 || s.line == line) }

  /** The request `x` is elsewhere before and after: nothing changes here. */
  lemma NotConcerned(ms: seq<Message>, before: map<int, Stage>, after: map<int, Stage>, x: int, at: Place, line: int)
    requires InPlace(ms, before, at, line)
    requires before - {x} == after - {x}
    requires (x in before ==> !Here(before[x], at, line)) && (x in after ==> !Here(after[x], at, line))
    ensures InPlace(ms, after, at, line)
  {
    forall y ensures y in IdsAt(before, at, line) <==> y in IdsAt(after, at, line) {
      if y != x { assert y in before - {x} <==> y in after - {x}; }
    }
  }

  /** The request `x` leaves from position `i`. */
  lemma Leaves(ms: seq<Message>, i: nat, before: map<int, Stage>, after: map<int, Stage>, at: Place, line: int)
    requires InPlace(ms, before, at, line) && i < |ms|
    requires var x := ms[i].id; before - {x} == after - {x} && (x in after ==> !Here(after[x], at, line))
    ensures InPlace(ms[..i] + ms[i + 1..], after, at, line)
  {
    var x, r := ms[i].id, ms[..i] + ms[i + 1..];
    forall y ensures y in IdsOf(r) <==> y in IdsAt(after, at, line) {
      RemovedIds(ms, i, y);
      if y != x { assert y in before - {x} <==> y in after - {x}; }
    }
  }

  lemma RemovedIds(ms: seq<Message>, i: nat, y: int)
    requires NoRepeats(ms) && i < |ms|
    ensures y in IdsOf(ms[..i] + ms[i + 1..]) <==> y in IdsOf(ms) && y != ms[i].id
    ensures NoRepeats(ms[..i] + ms[i + 1..])
  {
    var r := ms[..i] + ms[i + 1..];
    assert forall k | 0 <= k < |r| :: r[k] == ms[if k < i then k else k + 1];
    if y in IdsOf(ms) && y != ms[i].id {
      var k :| 0 <= k < |ms| && ms[k].id == y;
      assert r[if k < i then k else k - 1] == ms[k];
    }
  }

  /** The request `m.id` arrives. */
  lemma Arrives(ms: seq<Message>, m: Message, before: map<int, Stage>, after: map<int, Stage>, at: Place, line: int)
    requires InPlace(ms, before, at, line)
    requires before - {m.id} == after - {m.id}
    requires m.id in after && Here(after[m.id], at, line) && (m.id in before ==> !Here(before[m.id], at, line))
    ensures InPlace(ms + [m], after, at, line)
  {
    assert m.id !in IdsAt(before, at, line);
    forall y ensures y in IdsOf(ms + [m]) <==> y in IdsAt(after, at, line) {
      assert y in IdsOf(ms + [m]) <==> y in IdsOf(ms) || y == m.id;
      if y != m.id { assert y in before - {m.id} <==> y in after - {m.id}; }
    }
    forall i | 0 <= i < |ms| ensures ms[i].id != m.id { assert ms[i] in ms; }
  }

  // ---------------------------------------------------------------- the invariant

  /** The data that a request carries at a place. */
  function DataAt(m: Mesh, s: Stage): seq<byte>
    requires s.line < |m.lines| && s.call < |m.issued| && (Answered(s.at) ==> s.call in m.results)
  {
    var data := m.issued[s.call].data;
    match s.at
    case Queued => data
    case ToAgent => CopyString(data)
    case AtAgent => Body(CopyKey(m.lines[s.line].key), CopyString(data))
    case ToProvider => Body(CopyKey(m.lines[s.line].key), CopyString(data))
    case AtProvider => Body(CopyKey(m.lines[s.line].key), CopyString(data))
    case FromProvider => CopyString(m.results[s.call])
    case ToConsumer => CopyString(m.results[s.call])
  }

  predicate Answered(at: Place) { at.FromProvider? || at.ToConsumer? }

  /** Where the Dubbo client knows a request. */
  predicate WithHub(at: Place) { at.AtAgent? || at.ToProvider? || at.AtProvider? || at.FromProvider? }

  /** The stages are those of calls that were made, and that were answered if they have to be. */
  predicate Known(m: Mesh) {
    forall x | x in m.stage ::
      var s := m.stage[x];
      && s.line < |m.lines| && s.call < |m.issued| && m.issued[s.call].id == x && m.issued[s.call].line == s.line
      && (Answered(s.at) <==> s.call in m.results)
  }

  predicate Carries(m: Mesh, ms: seq<Message>)
    requires Known(m)
  {
    forall x | x in ms :: x.id in m.stage && x.data == DataAt(m, m.stage[x.id])
  }

  predicate Holds(m: Mesh, ms: seq<Message>, at: Place, line: int)
    requires Known(m)
  {
    InPlace(ms, m.stage, at, line) && Carries(m, ms)
  }

  predicate LineQueues(m: Mesh, c: nat)
    requires Known(m) && c < |m.lines|
  {
    var l := m.lines[c];
    Holds(m, l.queue, Queued, c) && Holds(m, l.toAgent, ToAgent, c) && Holds(m, l.toConsumer, ToConsumer, c)
  }

  predicate HubQueues(m: Mesh)
    requires Known(m)
  {
    && Holds(m, m.jobs, AtAgent, ALL) && Holds(m, m.toProvider, ToProvider, ALL)
    && Holds(m, m.pending, AtProvider, ALL) && Holds(m, m.fromProvider, FromProvider, ALL)
  }

  /** The maps of a consumer agent know exactly its requests in flight. */
  ghost predicate LineMaps(m: Mesh, c: nat)
    requires Known(m) && c < |m.lines|
  {
    var l := m.lines[c];
    && (forall x :: x in l.callbacks <==> x in m.stage && m.stage[x].line == c)
    && (forall x :: x in l.contexts <==> x in m.stage && m.stage[x].line == c)
    && (forall x | x in l.callbacks :: l.callbacks[x] == m.stage[x].call)
    && (forall x | x in l.contexts :: x in m.stage && l.contexts[x] == m.issued[m.stage[x].call].context)
  }

  /** The map of the Dubbo client knows exactly the requests between agent and provider. */
  ghost predicate HubMap(m: Mesh)
    requires Known(m)
  {
    && (forall x :: x in m.cbs <==> x in m.stage && WithHub(m.stage[x].at))
    && (forall x | x in m.cbs :: m.cbs[x] == m.stage[x].line)
  }

  predicate InFlight(m: Mesh, call: nat)
    requires call < |m.issued|
  {
    m.issued[call].id in m.stage && m.stage[m.issued[call].id].call == call
  }

  function CallsOf(fired: seq<Fired>): set<nat> { set f | f in fired :: f.call }

  /** Every call is in flight or has had its callback, not both; no callback was made twice;
      and each was made with the context of its call and the result that the provider gave
      for it. */
  predicate FiredOnce(m: Mesh) {
    && (forall k | k in m.results :: k < |m.issued|)
    && (forall i, j | 0 <= i < j < |m.fired| :: m.fired[i].call != m.fired[j].call)
    && (forall f | f in m.fired ::
          && f.call < |m.issued| && f.context == m.issued[f.call].context
          && f.call in m.results && f.data == CopyString(m.results[f.call]))
    && (forall k | 0 <= k < |m.issued| :: InFlight(m, k) <==> k !in CallsOf(m.fired))
  }

  ghost predicate Invariant(m: Mesh) {
    && Known(m) && HubQueues(m) && HubMap(m) && FiredOnce(m)
    && (forall c | 0 <= c < |m.lines| :: LineQueues(m, c))
    && (forall c | 0 <= c < |m.lines| :: LineMaps(m, c))
  }

  // ---------------------------------------------------------------- what happens

  function Moved(m: Mesh, x: int, at: Place): Mesh
    requires x in m.stage
  {
    m.(stage := m.stage[x := m.stage[x].(at := at)])
  }

  function WithLine(m: Mesh, c: nat, l: Line): Mesh
    requires c < |m.lines|
  {
    m.(lines := m.lines[c := l])
  }

  /** pa_client_fetch, with an id that is not in flight. */
  function Fetched(m: Mesh, c: nat, id: int, context: nat, data: seq<byte>): Mesh
    requires c < |m.lines|
  {
    var l, call := m.lines[c], |m.issued|;
    WithLine(m, c, l.(queue := l.queue + [Message(id, data)], callbacks := l.callbacks[id := call],
                      contexts := l.contexts[id := context]))
      .(stage := m.stage[id := Stage(Queued, c, call)], issued := m.issued + [Issue(id, c, context, data)])
  }

  predicate CanSend(m: Mesh, c: nat) { c < |m.lines| && m.lines[c].queue != [] && m.lines[c].queue[0].id in m.stage }

  /** A consumer agent writes its oldest request. */
  function Sent(m: Mesh, c: nat): Mesh
    requires CanSend(m, c)
  {
    var l := m.lines[c];
    var h := l.queue[0];
    WithLine(Moved(m, h.id, ToAgent), c,
             l.(queue := l.queue[1..], toAgent := l.toAgent + [Message(h.id, CopyString(h.data))]))
  }

  predicate CanTake(m: Mesh, c: nat) {
    c < |m.lines| && m.lines[c].toAgent != [] && m.lines[c].toAgent[0].id in m.stage
  }

  /** The provider agent reads a request: dubbo_fetch. */
  function AgentTook(m: Mesh, c: nat): Mesh
    requires CanTake(m, c)
  {
    var l := m.lines[c];
    var h := l.toAgent[0];
    WithLine(Moved(m, h.id, AtAgent), c, l.(toAgent := l.toAgent[1..]))
      .(jobs := m.jobs + [Message(h.id, Body(CopyKey(l.key), h.data))], cbs := m.cbs[h.id := c])
  }

  predicate CanForward(m: Mesh) { m.jobs != [] && m.jobs[0].id in m.stage }

  /** The Dubbo client writes its oldest request. */
  function Forwarded(m: Mesh): Mesh
    requires CanForward(m)
  {
    Moved(m, m.jobs[0].id, ToProvider).(jobs := m.jobs[1..], toProvider := m.toProvider + [m.jobs[0]])
  }

  predicate CanReceive(m: Mesh) { m.toProvider != [] && m.toProvider[0].id in m.stage }

  /** The provider reads a request. */
  function Received(m: Mesh): Mesh
    requires CanReceive(m)
  {
    Moved(m, m.toProvider[0].id, AtProvider).(toProvider := m.toProvider[1..], pending := m.pending + [m.toProvider[0]])
  }

  predicate CanAnswer(m: Mesh, i: nat) { i < |m.pending| && m.pending[i].id in m.stage }

  /** The provider answers any of its requests. */
  function AnsweredWith(m: Mesh, i: nat, result: seq<byte>): Mesh
    requires CanAnswer(m, i)
  {
    var id := m.pending[i].id;
    Moved(m, id, FromProvider)
      .(pending := m.pending[..i] + m.pending[i + 1..],
        fromProvider := m.fromProvider + [Message(id, CopyString(result))],
        results := m.results[m.stage[id].call := result])
  }

  predicate CanReturn(m: Mesh) {
    m.fromProvider != [] && var id := m.fromProvider[0].id; id in m.stage && id in m.cbs && m.cbs[id] < |m.lines|
  }

  /** The Dubbo client reads an answer, and its callback writes it to the line of the request. */
  function Returned(m: Mesh): Mesh
    requires CanReturn(m)
  {
    var h := m.fromProvider[0];
    var c := m.cbs[h.id];
    var l := m.lines[c];
    WithLine(Moved(m, h.id, ToConsumer), c, l.(toConsumer := l.toConsumer + [Message(h.id, CopyString(h.data))]))
      .(fromProvider := m.fromProvider[1..], cbs := m.cbs - {h.id})
  }

  predicate CanFinish(m: Mesh, c: nat) {
    c < |m.lines| && var l := m.lines[c];
    l.toConsumer != [] && var id := l.toConsumer[0].id; id in l.callbacks && id in l.contexts
  }

  /** A consumer agent reads an answer and makes the callback. */
  function Finished(m: Mesh, c: nat): Mesh
    requires CanFinish(m, c)
  {
    var l := m.lines[c];
    var h := l.toConsumer[0];
    WithLine(m, c, l.(toConsumer := l.toConsumer[1..], callbacks := l.callbacks - {h.id},
        contexts := l.contexts - {h.id}))
      .(stage := m.stage - {h.id}, fired := m.fired + [Fired(l.callbacks[h.id], l.contexts[h.id], h.data)])
  }

  // ---------------------------------------------------------------- one request at a time

  /** Only the request `x` has changed its stage; nothing known is forgotten. */
  predicate OnlyConcerns(m: Mesh, n: Mesh, x: int) {
    && m.stage - {x} == n.stage - {x} && |m.lines| == |n.lines| && m.issued <= n.issued
    && (forall c | 0 <= c < |m.lines| :: n.lines[c].key == m.lines[c].key)
    && (forall k | k in m.results :: k in n.results && n.results[k] == m.results[k])
  }

  lemma StillHolds(m: Mesh, n: Mesh, x: int, ms: seq<Message>, at: Place, line: int)
    requires Known(m) && Known(n) && OnlyConcerns(m, n, x) && Holds(m, ms, at, line)
    requires (x in m.stage ==> !Here(m.stage[x], at, line)) && (x in n.stage ==> !Here(n.stage[x], at, line))
    ensures Holds(n, ms, at, line)
  {
    NotConcerned(ms, m.stage, n.stage, x, at, line);
    forall y | y in ms ensures y.id in n.stage && y.data == DataAt(n, n.stage[y.id]) {
      StillCarries(m, n, x, ms, y, at, line);
    }
  }

  /** A message in place that is not `x` keeps its data. */
  lemma StillCarries(m: Mesh, n: Mesh, x: int, ms: seq<Message>, y: Message, at: Place, line: int)
    requires Known(m) && Known(n) && OnlyConcerns(m, n, x) && Holds(m, ms, at, line) && y in ms
    requires y.id != x || (x in m.stage ==> !Here(m.stage[x], at, line))
    ensures y.id != x && y.id in n.stage && y.data == DataAt(n, n.stage[y.id])
  {
    assert y.id in IdsOf(ms);
    assert y.id in m.stage && Here(m.stage[y.id], at, line);
    assert y.id in m.stage - {x} && (m.stage - {x})[y.id] == (n.stage - {x})[y.id];
  }

  lemma HoldsWithout(m: Mesh, n: Mesh, ms: seq<Message>, i: nat, at: Place, line: int)
    requires Known(m) && Known(n) && Holds(m, ms, at, line) && i < |ms| && OnlyConcerns(m, n, ms[i].id)
    requires ms[i].id in n.stage ==> !Here(n.stage[ms[i].id], at, line)
    ensures Holds(n, ms[..i] + ms[i + 1..], at, line)
  {
    var x, r := ms[i].id, ms[..i] + ms[i + 1..];
    Leaves(ms, i, m.stage, n.stage, at, line);
    forall y | y in r ensures y.id in n.stage && y.data == DataAt(n, n.stage[y.id]) {
      RemovedIds(ms, i, y.id);
      assert y.id in IdsOf(r) && y in ms;
      StillCarries(m, n, x, ms, y, at, line);
    }
  }

  lemma HoldsWith(m: Mesh, n: Mesh, ms: seq<Message>, z: Message, at: Place, line: int)
    requires Known(m) && Known(n) && Holds(m, ms, at, line) && OnlyConcerns(m, n, z.id)
    requires z.id in n.stage && Here(n.stage[z.id], at, line) && (z.id in m.stage ==> !Here(m.stage[z.id], at, line))
    requires z.data == DataAt(n, n.stage[z.id])
    ensures Holds(n, ms + [z], at, line)
  {
    Arrives(ms, z, m.stage, n.stage, at, line);
    forall y | y in ms + [z] ensures y.id in n.stage && y.data == DataAt(n, n.stage[y.id]) {
      if y in ms { StillCarries(m, n, z.id, ms, y, at, line); }
    }
  }

  /** The head of a queue. */
  lemma HeadHere(m: Mesh, ms: seq<Message>, i: nat, at: Place, line: int)
    requires Known(m) && Holds(m, ms, at, line) && i < |ms|
    ensures ms[i].id in m.stage && Here(m.stage[ms[i].id], at, line) && ms[i].data == DataAt(m, m.stage[ms[i].id])
    ensures ms[..0] + ms[1..] == ms[1..]
  {
    assert ms[i] in ms && ms[i].id in IdsOf(ms);
  }

  // ---------------------------------------------------------------- the invariant is kept

  /** A step in which the request `x` only changes its place. */
  predicate JustMoves(m: Mesh, n: Mesh, x: int, at: Place) {
    && x in m.stage && n.stage == m.stage[x := m.stage[x].(at := at)]
    && n.issued == m.issued && n.results == m.results && n.fired == m.fired && |n.lines| == |m.lines|
    && forall c | 0 <= c < |m.lines| ::
         n.lines[c].key == m.lines[c].key && n.lines[c].callbacks == m.lines[c].callbacks
         && n.lines[c].contexts == m.lines[c].contexts
  }

  lemma MoveKnown(m: Mesh, n: Mesh, x: int, at: Place)
    requires Known(m) && JustMoves(m, n, x, at) && Answered(at) == Answered(m.stage[x].at)
    ensures Known(n) && OnlyConcerns(m, n, x)
  {
  }

  lemma MoveFired(m: Mesh, n: Mesh, x: int, at: Place)
    requires Known(m) && JustMoves(m, n, x, at) && FiredOnce(m)
    ensures FiredOnce(n)
  {
    assert forall k | 0 <= k < |m.issued| :: InFlight(n, k) <==> InFlight(m, k);
  }

  lemma MoveMaps(m: Mesh, n: Mesh, x: int, at: Place, c: nat)
    requires Known(m) && Known(n) && JustMoves(m, n, x, at) && c < |m.lines| && LineMaps(m, c)
    ensures LineMaps(n, c)
  {
  }

  /** The map of the Dubbo client follows the request. */
  predicate NextCbs(m: Mesh, n: Mesh, x: int, at: Place)
    requires x in m.stage
  {
    if WithHub(m.stage[x].at) == WithHub(at) then n.cbs == m.cbs
    else n.cbs == if WithHub(at) then m.cbs[x := m.stage[x].line] else m.cbs - {x}
  }

  lemma MoveHub(m: Mesh, n: Mesh, x: int, at: Place)
    requires Known(m) && Known(n) && JustMoves(m, n, x, at) && HubMap(m)
    requires NextCbs(m, n, x, at)
    ensures HubMap(n)
  {
  }

  lemma MoveKeeps(m: Mesh, n: Mesh, x: int, at: Place)
    requires Invariant(m) && JustMoves(m, n, x, at) && Answered(at) == Answered(m.stage[x].at)
    requires NextCbs(m, n, x, at)
    ensures Known(n) && OnlyConcerns(m, n, x) && FiredOnce(n) && HubMap(n)
    ensures forall c | 0 <= c < |m.lines| :: LineMaps(n, c)
  {
    hide LineQueues, HubQueues, HubMap, FiredOnce, Known, LineMaps, OnlyConcerns;
    MoveKnown(m, n, x, at);
    MoveFired(m, n, x, at);
    MoveHub(m, n, x, at);
    forall c | 0 <= c < |m.lines| ensures LineMaps(n, c) { MoveMaps(m, n, x, at, c); }
  }

  /** A line that the request is not on. */
  lemma OtherLine(m: Mesh, n: Mesh, x: int, c: nat)
    requires Known(m) && Known(n) && OnlyConcerns(m, n, x) && c < |m.lines| && LineQueues(m, c)
    requires n.lines[c].queue == m.lines[c].queue && n.lines[c].toAgent == m.lines[c].toAgent
    requires n.lines[c].toConsumer == m.lines[c].toConsumer
    requires (x in m.stage ==> m.stage[x].line != c) && (x in n.stage ==> n.stage[x].line != c)
    ensures LineQueues(n, c)
  {
    hide Known, OnlyConcerns, Holds;
    var l := m.lines[c];
    StillHolds(m, n, x, l.queue, Queued, c);
    StillHolds(m, n, x, l.toAgent, ToAgent, c);
    StillHolds(m, n, x, l.toConsumer, ToConsumer, c);
  }

  /** A place on a line. */
  predicate OnLine(at: Place) { at.Queued? || at.ToAgent? || at.ToConsumer? }

  /** All lines but one, and the hub, when the request is not there. */
  lemma OtherLines(m: Mesh, n: Mesh, x: int, c: nat)
    requires Known(m) && Known(n) && OnlyConcerns(m, n, x) && forall d | 0 <= d < |m.lines| :: LineQueues(m, d)
    requires forall d | 0 <= d < |m.lines| && d != c :: n.lines[d] == m.lines[d]
    requires (x in m.stage ==> m.stage[x].line == c) && (x in n.stage ==> n.stage[x].line == c)
    ensures forall d | 0 <= d < |n.lines| && d != c :: LineQueues(n, d)
  {
    assert |n.lines| == |m.lines|;
    hide Known, OnlyConcerns, LineQueues;
    forall d | 0 <= d < |n.lines| && d != c ensures LineQueues(n, d) { OtherLine(m, n, x, d); }
  }

  lemma HubStays(m: Mesh, n: Mesh, x: int)
    requires Known(m) && Known(n) && OnlyConcerns(m, n, x) && HubQueues(m)
    requires n.jobs == m.jobs && n.toProvider == m.toProvider && n.pending == m.pending
        && n.fromProvider == m.fromProvider
    requires (x in m.stage ==> OnLine(m.stage[x].at)) && (x in n.stage ==> OnLine(n.stage[x].at))
    ensures HubQueues(n)
  {
    hide Known, OnlyConcerns, Holds;
    StillHolds(m, n, x, m.jobs, AtAgent, ALL);
    StillHolds(m, n, x, m.toProvider, ToProvider, ALL);
    StillHolds(m, n, x, m.pending, AtProvider, ALL);
    StillHolds(m, n, x, m.fromProvider, FromProvider, ALL);
  }

  lemma SentKeeps(m: Mesh, c: nat)
    requires Invariant(m) && CanSend(m, c)
    ensures Invariant(Sent(m, c))
  {
    var n, l := Sent(m, c), m.lines[c];
    var h := l.queue[0];
    hide FiredOnce, HubMap, LineMaps, OnlyConcerns, Known, Holds, HubQueues;
    assert LineQueues(m, c);
    HeadHere(m, l.queue, 0, Queued, c);
    MoveKeeps(m, n, h.id, ToAgent);
    var z := Message(h.id, CopyString(h.data));
    assert z.data == DataAt(n, n.stage[h.id]);
    HoldsWithout(m, n, l.queue, 0, Queued, c);
    HoldsWith(m, n, l.toAgent, z, ToAgent, c);
    StillHolds(m, n, h.id, l.toConsumer, ToConsumer, c);
    OtherLines(m, n, h.id, c);
    HubStays(m, n, h.id);
  }

  lemma TakeMoves(m: Mesh, c: nat)
    requires Invariant(m) && CanTake(m, c)
    requires var h := m.lines[c].toAgent[0];
        Here(m.stage[h.id], ToAgent, c) && h.data == DataAt(m, m.stage[h.id])
    ensures var n, l := AgentTook(m, c), m.lines[c];
        AllButQueues(m, n, l.toAgent[0].id) &&
        Body(CopyKey(l.key), l.toAgent[0].data) == DataAt(n, n.stage[l.toAgent[0].id])
  {
    hide Body, CopyKey, CopyString;
    MoveKeeps(m, AgentTook(m, c), m.lines[c].toAgent[0].id, AtAgent);
  }

  lemma TakenHub(m: Mesh, n: Mesh, h: Message, z: Message)
    requires Known(m) && HubQueues(m) && Known(n) && OnlyConcerns(m, n, h.id) && h.id in m.stage && h.id in n.stage
    requires m.stage[h.id].at == ToAgent && n.stage[h.id].at == AtAgent && z.id == h.id
        && z.data == DataAt(n, n.stage[h.id])
    requires n.jobs == m.jobs + [z]
    requires n.toProvider == m.toProvider && n.pending == m.pending && n.fromProvider == m.fromProvider
    ensures HubQueues(n)
  {
    hide OnlyConcerns, Known, Holds, DataAt;
    HoldsWith(m, n, m.jobs, z, AtAgent, ALL);
    StillHolds(m, n, h.id, m.toProvider, ToProvider, ALL);
    StillHolds(m, n, h.id, m.pending, AtProvider, ALL);
    StillHolds(m, n, h.id, m.fromProvider, FromProvider, ALL);
  }

  lemma TakenLines(m: Mesh, n: Mesh, c: nat, h: Message)
    requires Known(m) && Known(n) && OnlyConcerns(m, n, h.id) && h.id in m.stage && h.id in n.stage
    requires c < |m.lines| && m.lines[c].toAgent != [] && m.lines[c].toAgent[0] == h
    requires Here(m.stage[h.id], ToAgent, c) && Here(n.stage[h.id], AtAgent, ALL) && n.stage[h.id].line == c
    requires n.lines == m.lines[c := m.lines[c].(toAgent := m.lines[c].toAgent[1..])]
    requires forall d | 0 <= d < |m.lines| :: LineQueues(m, d)
    ensures forall d | 0 <= d < |n.lines| :: LineQueues(n, d)
  {
    hide OnlyConcerns, Known, Holds;
    var l := m.lines[c];
    assert LineQueues(m, c);
    HeadHere(m, l.toAgent, 0, ToAgent, c);
    HoldsWithout(m, n, l.toAgent, 0, ToAgent, c);
    StillHolds(m, n, h.id, l.queue, Queued, c);
    StillHolds(m, n, h.id, l.toConsumer, ToConsumer, c);
    assert LineQueues(n, c);
    hide LineQueues;
    OtherLines(m, n, h.id, c);
  }

  lemma AgentTookKeeps(m: Mesh, c: nat)
    requires Invariant(m) && CanTake(m, c)
    ensures Invariant(AgentTook(m, c))
  {
    var n, l := AgentTook(m, c), m.lines[c];
    var h := l.toAgent[0];
    hide FiredOnce, HubMap, LineMaps, OnlyConcerns, Known, Holds, DataAt, Body, CopyKey, HubQueues;
    HeadOfLine(m, c);
    TakeMoves(m, c);
    hide LineQueues;
    TakenLines(m, n, c, h);
    TakenHub(m, n, h, Message(h.id, Body(CopyKey(l.key), h.data)));
    hide AllButQueues;
    Assemble(m, n, h.id);
  }

  lemma HeadOfLine(m: Mesh, c: nat)
    requires Known(m) && c < |m.lines| && LineQueues(m, c) && m.lines[c].toAgent != []
    ensures var h := m.lines[c].toAgent[0];
        h.id in m.stage && Here(m.stage[h.id], ToAgent, c) && h.data == DataAt(m, m.stage[h.id])
  {
    hide Holds;
    HeadHere(m, m.lines[c].toAgent, 0, ToAgent, c);
  }

  /** When the request is with the hub before and after, no line changes. */
  lemma LinesStay(m: Mesh, n: Mesh, x: int)
    requires Known(m) && Known(n) && OnlyConcerns(m, n, x) && forall d | 0 <= d < |m.lines| :: LineQueues(m, d)
    requires n.lines == m.lines && x in m.stage && x in n.stage
    requires !OnLine(m.stage[x].at) && !OnLine(n.stage[x].at)
    ensures forall d | 0 <= d < |n.lines| :: LineQueues(n, d)
  {
    hide Known, OnlyConcerns, Holds;
    forall d | 0 <= d < |n.lines| ensures LineQueues(n, d) {
      var l := m.lines[d];
      assert LineQueues(m, d);
      StillHolds(m, n, x, l.queue, Queued, d);
      StillHolds(m, n, x, l.toAgent, ToAgent, d);
      StillHolds(m, n, x, l.toConsumer, ToConsumer, d);
    }
  }

  /** What a step leaves of the invariant to be shown: the queues. */
  ghost predicate AllButQueues(m: Mesh, n: Mesh, x: int) {
    && Known(n) && OnlyConcerns(m, n, x) && FiredOnce(n) && HubMap(n)
    && forall c | 0 <= c < |n.lines| :: LineMaps(n, c)
  }

  lemma Assemble(m: Mesh, n: Mesh, x: int)
    requires AllButQueues(m, n, x) && HubQueues(n) && forall c | 0 <= c < |n.lines| :: LineQueues(n, c)
    ensures Invariant(n)
  {
    hide HubQueues, LineQueues, LineMaps, HubMap, FiredOnce, Known, OnlyConcerns;
  }

  /** When the request is with the hub before and after, its queues are all there is to show. */
  lemma HubStep(m: Mesh, n: Mesh, x: int)
    requires Invariant(m) && AllButQueues(m, n, x) && HubQueues(n)
    requires AtHub(m, n, x)
    ensures Invariant(n)
  {
    hide HubQueues, LineQueues, LineMaps, HubMap, FiredOnce, Known, OnlyConcerns;
    LinesStay(m, n, x);
  }

  lemma HubMoves(m: Mesh, n: Mesh, x: int, at: Place)
    requires Invariant(m) && x in m.stage && n.stage == m.stage[x := m.stage[x].(at := at)]
    requires WithHub(m.stage[x].at) && WithHub(at) && !Answered(at) && !Answered(m.stage[x].at)
    requires n.lines == m.lines && n.issued == m.issued && n.results == m.results && n.fired == m.fired
        && n.cbs == m.cbs
    requires m.stage[x].at.ToProvider? || at.ToProvider?
    ensures AllButQueues(m, n, x)
    ensures DataAt(n, n.stage[x]) == DataAt(m, m.stage[x])
  {
    hide Body;
    MoveKeeps(m, n, x, at);
  }

  lemma ForwardedHub(m: Mesh, n: Mesh)
    requires Known(m) && HubQueues(m) && CanForward(m) && n == Forwarded(m)
    requires Known(n) && OnlyConcerns(m, n, m.jobs[0].id) && m.jobs[0].data == DataAt(n, n.stage[m.jobs[0].id])
    requires m.stage[m.jobs[0].id].at == AtAgent && m.jobs[..0] + m.jobs[1..] == m.jobs[1..]
    ensures HubQueues(n)
  {
    hide OnlyConcerns, Known, Holds, DataAt;
    var h := m.jobs[0];
    HoldsWithout(m, n, m.jobs, 0, AtAgent, ALL);
    HoldsWith(m, n, m.toProvider, h, ToProvider, ALL);
    StillHolds(m, n, h.id, m.pending, AtProvider, ALL);
    StillHolds(m, n, h.id, m.fromProvider, FromProvider, ALL);
  }

  /** What every step with the hub leaves alone. */
  predicate AtHub(m: Mesh, n: Mesh, x: int) {
    n.lines == m.lines && x in m.stage && x in n.stage && !OnLine(m.stage[x].at) && !OnLine(n.stage[x].at)
  }

  lemma ForwardedMoves(m: Mesh)
    requires Invariant(m) && CanForward(m) && m.stage[m.jobs[0].id].at == AtAgent
    ensures var n, x := Forwarded(m), m.jobs[0].id;
        AllButQueues(m, n, x) && AtHub(m, n, x) && DataAt(n, n.stage[x]) == DataAt(m, m.stage[x])
  {
    hide AllButQueues, Invariant, DataAt;
    HubMoves(m, Forwarded(m), m.jobs[0].id, ToProvider);
  }

  lemma ForwardedKeeps(m: Mesh)
    requires Invariant(m) && CanForward(m)
    ensures Invariant(Forwarded(m))
  {
    hide FiredOnce, HubMap, LineMaps, OnlyConcerns, Known, Holds, LineQueues, DataAt, Forwarded;
    var n, h := Forwarded(m), m.jobs[0];
    HeadHere(m, m.jobs, 0, AtAgent, ALL);
    ForwardedMoves(m);
    ForwardedHub(m, n);
    hide AllButQueues, HubQueues;
    HubStep(m, n, h.id);
  }

  lemma ReceivedHub(m: Mesh, n: Mesh)
    requires Known(m) && HubQueues(m) && CanReceive(m) && n == Received(m)
    requires Known(n) && OnlyConcerns(m, n, m.toProvider[0].id)
        && m.toProvider[0].data == DataAt(n, n.stage[m.toProvider[0].id])
    requires m.stage[m.toProvider[0].id].at == ToProvider && m.toProvider[..0] + m.toProvider[1..] == m.toProvider[1..]
    ensures HubQueues(n)
  {
    hide OnlyConcerns, Known, Holds, DataAt;
    var h := m.toProvider[0];
    HoldsWithout(m, n, m.toProvider, 0, ToProvider, ALL);
    HoldsWith(m, n, m.pending, h, AtProvider, ALL);
    StillHolds(m, n, h.id, m.jobs, AtAgent, ALL);
    StillHolds(m, n, h.id, m.fromProvider, FromProvider, ALL);
  }

  lemma ReceivedMoves(m: Mesh)
    requires Invariant(m) && CanReceive(m) && m.stage[m.toProvider[0].id].at == ToProvider
    ensures var n, x := Received(m), m.toProvider[0].id;
        AllButQueues(m, n, x) && AtHub(m, n, x) && DataAt(n, n.stage[x]) == DataAt(m, m.stage[x])
  {
    hide AllButQueues, Invariant, DataAt;
    HubMoves(m, Received(m), m.toProvider[0].id, AtProvider);
  }

  lemma ReceivedKeeps(m: Mesh)
    requires Invariant(m) && CanReceive(m)
    ensures Invariant(Received(m))
  {
    hide FiredOnce, HubMap, LineMaps, OnlyConcerns, Known, Holds, LineQueues, DataAt, Received;
    var n, h := Received(m), m.toProvider[0];
    HeadHere(m, m.toProvider, 0, ToProvider, ALL);
    ReceivedMoves(m);
    ReceivedHub(m, n);
    hide AllButQueues, HubQueues;
    HubStep(m, n, h.id);
  }

  /** The first answer of a request: it has a result from now on. */
  lemma AnswerMoves(m: Mesh, i: nat, result: seq<byte>)
    requires Invariant(m) && CanAnswer(m, i) && m.stage[m.pending[i].id].at == AtProvider
    ensures var n, x := AnsweredWith(m, i, result), m.pending[i].id;
        AllButQueues(m, n, x) && AtHub(m, n, x) && CopyString(result) == DataAt(n, n.stage[x])
  {
    hide LineQueues, HubQueues;
    var n, x := AnsweredWith(m, i, result), m.pending[i].id;
    assert m.stage[x].call !in m.results;
    assert forall k | 0 <= k < |m.issued| :: InFlight(n, k) <==> InFlight(m, k);
    assert InFlight(m, m.stage[x].call);
    forall f | f in m.fired ensures n.results[f.call] == m.results[f.call] {
      assert f.call in CallsOf(m.fired);
    }
    forall c | 0 <= c < |n.lines| ensures LineMaps(n, c) {
      assert LineMaps(m, c);
    }
  }

  lemma AnsweredHub(m: Mesh, n: Mesh, i: nat, z: Message)
    requires Known(m) && HubQueues(m) && i < |m.pending| && m.pending[i].id == z.id && z.id in m.stage
        && z.id in n.stage
    requires Known(n) && OnlyConcerns(m, n, z.id) && z.data == DataAt(n, n.stage[z.id])
    requires m.stage[z.id].at == AtProvider && n.stage[z.id].at == FromProvider
    requires n.pending == m.pending[..i] + m.pending[i + 1..] && n.fromProvider == m.fromProvider + [z]
    requires n.jobs == m.jobs && n.toProvider == m.toProvider
    ensures HubQueues(n)
  {
    hide OnlyConcerns, Known, Holds, DataAt;
    HoldsWithout(m, n, m.pending, i, AtProvider, ALL);
    HoldsWith(m, n, m.fromProvider, z, FromProvider, ALL);
    StillHolds(m, n, z.id, m.jobs, AtAgent, ALL);
    StillHolds(m, n, z.id, m.toProvider, ToProvider, ALL);
  }

  lemma AnsweredKeeps(m: Mesh, i: nat, result: seq<byte>)
    requires Invariant(m) && CanAnswer(m, i)
    ensures Invariant(AnsweredWith(m, i, result))
  {
    var n, h := AnsweredWith(m, i, result), m.pending[i];
    hide FiredOnce, HubMap, LineMaps, OnlyConcerns, Known, Holds, LineQueues, DataAt;
    HeadHere(m, m.pending, i, AtProvider, ALL);
    AnswerMoves(m, i, result);
    AnsweredHub(m, n, i, Message(h.id, CopyString(result)));
    hide AllButQueues, HubQueues;
    HubStep(m, n, h.id);
  }

  lemma ReturnedKeeps(m: Mesh)
    requires Invariant(m) && CanReturn(m)
    ensures Invariant(Returned(m))
  {
    var n, h := Returned(m), m.fromProvider[0];
    HeadHere(m, m.fromProvider, 0, FromProvider, ALL);
    var c := m.stage[h.id].line;
    assert m.cbs[h.id] == c;
    hide FiredOnce, HubMap, LineMaps, OnlyConcerns, Known, Holds;
    var l := m.lines[c];
    assert LineQueues(m, c);
    MoveKeeps(m, n, h.id, ToConsumer);
    var z := Message(h.id, CopyString(h.data));
    CopyTwice(m.results[m.stage[h.id].call]);
    assert z.data == DataAt(n, n.stage[h.id]);
    HoldsWith(m, n, l.toConsumer, z, ToConsumer, c);
    StillHolds(m, n, h.id, l.queue, Queued, c);
    StillHolds(m, n, h.id, l.toAgent, ToAgent, c);
    OtherLines(m, n, h.id, c);
    HoldsWithout(m, n, m.fromProvider, 0, FromProvider, ALL);
    StillHolds(m, n, h.id, m.jobs, AtAgent, ALL);
    StillHolds(m, n, h.id, m.toProvider, ToProvider, ALL);
    StillHolds(m, n, h.id, m.pending, AtProvider, ALL);
  }

  // ---------------------------------------------------------------- the ends of a request

  lemma NextCallFresh(m: Mesh)
    requires Invariant(m)
    ensures |m.issued| !in m.results
  {
    hide LineQueues, HubQueues, LineMaps, HubMap, Holds;
  }

  lemma FetchMoves(m: Mesh, c: nat, id: int, context: nat, data: seq<byte>)
    requires Invariant(m) && c < |m.lines| && id !in m.stage
    ensures var n := Fetched(m, c, id, context, data);
        && Known(n) && OnlyConcerns(m, n, id) && HubMap(n)
        && forall d | 0 <= d < |n.lines| :: LineMaps(n, d)
  {
    hide LineQueues, HubQueues, FiredOnce;
    var n := Fetched(m, c, id, context, data);
    NextCallFresh(m);
    forall d | 0 <= d < |n.lines| ensures LineMaps(n, d) {
      assert LineMaps(m, d);
    }
  }

  lemma FetchFired(m: Mesh, c: nat, id: int, context: nat, data: seq<byte>)
    requires Known(m) && FiredOnce(m) && c < |m.lines| && id !in m.stage
    ensures FiredOnce(Fetched(m, c, id, context, data))
  {
    var n := Fetched(m, c, id, context, data);
    forall k | 0 <= k < |n.issued| ensures InFlight(n, k) <==> k !in CallsOf(n.fired) {
      if k < |m.issued| { assert InFlight(n, k) <==> InFlight(m, k); }
    }
  }

  lemma FetchedKeeps(m: Mesh, c: nat, id: int, context: nat, data: seq<byte>)
    requires Invariant(m) && c < |m.lines| && id !in m.stage
    ensures Invariant(Fetched(m, c, id, context, data))
  {
    var n, l := Fetched(m, c, id, context, data), m.lines[c];
    hide FiredOnce, HubMap, LineMaps, OnlyConcerns, Known, Holds, HubQueues;
    assert LineQueues(m, c);
    FetchMoves(m, c, id, context, data);
    FetchFired(m, c, id, context, data);
    assert data == DataAt(n, n.stage[id]);
    HoldsWith(m, n, l.queue, Message(id, data), Queued, c);
    StillHolds(m, n, id, l.toAgent, ToAgent, c);
    StillHolds(m, n, id, l.toConsumer, ToConsumer, c);
    OtherLines(m, n, id, c);
    HubStays(m, n, id);
  }

  lemma FinishMoves(m: Mesh, c: nat)
    requires Invariant(m) && CanFinish(m, c)
    requires var h := m.lines[c].toConsumer[0];
        h.id in m.stage && m.stage[h.id].at == ToConsumer && m.stage[h.id].line == c
    ensures var n := Finished(m, c);
        && Known(n) && OnlyConcerns(m, n, m.lines[c].toConsumer[0].id) && HubMap(n)
        && forall d | 0 <= d < |n.lines| :: LineMaps(n, d)
  {
    hide LineQueues, HubQueues, FiredOnce;
    var n := Finished(m, c);
    forall d | 0 <= d < |n.lines| ensures LineMaps(n, d) {
      assert LineMaps(m, d);
    }
  }

  /** The callback is that of the request, which had none before. */
  lemma FinishFired(m: Mesh, c: nat)
    requires Known(m) && FiredOnce(m) && CanFinish(m, c) && LineMaps(m, c)
    requires var h := m.lines[c].toConsumer[0];
        h.id in m.stage && m.stage[h.id].at == ToConsumer && h.data == DataAt(m, m.stage[h.id])
    ensures FiredOnce(Finished(m, c))
  {
    var n, h := Finished(m, c), m.lines[c].toConsumer[0];
    var call := m.stage[h.id].call;
    assert n.fired == m.fired + [Fired(call, m.issued[call].context, h.data)];
    assert InFlight(m, call);
    assert CallsOf(n.fired) == CallsOf(m.fired) + {call};
    forall k | 0 <= k < |n.issued| ensures InFlight(n, k) <==> k !in CallsOf(n.fired) {
      if k != call { assert InFlight(n, k) <==> InFlight(m, k); }
    }
    forall i | 0 <= i < |m.fired| ensures m.fired[i].call != call { assert m.fired[i] in m.fired; }
  }

  lemma FinishedKeeps(m: Mesh, c: nat)
    requires Invariant(m) && CanFinish(m, c)
    ensures Invariant(Finished(m, c))
  {
    var n, l := Finished(m, c), m.lines[c];
    var h := l.toConsumer[0];
    hide FiredOnce, HubMap, LineMaps, OnlyConcerns, Known, Holds, HubQueues;
    assert LineQueues(m, c) && LineMaps(m, c);
    HeadHere(m, l.toConsumer, 0, ToConsumer, c);
    FinishMoves(m, c);
    FinishFired(m, c);
    HoldsWithout(m, n, l.toConsumer, 0, ToConsumer, c);
    StillHolds(m, n, h.id, l.queue, Queued, c);
    StillHolds(m, n, h.id, l.toAgent, ToAgent, c);
    OtherLines(m, n, h.id, c);
    HubStays(m, n, h.id);
  }

  // ---------------------------------------------------------------- runs

  datatype Action =
    | Fetch(line: nat, id: int, context: nat, data: seq<byte>)
    | Send(line: nat)
    | Accept(line: nat)
    | Forward
    | Receive
    | Answer(i: nat, result: seq<byte>)
    | Return
    | Finish(line: nat)

  predicate Enabled(m: Mesh, a: Action) {
    match a
    case Fetch(c, id, _, _) => c < |m.lines| && id !in m.stage
    case Send(c) => CanSend(m, c)
    case Accept(c) => CanTake(m, c)
    case Forward => CanForward(m)
    case Receive => CanReceive(m)
    case Answer(i, _) => CanAnswer(m, i)
    case Return => CanReturn(m)
    case Finish(c) => CanFinish(m, c)
  }

  function Next(m: Mesh, a: Action): Mesh
    requires Enabled(m, a)
  {
    match a
    case Fetch(c, id, context, data) => Fetched(m, c, id, context, data)
    case Send(c) => Sent(m, c)
    case Accept(c) => AgentTook(m, c)
    case Forward => Forwarded(m)
    case Receive => Received(m)
    case Answer(i, result) => AnsweredWith(m, i, result)
    case Return => Returned(m)
    case Finish(c) => Finished(m, c)
  }

  /** Every action keeps the invariant. */
  lemma NextKeeps(m: Mesh, a: Action)
    requires Invariant(m) && Enabled(m, a)
    ensures Invariant(Next(m, a))
  {
    match a
    case Fetch(c, id, context, data) => FetchedKeeps(m, c, id, context, data);
    case Send(c) => SentKeeps(m, c);
    case Accept(c) => AgentTookKeeps(m, c);
    case Forward => ForwardedKeeps(m);
    case Receive => ReceivedKeeps(m);
    case Answer(i, result) => AnsweredKeeps(m, i, result);
    case Return => ReturnedKeeps(m);
    case Finish(c) => FinishedKeeps(m, c);
  }

  /** Lines on which nothing has happened yet. */
  function Idle(keys: seq<Key>): Mesh {
    Mesh(seq(|keys|, i requires 0 <= i < |keys| => Line(keys[i], [], [], [], map[], map[])),
         [], [], [], [], map[], map[], [], map[], [])
  }

  lemma IdleInvariant(keys: seq<Key>)
    ensures Invariant(Idle(keys))
  {
  }

  /** A run of the mesh from the start. */
  ghost predicate IsRun(keys: seq<Key>, ms: seq<Mesh>, actions: seq<Action>) {
    && |ms| == |actions| + 1 && ms[0] == Idle(keys)
    && forall i | 0 <= i < |actions| :: Enabled(ms[i], actions[i]) && ms[i + 1] == Next(ms[i], actions[i])
  }

  lemma {:induction false} RunKeeps(keys: seq<Key>, ms: seq<Mesh>, actions: seq<Action>, i: nat)
    requires IsRun(keys, ms, actions) && i < |ms|
    ensures Invariant(ms[i])
    decreases i
  {
    if i == 0 {
      IdleInvariant(keys);
    } else {
      RunKeeps(keys, ms, actions, i - 1);
      NextKeeps(ms[i - 1], actions[i - 1]);
    }
  }

  // ---------------------------------------------------------------- what the invariant says

  /** Whoever reads a message finds its request in the maps. */
  lemma LookupsHit(m: Mesh, c: nat)
    requires Invariant(m) && c < |m.lines|
    ensures m.lines[c].queue != [] ==> CanSend(m, c)
    ensures m.lines[c].toAgent != [] ==> CanTake(m, c)
    ensures m.fromProvider != [] ==> CanReturn(m)
    ensures m.lines[c].toConsumer != [] ==> CanFinish(m, c)
  {
    hide Holds, FiredOnce;
    var l := m.lines[c];
    assert LineQueues(m, c) && LineMaps(m, c);
    if l.queue != [] { HeadHere(m, l.queue, 0, Queued, c); }
    if l.toAgent != [] { HeadHere(m, l.toAgent, 0, ToAgent, c); }
    if l.toConsumer != [] { HeadHere(m, l.toConsumer, 0, ToConsumer, c); }
    if m.fromProvider != [] { HeadHere(m, m.fromProvider, 0, FromProvider, ALL); }
  }

  /** The callback of a call is made with the result as it was given exactly when that has
      NULs only at its end. */
  lemma FiredExact(m: Mesh, f: Fired)
    requires Invariant(m) && f in m.fired
    ensures f.call in m.results && (f.data == m.results[f.call] <==> IsCString(m.results[f.call]))
  {
    CopyExact(m.results[f.call]);
  }

  /** What the provider reads of a request, given its call and the key of its line. */
  predicate Understood(x: Message, k: Key, call: Issue) {
    var c := ReadBody(x.data);
    && x.id == call.id
    && (c.Invocation? <==> Legible(CopyKey(k), CopyString(call.data)))
    && (c.Invocation? ==>
          && c.version == [50, 46, 48, 46, 49] && Attached(c.attachments)
          && c.site == CopyString(k.site) && c.call == CopyString(k.call) && c.types == CopyString(k.types)
          && c.arguments == CopyString(call.data) && (c.arguments == call.data <==> IsCString(call.data)))
  }

  /** The provider can read a request exactly when what arrives of its fields holds no newline,
      and then reads the fields of its own call and line. */
  lemma ProviderFinds(m: Mesh, i: nat)
    requires Invariant(m) && i < |m.pending|
    ensures var x := m.pending[i];
        && x.id in m.stage && m.stage[x.id].at.AtProvider?
        && Understood(x, m.lines[m.stage[x.id].line].key, m.issued[m.stage[x.id].call])
  {
    hide FiredOnce, ReadBody, Attached, Legible, CopyString, Body, HubMap, LineMaps, LineQueues;
    var x := m.pending[i];
    HeadHere(m, m.pending, i, AtProvider, ALL);
    var t := m.stage[x.id];
    assert Carries(m, m.pending) && x in m.pending;
    BodyRead(CopyKey(m.lines[t.line].key), CopyString(m.issued[t.call].data));
    CopyExact(m.issued[t.call].data);
  }

  predicate Empty(m: Mesh) {
    && m.jobs == [] && m.toProvider == [] && m.pending == [] && m.fromProvider == []
    && forall c | 0 <= c < |m.lines| ::
         m.lines[c].queue == [] && m.lines[c].toAgent == [] && m.lines[c].toConsumer == []
  }

  /** A request is in the queue of its stage. */
  lemma InItsQueue(m: Mesh, ms: seq<Message>, at: Place, line: int, x: int)
    requires Known(m) && Holds(m, ms, at, line) && x in m.stage && Here(m.stage[x], at, line)
    ensures ms != []
  {
    assert x in IdsAt(m.stage, at, line);
    assert x in IdsOf(ms);
  }

  /** No request is lost: when all queues are empty, every call has had its callback, and the
      maps are empty. */
  lemma NothingLost(m: Mesh, call: nat)
    requires Invariant(m) && Empty(m) && call < |m.issued|
    ensures m.stage == map[] && call in CallsOf(m.fired)
  {
    hide FiredOnce, Holds, LineMaps, HubMap;
    forall x ensures x !in m.stage {
      if x in m.stage { NotInEmpty(m, x); }
    }
    assert m.stage.Keys == {};
    AllFired(m, call);
  }

  lemma NotInEmpty(m: Mesh, x: int)
    requires Known(m) && HubQueues(m) && (forall c | 0 <= c < |m.lines| :: LineQueues(m, c)) && x in m.stage
    ensures !Empty(m)
  {
    hide Holds;
    var s := m.stage[x];
    assert LineQueues(m, s.line);
    var l := m.lines[s.line];
    match s.at
    case Queued => InItsQueue(m, l.queue, Queued, s.line, x);
    case ToAgent => InItsQueue(m, l.toAgent, ToAgent, s.line, x);
    case AtAgent => InItsQueue(m, m.jobs, AtAgent, ALL, x);
    case ToProvider => InItsQueue(m, m.toProvider, ToProvider, ALL, x);
    case AtProvider => InItsQueue(m, m.pending, AtProvider, ALL, x);
    case FromProvider => InItsQueue(m, m.fromProvider, FromProvider, ALL, x);
    case ToConsumer => InItsQueue(m, l.toConsumer, ToConsumer, s.line, x);
  }

  lemma AllFired(m: Mesh, call: nat)
    requires FiredOnce(m) && m.stage.Keys == {} && call < |m.issued|
    ensures call in CallsOf(m.fired)
  {
    assert !InFlight(m, call);
  }
}
