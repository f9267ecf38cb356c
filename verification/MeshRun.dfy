/** Whole runs of the classes together: clients, connections and the Dubbo client, the bytes
    they exchange and the callbacks they make are at every moment what a run of the mesh on
    bytes says. */
module MeshRun {
  import opened Wire
  import opened Frames
  import opened MeshMessages
  import opened MeshBytes
  import opened MeshClasses
  import opened MeshSteps
  import Answers
  import Buffers
  import DubboClient
  import MeshProgress
  import PaClient
  import ProviderAgent

  lemma RunMore(keys: seq<Key>, ss: seq<Net>, events: seq<Event>, e: Event, n: Net)
    requires IsNetRun(keys, ss, events) && Steps(ss[|ss| - 1], e, n)
    ensures IsNetRun(keys, ss + [n], events + [e])
  {
    hide After, Possible, NewNet, Good;
  }

  lemma StartOfRun(keys: seq<Key>)
    ensures IsNetRun(keys, [NewNet(keys)], []) && |NewNet(keys).lines| == |keys| && NewNet(keys).fired == []
    ensures Made([]) == [] && forall c :: MadeBy([], c) == []
  {
  }

  lemma RunGood(keys: seq<Key>, ss: seq<Net>, events: seq<Event>)
    requires (forall k | k in keys :: KeyFits(k)) && IsNetRun(keys, ss, events)
    ensures Good(ss[|ss| - 1])
  {
    hide Sane, Invariant, After, Possible, NewNet;
    EndToEnd(keys, ss, events, |ss| - 1);
  }

  // ---------------------------------------------------------------- all objects in step

  ghost predicate ClientsInStep(ps: seq<PaClient.PaClient>, ls: seq<Wired>, taken: seq<nat>, log: seq<Entry>)
    reads ps, set p | p in ps :: p.input, set p | p in ps :: p.input.pool, set p | p in ps :: p.input.active
    reads set p | p in ps && p.input.active != null :: p.input.active.buf
  {
    && |ps| == |ls| == |taken|
    && forall c | 0 <= c < |ps| :: ClientInStep(ps[c], ls[c], taken[c], MadeBy(log, c))
  }

  /** All clients but one. */
  ghost predicate ClientsBut(ps: seq<PaClient.PaClient>, ls: seq<Wired>, taken: seq<nat>, log: seq<Entry>, c: nat)
    reads ps, set p | p in ps :: p.input, set p | p in ps :: p.input.pool, set p | p in ps :: p.input.active
    reads set p | p in ps && p.input.active != null :: p.input.active.buf
  {
    && |ps| == |ls| == |taken|
    && forall j | 0 <= j < |ps| && j != c :: ClientInStep(ps[j], ls[j], taken[j], MadeBy(log, j))
  }

  ghost predicate AgentsInStep(ps: seq<ProviderAgent.StreamContext>, ls: seq<Wired>, taken: seq<nat>)
    reads ps, set p | p in ps :: p.input, set p | p in ps :: p.input.pool, set p | p in ps :: p.input.active
    reads set p | p in ps && p.input.active != null :: p.input.active.buf
  {
    |ps| == |ls| == |taken| && forall c | 0 <= c < |ps| :: AgentInStep(ps[c], ls[c], taken[c])
  }

  /** All connections but one. */
  ghost predicate AgentsBut(ps: seq<ProviderAgent.StreamContext>, ls: seq<Wired>, taken: seq<nat>, c: nat)
    reads ps, set p | p in ps :: p.input, set p | p in ps :: p.input.pool, set p | p in ps :: p.input.active
    reads set p | p in ps && p.input.active != null :: p.input.active.buf
  {
    |ps| == |ls| == |taken| && forall j | 0 <= j < |ps| && j != c :: AgentInStep(ps[j], ls[j], taken[j])
  }

  // ---------------------------------------------------------------- a client has written

  lemma AgentsSame(ps: seq<ProviderAgent.StreamContext>, s: Net, n: Net, c: nat, taken: seq<nat>)
    requires AgentsInStep(ps, s.lines, taken) && WrittenUp(s, n, c)
    ensures AgentsInStep(ps, n.lines, taken)
  {
    hide AgentInStep;
    AgentSame(ps[c], s.lines[c], n.lines[c], taken[c]);
  }

  lemma WrittenHub(p: DubboClient.DubboClient, s: Net, n: Net, c: nat, taken: nat)
    requires HubInStep(p, s, taken) && WrittenUp(s, n, c)
    ensures HubInStep(p, n, taken) && |n.lines| == |s.lines| && n.fired == s.fired
  {
    HubSame(p, s, n, taken);
  }

  lemma OneClient(ps: seq<PaClient.PaClient>, s: Net, n: Net, taken: seq<nat>, log: seq<Entry>, c: nat)
    requires ClientsBut(ps, s.lines, taken, log, c) && c < |ps| && WrittenUp(s, n, c)
    requires ClientInStep(ps[c], n.lines[c], taken[c], MadeBy(log, c))
    ensures ClientsInStep(ps, n.lines, taken, log)
  {
    hide ClientInStep;
  }

  // ---------------------------------------------------------------- a client has read

  lemma ClientRead(ps: seq<PaClient.PaClient>, s: Net, n: Net, c: nat, k: nat, taken: seq<nat>, log: seq<Entry>)
    requires TakenDown(s, n, c, k) && s.fired <= n.fired && c < |ps| == |taken|
    requires ClientInStep(ps[c], n.lines[c], taken[c], MadeBy(log, c) + n.fired[|s.fired|..])
    requires ClientsBut(ps, s.lines, taken, log, c)
    ensures ClientsInStep(ps, n.lines, taken, log + EntriesOf(c, n.fired[|s.fired|..]))
  {
    hide ClientInStep, MadeBy, EntriesOf;
    forall j | 0 <= j < |ps| { MadeByMore(log, c, n.fired[|s.fired|..], j); }
    forall j | 0 <= j < |ps| && j != c { SameLog(MadeBy(log, j)); }
  }

  lemma SameLog(fs: seq<Fired>)
    ensures fs + [] == fs
  {
  }

  lemma AgentsGave(ps: seq<ProviderAgent.StreamContext>, s: Net, n: Net, c: nat, k: nat, taken: seq<nat>)
    requires AgentsInStep(ps, s.lines, taken) && TakenDown(s, n, c, k)
    ensures AgentsInStep(ps, n.lines, taken[c := taken[c] + k])
  {
    hide AgentInStep;
    AgentGave(ps[c], s.lines[c], n.lines[c], taken[c], k);
  }

  lemma AgentGave(p: ProviderAgent.StreamContext, l: Wired, z: Wired, taken: nat, k: nat)
    requires AgentInStep(p, l, taken) && k <= |l.down.wire| && z.up == l.up && z.down.wire == l.down.wire[k..]
    ensures AgentInStep(p, z, taken + k)
  {
    LessOnWire(p.written, taken, l.down.wire, k);
  }

  lemma HubReadAside(p: DubboClient.DubboClient, s: Net, n: Net, c: nat, k: nat, taken: nat, log: seq<Entry>)
    requires HubInStep(p, s, taken) && TakenDown(s, n, c, k) && s.fired <= n.fired && Made(log) == s.fired
    ensures HubInStep(p, n, taken) && Made(log + EntriesOf(c, n.fired[|s.fired|..])) == n.fired
  {
    hide HubInStep;
    HubSame(p, s, n, taken);
    assert n.fired == s.fired + n.fired[|s.fired|..];
  }

  lemma OfferedDown(ps: seq<ProviderAgent.StreamContext>, ls: seq<Wired>, taken: seq<nat>, c: nat, arriving: nat)
    requires AgentsInStep(ps, ls, taken) && c < |ps| && taken[c] + arriving <= |ps[c].written|
    ensures ps[c].written[taken[c]..taken[c] + arriving] <= ls[c].down.wire
  {
  }

  // ---------------------------------------------------------------- a connection has read

  lemma AgentRead(ps: seq<ProviderAgent.StreamContext>, s: Net, n: Net, c: nat, k: nat, taken: seq<nat>)
    requires TakenUp(s, n, c, k) && c < |ps| == |taken| && AgentInStep(ps[c], n.lines[c], taken[c])
    requires AgentsBut(ps, s.lines, taken, c)
    ensures AgentsInStep(ps, n.lines, taken) && n.fired == s.fired
  {
    hide AgentInStep;
  }

  lemma ClientsGave(ps: seq<PaClient.PaClient>, s: Net, n: Net, c: nat, k: nat, taken: seq<nat>, log: seq<Entry>)
    requires ClientsInStep(ps, s.lines, taken, log) && TakenUp(s, n, c, k)
    ensures ClientsInStep(ps, n.lines, taken[c := taken[c] + k], log)
  {
    hide ClientInStep;
    ClientGave(ps[c], s.lines[c], n.lines[c], taken[c], k, MadeBy(log, c));
  }

  lemma ClientGave(p: PaClient.PaClient, l: Wired, z: Wired, taken: nat, k: nat, made: seq<Fired>)
    requires ClientInStep(p, l, taken, made) && k <= |l.up.wire| && z == l.(up := z.up) && z.up.wire == l.up.wire[k..]
    ensures ClientInStep(p, z, taken + k, made)
  {
    LessOnWire(p.written, taken, l.up.wire, k);
  }

  lemma OfferedUp(ps: seq<PaClient.PaClient>, ls: seq<Wired>, taken: seq<nat>, log: seq<Entry>, c: nat, arriving: nat)
    requires ClientsInStep(ps, ls, taken, log) && c < |ps| && taken[c] + arriving <= |ps[c].written|
    ensures ps[c].written[taken[c]..taken[c] + arriving] <= ls[c].up.wire
  {
    hide MadeBy;
    assert ClientInStep(ps[c], ls[c], taken[c], MadeBy(log, c));
  }

  // ---------------------------------------------------------------- the Dubbo client has read

  lemma ClientsWait(ps: seq<PaClient.PaClient>, b: Answers.Book, z: Answers.Book, s: Net, n: Net, taken: seq<nat>,
                    log: seq<Entry>)
    requires ClientsInStep(ps, s.lines, taken, log) && SentBack(b, z, s, n)
    ensures ClientsInStep(ps, n.lines, taken, log)
  {
    hide ClientInStep, WrittenTo, MadeBy;
    forall c | 0 <= c < |ps| ensures ClientInStep(ps[c], n.lines[c], taken[c], MadeBy(log, c)) {
      assert LineSentBack(z.calls[|b.calls|..], c, s.lines[c], n.lines[c]);
      ClientSame(ps[c], s.lines[c], n.lines[c], taken[c], MadeBy(log, c));
    }
  }

  method RelayInStep(ps: seq<ProviderAgent.StreamContext>, calls: seq<Answers.Made>, ghost ls: seq<Wired>,
                     ghost taken: seq<nat>)
    requires MeshSteps.Distinct(ps) && (forall m | m in calls :: m.context < |ps|) && AgentsInStep(ps, ls, taken)
    modifies ps`written
    ensures AgentsBefore(ps, ls, taken, calls)
  {
    hide OnWire, WrittenTo, Need, Buffers.Inlet.Unread, MeshSteps.Distinct,
      ProviderAgent.StreamContext.Await, ProviderAgent.StreamContext.Valid;
    Relay(ps, calls);
    forall c | 0 <= c < |ps| ensures AgentBefore(ps[c], ls[c], taken[c], WrittenTo(c, calls)) {
      assert OnWire(old(ps[c].written), taken[c], ls[c].down.wire);
    }
  }

  /** All connections but for what the callbacks have written. */
  ghost predicate AgentsBefore(ps: seq<ProviderAgent.StreamContext>, ls: seq<Wired>, taken: seq<nat>,
                               calls: seq<Answers.Made>)
    reads ps, set p | p in ps :: p.input, set p | p in ps :: p.input.pool, set p | p in ps :: p.input.active
    reads set p | p in ps && p.input.active != null :: p.input.active.buf
  {
    && |ps| == |ls| == |taken|
    && forall c | 0 <= c < |ps| :: AgentBefore(ps[c], ls[c], taken[c], WrittenTo(c, calls))
  }

  lemma CallsInRange(ps: seq<ProviderAgent.StreamContext>, b: Answers.Book, z: Answers.Book, s: Net, n: Net,
                     taken: seq<nat>)
    requires AgentsInStep(ps, s.lines, taken) && SentBack(b, z, s, n)
    ensures |b.calls| <= |z.calls| && forall m | m in z.calls[|b.calls|..] :: m.context < |ps|
  {
  }

  ghost predicate AgentBefore(p: ProviderAgent.StreamContext, l: Wired, taken: nat, more: seq<byte>)
    reads p, p.input, p.input.pool, p.input.active, if p.input.active == null then {} else {p.input.active.buf}
  {
    && AgentOn(p, l) && |p.input.Unread()| < Need(p.Await())
    && exists before :: OnWire(before, taken, l.down.wire) && p.written == before + more
  }

  lemma AgentsWrote(ps: seq<ProviderAgent.StreamContext>, b: Answers.Book, z: Answers.Book, s: Net, n: Net,
                    taken: seq<nat>)
    requires SentBack(b, z, s, n) && AgentsBefore(ps, s.lines, taken, z.calls[|b.calls|..])
    ensures AgentsInStep(ps, n.lines, taken) && |n.lines| == |s.lines|
  {
    hide AgentOn, WrittenTo, OnWire;
    forall c | 0 <= c < |ps| ensures AgentInStep(ps[c], n.lines[c], taken[c]) {
      AgentWrote(ps[c], b, z, s, n, c, taken[c]);
    }
  }

  lemma AgentWrote(p: ProviderAgent.StreamContext, b: Answers.Book, z: Answers.Book, s: Net, n: Net, c: nat, taken: nat)
    requires c < |s.lines| && SentBack(b, z, s, n)
    requires AgentBefore(p, s.lines[c], taken, WrittenTo(c, z.calls[|b.calls|..]))
    ensures AgentInStep(p, n.lines[c], taken)
  {
    hide WrittenTo, OnWire;
    var before :| OnWire(before, taken, s.lines[c].down.wire)
        && p.written == before + WrittenTo(c, z.calls[|b.calls|..]);
    Relayed(b, z, s, n, c, before, p.written, taken);
  }

  // ---------------------------------------------------------------- callbacks

  /** The entry is of a request of its client, with the context and the result of that. */
  predicate Exact(e: Entry, s: Net) {
    var f := e.fired;
    && f.call < |s.issued| && s.issued[f.call].line == e.client && f.context == s.issued[f.call].context
    && f.call in s.results && f.data == CopyString(s.results[f.call])
  }

  predicate Once(log: seq<Entry>) {
    forall i, j | 0 <= i < j < |log| :: log[i].fired.call != log[j].fired.call
  }

  lemma Finds(s: Net, i: nat) returns (k: nat)
    requires Good(s) && i < |s.pending|
    ensures k < |s.issued| && s.issued[k].line < |s.lines|
        && Understood(s.pending[i], s.lines[s.issued[k].line].key, s.issued[k])
  {
    hide Understood, Holds, HubMap, LineMaps, LineQueues, FiredOnce, Sane;
    var m := Abs(s);
    MeshMessages.ProviderFinds(m, i);
    k := m.stage[m.pending[i].id].call;
    assert m.lines[m.issued[k].line].key == s.lines[m.issued[k].line].key;
  }

  /** Each request that the provider has is that of some call. */
  predicate Found(s: Net) {
    forall x | x in s.pending ::
      exists k | 0 <= k < |s.issued| ::
        s.issued[k].line < |s.lines| && Understood(x, s.lines[s.issued[k].line].key, s.issued[k])
  }

  lemma AllFound(s: Net)
    requires Good(s)
    ensures Found(s)
  {
    hide Understood, Good;
    forall x | x in s.pending
      ensures exists k | 0 <= k < |s.issued| ::
        s.issued[k].line < |s.lines| && Understood(x, s.lines[s.issued[k].line].key, s.issued[k])
    {
      var i :| 0 <= i < |s.pending| && s.pending[i] == x;
      var k := Finds(s, i);
    }
  }

  lemma LogExact(s: Net, log: seq<Entry>)
    requires FiredOnce(Abs(s)) && Made(log) == s.fired && Owned(log, s.issued)
    ensures Once(log) && forall e | e in log :: Exact(e, s)
  {
    hide CopyString, InFlight, Contents, AbsLines, JobMessages;
    forall i | 0 <= i < |log| ensures Made(log)[i] == log[i].fired {}
    forall e | e in log ensures Exact(e, s) {
      var i :| 0 <= i < |log| && log[i] == e;
      assert s.fired[i] == e.fired && s.fired[i] in Abs(s).fired;
    }
    forall i, j | 0 <= i < j < |log| ensures log[i].fired.call != log[j].fired.call {
      assert Abs(s).fired[i] == log[i].fired && Abs(s).fired[j] == log[j].fired;
    }
  }

  ghost predicate CalledBack(log: seq<Entry>, call: nat, client: nat) {
    exists e | e in log :: e.fired.call == call && e.client == client
  }

  lemma LogHas(s: Net, log: seq<Entry>, k: nat)
    requires Made(log) == s.fired && Owned(log, s.issued) && k < |s.issued| && k in CallsOf(s.fired)
    ensures CalledBack(log, k, s.issued[k].line)
  {
    var f :| f in s.fired && f.call == k;
    var i :| 0 <= i < |s.fired| && s.fired[i] == f;
    assert Made(log)[i] == log[i].fired && log[i] in log;
  }

  // ---------------------------------------------------------------- nothing on its way

  predicate Still(p: Pipe) {
    p.rest == [] && p.wire == [] && p.hand == [] && Need(p.reader) > 0
  }

  lemma StillEmpty(p: Pipe)
    requires Still(p)
    ensures Contents(p) == []
  {
    DriveNothing(p.reader);
    assert [] + p.wire == [];
  }

  predicate AllStill(s: Net) {
    && s.jobs == [] && s.pending == [] && Still(s.out) && Still(s.back)
    && forall c | 0 <= c < |s.lines| :: s.lines[c].queue == [] && Still(s.lines[c].up) && Still(s.lines[c].down)
  }

  lemma AllStillEmpty(s: Net)
    requires AllStill(s)
    ensures Empty(Abs(s))
  {
    hide Still, Contents;
    StillEmpty(s.out);
    StillEmpty(s.back);
    forall c | 0 <= c < |s.lines| ensures Contents(s.lines[c].up) == [] && Contents(s.lines[c].down) == [] {
      StillEmpty(s.lines[c].up);
      StillEmpty(s.lines[c].down);
    }
  }

  /** Then every request has had its callback, and no map has an entry. */
  lemma AllDone(s: Net)
    requires Good(s) && Empty(Abs(s))
    ensures forall k | 0 <= k < |s.issued| :: k in CallsOf(s.fired)
    ensures s.cbs == map[]
    ensures forall c | 0 <= c < |s.lines| :: s.lines[c].callbacks == map[] && s.lines[c].contexts == map[]
  {
    hide Sane, Empty, Known, Invariant, CallsOf;
    forall k | 0 <= k < |s.issued| ensures k in CallsOf(s.fired) { NothingLost(Abs(s), k); }
    MapsEmpty(Abs(s));
    forall c | 0 <= c < |s.lines| ensures s.lines[c].callbacks == map[] && s.lines[c].contexts == map[] {
      assert Abs(s).lines[c] == AbsLine(s.lines[c]);
    }
  }

  lemma NoEntries(m: map<int, nat>)
    requires forall x :: x !in m
    ensures m == map[]
  {
    forall x ensures x !in m.Keys { assert x !in m; }
    assert m.Keys == {};
  }

  lemma MapsEmpty(m: Mesh)
    requires Invariant(m) && Empty(m)
    ensures m.cbs == map[]
    ensures forall c | 0 <= c < |m.lines| :: m.lines[c].callbacks == map[] && m.lines[c].contexts == map[]
  {
    hide HubQueues, LineQueues, FiredOnce;
    forall x ensures x !in m.stage {
      if x in m.stage { NotInEmpty(m, x); }
    }
    forall x ensures x !in m.cbs {}
    NoEntries(m.cbs);
    forall c | 0 <= c < |m.lines| ensures m.lines[c].callbacks == map[] && m.lines[c].contexts == map[] {
      assert LineMaps(m, c);
      forall x ensures x !in m.lines[c].callbacks && x !in m.lines[c].contexts {}
      NoEntries(m.lines[c].callbacks);
      NoEntries(m.lines[c].contexts);
    }
  }

  // ---------------------------------------------------------------- memory

  predicate Disjoint(rs: seq<set<object>>) {
    forall i, j | 0 <= i < j < |rs| :: rs[i] !! rs[j]
  }

  lemma DisjointMore(rs: seq<set<object>>, c: nat, more: set<object>)
    requires Disjoint(rs) && c < |rs| && forall r | r in rs :: r !! more
    ensures Disjoint(rs[c := rs[c] + more])
  {
    forall j | 0 <= j < |rs| && j != c ensures rs[j] !! rs[c] + more { assert rs[j] in rs; }
  }

  /** A receiving end keeps to its region of the memory. */
  ghost predicate Keeps(i: Buffers.Inlet, r: set<object>)
    reads i, i.pool
  {
    i.Footprint() <= r
  }

  /** It is out of reach of those who keep to another one. */
  ghost predicate Away(i: Buffers.Inlet, f: set<object>)
    reads i
  {
    i !in f && i.pool !in f && (i.active != null ==> i.active !in f && i.active.buf !in f)
  }

  lemma KeptIn(i: Buffers.Inlet, r: set<object>)
    requires Keeps(i, r)
    ensures i.Footprint() <= r
  {
  }

  lemma Reach(i: Buffers.Inlet, r: set<object>, k: Buffers.Inlet, q: set<object>)
    requires Keeps(i, r) && Keeps(k, q) && r !! q
    ensures Away(i, k.Footprint())
  {
    Within(i);
  }

  /** A receiving end of which everything but the pooled buffers is in a region. */
  ghost predicate Anchored(i: Buffers.Inlet, r: set<object>)
    reads i
  {
    i in r && i.pool in r && (i.active != null ==> i.active in r && i.active.buf in r)
  }

  lemma KeptAnchored(i: Buffers.Inlet, r: set<object>)
    requires Keeps(i, r)
    ensures Anchored(i, r)
  {
    Within(i);
  }

  /** Two ends share a pool. */
  lemma SharedKeeps(i: Buffers.Inlet, k: Buffers.Inlet, r: set<object>)
    requires i.pool == k.pool && Anchored(i, r) && k.Footprint() <= r
    ensures Keeps(i, r)
  {
  }

  /** How the objects refer to each other. */
  ghost predicate LinkedUp(keys: seq<Key>, clients: seq<PaClient.PaClient>, contexts: seq<ProviderAgent.StreamContext>,
                           inlets: Buffers.Inlets, hub: DubboClient.DubboClient)
    reads inlets
  {
    && |clients| == |contexts| == |keys| == |inlets.all|
    && (forall c | 0 <= c < |contexts| ::
          contexts[c].input == inlets.all[c] && contexts[c].dubbo == hub && contexts[c].channel == c)
    && (forall i, j | 0 <= i < j < |clients| :: clients[i] != clients[j])
  }

  /** The objects share no memory, but for the pool of the connections. */
  ghost predicate InRegions(rs: seq<set<object>>, clients: seq<PaClient.PaClient>,
                            contexts: seq<ProviderAgent.StreamContext>, hub: DubboClient.DubboClient)
    reads set p | p in clients :: p.input, set p | p in clients :: p.input.pool
    reads hub.input, hub.input.pool
    reads set p | p in contexts :: p.input, set p | p in contexts :: p.input.pool
  {
    && |rs| == |clients| + 2 && Disjoint(rs)
    && (forall c | 0 <= c < |clients| :: Keeps(clients[c].input, rs[c]))
    && Keeps(hub.input, rs[|clients|])
    && (forall c | 0 <= c < |contexts| :: Keeps(contexts[c].input, rs[|clients| + 1]))
  }

  /** Nothing has happened yet. */
  ghost predicate Unused(keys: seq<Key>, clients: seq<PaClient.PaClient>, contexts: seq<ProviderAgent.StreamContext>,
                         hub: DubboClient.DubboClient)
    reads clients, set p | p in clients :: p.input, set p | p in clients :: p.input.pool
    reads set p | p in clients :: p.input.active
    reads set p | p in clients && p.input.active != null :: p.input.active.buf
    reads contexts, set p | p in contexts :: p.input, set p | p in contexts :: p.input.pool
    reads set p | p in contexts :: p.input.active
    reads set p | p in contexts && p.input.active != null :: p.input.active.buf
    reads hub, hub.input, hub.input.pool, hub.input.active
    reads if hub.input.active == null then {} else {hub.input.active.buf}
  {
    && ClientsInStep(clients, NewNet(keys).lines, NothingTaken(|keys|), [])
    && AgentsInStep(contexts, NewNet(keys).lines, NothingTaken(|keys|)) && HubInStep(hub, NewNet(keys), 0)
  }

  function NothingTaken(n: nat): seq<nat> { seq(n, _ => 0) }

  /** Consumer agents, one connection each to a provider agent, and its client of the provider.
      The bytes on their way are those written and not yet read; the provider is the
      environment. */
  class Deployment {
    const keys: seq<Key>
    const clients: seq<PaClient.PaClient>
    const contexts: seq<ProviderAgent.StreamContext>
    const inlets: Buffers.Inlets
    const hub: DubboClient.DubboClient
    var upTaken: seq<nat>      // bytes that each connection has read
    var downTaken: seq<nat>    // bytes that each client has read
    ghost var outTaken: nat    // bytes that the provider has read
    ghost var nets: seq<Net>     // the run of the mesh so far
    ghost var events: seq<Event>
    ghost var log: seq<Entry>    // all callbacks, with the clients that made them
    ghost var regions: seq<set<object>>   // of the clients, the Dubbo client, the connections

    ghost function Now(): Net
      requires nets != []
      reads this
    {
      nets[|nets| - 1]
    }

    ghost predicate Linked()
      reads inlets
    {
      LinkedUp(keys, clients, contexts, inlets, hub)
    }

    ghost predicate Apart()
      reads this`regions, set p | p in clients :: p.input, set p | p in clients :: p.input.pool
      reads hub.input, hub.input.pool
      reads set p | p in contexts :: p.input, set p | p in contexts :: p.input.pool
    {
      InRegions(regions, clients, contexts, hub)
    }

    /** Every object is in step with the mesh. */
    ghost predicate InStep(s: Net)
      reads `upTaken, `downTaken, `outTaken, `log
      reads clients, set p | p in clients :: p.input, set p | p in clients :: p.input.pool
      reads set p | p in clients :: p.input.active
      reads set p | p in clients && p.input.active != null :: p.input.active.buf
      reads contexts, set p | p in contexts :: p.input, set p | p in contexts :: p.input.pool
      reads set p | p in contexts :: p.input.active
      reads set p | p in contexts && p.input.active != null :: p.input.active.buf
      reads hub, hub.input, hub.input.pool, hub.input.active
      reads if hub.input.active == null then {} else {hub.input.active.buf}
    {
      && ClientsInStep(clients, s.lines, upTaken, log) && AgentsInStep(contexts, s.lines, downTaken)
      && HubInStep(hub, s, outTaken) && Made(log) == s.fired
    }

    /** The run of the mesh; every callback is of a request of its client. */
    ghost predicate Recorded()
      reads this
    {
      && (forall k | k in keys :: KeyFits(k)) && nets != [] && IsNetRun(keys, nets, events)
      && Owned(log, Now().issued)
    }

    /** Fields, bytes on their way and callbacks are those that the run of the mesh says. */
    ghost predicate Valid()
      reads *
    {
      Linked() && Apart() && inlets.Valid() && Recorded() && InStep(Now())
    }

    lemma StaysGood()
      requires Recorded()
      ensures Good(Now())
    {
      RunGood(keys, nets, events);
    }

    /** The run goes on with an event. */
    ghost method Record(e: Event, n: Net)
      requires Recorded() && Steps(Now(), e, n)
      modifies `nets, `events
      ensures Recorded() && Now() == n && events == old(events) + [e]
    {
      hide Good, After, Possible, IsNetRun, KeyFits, Owned;
      StaysGood();
      IssuedGrows(Now(), e);
      OwnedStill(log, Now().issued, n.issued);
      RunMore(keys, nets, events, e, n);
      nets, events := nets + [n], events + [e];
    }

    lemma Others(c: nat)
      requires Linked() && c < |clients|
      ensures forall j | 0 <= j < |clients| && j != c :: clients[j] != clients[c]
    {
    }

    /** One client has written. */
    ghost method Wrote(c: nat, e: Event, n: Net)
      requires Recorded() && Steps(Now(), e, n) && WrittenUp(Now(), n, c) && c < |clients| == |upTaken|
      requires ClientInStep(clients[c], n.lines[c], upTaken[c], MadeBy(log, c))
      requires ClientsBut(clients, Now().lines, upTaken, log, c) && AgentsInStep(contexts, Now().lines, downTaken)
      requires HubInStep(hub, Now(), outTaken) && Made(log) == Now().fired
      modifies `nets, `events
      ensures Recorded() && InStep(Now()) && events == old(events) + [e]
    {
      hide Steps, ClientInStep, ClientsInStep, ClientsBut, AgentsInStep, HubInStep, MadeBy, Made, IsNetRun,
        KeyFits, Owned, WrittenUp;
      OneClient(clients, Now(), n, upTaken, log, c);
      AgentsSame(contexts, Now(), n, c, downTaken);
      WrittenHub(hub, Now(), n, c, outTaken);
      Record(e, n);
    }

    /** pa_client_fetch, with an id that is not in flight. */
    method Fetch(c: nat, request: Message, callback: nat, context: nat)
      requires Valid() && c < |clients| && Possible(Now(), Fetching(c, request.id, context, request.data))
      requires callback == |Now().issued|
      modifies this, clients[c]
      ensures Valid() && events == old(events) + [Fetching(c, request.id, context, request.data)]
    {
      hide Good, Possible, Steps, ClientInStep, AgentsInStep, HubInStep, MadeBy, Made, IsNetRun, KeyFits,
        Owned, WrittenUp, Linked, Apart, Buffers.Inlets.Valid;
      StaysGood();
      Others(c);
      ghost var n := FetchInStep(clients[c], Now(), c, request, callback, context, upTaken[c], MadeBy(log, c));
      Wrote(c, Fetching(c, request.id, context, request.data), n);
    }

    lemma NotConnected(c: nat)
      requires nets != [] && Good(Now()) && ClientsInStep(clients, Now().lines, upTaken, log) && c < |clients|
      requires !Now().lines[c].keySent
      ensures !clients[c].connected
    {
      hide Invariant, Flows, FramesIn, MadeBy;
      assert SaneLine(Now().lines[c]);
      assert ClientInStep(clients[c], Now().lines[c], upTaken[c], MadeBy(log, c));
    }

    /** _pa_on_conn */
    method Connect(c: nat)
      requires Valid() && c < |clients| && Possible(Now(), Connecting(c))
      modifies this, clients[c]
      ensures Valid() && events == old(events) + [Connecting(c)]
    {
      hide Good, Steps, ClientInStep, AgentsInStep, HubInStep, MadeBy, Made, IsNetRun, KeyFits, Owned,
        WrittenUp, Linked, Apart, Buffers.Inlets.Valid;
      StaysGood();
      Others(c);
      NotConnected(c);
      ghost var n := ConnectInStep(clients[c], Now(), c, upTaken[c], MadeBy(log, c));
      Wrote(c, Connecting(c), n);
    }

    /** _pa_key_write_cb */
    method KeySent(c: nat)
      requires Valid() && c < |clients| && Possible(Now(), KeyWritten(c))
      modifies this, clients[c]
      ensures Valid() && events == old(events) + [KeyWritten(c)]
    {
      hide Good, Possible, Steps, ClientInStep, AgentsInStep, HubInStep, MadeBy, Made, IsNetRun, KeyFits,
        Owned, WrittenUp, Linked, Apart, Buffers.Inlets.Valid;
      StaysGood();
      Others(c);
      ghost var n := KeyInStep(clients[c], Now(), c, upTaken[c], MadeBy(log, c));
      Wrote(c, KeyWritten(c), n);
    }

    /** What the others have is out of the reach of a client. */
    lemma ClientAlone(c: nat)
      requires Linked() && Apart() && c < |clients|
      ensures var f := clients[c].input.Footprint();
          && (forall j | 0 <= j < |clients| && j != c :: clients[j] != clients[c] && Away(clients[j].input, f))
          && (forall j | 0 <= j < |contexts| :: Away(contexts[j].input, f)) && Away(hub.input, f)
    {
      hide Keeps;
      forall j | 0 <= j < |clients| && j != c ensures Away(clients[j].input, clients[c].input.Footprint()) {
        Reach(clients[j].input, regions[j], clients[c].input, regions[c]);
      }
      forall j | 0 <= j < |contexts| ensures Away(contexts[j].input, clients[c].input.Footprint()) {
        Reach(contexts[j].input, regions[|clients| + 1], clients[c].input, regions[c]);
      }
      Reach(hub.input, regions[|clients|], clients[c].input, regions[c]);
    }

    /** Receiving ends hold buffers, and none of the objects here. */
    lemma Outside(i: Buffers.Inlet)
      ensures this !in i.Footprint() && hub !in i.Footprint() && inlets !in i.Footprint()
      ensures forall p | p in clients :: p !in i.Footprint()
      ensures forall p | p in contexts :: p !in i.Footprint()
    {
    }

    /** A client has read, and the others were left alone. */
    ghost predicate ClientHasRead(s: Net, n: Net, c: nat, k: nat)
      reads *
    {
      && TakenDown(s, n, c, k) && s.fired <= n.fired && c < |clients| == |upTaken|
      && ClientInStep(clients[c], n.lines[c], upTaken[c], MadeBy(log, c) + n.fired[|s.fired|..])
      && ClientsBut(clients, s.lines, upTaken, log, c)
      && AgentsInStep(contexts, s.lines, downTaken) && HubInStep(hub, s, outTaken)
    }

    lemma InletsAlone(f: set<object>)
      requires Linked() && inlets.Valid() && clients != []
      requires forall j | 0 <= j < |contexts| :: Away(contexts[j].input, f)
      ensures inlets.pool !in f && forall i | i in inlets.all :: i !in f && (i.active != null ==> i.active !in f)
    {
      assert contexts[0].input == inlets.all[0];
      assert inlets.all[0].pool == inlets.pool;
    }

    /** One client has taken new memory. */
    lemma GrownApart(c: nat, was: seq<set<object>>, more: set<object>)
      requires |was| == |clients| + 2 && Disjoint(was) && c < |clients| && regions == was[c := was[c] + more]
      requires forall r | r in was :: r !! more
      requires clients[c].input.Footprint() <= was[c] + more
      requires forall j | 0 <= j < |clients| && j != c :: Keeps(clients[j].input, was[j])
      requires Keeps(hub.input, was[|clients|])
      requires forall j | 0 <= j < |contexts| :: Keeps(contexts[j].input, was[|clients| + 1])
      ensures Apart()
    {
      DisjointMore(was, c, more);
    }

    method ClientDataApart(ghost s: Net, c: nat, suggested: nat, offered: seq<byte>) returns (k: nat, ghost n: Net)
      requires Valid() && s == Now() && c < |clients| && Need(clients[c].Await()) <= suggested && suggested >= 3
      requires offered <= s.lines[c].down.wire
      modifies clients[c], clients[c].input.Footprint()
      ensures k <= |offered| && (offered != [] ==> k > 0)
      ensures Steps(s, ConsumerData(c, k), n) && ClientHasRead(s, n, c, k)
      ensures fresh(clients[c].input.Footprint() - old(clients[c].input.Footprint()))
    {
      hide Good, Possible, Steps, ClientInStep, AgentsInStep, HubInStep, MadeBy, IsNetRun, KeyFits, Owned,
        TakenDown, Buffers.Inlet.Footprint, Buffers.Inlet.Recycled, Need, Linked, Apart,
        Buffers.Inlets.Valid;
      StaysGood();
      ClientAlone(c);
      Outside(clients[c].input);
      k, n := ClientDataInStep(clients[c], s, c, suggested, offered, upTaken[c], MadeBy(log, c));
    }

    method ClientDataKept(ghost s: Net, c: nat, suggested: nat, offered: seq<byte>) returns (k: nat, ghost n: Net)
      requires Valid() && s == Now() && c < |clients| && Need(clients[c].Await()) <= suggested && suggested >= 3
      requires offered <= s.lines[c].down.wire
      modifies `regions, clients[c], clients[c].input.Footprint()
      ensures k <= |offered| && (offered != [] ==> k > 0)
      ensures Steps(s, ConsumerData(c, k), n) && ClientHasRead(s, n, c, k) && Apart() && Linked() && inlets.Valid()
    {
      hide Good, Possible, Steps, ClientInStep, AgentsInStep, HubInStep, ClientsInStep, ClientsBut, MadeBy,
        IsNetRun, KeyFits, TakenDown, Buffers.Inlet.Footprint, Buffers.Inlet.Recycled, Need, Linked, Keeps,
        Buffers.Inlets.Valid, Disjoint;
      ClientAlone(c);
      ghost var f, was := clients[c].input.Footprint(), regions;
      Outside(clients[c].input);
      InletsAlone(f);
      KeptIn(clients[c].input, regions[c]);
      k, n := ClientDataApart(s, c, suggested, offered);
      ghost var more := clients[c].input.Footprint() - f;
      assert forall r | r in was :: r !! more;
      regions := was[c := was[c] + more];
      GrownApart(c, was, more);
    }

    lemma NewCalls(s: Net, c: nat, k: nat, n: Net)
      requires Steps(s, ConsumerData(c, k), n) && Recorded() && s == Now()
      ensures s.fired <= n.fired && OwnedBy(c, n.fired[|s.fired|..], n.issued)
    {
      hide Good, Possible, After, IsNetRun, KeyFits, OwnedBy, Owned;
      StaysGood();
      DataOwned(s, c, k);
    }

    /** One client has read. */
    method HadRead(c: nat, k: nat, ghost n: Net)
      requires Recorded() && Steps(Now(), ConsumerData(c, k), n) && ClientHasRead(Now(), n, c, k)
      requires Made(log) == Now().fired && c < |downTaken|
      modifies `nets, `events, `downTaken, `log
      ensures Recorded() && InStep(Now()) && events == old(events) + [ConsumerData(c, k)]
    {
      hide Good, Steps, ClientInStep, AgentsInStep, ClientsInStep, ClientsBut, HubInStep, MadeBy, Made,
        EntriesOf, IsNetRun, Owned, OwnedBy, KeyFits, TakenDown;
      ghost var s := Now();
      ClientRead(clients, s, n, c, k, upTaken, log);
      AgentsGave(contexts, s, n, c, k, downTaken);
      HubReadAside(hub, s, n, c, k, outTaken, log);
      NewCalls(s, c, k, n);
      Record(ConsumerData(c, k), n);
      OwnedMore(log, c, n.fired[|s.fired|..], n.issued);
      downTaken := downTaken[c := downTaken[c] + k];
      log := log + EntriesOf(c, n.fired[|s.fired|..]);
    }

    /** Some of the bytes written to a client arrive there. */
    method ArriveAtClient(c: nat, suggested: nat, arriving: nat) returns (k: nat)
      requires Valid() && c < |clients| && Need(clients[c].Await()) <= suggested && suggested >= 3
      requires c < |contexts| && c < |downTaken| && downTaken[c] + arriving <= |contexts[c].written|
      modifies this, clients[c], clients[c].input.Footprint()
      ensures Valid() && k <= arriving && (arriving > 0 ==> k > 0) && events == old(events) + [ConsumerData(c, k)]
    {
      hide Steps, ClientInStep, AgentsInStep, ClientsInStep, ClientsBut, HubInStep, Made, MadeBy, IsNetRun,
        Owned, KeyFits, TakenDown, Linked, Apart, Buffers.Inlets.Valid, Buffers.Inlet.Footprint, Need;
      ghost var s := Now();
      ghost var n;
      OfferedDown(contexts, s.lines, downTaken, c, arriving);
      Outside(clients[c].input);
      k, n := ClientDataKept(s, c, suggested, contexts[c].written[downTaken[c]..downTaken[c] + arriving]);
      HadRead(c, k, n);
    }

    // -------------------------------------------------------------- the provider agent

    lemma ContextAlone(c: nat)
      requires Linked() && Apart() && c < |clients|
      ensures var f := contexts[c].input.Footprint();
          && (forall j | 0 <= j < |clients| :: Away(clients[j].input, f)) && Away(hub.input, f)
          && hub.input.Footprint() !! f
          && (forall j | 0 <= j < |clients| && j != c :: contexts[j] != contexts[c])
    {
      hide Keeps;
      forall j | 0 <= j < |clients| ensures Away(clients[j].input, contexts[c].input.Footprint()) {
        Reach(clients[j].input, regions[j], contexts[c].input, regions[|clients| + 1]);
      }
      Reach(hub.input, regions[|clients|], contexts[c].input, regions[|clients| + 1]);
      KeptIn(hub.input, regions[|clients|]);
      KeptIn(contexts[c].input, regions[|clients| + 1]);
    }

    /** The other connections are not touched, but for the pool. */
    lemma ContextsAlone(c: nat)
      requires Linked() && inlets.Valid() && c < |clients|
      ensures contexts[c].input == inlets.all[c] && contexts[c].dubbo == hub && contexts[c].channel == c
      ensures |inlets.all| == |contexts| == |clients| && contexts[c].input.pool == inlets.pool
      ensures forall j | 0 <= j < |contexts| && j != c ::
          var i, f := contexts[j].input, contexts[c].input.Footprint();
          && i == inlets.all[j] && i.pool == inlets.pool && i !in f
          && (i.active != null ==> i.active !in f && i.active.buf !in f)
    {
      hide Buffers.Inlet.Footprint;
      assert inlets.all[c] == contexts[c].input && inlets.all[c] in inlets.all;
      forall j | 0 <= j < |contexts| && j != c
        ensures var i, f := contexts[j].input, contexts[c].input.Footprint();
            && i == inlets.all[j] && i.pool == inlets.pool && i !in f
            && (i.active != null ==> i.active !in f && i.active.buf !in f)
      {
        inlets.Distinct(j, c);
        assert contexts[j].input in inlets.all;
      }
    }

    lemma ContextsAnchored()
      requires Apart()
      ensures forall j | 0 <= j < |contexts| :: Anchored(contexts[j].input, regions[|clients| + 1])
    {
      hide Anchored, Keeps;
      forall j | 0 <= j < |contexts| { KeptAnchored(contexts[j].input, regions[|clients| + 1]); }
    }

    /** The connections have taken new memory. */
    lemma SharedGrown(c: nat, was: seq<set<object>>, more: set<object>)
      requires |was| == |clients| + 2 && Disjoint(was) && c < |contexts|
      requires regions == was[|clients| + 1 := was[|clients| + 1] + more] && forall r | r in was :: r !! more
      requires forall j | 0 <= j < |clients| :: Keeps(clients[j].input, was[j])
      requires Keeps(hub.input, was[|clients|])
      requires contexts[c].input.Footprint() <= was[|clients| + 1] + more
      requires forall j | 0 <= j < |contexts| && j != c ::
          Anchored(contexts[j].input, was[|clients| + 1]) && contexts[j].input.pool == contexts[c].input.pool
      ensures Apart()
    {
      hide Disjoint, Buffers.Inlet.Footprint;
      DisjointMore(was, |clients| + 1, more);
      forall j | 0 <= j < |contexts| && j != c {
        SharedKeeps(contexts[j].input, contexts[c].input, regions[|clients| + 1]);
      }
    }

    /** A connection has read, and the others were left alone. */
    ghost predicate AgentHasRead(s: Net, n: Net, c: nat, k: nat)
      reads *
    {
      && TakenUp(s, n, c, k) && c < |contexts| == |downTaken|
      && AgentInStep(contexts[c], n.lines[c], downTaken[c]) && AgentsBut(contexts, s.lines, downTaken, c)
      && ClientsInStep(clients, s.lines, upTaken, log) && HubInStep(hub, n, outTaken)
    }

    method AgentDataApart(ghost s: Net, c: nat, suggested: nat, offered: seq<byte>) returns (k: nat, ghost n: Net)
      requires Valid() && s == Now() && c < |clients| && c < |contexts| && suggested >= 3
      requires offered != [] && offered <= s.lines[c].up.wire && Need(contexts[c].Await()) <= suggested
      modifies contexts[c], contexts[c].input.Footprint(), hub
      ensures 0 < k <= |offered|
      ensures Steps(s, AgentData(c, k), n) && AgentHasRead(s, n, c, k)
      ensures contexts[c].input.Recycled() && fresh(contexts[c].input.Footprint() - old(contexts[c].input.Footprint()))
      ensures inlets.Valid() && Linked()
    {
      hide Good, Possible, Steps, ClientInStep, ClientsInStep, HubInStep, MadeBy, IsNetRun, KeyFits, Owned,
        TakenUp, Buffers.Inlet.Footprint, Need, Linked, Keeps, Buffers.Inlets.Valid, Disjoint, Apart,
        Buffers.Inlet.Unread, OnWire, ProviderAgent.StreamContext.Await, Buffers.Inlet.Recycled,
        Buffers.Inlet.Valid;
      StaysGood();
      ContextAlone(c);
      ContextsAlone(c);
      Outside(contexts[c].input);
      k, n := AgentDataInStep(contexts[c], s, suggested, offered, downTaken[c], outTaken);
      inlets.Aside(c);
    }

    method AgentDataKept(ghost s: Net, c: nat, suggested: nat, offered: seq<byte>) returns (k: nat, ghost n: Net)
      requires Valid() && s == Now() && c < |clients| && c < |contexts| && suggested >= 3
      requires offered != [] && offered <= s.lines[c].up.wire && Need(contexts[c].Await()) <= suggested
      modifies `regions, contexts[c], contexts[c].input.Footprint(), hub
      ensures 0 < k <= |offered|
      ensures Steps(s, AgentData(c, k), n) && AgentHasRead(s, n, c, k) && Apart() && inlets.Valid() && Linked()
    {
      hide Good, Possible, Steps, ClientInStep, ClientsInStep, AgentInStep, AgentsInStep, AgentsBut,
        HubInStep, MadeBy, IsNetRun, KeyFits, TakenUp, Buffers.Inlet.Footprint, Need, Linked, Keeps,
        Buffers.Inlets.Valid, Disjoint, Buffers.Inlet.Recycled, Anchored;
      ContextAlone(c);
      ContextsAlone(c);
      ContextsAnchored();
      Outside(contexts[c].input);
      KeptIn(contexts[c].input, regions[|clients| + 1]);
      ghost var f, was := contexts[c].input.Footprint(), regions;
      k, n := AgentDataApart(s, c, suggested, offered);
      ghost var more := contexts[c].input.Footprint() - f;
      assert forall r | r in was :: r !! more;
      regions := was[|clients| + 1 := was[|clients| + 1] + more];
      SharedGrown(c, was, more);
    }

    /** Some of the bytes written by a client arrive at the provider agent. */
    method ArriveAtAgent(c: nat, suggested: nat, arriving: nat) returns (k: nat)
      requires Valid() && c < |clients| && c < |contexts| && c < |upTaken| && suggested >= 3
      requires Need(contexts[c].Await()) <= suggested && 0 < arriving
      requires upTaken[c] + arriving <= |clients[c].written|
      modifies this, contexts[c], contexts[c].input.Footprint(), hub
      ensures Valid() && 0 < k <= arriving && events == old(events) + [AgentData(c, k)]
    {
      hide Good, Steps, ClientInStep, AgentInStep, AgentsInStep, AgentsBut, ClientsInStep, HubInStep, MadeBy,
        Made, IsNetRun, KeyFits, TakenUp, Linked, Apart, Buffers.Inlets.Valid, Buffers.Inlet.Footprint, Need;
      ghost var s := Now();
      ghost var n;
      OfferedUp(clients, s.lines, upTaken, log, c, arriving);
      Outside(contexts[c].input);
      k, n := AgentDataKept(s, c, suggested, clients[c].written[upTaken[c]..upTaken[c] + arriving]);
      AgentRead(contexts, s, n, c, k, downTaken);
      ClientsGave(clients, s, n, c, k, upTaken, log);
      upTaken := upTaken[c := upTaken[c] + k];
      Record(AgentData(c, k), n);
    }

    /** _d_on_connect */
    method HubConnect()
      requires Valid() && Possible(Now(), DubboConnected)
      modifies this, hub
      ensures Valid() && events == old(events) + [DubboConnected]
    {
      hide Good, Possible, Steps, ClientInStep, AgentInStep, AgentsInStep, ClientsInStep, HubInStep, MadeBy,
        Made, IsNetRun, KeyFits, Linked, Apart, Buffers.Inlets.Valid;
      StaysGood();
      ghost var n := HubConnectInStep(hub, Now(), outTaken);
      Record(DubboConnected, n);
    }

    // -------------------------------------------------------------- the provider

    /** The provider takes some of the bytes written to it. */
    ghost method ProviderReads(k: nat)
      requires Valid() && Possible(Now(), ProviderData(k))
      modifies this
      ensures Valid() && events == old(events) + [ProviderData(k)]
    {
      hide Good, ClientsInStep, AgentsInStep, HubInStep, MadeBy, Made, IsNetRun, KeyFits, Owned, Linked,
        Apart, Buffers.Inlets.Valid, After;
      ghost var s, n := Now(), After(Now(), ProviderData(k));
      StaysGood();
      AfterGood(s, ProviderData(k));
      ProviderTakes(s, k);
      HubOutRead(hub, s, n, outTaken, k);
      outTaken := outTaken + k;
      Record(ProviderData(k), n);
    }

    /** It answers one of its requests, with any bytes. */
    ghost method ProviderGives(i: nat, flags: seq<byte>, result: seq<byte>)
      requires Valid() && Possible(Now(), ProviderAnswer(i, flags, result))
      modifies this
      ensures Valid() && events == old(events) + [ProviderAnswer(i, flags, result)]
    {
      hide Good, ClientsInStep, AgentsInStep, HubInStep, MadeBy, Made, IsNetRun, KeyFits, Owned, Linked,
        Apart, Buffers.Inlets.Valid;
      ghost var s, n := Now(), After(Now(), ProviderAnswer(i, flags, result));
      StaysGood();
      AfterGood(s, ProviderAnswer(i, flags, result));
      HubBackWritten(hub, s, n, outTaken);
      Record(ProviderAnswer(i, flags, result), n);
    }

    // -------------------------------------------------------------- answers

    lemma HubAlone()
      requires Linked() && Apart()
      ensures var f := hub.input.Footprint();
          && (forall j | 0 <= j < |clients| :: Away(clients[j].input, f))
          && (forall j | 0 <= j < |contexts| :: Away(contexts[j].input, f))
    {
      hide Keeps;
      forall j | 0 <= j < |clients| ensures Away(clients[j].input, hub.input.Footprint()) {
        Reach(clients[j].input, regions[j], hub.input, regions[|clients|]);
      }
      forall j | 0 <= j < |contexts| ensures Away(contexts[j].input, hub.input.Footprint()) {
        Reach(contexts[j].input, regions[|clients| + 1], hub.input, regions[|clients|]);
      }
    }

    /** The Dubbo client has read, and nothing else has been touched. */
    ghost predicate HubHasRead(s: Net, n: Net, k: nat, b: Answers.Book)
      reads *
    {
      && TakenBack(s, n, k) && HubInStep(hub, n, outTaken) && SentBack(b, hub.BookNow(), s, n)
      && ClientsInStep(clients, s.lines, upTaken, log) && AgentsInStep(contexts, s.lines, downTaken)
    }

    method HubDataApart(ghost s: Net, suggested: nat, offered: seq<byte>) returns (k: nat, ghost n: Net)
      requires Valid() && s == Now() && offered <= s.back.wire && Need(hub.Await()) <= suggested && suggested >= 3
      modifies hub, hub.input.Footprint()
      ensures k <= |offered| && (offered != [] ==> k > 0)
      ensures Steps(s, HubData(k), n) && HubHasRead(s, n, k, old(hub.BookNow()))
      ensures fresh(hub.input.Footprint() - old(hub.input.Footprint()))
    {
      hide Good, Possible, Steps, ClientsInStep, AgentsInStep, HubInStep, MadeBy, IsNetRun, KeyFits, Owned,
        TakenBack, SentBack, Buffers.Inlet.Footprint, Buffers.Inlet.Recycled, Need, Linked, Apart,
        Buffers.Inlets.Valid;
      StaysGood();
      HubAlone();
      Outside(hub.input);
      k, n := HubDataInStep(hub, s, suggested, offered, outTaken);
    }

    lemma HubGrown(was: seq<set<object>>, more: set<object>)
      requires |was| == |clients| + 2 && Disjoint(was)
      requires regions == was[|clients| := was[|clients|] + more] && forall r | r in was :: r !! more
      requires forall j | 0 <= j < |clients| :: Keeps(clients[j].input, was[j])
      requires hub.input.Footprint() <= was[|clients|] + more
      requires forall j | 0 <= j < |contexts| :: Keeps(contexts[j].input, was[|clients| + 1])
      ensures Apart()
    {
      hide Disjoint;
      DisjointMore(was, |clients|, more);
    }

    method HubDataKept(ghost s: Net, suggested: nat, offered: seq<byte>) returns (k: nat, ghost n: Net)
      requires Valid() && s == Now() && clients != []
      requires offered <= s.back.wire && Need(hub.Await()) <= suggested && suggested >= 3
      modifies `regions, hub, hub.input.Footprint()
      ensures k <= |offered| && (offered != [] ==> k > 0)
      ensures Steps(s, HubData(k), n) && HubHasRead(s, n, k, old(hub.BookNow()))
      ensures Apart() && Linked() && inlets.Valid()
    {
      hide Good, Possible, Steps, ClientsInStep, AgentsInStep, HubInStep, MadeBy, IsNetRun, KeyFits, Owned,
        TakenBack, SentBack, Buffers.Inlet.Footprint, Buffers.Inlet.Recycled, Need, Linked, Keeps,
        Buffers.Inlets.Valid, Disjoint;
      HubAlone();
      ghost var f, was := hub.input.Footprint(), regions;
      Outside(hub.input);
      InletsAlone(f);
      KeptIn(hub.input, regions[|clients|]);
      k, n := HubDataApart(s, suggested, offered);
      ghost var more := hub.input.Footprint() - f;
      assert forall r | r in was :: r !! more;
      regions := was[|clients| := was[|clients|] + more];
      HubGrown(was, more);
    }

    /** The callbacks of the Dubbo client write the answers to the connections of their requests. */
    method RelayAnswers(calls: seq<Answers.Made>, ghost s: Net, ghost n: Net, ghost k: nat, ghost b: Answers.Book)
      requires HubHasRead(s, n, k, b) && Made(log) == s.fired && calls == hub.calls[|b.calls|..]
      requires Linked() && Apart() && inlets.Valid()
      modifies contexts`written
      ensures InStep(n) && Linked() && Apart() && inlets.Valid()
    {
      hide ClientsInStep, AgentsInStep, AgentsBefore, HubInStep, MadeBy, Made, SentBack, Linked, Apart,
        MeshSteps.Distinct, Buffers.Inlets.Valid;
      ContextsDistinct();
      CallsInRange(contexts, b, hub.BookNow(), s, n, downTaken);
      RelayInStep(contexts, calls, s.lines, downTaken);
      AgentsWrote(contexts, b, hub.BookNow(), s, n, downTaken);
      ClientsWait(clients, b, hub.BookNow(), s, n, upTaken, log);
    }

    /** Some of the bytes from the provider arrive at its client. */
    method ArriveAtHub(suggested: nat, offered: seq<byte>) returns (k: nat)
      requires Valid() && clients != []
      requires offered <= Now().back.wire && Need(hub.Await()) <= suggested && suggested >= 3
      modifies this, hub, hub.input.Footprint(), contexts`written
      ensures Valid() && k <= |offered| && (offered != [] ==> k > 0) && events == old(events) + [HubData(k)]
    {
      hide Good, Possible, Steps, ClientsInStep, AgentsInStep, HubInStep, MadeBy, Made, IsNetRun, KeyFits,
        Owned, SentBack, Buffers.Inlet.Footprint, Need, Linked, Apart, Buffers.Inlets.Valid;
      ghost var s := Now();
      ghost var n, b := s, hub.BookNow();
      Outside(hub.input);
      var first := |hub.calls|;
      k, n := HubDataKept(s, suggested, offered);
      CallsKept(s, n, k, b);
      Record(HubData(k), n);
      RelayAnswers(hub.calls[first..], s, n, k, b);
    }

    lemma CallsKept(s: Net, n: Net, k: nat, b: Answers.Book)
      requires HubHasRead(s, n, k, b)
      ensures |b.calls| <= |hub.calls|
    {
    }

    lemma ContextsDistinct()
      requires Linked()
      ensures MeshSteps.Distinct(contexts)
    {
    }

    // -------------------------------------------------------------- whole runs

    /** Whatever has happened, the callbacks that the clients have made are those in the log:
        each is of a request of its client, with its context and its result, and none is made
        twice. */
    lemma CallbacksExact()
      requires Valid()
      ensures forall c | 0 <= c < |clients| :: FiredBy(clients[c].calls) == MadeBy(log, c)
      ensures Once(log) && forall e | e in log :: Exact(e, Now())
    {
      hide IsNetRun, MadeBy, Known, HubQueues, HubMap, LineQueues, LineMaps, Sane, Apart, Linked, HubInStep,
        AgentsInStep, FiredBy, FiredOnce, Once, Exact, Made, Owned, Buffers.Inlets.Valid, ClientOn, Need,
        OnWire;
      StaysGood();
      LogExact(Now(), log);
      forall c | 0 <= c < |clients| ensures FiredBy(clients[c].calls) == MadeBy(log, c) {
        assert ClientInStep(clients[c], Now().lines[c], upTaken[c], MadeBy(log, c));
      }
    }

    /** Whatever has happened, each request that the provider has is one that a client was asked
        to fetch, and as readable and as exact as its bytes allow. */
    lemma ProviderFinds()
      requires Valid()
      ensures Found(Now())
    {
      hide Valid, Found, IsNetRun, Good;
      StaysRecorded();
      StaysGood();
      AllFound(Now());
    }

    lemma StaysRecorded()
      requires Valid()
      ensures Recorded()
    {
      hide IsNetRun, MadeBy, Apart, Linked, FiredBy, Buffers.Inlets.Valid, Owned, Need, OnWire, AgentsInStep, HubInStep;
    }

    /** Nothing is queued, and nothing is on its way or half read. */
    ghost predicate Quiet()
      requires Valid()
      reads *
    {
      && (forall c | 0 <= c < |clients| ::
            && clients[c].que == [] && upTaken[c] == |clients[c].written| && clients[c].input.Unread() == [])
      && (forall c | 0 <= c < |contexts| ::
            downTaken[c] == |contexts[c].written| && contexts[c].input.Unread() == [])
      && hub.queue == [] && outTaken == |hub.written| && hub.input.Unread() == []
      && Now().pending == [] && Still(Now().out) && Now().back.wire == []
    }

    lemma QuietStill()
      requires Valid() && Quiet()
      ensures AllStill(Now())
    {
      hide IsNetRun, MadeBy, Apart, Linked, FiredBy, Need, Buffers.Inlets.Valid, Owned;
      var s := Now();
      forall c | 0 <= c < |s.lines| ensures s.lines[c].queue == [] && Still(s.lines[c].up) && Still(s.lines[c].down) {
        assert ClientInStep(clients[c], s.lines[c], upTaken[c], MadeBy(log, c));
        assert AgentInStep(contexts[c], s.lines[c], downTaken[c]);
      }
    }

    /** When nothing is left to do every request has had its callback from its client, exactly
        once, and the maps are empty. */
    lemma AllCalledBack()
      requires Valid() && Quiet()
      ensures NothingOpen()
    {
      hide IsNetRun, MadeBy, Apart, Linked, FiredBy, Quiet, Buffers.Inlets.Valid, Good, AllStill, Made,
        Owned, CallsOf, Need, OnWire, AgentsInStep, NothingOpen;
      QuietStill();
      AllStillEmpty(Now());
      EmptyNothingOpen();
    }

    /** A deployment does not get stuck: so it is also where nothing can happen any more but
        new requests. */
    lemma SettledCalledBack()
      requires Valid() && MeshProgress.Quiet(Now())
      ensures NothingOpen()
    {
      hide IsNetRun, Good, NothingOpen, MeshProgress.Quiet, MeshProgress.Rests, InStep, Linked, Apart, KeyFits,
        Buffers.Inlets.Valid, Owned;
      MeshProgress.RunRests(keys, nets, events, |nets| - 1);
      MeshProgress.QuietEmpty(Now());
      EmptyNothingOpen();
    }

    /** Every request has had its callback from its client, and the maps are empty. */
    ghost predicate NothingOpen()
      requires Valid()
      reads *
    {
      && (forall k | 0 <= k < |Now().issued| :: CalledBack(log, k, Now().issued[k].line))
      && (forall c | 0 <= c < |clients| :: clients[c].callbacks == map[] && clients[c].contexts == map[])
      && hub.callbacks == map[] && hub.contexts == map[]
    }

    lemma EmptyNothingOpen()
      requires Valid() && Empty(Abs(Now()))
      ensures NothingOpen()
    {
      hide IsNetRun, MadeBy, Apart, Linked, FiredBy, Buffers.Inlets.Valid, Good, Made, Owned, CallsOf, Need,
        OnWire, AgentsInStep, Empty, Abs;
      StaysGood();
      AllDone(Now());
      forall k | 0 <= k < |Now().issued| ensures CalledBack(log, k, Now().issued[k].line) {
        LogHas(Now(), log, k);
      }
      forall c | 0 <= c < |clients| ensures clients[c].callbacks == map[] && clients[c].contexts == map[] {
        assert ClientInStep(clients[c], Now().lines[c], upTaken[c], MadeBy(log, c));
      }
    }

    /** Objects that share nothing and have done nothing yet. */
    constructor (keys: seq<Key>, clients: seq<PaClient.PaClient>, contexts: seq<ProviderAgent.StreamContext>,
                 inlets: Buffers.Inlets, hub: DubboClient.DubboClient, ghost regions: seq<set<object>>)
      requires LinkedUp(keys, clients, contexts, inlets, hub) && InRegions(regions, clients, contexts, hub)
      requires inlets.Valid() && Unused(keys, clients, contexts, hub) && forall k | k in keys :: KeyFits(k)
      ensures Valid() && this.keys == keys && events == []
      ensures this.clients == clients && this.contexts == contexts && this.inlets == inlets && this.hub == hub
    {
      hide ClientsInStep, AgentsInStep, HubInStep, LinkedUp, InRegions, NewNet, IsNetRun, Made, KeyFits,
        Buffers.Inlets.Valid;
      this.keys, this.clients, this.contexts, this.inlets, this.hub := keys, clients, contexts, inlets, hub;
      upTaken, downTaken, outTaken := NothingTaken(|keys|), NothingTaken(|keys|), 0;
      nets, events, log, this.regions := [NewNet(keys)], [], [], regions;
      new;
      StartOfRun(keys);
    }
  }

  // ---------------------------------------------------------------- the start

  /** A receiving end without any buffer. */
  ghost predicate Bare(i: Buffers.Inlet)
    reads i, i.pool
  {
    i.active == null && i.pool.bufs == []
  }

  lemma BareKeeps(i: Buffers.Inlet, r: set<object>)
    requires Bare(i) && {i, i.pool} <= r
    ensures Keeps(i, r)
  {
  }

  method StartClient(ghost keys: seq<Key>, ghost c: nat, key: Key) returns (p: PaClient.PaClient)
    requires c < |keys| && keys[c] == key
    ensures fresh(p) && fresh(p.input) && fresh(p.input.pool) && Bare(p.input)
    ensures ClientInStep(p, NewNet(keys).lines[c], 0, [])
  {
    var pool := new Buffers.BufPool();
    var input := new Buffers.Inlet(pool);
    p := NewClient(keys, c, key, input);
  }

  method StartHub(ghost keys: seq<Key>) returns (p: DubboClient.DubboClient)
    ensures fresh(p) && fresh(p.input) && fresh(p.input.pool) && Bare(p.input) && HubInStep(p, NewNet(keys), 0)
  {
    var pool := new Buffers.BufPool();
    var input := new Buffers.Inlet(pool);
    p := NewHub(keys, input);
  }

  method StartConnection(ghost keys: seq<Key>, c: nat, inlets: Buffers.Inlets, hub: DubboClient.DubboClient)
    returns (p: ProviderAgent.StreamContext)
    requires c < |keys| && inlets.Valid() && inlets.pool.bufs == []
    modifies inlets`all
    ensures inlets.Valid() && inlets.all == old(inlets.all) + [p.input]
    ensures fresh(p) && fresh(p.input) && p.input.pool == inlets.pool && Bare(p.input)
    ensures p.dubbo == hub && p.channel == c && AgentInStep(p, NewNet(keys).lines[c], 0)
  {
    var input := inlets.Connect();
    p := NewAgent(keys, c, input, hub);
  }

  /** Room for one more client, whose region is `x`, and one more connection, with `q`. */
  lemma DisjointInsert(own: seq<set<object>>, h: set<object>, shared: set<object>, x: set<object>, q: set<object>)
    requires Disjoint(own + [h, shared]) && x !! q
    requires forall r | r in own + [h, shared] :: r !! x && r !! q
    ensures Disjoint(own + [x] + [h, shared + q])
  {
    var was, now := own + [h, shared], own + [x] + [h, shared + q];
    var n := |own|;
    assert was[n] == h && was[n + 1] == shared;
    forall i, j | 0 <= i < j < |now| ensures now[i] !! now[j] {
      assert i < n ==> now[i] == was[i] && was[i] in was;
      assert h in was && shared in was;
      assert j < n ==> now[j] == was[j];
    }
  }

  /** The first `c` clients and connections, and the Dubbo client. */
  ghost predicate SetUp(keys: seq<Key>, clients: seq<PaClient.PaClient>, contexts: seq<ProviderAgent.StreamContext>,
                        inlets: Buffers.Inlets, hub: DubboClient.DubboClient)
    reads *
  {
    var lines := NewNet(keys).lines;
    && |clients| == |contexts| == |inlets.all| <= |lines| && inlets.Valid() && inlets.pool.bufs == []
    && (forall j | 0 <= j < |clients| :: Bare(clients[j].input) && ClientInStep(clients[j], lines[j], 0, []))
    && (forall j | 0 <= j < |contexts| ::
          && contexts[j].input == inlets.all[j] && contexts[j].dubbo == hub && contexts[j].channel == j
          && contexts[j].input.pool == inlets.pool && Bare(contexts[j].input) && AgentInStep(contexts[j], lines[j], 0))
    && (forall i, j | 0 <= i < j < |clients| :: clients[i] != clients[j])
    && Bare(hub.input) && HubInStep(hub, NewNet(keys), 0)
  }

  /** Their regions. */
  ghost predicate Allotted(own: seq<set<object>>, h: set<object>, shared: set<object>, clients: seq<PaClient.PaClient>,
                           contexts: seq<ProviderAgent.StreamContext>, inlets: Buffers.Inlets,
                           hub: DubboClient.DubboClient)
  {
    && |own| == |clients| && Disjoint(own + [h, shared])
    && (forall j | 0 <= j < |clients| :: {clients[j].input, clients[j].input.pool} <= own[j])
    && {hub.input, hub.input.pool} <= h && inlets.pool in shared
    && (forall j | 0 <= j < |contexts| :: contexts[j].input in shared)
  }

  /** One more client and its connection. */
  method SetUpOne(keys: seq<Key>, clients: seq<PaClient.PaClient>, contexts: seq<ProviderAgent.StreamContext>,
                  inlets: Buffers.Inlets, hub: DubboClient.DubboClient, ghost own: seq<set<object>>,
                  ghost h: set<object>, ghost shared: set<object>)
    returns (clients': seq<PaClient.PaClient>, contexts': seq<ProviderAgent.StreamContext>,
             ghost own': seq<set<object>>, ghost shared': set<object>)
    requires SetUp(keys, clients, contexts, inlets, hub) && Allotted(own, h, shared, clients, contexts, inlets, hub)
    requires |clients| < |keys| == |NewNet(keys).lines|
    modifies inlets`all
    ensures SetUp(keys, clients', contexts', inlets, hub) && |clients'| == |clients| + 1
    ensures Allotted(own', h, shared', clients', contexts', inlets, hub)
  {
    hide ClientInStep, AgentInStep, HubInStep, NewNet, Buffers.Inlets.Valid, Disjoint, Bare;
    var p := StartClient(keys, |clients|, keys[|clients|]);
    ghost var x: set<object> := {p.input, p.input.pool};
    var q := StartConnection(keys, |clients|, inlets, hub);
    DisjointInsert(own, h, shared, x, {q.input});
    clients', contexts' := clients + [p], contexts + [q];
    own', shared' := own + [x], shared + {q.input};
  }

  /** Everything that a deployment asks for at its start. */
  method Deploy(keys: seq<Key>) returns (d: Deployment)
    requires forall k | k in keys :: KeyFits(k)
    ensures d.Valid() && d.keys == keys && d.events == []
  {
    hide ClientInStep, AgentInStep, HubInStep, NewNet, KeyFits, Buffers.Inlets.Valid, Keeps, Disjoint,
      Unused, LinkedUp, InRegions;
    SizeOf(keys);
    var inlets := new Buffers.Inlets();
    var hub := StartHub(keys);
    var clients: seq<PaClient.PaClient>, contexts: seq<ProviderAgent.StreamContext> := [], [];
    ghost var own: seq<set<object>>, h: set<object>, shared: set<object> :=
      [], {hub.input, hub.input.pool}, {inlets.pool};
    TwoRegions(h, shared);
    for c := 0 to |keys|
      invariant |clients| == c && fresh(inlets) && SetUp(keys, clients, contexts, inlets, hub)
      invariant Allotted(own, h, shared, clients, contexts, inlets, hub)
    {
      clients, contexts, own, shared := SetUpOne(keys, clients, contexts, inlets, hub, own, h, shared);
    }
    Ready(own, h, shared, keys, clients, contexts, inlets, hub);
    d := new Deployment(keys, clients, contexts, inlets, hub, own + [h, shared]);
  }

  lemma SizeOf(keys: seq<Key>)
    ensures |NewNet(keys).lines| == |keys|
  {
  }

  lemma TwoRegions(h: set<object>, shared: set<object>)
    requires h !! shared
    ensures Disjoint([] + [h, shared])
  {
  }

  lemma Ready(own: seq<set<object>>, h: set<object>, shared: set<object>, keys: seq<Key>,
              clients: seq<PaClient.PaClient>, contexts: seq<ProviderAgent.StreamContext>, inlets: Buffers.Inlets,
              hub: DubboClient.DubboClient)
    requires SetUp(keys, clients, contexts, inlets, hub) && Allotted(own, h, shared, clients, contexts, inlets, hub)
    requires |clients| == |keys| == |NewNet(keys).lines|
    ensures LinkedUp(keys, clients, contexts, inlets, hub) && InRegions(own + [h, shared], clients, contexts, hub)
    ensures Unused(keys, clients, contexts, hub)
  {
    hide ClientInStep, AgentInStep, HubInStep, NewNet, Buffers.Inlets.Valid, Keeps, Disjoint, Bare;
    var rs := own + [h, shared];
    assert rs[|own|] == h && rs[|own| + 1] == shared;
    forall j | 0 <= j < |clients| ensures Keeps(clients[j].input, rs[j]) { BareKeeps(clients[j].input, own[j]); }
    BareKeeps(hub.input, h);
    forall j | 0 <= j < |contexts| ensures Keeps(contexts[j].input, shared) { BareKeeps(contexts[j].input, shared); }
    assert forall j :: MadeBy([], j) == [];
  }
}
