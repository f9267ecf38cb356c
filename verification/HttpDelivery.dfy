/** The incremental parser on real traffic: any pipelined requests, in any pieces, with
    any pauses, are delivered exactly. */
module HttpDelivery {
  import opened HttpChars
  import opened HttpMachine
  import opened HttpRun
  import opened HttpGrammar
  import opened HttpOutlook
  import opened HttpParser
  import opened HttpSplit
  import opened HttpText
  import opened HttpMessage
  import opened HttpRoundTrip

  /** Requests of a connection that stays open, and speaks HTTP. */
  ghost predicate ValidStream(qs: seq<Request>) {
    forall q | q in qs :: ValidRequest(q) && StaysOpen(q) && !Upgrades(q)
  }

  /** A parser at a message boundary whose headers have room for the text. */
  ghost predicate CanTake(cfg: Settings, a: Snapshot, text: string) {
    && Ready(a) && a.core.state.StartReq? && TakesBodies(cfg)
    && Meter(cfg, false, a.nread, RunOf(a), text).peak <= MAX_HEADER_SIZE
  }

  /** Cut into any non-empty buffers, a stream of requests makes exactly its callbacks. */
  lemma StreamDelivered(cfg: Settings, qs: seq<Request>, pieces: seq<string>, ss: seq<Snapshot>)
    requires ValidStream(qs) && AllNonEmpty(pieces) && Concat(pieces) == RenderStream(qs)
    requires Runs(cfg, ss, pieces) && CanTake(cfg, ss[0], RenderStream(qs))
    ensures forall s | s in ss :: s.errno.Ok?
    ensures var z := ss[|ss| - 1];
        MakesUp(z.calls, ss[0].calls, StreamEvents(qs)) && z.core.state.StartReq?
  {
    var r := RunOf(ss[0]);
    StreamListed(r.trace, qs);
    var z := StreamParsed(cfg, r, qs);
    CheckedLegal(cfg, r, RenderStream(qs));
    PiecesAccepted(cfg, z, Meter(cfg, false, ss[0].nread, r, RenderStream(qs)).last, pieces, ss);
  }

  /** The same with callbacks that pause the parser whenever they like, each call being
      given what the last one left: the requests are delivered exactly, if and only if
      on_headers_complete never pauses on headers that fill the limit. */
  lemma StreamDeliveredPaused(cfg: Settings, qs: seq<Request>, ss: seq<Snapshot>, todos: seq<seq<string>>)
    requires ValidStream(qs) && PausedRun(cfg, ss, todos)
    requires AllNonEmpty(todos[0]) && Concat(todos[0]) == RenderStream(qs) && CanTake(cfg, ss[0], RenderStream(qs))
    ensures AllOk(ss) <==> NeverFull(ss)
    ensures var z := ss[|ss| - 1];
        AllOk(ss) && todos[|ss| - 1] == [] ==>
          MakesUp(z.calls, ss[0].calls, StreamEvents(qs)) && z.core.state.StartReq?
  {
    hide Feed, Meter, Handed, Eats, Ready, RenderStream, StreamEvents, EmitAll, Full, Merge, ValidRequest, TakesBodies,
      Concat, FeedAll, MeterAll, Checked, ValueBytesLegal, AllNonEmpty;
    var r := RunOf(ss[0]);
    RoomFor(cfg, ss[0], RenderStream(qs));
    StreamListed(r.trace, qs);
    var z := StreamParsed(cfg, r, qs);
    EatsFed(cfg, r, RenderStream(qs), z);
    CheckedLegal(cfg, r, RenderStream(qs));
    SplitsAgree(cfg, r, todos[0]);
    SplitsMeter(cfg, ss[0].nread, r, todos[0]);
    PauseTransparency(cfg, z, ss, todos);
  }

  lemma RoomFor(cfg: Settings, a: Snapshot, text: string)
    requires CanTake(cfg, a, text)
    ensures a.errno.Ok? && RunOf(a).core.state.StartReq? && TakesBodies(cfg)
    ensures Meter(cfg, false, a.nread, RunOf(a), text).peak <= MAX_HEADER_SIZE
  {
  }

  // ---------------------------------------------------------------- the loop of a caller

  type Callbacks = seq<Event> -> Answer

  ghost predicate NoneFails(answers: Callbacks) {
    forall cs :: !answers(cs).Refuse?
  }

  ghost predicate NonePauses(answers: Callbacks) {
    forall cs :: answers(cs).Proceed?
  }

  ghost predicate Buffers(pieces: seq<string>) {
    forall x | x in pieces :: 0 < |x| < BUFFER_LIMIT
  }

  /** The state that a caller leaves the parser in: a paused one is set going again. */
  function Unpaused(s: Snapshot): Snapshot {
    if s.errno.Paused? then s.(errno := Ok) else s
  }

  lemma CallAdvances(cfg: Settings, a: Snapshot, data: string, n: nat, t: Snapshot, answers: Callbacks)
    requires a.errno.Ok? && data != [] && NoneFails(answers)
    requires Executed(cfg, a, data, n, t) && Obeys(answers, a.calls, t.calls, t.errno)
    ensures n <= |data| && Resumed(cfg, a, data, Unpaused(t), data[n..])
    ensures Unpaused(t).errno.Ok? && n == 0 ==> Rank(t.core.state) < Rank(a.core.state)
    ensures Unpaused(t).errno.Ok? && NonePauses(answers) ==> !t.core.state.HeadersDone?
  {
    hide Ahead, Meets, Eases, Stops, Full, Completed, JustAnnounced, Rank;
    StillGoing(cfg, a, data, n, t);
  }

  lemma StillGoing(cfg: Settings, a: Snapshot, data: string, n: nat, t: Snapshot)
    requires a.errno.Ok? && data != [] && Executed(cfg, a, data, n, t)
    ensures n <= |data|
    ensures t.errno.Ok? || t.errno.Paused? ==> n == 0 ==> Rank(t.core.state) < Rank(a.core.state)
    ensures t.errno.Ok? ==> !t.core.state.HeadersDone?
  {
    hide Ahead, Meets, Eases, Stops, Full, Rank;
  }

  lemma LessToDo(todo: seq<string>, n: nat)
    requires todo != [] && n <= |todo[0]| && Buffers(todo)
    ensures var next := Left(todo[0][n..], todo[1..]); Buffers(next) && |Concat(next)| == |Concat(todo)| - n
  {
    assert todo[0] in todo;
    forall x | x in todo[1..] ensures x in todo {}
    var rest := todo[0][n..];
    if rest != [] { assert ([rest] + todo[1..])[1..] == todo[1..]; }
  }

  lemma RankBounded(s: State)
    ensures Rank(s) < 4
  {
  }

  lemma HandedOver(cfg: Settings, a: Snapshot, todo: seq<string>, n: nat, t: Snapshot, answers: Callbacks)
    requires a.errno.Ok? && Buffers(todo) && todo != [] && NoneFails(answers)
    requires Executed(cfg, a, todo[0], n, t) && Obeys(answers, a.calls, t.calls, t.errno)
    ensures n <= |todo[0]| && var next := Left(todo[0][n..], todo[1..]);
        && Handed(cfg, a, todo, Unpaused(t), next) && Buffers(next)
        && (Unpaused(t).errno.Ok? ==> Effort(Unpaused(t), next) < Effort(a, todo))
    ensures Unpaused(t).errno.Ok? && NonePauses(answers) ==> !t.core.state.HeadersDone?
  {
    hide Resumed, Executed, Obeys, NoneFails, NonePauses, Rank, Concat, Left;
    assert todo[0] in todo;
    CallAdvances(cfg, a, todo[0], n, t, answers);
    LessToDo(todo, n);
    RankBounded(t.core.state);
    RankBounded(a.core.state);
  }

  lemma RunGrows(cfg: Settings, ss: seq<Snapshot>, todos: seq<seq<string>>, b: Snapshot, next: seq<string>)
    requires PausedRun(cfg, ss, todos) && Handed(cfg, ss[|ss| - 1], todos[|ss| - 1], b, next)
    ensures PausedRun(cfg, ss + [b], todos + [next])
  {
    hide Handed;
  }

  lemma StartsOpen(cfg: Settings, a: Snapshot, text: string, pieces: seq<string>)
    requires CanTake(cfg, a, text) && Buffers(pieces)
    ensures !a.core.state.HeadersDone? && AllNonEmpty(pieces)
  {
  }

  lemma OnlyLast(ss: seq<Snapshot>)
    requires ss != [] && forall i | 0 <= i < |ss| - 1 :: ss[i].errno.Ok?
    ensures AllOk(ss) <==> ss[|ss| - 1].errno.Ok?
  {
    assert ss[|ss| - 1] in ss;
  }

  /** Buffers are handed over one after the other, each as often as it takes: a paused parser
      is set going again and given what it left. */
  method HandOver(p: HttpParser, pieces: seq<string>, answers: Callbacks)
      returns (ghost ss: seq<Snapshot>, ghost todos: seq<seq<string>>)
    requires p.Valid() && p.errno.Ok? && Buffers(pieces) && NoneFails(answers)
    modifies p
    ensures p.Valid() && PausedRun(p.settings, ss, todos)
    ensures ss[0] == old(p.Snap()) && todos[0] == pieces && ss[|ss| - 1] == p.Snap()
    ensures forall i | 0 <= i < |ss| - 1 :: ss[i].errno.Ok?
    ensures p.errno.Ok? ==> todos[|ss| - 1] == []
    ensures NonePauses(answers) && !old(p.state).HeadersDone? ==> NeverFull(ss)
  {
    hide Executed, Handed, Obeys, NoneFails, NonePauses, Merge, InGrammar, Grammatical, Left, Concat, Rank;
    var todo := pieces;
    ss, todos := [p.Snap()], [pieces];
    while todo != [] && p.errno.Ok?
      invariant p.Valid() && !p.errno.Paused? && Buffers(todo)
      invariant PausedRun(p.settings, ss, todos)
      invariant ss[0] == old(p.Snap()) && todos[0] == pieces
      invariant ss[|ss| - 1] == p.Snap() && todos[|ss| - 1] == todo
      invariant forall i | 0 <= i < |ss| - 1 :: ss[i].errno.Ok?
      invariant NonePauses(answers) && !old(p.state).HeadersDone? ==>
          NeverFull(ss) && (p.errno.Ok? ==> !p.state.HeadersDone?)
      decreases p.errno.Ok?, Effort(p.Snap(), todo)
    {
      assert todo[0] in todo;
      ghost var a := p.Snap();
      var n := p.Execute(todo[0], answers);
      ghost var t := p.Snap();
      HandedOver(p.settings, a, todo, n, t, answers);
      if p.errno.Paused? { p.SetPaused(false); }
      todo := Left(todo[0][n..], todo[1..]);
      RunGrows(p.settings, ss, todos, p.Snap(), todo);
      ss, todos := ss + [p.Snap()], todos + [todo];
    }
  }

  /** Handed over in any buffers, with callbacks that pause as they like, a stream of
      requests makes exactly its callbacks, unless the parser is resumed after
      on_headers_complete paused it on headers that fill the limit. */
  method Deliver(p: HttpParser, qs: seq<Request>, pieces: seq<string>, answers: Callbacks)
      returns (ghost ss: seq<Snapshot>)
    requires p.Valid() && ValidStream(qs) && CanTake(p.settings, p.Snap(), RenderStream(qs))
    requires Buffers(pieces) && Concat(pieces) == RenderStream(qs) && NoneFails(answers)
    modifies p
    ensures p.Valid() && (p.errno.Ok? <==> NeverFull(ss)) && (NonePauses(answers) ==> p.errno.Ok?)
    ensures p.errno.Ok? ==>
        p.state.StartReq? && MakesUp(p.calls, old(p.calls), StreamEvents(qs))
  {
    hide Executed, Handed, Obeys, NoneFails, NonePauses, Merge, InGrammar, Grammatical, ValidRequest, RenderStream,
      StreamEvents, MakesUp, Meter, Concat;
    ghost var todos;
    ss, todos := HandOver(p, pieces, answers);
    OnlyLast(ss);
    StartsOpen(p.settings, ss[0], RenderStream(qs), pieces);
    StreamDeliveredPaused(p.settings, qs, ss, todos);
  }
}
