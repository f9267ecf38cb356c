/** How HTTP ends on a connection: with a request that closes it, or with one that turns it into
    something else.  What comes behind is refused, or left to the caller. */
module HttpEndings {
  import opened HttpChars
  import opened HttpMachine
  import opened HttpRun
  import opened HttpGrammar
  import opened HttpOutlook
  import opened HttpParser
  import opened HttpSplit
  import opened HttpText
  import opened HttpMessage
  import opened HttpRoundTrip
  import opened HttpDelivery

  /** A stream that ends with `q`. */
  function RenderUpTo(qs: seq<Request>, q: Request): string { RenderStream(qs) + Render(q) }

  function EventsUpTo(qs: seq<Request>, q: Request): seq<Event> { StreamEvents(qs) + Events(q) }

  lemma UpToParsed(cfg: Settings, r: Run, qs: seq<Request>, q: Request) returns (z: Run)
    requires r.core.state.StartReq? && TakesBodies(cfg) && ValidStream(qs) && ValidRequest(q)
    ensures EatsLast(cfg, r, RenderUpTo(qs, q), z, Upgrades(q))
    ensures z.trace == EmitAll(r.trace, EventsUpTo(qs, q))
    ensures z.core.state == (if StaysOpen(q) then StartReq else Dead) && z.core.upgrade == Upgrades(q)
  {
    hide Eats, EatsLast;
    var y := StreamParsed(cfg, r, qs);
    z := RequestParsed(cfg, y, q);
    EatsThenLast(cfg, r, RenderStream(qs), y, Render(q), z, Upgrades(q));
    EmitAllConcat(r.trace, StreamEvents(qs), Events(q));
  }

  lemma UpToListed(tr: Trace, qs: seq<Request>, q: Request)
    ensures Listed(EmitAll(tr, EventsUpTo(qs, q))) == Listed(tr) + EventsUpTo(qs, q)
  {
    hide StreamEvents, Events, EmitAll, Listed, Apart;
    StreamApart(qs);
    EventsApart(q);
    ApartConcat(StreamEvents(qs), Events(q));
    EmitAllListed(tr, EventsUpTo(qs, q));
  }

  /** The last thing that a request reports is its completion. */
  lemma EndsComplete(tr: Trace, qs: seq<Request>, q: Request)
    ensures var t := EmitAll(tr, EventsUpTo(qs, q)); t.Snoc? && t.last.MessageComplete?
  {
    var es := EventsUpTo(qs, q);
    var front := StreamEvents(qs) + (HeadEvents(q) + ([HeadersCompleteFor(q)] + ContentEvents(q.content)));
    assert es == front + [MessageComplete];
    EmitAllConcat(tr, front, [MessageComplete]);
    EmitOne(EmitAll(tr, front), MessageComplete);
  }

  // ---------------------------------------------------------------- closed

  /** Behind a request that closes the connection line ends are ignored, and anything else is
      an error, at once. */
  lemma ClosedParsed(cfg: Settings, r: Run, qs: seq<Request>, q: Request, x: string) returns (z: Run)
    requires r.core.state.StartReq? && TakesBodies(cfg) && ValidStream(qs)
    requires ValidRequest(q) && !StaysOpen(q) && !Upgrades(q)
    ensures z.trace == EmitAll(r.trace, EventsUpTo(qs, q)) && z.core.state.Dead?
    ensures var text := RenderUpTo(qs, q) + x;
        && Checked(cfg, r, text)
        && if OnlyLineEnds(x) then Eats(cfg, r, text, z)
           else Feed(cfg, false, r, text) == Failed(ClosedConnection) && Seen(cfg, false, r, text) == z.trace
  {
    hide Feed, Seen, Checked, SkippingAfter, Beyond, ValidRequest, StaysOpen, TakesBodies;
    var text := RenderUpTo(qs, q);
    z := UpToParsed(cfg, r, qs, q);
    DeadFeeds(cfg, z, x);
    if OnlyLineEnds(x) {
      EatsThen(cfg, r, text, z, x, z);
    } else {
      FeedOn(cfg, false, r, text, x);
      SeenOn(cfg, false, r, text, x);
      CheckedConcat(cfg, false, r, text, x);
    }
  }

  /** The same for calls of the parser, with the stream cut into any buffers: exactly the
      callbacks of the requests are made, and the error is that of a closed connection. */
  lemma ClosedDelivered(cfg: Settings, qs: seq<Request>, q: Request, x: string, pieces: seq<string>, ss: seq<Snapshot>)
    requires ValidStream(qs) && ValidRequest(q) && !StaysOpen(q) && !Upgrades(q)
    requires AllNonEmpty(pieces) && Concat(pieces) == RenderUpTo(qs, q) + x
    requires Runs(cfg, ss, pieces) && CanTake(cfg, ss[0], RenderUpTo(qs, q) + x)
    ensures var z := ss[|ss| - 1];
        && MakesUp(z.calls, ss[0].calls, EventsUpTo(qs, q))
        && if OnlyLineEnds(x) then AllOk(ss) && z.core.state.Dead? else z.errno.ClosedConnection?
  {
    hide Feed, Meter, Seen, Eats, Merge, EmitAll, RenderUpTo, EventsUpTo, Concat, OnlyLineEnds, ValidRequest,
      StaysOpen, Upgrades, TakesBodies, AllNonEmpty;
    var r, text := RunOf(ss[0]), RenderUpTo(qs, q) + x;
    var z := ClosedParsed(cfg, r, qs, q, x);
    UpToListed(r.trace, qs, q);
    CheckedLegal(cfg, r, text);
    if OnlyLineEnds(x) {
      EatsFed(cfg, r, text, z);
      PiecesAccepted(cfg, z, Meter(cfg, false, ss[0].nread, r, text).last, pieces, ss);
    } else {
      RefusedInPieces(cfg, pieces, ss);
      EndsComplete(r.trace, qs, q);
      NothingUnderWay(ss[|ss| - 1].calls, z.trace);
    }
  }

  lemma NothingUnderWay(calls: seq<Event>, tr: Trace)
    requires Kept(calls, tr) && tr.Snoc? && tr.last.MessageComplete?
    ensures Merge(calls) == tr
  {
  }

  // ---------------------------------------------------------------- upgraded

  /** A call with a stream that ends in an upgrade returns where the last request ends, having
      made exactly the callbacks of the requests: what follows is for the caller. */
  lemma UpgradeDelivered(cfg: Settings, qs: seq<Request>, q: Request, x: string, a: Snapshot, n: nat, b: Snapshot)
    requires ValidStream(qs) && ValidRequest(q) && Upgrades(q) && CanTake(cfg, a, RenderUpTo(qs, q) + x)
    requires Executed(cfg, a, RenderUpTo(qs, q) + x, n, b) && !b.errno.Paused? && !b.errno.CbFailed?
    ensures b.errno.Ok? && n == |RenderUpTo(qs, q)| && b.core.upgrade
    ensures MakesUp(b.calls, a.calls, EventsUpTo(qs, q))
  {
    hide Feed, Meter, Seen, Merge, EmitAll, RenderUpTo, EventsUpTo, ValidRequest, StaysOpen, Upgrades, TakesBodies,
      Beyond, SkippingAfter, Checked, Kept;
    var r, text := RunOf(a), RenderUpTo(qs, q);
    var z := UpToParsed(cfg, r, qs, q);
    UpToListed(r.trace, qs, q);
    BeyondOn(cfg, false, r, text, x);
    assert text + x != [];
  }
}
