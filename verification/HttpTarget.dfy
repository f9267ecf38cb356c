/** The target of a request: the machine takes exactly the texts of the URL grammar. */
module HttpTarget {
  import opened HttpChars
  import opened HttpMachine
  import opened HttpRun
  import opened HttpText
  import opened UrlGrammar

  /** A path or an absolute URL, or host and port for CONNECT; there must be something behind
      "://".  What the authority is made of is not looked at closely. */
  ghost predicate ValidTarget(connect: bool, u: string) {
    u != [] && exists t: Target :: CompleteTarget(connect, t) && Text(t) == u
  }

  predicate CompleteTarget(connect: bool, t: Target) {
    && Front(connect, t) && Flows(t.authority) && Tail(t)
    && (t.scheme != [] ==> t.authority != [] || t.path != [] || t.mark)
  }

  lemma RootTarget()
    ensures ValidTarget(false, "/")
  {
    var t := BLANK.(path := "/");
    assert CompleteTarget(false, t) && Text(t) == "/";
  }

  // ---------------------------------------------------------------- the states behind it

  predicate TargetEnds(s: State) {
    UrlState(s) && !s.ReqSchema? && !s.ReqSchemaSlash? && !s.ReqSchemaSlashSlash? && !s.ReqServerStart?
  }

  /** The state of the URL machine after `u`. */
  function TargetState(connect: bool, u: string): State { Advance(Start(connect), u).state }

  lemma TargetStateMore(connect: bool, u: string, ch: char)
    ensures TargetState(connect, u + [ch]) == ParseUrlChar(TargetState(connect, u), ch)
  {
    AdvanceSnoc(Start(connect), u, ch);
  }

  lemma {:induction false} AuthorityReached(connect: bool, u: string)
    ensures var g := Advance(Start(connect), u); !g.state.Dead? ==> Flows(g.target.authority)
    decreases |u|
  {
    if u != [] {
      hide Reached;
      var n := |u| - 1;
      var g := Advance(Start(connect), u[..n]);
      AuthorityReached(connect, u[..n]);
      ReachedText(connect, u[..n]);
      if !g.state.Dead? { AuthorityStep(connect, g, u[n]); }
    }
  }

  lemma AuthorityStep(connect: bool, g: Progress, ch: char)
    requires Reached(connect, g) && Flows(g.target.authority)
    ensures var h := UrlGrammar.Step(g, ch); !h.state.Dead? ==> Flows(h.target.authority)
  {
    hide Text;
    var a, s := g.target.authority, ParseUrlChar(g.state, ch);
    if s.ReqServer? || s.ReqServerWithAt? {
      ReachedStep(connect, g, ch);
      assert forall i | 0 <= i < |a| :: (a + [ch])[i] == a[i];
    }
  }

  /** A target may end exactly where the grammar says that it is complete. */
  lemma TargetExact(connect: bool, u: string)
    requires u != []
    ensures TargetEnds(TargetState(connect, u)) <==> ValidTarget(connect, u)
  {
    hide Text, Advance, Flows, Tail;
    var g := Advance(Start(connect), u);
    ReachedText(connect, u);
    AuthorityReached(connect, u);
    NotAtStart(connect, u);
    if TargetEnds(g.state) {
      EndIsComplete(connect, g);
      assert CompleteTarget(connect, g.target);
    }
    if t: Target :| CompleteTarget(connect, t) && Text(t) == u {
      TargetRead(connect, t);
      CompleteEnds(connect, g, u);
    }
  }

  lemma NotAtStart(connect: bool, u: string)
    requires u != []
    ensures !TargetState(connect, u).ReqSpacesBeforeUrl?
    ensures connect ==> !TargetState(connect, u).ReqServerStart?
  {
    hide Advance, Text, Front, Tail;
    var n := |u| - 1;
    assert u == u[..n] + [u[n]];
    ReachedText(connect, u[..n]);
    TargetStateMore(connect, u[..n], u[n]);
  }

  lemma EndIsComplete(connect: bool, g: Progress)
    requires Reached(connect, g) && TargetEnds(g.state) && Flows(g.target.authority)
    ensures CompleteTarget(connect, g.target)
  {
    hide Flows;
  }

  lemma CompleteEnds(connect: bool, g: Progress, u: string)
    requires Reached(connect, g) && CompleteTarget(connect, g.target) && !g.state.ReqSpacesBeforeUrl?
    requires connect ==> !g.state.ReqServerStart?
    ensures TargetEnds(g.state)
  {
    hide Flows;
  }

  // ---------------------------------------------------------------- reading it

  function TargetSeen(r: Run, u: string): Run {
    Run(r.core.(state := TargetState(r.core.verb.CONNECT?, u)), Emit(r.trace, Data(Url, u)))
  }

  lemma {:induction false} TargetEaten(cfg: Settings, r: Run, u: string)
    requires r.core.state.ReqSpacesBeforeUrl? && !TargetState(r.core.verb.CONNECT?, u).Dead? && u != [] && u[0] != ' '
    ensures Eats(cfg, r, u, TargetSeen(r, u))
    decreases |u|
  {
    hide Eats, TargetSeen;
    var n := |u| - 1;
    var v, ch := u[..n], u[n];
    assert u == v + [ch];
    TargetStateMore(r.core.verb.CONNECT?, v, ch);
    if n == 0 {
      assert u == [ch] && v == [];
      TargetFirst(cfg, r, ch);
    } else {
      assert v[0] == u[0];
      TargetEaten(cfg, r, v);
      TargetNext(cfg, r, v, ch);
      EatsThen(cfg, r, v, TargetSeen(r, v), [ch], TargetSeen(r, u));
    }
  }

  lemma TargetFirst(cfg: Settings, r: Run, ch: char)
    requires r.core.state.ReqSpacesBeforeUrl? && ch != ' '
    ensures var s := TargetState(r.core.verb.CONNECT?, [ch]);
        if s.Dead? then Feed(cfg, false, r, [ch]) == Failed(InvalidUrl) else Eats(cfg, r, [ch], TargetSeen(r, [ch]))
  {
    TargetStateMore(r.core.verb.CONNECT?, [], ch);
    assert [] + [ch] == [ch];
    UrlCharRead(cfg, r, ch);
    hide TargetState;
  }

  /** The first character of a target, or another one. */
  lemma UrlCharRead(cfg: Settings, r: Run, ch: char)
    requires ch != ' ' && (r.core.state.ReqSpacesBeforeUrl? || (UrlState(r.core.state) && ch != CR && ch != LF))
    ensures var s := ParseUrlChar(if r.core.state.ReqSpacesBeforeUrl? then Start(r.core.verb.CONNECT?).state
                                  else r.core.state, ch);
        if s.Dead? then Feed(cfg, false, r, [ch]) == Failed(InvalidUrl)
        else Eats(cfg, r, [ch], Run(r.core.(state := s), Emit(r.trace, Data(Url, [ch]))))
  {
    hide ParseUrlChar, Emit;
    assert [ch][1..] == [] && View(cfg, false) == cfg;
    var s := ParseUrlChar(if r.core.state.ReqSpacesBeforeUrl? then Start(r.core.verb.CONNECT?).state
                          else r.core.state, ch);
    if !s.Dead? { EatsChar(cfg, r, ch, Run(r.core.(state := s), Emit(r.trace, Data(Url, [ch]))), false); }
  }

  lemma TargetNext(cfg: Settings, r: Run, v: string, ch: char)
    requires v != [] && !TargetState(r.core.verb.CONNECT?, v).Dead? && ch != ' ' && ch != CR && ch != LF
    ensures var s := TargetState(r.core.verb.CONNECT?, v + [ch]);
        if s.Dead? then Feed(cfg, false, TargetSeen(r, v), [ch]) == Failed(InvalidUrl)
        else Eats(cfg, TargetSeen(r, v), [ch], TargetSeen(r, v + [ch]))
  {
    var u, x := v + [ch], TargetSeen(r, v);
    TargetStateMore(r.core.verb.CONNECT?, v, ch);
    LiveTarget(r.core.verb.CONNECT?, v);
    hide TargetState;
    EmitTwice(r.trace, Url, v, [ch]);
    UrlCharRead(cfg, x, ch);
  }

  /** A target under way is in a URL state. */
  lemma LiveTarget(connect: bool, v: string)
    requires v != [] && !TargetState(connect, v).Dead?
    ensures UrlState(TargetState(connect, v))
  {
    ReachedText(connect, v);
    NotAtStart(connect, v);
  }

  lemma {:induction false} TargetRefused(cfg: Settings, r: Run, u: string)
    requires r.core.state.ReqSpacesBeforeUrl? && u != [] && ' ' !in u && CR !in u && LF !in u
    requires TargetState(r.core.verb.CONNECT?, u).Dead?
    ensures Feed(cfg, false, r, u) == Failed(InvalidUrl)
    decreases |u|
  {
    hide TargetState, Feed, TargetSeen;
    var n := |u| - 1;
    var v, ch := u[..n], u[n];
    assert u == v + [ch] && ch in u && u[0] in u;
    if n == 0 {
      assert u == [ch];
      TargetFirst(cfg, r, ch);
    } else {
      assert v[0] == u[0] && forall c | c in v :: c in u;
      FeedOn(cfg, false, r, v, [ch]);
      if TargetState(r.core.verb.CONNECT?, v).Dead? {
        TargetRefused(cfg, r, v);
      } else {
        TargetEaten(cfg, r, v);
        EatsFed(cfg, r, v, TargetSeen(r, v));
        TargetNext(cfg, r, v, ch);
      }
    }
  }

  lemma StartsVisible(connect: bool, u: string)
    requires u != [] && !TargetState(connect, u).Dead?
    ensures u[0] != ' '
  {
    if u[0] == ' ' {
      TargetStateMore(connect, [], ' ');
      assert [] + [' '] == [' '] && u == [' '] + u[1..];
      DeadStays(Start(connect), [' '], u[1..]);
    }
  }

  lemma TargetAccepted(cfg: Settings, r: Run, u: string)
    requires r.core.state.ReqSpacesBeforeUrl? && ValidTarget(r.core.verb.CONNECT?, u)
    ensures Eats(cfg, r, u + " ", Run(r.core.(state := ReqHttpStart), Emit(r.trace, Data(Url, u))))
  {
    hide TargetState, Feed, Eats, CompleteTarget;
    var connect := r.core.verb.CONNECT?;
    TargetExact(connect, u);
    StartsVisible(connect, u);
    TargetEaten(cfg, r, u);
    BlankBehind(cfg, r, u);
    EatsThen(cfg, r, u, TargetSeen(r, u), " ", Run(r.core.(state := ReqHttpStart), Emit(r.trace, Data(Url, u))));
  }

  /** A text and a blank are taken as a target if and only if the grammar says so; else the
      URL is reported as invalid. */
  lemma TargetTaken(cfg: Settings, r: Run, u: string)
    requires r.core.state.ReqSpacesBeforeUrl? && u != [] && ' ' !in u && CR !in u && LF !in u
    ensures if ValidTarget(r.core.verb.CONNECT?, u) then
          Eats(cfg, r, u + " ", Run(r.core.(state := ReqHttpStart), Emit(r.trace, Data(Url, u))))
        else Feed(cfg, false, r, u + " ") == Failed(InvalidUrl)
  {
    hide TargetState, Feed, Eats, ValidTarget;
    var connect := r.core.verb.CONNECT?;
    TargetExact(connect, u);
    assert u[0] in u;
    if ValidTarget(connect, u) {
      TargetAccepted(cfg, r, u);
    } else if TargetState(connect, u).Dead? {
      FeedOn(cfg, false, r, u, " ");
      TargetRefused(cfg, r, u);
    } else {
      LiveTarget(connect, u);
      TargetEaten(cfg, r, u);
      EatsOn(cfg, r, u, TargetSeen(r, u), " ");
      BlankBehind(cfg, r, u);
    }
  }

  lemma EatsOn(cfg: Settings, r: Run, a: string, x: Run, b: string)
    requires Eats(cfg, r, a, x)
    ensures Feed(cfg, false, r, a + b) == Feed(cfg, false, x, b)
  {
    hide Feed, SkippingAfter, Checked;
    FeedOn(cfg, false, r, a, b);
  }

  lemma BlankBehind(cfg: Settings, r: Run, u: string)
    requires UrlState(TargetState(r.core.verb.CONNECT?, u))
    ensures var x, z := TargetSeen(r, u), Run(r.core.(state := ReqHttpStart), Emit(r.trace, Data(Url, u)));
        if TargetEnds(x.core.state) then Eats(cfg, x, " ", z) else Feed(cfg, false, x, " ") == Failed(InvalidUrl)
  {
    hide TargetState;
    var x, z := TargetSeen(r, u), Run(r.core.(state := ReqHttpStart), Emit(r.trace, Data(Url, u)));
    assert " "[1..] == [] && View(cfg, false) == cfg;
    if TargetEnds(x.core.state) { EatsChar(cfg, x, ' ', z, false); }
  }
}
