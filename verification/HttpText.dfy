/** What the machine makes of the words of a request: the method, header names, and the
    decimal and hexadecimal lengths. */
module HttpText {
  import opened Ascii
  import opened HttpChars
  import opened HttpMachine
  import opened HttpRun

  // ---------------------------------------------------------------- text that is consumed

  /** The machine takes the whole of `s` and is then in `r'`, not skipping; no byte of it owes
      its acceptance to a skip; and the connection is HTTP up to its end. */
  predicate Eats(cfg: Settings, r: Run, s: string, r': Run) {
    && Feed(cfg, false, r, s) == Fed(r') && !SkippingAfter(cfg, false, r, s) && Checked(cfg, r, s)
    && Beyond(cfg, false, r, s) == Stays
  }

  /** The same, but with the last byte of `s` the connection leaves HTTP if `left` says so. */
  predicate EatsLast(cfg: Settings, r: Run, s: string, r': Run, left: bool) {
    && Feed(cfg, false, r, s) == Fed(r') && !SkippingAfter(cfg, false, r, s) && Checked(cfg, r, s)
    && Beyond(cfg, false, r, s) == if left then Leaves(r', 0) else Stays
  }

  lemma EatsThen(cfg: Settings, r: Run, a: string, r1: Run, b: string, r2: Run)
    requires Eats(cfg, r, a, r1) && Eats(cfg, r1, b, r2)
    ensures Eats(cfg, r, a + b, r2)
  {
    EatsThenLast(cfg, r, a, r1, b, r2, false);
  }

  lemma EatsThenLast(cfg: Settings, r: Run, a: string, r1: Run, b: string, r2: Run, left: bool)
    requires Eats(cfg, r, a, r1) && EatsLast(cfg, r1, b, r2, left)
    ensures EatsLast(cfg, r, a + b, r2, left)
  {
    FeedOn(cfg, false, r, a, b);
    SkippingOn(cfg, false, r, a, b);
    CheckedConcat(cfg, false, r, a, b);
    BeyondOn(cfg, false, r, a, b);
  }

  lemma {:induction false} SkippingOn(cfg: Settings, skipping: bool, r: Run, a: string, b: string)
    requires Feed(cfg, skipping, r, a).Fed?
    ensures SkippingAfter(cfg, skipping, r, a + b) ==
            SkippingAfter(cfg, SkippingAfter(cfg, skipping, r, a), Feed(cfg, skipping, r, a).run, b)
    decreases |a|
  {
    if a == [] {
      assert a + b == b;
    } else {
      assert (a + b)[0] == a[0] && (a + b)[1..] == a[1..] + b;
      var s := Consume(View(cfg, skipping), r, a[0]);
      SkippingOn(cfg, Skips(r.core, a[0]), s.run, a[1..], b);
    }
  }

  lemma EatsChar(cfg: Settings, r: Run, ch: char, r': Run, reset: bool)
    requires Consume(cfg, r, ch) == Next(r', reset) && !Skips(r.core, ch) && !Rejects(cfg, r.core, ch)
    requires !LeavesAt(cfg, r, ch)
    ensures Eats(cfg, r, [ch], r')
  {
    EatsLastChar(cfg, r, ch, r', reset);
  }

  lemma EatsLastChar(cfg: Settings, r: Run, ch: char, r': Run, reset: bool)
    requires Consume(cfg, r, ch) == Next(r', reset) && !Skips(r.core, ch) && !Rejects(cfg, r.core, ch)
    ensures EatsLast(cfg, r, [ch], r', LeavesAt(cfg, r, ch))
  {
    assert View(cfg, false) == cfg;
    var s := [ch];
    assert s[0] == ch && s[1..] == [];
    assert Beyond(cfg, false, r, s) == if LeavesAt(cfg, r, ch) then Leaves(r', 0) else Stays;
    assert Feed(cfg, false, r, s) == Fed(r');
    assert Checked(cfg, r, s);
    assert !SkippingAfter(cfg, false, r, s);
  }

  /** A character that one dispatch consumes. */
  lemma Takes(cfg: Settings, r: Run, ch: char, o: Outcome)
    requires Dispatch(OptionsAt(cfg, r), r.core, ch) == o && o.Move? && !o.again
    requires !r.core.state.HeaderValue? || (!r.core.headerState.General? && IsHeaderChar(ch))
    requires !Exits(r.core)
    ensures Eats(cfg, r, [ch], After(r, o))
  {
    hide Dispatch, Eats, IsHeaderChar;
    EatsChar(cfg, r, ch, After(r, o), ResetsCounter(r.core.state));
  }

  // ---------------------------------------------------------------- the method

  /** The guess after the first `i` characters of the name of `m`. */
  function Route(m: Method, i: nat): Method {
    match m
    case PUT => if i < 2 then POST else m
    case PATCH => if i < 2 then POST else m
    case PROPFIND => if i < 2 then POST else m
    case PROPPATCH => if i < 2 then POST else if i < 5 then PROPFIND else m
    case PURGE => if i < 2 then POST else if i < 3 then PUT else m
    case CHECKOUT => if i < 2 then CONNECT else m
    case COPY => if i < 3 then CONNECT else m
    case MOVE => if i < 2 then MKCOL else m
    case MERGE => if i < 2 then MKCOL else m
    case MSEARCH => if i < 2 then MKCOL else m
    case MKACTIVITY => if i < 3 then MKCOL else m
    case MKCALENDAR => if i < 4 then MKCOL else m
    case SEARCH => if i < 2 then SUBSCRIBE else m
    case SOURCE => if i < 2 then SUBSCRIBE else m
    case REBIND => if i < 3 then REPORT else m
    case LINK => if i < 2 then LOCK else m
    case UNSUBSCRIBE => if i < 3 then UNLOCK else m
    case UNBIND => if i < 3 then UNLOCK else m
    case UNLINK => if i < 4 then UNLOCK else m
    case _ => m
  }

  lemma RouteStarts(m: Method)
    ensures |MethodName(m)| > 1 && FirstGuess(MethodName(m)[0]) == Guess(Route(m, 1))
    ensures Route(m, |MethodName(m)|) == m
  {
  }

  lemma RouteGoesOn(m: Method, i: nat)
    requires 1 <= i < |MethodName(m)|
    ensures NextGuess(Route(m, i), i, MethodName(m)[i]) == Guess(Route(m, i + 1))
  {
  }

  function MethodSeen(r: Run, m: Method, i: nat): Run {
    Run(r.core.(flags := NO_FLAGS, contentLength := ULLONG_MAX, verb := Route(m, i), index := i, state := ReqMethod),
        Emit(r.trace, MessageBegin))
  }

  lemma {:induction false} MethodSoFar(cfg: Settings, r: Run, m: Method, i: nat)
    requires r.core.state.StartReq? && 1 <= i <= |MethodName(m)|
    ensures Eats(cfg, r, MethodName(m)[..i], MethodSeen(r, m, i))
  {
    hide *;
    var name := MethodName(m);
    if i == 1 {
      MethodFirst(cfg, r, m);
      assert name[..1] == [name[0]];
    } else {
      MethodSoFar(cfg, r, m, i - 1);
      MethodLetter(cfg, r, m, i);
      EatsThen(cfg, r, name[..i - 1], MethodSeen(r, m, i - 1), [name[i - 1]], MethodSeen(r, m, i));
      assert name[..i] == name[..i - 1] + [name[i - 1]];
    }
  }

  lemma MethodFirst(cfg: Settings, r: Run, m: Method)
    requires r.core.state.StartReq?
    ensures MethodName(m) != [] && Eats(cfg, r, [MethodName(m)[0]], MethodSeen(r, m, 1))
  {
    hide MethodName, Route, Eats;
    RouteStarts(m);
    NotLineEnd(m);
    Takes(cfg, r, MethodName(m)[0], Dispatch(OptionsAt(cfg, r), r.core, MethodName(m)[0]));
  }

  lemma NotLineEnd(m: Method)
    ensures MethodName(m) != [] && MethodName(m)[0] != CR && MethodName(m)[0] != LF
  {
  }

  lemma MethodLetter(cfg: Settings, r: Run, m: Method, i: nat)
    requires 2 <= i <= |MethodName(m)|
    ensures Eats(cfg, MethodSeen(r, m, i - 1), [MethodName(m)[i - 1]], MethodSeen(r, m, i))
  {
    hide MethodName, Route, NextGuess, Eats;
    RouteGoesOn(m, i - 1);
    NotBlank(m, i - 1);
    var x, ch := MethodSeen(r, m, i - 1), MethodName(m)[i - 1];
    Takes(cfg, x, ch, Dispatch(OptionsAt(cfg, x), x.core, ch));
  }

  lemma NotBlank(m: Method, i: nat)
    requires i < |MethodName(m)|
    ensures MethodName(m)[i] != ' '
  {
  }

  function MethodTaken(r: Run, m: Method): Run {
    Run(r.core.(flags := NO_FLAGS, contentLength := ULLONG_MAX, verb := m, index := |MethodName(m)| + 1,
                state := ReqSpacesBeforeUrl), Emit(r.trace, MessageBegin))
  }

  lemma MethodEaten(cfg: Settings, r: Run, m: Method)
    requires r.core.state.StartReq?
    ensures Eats(cfg, r, MethodName(m) + " ", MethodTaken(r, m))
  {
    hide *;
    var name := MethodName(m);
    RouteStarts(m);
    MethodSoFar(cfg, r, m, |name|);
    assert name[..|name|] == name;
    MethodBlank(cfg, r, m);
    EatsThen(cfg, r, name, MethodSeen(r, m, |name|), [' '], MethodTaken(r, m));
  }

  lemma MethodBlank(cfg: Settings, r: Run, m: Method)
    ensures Eats(cfg, MethodSeen(r, m, |MethodName(m)|), [' '], MethodTaken(r, m))
  {
    hide MethodName, Route, Eats;
    RouteStarts(m);
    var x := MethodSeen(r, m, |MethodName(m)|);
    Takes(cfg, x, ' ', Dispatch(OptionsAt(cfg, x), x.core, ' '));
  }

  predicate StartsWith(name: string, w: string) {
    |w| <= |name| && forall j | 0 <= j < |w| :: name[j] == w[j]
  }

  /** A revised guess agrees with the characters seen so far. */
  lemma GuessAgrees(m: Method, w: string, ch: char)
    requires StartsWith(MethodName(m), w)
    ensures var g := NextGuess(m, |w|, ch); g.Guess? ==> StartsWith(MethodName(g.verb), w + [ch])
  {
    hide MethodName, Revise;
    var g := NextGuess(m, |w|, ch);
    if g.Guess? {
      if |w| >= |MethodName(m)| || MethodName(m)[|w|] != ch { ReviseAgrees(m, |w|, ch); }
      assert forall j | 0 <= j < |w| :: (w + [ch])[j] == w[j];
    }
  }

  /** Two names that have the first `i` characters in common, for the `i` of the table. */
  predicate InCommon(a: string, b: string, i: nat) {
    && i <= 4 && i <= |a| && i <= |b|
    && (i > 0 ==> a[0] == b[0]) && (i > 1 ==> a[1] == b[1]) && (i > 2 ==> a[2] == b[2]) && (i > 3 ==> a[3] == b[3])
  }

  /** A revision agrees with the guess it replaces. */
  predicate GoodRevision(m: Method, i: nat, ch: char) {
    var r := Revise(m, i, ch);
    r.Guess? ==>
      var name := MethodName(r.verb);
      i < |name| && i < |MethodName(m)| && name[i] == ch && InCommon(name, MethodName(m), i)
  }

  lemma ReviseP(m: Method, i: nat, ch: char)
    requires m.POST? || m.PUT? || m.PROPFIND?
    ensures GoodRevision(m, i, ch)
  {
  }

  lemma ReviseC(m: Method, i: nat, ch: char)
    requires m.CONNECT? || m.MKCOL?
    ensures GoodRevision(m, i, ch)
  {
  }

  lemma ReviseU(m: Method, i: nat, ch: char)
    requires m.UNLOCK? || m.SUBSCRIBE?
    ensures GoodRevision(m, i, ch)
  {
  }

  lemma ReviseInCommon(m: Method, i: nat, ch: char)
    ensures GoodRevision(m, i, ch)
  {
    if m.POST? || m.PUT? || m.PROPFIND? {
      ReviseP(m, i, ch);
    } else if m.CONNECT? || m.MKCOL? {
      ReviseC(m, i, ch);
    } else if m.UNLOCK? || m.SUBSCRIBE? {
      ReviseU(m, i, ch);
    } else {
      assert Revise(m, i, ch).Guess? ==> m.REPORT? || m.LOCK?;
    }
  }

  lemma ReviseAgrees(m: Method, i: nat, ch: char)
    requires Revise(m, i, ch).Guess?
    ensures var name := MethodName(Revise(m, i, ch).verb);
        i < |name| && i < |MethodName(m)| && name[i] == ch && forall j | 0 <= j < i :: name[j] == MethodName(m)[j]
  {
    hide MethodName, Revise;
    ReviseInCommon(m, i, ch);
  }

  lemma {:induction false} WordSoFar(cfg: Settings, r: Run, w: string)
    requires r.core.state.StartReq? && w != [] && w[0] != CR && w[0] != LF && ' ' !in w
    ensures var f := Feed(cfg, false, r, w);
        f.Fed? ==> !SkippingAfter(cfg, false, r, w) && Guessing(f.run.core, w)
    decreases |w|
  {
    hide *;
    if |w| == 1 {
      assert w == [w[0]];
      WordFirst(cfg, r, w[0]);
    } else {
      var v, ch := w[..|w| - 1], w[|w| - 1];
      assert w == v + [ch] && v[0] == w[0];
      assert ch in w;
      WordSoFar(cfg, r, v);
      FeedOn(cfg, false, r, v, [ch]);
      var f := Feed(cfg, false, r, v);
      if f.Fed? {
        SkippingOn(cfg, false, r, v, [ch]);
        WordNext(cfg, f.run, v, ch);
      }
    }
  }

  /** The record while a method name may be under way. */
  predicate Guessing(c: Core, w: string) {
    c.state.ReqMethod? && c.index == |w| && StartsWith(MethodName(c.verb), w)
  }

  lemma WordFirst(cfg: Settings, r: Run, ch: char)
    requires r.core.state.StartReq? && ch != CR && ch != LF
    ensures var f := Feed(cfg, false, r, [ch]);
        f.Fed? ==> !SkippingAfter(cfg, false, r, [ch]) && Guessing(f.run.core, [ch])
  {
    hide MethodName, FirstGuess;
    assert [ch][1..] == [];
    FirstAgrees(ch);
  }

  lemma WordNext(cfg: Settings, x: Run, v: string, ch: char)
    requires Guessing(x.core, v) && ch != ' '
    ensures var f := Feed(cfg, false, x, [ch]);
        f.Fed? ==> !SkippingAfter(cfg, false, x, [ch]) && Guessing(f.run.core, v + [ch])
  {
    hide MethodName, NextGuess, StartsWith;
    assert [ch][1..] == [];
    GuessAgrees(x.core.verb, v, ch);
  }

  lemma FirstAgrees(ch: char)
    ensures var g := FirstGuess(ch); g.Guess? ==> MethodName(g.verb)[0] == ch && |MethodName(g.verb)| >= 1
  {
  }

  datatype WordMeans = Unknown | Known(verb: Method)

  /** The request methods of HTTP, WebDAV (RFC 3253, 3744, 4918, 5323, 5842), CalDAV, UPnP and
      the others that the parser knows. */
  function MethodOf(w: string): WordMeans {
    if |w| <= 4 then ShortWord(w)
    else if |w| == 5 then FiveLetters(w) else if |w| == 6 then SixLetters(w) else LongWord(w)
  }

  function ShortWord(w: string): WordMeans {
    if w == "GET" then Known(GET) else if w == "HEAD" then Known(HEAD) else if w == "POST" then Known(POST)
    else if w == "PUT" then Known(PUT) else if w == "COPY" then Known(COPY) else if w == "LOCK" then Known(LOCK)
    else if w == "MOVE" then Known(MOVE) else if w == "BIND" then Known(BIND) else if w == "ACL" then Known(ACL)
    else if w == "LINK" then Known(LINK) else Unknown
  }

  function FiveLetters(w: string): WordMeans {
    if w == "TRACE" then Known(TRACE) else if w == "MKCOL" then Known(MKCOL) else if w == "MERGE" then Known(MERGE)
    else if w == "PATCH" then Known(PATCH) else if w == "PURGE" then Known(PURGE) else Unknown
  }

  function SixLetters(w: string): WordMeans {
    if w == "DELETE" then Known(DELETE) else if w == "SEARCH" then Known(SEARCH)
    else if w == "UNLOCK" then Known(UNLOCK) else if w == "REBIND" then Known(REBIND)
    else if w == "UNBIND" then Known(UNBIND) else if w == "REPORT" then Known(REPORT)
    else if w == "NOTIFY" then Known(NOTIFY) else if w == "UNLINK" then Known(UNLINK)
    else if w == "SOURCE" then Known(SOURCE) else Unknown
  }

  function LongWord(w: string): WordMeans {
    if w == "CONNECT" then Known(CONNECT) else if w == "OPTIONS" then Known(OPTIONS)
    else if w == "PROPFIND" then Known(PROPFIND) else if w == "PROPPATCH" then Known(PROPPATCH)
    else if w == "MKACTIVITY" then Known(MKACTIVITY) else if w == "CHECKOUT" then Known(CHECKOUT)
    else if w == "M-SEARCH" then Known(MSEARCH) else if w == "SUBSCRIBE" then Known(SUBSCRIBE)
    else if w == "UNSUBSCRIBE" then Known(UNSUBSCRIBE) else if w == "MKCALENDAR" then Known(MKCALENDAR) else Unknown
  }

  lemma ShortMeans(m: Method)
    requires |MethodName(m)| <= 4
    ensures ShortWord(MethodName(m)) == Known(m)
  {
  }

  lemma ShortNames(w: string)
    ensures var k := ShortWord(w); k.Known? ==> MethodName(k.verb) == w
  {
  }

  lemma FiveMeans(m: Method)
    requires |MethodName(m)| == 5
    ensures FiveLetters(MethodName(m)) == Known(m)
  {
  }

  lemma FiveNames(w: string)
    ensures var k := FiveLetters(w); k.Known? ==> MethodName(k.verb) == w
  {
  }

  lemma SixMeans(m: Method)
    requires |MethodName(m)| == 6
    ensures SixLetters(MethodName(m)) == Known(m)
  {
  }

  lemma SixNames(w: string)
    ensures var k := SixLetters(w); k.Known? ==> MethodName(k.verb) == w
  {
  }

  lemma LongMeans(m: Method)
    requires |MethodName(m)| > 6
    ensures LongWord(MethodName(m)) == Known(m)
  {
  }

  lemma LongNames(w: string)
    ensures var k := LongWord(w); k.Known? ==> MethodName(k.verb) == w
  {
  }

  lemma NameMeans(m: Method)
    ensures MethodOf(MethodName(m)) == Known(m)
  {
    hide MethodName, ShortWord, FiveLetters, SixLetters, LongWord;
    var n := |MethodName(m)|;
    if n <= 4 {
      ShortMeans(m);
    } else if n == 5 {
      FiveMeans(m);
    } else if n == 6 {
      SixMeans(m);
    } else {
      LongMeans(m);
    }
  }

  lemma MeansName(w: string)
    ensures MethodOf(w).Known? ==> MethodName(MethodOf(w).verb) == w
  {
    hide MethodName, ShortWord, FiveLetters, SixLetters, LongWord;
    ShortNames(w);
    FiveNames(w);
    SixNames(w);
    LongNames(w);
  }

  /** The method automaton is exact: a word and a blank are accepted if and only if the
      word is a method name, and then the method is that one. */
  lemma MethodExact(cfg: Settings, r: Run, w: string)
    requires r.core.state.StartReq? && w != [] && w[0] != CR && w[0] != LF && ' ' !in w
    ensures var f := Feed(cfg, false, r, w + " ");
        && (f.Fed? <==> MethodOf(w).Known?)
        && (f.Fed? ==> f.run.core.state.ReqSpacesBeforeUrl? && MethodOf(w) == Known(f.run.core.verb))
  {
    hide *;
    MeansName(w);
    WordSoFar(cfg, r, w);
    FeedOn(cfg, false, r, w, " ");
    var f := Feed(cfg, false, r, w);
    if f.Fed? {
      WordEnds(cfg, f.run, w);
      var g := Feed(cfg, false, r, w + " ");
      if g.Fed? { NameMeans(g.run.core.verb); }
    }
    if MethodOf(w).Known? {
      var m := MethodOf(w).verb;
      MethodEaten(cfg, r, m);
      EatsFed(cfg, r, w + " ", MethodTaken(r, m));
    }
  }

  lemma EatsFed(cfg: Settings, r: Run, s: string, r': Run)
    requires Eats(cfg, r, s, r')
    ensures Feed(cfg, false, r, s) == Fed(r') && Checked(cfg, r, s)
  {
  }

  lemma WordEnds(cfg: Settings, x: Run, w: string)
    requires Guessing(x.core, w)
    ensures var f := Feed(cfg, false, x, " ");
        f.Fed? ==> f.run.core.state.ReqSpacesBeforeUrl? && MethodName(f.run.core.verb) == w
  {
    hide MethodName, NextGuess;
    assert " "[1..] == [];
    BlankEnds(x.core.verb, x.core.index);
  }

  lemma BlankEnds(m: Method, i: nat)
    requires i <= |MethodName(m)|
    ensures i < |MethodName(m)| ==> NextGuess(m, i, ' ').NoMethod?
  {
    if i < |MethodName(m)| { NotBlank(m, i); }
  }

  // ---------------------------------------------------------------- header names

  predicate IsName(name: string) {
    name != [] && forall c | c in name :: TokenCode(c)
  }

  function LowerName(name: string): (w: string)
    ensures |w| == |name| && forall i | 0 <= i < |name| :: w[i] == Fold(name[i])
  {
    if name == [] then [] else [Fold(name[0])] + LowerName(name[1..])
  }

  /** The matcher after a field name. */
  function NameMatcher(name: string): Matcher
    requires name != []
  {
    var n := |name| - 1;
    if n == 0 then Matcher(FirstFieldState(TokenLower(name[0])), 0)
    else FieldNext(NameMatcher(name[..n]), TokenLower(name[n]))
  }

  function NameTaken(r: Run, name: string): Run
    requires name != []
  {
    var m := NameMatcher(name);
    Run(r.core.(state := HeaderField, headerState := m.h, index := m.index), Emit(r.trace, Data(Field, name)))
  }

  lemma {:induction false} NameEaten(cfg: Settings, r: Run, name: string)
    requires r.core.state.HeaderFieldStart? && IsName(name)
    ensures Eats(cfg, r, name, NameTaken(r, name))
    decreases |name|
  {
    var n := |name| - 1;
    var v, ch := name[..n], name[n];
    assert name == v + [ch] && ch in name;
    if n == 0 {
      assert name == [ch];
      NameFirst(cfg, r, ch);
    } else {
      assert forall c | c in v :: c in name;
      hide Eats, NameTaken;
      NameEaten(cfg, r, v);
      NameLetter(cfg, r, v, ch);
      EatsThen(cfg, r, v, NameTaken(r, v), [ch], NameTaken(r, name));
    }
  }

  lemma NameFirst(cfg: Settings, r: Run, ch: char)
    requires r.core.state.HeaderFieldStart? && TokenCode(ch)
    ensures Eats(cfg, r, [ch], NameTaken(r, [ch]))
  {
    EatsChar(cfg, r, ch, NameTaken(r, [ch]), false);
  }

  lemma NameLetter(cfg: Settings, r: Run, v: string, ch: char)
    requires v != [] && TokenCode(ch)
    ensures Eats(cfg, NameTaken(r, v), [ch], NameTaken(r, v + [ch]))
  {
    assert (v + [ch])[..|v|] == v;
    EmitTwice(r.trace, Field, v, [ch]);
    EatsChar(cfg, NameTaken(r, v), ch, NameTaken(r, v + [ch]), false);
  }

  /** Where the matcher of each header of interest stands after the lower-case name `w`. */
  predicate Tracks(m: Matcher, w: string) {
    && (m.h.C? <==> |w| == 1 && StartsWith(CONNECTION, w))
    && (m.h.CO? <==> |w| == 2 && StartsWith(CONNECTION, w))
    && (m.h.CON? <==> |w| == 3 && StartsWith(CONNECTION, w))
    && (m.h.MatchingConnection? <==> 4 <= |w| < 10 && StartsWith(CONNECTION, w))
    && (m.h.MatchingContentLength? <==> 4 <= |w| < 14 && StartsWith(CONTENT_LENGTH, w))
    && (m.h.MatchingProxyConnection? <==> 1 <= |w| < 16 && StartsWith(PROXY_CONNECTION, w))
    && (m.h.MatchingTransferEncoding? <==> 1 <= |w| < 17 && StartsWith(TRANSFER_ENCODING, w))
    && (m.h.MatchingUpgrade? <==> 1 <= |w| < 7 && StartsWith(UPGRADE, w))
    && (m.h.Connection? <==>
        || (|w| == 10 && StartsWith(CONNECTION, w))
        || (|w| == 16 && StartsWith(PROXY_CONNECTION, w)))
    && (m.h.ContentLength? <==> |w| == 14 && StartsWith(CONTENT_LENGTH, w))
    && (m.h.TransferEncoding? <==> |w| == 17 && StartsWith(TRANSFER_ENCODING, w))
    && (m.h.Upgrade? <==> |w| == 7 && StartsWith(UPGRADE, w))
    && (!m.h.General? ==> m.index + 1 == |w|)
  }

  lemma StartsWithMore(word: string, w: string, c: char)
    ensures StartsWith(word, w + [c]) <==> StartsWith(word, w) && |w| < |word| && word[|w|] == c
  {
    if StartsWith(word, w + [c]) {
      forall j | 0 <= j < |w| ensures word[j] == w[j] { assert (w + [c])[j] == w[j]; }
      assert (w + [c])[|w|] == c;
    }
  }

  lemma TracksStart(c: char)
    ensures Tracks(Matcher(FirstFieldState(c), 0), [c])
  {
    assert [] + [c] == [c];
    StartsWithMore(CONNECTION, [], c);
    StartsWithMore(CONTENT_LENGTH, [], c);
    StartsWithMore(PROXY_CONNECTION, [], c);
    StartsWithMore(TRANSFER_ENCODING, [], c);
    StartsWithMore(UPGRADE, [], c);
  }

  lemma TracksMore(m: Matcher, w: string, c: char)
    requires w != [] && Tracks(m, w)
    ensures Tracks(FieldNext(m, c), w + [c])
  {
    StartsWithMore(CONNECTION, w, c);
    StartsWithMore(CONTENT_LENGTH, w, c);
    StartsWithMore(PROXY_CONNECTION, w, c);
    StartsWithMore(TRANSFER_ENCODING, w, c);
    StartsWithMore(UPGRADE, w, c);
  }

  /** The token table folds case as the standard does. */
  lemma FoldsAlike(c: char)
    ensures TokenLower(c) == Fold(c)
  {
  }

  lemma {:induction false} NameTracks(name: string)
    requires name != []
    ensures Tracks(NameMatcher(name), LowerName(name))
    decreases |name|
  {
    hide Tracks, TokenLower, Fold, FieldNext, FirstFieldState;
    var n := |name| - 1;
    var w := LowerName(name);
    assert w == w[..n] + [w[n]];
    FoldsAlike(name[n]);
    if n == 0 {
      TracksStart(w[0]);
      assert w == [w[0]];
    } else {
      NameTracks(name[..n]);
      assert LowerName(name[..n]) == w[..n];
      TracksMore(NameMatcher(name[..n]), w[..n], w[n]);
    }
  }

  lemma SameWord(word: string, w: string)
    ensures |w| == |word| && StartsWith(word, w) <==> w == word
  {
  }

  /** The header matchers are exact: after the name and the colon the header state is that
      of a header of interest if and only if the name is its name, case ignored. */
  lemma HeaderNameExact(cfg: Settings, r: Run, name: string)
    requires r.core.state.HeaderFieldStart? && IsName(name)
    ensures var f := Feed(cfg, false, r, name + ":");
        && f.Fed? && f.run.core.state.HeaderValueDiscardWs?
        && var h, w := f.run.core.headerState, LowerName(name);
           && (h.ContentLength? <==> w == "content-length")
           && (h.TransferEncoding? <==> w == "transfer-encoding")
           && (h.Upgrade? <==> w == "upgrade")
           && (h.Connection? <==> w == "connection" || w == "proxy-connection")
  {
    NameEaten(cfg, r, name);
    ColonEaten(cfg, NameTaken(r, name));
    EatsThen(cfg, r, name, NameTaken(r, name), ":", ColonTaken(NameTaken(r, name)));
    NameTracks(name);
    var w := LowerName(name);
    SameWord(CONTENT_LENGTH, w);
    SameWord(TRANSFER_ENCODING, w);
    SameWord(UPGRADE, w);
    SameWord(CONNECTION, w);
    SameWord(PROXY_CONNECTION, w);
  }

  function ColonTaken(r: Run): Run {
    r.(core := r.core.(state := HeaderValueDiscardWs))
  }

  lemma ColonEaten(cfg: Settings, r: Run)
    requires r.core.state.HeaderField?
    ensures Eats(cfg, r, ":", ColonTaken(r))
  {
    EatsChar(cfg, r, ':', ColonTaken(r), false);
  }

  // ---------------------------------------------------------------- lengths

  predicate IsDigits(s: string) {
    forall c | c in s :: DecimalDigit(c)
  }

  /** The decimal value of a digit string. */
  function DecimalValue(s: string): nat
    requires IsDigits(s)
  {
    if s == [] then 0
    else
      assert s[|s| - 1] in s && forall c | c in s[..|s| - 1] :: c in s;
      10 * DecimalValue(s[..|s| - 1]) + (s[|s| - 1] as int - 48)
  }

  lemma DigitsMore(v: string, ch: char)
    ensures IsDigits(v + [ch]) <==> IsDigits(v) && DecimalDigit(ch)
    ensures IsDigits(v + [ch]) ==> DecimalValue(v + [ch]) == 10 * DecimalValue(v) + (ch as int - 48)
  {
    assert (v + [ch])[..|v|] == v && ch in v + [ch];
    if IsDigits(v + [ch]) { assert forall c | c in v :: c in v + [ch]; }
  }

  const LENGTH_LIMIT: nat := 18446744073709551609   // (ULLONG_MAX - 10) / 10 * 10 + 9

  /** What the parser knows after the digits of a Content-Length value. */
  function LengthTaken(r: Run, s: string): Run
    requires IsDigits(s)
  {
    Run(r.core.(state := HeaderValue, index := 0, headerState := ContentLengthNum,
                flags := r.core.flags.(contentLength := true), contentLength := DecimalValue(s)),
        Emit(r.trace, Data(Value, s)))
  }

  predicate ExpectsLength(c: Core) {
    c.state.HeaderValueDiscardWs? && c.headerState.ContentLength? && !c.flags.contentLength
  }

  /** The Content-Length accumulator is exact.  A value is taken if and only if it is made
      of digits and is at most LENGTH_LIMIT, and then the stored length is its decimal
      value: it never wraps and never equals the absent marker. */
  lemma {:induction false} LengthExact(cfg: Settings, r: Run, s: string)
    requires ExpectsLength(r.core) && s != [] && s[0] != CR && s[0] != LF && s[0] != ' ' && s[0] != TAB
    requires forall c | c in s :: c != CR && c != LF && c != ' '
    ensures Feed(cfg, false, r, s).Fed? <==> IsDigits(s) && DecimalValue(s) <= LENGTH_LIMIT
    ensures Feed(cfg, false, r, s).Fed? ==> Eats(cfg, r, s, LengthTaken(r, s))
    ensures Feed(cfg, false, r, s).Failed? ==>
        Feed(cfg, false, r, s).errno in {InvalidContentLength, InvalidHeaderToken}
    ensures IsDigits(s) && DecimalValue(s) > LENGTH_LIMIT ==> Feed(cfg, false, r, s) == Failed(InvalidContentLength)
    decreases |s|
  {
    hide Feed, SkippingAfter, Checked;
    var n := |s| - 1;
    var v, ch := s[..n], s[n];
    assert s == v + [ch] && ch in s;
    DigitsMore(v, ch);
    if n == 0 {
      assert s == [ch];
      LengthFirst(cfg, r, ch);
    } else {
      assert v[0] == s[0] && forall c | c in v :: c in s;
      LengthExact(cfg, r, v);
      FeedOn(cfg, false, r, v, [ch]);
      if Feed(cfg, false, r, v).Fed? {
        LengthNext(cfg, r, v, ch);
      }
    }
  }

  lemma LengthFirst(cfg: Settings, r: Run, ch: char)
    requires ExpectsLength(r.core) && ch != CR && ch != LF && ch != ' ' && ch != TAB
    ensures Feed(cfg, false, r, [ch]) == if IsNum(ch) then Fed(LengthTaken(r, [ch])) else Failed(InvalidContentLength)
    ensures IsNum(ch) ==> Eats(cfg, r, [ch], LengthTaken(r, [ch]))
  {
    assert View(cfg, false) == cfg && [ch][1..] == [] && [ch][..0] == [];
    if IsNum(ch) {
      assert DecimalValue([ch]) == ch as int - '0' as int;
      EatsChar(cfg, r, ch, LengthTaken(r, [ch]), false);
    }
  }

  lemma LengthNext(cfg: Settings, r: Run, v: string, ch: char)
    requires IsDigits(v) && v != [] && DecimalValue(v) <= LENGTH_LIMIT && Eats(cfg, r, v, LengthTaken(r, v))
    requires ch != CR && ch != LF && ch != ' '
    ensures var f := Feed(cfg, false, LengthTaken(r, v), [ch]);
        && (f.Fed? <==> IsDigits(v + [ch]) && DecimalValue(v + [ch]) <= LENGTH_LIMIT)
        && (f.Fed? ==> Eats(cfg, r, v + [ch], LengthTaken(r, v + [ch])))
        && (f.Failed? ==> f.errno in {InvalidContentLength, InvalidHeaderToken})
        && (IsDigits(v + [ch]) && DecimalValue(v + [ch]) > LENGTH_LIMIT ==> f == Failed(InvalidContentLength))
  {
    hide Eats, Feed;
    var x := LengthTaken(r, v);
    LengthDigitFed(cfg, x, ch);
    DigitsMore(v, ch);
    if IsNum(ch) {
      EmitTwice(r.trace, Value, v, [ch]);
      if DecimalValue(v + [ch]) <= LENGTH_LIMIT {
        EatsThen(cfg, r, v, x, [ch], LengthTaken(r, v + [ch]));
      }
    }
  }

  lemma LengthDigitFed(cfg: Settings, x: Run, ch: char)
    requires x.core.state.HeaderValue? && x.core.headerState.ContentLengthNum? && x.core.contentLength <= LENGTH_LIMIT
    requires ch != CR && ch != LF && ch != ' '
    ensures var n, f := 10 * x.core.contentLength + (ch as int - 48), Feed(cfg, false, x, [ch]);
        && (f.Fed? <==> IsNum(ch) && n <= LENGTH_LIMIT)
        && (f.Fed? ==> Eats(cfg, x, [ch], Run(x.core.(contentLength := n), Emit(x.trace, Data(Value, [ch])))))
        && (f.Failed? ==> f.errno in {InvalidContentLength, InvalidHeaderToken})
        && (IsNum(ch) && n > LENGTH_LIMIT ==> f == Failed(InvalidContentLength))
  {
    assert View(cfg, false) == cfg && [ch][1..] == [];
  }

  /** Digits as the chunk size parser reads them. */
  predicate IsSizeDigits(s: string) {
    forall c | c in s :: SizeCode(c)
  }

  function SizeValue(s: string): nat
    requires IsSizeDigits(s)
  {
    if s == [] then 0
    else
      assert s[|s| - 1] in s && forall c | c in s[..|s| - 1] :: c in s;
      16 * SizeValue(s[..|s| - 1]) + SizeDigit(s[|s| - 1])
  }

  lemma SizeDigitsMore(v: string, ch: char)
    ensures IsSizeDigits(v + [ch]) <==> IsSizeDigits(v) && SizeCode(ch)
    ensures IsSizeDigits(v + [ch]) ==> SizeValue(v + [ch]) == 16 * SizeValue(v) + SizeDigit(ch)
  {
    assert (v + [ch])[..|v|] == v && ch in v + [ch];
    if IsSizeDigits(v + [ch]) { assert forall c | c in v :: c in v + [ch]; }
  }

  const SIZE_LIMIT: nat := 18446744073709551599   // (ULLONG_MAX - 16) / 16 * 16 + 15

  function SizeTaken(r: Run, s: string): Run
    requires IsSizeDigits(s)
  {
    r.(core := r.core.(state := ChunkSize, contentLength := SizeValue(s)))
  }

  /** The chunk size accumulator is exact in the same way. */
  lemma {:induction false} SizeExact(cfg: Settings, r: Run, s: string)
    requires r.core.state.ChunkSizeStart? && s != []
    requires forall c | c in s :: c != CR && c != ';' && c != ' '
    ensures Feed(cfg, false, r, s).Fed? <==> IsSizeDigits(s) && SizeValue(s) <= SIZE_LIMIT
    ensures Feed(cfg, false, r, s).Fed? ==> Eats(cfg, r, s, SizeTaken(r, s))
    ensures IsSizeDigits(s) && SizeValue(s) > SIZE_LIMIT ==> Feed(cfg, false, r, s) == Failed(InvalidContentLength)
    decreases |s|
  {
    hide Feed, SkippingAfter, Checked;
    var n := |s| - 1;
    var v, ch := s[..n], s[n];
    assert s == v + [ch] && ch in s;
    SizeDigitsMore(v, ch);
    if n == 0 {
      assert s == [ch];
      SizeFirst(cfg, r, ch);
    } else {
      assert forall c | c in v :: c in s;
      SizeExact(cfg, r, v);
      FeedOn(cfg, false, r, v, [ch]);
      if Feed(cfg, false, r, v).Fed? { SizeNext(cfg, r, v, ch); }
    }
  }

  /** A chunk size that is taken is hexadecimal if and only if it has no byte from 0x80 on.
      Without such bytes the parser therefore reads exactly the hexadecimal numbers up to
      SIZE_LIMIT. */
  lemma SizeHexadecimal(cfg: Settings, r: Run, s: string)
    requires r.core.state.ChunkSizeStart? && s != []
    requires forall c | c in s :: c != CR && c != ';' && c != ' '
    ensures var f, ascii := Feed(cfg, false, r, s), forall c | c in s :: c as int < 128;
        && (f.Fed? ==> (ascii <==> forall c | c in s :: HexCode(c)))
        && (ascii ==> (f.Fed? <==> (forall c | c in s :: HexCode(c)) && IsSizeDigits(s) && SizeValue(s) <= SIZE_LIMIT))
  {
    hide Feed, Eats, SizeValue;
    SizeExact(cfg, r, s);
  }

  /** The byte 0x80 alone is taken for a chunk size: that of the last chunk. */
  lemma HighSizeExample(cfg: Settings, r: Run)
    requires r.core.state.ChunkSizeStart?
    ensures !HexCode('\U{80}')
    ensures Feed(cfg, false, r, ['\U{80}']) == Fed(r.(core := r.core.(state := ChunkSize, contentLength := 0)))
  {
    hide Feed;
    var s := ['\U{80}'];
    assert s[..0] == [];
    SizeExact(cfg, r, s);
  }

  lemma SizeNext(cfg: Settings, r: Run, v: string, ch: char)
    requires IsSizeDigits(v) && v != [] && SizeValue(v) <= SIZE_LIMIT && Eats(cfg, r, v, SizeTaken(r, v))
    requires ch != CR && ch != ';' && ch != ' '
    ensures var f := Feed(cfg, false, SizeTaken(r, v), [ch]);
        && (f.Fed? <==> IsSizeDigits(v + [ch]) && SizeValue(v + [ch]) <= SIZE_LIMIT)
        && (f.Fed? ==> Eats(cfg, r, v + [ch], SizeTaken(r, v + [ch])))
        && (IsSizeDigits(v + [ch]) && SizeValue(v + [ch]) > SIZE_LIMIT ==> f == Failed(InvalidContentLength))
  {
    hide Eats, Feed;
    var x := SizeTaken(r, v);
    SizeDigitFed(cfg, x, ch);
    SizeDigitsMore(v, ch);
    if Unhex(ch) != -1 {
      if SizeValue(v + [ch]) <= SIZE_LIMIT {
        EatsThen(cfg, r, v, x, [ch], SizeTaken(r, v + [ch]));
      }
    }
  }

  lemma SizeDigitFed(cfg: Settings, x: Run, ch: char)
    requires x.core.state.ChunkSize? && x.core.contentLength <= SIZE_LIMIT
    requires ch != CR && ch != ';' && ch != ' '
    ensures var n, f := 16 * x.core.contentLength + Unhex(ch), Feed(cfg, false, x, [ch]);
        && (f.Fed? <==> Unhex(ch) != -1 && n <= SIZE_LIMIT)
        && (f.Fed? ==> Eats(cfg, x, [ch], x.(core := x.core.(contentLength := n))))
        && (Unhex(ch) != -1 && n > SIZE_LIMIT ==> f == Failed(InvalidContentLength))
  {
    assert View(cfg, false) == cfg && [ch][1..] == [];
  }

  lemma SizeFirst(cfg: Settings, r: Run, ch: char)
    requires r.core.state.ChunkSizeStart?
    ensures Feed(cfg, false, r, [ch]).Fed? <==> Unhex(ch) != -1
    ensures Unhex(ch) != -1 ==> SizeValue([ch]) == Unhex(ch) <= 15 && Eats(cfg, r, [ch], SizeTaken(r, [ch]))
  {
    assert View(cfg, false) == cfg && [ch][1..] == [];
    if Unhex(ch) != -1 {
      assert IsSizeDigits([ch]) && [ch][..0] == [] && SizeValue([ch]) == Unhex(ch);
      EatsChar(cfg, r, ch, SizeTaken(r, [ch]), false);
    }
  }

  // ---------------------------------------------------------------- rendering numbers

  function DigitChar(d: nat): (c: char)
    requires d < 16
    ensures HexCode(c) && SizeDigit(c) == d && (d < 10 ==> DecimalDigit(c) && c as int - 48 == d)
  {
    if d < 10 then ('0' as int + d) as char else ('a' as int + (d - 10)) as char
  }

  function DecimalOf(n: nat): (s: string)
    ensures s != [] && IsDigits(s) && DecimalValue(s) == n
  {
    if n < 10 then
      assert [DigitChar(n)][..0] == [];
      [DigitChar(n)]
    else
      var v, c := DecimalOf(n / 10), DigitChar(n % 10);
      assert (v + [c])[..|v|] == v;
      v + [c]
  }

  function HexOf(n: nat): (s: string)
    ensures s != [] && IsSizeDigits(s) && SizeValue(s) == n && forall c | c in s :: HexCode(c)
  {
    if n < 16 then
      assert [DigitChar(n)][..0] == [];
      [DigitChar(n)]
    else
      var v, c := HexOf(n / 16), DigitChar(n % 16);
      assert (v + [c])[..|v|] == v;
      v + [c]
  }
}
