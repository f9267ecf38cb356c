/** What a request target is made of, and how the URL state machines read it.

    `Advance` and `HostAdvance` run the two character automata over a text and note
    into which component every character goes.  The theorems of this module say that
    the automata accept exactly the texts of valid URLs, and find their components. */
module UrlGrammar {
  import opened Ascii
  import opened HttpChars
  import opened HttpMachine
  import opened HttpText

  // ---------------------------------------------------------------- the target automaton

  /** A request target cut into components: `slashes` characters of "://", `mark` for the
      question mark, and the number of '#'. */
  datatype Target = Target(scheme: string, slashes: nat, authority: string, path: string,
                           mark: bool, query: string, hashes: nat, fragment: string)

  const BLANK := Target([], 0, [], [], false, [], 0, [])
  const SLASHES := [':', '/', '/']

  function Mark(b: bool, ch: char): (s: string)
    ensures |s| == if b then 1 else 0
  {
    if b then [ch] else []
  }

  function Hashes(n: nat): (s: string)
    ensures |s| == n
  {
    if n == 0 then [] else Hashes(n - 1) + ['#']
  }

  function FrontText(t: Target): string
    requires t.slashes <= 3
  {
    t.scheme + SLASHES[..t.slashes] + t.authority + t.path
  }

  function Text(t: Target): string
    requires t.slashes <= 3
  {
    FrontText(t) + Mark(t.mark, '?') + t.query + Hashes(t.hashes) + t.fragment
  }

  /** The component that a character leading to state `s` belongs to. */
  function Put(t: Target, s: State, ch: char): Target {
    match s
    case ReqSchema => t.(scheme := t.scheme + [ch])
    case ReqSchemaSlash => t.(slashes := t.slashes + 1)
    case ReqSchemaSlashSlash => t.(slashes := t.slashes + 1)
    case ReqServerStart => t.(slashes := t.slashes + 1)
    case ReqServer => t.(authority := t.authority + [ch])
    case ReqServerWithAt => t.(authority := t.authority + [ch])
    case ReqPath => t.(path := t.path + [ch])
    case ReqQueryStringStart => t.(mark := true)
    case ReqQueryString => t.(query := t.query + [ch])
    case ReqFragmentStart => t.(hashes := t.hashes + 1)
    case ReqFragment => t.(fragment := t.fragment + [ch])
    case _ => t
  }

  datatype Progress = Progress(state: State, target: Target)

  function Start(connect: bool): Progress {
    Progress(if connect then ReqServerStart else ReqSpacesBeforeUrl, BLANK)
  }

  function Step(g: Progress, ch: char): Progress {
    var s := ParseUrlChar(g.state, ch);
    Progress(s, Put(g.target, s, ch))
  }

  function Advance(g: Progress, text: string): Progress {
    if text == [] then g else Step(Advance(g, text[..|text| - 1]), text[|text| - 1])
  }

  lemma AdvanceSnoc(g: Progress, text: string, ch: char)
    ensures Advance(g, text + [ch]) == Step(Advance(g, text), ch)
  {
    assert (text + [ch])[..|text|] == text;
  }

  lemma {:induction false} AdvanceConcat(g: Progress, a: string, b: string)
    ensures Advance(g, a + b) == Advance(Advance(g, a), b)
    decreases |b|
  {
    if b == [] {
      assert a + b == a;
    } else {
      var n := |b| - 1;
      assert a + b == (a + b[..n]) + [b[n]];
      AdvanceSnoc(g, a + b[..n], b[n]);
      AdvanceConcat(g, a, b[..n]);
    }
  }

  /** Once refused, always refused. */
  lemma {:induction false} DeadStays(g: Progress, a: string, b: string)
    requires Advance(g, a).state.Dead?
    ensures Advance(g, a + b).state.Dead?
    decreases |b|
  {
    if b == [] {
      assert a + b == a;
    } else {
      var n := |b| - 1;
      assert a + b == (a + b[..n]) + [b[n]];
      AdvanceSnoc(g, a + b[..n], b[n]);
      DeadStays(g, a, b[..n]);
    }
  }

  // ---------------------------------------------------------------- what it has read

  predicate IsServerChar(c: char) {
    UserinfoCode(c) || c as int == 91 || c as int == 93 || c as int == 64
  }

  predicate Alphas(s: string) { forall c | c in s :: Letter(c) }
  predicate ServerChars(s: string) { forall c | c in s :: IsServerChar(c) }
  predicate UrlChars(s: string) { forall c | c in s :: PathCode(c) }
  predicate QueryChars(s: string) { forall c | c in s :: QueryCode(c) }

  predicate FragmentChars(s: string) {
    (forall c | c in s :: Visible(c)) && (s != [] ==> s[0] != '#')
  }

  /** In front of an authority: a scheme and "://", or nothing in a CONNECT request. */
  predicate Head(connect: bool, t: Target) {
    if connect then t.scheme == [] && t.slashes == 0 else t.scheme != [] && t.slashes == 3
  }

  /** Scheme, authority and path together. */
  predicate Front(connect: bool, t: Target) {
    && Alphas(t.scheme) && ServerChars(t.authority) && UrlChars(t.path)
    && (if Head(connect, t) then t.path != [] ==> t.path[0] == '/'
        else !connect && t.scheme == [] && t.slashes == 0 && t.authority == [] &&
             t.path != [] && (t.path[0] == '/' || t.path[0] == '*'))
  }

  predicate Tail(t: Target) {
    && QueryChars(t.query) && (t.query != [] ==> t.mark)
    && FragmentChars(t.fragment) && (t.fragment != [] ==> t.hashes > 0)
    && (t.hashes > 0 ==> t.mark || t.path != [])
  }

  /** The components that a state can stand for. */
  predicate Reached(connect: bool, g: Progress) {
    var t := g.target;
    match g.state
    case ReqSpacesBeforeUrl => !connect && t == BLANK
    case ReqSchema => !connect && t.scheme != [] && Alphas(t.scheme) && t == BLANK.(scheme := t.scheme)
    case ReqSchemaSlash =>
      !connect && t.scheme != [] && Alphas(t.scheme) && t == BLANK.(scheme := t.scheme, slashes := 1)
    case ReqSchemaSlashSlash =>
      !connect && t.scheme != [] && Alphas(t.scheme) && t == BLANK.(scheme := t.scheme, slashes := 2)
    case ReqServerStart =>
      Head(connect, t) && Front(connect, t) && t == BLANK.(scheme := t.scheme, slashes := t.slashes)
    case ReqServer => InServer(connect, t) && t.authority[|t.authority| - 1] != '@'
    case ReqServerWithAt => InServer(connect, t) && t.authority[|t.authority| - 1] == '@'
    case ReqPath => Front(connect, t) && t.path != [] && !t.mark && t.query == [] && t.hashes == 0 && t.fragment == []
    case ReqQueryStringStart => Front(connect, t) && t.mark && t.query == [] && t.hashes == 0 && t.fragment == []
    case ReqQueryString => Front(connect, t) && Tail(t) && t.query != [] && t.hashes == 0 && t.fragment == []
    case ReqFragmentStart => Front(connect, t) && Tail(t) && t.hashes > 0 && t.fragment == []
    case ReqFragment => Front(connect, t) && Tail(t) && t.fragment != []
    case _ => false
  }

  predicate InServer(connect: bool, t: Target) {
    && Head(connect, t) && Front(connect, t) && t.authority != []
    && t == BLANK.(scheme := t.scheme, slashes := t.slashes, authority := t.authority)
  }

  /** Nothing has been read yet of the components behind the one of state `s`. */
  predicate Rightmost(t: Target, s: State, ch: char) {
    if s.ReqSchema? then t == BLANK.(scheme := t.scheme)
    else if s.ReqSchemaSlash? || s.ReqSchemaSlashSlash? || s.ReqServerStart? then
      t.slashes < 3 && ch == SLASHES[t.slashes] && t == BLANK.(scheme := t.scheme, slashes := t.slashes)
    else if s.ReqServer? || s.ReqServerWithAt? then
      t == BLANK.(scheme := t.scheme, slashes := t.slashes, authority := t.authority)
    else if s.ReqPath? then !t.mark && t.query == [] && t.hashes == 0 && t.fragment == []
    else if s.ReqQueryStringStart? then ch == '?' && !t.mark && t.query == [] && t.hashes == 0 && t.fragment == []
    else if s.ReqQueryString? then t.hashes == 0 && t.fragment == []
    else if s.ReqFragmentStart? then ch == '#' && t.fragment == []
    else s.ReqFragment?
  }

  lemma PutText(t: Target, s: State, ch: char)
    requires t.slashes <= 3 && Rightmost(t, s, ch)
    ensures Put(t, s, ch).slashes <= 3 && Text(Put(t, s, ch)) == Text(t) + [ch]
  {
    if s.ReqFragment? || s.ReqFragmentStart? || s.ReqQueryString? || s.ReqQueryStringStart? {
      PutBehind(t, s, ch);
    } else {
      PutInFront(t, s, ch);
    }
  }

  lemma PutBehind(t: Target, s: State, ch: char)
    requires t.slashes <= 3 && Rightmost(t, s, ch)
    requires s.ReqFragment? || s.ReqFragmentStart? || s.ReqQueryString? || s.ReqQueryStringStart?
    ensures Put(t, s, ch).slashes <= 3 && Text(Put(t, s, ch)) == Text(t) + [ch]
  {
    if s.ReqFragmentStart? {
      assert Hashes(Put(t, s, ch).hashes) == Hashes(t.hashes) + [ch];
    }
  }

  lemma PutInFront(t: Target, s: State, ch: char)
    requires t.slashes <= 3 && Rightmost(t, s, ch)
    requires !s.ReqFragment? && !s.ReqFragmentStart? && !s.ReqQueryString? && !s.ReqQueryStringStart?
    ensures Put(t, s, ch).slashes <= 3 && Text(Put(t, s, ch)) == Text(t) + [ch]
  {
    hide Hashes;
    if s.ReqPath? || s.ReqServer? || s.ReqServerWithAt? {
      PutPath(t, s, ch);
    } else if s.ReqSchema? {
    } else {
      assert SLASHES[..Put(t, s, ch).slashes] == SLASHES[..t.slashes] + [ch];
    }
  }

  lemma PutPath(t: Target, s: State, ch: char)
    requires t.slashes <= 3 && Rightmost(t, s, ch) && (s.ReqPath? || s.ReqServer? || s.ReqServerWithAt?)
    ensures Put(t, s, ch).slashes <= 3 && Text(Put(t, s, ch)) == Text(t) + [ch]
  {
    hide Hashes;
  }

  lemma StepRightmost(connect: bool, g: Progress, ch: char)
    requires Reached(connect, g)
    ensures var s := ParseUrlChar(g.state, ch); !s.Dead? ==> g.target.slashes <= 3 && Rightmost(g.target, s, ch)
  {
  }

  lemma SchemeStep(connect: bool, g: Progress, ch: char)
    requires Reached(connect, g)
    requires g.state.ReqSpacesBeforeUrl? || g.state.ReqSchema? || g.state.ReqSchemaSlash?
        || g.state.ReqSchemaSlashSlash?
    ensures var h := Step(g, ch); !h.state.Dead? ==> Reached(connect, h)
  {
    hide Text;
    var s := ParseUrlChar(g.state, ch);
    if s.ReqPath? {
    } else if s.ReqSchema? {
      assert forall c | c in g.target.scheme + [ch] :: c in g.target.scheme || c == ch;
    }
  }

  lemma ServerStep(connect: bool, g: Progress, ch: char)
    requires Reached(connect, g) && (g.state.ReqServerStart? || g.state.ReqServer? || g.state.ReqServerWithAt?)
    ensures var h := Step(g, ch); !h.state.Dead? ==> Reached(connect, h)
  {
    hide Text;
    var s := ParseUrlChar(g.state, ch);
    if s.ReqServer? || s.ReqServerWithAt? {
      assert forall c | c in g.target.authority + [ch] :: c in g.target.authority || c == ch;
    } else if s.ReqPath? {
    }
  }

  lemma PathStep(connect: bool, g: Progress, ch: char)
    requires Reached(connect, g) && g.state.ReqPath?
    ensures var h := Step(g, ch); !h.state.Dead? ==> Reached(connect, h)
  {
    hide Text;
    var s := ParseUrlChar(g.state, ch);
    if s.ReqPath? {
      assert forall c | c in g.target.path + [ch] :: c in g.target.path || c == ch;
    }
  }

  lemma TailStep(connect: bool, g: Progress, ch: char)
    requires Reached(connect, g)
    requires g.state.ReqQueryStringStart? || g.state.ReqQueryString? || g.state.ReqFragmentStart?
        || g.state.ReqFragment?
    ensures var h := Step(g, ch); !h.state.Dead? ==> Reached(connect, h)
  {
    hide Front, InServer, Head;
    SameFront(connect, g, ch);
  }

  lemma SameFront(connect: bool, g: Progress, ch: char)
    requires g.state.ReqQueryStringStart? || g.state.ReqQueryString? || g.state.ReqFragmentStart?
        || g.state.ReqFragment?
    ensures Front(connect, Step(g, ch).target) == Front(connect, g.target)
  {
  }

  /** A step to another state keeps the reached components reached. */
  lemma ReachedStep(connect: bool, g: Progress, ch: char)
    requires Reached(connect, g)
    ensures var h := Step(g, ch); !h.state.Dead? ==> Reached(connect, h)
  {
    var s := g.state;
    if s.ReqQueryStringStart? || s.ReqQueryString? || s.ReqFragmentStart? || s.ReqFragment? {
      TailStep(connect, g, ch);
    } else if s.ReqPath? {
      PathStep(connect, g, ch);
    } else if s.ReqServerStart? || s.ReqServer? || s.ReqServerWithAt? {
      ServerStep(connect, g, ch);
    } else {
      SchemeStep(connect, g, ch);
    }
    hide Step;
  }

  /** The automaton loses nothing: the components it has found make up the text. */
  lemma {:induction false} ReachedText(connect: bool, text: string)
    ensures var g := Advance(Start(connect), text);
        !g.state.Dead? ==> Reached(connect, g) && g.target.slashes <= 3 && Text(g.target) == text
    decreases |text|
  {
    if text != [] {
      var n := |text| - 1;
      ReachedText(connect, text[..n]);
      var g := Advance(Start(connect), text[..n]);
      if !g.state.Dead? {
        ReachedStep(connect, g, text[n]);
        StepRightmost(connect, g, text[n]);
        if !Step(g, text[n]).state.Dead? { PutText(g.target, Step(g, text[n]).state, text[n]); }
        assert text == text[..n] + [text[n]];
      }
    }
  }

  // ---------------------------------------------------------------- reading a given text

  /** The authority can follow "://" character by character. */
  predicate Flows(authority: string) {
    ServerChars(authority) && forall i | 0 < i < |authority| :: !(authority[i - 1] == '@' && authority[i] == '@')
  }

  lemma {:induction false} SchemeRead(g: Progress, s: string)
    requires g.state.ReqSpacesBeforeUrl? && Alphas(s)
    ensures Advance(g, s) == if s == [] then g else Progress(ReqSchema, g.target.(scheme := g.target.scheme + s))
    decreases |s|
  {
    if s != [] {
      var n := |s| - 1;
      assert s == s[..n] + [s[n]] && s[n] in s;
      SchemeRead(g, s[..n]);
      assert g.target.scheme + s == (g.target.scheme + s[..n]) + [s[n]];
    }
  }

  lemma SlashesRead(g: Progress)
    requires g.state.ReqSchema?
    ensures Advance(g, SLASHES) == Progress(ReqServerStart, g.target.(slashes := g.target.slashes + 3))
  {
    var a, b := Step(g, ':'), Step(Step(g, ':'), '/');
    assert a == Progress(ReqSchemaSlash, g.target.(slashes := g.target.slashes + 1));
    assert b == Progress(ReqSchemaSlashSlash, g.target.(slashes := g.target.slashes + 2));
    AdvanceSnoc(g, [], ':');
    AdvanceSnoc(g, [':'], '/');
    AdvanceSnoc(g, [':', '/'], '/');
    assert [] + [':'] == [':'] && [':'] + ['/'] == [':', '/'] && [':', '/'] + ['/'] == SLASHES;
  }

  /** The state after a character of the authority. */
  function ServerState(c: char): State {
    if c == '@' then ReqServerWithAt else ReqServer
  }

  lemma FlowsFront(s: string, n: nat)
    requires Flows(s) && n < |s|
    ensures Flows(s[..n]) && IsServerChar(s[n]) && (n > 0 ==> !(s[n - 1] == '@' && s[n] == '@'))
  {
    assert s[n] in s;
    assert forall c | c in s[..n] :: c in s;
  }

  lemma AuthorityChar(g: Progress, c: char)
    requires IsServerChar(c)
    requires g.state.ReqServerStart? || g.state.ReqServer? || (g.state.ReqServerWithAt? && c != '@')
    ensures Step(g, c) == Progress(ServerState(c), g.target.(authority := g.target.authority + [c]))
  {
  }

  lemma {:induction false} AuthorityRead(g: Progress, s: string)
    requires g.state.ReqServerStart? && Flows(s)
    ensures Advance(g, s) == if s == [] then g
        else Progress(ServerState(s[|s| - 1]), g.target.(authority := g.target.authority + s))
    decreases |s|
  {
    if s != [] {
      var n := |s| - 1;
      assert s == s[..n] + [s[n]] && s[n] in s;
      if n > 0 { assert s[..n][n - 1] == s[n - 1]; }
      FlowsFront(s, n);
      AuthorityRead(g, s[..n]);
      AuthorityChar(Advance(g, s[..n]), s[n]);
      hide Step, Flows, ParseUrlChar;
      assert g.target.authority + s == (g.target.authority + s[..n]) + [s[n]];
    }
  }

  /** States in front of a path. */
  predicate BeforePath(s: State, c: char) {
    s.ReqSpacesBeforeUrl? || ((s.ReqServerStart? || s.ReqServer? || s.ReqServerWithAt?) && c == '/')
  }

  lemma PathChar(g: Progress, c: char)
    requires if g.state.ReqPath? then PathCode(c) else BeforePath(g.state, c) && (c == '/' || c == '*')
    ensures Step(g, c) == Progress(ReqPath, g.target.(path := g.target.path + [c]))
  {
  }

  lemma {:induction false} PathRead(g: Progress, s: string)
    requires s != [] ==> BeforePath(g.state, s[0]) && (s[0] == '/' || s[0] == '*') && UrlChars(s)
    ensures Advance(g, s) == if s == [] then g else Progress(ReqPath, g.target.(path := g.target.path + s))
    decreases |s|
  {
    if s != [] {
      var n := |s| - 1;
      assert s == s[..n] + [s[n]] && s[n] in s;
      if n > 0 { assert s[..n][0] == s[0] && forall c | c in s[..n] :: c in s; }
      PathRead(g, s[..n]);
      PathChar(Advance(g, s[..n]), s[n]);
      hide Step, BeforePath;
      assert g.target.path + s == (g.target.path + s[..n]) + [s[n]];
    }
  }

  /** States in front of a question mark. */
  predicate BeforeMark(s: State) {
    s.ReqServerStart? || s.ReqServer? || s.ReqServerWithAt? || s.ReqPath?
  }

  lemma {:induction false} QueryRead(g: Progress, mark: bool, s: string)
    requires QueryChars(s) && (s != [] ==> mark) && (mark ==> BeforeMark(g.state))
    ensures Advance(g, Mark(mark, '?') + s) == if !mark then g
        else Progress(if s == [] then ReqQueryStringStart else ReqQueryString,
                      g.target.(mark := true, query := g.target.query + s))
    decreases |s|
  {
    if !mark {
      assert Mark(mark, '?') + s == [];
    } else if s == [] {
      assert Mark(mark, '?') + s == [] + ['?'];
      AdvanceSnoc(g, [], '?');
      assert g.target.query + s == g.target.query;
    } else {
      var n := |s| - 1;
      assert Mark(mark, '?') + s == (Mark(mark, '?') + s[..n]) + [s[n]] && s[n] in s;
      QueryRead(g, mark, s[..n]);
      AdvanceSnoc(g, Mark(mark, '?') + s[..n], s[n]);
      assert g.target.query + s == (g.target.query + s[..n]) + [s[n]];
    }
  }

  lemma HashRead(g: Progress)
    requires g.state.ReqPath? || g.state.ReqQueryStringStart? || g.state.ReqQueryString? || g.state.ReqFragmentStart?
    ensures Step(g, '#') == Progress(ReqFragmentStart, g.target.(hashes := g.target.hashes + 1))
  {
  }

  lemma {:induction false} HashesRead(g: Progress, n: nat)
    requires n > 0 ==> g.state.ReqPath? || g.state.ReqQueryStringStart? || g.state.ReqQueryString?
    ensures Advance(g, Hashes(n)) == if n == 0 then g
        else Progress(ReqFragmentStart, g.target.(hashes := g.target.hashes + n))
  {
    if n > 0 {
      HashesRead(g, n - 1);
      AdvanceSnoc(g, Hashes(n - 1), '#');
      hide Hashes, Advance;
      HashRead(Advance(g, Hashes(n - 1)));
    }
  }

  lemma FragmentStep(g: Progress, ch: char)
    requires Visible(ch) && (g.state.ReqFragment? || (g.state.ReqFragmentStart? && ch != '#'))
    ensures Step(g, ch) == Progress(ReqFragment, g.target.(fragment := g.target.fragment + [ch]))
  {
  }

  lemma {:induction false} FragmentRead(g: Progress, s: string)
    requires FragmentChars(s) && (s != [] ==> g.state.ReqFragmentStart?)
    ensures Advance(g, s) == if s == [] then g else Progress(ReqFragment, g.target.(fragment := g.target.fragment + s))
    decreases |s|
  {
    hide Step, Visible;
    if s != [] {
      var n := |s| - 1;
      assert s == s[..n] + [s[n]] && s[n] in s;
      FragmentRead(g, s[..n]);
      FragmentStep(Advance(g, s[..n]), s[n]);
      AdvanceSnoc(g, s[..n], s[n]);
      assert g.target.fragment + s == (g.target.fragment + s[..n]) + [s[n]];
    }
  }

  lemma HeadRead(connect: bool, t: Target)
    requires Front(connect, t)
    ensures Advance(Start(connect), t.scheme + SLASHES[..t.slashes]) ==
            Progress(if Head(connect, t) then ReqServerStart else ReqSpacesBeforeUrl,
                     BLANK.(scheme := t.scheme, slashes := t.slashes))
  {
    var g, a := Start(connect), t.scheme + SLASHES[..t.slashes];
    if t.scheme == [] {
      assert a == [];
    } else {
      AdvanceConcat(g, t.scheme, SLASHES[..3]);
      assert SLASHES[..3] == SLASHES;
      SchemeRead(g, t.scheme);
      SlashesRead(Advance(g, t.scheme));
      assert BLANK.scheme + t.scheme == t.scheme;
    }
  }

  /** The state after scheme and authority. */
  function HeadState(connect: bool, t: Target): State {
    if t.authority != [] then ServerState(t.authority[|t.authority| - 1])
    else if Head(connect, t) then ReqServerStart else ReqSpacesBeforeUrl
  }

  lemma NoHead(connect: bool, t: Target)
    requires Front(connect, t)
    ensures t.slashes <= 3 && (!Head(connect, t) ==> t.authority == [])
  {
  }

  lemma AuthorityAfter(connect: bool, t: Target)
    requires Front(connect, t) && Flows(t.authority)
    ensures Advance(Start(connect), t.scheme + SLASHES[..t.slashes] + t.authority) ==
            Progress(HeadState(connect, t), BLANK.(scheme := t.scheme, slashes := t.slashes, authority := t.authority))
  {
    hide Front, Flows, Head, ServerState, Start;
    NoHead(connect, t);
    var g, a := Start(connect), t.scheme + SLASHES[..t.slashes];
    HeadRead(connect, t);
    if t.authority == [] {
      assert a + t.authority == a;
    } else {
      hide Advance;
      AdvanceConcat(g, a, t.authority);
      AuthorityRead(Advance(g, a), t.authority);
      assert [] + t.authority == t.authority;
    }
  }

  lemma PathAfter(connect: bool, g: Progress, t: Target)
    requires Front(connect, t) && g.state == HeadState(connect, t)
    ensures Advance(g, t.path) == if t.path == [] then g
        else Progress(ReqPath, g.target.(path := g.target.path + t.path))
    ensures t.path == [] ==> BeforeMark(g.state)
  {
    PathRead(g, t.path);
  }

  lemma FrontRead(connect: bool, t: Target)
    requires Front(connect, t) && Flows(t.authority)
    ensures var s := Advance(Start(connect), FrontText(t)).state;
        && Advance(Start(connect), FrontText(t)) ==
           Progress(s, BLANK.(scheme := t.scheme, slashes := t.slashes, authority := t.authority, path := t.path))
        && (if t.path != [] then s.ReqPath? else BeforeMark(s))
  {
    hide Advance, Front, Flows, HeadState, BeforeMark;
    NoHead(connect, t);
    var g, a := Start(connect), t.scheme + SLASHES[..t.slashes] + t.authority;
    AuthorityAfter(connect, t);
    AdvanceConcat(g, a, t.path);
    assert [] + t.path == t.path;
    PathAfter(connect, Advance(g, a), t);
  }

  /** A text made of valid components is read to its end, and into those components. */
  lemma TargetRead(connect: bool, t: Target)
    requires Front(connect, t) && Flows(t.authority) && Tail(t)
    ensures var g := Advance(Start(connect), Text(t)); !g.state.Dead? && g.target == t
  {
    hide Step, Put, Front, Tail, FrontText, Flows;
    NoHead(connect, t);
    FrontRead(connect, t);
    TailRead(Advance(Start(connect), FrontText(t)), t);
    var f, m, h := FrontText(t), Mark(t.mark, '?') + t.query, Hashes(t.hashes);
    AdvanceConcat(Start(connect), f, m);
    AdvanceConcat(Start(connect), f + m, h);
    AdvanceConcat(Start(connect), f + m + h, t.fragment);
    assert f + m + h + t.fragment == Text(t);
  }

  lemma TailRead(g: Progress, t: Target)
    requires Tail(t) && g.target == t.(mark := false, query := [], hashes := 0, fragment := [])
    requires if t.path != [] then g.state.ReqPath? else BeforeMark(g.state)
    ensures var z := Advance(Advance(Advance(g, Mark(t.mark, '?') + t.query), Hashes(t.hashes)), t.fragment);
        !z.state.Dead? && z.target == t
  {
    QueryRead(g, t.mark, t.query);
    var q := Advance(g, Mark(t.mark, '?') + t.query);
    HashesRead(q, t.hashes);
    FragmentRead(Advance(q, Hashes(t.hashes)), t.fragment);
  }
}
