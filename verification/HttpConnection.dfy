/** Lists of tokens in Connection headers, and which of their tokens the parser hears. */
module HttpConnection {
  import opened Ascii
  import opened HttpChars
  import opened HttpMachine
  import opened HttpRun
  import opened HttpText

  // ---------------------------------------------------------------- lists of tokens

  function Comma(v: string): (n: nat)
    ensures n <= |v| && ',' !in v[..n] && (n < |v| ==> v[n] == ',') && (n == |v| <==> ',' !in v)
  {
    if v == [] || v[0] == ',' then 0 else 1 + Comma(v[1..])
  }

  /** What stands between the commas. */
  function Items(v: string): (items: seq<string>)
    ensures items != []
  {
    var n := Comma(v);
    if n == |v| then [v] else [v[..n]] + Items(v[n + 1..])
  }

  /** Without the blanks in front. */
  function Stripped(item: string): (t: string)
    ensures t == [] || t[0] != ' '
  {
    if item != [] && item[0] == ' ' then Stripped(item[1..]) else item
  }

  /** A token; one that starts with '_' makes the parser give up on the rest of the line. */
  predicate IsItem(item: string) {
    var t := Stripped(item);
    IsName(t) && t[0] != '_'
  }

  predicate IsList(v: string) {
    (forall item | item in Items(v) :: IsItem(item)) && v != [] && v[0] != ' '
  }

  predicate Begins(t: string, word: string) { |t| < |word| && t == word[..|t|] }

  /** The token is cut short: the comma behind it is taken for a wrong letter of the word. */
  predicate CutShort(t: string) { Begins(t, "keep-alive") || Begins(t, "close") || Begins(t, "upgrade") }

  /** Some token that the parser listens to is `word`.  It does not listen to a token behind
      one that was cut short. */
  predicate Hears(items: seq<string>, listening: bool, word: string) {
    items != [] &&
    var t := LowerName(Stripped(items[0]));
    (listening && t == word) || Hears(items[1..], !(listening && CutShort(t)), word)
  }

  function TokenAt(items: seq<string>, i: nat): string
    requires i < |items|
  {
    LowerName(Stripped(items[i]))
  }

  /** How many tokens directly in front of the i-th can be cut short. */
  function CutRun(items: seq<string>, i: nat): nat
    requires i <= |items|
  {
    if i == 0 || !CutShort(TokenAt(items, i - 1)) then 0 else 1 + CutRun(items, i - 1)
  }

  lemma {:induction false} HeardFrom(items: seq<string>, k: nat, word: string)
    requires k <= |items|
    ensures Hears(items[k..], CutRun(items, k) % 2 == 0, word) <==>
            exists i | k <= i < |items| :: TokenAt(items, i) == word && CutRun(items, i) % 2 == 0
    decreases |items| - k
  {
    hide CutShort, LowerName, Stripped;
    if k < |items| {
      HeardFrom(items, k + 1, word);
      assert items[k..][0] == items[k] && items[k..][1..] == items[k + 1..];
    }
  }

  /** A word is heard if and only if it is listed behind an even number of tokens that can be
      cut short, of which every second one is. */
  lemma HeardExact(items: seq<string>, word: string)
    ensures Hears(items, true, word) <==>
            exists i | 0 <= i < |items| :: TokenAt(items, i) == word && CutRun(items, i) % 2 == 0
  {
    assert items[0..] == items;
    HeardFrom(items, 0, word);
  }

  lemma NoComma(v: string)
    requires ',' !in v
    ensures Items(v) == [v]
  {
  }

  lemma {:induction false} CommaAt(a: string, b: string)
    requires ',' !in a
    ensures Comma(a + "," + b) == |a|
  {
    if a != [] {
      assert (a + "," + b)[1..] == a[1..] + "," + b;
      CommaAt(a[1..], b);
    }
  }

  lemma ItemsMore(a: string, b: string)
    requires ',' !in a
    ensures Items(a + "," + b) == [a] + Items(b)
  {
    CommaAt(a, b);
    var v := a + "," + b;
    assert v[..|a|] == a && v[|a| + 1..] == b;
  }

  lemma LowerOf(w: string)
    requires forall c | c in w :: Between(c, 97, 122)
    ensures LowerName(w) == w
  {
    forall i | 0 <= i < |w| ensures LowerName(w)[i] == w[i] { assert w[i] in w; }
  }

  /** "up, close" does not close the connection. */
  lemma CutShortExample()
    ensures Items("up, close") == ["up", " close"] && IsItem("up") && IsItem(" close")
    ensures TokenAt(Items("up, close"), 1) == "close" && !Hears(Items("up, close"), true, "close")
  {
    hide Items, Comma, Hears, IsName, LowerName, Between, CutShort;
    assert "up, close" == "up" + "," + " close";
    ItemsMore("up", " close");
    NoComma(" close");
    assert " close"[1..] == "close" && Stripped(" close") == "close" && Stripped("up") == "up";
    SmallWords();
    LowerOf("up");
    LowerOf("close");
    HearsTwo("up", " close", "close");
  }

  lemma SmallWords()
    ensures IsName("up") && IsName("close") && CutShort("up")
    ensures forall c | c in "up" || c in "close" :: Between(c, 97, 122)
  {
    assert Begins("up", "upgrade");
  }

  lemma HearsTwo(a: string, b: string, word: string)
    ensures var s, t := LowerName(Stripped(a)), LowerName(Stripped(b));
        Hears([a, b], true, word) <==> s == word || (!CutShort(s) && t == word)
  {
    hide LowerName, CutShort, Stripped;
    assert [a, b][1..] == [b] && [b][1..] == [];
    var s, t := LowerName(Stripped(a)), LowerName(Stripped(b));
    assert Hears([b], !CutShort(s), word) <==> (!CutShort(s) && t == word);
  }

  // ---------------------------------------------------------------- the machine

  /** The header state after the lower-case letters `t` of a token. */
  predicate Hearing(c: Core, listening: bool, t: string) {
    var h := c.headerState;
    if !listening then h.MatchingConnectionToken?
    else if t == "keep-alive" then h.ConnectionKeepAlive?
    else if t == "close" then h.ConnectionClose?
    else if t == "upgrade" then h.ConnectionUpgrade?
    else if Begins(t, "keep-alive") then h.MatchingConnectionKeepAlive? && c.index == |t| - 1
    else if Begins(t, "close") then h.MatchingConnectionClose? && c.index == |t| - 1
    else if Begins(t, "upgrade") then h.MatchingConnectionUpgrade? && c.index == |t| - 1
    else h.MatchingConnectionToken?
  }

  /** Only the scratch fields of the matcher differ. */
  predicate SameRecord(c: Core, d: Core) { d == c.(headerState := d.headerState, index := d.index) }

  lemma BeginsMore(t: string, c: char, word: string)
    ensures Begins(t + [c], word) <==> Begins(t, word) && |t| + 1 < |word| && word[|t|] == c
    ensures t + [c] == word <==> Begins(t, word) && |t| + 1 == |word| && word[|t|] == c
  {
    if |t| < |word| { assert word[..|t| + 1] == word[..|t|] + [word[|t|]]; }
    if |t| + 1 <= |word| && t + [c] == word[..|t| + 1] { assert (t + [c])[..|t|] == t; }
    if t + [c] == word { assert word[..|t| + 1] == word; }
  }

  /** A token character: `c | 0x20` folds its case where it matters. */
  lemma TokenLetter(ch: char)
    requires TokenCode(ch)
    ensures IsToken(ch) && IsHeaderChar(ch) && ch != ',' && ch != ' ' && ch != CR && ch != LF && ch != TAB
    ensures ch != '_' ==> IsToken(Lower(ch))
    ensures forall w | w in "abcdefghijklmnopqrstuvwxyz-" :: Lower(ch) == w <==> Fold(ch) == w
  {
    hide Lower, Fold;
    if ch != '_' { LowerToken(ch); }
    forall w | w in "abcdefghijklmnopqrstuvwxyz-" ensures Lower(ch) == w <==> Fold(ch) == w {
      assert Between(w, 97, 122) || w == '-';
      LowerLetter(ch, w);
    }
  }

  lemma LowerToken(ch: char)
    requires TokenCode(ch) && ch != '_'
    ensures IsToken(Lower(ch))
  {
  }

  lemma LowerLetter(ch: char, w: char)
    requires TokenCode(ch) && (Between(w, 97, 122) || w == '-')
    ensures Lower(ch) == w <==> Fold(ch) == w
  {
  }

  /** The three words start with different letters. */
  lemma OneWord(t: string)
    requires t != []
    ensures (t[0] == 'k' || (!Begins(t, "keep-alive") && t != "keep-alive"))
    ensures (t[0] == 'c' || (!Begins(t, "close") && t != "close"))
    ensures (t[0] == 'u' || (!Begins(t, "upgrade") && t != "upgrade"))
    ensures !Begins("keep-alive", "keep-alive") && !Begins("close", "close") && !Begins("upgrade", "upgrade")
  {
  }

  function WordState(word: string, done: bool): HeaderState {
    if word == "close" then (if done then ConnectionClose else MatchingConnectionClose)
    else if word == "upgrade" then (if done then ConnectionUpgrade else MatchingConnectionUpgrade)
    else if done then ConnectionKeepAlive else MatchingConnectionKeepAlive
  }

  predicate IsWord(word: string) { word == "keep-alive" || word == "close" || word == "upgrade" }

  /** Inside one of the words. */
  lemma InsideWord(c: Core, t: string, word: string, ch: char)
    requires IsWord(word) && t != [] && Begins(t, word) && c.headerState == WordState(word, false) && c.index == |t| - 1
    requires TokenCode(ch)
    ensures var m := if word[|t|] != Fold(ch) then MatchingConnectionToken else WordState(word, |t| + 1 == |word|);
        ValueNext(c, ch) == ValueMove(c.(headerState := m, index := |t|), ch)
  {
    hide TokenCode, Lower, Fold, LengthDigit, TokenEnd, IsToken;
    TokenLetter(ch);
    LettersOf(word, |t|);
  }

  lemma LettersOf(word: string, i: nat)
    requires IsWord(word) && i < |word|
    ensures word[i] in "abcdefghijklmnopqrstuvwxyz-"
  {
  }

  /** What an inside step means for the token read so far. */
  lemma StillInside(c: Core, d: Core, t: string, word: string, f: char)
    requires IsWord(word) && t != [] && Begins(t, word) && d.index == |t|
    requires d.headerState == if word[|t|] != f then MatchingConnectionToken else WordState(word, |t| + 1 == |word|)
    ensures Hearing(d, true, t + [f])
  {
    OneWord(t);
    OneWord(t + [f]);
    BeginsMore(t, f, "keep-alive");
    BeginsMore(t, f, "close");
    BeginsMore(t, f, "upgrade");
    hide Begins;
  }

  lemma NextHearing(c: Core, listening: bool, t: string, ch: char) returns (d: Core)
    requires Hearing(c, listening, t) && t != [] && TokenCode(ch)
    ensures ValueNext(c, ch) == ValueMove(d, ch) && SameRecord(c, d) && Hearing(d, listening, t + [Fold(ch)])
  {
    hide TokenCode, Fold, LengthDigit, MatchWord;
    OneWord(t);
    if listening && Begins(t, "keep-alive") {
      InsideWord(c, t, "keep-alive", ch);
      d := ValueNext(c, ch).core;
      StillInside(c, d, t, "keep-alive", Fold(ch));
    } else if listening && Begins(t, "close") {
      InsideWord(c, t, "close", ch);
      d := ValueNext(c, ch).core;
      StillInside(c, d, t, "close", Fold(ch));
    } else if listening && Begins(t, "upgrade") {
      InsideWord(c, t, "upgrade", ch);
      d := ValueNext(c, ch).core;
      StillInside(c, d, t, "upgrade", Fold(ch));
    } else {
      TokenLetter(ch);
      d := c.(headerState := MatchingConnectionToken);
      BeginsMore(t, Fold(ch), "keep-alive");
      BeginsMore(t, Fold(ch), "close");
      BeginsMore(t, Fold(ch), "upgrade");
    }
  }

  /** Which of the words a token can become after its first letter. */
  lemma FirstOfWord(ch: char)
    requires TokenCode(ch)
    ensures var f, t := Fold(ch), [Fold(ch)];
        && (Begins(t, "keep-alive") <==> f == 'k') && (Begins(t, "close") <==> f == 'c')
        && (Begins(t, "upgrade") <==> f == 'u') && t != "keep-alive" && t != "close" && t != "upgrade"
        && (Lower(ch) == 'k' <==> f == 'k') && (Lower(ch) == 'c' <==> f == 'c') && (Lower(ch) == 'u' <==> f == 'u')
    ensures ch != ',' && ch != ' ' && ch != CR && ch != LF && ch != TAB && (ch != '_' ==> IsToken(Lower(ch)))
  {
    TokenLetter(ch);
    hide TokenCode, Fold, Lower, IsToken;
    assert 'k' in "abcdefghijklmnopqrstuvwxyz-" && 'c' in "abcdefghijklmnopqrstuvwxyz-"
        && 'u' in "abcdefghijklmnopqrstuvwxyz-";
    assert [] + [Fold(ch)] == [Fold(ch)];
    BeginsMore([], Fold(ch), "keep-alive");
    BeginsMore([], Fold(ch), "close");
    BeginsMore([], Fold(ch), "upgrade");
  }

  lemma FirstHearing(c: Core, ch: char) returns (d: Core)
    requires TokenCode(ch) && c.headerState.Connection?
    ensures ValueStart(c, ch) == ValueMove(d, ch) && SameRecord(c.(state := HeaderValue), d)
    ensures Hearing(d, true, [Fold(ch)])
  {
    hide TokenCode, Fold, Lower;
    FirstOfWord(ch);
    d := ValueStart(c, ch).core;
  }

  lemma FirstInList(c: Core, ch: char) returns (d: Core)
    requires TokenCode(ch) && ch != '_' && c.headerState.MatchingConnectionTokenStart? && c.index == 0
    ensures ValueNext(c, ch) == ValueMove(d, ch) && SameRecord(c, d) && Hearing(d, true, [Fold(ch)])
  {
    hide TokenCode, Fold, Lower, IsToken;
    FirstOfWord(ch);
    d := ValueNext(c, ch).core;
  }

  // ---------------------------------------------------------------- items and lists

  /** In front of an item. */
  predicate Entering(c: Core, first: bool, listening: bool) {
    if first then c.state.HeaderValueDiscardWs? && c.headerState.Connection? && listening
    else
      && c.state.HeaderValue?
      && if listening then c.headerState.MatchingConnectionTokenStart? && c.index == 0
         else c.headerState.MatchingConnectionToken?
  }

  function InValue(c: Core): Core { c.(state := HeaderValue) }

  /** The machine has read `s` of a value. */
  predicate ValueRead(cfg: Settings, r: Run, s: string, z: Run) {
    Eats(cfg, r, s, z) && SameRecord(InValue(r.core), z.core) && z.trace == Emit(r.trace, Data(Value, s))
  }

  lemma ValueReadOn(cfg: Settings, r: Run, a: string, x: Run, b: string, z: Run)
    requires ValueRead(cfg, r, a, x) && ValueRead(cfg, x, b, z)
    ensures ValueRead(cfg, r, a + b, z)
  {
    EatsThen(cfg, r, a, x, b, z);
    EmitTwice(r.trace, Value, a, b);
  }

  lemma {:induction false} TokenEaten(cfg: Settings, r: Run, first: bool, listening: bool, t: string) returns (z: Run)
    requires Entering(r.core, first, listening) && IsName(t) && t[0] != '_'
    ensures ValueRead(cfg, r, t, z) && Hearing(z.core, listening, LowerName(t))
    decreases |t|
  {
    hide Hearing, ValueRead, TokenCode;
    var n := |t| - 1;
    var v, ch := t[..n], t[n];
    assert t == v + [ch] && ch in t && forall c | c in v :: c in t;
    if n == 0 {
      assert t == [ch] && LowerName(t) == [Fold(ch)] by { OneLetter(ch); }
      z := FirstEaten(cfg, r, first, listening, ch);
    } else {
      var x := TokenEaten(cfg, r, first, listening, v);
      LowerMore(v, ch);
      z := LetterEaten(cfg, x, listening, LowerName(v), ch) by { ReadState(cfg, r, v, x); }
      ValueReadOn(cfg, r, v, x, [ch], z);
    }
  }

  lemma OneLetter(ch: char)
    ensures LowerName([ch]) == [Fold(ch)]
  {
    assert [ch][1..] == [];
  }

  lemma {:induction false} LowerMore(v: string, ch: char)
    ensures LowerName(v + [ch]) == LowerName(v) + [Fold(ch)]
  {
    var a, b := LowerName(v + [ch]), LowerName(v) + [Fold(ch)];
    forall i | 0 <= i < |a| ensures a[i] == b[i] {}
    assert a == b;
  }

  lemma ReadState(cfg: Settings, r: Run, s: string, z: Run)
    requires ValueRead(cfg, r, s, z)
    ensures z.core.state.HeaderValue? && z.core.flags == r.core.flags
  {
  }

  lemma FirstEaten(cfg: Settings, r: Run, first: bool, listening: bool, ch: char) returns (z: Run)
    requires Entering(r.core, first, listening) && TokenCode(ch) && ch != '_'
    ensures ValueRead(cfg, r, [ch], z) && Hearing(z.core, listening, [Fold(ch)])
  {
    hide TokenCode, Fold, Emit, Begins, Eats, ValueStart, ValueNext, IsHeaderChar;
    TokenLetter(ch);
    var d: Core;
    if first {
      d := FirstHearing(r.core, ch);
      StartDispatched(OptionsAt(cfg, r), r.core, ch);
    } else {
      if listening { d := FirstInList(r.core, ch); } else { d := r.core; DeafLetter(d, ch); }
      NextDispatched(OptionsAt(cfg, r), r.core, ch);
    }
    z := Run(d, Emit(r.trace, Data(Value, [ch])));
    Takes(cfg, r, ch, ValueMove(d, ch));
  }

  lemma DeafLetter(c: Core, ch: char)
    requires c.headerState.MatchingConnectionToken? && ch != ','
    ensures ValueNext(c, ch) == ValueMove(c, ch) && forall t :: Hearing(c, false, t)
  {
  }

  lemma StartDispatched(opt: Options, c: Core, ch: char)
    requires c.state.HeaderValueDiscardWs? && ch != ' ' && ch != TAB && ch != CR && ch != LF
    ensures Dispatch(opt, c, ch) == ValueStart(c, ch)
  {
    hide ValueStart;
  }

  lemma NextDispatched(opt: Options, c: Core, ch: char)
    requires c.state.HeaderValue? && ch != CR && ch != LF && IsHeaderChar(ch)
    ensures Dispatch(opt, c, ch) == ValueNext(c, ch)
  {
    hide ValueNext, IsHeaderChar;
  }

  lemma LetterEaten(cfg: Settings, r: Run, listening: bool, t: string, ch: char) returns (z: Run)
    requires r.core.state.HeaderValue? && t != [] && Hearing(r.core, listening, t) && TokenCode(ch)
    ensures ValueRead(cfg, r, [ch], z) && Hearing(z.core, listening, t + [Fold(ch)])
  {
    hide TokenCode, Fold, Emit, Begins, Eats, ValueNext, IsHeaderChar;
    TokenLetter(ch);
    NotGeneral(r.core, listening, t);
    var d := NextHearing(r.core, listening, t, ch);
    NextDispatched(OptionsAt(cfg, r), r.core, ch);
    z := Run(d, Emit(r.trace, Data(Value, [ch])));
    Takes(cfg, r, ch, ValueMove(d, ch));
  }

  lemma NotGeneral(c: Core, listening: bool, t: string)
    requires Hearing(c, listening, t)
    ensures !c.headerState.General?
  {
  }

  lemma BlankSkipped(cfg: Settings, r: Run, listening: bool) returns (z: Run)
    requires Entering(r.core, false, listening)
    ensures ValueRead(cfg, r, " ", z) && Entering(z.core, false, listening)
  {
    z := Run(r.core, Emit(r.trace, Data(Value, " ")));
    BlankKept(r.core, listening);
    NextDispatched(OptionsAt(cfg, r), r.core, ' ');
    hide Dispatch, ValueNext, Emit, Eats;
    Takes(cfg, r, ' ', ValueMove(r.core, ' '));
  }

  lemma BlankKept(c: Core, listening: bool)
    requires Entering(c, false, listening)
    ensures ValueNext(c, ' ') == ValueMove(c, ' ')
  {
  }

  lemma {:induction false} ItemEaten(cfg: Settings, r: Run, first: bool, listening: bool, item: string) returns (z: Run)
    requires Entering(r.core, first, listening) && IsItem(item) && (first ==> item[0] != ' ')
    ensures ValueRead(cfg, r, item, z) && Hearing(z.core, listening, LowerName(Stripped(item)))
    decreases |item|
  {
    hide Hearing, ValueRead, TokenCode, LowerName, Entering;
    if item[0] == ' ' {
      var x := BlankSkipped(cfg, r, listening);
      z := ItemEaten(cfg, x, false, listening, item[1..]);
      ValueReadOn(cfg, r, " ", x, item[1..], z);
      assert " " + item[1..] == item;
    } else {
      z := TokenEaten(cfg, r, first, listening, item);
    }
  }

  /** The flag of a token that was heard. */
  function AddFlag(f: Flags, listening: bool, t: string): Flags {
    if !listening then f
    else if t == "keep-alive" then f.(keepAlive := true)
    else if t == "close" then f.(close := true)
    else if t == "upgrade" then f.(connectionUpgrade := true)
    else f
  }

  lemma CommaHeard(c: Core, listening: bool, t: string) returns (d: Core)
    requires c.state.HeaderValue? && Hearing(c, listening, t) && t != []
    ensures ValueNext(c, ',') == ValueMove(d, ',') && Entering(d, false, !(listening && CutShort(t)))
    ensures SameRecord(c.(flags := AddFlag(c.flags, listening, t)), d)
  {
    d := ValueNext(c, ',').core;
    OneWord(t);
    if listening { CommaInside(c, t); }
    hide Begins, MatchWord;
  }

  lemma CommaInside(c: Core, t: string)
    requires t != [] && Hearing(c, true, t)
    ensures CutShort(t) ==>
        ValueNext(c, ',') == ValueMove(c.(headerState := MatchingConnectionToken, index := |t|), ',')
  {
    OneWord(t);
  }

  lemma CommaEaten(cfg: Settings, r: Run, listening: bool, t: string) returns (z: Run)
    requires r.core.state.HeaderValue? && Hearing(r.core, listening, t) && t != []
    ensures Eats(cfg, r, ",", z) && Entering(z.core, false, !(listening && CutShort(t)))
    ensures SameRecord(r.core.(flags := AddFlag(r.core.flags, listening, t)), z.core)
    ensures z.trace == Emit(r.trace, Data(Value, ","))
  {
    NotGeneral(r.core, listening, t);
    var d := CommaHeard(r.core, listening, t);
    NextDispatched(OptionsAt(cfg, r), r.core, ',');
    hide Dispatch, ValueNext, Emit, Eats, Hearing;
    z := Run(d, Emit(r.trace, Data(Value, ",")));
    Takes(cfg, r, ',', ValueMove(d, ','));
  }

  function Joined(items: seq<string>): string
    requires items != []
  {
    if |items| == 1 then items[0] else items[0] + ("," + Joined(items[1..]))
  }

  lemma {:induction false} ItemsJoined(v: string)
    ensures Joined(Items(v)) == v
    decreases |v|
  {
    hide Comma, Items, Joined;
    var n := Comma(v);
    ItemsFirst(v);
    if n == |v| {
      JoinedOne(v);
    } else {
      CommaCuts(v, n);
      ItemsJoined(v[n + 1..]);
      JoinedMore(v[..n], Items(v[n + 1..]));
    }
  }

  lemma ItemsFirst(v: string)
    ensures var n := Comma(v); Items(v) == if n == |v| then [v] else [v[..n]] + Items(v[n + 1..])
  {
    hide Comma;
  }

  lemma JoinedOne(v: string)
    ensures Joined([v]) == v
  {
  }

  lemma CommaCuts(v: string, n: nat)
    requires n < |v| && v[n] == ','
    ensures v == v[..n] + ("," + v[n + 1..])
  {
  }

  lemma JoinedMore(a: string, items: seq<string>)
    requires items != []
    ensures Joined([a] + items) == a + ("," + Joined(items))
  {
    assert ([a] + items)[1..] == items;
  }

  /** The flags once the line is over. */
  function HeardFlags(f: Flags, items: seq<string>, listening: bool): Flags
    decreases |items|
  {
    if items == [] then f
    else
      var t := LowerName(Stripped(items[0]));
      HeardFlags(AddFlag(f, listening, t), items[1..], !(listening && CutShort(t)))
  }

  /** The three wishes that a Connection header can express. */
  function WithWishes(f: Flags, keep: bool, close: bool, upgrade: bool): Flags {
    f.(keepAlive := f.keepAlive || keep, close := f.close || close,
       connectionUpgrade := f.connectionUpgrade || upgrade)
  }

  lemma NoWishes(f: Flags)
    ensures WithWishes(f, false, false, false) == f
  {
  }

  lemma {:induction false} HeardMeans(f: Flags, items: seq<string>, listening: bool)
    ensures HeardFlags(f, items, listening) ==
            WithWishes(f, Hears(items, listening, "keep-alive"), Hears(items, listening, "close"),
                       Hears(items, listening, "upgrade"))
    decreases |items|
  {
    hide CutShort, LowerName, Stripped, AddFlag, Hears, HeardFlags, WithWishes;
    HeardFirst(f, items, listening);
    if items == [] {
      NoWishes(f);
    } else {
      var t := LowerName(Stripped(items[0]));
      HeardMeans(AddFlag(f, listening, t), items[1..], !(listening && CutShort(t)));
      HearsFirst(items, listening, "keep-alive");
      HearsFirst(items, listening, "close");
      HearsFirst(items, listening, "upgrade");
      var next := !(listening && CutShort(t));
      var a, b, c := Hears(items[1..], next, "keep-alive"), Hears(items[1..], next, "close"),
                     Hears(items[1..], next, "upgrade");
      FlagsJoin(f, listening, t, a, b, c);
    }
  }

  lemma FlagsJoin(f: Flags, listening: bool, t: string, a: bool, b: bool, c: bool)
    ensures WithWishes(AddFlag(f, listening, t), a, b, c) ==
            WithWishes(f, (listening && t == "keep-alive") || a, (listening && t == "close") || b,
                       (listening && t == "upgrade") || c)
  {
    if !listening {
    } else if t == "keep-alive" {
    } else if t == "close" {
    } else if t == "upgrade" {
    }
  }

  lemma HeardFirst(f: Flags, items: seq<string>, listening: bool)
    ensures items == [] ==> HeardFlags(f, items, listening) == f && forall w :: !Hears(items, listening, w)
    ensures items != [] ==>
        var t := LowerName(Stripped(items[0]));
        HeardFlags(f, items, listening) ==
        HeardFlags(AddFlag(f, listening, t), items[1..], !(listening && CutShort(t)))
  {
    hide CutShort, LowerName, Stripped, AddFlag;
  }

  lemma HearsFirst(items: seq<string>, listening: bool, word: string)
    requires items != []
    ensures var t := LowerName(Stripped(items[0]));
        Hears(items, listening, word) <==>
        (listening && t == word) || Hears(items[1..], !(listening && CutShort(t)), word)
  {
    hide CutShort, LowerName, Stripped;
  }


  /** A value read to its end: what the end of the line makes of the flags. */
  predicate ListRead(cfg: Settings, r: Run, v: string, z: Run, f: Flags) {
    && Eats(cfg, r, v, z) && z.core.state.HeaderValue? && WithLineFlag(z.core.flags, z.core.headerState) == f
    && SameRecord(InValue(r.core).(flags := z.core.flags), z.core) && z.trace == Emit(r.trace, Data(Value, v))
  }

  lemma LastHeard(c: Core, listening: bool, t: string)
    requires Hearing(c, listening, t) && t != []
    ensures WithLineFlag(c.flags, c.headerState) == AddFlag(c.flags, listening, t)
  {
    OneWord(t);
    hide Begins;
  }

  lemma {:induction false} ListEaten(cfg: Settings, r: Run, first: bool, listening: bool, items: seq<string>)
      returns (z: Run)
    requires items != [] && forall item | item in items :: IsItem(item)
    requires first ==> items[0] != [] && items[0][0] != ' '
    requires Entering(r.core, first, listening)
    ensures ListRead(cfg, r, Joined(items), z, HeardFlags(r.core.flags, items, listening))
    decreases |items|
  {
    hide Hearing, ValueRead, IsItem, LowerName, Stripped, CutShort, ListRead, AddFlag;
    var item, t := items[0], LowerName(Stripped(items[0]));
    assert item in items && forall i | i in items[1..] :: i in items;
    Named(item);
    var x := ItemEaten(cfg, r, first, listening, item);
    if |items| == 1 {
      z := x;
      LastItem(cfg, r, item, z, listening);
      assert items[1..] == [];
    } else {
      ReadState(cfg, r, item, x);
      var y := CommaEaten(cfg, x, listening, t);
      z := ListEaten(cfg, y, false, !(listening && CutShort(t)), items[1..]);
      ListGoesOn(cfg, r, item, x, y, Joined(items[1..]), z, listening,
                 HeardFlags(AddFlag(r.core.flags, listening, t), items[1..], !(listening && CutShort(t))));
    }
  }

  lemma Named(item: string)
    requires IsItem(item)
    ensures item != [] && LowerName(Stripped(item)) != []
  {
  }

  lemma LastItem(cfg: Settings, r: Run, item: string, z: Run, listening: bool)
    requires ValueRead(cfg, r, item, z) && IsItem(item) && Hearing(z.core, listening, LowerName(Stripped(item)))
    ensures ListRead(cfg, r, item, z, AddFlag(r.core.flags, listening, LowerName(Stripped(item))))
  {
    Named(item);
    hide Hearing, LowerName, Stripped, IsItem, Eats, Emit;
    LastHeard(z.core, listening, LowerName(Stripped(item)));
  }

  lemma ListGoesOn(cfg: Settings, r: Run, item: string, x: Run, y: Run, rest: string, z: Run, listening: bool, f: Flags)
    requires ValueRead(cfg, r, item, x) && Eats(cfg, x, ",", y) && y.trace == Emit(x.trace, Data(Value, ","))
    requires SameRecord(x.core.(flags := AddFlag(x.core.flags, listening, LowerName(Stripped(item)))), y.core)
    requires ListRead(cfg, y, rest, z, f) && y.core.state.HeaderValue?
    ensures ListRead(cfg, r, item + ("," + rest), z, f)
  {
    hide Eats, LowerName, Stripped, AddFlag, WithLineFlag, Emit;
    EatsThen(cfg, x, ",", y, rest, z);
    EatsThen(cfg, r, item, x, "," + rest, z);
    EmitTwice(x.trace, Value, ",", rest);
    EmitTwice(r.trace, Value, item, "," + rest);
  }

  // ---------------------------------------------------------------- giving up

  /** A byte of a value that nobody interprets. */
  lemma DeafByte(cfg: Settings, skipping: bool, r: Run, ch: char)
    requires r.core.state.HeaderValue? && r.core.headerState.General? && ValueCode(ch)
    ensures Feed(cfg, skipping, r, [ch]) == Fed(Run(r.core, Emit(r.trace, Data(Value, [ch]))))
  {
    NextDispatched(OptionsAt(View(cfg, skipping), r), r.core, ch);
    assert [ch][1..] == [];
  }

  /** What no item can start with, to the parser: the delimiters, and '_' and the tabulator,
      which `c | 0x20` turns into characters that are no part of a token. */
  predicate Deafens(c: char) {
    c in "\"(),/:;<=>?[]{}" || c as int == 95 || c as int == 9 || c as int >= 128
  }

  lemma LowerDeaf(ch: char)
    requires ValueCode(ch) && ch != ' '
    ensures IsToken(Lower(ch)) <==> !Deafens(ch)
    ensures Lower(ch) != ' ' && Lower(ch) != TAB && (Deafens(ch) ==> Lower(ch) !in "kcu")
  {
    var n := ch as int;
    if n < 64 {
    } else if n < 96 {
    } else if n < 128 {
    }
  }

  /** At the start of an item exactly these bytes make the parser give up. */
  lemma GivesUpExact(cfg: Settings, r: Run, ch: char)
    requires Entering(r.core, false, true) && ValueCode(ch)
    ensures var f := Feed(cfg, false, r, [ch]);
        && f.Fed? && f.run.trace == Emit(r.trace, Data(Value, [ch]))
        && f.run.core == r.core.(headerState := f.run.core.headerState)
        && (f.run.core.headerState.General? <==> Deafens(ch))
  {
    hide Lower, IsToken, Deafens;
    NextDispatched(OptionsAt(View(cfg, false), r), r.core, ch);
    assert [ch][1..] == [];
    if ch == ' ' { BlankDeaf(); } else { LowerDeaf(ch); }
  }

  lemma BlankDeaf()
    ensures !Deafens(' ') && Lower(' ') == ' '
  {
  }

  /** Then it is deaf to all that follows in the value: "a,\tclose" does not close. */
  lemma {:induction false} GivesUp(cfg: Settings, r: Run, s: string)
    requires Entering(r.core, false, true) && s != [] && Deafens(s[0])
    requires forall c | c in s :: ValueCode(c)
    ensures Feed(cfg, false, r, s) == Fed(Run(r.core.(headerState := General), Emit(r.trace, Data(Value, s))))
    ensures WithLineFlag(r.core.flags, General) == r.core.flags
    decreases |s|
  {
    hide Feed, Emit, ValueCode, Deafens;
    var n := |s| - 1;
    var v, ch := s[..n], s[n];
    assert s == v + [ch] && ch in s && forall c | c in v :: c in s;
    if n == 0 {
      assert s == [ch];
      GivesUpExact(cfg, r, ch);
    } else {
      GivesUp(cfg, r, v);
      FeedOn(cfg, false, r, v, [ch]);
      DeafByte(cfg, SkippingAfter(cfg, false, r, v), Feed(cfg, false, r, v).run, ch);
      EmitTwice(r.trace, Value, v, [ch]);
    }
  }
}
