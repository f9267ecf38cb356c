/** The field record of the URL parser, step by step. */
module UrlFields {
  import opened HttpChars
  import opened HttpMachine
  import opened UrlGrammar
  import opened UrlHost
  import opened UrlComponents

  /** Offsets and lengths are 16-bit numbers. */
  const TEXT_LIMIT := 0x1_0000

  function Low16(n: nat): (r: nat)
    ensures r <= n && r < TEXT_LIMIT && (r == n <==> n < TEXT_LIMIT)
  {
    n % TEXT_LIMIT
  }

  lemma Low16Next(n: nat)
    ensures Low16(Low16(n) + 1) == Low16(n + 1)
  {
    var q, r := n / TEXT_LIMIT, n % TEXT_LIMIT;
    assert n + 1 == TEXT_LIMIT * q + (r + 1);
    if r + 1 < TEXT_LIMIT {
      Remainder(n + 1, q, r + 1);
    } else {
      Remainder(n + 1, q + 1, 0);
    }
  }

  lemma Remainder(n: nat, q: nat, r: nat)
    requires n == TEXT_LIMIT * q + r && r < TEXT_LIMIT
    ensures n % TEXT_LIMIT == r
  {
  }

  datatype Span = Span(off: nat, len: nat)

  /** The bit set `field_set` and the table `field_data`. */
  datatype Fields = Fields(given: set<UrlField>, data: map<UrlField, Span>)

  function Begun(d: Fields, f: UrlField, p: nat): Fields {
    Fields(d.given + {f}, d.data[f := Span(Low16(p), 1)])
  }

  function Grown(d: Fields, f: UrlField): Fields
    requires f in d.data
  {
    d.(data := d.data[f := Span(d.data[f].off, Low16(d.data[f].len + 1))])
  }

  /** The given fields lie in front of position `p`. */
  predicate Inside(d: Fields, p: nat) {
    forall f | f in d.given :: f in d.data && d.data[f].off + d.data[f].len <= p
  }

  // ---------------------------------------------------------------- scanning the target

  datatype Choice = Delimiter | Of(field: UrlField)

  /** The field that a character leading to state `s` belongs to. */
  function FieldOf(s: State): Choice {
    match s
    case ReqSchema => Of(Schema)
    case ReqServer => Of(HostName)
    case ReqServerWithAt => Of(HostName)
    case ReqPath => Of(Path)
    case ReqQueryString => Of(Query)
    case ReqFragment => Of(Fragment)
    case _ => Delimiter
  }

  /** While the target is scanned, the host field stands for the whole authority. */
  function Piece(t: Target, f: UrlField): string {
    match f
    case Schema => t.scheme
    case HostName => t.authority
    case Path => t.path
    case Query => t.query
    case Fragment => t.fragment
    case _ => []
  }

  function PieceAt(t: Target, f: UrlField): nat {
    var site := |t.scheme| + t.slashes;
    var query := site + |t.authority| + |t.path| + Width(t.mark);
    match f
    case HostName => site
    case Path => site + |t.authority|
    case Query => query
    case Fragment => query + |t.query| + t.hashes
    case _ => 0
  }

  predicate Given(d: Fields, t: Target) {
    forall f :: f in d.given <==> Piece(t, f) != []
  }

  predicate Spanned(d: Fields, t: Target) {
    forall f | f in d.given :: f in d.data && d.data[f] == Span(Low16(PieceAt(t, f)), Low16(|Piece(t, f)|))
  }

  /** The authority ends where 16 bits reach. */
  predicate Near(t: Target) {
    PieceAt(t, Path) < 65536
  }

  /** The field begun last. */
  function LastField(t: Target): Choice {
    if t.fragment != [] then Of(Fragment)
    else if t.query != [] then Of(Query)
    else if t.path != [] then Of(Path)
    else if t.authority != [] then Of(HostName)
    else if t.scheme != [] then Of(Schema)
    else Delimiter
  }

  /** The record after a character that leads to state `s`. */
  function NextFields(d: Fields, t: Target, s: State, p: nat): Fields {
    var c := FieldOf(s);
    if c.Delimiter? then d
    else if LastField(t) == c && c.field in d.data then Grown(d, c.field)
    else Begun(d, c.field, p)
  }

  lemma LastStep(t: Target, s: State, ch: char)
    requires Rightmost(t, s, ch)
    ensures var c, l := FieldOf(s), LastField(Put(t, s, ch));
        if c.Delimiter? then l == LastField(t) else l == c && (LastField(t) == c <==> Piece(t, c.field) != [])
  {
  }

  lemma GivenStep(t: Target, s: State, ch: char, d: Fields, p: nat)
    requires Rightmost(t, s, ch) && Given(d, t) && Inside(d, p)
    ensures var d' := NextFields(d, t, s, p); Given(d', Put(t, s, ch)) && Inside(d', p + 1)
  {
    LastStep(t, s, ch);
    var d', t' := NextFields(d, t, s, p), Put(t, s, ch);
    forall f ensures f in d'.given <==> Piece(t', f) != [] {
    }
  }

  lemma TextLength(t: Target)
    requires t.slashes <= 3
    ensures |Text(t)| == PieceAt(t, Fragment) + |t.fragment|
  {
  }

  lemma SpannedStep(t: Target, s: State, ch: char, d: Fields)
    requires t.slashes <= 3 && Rightmost(t, s, ch) && Given(d, t) && Spanned(d, t)
    ensures Spanned(NextFields(d, t, s, |Text(t)|), Put(t, s, ch))
  {
    LastStep(t, s, ch);
    TextLength(t);
    hide Text, Low16;
    var d', t' := NextFields(d, t, s, |Text(t)|), Put(t, s, ch);
    forall f | f in d'.given
      ensures f in d'.data && d'.data[f] == Span(Low16(PieceAt(t', f)), Low16(|Piece(t', f)|))
    {
      if FieldOf(s) == Of(f) { OwnSpan(t, s, ch, d, f); } else { OtherSpan(t, s, ch, f); }
    }
  }

  /** The field of a character grows by it, and begins with it if it was empty. */
  lemma OwnPiece(t: Target, s: State, ch: char, f: UrlField)
    requires t.slashes <= 3 && Rightmost(t, s, ch) && FieldOf(s) == Of(f)
    ensures |Piece(Put(t, s, ch), f)| == |Piece(t, f)| + 1
    ensures PieceAt(Put(t, s, ch), f) == if Piece(t, f) == [] then |Text(t)| else PieceAt(t, f)
  {
    TextLength(t);
    hide Text;
  }

  lemma OwnSpan(t: Target, s: State, ch: char, d: Fields, f: UrlField)
    requires t.slashes <= 3 && Rightmost(t, s, ch) && Given(d, t) && Spanned(d, t)
    requires FieldOf(s) == Of(f)
    ensures var d' := NextFields(d, t, s, |Text(t)|);
        && f in d'.data
        && d'.data[f] == Span(Low16(PieceAt(Put(t, s, ch), f)), Low16(|Piece(Put(t, s, ch), f)|))
  {
    hide Text, Low16, Piece, PieceAt, Put, Rightmost, LastField;
    LastStep(t, s, ch);
    OwnPiece(t, s, ch, f);
    Low16Next(|Piece(t, f)|);
    assert f in d.given <==> Piece(t, f) != [];
  }

  lemma OtherSpan(t: Target, s: State, ch: char, f: UrlField)
    requires Rightmost(t, s, ch) && FieldOf(s) != Of(f)
    ensures Piece(Put(t, s, ch), f) == Piece(t, f)
    ensures Piece(t, f) != [] ==> PieceAt(Put(t, s, ch), f) == PieceAt(t, f)
  {
  }

  // ---------------------------------------------------------------- scanning the authority

  /** The record after a character of the authority: from state `s` to state `s'`. */
  function NextHostFields(d: Fields, s: HostState, s': HostState, p: nat): Fields
    requires HostName in d.data && (s.InUserinfo? ==> Userinfo in d.data) && (s.InPort? ==> Port in d.data)
  {
    if s'.InHost? || s'.InV6? then
      Grown(if s != s' then d.(data := d.data[HostName := Span(Low16(p), d.data[HostName].len)]) else d, HostName)
    else if s'.V6ZoneStart? || s'.InV6Zone? then Grown(d, HostName)
    else if s'.InPort? then if s != s' then Begun(d, Port, p) else Grown(d, Port)
    else if s'.InUserinfo? then if s != s' then Begun(d, Userinfo, p) else Grown(d, Userinfo)
    else d
  }

  function HostPartAt(h: Parts): nat { |h.userinfo| + Width(h.at) + Width(h.open) }

  function PortPartAt(h: Parts): nat { HostPartAt(h) + |HostPart(h)| + Width(h.close) + Width(h.colon) }

  function Extra(h: Parts): set<UrlField> {
    (if h.userinfo != [] then {Userinfo} else {}) + (if h.port != [] then {Port} else {})
  }

  predicate Untouched(f: UrlField) { f.Schema? || f.Path? || f.Query? || f.Fragment? }

  /** Which fields the authority has added to a record `d0`. */
  predicate HostGiven(d0: Fields, d: Fields, h: Parts) {
    && d.given == d0.given + Extra(h)
    && HostName in d.data && (HostPart(h) == [] ==> d.data[HostName].len == 0)
    && forall f | Untouched(f) && f in d0.data :: f in d.data && d.data[f] == d0.data[f]
  }

  /** Where they lie, for an authority at offset `base`. */
  predicate HostSpanned(d: Fields, base: nat, h: Parts) {
    && HostName in d.data && d.data[HostName].len == |HostPart(h)|
    && (HostPart(h) != [] ==> d.data[HostName].off == base + HostPartAt(h))
    && (h.userinfo != [] ==> Userinfo in d.data && d.data[Userinfo] == Span(base, |h.userinfo|))
    && (h.port != [] ==> Port in d.data && d.data[Port] == Span(base + PortPartAt(h), |h.port|))
  }

  predicate HostInside(d: Fields, p: nat) {
    forall f | f in d.given && !Untouched(f) :: f in d.data && d.data[f].off + d.data[f].len <= p
  }

  predicate Indexed(d: Fields, g: HostProgress) {
    HostName in d.data && (g.state.InUserinfo? ==> Userinfo in d.data) && (g.state.InPort? ==> Port in d.data)
  }

  lemma HostBytesStep(found: bool, g: HostProgress, ch: char, d0: Fields, d: Fields, p: nat)
    requires PartsReached(found, g) && Indexed(d, g) && HostGiven(d0, d, g.parts) && HostInside(d, p)
    requires var s' := ParseHostChar(g.state, ch); s'.InHost? || s'.InV6? || s'.V6ZoneStart? || s'.InV6Zone?
    ensures var d' := NextHostFields(d, g.state, HostStep(g, ch).state, p);
        HostGiven(d0, d', HostStep(g, ch).parts) && HostInside(d', p + 1) && Indexed(d', HostStep(g, ch))
  {
    hide IsV6Char, IsZoneChar, IsHostChar, IsUserinfoChar, V6Reached, UserReached, Low16;
    var s' := ParseHostChar(g.state, ch);
    if (s'.InHost? || s'.InV6?) && g.state != s' { assert HostPart(g.parts) == []; }
  }

  lemma PortBytesStep(found: bool, g: HostProgress, ch: char, d0: Fields, d: Fields, p: nat)
    requires PartsReached(found, g) && Indexed(d, g) && HostGiven(d0, d, g.parts) && HostInside(d, p)
    requires ParseHostChar(g.state, ch).InPort?
    ensures var d' := NextHostFields(d, g.state, HostStep(g, ch).state, p);
        HostGiven(d0, d', HostStep(g, ch).parts) && HostInside(d', p + 1) && Indexed(d', HostStep(g, ch))
  {
    hide IsV6Char, IsZoneChar, IsHostChar, IsUserinfoChar, V6Reached, UserReached, Low16;
  }

  lemma UserinfoBytesStep(found: bool, g: HostProgress, ch: char, d0: Fields, d: Fields, p: nat)
    requires PartsReached(found, g) && Indexed(d, g) && HostGiven(d0, d, g.parts) && HostInside(d, p)
    requires ParseHostChar(g.state, ch).InUserinfo?
    ensures var d' := NextHostFields(d, g.state, HostStep(g, ch).state, p);
        HostGiven(d0, d', HostStep(g, ch).parts) && HostInside(d', p + 1) && Indexed(d', HostStep(g, ch))
  {
    hide IsV6Char, IsZoneChar, IsHostChar, IsUserinfoChar, V6Reached, UserReached, Low16;
  }

  lemma DelimiterStep(g: HostProgress, ch: char, d0: Fields, d: Fields, p: nat)
    requires Indexed(d, g) && HostGiven(d0, d, g.parts) && HostInside(d, p)
    requires var s' := ParseHostChar(g.state, ch);
        s'.UserinfoStart? || s'.HostStart? || s'.V6Start? || s'.V6End? || s'.PortStart?
    ensures var d' := NextHostFields(d, g.state, HostStep(g, ch).state, p);
        HostGiven(d0, d', HostStep(g, ch).parts) && HostInside(d', p + 1) && Indexed(d', HostStep(g, ch))
  {
    hide IsV6Char, IsZoneChar, IsHostChar, IsUserinfoChar;
  }

  lemma HostGivenStep(found: bool, g: HostProgress, ch: char, d0: Fields, d: Fields, p: nat)
    requires PartsReached(found, g) && !HostStep(g, ch).state.HostDead? && Indexed(d, g)
    requires HostGiven(d0, d, g.parts) && HostInside(d, p)
    ensures var d' := NextHostFields(d, g.state, HostStep(g, ch).state, p);
        HostGiven(d0, d', HostStep(g, ch).parts) && HostInside(d', p + 1) && Indexed(d', HostStep(g, ch))
  {
    hide PartsReached, HostGiven, HostInside, Indexed, ParseHostChar;
    var s' := ParseHostChar(g.state, ch);
    if s'.InHost? || s'.InV6? || s'.V6ZoneStart? || s'.InV6Zone? {
      HostBytesStep(found, g, ch, d0, d, p);
    } else if s'.InPort? {
      PortBytesStep(found, g, ch, d0, d, p);
    } else if s'.InUserinfo? {
      UserinfoBytesStep(found, g, ch, d0, d, p);
    } else {
      DelimiterStep(g, ch, d0, d, p);
    }
  }

  lemma PartsLength(h: Parts)
    ensures |PartsText(h)| == PortPartAt(h) + |h.port|
  {
  }

  lemma PortSpannedStep(found: bool, g: HostProgress, ch: char, d: Fields, base: nat)
    requires PartsReached(found, g) && Indexed(d, g)
    requires ParseHostChar(g.state, ch).InPort? || ParseHostChar(g.state, ch).InUserinfo?
    requires HostSpanned(d, base, g.parts) && base + |PartsText(g.parts)| + 1 < TEXT_LIMIT
    ensures HostSpanned(NextHostFields(d, g.state, HostStep(g, ch).state, base + |PartsText(g.parts)|), base,
        HostStep(g, ch).parts)
  {
    hide PartsText;
    PartsLength(g.parts);
    HostStepRightmost(found, g, ch);
  }

  lemma HostSpannedStep(found: bool, g: HostProgress, ch: char, d: Fields, base: nat)
    requires PartsReached(found, g) && !HostStep(g, ch).state.HostDead? && Indexed(d, g)
    requires HostSpanned(d, base, g.parts) && base + |PartsText(g.parts)| + 1 < TEXT_LIMIT
    ensures HostSpanned(NextHostFields(d, g.state, HostStep(g, ch).state, base + |PartsText(g.parts)|), base,
        HostStep(g, ch).parts)
  {
    hide PartsText;
    PartsLength(g.parts);
    var s' := ParseHostChar(g.state, ch);
    HostStepRightmost(found, g, ch);
    if s'.InPort? || s'.InUserinfo? {
      PortSpannedStep(found, g, ch, d, base);
    } else if s'.InHost? || s'.InV6? {
    } else if s'.V6ZoneStart? || s'.InV6Zone? {
    }
  }
}
