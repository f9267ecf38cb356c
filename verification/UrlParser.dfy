/** The URL parser: its record, updated in place by two scanning loops and a port loop,
    proved to accept exactly the texts of valid URLs and to select their components. */
module UrlParser {
  import opened HttpChars
  import opened HttpMachine
  import opened HttpText
  import opened UrlGrammar
  import opened UrlHost
  import opened UrlComponents
  import opened UrlFields

  const WORD := 0x1_0000_0000_0000_0000   // unsigned long

  lemma PieceSelected(t: Target)
    requires t.slashes <= 3
    ensures var at := PieceAt(t, HostName);
        at + |t.authority| <= |Text(t)| && Text(t)[at..at + |t.authority|] == t.authority
  {
    var front, back := t.scheme + SLASHES[..t.slashes], t.path
        + (Mark(t.mark, '?') + t.query + Hashes(t.hashes) + t.fragment);
    hide Hashes;
    assert Text(t) == front + t.authority + back;
    SliceOf(front, t.authority, back);
  }

  lemma {:induction false} ValueGrows(a: string, b: string)
    requires IsDigits(a + b)
    ensures IsDigits(a) && DecimalValue(a) <= DecimalValue(a + b)
    decreases |b|
  {
    if b == [] {
      assert a + b == a;
    } else {
      var n := |b| - 1;
      assert a + b == (a + b[..n]) + [b[n]];
      DigitsMore(a + b[..n], b[n]);
      ValueGrows(a, b[..n]);
    }
  }

  /** One field agrees with the component of a URL. */
  predicate AgreesOn(d: Fields, u: Url, f: UrlField) {
    (f in d.given <==> Component(u, f) != []) &&
    (f in d.given ==> f in d.data && d.data[f] == Span(Low16(Offset(u, f)), Low16(|Component(u, f)|)))
  }

  /** The fields of a record agree with the components of a URL. */
  predicate Agrees(d: Fields, u: Url) {
    forall f :: AgreesOn(d, u, f)
  }

  /** What the two scans have noted is what the components of the URL say. */
  lemma NotedAgrees(d0: Fields, d: Fields, t: Target, u: Url)
    requires t == TargetOf(u) && u.site.Site? && PartsOf(u.site.authority) == HostReading(t).parts
    requires ValidAuthority(u.site.authority) && Near(t)
    requires Given(d0, t) && Spanned(d0, t)
    requires HostGiven(d0, d, HostReading(t).parts) && HostSpanned(d, PieceAt(t, HostName), HostReading(t).parts)
    ensures Agrees(d, u)
  {
    hide HostReading, RenderAuthority, Component, Offset;
    forall f ensures AgreesOn(d, u, f) {
      if Untouched(f) {
        OutsideAgrees(d0, d, t, u, HostReading(t).parts, f);
      } else {
        InsideAgrees(d0, d, t, u, f);
      }
    }
  }

  lemma OutsideAgrees(d0: Fields, d: Fields, t: Target, u: Url, h: Parts, f: UrlField)
    requires t == TargetOf(u) && Given(d0, t) && Spanned(d0, t) && HostGiven(d0, d, h) && Untouched(f)
    ensures AgreesOn(d, u, f)
  {
    assert f in d0.given <==> Piece(t, f) != [];
  }

  /** Without the truncation to 16 bits. */
  predicate Exactly(d: Fields, u: Url, f: UrlField) {
    (f in d.given <==> Component(u, f) != []) &&
    (f in d.given ==> f in d.data && d.data[f] == Span(Offset(u, f), |Component(u, f)|))
  }

  lemma InsideExact(d0: Fields, d: Fields, t: Target, u: Url, f: UrlField)
    requires t == TargetOf(u) && u.site.Site? && ValidAuthority(u.site.authority) && Given(d0, t) && !Untouched(f)
    requires var h := PartsOf(u.site.authority); HostGiven(d0, d, h) && HostSpanned(d, PieceAt(t, HostName), h)
    ensures Exactly(d, u, f)
  {
    var a := u.site.authority;
    GivenPieces(d0, t);
    AuthorityIsGiven(u);
    hide RenderAuthority, HostText, HostPart, Given;
    if f.HostName? {
    } else if f.Userinfo? {
    }
  }

  lemma InsideAgrees(d0: Fields, d: Fields, t: Target, u: Url, f: UrlField)
    requires t == TargetOf(u) && u.site.Site? && ValidAuthority(u.site.authority) && Given(d0, t) && !Untouched(f)
    requires var h := PartsOf(u.site.authority); HostGiven(d0, d, h) && HostSpanned(d, PieceAt(t, HostName), h)
    requires Near(t)
    ensures AgreesOn(d, u, f)
  {
    hide Offset, Component, Given, HostGiven, HostSpanned, Low16, Near;
    InsideExact(d0, d, t, u, f);
    FrontFits(u, f);
  }

  /** Offset and length of the component are 16-bit numbers. */
  predicate FitsField(u: Url, f: UrlField) {
    Offset(u, f) < 65536 && |Component(u, f)| < 65536
  }

  /** Whatever lies in front of the path fits, if the path starts where 16 bits reach. */
  lemma FrontFits(u: Url, f: UrlField)
    requires Near(TargetOf(u)) && Order(f) < Order(Path)
    ensures FitsField(u, f)
  {
    hide RawAuthority, Component;
    ComponentsInOrder(u, f, Path);
  }

  /** In a text shorter than 65536 bytes everything fits. */
  lemma ShortFits(u: Url, f: UrlField)
    requires |Render(u)| < 65536
    ensures FitsField(u, f) && Near(TargetOf(u))
  {
    hide Render, RawAuthority, Component, Offset;
    ComponentSelected(u, f);
    PathSelected(u);
  }

  lemma AuthorityIsGiven(u: Url)
    requires u.site.Site? && ValidAuthority(u.site.authority)
    ensures HostPart(PartsOf(u.site.authority)) == HostText(u.site.authority.host) != [] && TargetOf(u).authority != []
  {
    hide RenderAuthority, Flows, Inner;
    HostInner(u.site.authority.host);
    AuthorityFlows(u.site.authority);
  }

  lemma PlainAgrees(d: Fields, t: Target, u: Url)
    requires t == TargetOf(u) && u.site.NoSite? && Given(d, t) && Spanned(d, t)
    ensures Agrees(d, u)
  {
    forall f ensures AgreesOn(d, u, f) {
      assert f in d.given <==> Piece(t, f) != [];
    }
  }

  lemma AllAgrees(d0: Fields, d: Fields, t: Target, u: Url)
    requires u == UrlOf(t) && t == TargetOf(u) && ValidSite(u.site) && Given(d0, t) && Spanned(d0, t) && Near(t)
    requires t.authority != [] ==>
        && PartsOf(u.site.authority) == HostReading(t).parts
        && HostGiven(d0, d, HostReading(t).parts) && HostSpanned(d, PieceAt(t, HostName), HostReading(t).parts)
    requires t.authority == [] ==> d == d0
    ensures Agrees(d, u)
  {
    hide Given, Spanned, HostGiven, HostSpanned, Agrees, HostReading;
    if t.authority == [] { PlainAgrees(d, t, u); } else { NotedAgrees(d0, d, t, u); }
  }

  /** A field tells where its component lies exactly when that can be told in 16 bits. */
  lemma FieldExact(d: Fields, u: Url, f: UrlField)
    requires Agrees(d, u) && f in d.given
    ensures f in d.data && (d.data[f] == Span(Offset(u, f), |Component(u, f)|) <==> FitsField(u, f))
  {
    hide Offset, Component, Low16;
    assert AgreesOn(d, u, f);
  }

  /** What a record that agrees with a URL tells about a field that fits: it is not empty,
      lies in the text and selects its component; a part of the authority lies inside it; and
      a scheme comes with a host. */
  lemma FieldIsSound(connect: bool, d: Fields, u: Url, f: UrlField)
    requires ValidUrl(connect, u) && Agrees(d, u) && f in d.given && FitsField(u, f)
    ensures f in d.data && d.data[f].len > 0 && d.data[f].off + d.data[f].len <= |Render(u)|
    ensures Render(u)[d.data[f].off..d.data[f].off + d.data[f].len] == Component(u, f)
    ensures f.Userinfo? || f.HostName? || f.Port? ==>
        SiteAt(u) <= d.data[f].off && d.data[f].off + d.data[f].len <= SiteAt(u) + |RawAuthority(u)|
    ensures f.Schema? ==> HostName in d.given
  {
    hide Render, Offset, Front, Tail, ValidSite, RawAuthority, Low16;
    FieldExact(d, u, f);
    assert AgreesOn(d, u, f) && AgreesOn(d, u, HostName);
    if u.site.Site? { SiteIsValid(connect, u); HostGivenFor(u); }
    ComponentSelected(u, f);
    if Order(f) < Order(Fragment) { ComponentsInOrder(u, f, Fragment); }
  }

  /** Two fields that fit do not overlap, and stand in URL order. */
  lemma FieldsAreDisjoint(d: Fields, u: Url, f: UrlField, g: UrlField)
    requires Agrees(d, u) && f in d.given && g in d.given && Order(f) < Order(g)
    requires FitsField(u, f) && FitsField(u, g)
    ensures f in d.data && g in d.data && d.data[f].off + d.data[f].len <= d.data[g].off
  {
    hide Render, Offset, Component, Low16, Agrees;
    FieldExact(d, u, f);
    FieldExact(d, u, g);
    ComponentsInOrder(u, f, g);
  }

  /** A path of 65536 bytes is given with length 0. */
  lemma LongPathExample() returns (u: Url)
    ensures ValidUrl(false, u) && Near(TargetOf(u)) && |Render(u)| == 65536
    ensures forall d | Agrees(d, u) :: Path in d.given && Path in d.data && d.data[Path] == Span(0, 0)
  {
    u := Url.Url("", NoSite, ['/'] + seq(TEXT_LIMIT - 1, _ => 'a'), false, "", 0, "");
    LongPath(u);
    forall d | Agrees(d, u) ensures Path in d.given && Path in d.data && d.data[Path] == Span(0, 0) {
      assert AgreesOn(d, u, Path);
    }
  }

  lemma LongPath(u: Url)
    requires u.scheme == "" && u.site.NoSite? && u.query == [] && u.hashes == 0 && u.fragment == [] && !u.mark
    requires |u.path| == TEXT_LIMIT && Low16(TEXT_LIMIT) == 0
    ensures |Render(u)| == TEXT_LIMIT && Offset(u, Path) == 0
  {
  }

  lemma HostGivenFor(u: Url)
    requires u.site.Site? && ValidSite(u.site)
    ensures Component(u, HostName) != []
  {
    HostInner(u.site.authority.host);
  }

  lemma SiteIsValid(connect: bool, u: Url)
    requires ValidUrl(connect, u)
    ensures ValidSite(u.site)
  {
  }

  lemma GivenPieces(d: Fields, t: Target)
    requires Given(d, t)
    ensures (Schema in d.given <==> t.scheme != []) && (HostName in d.given <==> t.authority != [])
    ensures Userinfo !in d.given && Port !in d.given
  {
    assert Piece(t, Schema) == t.scheme && Piece(t, HostName) == t.authority;
    assert Piece(t, Userinfo) == [] && Piece(t, Port) == [];
  }

  lemma CompleteDigits(found: bool, text: string)
    requires HostComplete(HostAdvance(HostBegin(found), text).state)
    ensures var h := HostAdvance(HostBegin(found), text).parts; IsDigits(h.port) && PartsText(h) == text
  {
    hide HostAdvance;
    PartsReachedText(found, text);
  }

  /** Host and port are all that is given exactly when a CONNECT request may name it. */
  lemma ConnectForm(d0: Fields, d: Fields, t: Target, h: Parts)
    requires Given(d0, t) && (if t.authority == [] then d == d0 else HostGiven(d0, d, h))
    ensures Port in d.given <==> t.authority != [] && h.port != []
    ensures d.given == {HostName, Port} <==>
        && t.authority != [] && h.userinfo == [] && h.port != []
        && t.scheme == [] && t.path == [] && t.query == [] && t.fragment == []
  {
    GivenPieces(d0, t);
    assert (Path in d0.given <==> t.path != []) && (Query in d0.given <==> t.query != []) by {
      assert Piece(t, Path) == t.path && Piece(t, Query) == t.query;
    }
    assert Fragment in d0.given <==> t.fragment != [] by { assert Piece(t, Fragment) == t.fragment; }
  }

  lemma PortSelected(t: Target, h: Parts)
    requires t.slashes <= 3 && PartsText(h) == t.authority
    ensures var at := PieceAt(t, HostName) + PortPartAt(h);
        at + |h.port| <= |Text(t)| && Text(t)[at..at + |h.port|] == h.port
  {
    PieceSelected(t);
    PartsLength(h);
    var n := PortPartAt(h);
    assert t.authority[n..n + |h.port|] == h.port;
    hide Text, PartsText, PortPartAt;
    InnerSlice(Text(t), PieceAt(t, HostName), t.authority, n, |h.port|);
  }

  lemma ReachedConnect(connect: bool, g: Progress)
    requires Reached(connect, g)
    ensures connect ==> g.target.scheme == []
  {
  }

  /** One more digit of a digit string. */
  lemma DigitStep(buf: string, off: nat, p: nat, end: nat)
    requires off <= p < end <= |buf|
    ensures IsDigits(buf[off..end]) ==>
        && IsDigits(buf[off..p]) && IsDigits(buf[off..p + 1]) && IsNum(buf[p])
        && DecimalValue(buf[off..p + 1]) == 10 * DecimalValue(buf[off..p]) + (buf[p] as int - '0' as int)
        && DecimalValue(buf[off..p + 1]) <= DecimalValue(buf[off..end])
  {
    if IsDigits(buf[off..end]) {
      assert buf[off..p + 1] == buf[off..p] + [buf[p]] && buf[off..end] == buf[off..p + 1] + buf[p + 1..end];
      assert buf[off..end][p - off] == buf[p];
      ValueGrows(buf[off..p + 1], buf[p + 1..end]);
      ValueGrows(buf[off..p], [buf[p]]);
      hide DecimalValue;
      DigitsMore(buf[off..p], buf[p]);
    }
  }

  /** The text is refused by the scan, or its authority ends where 16 bits reach. */
  predicate InReach(connect: bool, text: string) {
    var g := Advance(Start(connect), text);
    g.state.Dead? || Near(g.target)
  }

  class HttpParserUrl {
    var fieldSet: set<UrlField>
    var port: nat
    var fieldData: map<UrlField, Span>

    constructor ()
      ensures fieldSet == {} && port == 0
    {
      fieldSet, port, fieldData := {}, 0, map[];
    }

    ghost function Record(): Fields
      reads this
    {
      Fields(fieldSet, fieldData)
    }

    method BeginField(f: UrlField, p: nat)
      modifies `fieldSet, `fieldData
      ensures Record() == Begun(old(Record()), f, p)
    {
      fieldData := fieldData[f := Span(Low16(p), 1)];
      fieldSet := fieldSet + {f};
    }

    method GrowField(f: UrlField)
      requires f in fieldData
      modifies `fieldData
      ensures Record() == Grown(old(Record()), f)
    {
      fieldData := fieldData[f := Span(fieldData[f].off, Low16(fieldData[f].len + 1))];
    }

    /** The loop over the whole text. */
    method ScanTarget(buf: string, connect: bool) returns (dead: bool, foundAt: bool)
      requires fieldSet == {}
      modifies `fieldSet, `fieldData
      ensures var g := Advance(Start(connect), buf);
          && dead == g.state.Dead?
          && (!dead ==>
                && foundAt == ('@' in g.target.authority) && Given(Record(), g.target) && Inside(Record(), |buf|)
                && Spanned(Record(), g.target))
    {
      var s: State := if connect then ReqServerStart else ReqSpacesBeforeUrl;
      var last := Delimiter;
      dead, foundAt := false, false;
      var p := 0;
      while p < |buf|
        invariant p <= |buf|
        invariant ScanInvariant(buf, connect, p, s, last, foundAt)
      {
        ghost var g, d := Advance(Start(connect), buf[..p]), Record();
        assert buf[..p + 1] == buf[..p] + [buf[p]] && buf == buf[..p + 1] + buf[p + 1..];
        AdvanceSnoc(Start(connect), buf[..p], buf[p]);
        s := ParseUrlChar(s, buf[p]);
        if s.Dead? {
          DeadStays(Start(connect), buf[..p + 1], buf[p + 1..]);
          return true, false;
        }
        ScanStep(buf, connect, p, g, d);
        if s.ReqServerWithAt? { foundAt := true; }
        var c := FieldOf(s);
        if c.Of? {
          if c == last && c.field in fieldData { GrowField(c.field); } else { BeginField(c.field, p); }
          last := c;
        }
        p := p + 1;
      }
      assert buf[..p] == buf;
    }

    ghost predicate ScanInvariant(buf: string, connect: bool, p: nat, s: State, last: Choice, foundAt: bool)
      requires p <= |buf|
      reads this
    {
      var g := Advance(Start(connect), buf[..p]);
      && s == g.state && !s.Dead? && last == LastField(g.target) && foundAt == ('@' in g.target.authority)
      && Given(Record(), g.target) && Inside(Record(), p) && Spanned(Record(), g.target)
    }

    static lemma ScanStep(buf: string, connect: bool, p: nat, g: Progress, d: Fields)
      requires p < |buf| && g == Advance(Start(connect), buf[..p]) && !g.state.Dead?
      requires Given(d, g.target) && Inside(d, p) && Spanned(d, g.target)
      ensures var h, d' := Step(g, buf[p]), NextFields(d, g.target, ParseUrlChar(g.state, buf[p]), p);
          !h.state.Dead? ==>
            && LastField(h.target) == (if FieldOf(h.state).Delimiter? then LastField(g.target) else FieldOf(h.state))
            && ('@' in h.target.authority <==> '@' in g.target.authority || h.state.ReqServerWithAt?)
            && Given(d', h.target) && Inside(d', p + 1) && Spanned(d', h.target)
    {
      var s := ParseUrlChar(g.state, buf[p]);
      if !s.Dead? {
        ReachedText(connect, buf[..p]);
        StepRightmost(connect, g, buf[p]);
        LastStep(g.target, s, buf[p]);
        GivenStep(g.target, s, buf[p], d, p);
        hide Reached, Text, Advance;
        SpannedStep(g.target, s, buf[p], d);
      }
    }

    /** The loop over the authority, which the host field selects. */
    method ParseHost(buf: string, foundAt: bool) returns (bad: bool)
      requires HostName in fieldSet && Inside(Record(), |buf|) && Userinfo !in fieldSet && Port !in fieldSet
      modifies `fieldSet, `fieldData
      ensures var from := old(fieldData[HostName]);
          var g := HostAdvance(HostBegin(foundAt), buf[from.off..from.off + from.len]);
          && bad == !HostComplete(g.state)
          && (!bad ==>
                && HostGiven(old(Record()), Record(), g.parts) && HostInside(Record(), |buf|)
                && (from.off + from.len < TEXT_LIMIT ==> HostSpanned(Record(), from.off, g.parts)))
    {
      hide HostNoted, HostAdvance, HostBegin, HostComplete, HostGiven, HostSpanned, HostInside, Inside;
      HostField(Record(), |buf|);
      var off, end := fieldData[HostName].off, fieldData[HostName].off + fieldData[HostName].len;
      ghost var d0 := Record();
      fieldData := fieldData[HostName := Span(off, 0)];
      HostStarts(buf, foundAt, off, end, d0, Record());
      var dead, s := HostLoop(buf, foundAt, off, end, d0);
      if dead {
        DeadIsBad(HostAdvance(HostBegin(foundAt), buf[off..end]).state);
        return true;
      }
      bad := !HostComplete(s);
      HostEnds(|buf|, HostAdvance(HostBegin(foundAt), buf[off..end]), off, end, d0, Record());
    }

    static lemma HostField(d: Fields, size: nat)
      requires Inside(d, size) && HostName in d.given
      ensures HostName in d.data && d.data[HostName].off + d.data[HostName].len <= size
    {
    }

    static lemma DeadIsBad(s: HostState)
      requires s.HostDead?
      ensures !HostComplete(s)
    {
    }

    method HostLoop(buf: string, foundAt: bool, off: nat, end: nat, ghost d0: Fields) returns (dead: bool, s: HostState)
      requires off <= end <= |buf| && HostNoted(end, HostAdvance(HostBegin(foundAt), buf[off..off]), off, off, d0,
          Record())
      modifies `fieldSet, `fieldData
      ensures var g := HostAdvance(HostBegin(foundAt), buf[off..end]);
          if dead then g.state.HostDead? else s == g.state && HostNoted(end, g, off, end, d0, Record())
    {
      hide HostNoted, HostAdvance, HostBegin, NextHostFields, ParseHostChar, Low16;
      s := if foundAt then UserinfoStart else HostStart;
      var p := off;
      NothingRead(foundAt, buf, off);
      while p < end
        invariant off <= p <= end
        invariant HostInvariant(buf, foundAt, off, p, end, s, d0)
      {
        HostGoesOn(buf, foundAt, off, p, end, s, d0, Record());
        var s' := ParseHostChar(s, buf[p]);
        if s'.HostDead? { return true, s; }
        NoteHost(s, s', p);
        s := s';
        p := p + 1;
      }
      dead := false;
    }

    static lemma NothingRead(foundAt: bool, buf: string, off: nat)
      requires off <= |buf|
      ensures HostAdvance(HostBegin(foundAt), buf[off..off]).state == if foundAt then UserinfoStart else HostStart
    {
      assert buf[off..off] == [];
    }

    ghost predicate HostInvariant(buf: string, foundAt: bool, off: nat, p: nat, end: nat, s: HostState, d0: Fields)
      requires off <= p <= end <= |buf|
      reads this
    {
      var g := HostAdvance(HostBegin(foundAt), buf[off..p]);
      s == g.state && HostNoted(end, g, off, p, d0, Record())
    }

    static lemma HostStarts(buf: string, foundAt: bool, off: nat, end: nat, d0: Fields, d: Fields)
      requires off <= |buf| && HostName in d0.given && Userinfo !in d0.given && Port !in d0.given && Inside(d0, |buf|)
      requires d0.data[HostName].off == off && d == d0.(data := d0.data[HostName := Span(off, 0)])
      ensures HostNoted(end, HostAdvance(HostBegin(foundAt), buf[off..off]), off, off, d0, d)
    {
      assert buf[off..off] == [];
    }

    /** One more character: either the authority is refused, or everything noted stays
        right. */
    static lemma HostGoesOn(buf: string, foundAt: bool, off: nat, p: nat, end: nat, s: HostState, d0: Fields, d: Fields)
      requires off <= p < end <= |buf|
      requires var g := HostAdvance(HostBegin(foundAt), buf[off..p]); s == g.state && HostNoted(end, g, off, p, d0, d)
      ensures HostName in d.data && (s.InUserinfo? ==> Userinfo in d.data) && (s.InPort? ==> Port in d.data)
      ensures var s', h := ParseHostChar(s, buf[p]), HostAdvance(HostBegin(foundAt), buf[off..p + 1]);
          if s'.HostDead? then HostAdvance(HostBegin(foundAt), buf[off..end]).state.HostDead?
          else s' == h.state && HostNoted(end, h, off, p + 1, d0, NextHostFields(d, s, s', p))
    {
      hide HostAdvance, ParseHostChar, NextHostFields;
      var g := HostAdvance(HostBegin(foundAt), buf[off..p]);
      assert buf[off..p + 1] == buf[off..p] + [buf[p]] && buf[off..end] == buf[off..p + 1] + buf[p + 1..end];
      HostAdvanceSnoc(HostBegin(foundAt), buf[off..p], buf[p]);
      if ParseHostChar(s, buf[p]).HostDead? {
        HostDeadStays(HostBegin(foundAt), buf[off..p + 1], buf[p + 1..end]);
      } else {
        HostHolds(buf, foundAt, off, p, end, g, d0, d);
      }
    }

    static lemma HostEnds(size: nat, g: HostProgress, off: nat, end: nat, d0: Fields, d: Fields)
      requires end <= size && HostNoted(end, g, off, end, d0, d)
      ensures !g.state.HostDead? && HostGiven(d0, d, g.parts) && HostInside(d, size)
      ensures end < TEXT_LIMIT ==> HostSpanned(d, off, g.parts)
    {
    }

    static ghost predicate HostNoted(end: nat, g: HostProgress, off: nat, p: nat, d0: Fields, d: Fields) {
      && !g.state.HostDead? && HostGiven(d0, d, g.parts) && Indexed(d, g) && HostInside(d, p)
      && (end < TEXT_LIMIT ==> HostSpanned(d, off, g.parts))
    }

    static lemma HostHolds(buf: string, foundAt: bool, off: nat, p: nat, end: nat, g: HostProgress, d0: Fields,
                           d: Fields)
      requires off <= p < end <= |buf| && g == HostAdvance(HostBegin(foundAt), buf[off..p])
      requires HostNoted(end, g, off, p, d0, d) && !HostStep(g, buf[p]).state.HostDead?
      ensures HostNoted(end, HostStep(g, buf[p]), off, p + 1, d0,
          NextHostFields(d, g.state, HostStep(g, buf[p]).state, p))
    {
      hide PartsText, PartsReached, HostAdvance, HostGiven, HostSpanned, Indexed, HostInside, HostStep, NextHostFields;
      PartsReachedText(foundAt, buf[off..p]);
      HostGivenStep(foundAt, g, buf[p], d0, d, p);
      if end < TEXT_LIMIT { HostSpannedStep(foundAt, g, buf[p], d, off); }
    }

    /** The switch over the new state of the host automaton. */
    method NoteHost(s: HostState, s': HostState, p: nat)
      requires HostName in fieldData && (s.InUserinfo? ==> Userinfo in fieldData) && (s.InPort? ==> Port in fieldData)
      modifies `fieldSet, `fieldData
      ensures Record() == NextHostFields(old(Record()), s, s', p)
    {
      match s'
      case InHost =>
        if s != s' { MoveHost(p); }
        GrowField(HostName);
      case InV6 =>
        if s != s' { MoveHost(p); }
        GrowField(HostName);
      case V6ZoneStart => GrowField(HostName);
      case InV6Zone => GrowField(HostName);
      case InPort => if s != s' { BeginField(Port, p); } else { GrowField(Port); }
      case InUserinfo => if s != s' { BeginField(Userinfo, p); } else { GrowField(Userinfo); }
      case _ =>
    }

    method MoveHost(p: nat)
      requires HostName in fieldData
      modifies `fieldData
      ensures fieldData == old(fieldData)[HostName := Span(Low16(p), old(fieldData)[HostName].len)]
    {
      fieldData := fieldData[HostName := Span(Low16(p), fieldData[HostName].len)];
    }

    /** The loop over the digits of the port. */
    method ParsePort(buf: string) returns (bad: bool)
      requires Port in fieldData && fieldData[Port].off + fieldData[Port].len <= |buf|
      modifies `port
      ensures var digits := buf[fieldData[Port].off..fieldData[Port].off + fieldData[Port].len];
          IsDigits(digits) ==> bad == (DecimalValue(digits) > MAX_PORT) && (!bad ==> port == DecimalValue(digits))
    {
      var off, end := fieldData[Port].off, fieldData[Port].off + fieldData[Port].len;
      ghost var digits := buf[off..end];
      var v, p := 0, off;
      while p < end
        invariant off <= p <= end && 0 <= v <= MAX_PORT
        invariant IsDigits(digits) ==> IsDigits(buf[off..p]) && v == DecimalValue(buf[off..p])
      {
        DigitStep(buf, off, p, end);
        v := (v * 10 + (buf[p] as int - '0' as int)) % WORD;
        if v > MAX_PORT { return true; }
        p := p + 1;
      }
      port, bad := v, false;
    }

    /** The fields say where the components of this URL lie, and which port it names. */
    ghost predicate Describes(u: Url)
      reads this
    {
      && Agrees(Record(), u)
      && port == if u.site.Site? && IsDigits(u.site.authority.port) then DecimalValue(u.site.authority.port) else 0
    }

    /** The port that a target names. */
    ghost predicate PortIs(t: Target)
      reads `port
    {
      var h := HostReading(t).parts;
      port == if t.authority != [] && IsDigits(h.port) then DecimalValue(h.port) else 0
    }

    /** The text and the record that the scan has left. */
    ghost predicate ScannedAs(buf: string, t: Target)
      reads this
    {
      && Given(Record(), t) && Inside(Record(), |buf|) && Spanned(Record(), t)
      && t.slashes <= 3 && Text(t) == buf
    }

    method HostStage(buf: string, foundAt: bool, ghost t: Target) returns (failed: bool)
      requires ScannedAs(buf, t) && t.authority != [] && foundAt == ('@' in t.authority)
      modifies `fieldSet, `fieldData
      ensures !failed ==> HostInside(Record(), |buf|)
      ensures Near(t) ==> failed == !HostComplete(HostReading(t).state)
      ensures Near(t) && !failed ==>
          var h := HostReading(t).parts;
          && IsDigits(h.port) && PartsText(h) == t.authority
          && HostGiven(old(Record()), Record(), h) && HostSpanned(Record(), PieceAt(t, HostName), h)
    {
      hide HostAdvance, HostGiven, HostSpanned, PartsText, HostComplete, HostInside;
      GivenPieces(Record(), t);
      if Near(t) { PieceSelected(t); }
      hide Text;
      failed := ParseHost(buf, foundAt);
      if Near(t) && !failed { CompleteDigits(foundAt, t.authority); }
    }

    method PortStage(buf: string, ghost t: Target) returns (failed: bool)
      requires Port in fieldSet && HostInside(Record(), |buf|) && port == 0
      requires var h := HostReading(t).parts;
          Near(t) ==>
            && t.slashes <= 3 && Text(t) == buf && t.authority != [] && h.port != []
            && IsDigits(h.port) && PartsText(h) == t.authority && HostSpanned(Record(), PieceAt(t, HostName), h)
      modifies `port
      ensures Near(t) ==> failed == (DecimalValue(HostReading(t).parts.port) > MAX_PORT)
      ensures Near(t) && !failed ==> PortIs(t)
    {
      hide HostReading, PartsText, Text, PieceAt, PortPartAt, HostPartAt;
      if Near(t) { PortSelected(t, HostReading(t).parts); }
      failed := ParsePort(buf);
    }

    /** The checks after the scan: scheme, host, CONNECT form and port. */
    method CheckFields(buf: string, connect: bool, foundAt: bool, ghost t: Target) returns (failed: bool)
      requires ScannedAs(buf, t) && foundAt == ('@' in t.authority)
      requires port == 0 && (connect ==> t.scheme == [])
      modifies this
      ensures Near(t) ==> failed == !Passes(connect, t)
      ensures Near(t) && !failed && t.authority != [] ==>
          HostGiven(old(Record()), Record(), HostReading(t).parts) &&
          HostSpanned(Record(), PieceAt(t, HostName), HostReading(t).parts)
      ensures Near(t) && !failed && t.authority == [] ==> Record() == old(Record())
      ensures Near(t) && !failed ==> PortIs(t)
    {
      ghost var d0, h := Record(), HostReading(t).parts;
      hide HostReading, Text, Inside, Given, Spanned, HostSpanned, HostGiven, PartsText, HostComplete, HostInside;
      GivenPieces(d0, t);
      if Schema in fieldSet && HostName !in fieldSet { return true; }
      if HostName in fieldSet {
        failed := HostStage(buf, foundAt, t);
        if failed { return true; }
      }
      if Near(t) { ConnectForm(d0, Record(), t, h); }
      if connect && fieldSet != {HostName, Port} { return true; }
      if Port in fieldSet {
        failed := PortStage(buf, t);
        if failed { return true; }
      }
      failed := false;
    }

    /** `http_parser_parse_url`.  A text whose authority ends before its byte 65536 is accepted
        if and only if it is the text of a valid URL; and the record then describes that URL. */
    method ParseUrl(buf: string, connect: bool) returns (failed: bool)
      modifies this
      ensures InReach(connect, buf) ==> (!failed <==> exists u :: ValidUrl(connect, u) && Render(u) == buf)
      ensures InReach(connect, buf) && !failed ==>
          exists u :: ValidUrl(connect, u) && Render(u) == buf && Describes(u)
    {
      hide Advance, HostAdvance, Passes, Given, Inside, Spanned, HostGiven, HostSpanned, ValidUrl, Render, Near;
      ghost var t := Advance(Start(connect), buf).target;
      AcceptsExact(connect, buf);
      if |buf| == 0 { return true; }
      port, fieldSet := 0, {};
      var dead, foundAt := ScanTarget(buf, connect);
      if dead { return true; }
      ReachedText(connect, buf);
      ReachedConnect(connect, Advance(Start(connect), buf));
      ghost var d0 := Record();
      failed := CheckFields(buf, connect, foundAt, t);
      if Near(t) && !failed {
        AcceptedIsValid(connect, buf);
        SiteIsValid(connect, UrlOf(t));
        AllAgrees(d0, Record(), t, UrlOf(t));
        assert Describes(UrlOf(t));
      }
    }
  }
}
