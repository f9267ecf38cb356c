/** Whole URLs: which texts `http_parser_parse_url` accepts, and where their components
    lie. */
module UrlComponents {
  import opened HttpChars
  import opened HttpMachine
  import opened HttpText
  import opened UrlGrammar
  import opened UrlHost

  const MAX_PORT := 65535

  datatype Site = NoSite | Site(authority: Authority)

  datatype Url = Url(scheme: string, site: Site, path: string, mark: bool, query: string, hashes: nat, fragment: string)

  function RawAuthority(u: Url): string {
    if u.site.NoSite? then [] else RenderAuthority(u.site.authority)
  }

  function TargetOf(u: Url): Target {
    Target(u.scheme, if u.scheme == [] then 0 else 3, RawAuthority(u), u.path, u.mark, u.query, u.hashes, u.fragment)
  }

  function Render(u: Url): string { Text(TargetOf(u)) }

  predicate ValidSite(s: Site) {
    s.Site? ==> ValidAuthority(s.authority) && DecimalValue(s.authority.port) <= 65535
  }

  /** The URLs that are accepted: "scheme://authority..." or a path, or for CONNECT just
      "host:port" (the empty userinfo, query and fragment leave no trace in the fields, so
      their delimiters are allowed even there). */
  predicate ValidUrl(connect: bool, u: Url) {
    && Front(connect, TargetOf(u)) && Tail(TargetOf(u)) && ValidSite(u.site)
    && (u.scheme != [] ==> u.site.Site?)
    && (connect ==>
          && u.site.Site? && u.site.authority.userinfo == [] && u.site.authority.port != []
          && u.path == [] && u.query == [] && u.fragment == [])
  }

  // ---------------------------------------------------------------- acceptance

  function HostReading(t: Target): HostProgress {
    HostAdvance(HostBegin('@' in t.authority), t.authority)
  }

  /** What the parser asks of the components it has found. */
  predicate Passes(connect: bool, t: Target) {
    var h := HostReading(t).parts;
    && (t.scheme != [] ==> t.authority != [])
    && (t.authority != [] ==>
          HostComplete(HostReading(t).state) && IsDigits(h.port) && DecimalValue(h.port) <= MAX_PORT)
    && (connect ==>
          t.authority != [] && h.userinfo == [] && h.port != [] && t.path == [] && t.query == [] && t.fragment == [])
  }

  predicate Accepts(connect: bool, text: string) {
    text != [] && !Advance(Start(connect), text).state.Dead? && Passes(connect, Advance(Start(connect), text).target)
  }

  function UrlOf(t: Target): Url {
    Url.Url(t.scheme, if t.authority == [] then NoSite else Site(AuthorityOf(HostReading(t).parts)), t.path, t.mark,
        t.query, t.hashes, t.fragment)
  }

  lemma ReachedValid(connect: bool, g: Progress)
    requires Reached(connect, g) && (g.target.scheme != [] ==> g.target.authority != [])
    requires connect ==> g.target.authority != []
    requires !g.state.ReqSpacesBeforeUrl?
    ensures Front(connect, g.target) && Tail(g.target) && (g.target.slashes == if g.target.scheme == [] then 0 else 3)
  {
  }

  /** An accepted text is the text of a valid URL, whose components are those found. */
  lemma AcceptedIsValid(connect: bool, text: string)
    requires Accepts(connect, text)
    ensures var g := Advance(Start(connect), text);
        && ValidUrl(connect, UrlOf(g.target)) && Render(UrlOf(g.target)) == text
        && TargetOf(UrlOf(g.target)) == g.target
        && (g.target.authority != [] ==> PartsOf(UrlOf(g.target).site.authority) == HostReading(g.target).parts)
  {
    var g := Advance(Start(connect), text);
    hide Advance, HostAdvance, Reached, RenderAuthority;
    ReachedText(connect, text);
    NotAtStart(connect, text);
    ReachedValid(connect, g);
    CompleteMeans('@' in g.target.authority, g.target.authority);
    assert TargetOf(UrlOf(g.target)) == g.target;
  }

  lemma NotAtStart(connect: bool, text: string)
    requires text != []
    ensures !Advance(Start(connect), text).state.ReqSpacesBeforeUrl?
  {
  }

  /** The text of a valid URL is accepted, and exactly its components are found. */
  lemma ValidIsAccepted(connect: bool, u: Url)
    requires ValidUrl(connect, u)
    ensures Accepts(connect, Render(u)) && Advance(Start(connect), Render(u)).target == TargetOf(u)
    ensures UrlOf(TargetOf(u)) == u
  {
    var t := TargetOf(u);
    hide Advance, HostAdvance, RenderAuthority, Front, Tail;
    if u.site.Site? {
      AuthorityFlows(u.site.authority);
      AuthorityComplete(u.site.authority);
      AtFound(u.site.authority);
      PartsOfText(u.site.authority);
      ValidPort(u.site.authority);
    }
    TargetRead(connect, t);
    NotEmpty(connect, u);
  }

  lemma ValidPort(a: Authority)
    requires ValidAuthority(a)
    ensures PartsOf(a).port == a.port && PartsOf(a).userinfo == a.userinfo && IsDigits(a.port)
  {
  }

  lemma NotEmpty(connect: bool, u: Url)
    requires ValidUrl(connect, u)
    ensures Render(u) != []
  {
    if u.site.Site? {
      AuthorityFlows(u.site.authority);
      hide RenderAuthority;
    }
  }

  /** The parser accepts exactly the texts of valid URLs. */
  lemma AcceptsExact(connect: bool, text: string)
    ensures Accepts(connect, text) <==> exists u :: ValidUrl(connect, u) && Render(u) == text
  {
    if Accepts(connect, text) { AcceptedIsValid(connect, text); }
    if u :| ValidUrl(connect, u) && Render(u) == text { ValidIsAccepted(connect, u); }
  }

  /** A text is the text of at most one valid URL. */
  lemma RenderInjective(connect: bool, u: Url, v: Url)
    requires ValidUrl(connect, u) && ValidUrl(connect, v) && Render(u) == Render(v)
    ensures u == v
  {
    ValidIsAccepted(connect, u);
    ValidIsAccepted(connect, v);
  }

  // ---------------------------------------------------------------- where the components lie

  datatype UrlField = Schema | Userinfo | HostName | Port | Path | Query | Fragment

  function Component(u: Url, f: UrlField): string {
    var a := u.site;
    match f
    case Schema => u.scheme
    case Userinfo => if a.Site? then a.authority.userinfo else []
    case HostName => if a.Site? then HostText(a.authority.host) else []
    case Port => if a.Site? then a.authority.port else []
    case Path => u.path
    case Query => u.query
    case Fragment => u.fragment
  }

  function Width(b: bool): nat { if b then 1 else 0 }

  /** Where the authority starts. */
  function SiteAt(u: Url): nat { |u.scheme| + TargetOf(u).slashes }

  function PathAt(u: Url): nat { SiteAt(u) + |RawAuthority(u)| }
  function QueryAt(u: Url): nat { PathAt(u) + |u.path| + Width(u.mark) }

  function HostAt(a: Authority): nat { |a.userinfo| + Width(a.at) + Width(a.host.V6?) }

  function PortAt(a: Authority): nat { HostAt(a) + |HostText(a.host)| + Width(a.host.V6?) + Width(a.port != []) }

  function Offset(u: Url, f: UrlField): nat {
    match f
    case Schema => 0
    case Userinfo => SiteAt(u)
    case HostName => SiteAt(u) + if u.site.Site? then HostAt(u.site.authority) else 0
    case Port => SiteAt(u) + if u.site.Site? then PortAt(u.site.authority) else 0
    case Path => PathAt(u)
    case Query => QueryAt(u)
    case Fragment => QueryAt(u) + |u.query| + u.hashes
  }

  lemma SliceOf(a: string, b: string, c: string)
    ensures (a + b + c)[|a|..|a| + |b|] == b
  {
  }

  lemma UserinfoSliced(a: Authority)
    ensures |a.userinfo| <= HostAt(a) && a.userinfo <= RenderAuthority(a)
  {
    hide HostText;
    var y := Mark(a.host.V6?, '[') + HostText(a.host) + Mark(a.host.V6?, ']') + Mark(a.port != [], ':') + a.port;
    assert RenderAuthority(a) == a.userinfo + (Mark(a.at, '@') + y);
  }

  lemma HostSliced(a: Authority)
    ensures var r := RenderAuthority(a);
        HostAt(a) + |HostText(a.host)| <= |r| && r[HostAt(a)..HostAt(a) + |HostText(a.host)|] == HostText(a.host)
  {
    hide HostText;
    var x := a.userinfo + Mark(a.at, '@') + Mark(a.host.V6?, '[');
    var y := Mark(a.host.V6?, ']') + Mark(a.port != [], ':') + a.port;
    assert |x| == HostAt(a);
    SliceOf(x, HostText(a.host), y);
    assert RenderAuthority(a) == x + HostText(a.host) + y;
  }

  lemma PortSliced(a: Authority)
    ensures PortAt(a) + |a.port| == |RenderAuthority(a)| && RenderAuthority(a)[PortAt(a)..] == a.port
  {
    hide HostText;
    var x := a.userinfo + Mark(a.at, '@') + Mark(a.host.V6?, '[') + HostText(a.host) + Mark(a.host.V6?, ']')
             + Mark(a.port != [], ':');
    assert RenderAuthority(a) == x + a.port && |x| == PortAt(a);
  }

  lemma AuthoritySlices(a: Authority)
    ensures var r := RenderAuthority(a);
        && PortAt(a) + |a.port| == |r| && r[PortAt(a)..] == a.port
        && HostAt(a) + |HostText(a.host)| <= PortAt(a)
        && r[HostAt(a)..HostAt(a) + |HostText(a.host)|] == HostText(a.host)
        && |a.userinfo| <= HostAt(a) && r[..|a.userinfo|] == a.userinfo
  {
    hide HostText, RenderAuthority;
    UserinfoSliced(a);
    HostSliced(a);
    PortSliced(a);
  }

  lemma InnerSlice(s: string, at: nat, b: string, k: nat, n: nat)
    requires at + |b| <= |s| && s[at..at + |b|] == b && k + n <= |b|
    ensures s[at + k..at + k + n] == b[k..k + n]
  {
    var c, d := s[at + k..at + k + n], b[k..k + n];
    forall i | 0 <= i < n ensures c[i] == d[i] {
      InnerChar(s, at, b, k + i);
    }
  }

  lemma InnerChar(s: string, at: nat, b: string, j: nat)
    requires at + |b| <= |s| && s[at..at + |b|] == b && j < |b|
    ensures s[at + j] == b[j]
  {
    assert s[at..at + |b|][j] == s[at + j];
  }

  lemma TwoSlices(a: string, b: string, c: string, d: string)
    ensures var s := a + b + c + d;
        s[|a|..|a| + |b|] == b && s[|a| + |b|..|a| + |b| + |c|] == c
  {
  }

  lemma PathSelected(u: Url)
    ensures var r := Render(u); PathAt(u) + |u.path| <= |r| && r[PathAt(u)..PathAt(u) + |u.path|] == u.path
    ensures var r := Render(u); r[SiteAt(u)..PathAt(u)] == RawAuthority(u)
  {
    hide RawAuthority, Hashes;
    var t := TargetOf(u);
    var front, back := t.scheme + SLASHES[..t.slashes], Mark(t.mark, '?') + t.query + Hashes(t.hashes) + t.fragment;
    assert Text(t) == FrontText(t) + back;
    TwoSlices(front, t.authority, t.path, back);
  }

  lemma QuerySelected(u: Url)
    ensures var r, n := Render(u), QueryAt(u) + |u.query|;
        n <= |r| && r[QueryAt(u)..n] == u.query && n + u.hashes + |u.fragment| == |r| && r[n + u.hashes..] == u.fragment
  {
    var t := TargetOf(u);
    var front, h := FrontText(t) + Mark(t.mark, '?'), Hashes(t.hashes);
    assert |FrontText(t)| == PathAt(u) + |u.path|;
    hide FrontText, Hashes;
    SliceOf(front, t.query, h + t.fragment);
    assert Render(u) == front + t.query + (h + t.fragment);
  }

  /** A part of the authority, inside it. */
  lemma PartSelected(u: Url, f: UrlField)
    requires u.site.Site? && (f.Userinfo? || f.HostName? || f.Port?)
    ensures var r, k, c := RawAuthority(u), Offset(u, f) - SiteAt(u), Component(u, f);
        0 <= k && k + |c| <= |r| && r[k..k + |c|] == c
  {
    hide RenderAuthority, HostText, HostAt, PortAt, SiteAt;
    AuthoritySlices(u.site.authority);
  }

  lemma SiteSelected(u: Url, f: UrlField)
    requires u.site.Site? && (f.Userinfo? || f.HostName? || f.Port?)
    ensures Offset(u, f) + |Component(u, f)| <= |Render(u)|
    ensures Render(u)[Offset(u, f)..Offset(u, f) + |Component(u, f)|] == Component(u, f)
  {
    hide Render, RawAuthority, Offset, Component, SiteAt;
    PathSelected(u);
    PartSelected(u, f);
    InnerSlice(Render(u), SiteAt(u), RawAuthority(u), Offset(u, f) - SiteAt(u), |Component(u, f)|);
  }

  /** Every component is selected by its offset and length. */
  lemma ComponentSelected(u: Url, f: UrlField)
    ensures Offset(u, f) + |Component(u, f)| <= |Render(u)|
    ensures Render(u)[Offset(u, f)..Offset(u, f) + |Component(u, f)|] == Component(u, f)
  {
    hide Render, RenderAuthority, HostText, HostAt, PortAt;
    PathSelected(u);
    QuerySelected(u);
    if f.Schema? {
      SchemeSelected(u);
    } else if f.Userinfo? || f.HostName? || f.Port? {
      if u.site.Site? { SiteSelected(u, f); }
    }
  }

  lemma SchemeSelected(u: Url)
    ensures |u.scheme| <= |Render(u)| && Render(u)[..|u.scheme|] == u.scheme
  {
    hide RawAuthority, Hashes;
  }

  function Order(f: UrlField): nat {
    match f
    case Schema => 0
    case Userinfo => 1
    case HostName => 2
    case Port => 3
    case Path => 4
    case Query => 5
    case Fragment => 6
  }

  /** The components lie in the order of their names, and do not overlap; userinfo, host
      and port lie inside the authority. */
  lemma ComponentsInOrder(u: Url, f: UrlField, g: UrlField)
    requires Order(f) < Order(g)
    ensures Offset(u, f) + |Component(u, f)| <= Offset(u, g)
    ensures f.Userinfo? || f.HostName? || f.Port? ==>
        SiteAt(u) <= Offset(u, f) && Offset(u, f) + |Component(u, f)| <= SiteAt(u) + |RawAuthority(u)|
  {
    hide RenderAuthority, HostText;
    if u.site.Site? { AuthoritySlices(u.site.authority); }
  }
}
