/** URLs as RFC 3986 and RFC 7230, section 5.3, have them, and which of them are accepted. */
module UrlStandard {
  import opened Ascii
  import opened HttpMachine
  import opened HttpText
  import opened UrlGrammar
  import opened UrlHost
  import opened UrlComponents

  /** Unreserved characters, sub-delimiters, percent-encoded bytes, and those of `also`. */
  predicate Encoded(s: string, also: string) {
    s == [] ||
    if s[0] as int == 37 then |s| >= 3 && HexCode(s[1]) && HexCode(s[2]) && Encoded(s[3..], also)
    else (Unreserved(s[0]) || SubDelimiter(s[0]) || s[0] in also) && Encoded(s[1..], also)
  }

  predicate SchemeText(s: string) {
    s != [] && Letter(s[0]) && forall c | c in s :: Letter(c) || DecimalDigit(c) || c in "+-."
  }

  /** A host is a name of letters, digits, hyphens and dots, or an address in brackets. */
  predicate StandardSite(a: Authority) {
    Encoded(a.userinfo, ":") && (a.userinfo != [] ==> a.at) && ValidHost(a.host) && IsDigits(a.port)
    && DecimalValue(a.port) <= 65535
  }

  /** An absolute URL, or a path with a query; there may be a fragment. */
  predicate StandardUrl(u: Url) {
    && (if u.site.Site? then SchemeText(u.scheme) && StandardSite(u.site.authority) else u.scheme == [] && u.path != [])
    && (u.path != [] ==> u.path[0] as int == 47) && Encoded(u.path, ":@/")
    && Encoded(u.query, ":@/?") && (u.query != [] ==> u.mark)
    && Encoded(u.fragment, ":@/?") && u.hashes <= 1 && (u.fragment != [] ==> u.hashes == 1)
  }

  lemma {:induction false} EncodedCodes(s: string, also: string)
    requires Encoded(s, also)
    ensures forall c | c in s :: Unreserved(c) || SubDelimiter(c) || c as int == 37 || c in also
    decreases |s|
  {
    hide Unreserved, SubDelimiter;
    if s != [] {
      if s[0] as int == 37 {
        EncodedCodes(s[3..], also);
        HexUnreserved(s[1]);
        HexUnreserved(s[2]);
        assert s == [s[0], s[1], s[2]] + s[3..];
      } else {
        EncodedCodes(s[1..], also);
        assert s == [s[0]] + s[1..];
      }
    }
  }

  lemma HexUnreserved(c: char)
    ensures HexCode(c) ==> Unreserved(c)
  {
  }

  lemma InPath(c: char)
    requires Unreserved(c) || SubDelimiter(c) || c as int == 37 || c in ":@/"
    ensures PathCode(c)
  {
  }

  lemma InQuery(c: char)
    requires Unreserved(c) || SubDelimiter(c) || c as int == 37 || c in ":@/?"
    ensures QueryCode(c)
  {
  }

  lemma InUserinfo(c: char)
    requires Unreserved(c) || SubDelimiter(c) || c as int == 37 || c in ":"
    ensures UserinfoCode(c)
  {
  }

  lemma EncodedParts(u: Url)
    requires StandardUrl(u)
    ensures UrlChars(u.path) && QueryChars(u.query) && FragmentChars(u.fragment)
    ensures ValidSite(u.site)
  {
    hide Unreserved, SubDelimiter, PathCode, UserinfoCode, Encoded, ValidHost;
    EncodedCodes(u.path, ":@/");
    EncodedCodes(u.query, ":@/?");
    EncodedCodes(u.fragment, ":@/?");
    forall c | c in u.path ensures PathCode(c) { InPath(c); }
    forall c | c in u.query ensures QueryCode(c) { InQuery(c); }
    forall c | c in u.fragment ensures QueryCode(c) { InQuery(c); }
    if u.fragment != [] { assert u.fragment[0] in u.fragment; }
    if u.site.Site? {
      EncodedCodes(u.site.authority.userinfo, ":");
      forall c | c in u.site.authority.userinfo ensures UserinfoCode(c) { InUserinfo(c); }
    }
  }

  /** The first character that is no letter ends the reading. */
  lemma {:induction false} SchemeDies(s: string, more: string)
    requires SchemeText(s) && !Alphas(s)
    ensures Advance(Start(false), s + more).state.Dead?
    decreases |s|
  {
    var g, n := Start(false), |s| - 1;
    var v := s[..n];
    assert s == v + [s[n]];
    if Alphas(v) {
      assert !Letter(s[n]) by { assert s[n] in s; }
      SchemeRead(g, v);
      AdvanceSnoc(g, v, s[n]);
      assert s[n] in s;
    } else {
      assert v[0] == s[0];
      SchemeDies(v, [s[n]]);
    }
    DeadStays(g, s, more);
  }

  lemma OtherScheme(u: Url)
    requires SchemeText(u.scheme) && !Alphas(u.scheme)
    ensures !Accepts(false, Render(u))
  {
    hide Advance, SchemeText, Alphas, RawAuthority, Hashes, Mark, Passes;
    var t := TargetOf(u);
    var more := Mark(t.mark, '?') + t.query + Hashes(t.hashes) + t.fragment;
    var rest := SLASHES[..t.slashes] + t.authority + t.path;
    assert Render(u) == u.scheme + (rest + more);
    SchemeDies(u.scheme, rest + more);
  }

  lemma EarlyFragment(u: Url)
    requires StandardUrl(u) && Alphas(u.scheme) && u.hashes > 0 && !u.mark && u.path == [] && ValidSite(u.site)
    ensures !Accepts(false, Render(u))
  {
    hide Advance, HostAdvance, RenderAuthority, Encoded, ValidAuthority;
    var g, t := Start(false), TargetOf(u);
    AuthorityFlows(u.site.authority);
    var head := t.scheme + SLASHES[..t.slashes] + t.authority;
    AuthorityAfter(false, t);
    AdvanceSnoc(g, head, '#');
    DeadStays(g, head + ['#'], t.fragment);
    assert Hashes(1) == ['#'];
    assert Render(u) == head + ['#'] + t.fragment;
  }

  lemma LateFragment(u: Url)
    requires StandardUrl(u) && Alphas(u.scheme) && (u.hashes > 0 ==> u.mark || u.path != [])
    requires UrlChars(u.path) && QueryChars(u.query) && FragmentChars(u.fragment) && ValidSite(u.site)
    ensures Accepts(false, Render(u))
  {
    hide Encoded, Accepts, Render, UrlChars, QueryChars, FragmentChars, StandardSite, RenderAuthority;
    if u.site.Site? { AuthorityFlows(u.site.authority); }
    ValidIsAccepted(false, u);
  }

  /** A URL of the standards is accepted if and only if its scheme is made of letters, and its
      fragment does not follow the authority directly. */
  lemma StandardExact(u: Url)
    requires StandardUrl(u)
    ensures Accepts(false, Render(u)) <==> Alphas(u.scheme) && (u.hashes > 0 ==> u.mark || u.path != [])
  {
    hide Encoded, Accepts, Render, ValidSite, UrlChars, QueryChars, FragmentChars, StandardSite;
    EncodedParts(u);
    if !Alphas(u.scheme) {
      OtherScheme(u);
    } else if u.hashes > 0 && !u.mark && u.path == [] {
      EarlyFragment(u);
    } else {
      LateFragment(u);
    }
  }

  lemma ExampleCodes()
    ensures UrlChars("/toto.html") && QueryChars("toto=a%20b")
  {
  }

  lemma PathAndQuery(path: string, query: string)
    ensures Render(Url.Url("", NoSite, path, true, query, 0, "")) == path + "?" + query
  {
  }

  /** A path and a query with an encoded blank. */
  lemma EncodedExample()
    ensures var u := Url.Url("", NoSite, "/toto.html", true, "toto=a%20b", 0, "");
        && Render(u) == "/toto.html?toto=a%20b" && Accepts(false, Render(u))
        && Offset(u, Path) == 0 && |Component(u, Path)| == 10 && Offset(u, Query) == 11 && |Component(u, Query)| == 10
  {
    ExampleCodes();
    PathAndQuery("/toto.html", "toto=a%20b");
    assert "/toto.html" + "?" + "toto=a%20b" == "/toto.html?toto=a%20b";
    hide Accepts, UrlChars, QueryChars, Text;
    var u := Url.Url("", NoSite, "/toto.html", true, "toto=a%20b", 0, "");
    ValidIsAccepted(false, u);
  }
}
