/** The authority of a URL (RFC 3986, section 3.2; zone ids as in RFC 6874): its automaton,
    and the theorem that it accepts exactly the texts of valid authorities. */
module UrlHost {
  import opened Ascii
  import opened HttpChars
  import opened HttpMachine
  import opened HttpText
  import opened UrlGrammar

  datatype HostState =
    | HostDead
    | UserinfoStart
    | InUserinfo
    | HostStart
    | V6Start
    | InHost
    | InV6
    | V6End
    | V6ZoneStart
    | InV6Zone
    | PortStart
    | InPort

  predicate IsV6Char(c: char) { IsHex(c) || c == ':' || c == '.' }

  /** RFC 6874: unreserved and percent-encoded characters. */
  predicate IsZoneChar(c: char) {
    IsAlphanum(c) || c == '%' || c == '.' || c == '-' || c == '_' || c == '~'
  }

  function ParseHostChar(s: HostState, ch: char): HostState {
    match s
    case HostDead => HostDead
    case UserinfoStart => if ch == '@' then HostStart else if IsUserinfoChar(ch) then InUserinfo else HostDead
    case InUserinfo => if ch == '@' then HostStart else if IsUserinfoChar(ch) then InUserinfo else HostDead
    case HostStart => if ch == '[' then V6Start else if IsHostChar(ch) then InHost else HostDead
    case InHost => if IsHostChar(ch) then InHost else if ch == ':' then PortStart else HostDead
    case V6End => if ch == ':' then PortStart else HostDead
    case V6Start => if IsV6Char(ch) then InV6 else HostDead
    case InV6 =>
      if ch == ']' then V6End else if IsV6Char(ch) then InV6 else if ch == '%' then V6ZoneStart else HostDead
    case V6ZoneStart => if IsZoneChar(ch) then InV6Zone else HostDead
    case InV6Zone => if ch == ']' then V6End else if IsZoneChar(ch) then InV6Zone else HostDead
    case PortStart => if IsNum(ch) then InPort else HostDead
    case InPort => if IsNum(ch) then InPort else HostDead
  }

  /** States in which an authority may end. */
  predicate HostComplete(s: HostState) {
    s.InHost? || s.V6End? || s.InPort?
  }

  // ---------------------------------------------------------------- components

  datatype Host = Name(name: string) | V6(address: string, zone: string)

  /** `at`: the userinfo, which may be empty, is followed by '@'.  An empty zone or port
      stands for none. */
  datatype Authority = Authority(userinfo: string, at: bool, host: Host, port: string)

  function HostText(h: Host): string {
    match h
    case Name(name) => name
    case V6(address, zone) => address + Mark(zone != [], '%') + zone
  }

  function RenderAuthority(a: Authority): string {
    a.userinfo + Mark(a.at, '@') + Mark(a.host.V6?, '[') + HostText(a.host) + Mark(a.host.V6?, ']')
    + Mark(a.port != [], ':') + a.port
  }

  predicate UserinfoChars(s: string) { forall c | c in s :: UserinfoCode(c) }
  predicate HostChars(s: string) { forall c | c in s :: HostCode(c) }
  predicate V6Chars(s: string) { forall c | c in s :: AddressCode(c) }
  predicate ZoneChars(s: string) { forall c | c in s :: ZoneCode(c) }

  predicate ValidHost(h: Host) {
    match h
    case Name(name) => name != [] && HostChars(name)
    case V6(address, zone) => address != [] && V6Chars(address) && ZoneChars(zone)
  }

  predicate ValidAuthority(a: Authority) {
    UserinfoChars(a.userinfo) && (a.userinfo != [] ==> a.at) && ValidHost(a.host) && IsDigits(a.port)
  }

  // ---------------------------------------------------------------- the automaton

  /** What has been read of an authority. */
  datatype Parts = Parts(userinfo: string, at: bool, open: bool, name: string, address: string, percent: bool,
                         zone: string, close: bool, colon: bool, port: string)

  const NO_PARTS := Parts([], false, false, [], [], false, [], false, false, [])

  function HostPart(h: Parts): string {
    h.name + h.address + Mark(h.percent, '%') + h.zone
  }

  function PartsText(h: Parts): string {
    h.userinfo + Mark(h.at, '@') + Mark(h.open, '[') + HostPart(h) + Mark(h.close, ']') + Mark(h.colon, ':') + h.port
  }

  function PutHost(h: Parts, s: HostState, ch: char): Parts {
    match s
    case InUserinfo => h.(userinfo := h.userinfo + [ch])
    case HostStart => h.(at := true)
    case V6Start => h.(open := true)
    case InHost => h.(name := h.name + [ch])
    case InV6 => h.(address := h.address + [ch])
    case V6ZoneStart => h.(percent := true)
    case InV6Zone => h.(zone := h.zone + [ch])
    case V6End => h.(close := true)
    case PortStart => h.(colon := true)
    case InPort => h.(port := h.port + [ch])
    case _ => h
  }

  datatype HostProgress = HostProgress(state: HostState, parts: Parts)

  /** Where reading starts: `found` says that the authority contains a '@'. */
  function HostBegin(found: bool): HostProgress {
    HostProgress(if found then UserinfoStart else HostStart, NO_PARTS)
  }

  function HostStep(g: HostProgress, ch: char): HostProgress {
    var s := ParseHostChar(g.state, ch);
    HostProgress(s, PutHost(g.parts, s, ch))
  }

  function HostAdvance(g: HostProgress, text: string): HostProgress {
    if text == [] then g else HostStep(HostAdvance(g, text[..|text| - 1]), text[|text| - 1])
  }

  lemma HostAdvanceSnoc(g: HostProgress, text: string, ch: char)
    ensures HostAdvance(g, text + [ch]) == HostStep(HostAdvance(g, text), ch)
  {
    assert (text + [ch])[..|text|] == text;
  }

  lemma {:induction false} HostAdvanceConcat(g: HostProgress, a: string, b: string)
    ensures HostAdvance(g, a + b) == HostAdvance(HostAdvance(g, a), b)
    decreases |b|
  {
    if b == [] {
      assert a + b == a;
    } else {
      var n := |b| - 1;
      assert a + b == (a + b[..n]) + [b[n]];
      HostAdvanceSnoc(g, a + b[..n], b[n]);
      HostAdvanceConcat(g, a, b[..n]);
    }
  }

  lemma {:induction false} HostDeadStays(g: HostProgress, a: string, b: string)
    requires HostAdvance(g, a).state.HostDead?
    ensures HostAdvance(g, a + b).state.HostDead?
    decreases |b|
  {
    if b == [] {
      assert a + b == a;
    } else {
      var n := |b| - 1;
      assert a + b == (a + b[..n]) + [b[n]];
      HostAdvanceSnoc(g, a + b[..n], b[n]);
      HostDeadStays(g, a, b[..n]);
    }
  }

  // ---------------------------------------------------------------- what it has read

  predicate UserReached(found: bool, h: Parts) {
    UserinfoChars(h.userinfo) && h.at == found && (h.userinfo != [] ==> h.at)
  }

  predicate V6Reached(found: bool, h: Parts) {
    && UserReached(found, h) && h.open && h.name == [] && h.address != [] && V6Chars(h.address)
    && ZoneChars(h.zone) && (h.zone != [] ==> h.percent)
  }

  /** A complete host, by name or by address. */
  predicate HostReached(found: bool, h: Parts) {
    if h.open then V6Reached(found, h) && h.close && (h.percent <==> h.zone != [])
    else
      && UserReached(found, h) && h.name != [] && HostChars(h.name)
      && h.address == [] && !h.percent && h.zone == [] && !h.close
  }

  predicate PartsReached(found: bool, g: HostProgress) {
    var h := g.parts;
    match g.state
    case HostDead => false
    case UserinfoStart => found && h == NO_PARTS
    case InUserinfo => found && h.userinfo != [] && UserinfoChars(h.userinfo) && h == NO_PARTS.(userinfo := h.userinfo)
    case HostStart => UserReached(found, h) && h == NO_PARTS.(userinfo := h.userinfo, at := h.at)
    case InHost => HostReached(found, h) && !h.open && !h.colon && h.port == []
    case V6Start => UserReached(found, h) && h == NO_PARTS.(userinfo := h.userinfo, at := h.at, open := true)
    case InV6 => V6Reached(found, h) && !h.percent && h.zone == [] && !h.close && !h.colon && h.port == []
    case V6ZoneStart => V6Reached(found, h) && h.percent && h.zone == [] && !h.close && !h.colon && h.port == []
    case InV6Zone => V6Reached(found, h) && h.percent && h.zone != [] && !h.close && !h.colon && h.port == []
    case V6End => HostReached(found, h) && h.open && !h.colon && h.port == []
    case PortStart => HostReached(found, h) && h.colon && h.port == []
    case InPort => HostReached(found, h) && h.colon && h.port != [] && IsDigits(h.port)
  }

  lemma PartsReachedStep(found: bool, g: HostProgress, ch: char)
    requires PartsReached(found, g)
    ensures var h := HostStep(g, ch); !h.state.HostDead? ==> PartsReached(found, h)
  {
    hide IsUserinfoChar, IsHostChar, IsV6Char, IsZoneChar, UserinfoCode, HostCode, AddressCode, ZoneCode;
    TablesOfHosts(ch);
    var s := g.state;
    if s.UserinfoStart? || s.InUserinfo? {
    } else if s.HostStart? || s.InHost? {
    } else if s.V6Start? || s.InV6? {
    } else if s.V6ZoneStart? || s.InV6Zone? {
    }
  }

  /** The macros of the parser are the classes of the standard. */
  lemma TablesOfHosts(c: char)
    ensures IsUserinfoChar(c) == UserinfoCode(c) && IsHostChar(c) == HostCode(c)
    ensures IsV6Char(c) == AddressCode(c) && IsZoneChar(c) == ZoneCode(c)
  {
  }

  /** Nothing has been read yet of the parts behind the one of state `s`. */
  predicate HostRightmost(h: Parts, s: HostState, ch: char) {
    if s.InUserinfo? then h == NO_PARTS.(userinfo := h.userinfo)
    else if s.HostStart? then ch == '@' && h == NO_PARTS.(userinfo := h.userinfo)
    else if s.V6Start? then ch == '[' && h == NO_PARTS.(userinfo := h.userinfo, at := h.at)
    else if s.InHost? then h == NO_PARTS.(userinfo := h.userinfo, at := h.at, name := h.name)
    else if s.InV6? then h == NO_PARTS.(userinfo := h.userinfo, at := h.at, open := true, address := h.address)
    else if s.V6ZoneStart? then
      ch == '%' && h == NO_PARTS.(userinfo := h.userinfo, at := h.at, open := true, address := h.address)
    else if s.InV6Zone? then !h.close && !h.colon && h.port == []
    else if s.V6End? then ch == ']' && !h.close && !h.colon && h.port == []
    else if s.PortStart? then ch == ':' && !h.colon && h.port == []
    else s.InPort?
  }

  /** A part behind the host grows. */
  lemma PutBehindHost(h: Parts, s: HostState, ch: char)
    requires HostRightmost(h, s, ch) && (s.InPort? || s.PortStart? || s.V6End?)
    ensures PartsText(PutHost(h, s, ch)) == PartsText(h) + [ch]
  {
    var h' := PutHost(h, s, ch);
    assert HostPart(h') == HostPart(h);
    hide HostPart;
    if s.V6End? {
      assert h'.port == [] && !h'.colon;
    } else if s.PortStart? {
      assert h'.port == [];
    }
  }

  /** The host grows; nothing is behind it. */
  lemma PutInHost(h: Parts, s: HostState, ch: char)
    requires HostRightmost(h, s, ch) && (s.InHost? || s.InV6? || s.V6ZoneStart? || s.InV6Zone?)
    ensures PartsText(PutHost(h, s, ch)) == PartsText(h) + [ch]
  {
    var h' := PutHost(h, s, ch);
    assert HostPart(h') == HostPart(h) + [ch];
    hide HostPart;
  }

  lemma PutBeforeHost(h: Parts, s: HostState, ch: char)
    requires HostRightmost(h, s, ch) && (s.InUserinfo? || s.HostStart? || s.V6Start?)
    ensures PartsText(PutHost(h, s, ch)) == PartsText(h) + [ch]
  {
    var h' := PutHost(h, s, ch);
    assert HostPart(h') == HostPart(h) == [];
    hide HostPart;
  }

  lemma PutHostText(h: Parts, s: HostState, ch: char)
    requires HostRightmost(h, s, ch)
    ensures PartsText(PutHost(h, s, ch)) == PartsText(h) + [ch]
  {
    if s.InPort? || s.PortStart? || s.V6End? {
      PutBehindHost(h, s, ch);
    } else if s.InHost? || s.InV6? || s.V6ZoneStart? || s.InV6Zone? {
      PutInHost(h, s, ch);
    } else {
      PutBeforeHost(h, s, ch);
    }
    hide PartsText, PutHost;
  }

  lemma HostStepRightmost(found: bool, g: HostProgress, ch: char)
    requires PartsReached(found, g)
    ensures var s := ParseHostChar(g.state, ch); !s.HostDead? ==> HostRightmost(g.parts, s, ch)
  {
  }

  lemma {:induction false} PartsReachedText(found: bool, text: string)
    ensures var g := HostAdvance(HostBegin(found), text);
        !g.state.HostDead? ==> PartsReached(found, g) && PartsText(g.parts) == text
    decreases |text|
  {
    if text != [] {
      var n := |text| - 1;
      PartsReachedText(found, text[..n]);
      var g := HostAdvance(HostBegin(found), text[..n]);
      if !g.state.HostDead? {
        PartsReachedStep(found, g, text[n]);
        HostStepRightmost(found, g, text[n]);
        if !HostStep(g, text[n]).state.HostDead? { PutHostText(g.parts, HostStep(g, text[n]).state, text[n]); }
        assert text == text[..n] + [text[n]];
      }
    }
  }

  /** The authority that complete parts stand for, and back. */
  function AuthorityOf(h: Parts): Authority {
    Authority(h.userinfo, h.at, if h.open then V6(h.address, h.zone) else Name(h.name), h.port)
  }

  function PartsOf(a: Authority): Parts {
    Parts(a.userinfo, a.at, a.host.V6?, if a.host.Name? then a.host.name else [],
          if a.host.V6? then a.host.address else [], a.host.V6? && a.host.zone != [],
          if a.host.V6? then a.host.zone else [], a.host.V6?, a.port != [], a.port)
  }

  lemma PartsOfText(a: Authority)
    ensures PartsText(PartsOf(a)) == RenderAuthority(a) && AuthorityOf(PartsOf(a)) == a
  {
    var h := PartsOf(a);
    assert HostPart(h) == HostText(a.host);
  }

  /** A complete reading is a valid authority with exactly this text. */
  lemma CompleteMeans(found: bool, text: string)
    ensures var g := HostAdvance(HostBegin(found), text);
        HostComplete(g.state) ==>
          var a := AuthorityOf(g.parts);
          ValidAuthority(a) && a.at == found && RenderAuthority(a) == text && PartsOf(a) == g.parts
  {
    PartsReachedText(found, text);
    PartsOfText(AuthorityOf(HostAdvance(HostBegin(found), text).parts));
  }

  // ---------------------------------------------------------------- reading a given authority

  lemma {:induction false} UserinfoRead(g: HostProgress, s: string)
    requires g.state.UserinfoStart? && UserinfoChars(s)
    ensures HostAdvance(g, s) ==
            if s == [] then g else HostProgress(InUserinfo, g.parts.(userinfo := g.parts.userinfo + s))
    decreases |s|
  {
    if s != [] {
      var n := |s| - 1;
      assert s == s[..n] + [s[n]] && s[n] in s;
      UserinfoRead(g, s[..n]);
      assert g.parts.userinfo + s == (g.parts.userinfo + s[..n]) + [s[n]];
    }
  }

  lemma UserRead(a: Authority)
    requires ValidAuthority(a)
    ensures HostAdvance(HostBegin(a.at), a.userinfo + Mark(a.at, '@')) ==
            HostProgress(HostStart, NO_PARTS.(userinfo := a.userinfo, at := a.at))
  {
    if a.at {
      UserinfoRead(HostBegin(true), a.userinfo);
      assert [] + a.userinfo == a.userinfo;
      HostAdvanceSnoc(HostBegin(true), a.userinfo, '@');
      assert Mark(true, '@') == ['@'];
    } else {
      assert a.userinfo + Mark(a.at, '@') == [];
    }
  }

  lemma {:induction false} NameRead(g: HostProgress, s: string)
    requires g.state.HostStart? && HostChars(s)
    ensures HostAdvance(g, s) == if s == [] then g else HostProgress(InHost, g.parts.(name := g.parts.name + s))
    decreases |s|
  {
    if s != [] {
      var n := |s| - 1;
      assert s == s[..n] + [s[n]] && s[n] in s;
      NameRead(g, s[..n]);
      assert g.parts.name + s == (g.parts.name + s[..n]) + [s[n]];
    }
  }

  lemma {:induction false} AddressRead(g: HostProgress, s: string)
    requires g.state.V6Start? && V6Chars(s)
    ensures HostAdvance(g, s) == if s == [] then g else HostProgress(InV6, g.parts.(address := g.parts.address + s))
    decreases |s|
  {
    if s != [] {
      var n := |s| - 1;
      assert s == s[..n] + [s[n]] && s[n] in s;
      AddressRead(g, s[..n]);
      assert g.parts.address + s == (g.parts.address + s[..n]) + [s[n]];
    }
  }

  lemma {:induction false} ZoneRead(g: HostProgress, s: string)
    requires g.state.InV6? && ZoneChars(s)
    ensures HostAdvance(g, Mark(s != [], '%') + s) ==
            if s == [] then g else HostProgress(InV6Zone, g.parts.(percent := true, zone := g.parts.zone + s))
    decreases |s|
  {
    if s == [] {
      assert Mark(false, '%') + s == [];
    } else if |s| == 1 {
      PercentRead(g);
      HostAdvanceSnoc(g, ['%'], s[0]);
      ZoneChar(HostAdvance(g, ['%']), s[0]);
      hide HostAdvance, HostStep;
      assert Mark(true, '%') + s == ['%'] + [s[0]];
      assert g.parts.zone + s == g.parts.zone + [s[0]];
    } else {
      var n := |s| - 1;
      assert s[n] in s;
      ZoneRead(g, s[..n]);
      assert Mark(true, '%') + s == (Mark(true, '%') + s[..n]) + [s[n]];
      HostAdvanceSnoc(g, Mark(true, '%') + s[..n], s[n]);
      ZoneChar(HostAdvance(g, Mark(true, '%') + s[..n]), s[n]);
      hide HostAdvance, HostStep;
      assert g.parts.zone + s == (g.parts.zone + s[..n]) + [s[n]];
    }
  }

  lemma PercentRead(g: HostProgress)
    requires g.state.InV6?
    ensures HostAdvance(g, ['%']) == HostProgress(V6ZoneStart, g.parts.(percent := true))
  {
    HostAdvanceSnoc(g, [], '%');
    assert [] + ['%'] == ['%'];
  }

  lemma ZoneChar(g: HostProgress, c: char)
    requires (g.state.V6ZoneStart? || g.state.InV6Zone?) && ZoneCode(c)
    ensures HostStep(g, c) == HostProgress(InV6Zone, g.parts.(zone := g.parts.zone + [c]))
  {
  }

  /** The host, with its brackets. */
  function HostWithBrackets(h: Host): string {
    Mark(h.V6?, '[') + HostText(h) + Mark(h.V6?, ']')
  }

  function WithHost(p: Parts, h: Host): Parts {
    match h
    case Name(name) => p.(name := name)
    case V6(address, zone) => p.(open := true, address := address, percent := zone != [], zone := zone, close := true)
  }

  lemma HostRead(g: HostProgress, h: Host)
    requires g.state.HostStart? && ValidHost(h)
    requires g.parts == NO_PARTS.(userinfo := g.parts.userinfo, at := g.parts.at)
    ensures HostAdvance(g, HostWithBrackets(h)) == HostProgress(if h.V6? then V6End else InHost, WithHost(g.parts, h))
  {
    if h.Name? {
      NameRead(g, h.name);
      assert [] + h.name == h.name && HostWithBrackets(h) == h.name;
    } else {
      V6Read(g, h.address, h.zone);
      assert HostWithBrackets(h) == ['['] + h.address + (Mark(h.zone != [], '%') + h.zone) + [']'];
    }
  }

  lemma V6Read(g: HostProgress, address: string, zone: string)
    requires g.state.HostStart? && address != [] && V6Chars(address) && ZoneChars(zone)
    requires g.parts == NO_PARTS.(userinfo := g.parts.userinfo, at := g.parts.at)
    ensures HostAdvance(g, ['['] + address + (Mark(zone != [], '%') + zone) + [']']) ==
            HostProgress(V6End, WithHost(g.parts, V6(address, zone)))
  {
    hide HostAdvance, HostStep;
    var y, z := ['['] + address, Mark(zone != [], '%') + zone;
    OpenRead(g);
    HostAdvanceConcat(g, ['['], address);
    AddressRead(HostAdvance(g, ['[']), address);
    HostAdvanceConcat(g, y, z);
    ZoneRead(HostAdvance(g, y), zone);
    HostAdvanceSnoc(g, y + z, ']');
    assert [] + address == address && [] + zone == zone;
    BracketRead(HostAdvance(g, y + z));
  }

  lemma OpenRead(g: HostProgress)
    requires g.state.HostStart?
    ensures HostAdvance(g, ['[']) == HostProgress(V6Start, g.parts.(open := true))
  {
    HostAdvanceSnoc(g, [], '[');
    assert [] + ['['] == ['['];
  }

  lemma BracketRead(g: HostProgress)
    requires g.state.InV6? || g.state.InV6Zone?
    ensures HostStep(g, ']') == HostProgress(V6End, g.parts.(close := true))
  {
  }

  lemma {:induction false} PortRead(g: HostProgress, s: string)
    requires (g.state.InHost? || g.state.V6End?) && IsDigits(s)
    ensures HostAdvance(g, Mark(s != [], ':') + s) ==
            if s == [] then g else HostProgress(InPort, g.parts.(colon := true, port := g.parts.port + s))
    decreases |s|
  {
    if s == [] {
      assert Mark(false, ':') + s == [];
    } else if |s| == 1 {
      PortChar(HostStep(g, ':'), s[0]);
      ColonRead(g);
      HostAdvanceSnoc(g, [], ':');
      HostAdvanceSnoc(g, [':'], s[0]);
      assert Mark(true, ':') + s == [':'] + [s[0]] && [] + [':'] == [':'];
      assert g.parts.port + s == g.parts.port + [s[0]];
    } else {
      var n := |s| - 1;
      assert s[n] in s;
      PortRead(g, s[..n]);
      assert Mark(true, ':') + s == (Mark(true, ':') + s[..n]) + [s[n]];
      HostAdvanceSnoc(g, Mark(true, ':') + s[..n], s[n]);
      PortChar(HostAdvance(g, Mark(true, ':') + s[..n]), s[n]);
      assert g.parts.port + s == (g.parts.port + s[..n]) + [s[n]];
    }
  }

  lemma ColonRead(g: HostProgress)
    requires g.state.InHost? || g.state.V6End?
    ensures HostStep(g, ':') == HostProgress(PortStart, g.parts.(colon := true))
  {
  }

  lemma PortChar(g: HostProgress, c: char)
    requires (g.state.PortStart? || g.state.InPort?) && DecimalDigit(c)
    ensures HostStep(g, c) == HostProgress(InPort, g.parts.(port := g.parts.port + [c]))
  {
  }

  /** The parts once the host is complete. */
  function BeforePort(a: Authority): HostProgress {
    HostProgress(if a.host.V6? then V6End else InHost,
                 WithHost(NO_PARTS.(userinfo := a.userinfo, at := a.at), a.host))
  }

  lemma BeforePortRead(a: Authority)
    requires ValidAuthority(a)
    ensures HostAdvance(HostBegin(a.at), a.userinfo + Mark(a.at, '@') + HostWithBrackets(a.host)) == BeforePort(a)
  {
    hide HostAdvance, HostWithBrackets, ValidHost;
    var u := a.userinfo + Mark(a.at, '@');
    UserRead(a);
    HostAdvanceConcat(HostBegin(a.at), u, HostWithBrackets(a.host));
    HostRead(HostAdvance(HostBegin(a.at), u), a.host);
  }

  lemma RenderedInThree(a: Authority)
    ensures RenderAuthority(a) ==
            a.userinfo + Mark(a.at, '@') + HostWithBrackets(a.host) + (Mark(a.port != [], ':') + a.port)
  {
    hide HostText;
  }

  /** The text of a valid authority is read completely, and into its parts. */
  lemma AuthorityComplete(a: Authority)
    requires ValidAuthority(a)
    ensures var g := HostAdvance(HostBegin(a.at), RenderAuthority(a)); HostComplete(g.state) && g.parts == PartsOf(a)
  {
    hide HostAdvance, HostWithBrackets, RenderAuthority;
    var g, p := BeforePort(a), Mark(a.port != [], ':') + a.port;
    BeforePortRead(a);
    HostAdvanceConcat(HostBegin(a.at), a.userinfo + Mark(a.at, '@') + HostWithBrackets(a.host), p);
    assert g.parts.port == [];
    PortRead(g, a.port);
    assert [] + a.port == a.port;
    RenderedInThree(a);
  }

  predicate Inner(s: string) { forall c | c in s :: IsServerChar(c) && c != '@' }

  lemma InnerConcat(a: string, b: string)
    requires Inner(a) && Inner(b)
    ensures Inner(a + b)
  {
  }

  lemma HostInner(h: Host)
    requires ValidHost(h)
    ensures Inner(HostText(h)) && HostText(h) != []
  {
    if h.V6? {
      InnerConcat(h.address, Mark(h.zone != [], '%'));
      InnerConcat(h.address + Mark(h.zone != [], '%'), h.zone);
    }
  }

  /** What stands behind the '@' of an authority. */
  function BehindAt(a: Authority): string {
    Mark(a.host.V6?, '[') + HostText(a.host) + Mark(a.host.V6?, ']') + Mark(a.port != [], ':') + a.port
  }

  lemma BehindAtInner(a: Authority)
    requires ValidAuthority(a)
    ensures Inner(BehindAt(a)) && BehindAt(a) != []
    ensures RenderAuthority(a) == a.userinfo + Mark(a.at, '@') + BehindAt(a)
  {
    var h, open, close, colon := HostText(a.host), Mark(a.host.V6?, '['), Mark(a.host.V6?, ']'),
        Mark(a.port != [], ':');
    HostInner(a.host);
    InnerConcat(open, h);
    InnerConcat(open + h, close);
    InnerConcat(open + h + close, colon);
    InnerConcat(open + h + close + colon, a.port);
    hide HostText;
    assert RenderAuthority(a) == a.userinfo + Mark(a.at, '@') + (open + h + close + colon + a.port);
  }

  /** Every character of a valid authority can follow "://". */
  lemma AuthorityFlows(a: Authority)
    requires ValidAuthority(a)
    ensures Flows(RenderAuthority(a)) && RenderAuthority(a) != []
  {
    hide RenderAuthority, BehindAt, Flows;
    BehindAtInner(a);
    FlowsAround(a.userinfo, a.at, BehindAt(a));
  }

  /** An authority contains a '@' exactly when there is one in front of its host. */
  lemma AtFound(a: Authority)
    requires ValidAuthority(a)
    ensures '@' in RenderAuthority(a) <==> a.at
  {
    hide RenderAuthority, BehindAt;
    BehindAtInner(a);
    if a.at { assert RenderAuthority(a)[|a.userinfo|] == '@'; }
  }

  lemma FlowsAround(u: string, at: bool, rest: string)
    requires Inner(u) && Inner(rest)
    ensures Flows(u + Mark(at, '@') + rest)
  {
    var r, n := u + Mark(at, '@') + rest, |u| + |Mark(at, '@')|;
    forall i | 0 <= i < |r| ensures IsServerChar(r[i]) && (r[i] == '@' ==> i == |u|) {
      if i >= n {
        assert r[i] == rest[i - n];
      } else if i < |u| {
        assert r[i] == u[i];
      }
    }
  }
}
