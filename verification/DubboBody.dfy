/** The body of a Dubbo request, and a reader that knows only bytes: it cuts the text behind
    every newline and takes the quotes off each line. */
module DubboBody {
  import opened Wire
  import opened Frames

  // ---------------------------------------------------------------- writing

  function Quoted(s: seq<byte>): seq<byte> { [34] + s + [34, 10] }

  const VERSION: seq<byte> := [50, 46, 48, 46, 49]      // 2.0.1
  const NULL_LINE: seq<byte> := [110, 117, 108, 108, 10]

  const ATTACHMENTS :=
    "{\"path\":\"com.alibaba." + "dubbo.performance." + "demo.provider." + "IHelloService\"}"

  const PATH_TEXT := ATTACHMENTS + "\n"

  function PathByte(i: nat): byte {
    if i < |PATH_TEXT| then PATH_TEXT[i] as int % 256 else 0
  }

  /** The attachments of every request, as bytes. */
  function Path(): seq<byte> { seq(69, i requires 0 <= i < 69 => PathByte(i)) }

  /** Five quoted strings, a null and the attachments, a line each. */
  function Body(k: Key, data: seq<byte>): seq<byte> {
    Quoted(VERSION) + Quoted(k.site) + NULL_LINE + Quoted(k.call) + Quoted(k.types) + Quoted(data) + Path()
  }

  // ---------------------------------------------------------------- reading

  function LineEnd(x: seq<byte>): (n: nat)
    ensures n <= |x| && 10 !in x[..n] && (n < |x| ==> x[n] == 10)
  {
    if x == [] || x[0] == 10 then 0 else 1 + LineEnd(x[1..])
  }

  /** What stands in front of, between and behind the newlines. */
  function Lines(x: seq<byte>): (ls: seq<seq<byte>>)
    ensures |ls| >= 1
  {
    var n := LineEnd(x);
    if n == |x| then [x] else [x[..n]] + Lines(x[n + 1..])
  }

  function Unquoted(line: seq<byte>): seq<byte> {
    if |line| >= 2 && line[0] == 34 && line[|line| - 1] == 34 then line[1..|line| - 1] else line
  }

  datatype Invocation = Malformed | Invocation(version: seq<byte>, site: seq<byte>, call: seq<byte>,
                                                 types: seq<byte>, arguments: seq<byte>, attachments: seq<byte>)

  /** Seven lines and nothing behind them; the third is a null. */
  function ReadBody(x: seq<byte>): Invocation {
    var ls := Lines(x);
    if |ls| != 8 || ls[7] != [] || ls[2] != [110, 117, 108, 108] then Malformed
    else Invocation(Unquoted(ls[0]), Unquoted(ls[1]), Unquoted(ls[3]), Unquoted(ls[4]), Unquoted(ls[5]), ls[6])
  }

  // ---------------------------------------------------------------- what is written is read

  lemma {:induction false} LineEndAt(a: seq<byte>, more: seq<byte>)
    requires 10 !in a
    ensures LineEnd(a + [10] + more) == LineEnd(a) == |a|
  {
    if a != [] {
      assert (a + [10] + more)[1..] == a[1..] + [10] + more;
      LineEndAt(a[1..], more);
    }
  }

  lemma FirstLine(a: seq<byte>, more: seq<byte>)
    requires 10 !in a
    ensures Lines(a + [10] + more) == [a] + Lines(more)
  {
    LineEndAt(a, more);
    var x := a + [10] + more;
    assert x[..|a|] == a && x[|a| + 1..] == more;
  }

  /** A line of its own. */
  lemma OneLine(a: seq<byte>)
    ensures |Lines(a)| == 1 <==> 10 !in a
    ensures 10 !in a ==> Lines(a) == [a]
  {
    var n := LineEnd(a);
    if n == |a| { assert a[..n] == a; }
  }

  lemma CutLine(x: seq<byte>)
    requires LineEnd(x) < |x|
    ensures var n := LineEnd(x); Lines(x) == [x[..n]] + Lines(x[n + 1..])
  {
    hide LineEnd;
  }

  lemma CutText(x: seq<byte>, n: nat)
    requires n < |x| && x[n] == 10
    ensures x == x[..n] + [10] + x[n + 1..]
  {
  }

  lemma {:induction false} LinesJoin(a: seq<byte>, b: seq<byte>)
    ensures Lines(a + [10] + b) == Lines(a) + Lines(b)
    decreases |a|
  {
    hide Lines, LineEnd;
    var n := LineEnd(a);
    if n == |a| {
      assert a[..n] == a;
      OneLine(a);
      FirstLine(a, b);
    } else {
      CutLine(a);
      CutText(a, n);
      var l, r := a[..n], a[n + 1..];
      LinesJoin(r, b);
      FirstLine(l, r + [10] + b);
      assert a + [10] + b == l + [10] + (r + [10] + b);
    }
  }

  lemma QuotedLine(s: seq<byte>, more: seq<byte>)
    ensures Lines(Quoted(s) + more) == Lines([34] + s + [34]) + Lines(more)
    ensures Unquoted([34] + s + [34]) == s
    ensures 10 !in s <==> 10 !in [34] + s + [34]
  {
    var q := [34] + s + [34];
    assert Quoted(s) + more == q + [10] + more;
    LinesJoin(q, more);
    assert forall i | 0 <= i < |s| :: q[i + 1] == s[i];
    hide Lines;
  }

  /** The last line, as bytes. */
  predicate Attached(x: seq<byte>) {
    |x| == |ATTACHMENTS| && forall i | 0 <= i < |x| :: x[i] == ATTACHMENTS[i] as int
  }

  lemma Printable()
    ensures |ATTACHMENTS| == 68 && forall c | c in ATTACHMENTS :: c as int < 256 && c != '\n'
  {
    assert forall c | c in "{\"path\":\"com.alibaba." :: c as int < 256 && c != '\n';
    assert forall c | c in "dubbo.performance." :: c as int < 256 && c != '\n';
    assert forall c | c in "demo.provider." :: c as int < 256 && c != '\n';
    assert forall c | c in "IHelloService\"}" :: c as int < 256 && c != '\n';
  }

  lemma PathLine()
    ensures Path() == Path()[..68] + [10] + [] && Attached(Path()[..68]) && 10 !in Path()[..68]
  {
    Printable();
    var p, a := Path(), ATTACHMENTS;
    forall i | 0 <= i < 68 ensures p[..68][i] == a[i] as int && a[i] as int != 10 {
      assert a[i] in a && PATH_TEXT[i] == a[i];
    }
    assert p[68] == 10;
  }

  /** The fields of a request can be told apart. */
  predicate Legible(k: Key, data: seq<byte>) { 10 !in k.site && 10 !in k.call && 10 !in k.types && 10 !in data }

  /** Eight texts make eight lines exactly when each of them is one. */
  lemma EightLines(a: seq<byte>, b: seq<byte>, c: seq<byte>, d: seq<byte>, e: seq<byte>, f: seq<byte>, g: seq<byte>,
                   h: seq<byte>)
    ensures var ls := Lines(a) + (Lines(b) + (Lines(c) + (Lines(d) + (Lines(e) + (Lines(f) + (Lines(g) + Lines(h)))))));
        if 10 !in a && 10 !in b && 10 !in c && 10 !in d && 10 !in e && 10 !in f && 10 !in g && 10 !in h
        then ls == [a, b, c, d, e, f, g, h] else |ls| > 8
  {
    hide Lines;
    OneLine(a);
    OneLine(b);
    OneLine(c);
    OneLine(d);
    OneLine(e);
    OneLine(f);
    OneLine(g);
    OneLine(h);
  }

  /** The lines of a body. */
  lemma BodyLines(k: Key, data: seq<byte>)
    ensures Lines(Body(k, data)) ==
            Lines([34] + VERSION + [34]) + (Lines([34] + k.site + [34]) + (Lines([110, 117, 108, 108])
            + (Lines([34] + k.call + [34]) + (Lines([34] + k.types + [34]) + (Lines([34] + data + [34])
            + (Lines(Path()[..68]) + Lines([])))))))
  {
    PathLine();
    hide Lines, Path, Quoted, Attached;
    var last := Path();
    var f := Quoted(data) + last;
    var e := Quoted(k.types) + f;
    var d := Quoted(k.call) + e;
    var c := NULL_LINE + d;
    var b := Quoted(k.site) + c;
    assert Body(k, data) == Quoted(VERSION) + b;
    QuotedLine(VERSION, b);
    QuotedLine(k.site, c);
    assert c == [110, 117, 108, 108] + [10] + d;
    LinesJoin([110, 117, 108, 108], d);
    QuotedLine(k.call, e);
    QuotedLine(k.types, f);
    QuotedLine(data, last);
    LinesJoin(last[..68], []);
  }

  /** What is written is read, field by field, exactly when no field holds a newline; else it
      is not read at all. */
  lemma BodyRead(k: Key, data: seq<byte>)
    ensures var c := ReadBody(Body(k, data));
        if Legible(k, data) then
          c.Invocation? && c.version == [50, 46, 48, 46, 49] && c.site == k.site && c.call == k.call
          && c.types == k.types && c.arguments == data && Attached(c.attachments)
        else c.Malformed?
  {
    hide Lines, Path, Quoted, Attached, Body;
    BodyLines(k, data);
    PathLine();
    EightLines([34] + VERSION + [34], [34] + k.site + [34], [110, 117, 108, 108], [34] + k.call + [34],
               [34] + k.types + [34], [34] + data + [34], Path()[..68], []);
    QuotedLine(VERSION, []);
    QuotedLine(k.site, []);
    QuotedLine(k.call, []);
    QuotedLine(k.types, []);
    QuotedLine(data, []);
    assert 10 !in [34] + VERSION + [34] && 10 !in [110, 117, 108, 108];
    if Legible(k, data) {
      assert Lines(Body(k, data)) == [[34] + VERSION + [34], [34] + k.site + [34], [110, 117, 108, 108],
        [34] + k.call + [34], [34] + k.types + [34], [34] + data + [34], Path()[..68], []];
    }
  }
}
