/** The two maps of a client, and what the answers it reads do to them. */
module Answers {
  import opened Wire
  import opened Frames

  /** One callback made, with its context and the answer. */
  datatype Made = Made(callback: nat, context: nat, id: int, data: seq<byte>)

  datatype Book = Book(callbacks: map<int, nat>, contexts: map<int, nat>, calls: seq<Made>)

  function Registered(b: Book, id: int, callback: nat, context: nat): Book {
    b.(callbacks := b.callbacks[id := callback], contexts := b.contexts[id := context])
  }

  predicate Expects(b: Book, f: Frame) { f.id in b.callbacks && f.id in b.contexts }

  /** The callback is looked up, made, and erased. */
  function Answered(b: Book, f: Frame): Book
    requires Expects(b, f)
  {
    Book(b.callbacks - {f.id}, b.contexts - {f.id},
         b.calls + [Made(b.callbacks[f.id], b.contexts[f.id], f.id, f.data)])
  }

  /** Every answer finds its entries. */
  predicate AllExpected(b: Book, fs: seq<Frame>)
    decreases |fs|
  {
    fs == [] || (Expects(b, fs[0]) && AllExpected(Answered(b, fs[0]), fs[1..]))
  }

  function AllAnswered(b: Book, fs: seq<Frame>): Book
    requires AllExpected(b, fs)
    decreases |fs|
  {
    if fs == [] then b else AllAnswered(Answered(b, fs[0]), fs[1..])
  }

  predicate DistinctIds(fs: seq<Frame>) { forall i, j | 0 <= i < j < |fs| :: fs[i].id != fs[j].id }

  function IdsIn(fs: seq<Frame>): set<int> { set f | f in fs :: f.id }

  /** One call for each answer, in their order, with the entries of its own id; these, and
      only these, are erased. */
  predicate Outcome(b: Book, fs: seq<Frame>, z: Book) {
    && |z.calls| == |b.calls| + |fs| && b.calls <= z.calls
    && (forall i | 0 <= i < |fs| ::
          Expects(b, fs[i]) &&
          z.calls[|b.calls| + i] == Made(b.callbacks[fs[i].id], b.contexts[fs[i].id], fs[i].id, fs[i].data))
    && z.callbacks == b.callbacks - IdsIn(fs) && z.contexts == b.contexts - IdsIn(fs)
  }

  /** Answers are expected one by one exactly when their ids are distinct and known. */
  lemma {:induction false} AnswersExact(b: Book, fs: seq<Frame>)
    ensures AllExpected(b, fs) <==> DistinctIds(fs) && forall f | f in fs :: Expects(b, f)
    ensures AllExpected(b, fs) ==> Outcome(b, fs, AllAnswered(b, fs))
    decreases |fs|
  {
    if fs != [] {
      assert fs[0] in fs;
      if Expects(b, fs[0]) {
        AnswersExact(Answered(b, fs[0]), fs[1..]);
        FirstDistinct(b, fs);
        if AllExpected(b, fs) { OutcomeMore(b, fs, AllAnswered(b, fs)); }
      }
    }
  }

  lemma FirstDistinct(b: Book, fs: seq<Frame>)
    requires fs != [] && Expects(b, fs[0])
    ensures DistinctIds(fs) && (forall f | f in fs :: Expects(b, f)) <==>
            DistinctIds(fs[1..]) && forall f | f in fs[1..] :: Expects(Answered(b, fs[0]), f)
  {
    var rest := fs[1..];
    assert forall i | 0 < i < |fs| :: fs[i] == rest[i - 1];
    if DistinctIds(fs) && forall f | f in fs :: Expects(b, f) {
      forall f | f in rest ensures Expects(Answered(b, fs[0]), f) {
        var k :| 0 <= k < |rest| && rest[k] == f;
        assert fs[k + 1] == f && fs[0].id != fs[k + 1].id && Expects(b, fs[k + 1]);
      }
    }
    if DistinctIds(rest) && forall f | f in rest :: Expects(Answered(b, fs[0]), f) {
      forall i, j | 0 <= i < j < |fs| ensures fs[i].id != fs[j].id {
        assert rest[j - 1] in rest;
        if i > 0 { assert rest[i - 1].id != rest[j - 1].id; }
      }
      forall f | f in fs ensures Expects(b, f) {
        if f != fs[0] { assert f in rest; }
      }
    }
  }

  lemma OutcomeMore(b: Book, fs: seq<Frame>, z: Book)
    requires fs != [] && Expects(b, fs[0]) && Outcome(Answered(b, fs[0]), fs[1..], z)
    ensures Outcome(b, fs, z)
  {
    var a, rest := Answered(b, fs[0]), fs[1..];
    assert forall i | 0 < i < |fs| :: fs[i] == rest[i - 1];
    assert IdsIn(fs) == IdsIn(rest) + {fs[0].id} by {
      assert fs == [fs[0]] + rest;
    }
    assert a.callbacks - IdsIn(rest) == b.callbacks - IdsIn(fs);
    assert a.contexts - IdsIn(rest) == b.contexts - IdsIn(fs);
    forall i | 0 <= i < |fs|
      ensures Expects(b, fs[i])
      ensures z.calls[|b.calls| + i] == Made(b.callbacks[fs[i].id], b.contexts[fs[i].id], fs[i].id, fs[i].data)
    {
      if i > 0 { assert Expects(a, rest[i - 1]) && |b.calls| + i == |a.calls| + (i - 1); }
    }
  }

  // ---------------------------------------------------------------- reading answers

  /** A reader at field `s` with bytes `data` will end up as `d`, and its book as `z`. */
  predicate Heads(b: Book, s: Awaiting, data: seq<byte>, d: Drained, z: Book) {
    var r := Drive(s, data);
    && r.Drained? && d.Drained? && r.state == d.state && r.rest == d.rest
    && AllExpected(b, r.frames) && AllAnswered(b, r.frames) == z
  }

  lemma DriveRests(s: Awaiting, data: seq<byte>)
    ensures var d := Drive(s, data); d.Drained? ==> |d.rest| < Need(d.state)
  {
  }

  lemma HeadsStart(b: Book, s: Awaiting, data: seq<byte>)
    requires var d := Drive(s, data); d.Drained? && AllExpected(b, d.frames)
    ensures var d := Drive(s, data); Heads(b, s, data, d, AllAnswered(b, d.frames))
  {
  }

  /** The next field is there; it may complete an answer, which is expected. */
  lemma HeadsOn(b: Book, s: Awaiting, data: seq<byte>, d: Drained, z: Book)
    requires Heads(b, s, data, d, z) && |data| >= Need(s)
    ensures var t := Take(s, data[..Need(s)]);
        && t.Taken?
        && (t.frames == [] ==> Heads(b, t.next, data[Need(s)..], d, z))
        && (|t.frames| == 1 ==>
              Expects(b, t.frames[0]) && Heads(Answered(b, t.frames[0]), t.next, data[Need(s)..], d, z))
  {
    hide Take;
    var t := Take(s, data[..Need(s)]);
    var r := Drive(t.next, data[Need(s)..]);
    assert r.Drained?;
    if t.frames == [] {
      assert [] + r.frames == r.frames;
    } else if |t.frames| == 1 {
      assert (t.frames + r.frames)[0] == t.frames[0] && (t.frames + r.frames)[1..] == r.frames;
    }
  }

  /** The next field is not there: this is the end. */
  lemma HeadsDone(b: Book, s: Awaiting, data: seq<byte>, d: Drained, z: Book)
    requires Heads(b, s, data, d, z) && |data| < Need(s)
    ensures s == d.state && data == d.rest && b == z
  {
  }

  /** What is expected of all answers is expected of the first ones. */
  lemma {:induction false} ExpectedPrefix(b: Book, x: seq<Frame>, y: seq<Frame>)
    requires AllExpected(b, x + y)
    ensures AllExpected(b, x)
    decreases |x|
  {
    if x != [] {
      assert (x + y)[0] == x[0] && (x + y)[1..] == x[1..] + y;
      ExpectedPrefix(Answered(b, x[0]), x[1..], y);
    }
  }

  /** A reader that does not get stuck in all the bytes does not in the first of them. */
  lemma DrivenFront(s: Awaiting, rest: seq<byte>, offered: seq<byte>, n: nat)
    requires n <= |offered| && Drive(s, rest + offered).Drained?
    ensures Drive(s, rest + offered[..n]).Drained?
  {
    assert rest + offered == (rest + offered[..n]) + offered[n..];
    DriveOn(s, rest + offered[..n], offered[n..]);
  }

  lemma ReadableFront(b: Book, s: Awaiting, rest: seq<byte>, offered: seq<byte>, n: nat)
    requires n <= |offered|
    requires var d := Drive(s, rest + offered); d.Drained? && AllExpected(b, d.frames)
    ensures var d := Drive(s, rest + offered[..n]); d.Drained? && AllExpected(b, d.frames)
  {
    assert rest + offered == (rest + offered[..n]) + offered[n..];
    DriveOn(s, rest + offered[..n], offered[n..]);
    hide Drive;
    var d := Drive(s, rest + offered[..n]);
    ExpectedPrefix(b, d.frames, Drive(d.state, d.rest + offered[n..]).frames);
  }

  /** What a reader has made of `data`: the field it now waits for, the bytes left, and its
      book with every complete answer entered. */
  predicate ReadsAs(b: Book, s: Awaiting, data: seq<byte>, b': Book, s': Awaiting, rest: seq<byte>) {
    var d := Drive(s, data);
    d.Drained? && AllExpected(b, d.frames) && s' == d.state && rest == d.rest && b' == AllAnswered(b, d.frames)
  }
}
