/** The client of the provider: requests of all connections share it; its answers come in
    any order and find their connection by id. */
module DubboClient {
  import opened Wire
  import opened Frames
  import opened DubboBody
  import opened Buffers
  import opened Answers
  import opened MeshMessages
  import opened Encoders

  function EncodeJob(j: Job): seq<byte> { EncodeDubbo(FLAGS, j.id, Body(j.key, j.data)) }

  function EncodeJobs(js: seq<Job>): seq<byte> {
    if js == [] then [] else EncodeJob(js[0]) + EncodeJobs(js[1..])
  }

  /** The buffers filled so far, and the requests still queued. */
  predicate EncodedSoFar(bufs: seq<byte>, queue: seq<Job>, all: seq<Job>) {
    bufs + EncodeJobs(queue) == EncodeJobs(all)
  }

  lemma StartToEncode(queue: seq<Job>)
    ensures EncodedSoFar([], queue, queue)
  {
  }

  lemma EncodeHead(bufs: seq<byte>, queue: seq<Job>, all: seq<Job>)
    requires queue != [] && EncodedSoFar(bufs, queue, all)
    ensures EncodedSoFar(bufs + EncodeJob(queue[0]), queue[1..], all)
  {
    hide EncodeJob;
    assert bufs + EncodeJob(queue[0]) + EncodeJobs(queue[1..]) == bufs + (EncodeJob(queue[0]) + EncodeJobs(queue[1..]));
  }

  lemma NothingToEncode(bufs: seq<byte>, all: seq<Job>)
    requires EncodedSoFar(bufs, [], all)
    ensures bufs == EncodeJobs(all)
  {
  }

  method EncodedJob(j: Job) returns (bytes: seq<byte>)
    ensures bytes == EncodeJob(j)
  {
    var buffer, len := EncodeDubboRequest(j.id, j.key, j.data);
    bytes := buffer[..len];
  }

  /** The sending side of the client. */
  datatype Sender = Sender(connected: bool, queue: seq<Job>, written: seq<byte>, book: Book)

  /** dubbo_fetch */
  function JobFetched(s: Sender, j: Job, callback: nat, context: nat): Sender {
    var q, b := s.queue + [j], Registered(s.book, j.id, callback, context);
    if s.connected then Sender(true, [], s.written + EncodeJobs(q), b) else Sender(false, q, s.written, b)
  }

  class DubboClient {
    const input: Inlet
    var connected: bool
    var queue: seq<Job>
    var callbacks: map<int, nat>
    var contexts: map<int, nat>
    var readState: nat
    var respId: int
    var dataLen: int
    var written: seq<byte>
    var calls: seq<Made>   // callbacks made

    constructor (input: Inlet)
      requires input.Valid()
      ensures this.input == input && Valid() && Await() == DubboMagic(true)
      ensures SenderNow() == Sender(false, [], [], Book(map[], map[], []))
    {
      this.input := input;
      connected, queue, callbacks, contexts, written := false, [], map[], map[], [];
      readState, respId, dataLen, calls := 0, 0, 0, [];
    }

    ghost function BookNow(): Book
      reads this
    {
      Book(callbacks, contexts, calls)
    }

    ghost function SenderNow(): Sender
      reads this
    {
      Sender(connected, queue, written, BookNow())
    }

    ghost function Await(): Awaiting
      reads this
    {
      if readState == 0 then DubboMagic(true)
      else if readState == 1 then DubboId(true)
      else if readState == 2 then DubboLen(true, respId)
      else DubboData(true, respId, if dataLen < 0 then 0 else dataLen)
    }

    ghost predicate Valid()
      reads this, input, input.pool, input.active
    {
      input.Valid() && readState <= 3 && (readState == 3 ==> dataLen >= 0)
    }

    // -------------------------------------------------------------- writing

    method HandleQueue()
      modifies `queue, `written
      ensures if connected then queue == [] && written == old(written) + EncodeJobs(old(queue))
              else queue == old(queue) && written == old(written)
    {
      hide *;
      if !connected { return; }
      StartToEncode(queue);
      var bufs: seq<byte> := [];
      ghost var all := queue;
      while queue != []
        invariant EncodedSoFar(bufs, queue, all)
        invariant written == old(written)
        decreases |queue|
      {
        var bytes := EncodedJob(queue[0]);
        EncodeHead(bufs, queue, all);
        bufs := bufs + bytes;
        queue := queue[1..];
      }
      NothingToEncode(bufs, all);
      written := written + bufs;
    }

    method Fetch(request: Job, callback: nat, context: nat)
      modifies `queue, `written, `callbacks, `contexts
      ensures SenderNow() == JobFetched(old(SenderNow()), request, callback, context)
    {
      hide EncodeJobs;
      queue := queue + [request];
      callbacks := callbacks[request.id := callback];
      contexts := contexts[request.id := context];
      HandleQueue();
    }

    method OnConnect()
      modifies `connected, `queue, `written
      ensures connected && queue == [] && written == old(written) + EncodeJobs(old(queue))
    {
      connected := true;
      HandleQueue();
    }

    // -------------------------------------------------------------- reading

    ghost predicate Heading(d: Drained, z: Book)
      reads this, input, input.pool, input.active, if input.active == null then {} else {input.active.buf}
    {
      Valid() && Heads(BookNow(), Await(), input.Unread(), d, z)
    }

    /** The magic number; a wrong one, at which the loop would not advance, is excluded by
        the stream. */
    method ReadMagic(ghost d: Drained, ghost z: Book)
      requires Heading(d, z) && readState == 0 && input.Available() >= 4
      modifies `readState, input.active
      ensures Heading(d, z) && readState == 1 && input.active == old(input.active)
      ensures input.Available() == old(input.Available()) - 4
    {
      hide Heads;
      HeadsOn(BookNow(), Await(), input.Unread(), d, z);
      var fine := input.TakeMagic(0xda, 0xbb, 4);
      assert fine;
      if fine { readState := 1; }
    }

    method ReadId(ghost d: Drained, ghost z: Book)
      requires Heading(d, z) && readState == 1 && input.Available() >= 8
      modifies `readState, `respId, input.active
      ensures Heading(d, z) && readState == 2 && input.active == old(input.active)
      ensures input.Available() == old(input.Available()) - 8
    {
      hide Heads, ReadLong;
      HeadsOn(BookNow(), Await(), input.Unread(), d, z);
      respId := input.TakeLong();
      readState := 2;
    }

    method ReadLength(ghost d: Drained, ghost z: Book)
      requires Heading(d, z) && readState == 2 && input.Available() >= 4
      modifies `readState, `dataLen, input.active
      ensures Heading(d, z) && readState == 3 && input.active == old(input.active)
      ensures input.Available() == old(input.Available()) - 4
    {
      hide Heads, ReadInt;
      HeadsOn(BookNow(), Await(), input.Unread(), d, z);
      dataLen := input.TakeInt();
      readState := 3;
    }

    method ReadData(ghost d: Drained, ghost z: Book)
      requires Heading(d, z) && readState == 3 && input.Available() >= dataLen && input.active != null
      modifies `readState, `callbacks, `contexts, `calls, input.active
      ensures Heading(d, z) && readState == 0 && input.active == old(input.active)
      ensures input.Available() == old(input.Available()) - dataLen
    {
      hide Heads, CopyString;
      HeadsOn(BookNow(), Await(), input.Unread(), d, z);
      var result := input.TakeString(dataLen);
      ghost var f := Response(respId, result);
      assert Expects(BookNow(), f);
      readState := 0;
      calls := calls + [Made(callbacks[respId], contexts[respId], respId, result)];
      callbacks := callbacks - {respId};
      contexts := contexts - {respId};
    }

    /** One turn of the loop of `_d_read_cb`; false when it breaks. */
    method Turn(ghost d: Drained, ghost z: Book) returns (more: bool)
      requires Heading(d, z) && Need(Await()) > 0 && input.Available() > 0
      modifies `readState, `respId, `dataLen, `callbacks, `contexts, `calls, input.active
      ensures Heading(d, z) && Need(Await()) > 0 && input.active == old(input.active)
      ensures if more then input.Available() < old(input.Available()) else input.Available() < Need(Await())
    {
      hide Heads, BookNow, Drive, Take;
      if readState == 0 {
        if input.Available() < 4 { return false; }
        ReadMagic(d, z);
      }
      if readState == 1 {
        if input.Available() < 8 { return false; }
        ReadId(d, z);
      }
      if readState == 2 {
        if input.Available() < 4 { return false; }
        ReadLength(d, z);
      }
      if input.Available() < dataLen { return false; }
      ReadData(d, z);
      return true;
    }

    /** `_d_read_cb` after bytes have arrived. */
    method ReadCallback()
      requires Valid() && Need(Await()) > 0
      requires var d := Drive(Await(), input.Unread()); d.Drained? && AllExpected(BookNow(), d.frames)
      modifies `readState, `respId, `dataLen, `callbacks, `contexts, `calls, input.active
      ensures Valid() && Need(Await()) > 0 && input.active == old(input.active)
      ensures ReadsAs(old(BookNow()), old(Await()), old(input.Unread()), BookNow(), Await(), input.Unread())
    {
      ghost var d := Drive(Await(), input.Unread());
      ghost var z := AllAnswered(BookNow(), d.frames);
      HeadsStart(BookNow(), Await(), input.Unread());
      hide Heads, Drive, AllExpected, AllAnswered;
      var more := true;
      while more && input.Available() > 0
        invariant Heading(d, z) && input.active == old(input.active) && Need(Await()) > 0
        invariant !more ==> input.Available() < Need(Await())
        decreases more, input.Available()
      {
        more := Turn(d, z);
      }
      HeadsDone(BookNow(), Await(), input.Unread(), d, z);
    }

    lemma FootprintAside()
      ensures this !in input.Footprint()
    {
    }

    /** The allocation callback, the arrival of as many of the offered bytes as there is room
        for, and the read callback: no step is without progress. */
    method Receive(suggested: nat, offered: seq<byte>) returns (n: nat)
      requires Valid() && |input.Unread()| < Need(Await()) <= suggested && suggested >= 3
      requires var d := Drive(Await(), input.Unread() + offered); d.Drained? && AllExpected(BookNow(), d.frames)
      modifies `readState, `respId, `dataLen, `callbacks, `contexts, `calls, input.Footprint()
      ensures n <= |offered| && (offered != [] ==> n > 0)
      ensures Valid() && |input.Unread()| < Need(Await())
      ensures input.Recycled() && fresh(input.Footprint() - old(input.Footprint()))
      ensures ReadsAs(old(BookNow()), old(Await()), old(input.Unread()) + offered[..n], BookNow(), Await(),
          input.Unread())
    {
      hide Drive, AllExpected, AllAnswered, ReadInt, ReadLong, Inlet.Footprint;
      FootprintAside();
      ghost var s, b, rest := Await(), BookNow(), input.Unread();
      n := input.Fill(suggested, offered);
      ReadableFront(b, s, rest, offered, n);
      DriveRests(s, rest + offered[..n]);
      ReadCallback();
    }
  }
}
